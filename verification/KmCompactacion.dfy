/** compactar as a fold over the segments in ascending base order, and what it preserves. */
module KmCompactacion {
  import opened Basics
  import opened Intervals
  import opened Sticks
  import opened Contexto
  import opened KmEstado

  /** A pointer into the segment tables, with the range it had when collected. */
  datatype Ref = Ref(c: nat, i: nat, span: Interval)

  // ---------------------------------------------------------------- collecting and sorting

  function RefsDe(c: nat, segs: seq<Segmento>): (r: seq<Ref>)
    ensures |r| == |segs|
    ensures forall i :: 0 <= i < |r| ==> r[i] == Ref(c, i, Span(segs[i]))
  {
    seq(|segs|, i requires 0 <= i < |segs| => Ref(c, i, Span(segs[i])))
  }

  /** The pointers to every segment of the contexts from `c` on, in list order. */
  function Refs(ctxs: seq<Contexto>, c: nat): seq<Ref>
    requires c <= |ctxs|
    decreases |ctxs| - c
  {
    if c == |ctxs| then [] else RefsDe(c, ctxs[c].segmentos) + Refs(ctxs, c + 1)
  }

  function RefCover(refs: seq<Ref>, a: int): nat {
    if refs == [] then 0 else Bit(Holds(refs[0].span, a)) + RefCover(refs[1..], a)
  }

  function Insertar(r: Ref, s: seq<Ref>): (t: seq<Ref>)
    ensures multiset(t) == multiset(s) + multiset{r}
  {
    if s == [] then [r]
    else if r.span.base <= s[0].span.base then [r] + s
    else
      assert s == [s[0]] + s[1..];
      [s[0]] + Insertar(r, s[1..])
  }

  /** list_sort with comparar_base_segmento. */
  function Ordenar(s: seq<Ref>): (t: seq<Ref>)
    ensures multiset(t) == multiset(s)
  {
    if s == [] then []
    else
      assert s == [s[0]] + s[1..];
      Insertar(s[0], Ordenar(s[1..]))
  }

  predicate Ordenada(s: seq<Ref>) {
    forall i, j :: 0 <= i < j < |s| ==> s[i].span.base <= s[j].span.base
  }

  lemma {:induction false} InsertarOrdena(r: Ref, s: seq<Ref>)
    requires Ordenada(s)
    ensures Ordenada(Insertar(r, s))
  {
    if s != [] && r.span.base > s[0].span.base {
      InsertarOrdena(r, s[1..]);
      var u := Insertar(r, s[1..]);
      forall j | 0 <= j < |u|
        ensures s[0].span.base <= u[j].span.base
      {
        assert u[j] in multiset(u);
        assert u[j] == r || u[j] in s[1..];
      }
    }
  }

  lemma {:induction false} OrdenarOrdena(s: seq<Ref>)
    ensures Ordenada(Ordenar(s))
  {
    if s != [] {
      OrdenarOrdena(s[1..]);
      InsertarOrdena(s[0], Ordenar(s[1..]));
    }
  }

  lemma {:induction false} InsertarCover(r: Ref, s: seq<Ref>, a: int)
    ensures RefCover(Insertar(r, s), a) == RefCover(s, a) + Bit(Holds(r.span, a))
  {
    if s != [] && r.span.base > s[0].span.base {
      InsertarCover(r, s[1..], a);
    }
  }

  lemma {:induction false} OrdenarCover(s: seq<Ref>, a: int)
    ensures RefCover(Ordenar(s), a) == RefCover(s, a)
  {
    if s != [] {
      OrdenarCover(s[1..], a);
      InsertarCover(s[0], Ordenar(s[1..]), a);
    }
  }

  // ---------------------------------------------------------------- moving one segment

  predicate RefOk(ctxs: seq<Contexto>, r: Ref) {
    r.c < |ctxs| && r.i < |ctxs[r.c].segmentos| && Span(ctxs[r.c].segmentos[r.i]) == r.span
  }

  function ConBase(sticks: seq<StickInfo>, ctxs: seq<Contexto>, r: Ref, cursor: U32): seq<Contexto>
    requires RefOk(ctxs, r)
  {
    var ctx := ctxs[r.c];
    var g := ctx.segmentos[r.i];
    var k := StickAt(sticks, cursor);
    var g2 := Segmento(g.id, if k.Some? && k.value <= U32_MAX then k.value else g.stick, cursor, g.limite);
    ctxs[r.c := ctx.(segmentos := ctx.segmentos[r.i := g2])]
  }

  /** The bytes of the segment are copied to `cursor` and its entry updated, unless it already starts there. */
  function Mover(s: Km, r: Ref, cursor: int): Km {
    if !RefOk(s.contextos, r) || r.span.base == cursor || !(0 <= cursor <= U32_MAX) then s
    else
      var datos := Bytes(s.mem, r.span.base, r.span.size);
      s.(mem := if cursor + |datos| <= |s.mem| then Splice(s.mem, cursor, datos) else s.mem,
         contextos := ConBase(s.sticks, s.contextos, r, cursor))
  }

  /** What the loop of compactar maintains: `refs` are the segments still to move, all at or above `cursor`, everything else is packed below it. */
  ghost predicate PorMover(s: Km, refs: seq<Ref>, cursor: int) {
    && Contiguous(s.sticks) && |s.mem| == Total(s.sticks)
    && SegmentosOk(s.sticks, s.contextos)
    && 0 <= cursor <= |s.mem|
    && Pendientes(s, refs, cursor)
    && Hechos(s, refs, cursor)
    && Cubierto(s, refs, cursor)
  }

  predicate Pendientes(s: Km, refs: seq<Ref>, cursor: int) {
    && (forall j :: 0 <= j < |refs| ==>
          RefOk(s.contextos, refs[j]) && cursor <= refs[j].span.base && refs[j].span.base + refs[j].span.size <= |s.mem|)
    && (forall j, l :: 0 <= j < l < |refs| ==> refs[j].span.base + refs[j].span.size <= refs[l].span.base)
  }

  predicate Hechos(s: Km, refs: seq<Ref>, cursor: int) {
    forall c, i :: 0 <= c < |s.contextos| && 0 <= i < |s.contextos[c].segmentos| ==> Hecho(s, refs, cursor, c, i)
  }

  ghost predicate Cubierto(s: Km, refs: seq<Ref>, cursor: int) {
    forall a {:trigger Cover(Todos(s.contextos), a)} ::
      Cover(Todos(s.contextos), a) == Bit(0 <= a < cursor) + RefCover(refs, a)
  }

  /** Segment (c, i) is either still to move or already packed. */
  predicate Hecho(s: Km, refs: seq<Ref>, cursor: int, c: nat, i: nat)
    requires c < |s.contextos| && i < |s.contextos[c].segmentos|
  {
    var g := s.contextos[c].segmentos[i];
    Ref(c, i, Span(g)) in refs || g.base + g.limite <= cursor
  }

  /** The same tables but for bases and sticks, over memories that hold the same bytes for every segment. */
  ghost predicate MismoContenido(s: Km, t: Km) {
    && |t.contextos| == |s.contextos| && |t.mem| == |s.mem|
    && forall c :: 0 <= c < |s.contextos| ==> MismosSegmentos(s, t, c)
  }

  predicate MismosSegmentos(s: Km, t: Km, c: nat)
    requires c < |s.contextos| == |t.contextos|
  {
    var g, h := s.contextos[c], t.contextos[c];
    && h.pid == g.pid && h.registros == g.registros && |h.segmentos| == |g.segmentos|
    && (forall i :: 0 <= i < |g.segmentos| ==> h.segmentos[i].limite == g.segmentos[i].limite)
    && Residentes(t.mem, h.segmentos) == Residentes(s.mem, g.segmentos)
  }

  // ---------------------------------------------------------------- one step

  lemma SpansUpdate(segs: seq<Segmento>, i: nat, g: Segmento, a: int)
    requires i < |segs|
    ensures Cover(Spans(segs[i := g]), a) + Bit(Holds(Span(segs[i]), a)) == Cover(Spans(segs), a) + Bit(Holds(Span(g), a))
  {
    assert Spans(segs[i := g]) == Spans(segs)[i := Span(g)];
    CoverUpdate(Spans(segs), i, Span(g), a);
  }

  lemma CoverSegmento(ctxs: seq<Contexto>, c: nat, i: nat, g: Segmento, a: int)
    requires c < |ctxs| && i < |ctxs[c].segmentos|
    ensures var d := ctxs[c].(segmentos := ctxs[c].segmentos[i := g]);
            Cover(Todos(ctxs[c := d]), a) + Bit(Holds(Span(ctxs[c].segmentos[i]), a)) == Cover(Todos(ctxs), a) + Bit(Holds(Span(g), a))
  {
    var d := ctxs[c].(segmentos := ctxs[c].segmentos[i := g]);
    CoverTodosUpdate(ctxs, c, d, a);
    SpansUpdate(ctxs[c].segmentos, i, g, a);
  }

  /** The other segments are clear of the range the first pending one is copied to. */
  lemma Despejado(s: Km, refs: seq<Ref>, cursor: int, c: nat, i: nat)
    requires PorMover(s, refs, cursor) && refs != []
    requires c < |s.contextos| && i < |s.contextos[c].segmentos| && (c != refs[0].c || i != refs[0].i)
    ensures var g := s.contextos[c].segmentos[i];
            g.base + g.limite <= cursor || cursor + refs[0].span.size <= g.base
  {
    var g := s.contextos[c].segmentos[i];
    assert Hecho(s, refs, cursor, c, i);
    if Ref(c, i, Span(g)) in refs {
      var j :| 0 <= j < |refs| && refs[j] == Ref(c, i, Span(g));
      assert refs[0].span.base + refs[0].span.size <= refs[j].span.base;
    }
  }

  lemma PendienteNoVacio(s: Km, refs: seq<Ref>, cursor: int, j: nat)
    requires PorMover(s, refs, cursor) && j < |refs|
    ensures 0 < refs[j].span.size <= I32_MAX
  {
    assert RefOk(s.contextos, refs[j]);
    assert SegmentoOk(s.sticks, s.contextos[refs[j].c].segmentos[refs[j].i]);
  }

  lemma MoverTabla(s: Km, refs: seq<Ref>, cursor: int)
    requires PorMover(s, refs, cursor) && refs != []
    ensures var t := Mover(s, refs[0], cursor);
      && |t.mem| == |s.mem|
      && SegmentosOk(t.sticks, t.contextos)
      && forall c, i :: 0 <= c < |s.contextos| && 0 <= i < |s.contextos[c].segmentos| ==>
           && |t.contextos[c].segmentos| == |s.contextos[c].segmentos|
           && t.contextos[c].segmentos[i].limite == s.contextos[c].segmentos[i].limite
           && (if c == refs[0].c && i == refs[0].i then t.contextos[c].segmentos[i].base == cursor
               else t.contextos[c].segmentos[i] == s.contextos[c].segmentos[i])
  {
    var r := refs[0];
    PendienteNoVacio(s, refs, cursor, 0);
    if r.span.base != cursor {
      StickAtTotal(s.sticks, cursor);
      CountBound(s.sticks);
      var g := s.contextos[r.c].segmentos[r.i];
      assert SegmentoOk(s.sticks, g);
      var t := Mover(s, r, cursor);
      assert SegmentoOk(s.sticks, t.contextos[r.c].segmentos[r.i]);
      SegmentosOkUpdate(s.sticks, s.contextos, r.c, t.contextos[r.c]);
    }
  }

  lemma MoverContenido(s: Km, refs: seq<Ref>, cursor: int)
    requires PorMover(s, refs, cursor) && refs != []
    ensures MismoContenido(s, Mover(s, refs[0], cursor))
  {
    hide Cubierto, Contiguous;
    var r := refs[0];
    var t := Mover(s, r, cursor);
    MoverTabla(s, refs, cursor);
    if r.span.base != cursor {
      forall c, i | 0 <= c < |s.contextos| && 0 <= i < |s.contextos[c].segmentos|
        ensures Residentes(t.mem, t.contextos[c].segmentos)[i] == Residentes(s.mem, s.contextos[c].segmentos)[i]
      {
        var g := s.contextos[c].segmentos[i];
        if c == r.c && i == r.i {
          assert Bytes(t.mem, cursor, r.span.size) == Bytes(s.mem, r.span.base, r.span.size);
        } else {
          Despejado(s, refs, cursor, c, i);
          BytesIguales(s.mem, t.mem, g.base, g.limite);
        }
      }
    }
  }

  lemma MoverPendientes(s: Km, refs: seq<Ref>, cursor: int)
    requires PorMover(s, refs, cursor) && refs != []
    ensures Pendientes(Mover(s, refs[0], cursor), refs[1..], cursor + refs[0].span.size)
  {
    MoverTabla(s, refs, cursor);
    var t := Mover(s, refs[0], cursor);
    forall j | 1 <= j < |refs|
      ensures RefOk(t.contextos, refs[j]) && cursor + refs[0].span.size <= refs[j].span.base
    {
      PendienteNoVacio(s, refs, cursor, 0);
      assert RefOk(s.contextos, refs[j]);
      assert refs[0].span.base + refs[0].span.size <= refs[j].span.base;
    }
  }

  lemma MoverHecho(s: Km, refs: seq<Ref>, cursor: int, c: nat, i: nat)
    requires PorMover(s, refs, cursor) && refs != []
    requires c < |s.contextos| && i < |s.contextos[c].segmentos|
    ensures var t := Mover(s, refs[0], cursor);
            c < |t.contextos| && i < |t.contextos[c].segmentos| && Hecho(t, refs[1..], cursor + refs[0].span.size, c, i)
  {
    MoverTabla(s, refs, cursor);
    PendienteNoVacio(s, refs, cursor, 0);
    assert Hecho(s, refs, cursor, c, i);
    var g := s.contextos[c].segmentos[i];
    if (c != refs[0].c || i != refs[0].i) && Ref(c, i, Span(g)) in refs {
      var j :| 0 <= j < |refs| && refs[j] == Ref(c, i, Span(g));
      assert refs[1..][j - 1] == refs[j];
    }
  }

  lemma MoverHechos(s: Km, refs: seq<Ref>, cursor: int)
    requires PorMover(s, refs, cursor) && refs != []
    ensures Hechos(Mover(s, refs[0], cursor), refs[1..], cursor + refs[0].span.size)
  {
    var t := Mover(s, refs[0], cursor);
    var rest, next := refs[1..], cursor + refs[0].span.size;
    MoverTabla(s, refs, cursor);
    forall c, i | 0 <= c < |t.contextos| && 0 <= i < |t.contextos[c].segmentos|
      ensures Hecho(t, rest, next, c, i)
    {
      MoverHecho(s, refs, cursor, c, i);
    }
  }

  lemma MoverCubierto(s: Km, refs: seq<Ref>, cursor: int)
    requires PorMover(s, refs, cursor) && refs != []
    ensures Cubierto(Mover(s, refs[0], cursor), refs[1..], cursor + refs[0].span.size)
  {
    var r := refs[0];
    var t := Mover(s, r, cursor);
    forall a
      ensures Cover(Todos(t.contextos), a) == Bit(0 <= a < cursor + r.span.size) + RefCover(refs[1..], a)
    {
      assert Cover(Todos(s.contextos), a) == Bit(0 <= a < cursor) + RefCover(refs, a);
      if r.span.base != cursor {
        MoverTabla(s, refs, cursor);
        CoverSegmento(s.contextos, r.c, r.i, t.contextos[r.c].segmentos[r.i], a);
      }
    }
  }

  lemma MoverPaso(s: Km, refs: seq<Ref>, cursor: int)
    requires PorMover(s, refs, cursor) && refs != []
    ensures PorMover(Mover(s, refs[0], cursor), refs[1..], cursor + refs[0].span.size)
  {
    MoverTabla(s, refs, cursor);
    MoverPendientes(s, refs, cursor);
    MoverHechos(s, refs, cursor);
    MoverCubierto(s, refs, cursor);
  }

  // ---------------------------------------------------------------- the whole loop

  function RefSum(refs: seq<Ref>): nat {
    if refs == [] then 0 else refs[0].span.size + RefSum(refs[1..])
  }

  function MoverTodos(s: Km, refs: seq<Ref>, cursor: int): Km
    decreases |refs|
  {
    if refs == [] then s
    else MoverTodos(Mover(s, refs[0], cursor), refs[1..], cursor + refs[0].span.size)
  }

  ghost predicate SeMantiene(P: (Km, seq<Ref>, int) -> bool) {
    forall t, r, rest, c :: P(t, [r] + rest, c) ==> P(Mover(t, r, c), rest, c + r.span.size)
  }

  /** Whatever one iteration of the loop keeps, the loop keeps. */
  lemma {:induction false} MoverTodosInduccion(P: (Km, seq<Ref>, int) -> bool, s: Km, refs: seq<Ref>, cursor: int, fin: int)
    requires P(s, refs, cursor) && fin == cursor + RefSum(refs)
    requires SeMantiene(P)
    ensures P(MoverTodos(s, refs, cursor), [], fin)
    decreases |refs|
  {
    if refs != [] {
      assert refs == [refs[0]] + refs[1..];
      MoverTodosInduccion(P, Mover(s, refs[0], cursor), refs[1..], cursor + refs[0].span.size, fin);
    }
  }

  lemma MismoContenidoTrans(s: Km, t: Km, u: Km)
    requires MismoContenido(s, t) && MismoContenido(t, u)
    ensures MismoContenido(s, u)
  {
    forall c | 0 <= c < |s.contextos|
      ensures MismosSegmentos(s, u, c)
    {
      assert MismosSegmentos(s, t, c) && MismosSegmentos(t, u, c);
    }
  }

  /** The loop invariant, together with what has been preserved since the state `s0` the loop started in. */
  ghost predicate DesdeInicio(s0: Km, t: Km, refs: seq<Ref>, cursor: int) {
    PorMover(t, refs, cursor) && MismoContenido(s0, t) && t == s0.(mem := t.mem, contextos := t.contextos)
  }

  lemma DesdeInicioPaso(s0: Km, t: Km, r: Ref, rest: seq<Ref>, cursor: int)
    requires DesdeInicio(s0, t, [r] + rest, cursor)
    ensures DesdeInicio(s0, Mover(t, r, cursor), rest, cursor + r.span.size)
  {
    var refs := [r] + rest;
    assert refs[1..] == rest;
    MoverPaso(t, refs, cursor);
    MoverContenido(t, refs, cursor);
    MismoContenidoTrans(s0, t, Mover(t, r, cursor));
  }

  ghost function Invariante(s0: Km): (Km, seq<Ref>, int) -> bool {
    (t, refs, cursor) => DesdeInicio(s0, t, refs, cursor)
  }

  lemma InvariantePaso(s0: Km)
    ensures SeMantiene(Invariante(s0))
  {
    forall t, r, rest, c | DesdeInicio(s0, t, [r] + rest, c)
      ensures Invariante(s0)(Mover(t, r, c), rest, c + r.span.size)
    {
      DesdeInicioPaso(s0, t, r, rest, c);
    }
  }

  lemma {:induction false} RefsValidos(ctxs: seq<Contexto>, c: nat, r: Ref)
    requires c <= |ctxs|
    ensures r in Refs(ctxs, c) <==> c <= r.c && RefOk(ctxs, r)
    decreases |ctxs| - c
  {
    if c < |ctxs| {
      RefsValidos(ctxs, c + 1, r);
      var aqui := RefsDe(c, ctxs[c].segmentos);
      if r.c == c && RefOk(ctxs, r) {
        assert aqui[r.i] == r;
      }
    }
  }

  lemma {:induction false} RefCoverAppend(s: seq<Ref>, t: seq<Ref>, a: int)
    ensures RefCover(s + t, a) == RefCover(s, a) + RefCover(t, a)
  {
    if s == [] {
      assert s + t == t;
    } else {
      assert (s + t)[1..] == s[1..] + t;
      RefCoverAppend(s[1..], t, a);
    }
  }

  lemma {:induction false} RefCoverSpans(refs: seq<Ref>, spans: seq<Interval>, a: int)
    requires |refs| == |spans| && forall i :: 0 <= i < |refs| ==> refs[i].span == spans[i]
    ensures RefCover(refs, a) == Cover(spans, a)
  {
    if refs != [] {
      RefCoverSpans(refs[1..], spans[1..], a);
    }
  }

  lemma {:induction false} RefsCover(ctxs: seq<Contexto>, c: nat, a: int)
    requires c <= |ctxs|
    ensures RefCover(Refs(ctxs, c), a) == Cover(Todos(ctxs[c..]), a)
    decreases |ctxs| - c
  {
    if c < |ctxs| {
      RefsCover(ctxs, c + 1, a);
      var aqui := RefsDe(c, ctxs[c].segmentos);
      RefCoverAppend(aqui, Refs(ctxs, c + 1), a);
      RefCoverSpans(aqui, Spans(ctxs[c].segmentos), a);
      CoverAppend(Spans(ctxs[c].segmentos), Todos(ctxs[c + 1..]), a);
      assert ctxs[c..][1..] == ctxs[c + 1..];
    }
  }

  lemma {:induction false} RefCoverTwo(refs: seq<Ref>, j: nat, l: nat, a: int)
    requires j < l < |refs| && Holds(refs[j].span, a) && Holds(refs[l].span, a)
    ensures RefCover(refs, a) >= 2
  {
    if j == 0 {
      RefCoverOne(refs[1..], l - 1, a);
    } else {
      RefCoverTwo(refs[1..], j - 1, l - 1, a);
    }
  }

  lemma {:induction false} RefCoverOne(refs: seq<Ref>, l: nat, a: int)
    requires l < |refs| && Holds(refs[l].span, a)
    ensures RefCover(refs, a) >= 1
  {
    if l > 0 {
      RefCoverOne(refs[1..], l - 1, a);
    }
  }

  function RefsOrdenadas(ctxs: seq<Contexto>): seq<Ref> {
    Ordenar(Refs(ctxs, 0))
  }

  lemma RefsOrdenadasMiembro(ctxs: seq<Contexto>, r: Ref)
    ensures r in RefsOrdenadas(ctxs) <==> RefOk(ctxs, r)
  {
    RefsValidos(ctxs, 0, r);
    var refs := Refs(ctxs, 0);
    assert r in refs <==> r in multiset(refs);
    assert r in RefsOrdenadas(ctxs) <==> r in multiset(RefsOrdenadas(ctxs));
  }

  lemma RefsOrdenadasCover(ctxs: seq<Contexto>, a: int)
    ensures RefCover(RefsOrdenadas(ctxs), a) == Cover(Todos(ctxs), a)
  {
    OrdenarCover(Refs(ctxs, 0), a);
    RefsCover(ctxs, 0, a);
    assert ctxs[0..] == ctxs;
  }

  /** The sorted pointers of a valid state satisfy the loop invariant at cursor 0. */
  lemma InicioPorMover(s: Km)
    requires Inv(s)
    ensures PorMover(s, RefsOrdenadas(s.contextos), 0)
  {
    var refs := RefsOrdenadas(s.contextos);
    OrdenarOrdena(Refs(s.contextos, 0));
    forall j | 0 <= j < |refs|
      ensures RefOk(s.contextos, refs[j]) && refs[j].span.base + refs[j].span.size <= |s.mem|
    {
      RefsOrdenadasMiembro(s.contextos, refs[j]);
      SegmentoEnMemoria(s, refs[j].c, refs[j].i);
    }
    forall j, l | 0 <= j < l < |refs|
      ensures refs[j].span.base + refs[j].span.size <= refs[l].span.base
    {
      InicioSeparadas(s, j, l);
    }
    forall c, i | 0 <= c < |s.contextos| && 0 <= i < |s.contextos[c].segmentos|
      ensures Hecho(s, refs, 0, c, i)
    {
      RefsOrdenadasMiembro(s.contextos, Ref(c, i, Span(s.contextos[c].segmentos[i])));
    }
    forall a
      ensures Cover(Todos(s.contextos), a) == Bit(0 <= a < 0) + RefCover(refs, a)
    {
      RefsOrdenadasCover(s.contextos, a);
    }
  }

  lemma InicioSeparadas(s: Km, j: nat, l: nat)
    requires Inv(s) && j < l < |RefsOrdenadas(s.contextos)|
    ensures var refs := RefsOrdenadas(s.contextos); refs[j].span.base + refs[j].span.size <= refs[l].span.base
  {
    var refs := RefsOrdenadas(s.contextos);
    OrdenarOrdena(Refs(s.contextos, 0));
    var a := refs[l].span.base;
    RefsOrdenadasMiembro(s.contextos, refs[l]);
    assert SegmentoOk(s.sticks, s.contextos[refs[l].c].segmentos[refs[l].i]);
    if refs[j].span.base + refs[j].span.size > a {
      RefCoverTwo(refs, j, l, a);
      RefsOrdenadasCover(s.contextos, a);
      CoverAtMostOne(s, a);
    }
  }

  function HuecoFinal(cursor: int, total: int): seq<Interval> {
    if 0 <= cursor < total <= U32_MAX then [Interval(cursor, total - cursor)] else []
  }

  function Usado(s: Km): nat {
    RefSum(RefsOrdenadas(s.contextos))
  }

  function Deslizado(s: Km): Km {
    MoverTodos(s, RefsOrdenadas(s.contextos), 0)
  }

  lemma InicioDesde(s: Km)
    requires Inv(s)
    ensures Invariante(s)(s, RefsOrdenadas(s.contextos), 0)
  {
    InicioPorMover(s);
  }

  lemma DeslizadoPreserva(s: Km)
    requires Inv(s)
    ensures Invariante(s)(Deslizado(s), [], Usado(s))
  {
    InicioDesde(s);
    InvariantePaso(s);
    MoverTodosInduccion(Invariante(s), s, RefsOrdenadas(s.contextos), 0, Usado(s));
  }

  /** compactar: every segment moved down in ascending order, one hole left at the end. */
  function Compactado(s: Km): Km {
    Deslizado(s).(huecos := HuecoFinal(Usado(s), |s.mem|))
  }

  /**
   * Compaction preserves meaning: the invariant holds again, every segment of every
   * process keeps id, limit and bytes, and all segments end packed from 0.
   */
  lemma CompactarPreserva(s: Km)
    requires Inv(s)
    ensures Inv(Compactado(s)) && MismoContenido(s, Compactado(s))
    ensures Empaquetado(Compactado(s).contextos, Usado(s)) && Usado(s) <= |s.mem|
  {
    DeslizadoPreserva(s);
    CompactadoContenido(s);
    CompactadoCover(s);
    SwapFrame(s, Compactado(s));
  }

  ghost predicate Empaquetado(ctxs: seq<Contexto>, usado: int) {
    forall a {:trigger Cover(Todos(ctxs), a)} :: Cover(Todos(ctxs), a) == Bit(0 <= a < usado)
  }

  lemma CompactadoContenido(s: Km)
    requires DesdeInicio(s, Deslizado(s), [], Usado(s))
    ensures MismoContenido(s, Compactado(s))
    ensures forall j :: 0 <= j < |s.contextos| ==> Compactado(s).contextos[j].pid == s.contextos[j].pid
  {
    forall j | 0 <= j < |s.contextos|
      ensures MismosSegmentos(s, Compactado(s), j) && Compactado(s).contextos[j].pid == s.contextos[j].pid
    {
      assert MismosSegmentos(s, Deslizado(s), j);
    }
  }

  lemma CompactadoCover(s: Km)
    requires Cubierto(Deslizado(s), [], Usado(s)) && |Deslizado(s).mem| == |s.mem| <= U32_MAX && Usado(s) <= |s.mem|
    ensures Empaquetado(Compactado(s).contextos, Usado(s)) && Tiled(Compactado(s))
  {
    var d, t := Deslizado(s), Compactado(s);
    forall a
      ensures Cover(Todos(t.contextos), a) == Bit(0 <= a < Usado(s))
    {
      assert Cover(Todos(d.contextos), a) == Bit(0 <= a < Usado(s)) + RefCover([], a);
    }
    forall a
      ensures Cover(t.huecos, a) == Bit(Usado(s) <= a < |s.mem|)
    {
    }
  }

  lemma CompactarVista(s: Km)
    requires Inv(s)
    ensures forall q :: Vista(Compactado(s), q) == Vista(s, q)
  {
    DeslizadoPreserva(s);
    CompactadoContenido(s);
    var t := Compactado(s);
    forall j | 0 <= j < |s.contextos|
      ensures Contenido(t, j) == Contenido(s, j)
    {
      assert MismosSegmentos(s, t, j);
    }
    VistaIgual(s, t);
  }

  // ---------------------------------------------------------------- what the loop needs to know

  /** A move that the physical memory can carry out. */
  predicate Movible(s: Km, r: Ref, cursor: int) {
    && RefOk(s.contextos, r) && 0 < r.span.size <= I32_MAX && |s.sticks| <= U32_MAX
    && 0 <= cursor && cursor + r.span.size <= |s.mem| <= U32_MAX && r.span.base + r.span.size <= |s.mem|
  }

  ghost predicate Habilita(P: (Km, seq<Ref>, int) -> bool) {
    forall t, r, rest, c :: P(t, [r] + rest, c) ==> Movible(t, r, c)
  }

  /** Finishing from here ends in state `fin` with the cursor at `usado`. */
  predicate EnRumbo(fin: Km, usado: int, t: Km, refs: seq<Ref>, cursor: int) {
    MoverTodos(t, refs, cursor) == fin && cursor + RefSum(refs) == usado
  }

  ghost function Rumbo(fin: Km, usado: int): (Km, seq<Ref>, int) -> bool {
    (t, refs, cursor) => EnRumbo(fin, usado, t, refs, cursor)
  }

  lemma DesdeInicioMovible(s0: Km, t: Km, r: Ref, rest: seq<Ref>, cursor: int)
    requires DesdeInicio(s0, t, [r] + rest, cursor)
    ensures Movible(t, r, cursor)
  {
    PendienteNoVacio(t, [r] + rest, cursor, 0);
    assert ([r] + rest)[0] == r;
    CountBound(t.sticks);
  }

  lemma EnRumboPaso(fin: Km, usado: int, t: Km, r: Ref, rest: seq<Ref>, cursor: int)
    requires EnRumbo(fin, usado, t, [r] + rest, cursor)
    ensures EnRumbo(fin, usado, Mover(t, r, cursor), rest, cursor + r.span.size)
  {
    assert ([r] + rest)[1..] == rest;
  }

  lemma RumboPaso(fin: Km, usado: int)
    ensures SeMantiene(Rumbo(fin, usado))
  {
    forall t, r, rest, c | EnRumbo(fin, usado, t, [r] + rest, c)
      ensures Rumbo(fin, usado)(Mover(t, r, c), rest, c + r.span.size)
    {
      EnRumboPaso(fin, usado, t, r, rest, c);
    }
  }

  lemma InvarianteHabilita(s: Km)
    ensures Habilita(Invariante(s))
  {
    forall t, r, rest, c | DesdeInicio(s, t, [r] + rest, c)
      ensures Movible(t, r, c)
    {
      DesdeInicioMovible(s, t, r, rest, c);
    }
  }

  lemma RumboInicial(s: Km)
    ensures Rumbo(Deslizado(s), Usado(s))(s, RefsOrdenadas(s.contextos), 0)
  {
  }

  lemma RumboFinal(fin: Km, usado: int, t: Km, cursor: int)
    requires Rumbo(fin, usado)(t, [], cursor)
    ensures t == fin && cursor == usado
  {
  }
}
