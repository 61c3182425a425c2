/** Choosing a hole, creating a segment in it and deleting a segment. */
module KmAsignacion {
  import opened Basics
  import opened Intervals
  import opened Sticks
  import opened Contexto
  import opened KmEstado

  datatype Resultado = Ok | Compactar | Error

  // ---------------------------------------------------------------- hole selection

  predicate HayHueco(huecos: seq<Interval>, n: int) {
    exists i :: 0 <= i < |huecos| && huecos[i].size >= n
  }

  /** Best fit: the first of the smallest holes that are large enough. */
  predicate EsMejor(huecos: seq<Interval>, n: int, i: int) {
    && 0 <= i < |huecos| && huecos[i].size >= n
    && forall j :: 0 <= j < |huecos| && huecos[j].size >= n ==>
      huecos[i].size <= huecos[j].size && (j < i ==> huecos[i].size < huecos[j].size)
  }

  /** Worst fit: the first of the largest holes, if it is large enough. */
  predicate EsPeor(huecos: seq<Interval>, n: int, i: int) {
    && 0 <= i < |huecos| && huecos[i].size >= n
    && forall j :: 0 <= j < |huecos| ==>
      huecos[j].size <= huecos[i].size && (j < i ==> huecos[j].size < huecos[i].size)
  }

  predicate Elegido(peor: bool, huecos: seq<Interval>, n: int, i: int) {
    if peor then EsPeor(huecos, n, i) else EsMejor(huecos, n, i)
  }

  /** The holes after the first `n` bytes of hole `i` are taken. */
  function Tomar(huecos: seq<Interval>, i: nat, n: U32): seq<Interval>
    requires i < |huecos| && 0 < n <= huecos[i].size && huecos[i].base + n <= U32_MAX
  {
    if huecos[i].size == n then RemoveAt(huecos, i)
    else huecos[i := Interval(huecos[i].base + n, huecos[i].size - n)]
  }

  lemma TomarCover(huecos: seq<Interval>, i: nat, n: U32, a: int)
    requires i < |huecos| && 0 < n <= huecos[i].size && huecos[i].base + n <= U32_MAX
    ensures Cover(Tomar(huecos, i, n), a) + Bit(Holds(Interval(huecos[i].base, n), a)) == Cover(huecos, a)
  {
    if huecos[i].size == n {
      CoverRemove(huecos, i, a);
    } else {
      CoverUpdate(huecos, i, Interval(huecos[i].base + n, huecos[i].size - n), a);
    }
  }

  /** Taking from the front of a hole cannot make two holes touch. */
  lemma TomarCoalesced(huecos: seq<Interval>, i: nat, n: U32)
    requires i < |huecos| && 0 < n <= huecos[i].size && huecos[i].base + n <= U32_MAX
    requires NonEmpty(huecos) && Coalesced(huecos) && forall a :: Cover(huecos, a) <= 1
    ensures NonEmpty(Tomar(huecos, i, n)) && Coalesced(Tomar(huecos, i, n))
  {
    var t := Tomar(huecos, i, n);
    if huecos[i].size != n {
      forall x, y | 0 <= x < |t| && 0 <= y < |t| && x != y
        ensures !Adjacent(t[x], t[y])
      {
        assert !Adjacent(huecos[x], huecos[y]);
        if y == i && Adjacent(t[x], t[y]) {
          var a := t[y].base - 1;
          CoverTwo(huecos, x, i, a);
        }
      }
    } else {
      forall x, y | 0 <= x < |t| && 0 <= y < |t| && x != y
        ensures !Adjacent(t[x], t[y])
      {
        assert !Adjacent(huecos[if x < i then x else x + 1], huecos[if y < i then y else y + 1]);
      }
    }
  }

  // ---------------------------------------------------------------- create

  predicate Admisible(s: Km, segMax: int, pid: U32, id: U32, n: U32) {
    && Buscar(s.contextos, pid).Some?
    && segMax > 0 && 0 < n <= segMax
    && BuscarSegmento(s.contextos[Buscar(s.contextos, pid).value].segmentos, id).None?
  }

  function ConSegmento(s: Km, k: nat, i: nat, id: U32, n: U32): Km
    requires k < |s.contextos| && i < |s.huecos| && 0 < n <= s.huecos[i].size && s.huecos[i].base + n <= U32_MAX
    requires StickAt(s.sticks, s.huecos[i].base).Some? && StickAt(s.sticks, s.huecos[i].base).value <= U32_MAX
  {
    var nuevo := Segmento(id, StickAt(s.sticks, s.huecos[i].base).value, s.huecos[i].base, n);
    var ctx := s.contextos[k];
    s.(huecos := Tomar(s.huecos, i, n),
       contextos := s.contextos[k := ctx.(segmentos := ctx.segmentos + [nuevo])])
  }

  predicate Tomable(s: Km, i: int, n: U32) {
    && 0 <= i < |s.huecos| && 0 < n <= s.huecos[i].size && s.huecos[i].base + n <= U32_MAX
    && StickAt(s.sticks, s.huecos[i].base).Some? && StickAt(s.sticks, s.huecos[i].base).value <= U32_MAX
  }

  /** crear_segmento: every outcome and the state it leaves. */
  ghost predicate CrearStep(s: Km, t: Km, segMax: int, peor: bool, pid: U32, id: U32, n: U32, r: Resultado) {
    if !Admisible(s, segMax, pid, id, n) then
      r == Error && t == s
    else if !HayHueco(s.huecos, n) then
      r == (if Sum(s.huecos) >= n then Compactar else Error) && t == s
    else
      && r == Ok
      && exists i ::
        && Tomable(s, i, n) && Elegido(peor, s.huecos, n, i)
        && t == ConSegmento(s, Buscar(s.contextos, pid).value, i, id, n)
  }

  lemma HuecoTomable(s: Km, i: nat, n: U32)
    requires Inv(s) && i < |s.huecos| && 0 < n <= s.huecos[i].size
    ensures Tomable(s, i, n)
  {
    HuecoEnMemoria(s, i);
    StickAtTotal(s.sticks, s.huecos[i].base);
    CountBound(s.sticks);
  }

  lemma ConSegmentoCover(segs: seq<Segmento>, nuevo: Segmento, huecos: seq<Interval>, i: nat, n: U32)
    requires i < |huecos| && 0 < n <= huecos[i].size && huecos[i].base + n <= U32_MAX
    requires Span(nuevo) == Interval(huecos[i].base, n)
    ensures forall a :: Cover(Spans(segs + [nuevo]), a) + Cover(Tomar(huecos, i, n), a) == Cover(Spans(segs), a) + Cover(huecos, a)
  {
    forall a
      ensures Cover(Spans(segs + [nuevo]), a) + Cover(Tomar(huecos, i, n), a) == Cover(Spans(segs), a) + Cover(huecos, a)
    {
      SpansAppend(segs, nuevo, a);
      TomarCover(huecos, i, n, a);
    }
  }

  lemma ConSegmentoHuecos(s: Km, i: nat, n: U32)
    requires Inv(s) && Tomable(s, i, n)
    ensures NonEmpty(Tomar(s.huecos, i, n)) && Coalesced(Tomar(s.huecos, i, n))
  {
    forall a
      ensures Cover(s.huecos, a) <= 1
    {
      CoverAtMostOne(s, a);
    }
    TomarCoalesced(s.huecos, i, n);
  }

  lemma ConSegmentoInv(s: Km, k: nat, i: nat, id: U32, n: U32)
    requires Inv(s) && k < |s.contextos| && Tomable(s, i, n) && n <= I32_MAX
    ensures Inv(ConSegmento(s, k, i, id, n))
  {
    var t := ConSegmento(s, k, i, id, n);
    var segs := s.contextos[k].segmentos;
    ConSegmentoCover(segs, t.contextos[k].segmentos[|segs|], s.huecos, i, n);
    TiledUpdate(s, k, t.contextos[k], t.huecos);
    ConSegmentoHuecos(s, i, n);
    SegmentosOkUpdate(s.sticks, s.contextos, k, t.contextos[k]);
    SwapFrame(s, t);
  }

  lemma SpansAppend(segs: seq<Segmento>, g: Segmento, a: int)
    ensures Cover(Spans(segs + [g]), a) == Cover(Spans(segs), a) + Bit(Holds(Span(g), a))
  {
    assert Spans(segs + [g]) == Spans(segs) + [Span(g)];
    CoverAppend(Spans(segs), [Span(g)], a);
  }

  lemma ConSegmentoVista(s: Km, k: nat, i: nat, id: U32, n: U32)
    requires Inv(s) && k < |s.contextos| && Tomable(s, i, n)
    ensures var t := ConSegmento(s, k, i, id, n);
            var p := Pieza(id, Bytes(s.mem, s.huecos[i].base, n));
            forall q :: Vista(t, q) == if q == s.contextos[k].pid then Some(Contenido(s, k) + multiset{p}) else Vista(s, q)
  {
    var t := ConSegmento(s, k, i, id, n);
    var p := Pieza(id, Bytes(s.mem, s.huecos[i].base, n));
    assert Residentes(t.mem, t.contextos[k].segmentos) == Residentes(s.mem, s.contextos[k].segmentos) + [p];
    assert Contenido(t, k) == Contenido(s, k) + multiset{p};
    VistaLocal(s, t, k);
  }

  /** A created segment adds one piece to its process and leaves every other process as it was. */
  lemma CrearVista(s: Km, t: Km, segMax: int, peor: bool, pid: U32, id: U32, n: U32) returns (p: Pieza)
    requires Inv(s) && segMax <= I32_MAX && CrearStep(s, t, segMax, peor, pid, id, n, Ok)
    ensures Inv(t) && Vista(s, pid).Some?
    ensures p.id == id && |p.bytes| == n
    ensures forall q :: Vista(t, q) == if q == pid then Some(Vista(s, pid).value + multiset{p}) else Vista(s, q)
  {
    var k := Buscar(s.contextos, pid).value;
    var i :| Tomable(s, i, n) && t == ConSegmento(s, k, i, id, n);
    ConSegmentoInv(s, k, i, id, n);
    HuecoEnMemoria(s, i);
    ConSegmentoVista(s, k, i, id, n);
    p := Pieza(id, Bytes(s.mem, s.huecos[i].base, n));
  }

  /** Whatever crear_segmento answers: only the requester can change, and only by one piece of the requested id and size. */
  lemma CrearPreserva(s: Km, t: Km, segMax: int, peor: bool, pid: U32, id: U32, n: U32, r: Resultado)
    requires Inv(s) && segMax <= I32_MAX && CrearStep(s, t, segMax, peor, pid, id, n, r)
    ensures Inv(t)
    ensures forall q :: (r == Ok && q == pid) || Vista(t, q) == Vista(s, q)
    ensures r == Ok ==> Agrega(Vista(s, pid), Vista(t, pid), id, n)
  {
    if r == Ok {
      var p := CrearVista(s, t, segMax, peor, pid, id, n);
    }
  }

  // ---------------------------------------------------------------- delete

  /** eliminar_segmento: the first segment with that id goes, its range joins the holes. */
  ghost predicate EliminarStep(s: Km, t: Km, pid: U32, id: U32) {
    match Buscar(s.contextos, pid)
    case None => t == s
    case Some(k) =>
      match BuscarSegmento(s.contextos[k].segmentos, id)
      case None => t == s
      case Some(i) => Eliminado(s, t, k, i)
  }

  ghost predicate Eliminado(s: Km, t: Km, k: nat, i: nat)
    requires k < |s.contextos| && i < |s.contextos[k].segmentos|
  {
    var ctx := s.contextos[k];
    && t == s.(huecos := t.huecos, contextos := s.contextos[k := ctx.(segmentos := RemoveAt(ctx.segmentos, i))])
    && NonEmpty(t.huecos) && Coalesced(t.huecos)
    && SameCover(t.huecos, s.huecos + [Span(ctx.segmentos[i])])
  }

  lemma SpansRemove(segs: seq<Segmento>, i: nat, a: int)
    requires i < |segs|
    ensures Cover(Spans(RemoveAt(segs, i)), a) + Bit(Holds(Span(segs[i]), a)) == Cover(Spans(segs), a)
  {
    assert Spans(RemoveAt(segs, i)) == RemoveAt(Spans(segs), i);
    CoverRemove(Spans(segs), i, a);
  }

  lemma EliminadoCover(segs: seq<Segmento>, i: nat, antes: seq<Interval>, huecos: seq<Interval>)
    requires i < |segs| && SameCover(huecos, antes + [Span(segs[i])])
    ensures forall a :: Cover(Spans(RemoveAt(segs, i)), a) + Cover(huecos, a) == Cover(Spans(segs), a) + Cover(antes, a)
  {
    forall a
      ensures Cover(Spans(RemoveAt(segs, i)), a) + Cover(huecos, a) == Cover(Spans(segs), a) + Cover(antes, a)
    {
      SpansRemove(segs, i, a);
      CoverAppend(antes, [Span(segs[i])], a);
      assert Cover(huecos, a) == Cover(antes + [Span(segs[i])], a);
    }
  }

  lemma EliminadoInv(s: Km, t: Km, k: nat, i: nat)
    requires Inv(s) && k < |s.contextos| && i < |s.contextos[k].segmentos| && Eliminado(s, t, k, i)
    ensures Inv(t)
  {
    var segs := s.contextos[k].segmentos;
    var c := s.contextos[k].(segmentos := RemoveAt(segs, i));
    EliminadoCover(segs, i, s.huecos, t.huecos);
    TiledUpdate(s, k, c, t.huecos);
    forall j | 0 <= j < |c.segmentos|
      ensures SegmentoOk(s.sticks, c.segmentos[j])
    {
      assert SegmentoOk(s.sticks, segs[if j < i then j else j + 1]);
    }
    SegmentosOkUpdate(s.sticks, s.contextos, k, c);
    SwapFrame(s, t);
  }

  /** Deleting takes exactly one piece, with that id, from its process. */
  lemma EliminadoVista(s: Km, t: Km, k: nat, i: nat)
    requires Inv(s) && k < |s.contextos| && i < |s.contextos[k].segmentos| && Eliminado(s, t, k, i)
    ensures Inv(t)
    ensures var p := Residentes(s.mem, s.contextos[k].segmentos)[i];
            Contenido(s, k) == Contenido(t, k) + multiset{p}
    ensures forall q :: Vista(t, q) == if q == s.contextos[k].pid then Some(Contenido(t, k)) else Vista(s, q)
  {
    EliminadoInv(s, t, k, i);
    var antes := Residentes(s.mem, s.contextos[k].segmentos);
    assert Residentes(t.mem, t.contextos[k].segmentos) == RemoveAt(antes, i);
    assert antes == antes[..i] + [antes[i]] + antes[i + 1..];
    VistaLocal(s, t, k);
  }

  lemma QuitaPieza(a: multiset<Pieza>, b: multiset<Pieza>, p: Pieza, id: U32)
    requires a == b + multiset{p} && p.id == id
    ensures Quita(Some(a), Some(b), id)
  {
    assert b == a - multiset{p} && p in a;
  }

  /** ELIMINAR_SEGMENTO takes at most one piece, with that id, from that process only. */
  lemma EliminarPreserva(s: Km, t: Km, pid: U32, id: U32)
    requires Inv(s) && EliminarStep(s, t, pid, id)
    ensures Inv(t) && forall q :: q == pid || Vista(t, q) == Vista(s, q)
    ensures Quita(Vista(s, pid), Vista(t, pid), id)
  {
    if t != s {
      var k := Buscar(s.contextos, pid).value;
      var i := BuscarSegmento(s.contextos[k].segmentos, id).value;
      EliminadoVista(s, t, k, i);
      QuitaPieza(Contenido(s, k), Contenido(t, k), Residentes(s.mem, s.contextos[k].segmentos)[i], id);
    }
  }
}
