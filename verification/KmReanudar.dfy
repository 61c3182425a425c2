/** Bringing a suspended process back from swap, and freeing everything a finished process owned. */
module KmReanudar {
  import opened Basics
  import opened Intervals
  import opened Sticks
  import opened Contexto
  import opened KmEstado
  import opened KmAsignacion
  import opened KmSwap

  datatype Colocacion = Colocacion(spans: seq<Interval>, huecos: seq<Interval>)

  // ---------------------------------------------------------------- reserving holes

  ghost function Elegir(peor: bool, huecos: seq<Interval>, n: U32): (r: Option<nat>)
    ensures r.Some? ==> Elegido(peor, huecos, n, r.value)
    ensures r.None? ==> forall i :: !Elegido(peor, huecos, n, i)
  {
    if exists i :: Elegido(peor, huecos, n, i) then
      var i :| Elegido(peor, huecos, n, i);
      Some(i)
    else None
  }

  /** Both strategies name one hole, so choosing is a function of the list. */
  lemma ElegirUnico(peor: bool, huecos: seq<Interval>, n: U32, i: nat)
    requires Elegido(peor, huecos, n, i)
    ensures Elegir(peor, huecos, n) == Some(i)
  {
    var j := Elegir(peor, huecos, n).value;
    assert huecos[i].size <= huecos[j].size && huecos[j].size <= huecos[i].size;
  }

  predicate Cabe(huecos: seq<Interval>, i: nat, n: U32) {
    i < |huecos| && 0 < n <= huecos[i].size && huecos[i].base + n <= U32_MAX
  }

  /** One hole after the other is taken for the sizes `ns`; none at all if one of them does not fit. */
  ghost function Colocar(peor: bool, huecos: seq<Interval>, ns: seq<U32>, hechos: seq<Interval>): (r: Option<Colocacion>)
    ensures r.Some? ==> |r.value.spans| == |hechos| + |ns|
    decreases |ns|
  {
    if ns == [] then Some(Colocacion(hechos, huecos))
    else
      var i := Elegir(peor, huecos, ns[0]);
      if i.None? || !Cabe(huecos, i.value, ns[0]) then None
      else Colocar(peor, Tomar(huecos, i.value, ns[0]), ns[1..], hechos + [Interval(huecos[i.value].base, ns[0])])
  }

  /** The reserved ranges have the requested sizes, in order. */
  lemma {:induction false} ColocarTamanio(peor: bool, huecos: seq<Interval>, ns: seq<U32>, hechos: seq<Interval>, j: nat)
    requires Colocar(peor, huecos, ns, hechos).Some? && j < |hechos| + |ns|
    ensures var span := Colocar(peor, huecos, ns, hechos).value.spans[j];
            if j < |hechos| then span == hechos[j] else span.size == ns[j - |hechos|]
    decreases |ns|
  {
    if ns != [] {
      var i := Elegir(peor, huecos, ns[0]).value;
      ColocarTamanio(peor, Tomar(huecos, i, ns[0]), ns[1..], hechos + [Interval(huecos[i].base, ns[0])], j);
    }
  }

  ghost predicate Sanos(huecos: seq<Interval>) {
    NonEmpty(huecos) && Coalesced(huecos) && forall a :: Cover(huecos, a) <= 1
  }

  /** Reserving moves addresses from the holes to the reserved ranges, neither losing nor sharing any. */
  lemma {:induction false} ColocarCover(peor: bool, huecos: seq<Interval>, ns: seq<U32>, hechos: seq<Interval>)
    requires Sanos(huecos) && Colocar(peor, huecos, ns, hechos).Some?
    ensures var c := Colocar(peor, huecos, ns, hechos).value;
            && Sanos(c.huecos)
            && forall a :: Cover(c.spans, a) + Cover(c.huecos, a) == Cover(hechos, a) + Cover(huecos, a)
    decreases |ns|
  {
    if ns != [] {
      var i := Elegir(peor, huecos, ns[0]).value;
      var span := Interval(huecos[i].base, ns[0]);
      var resto := Tomar(huecos, i, ns[0]);
      TomarCoalesced(huecos, i, ns[0]);
      forall a
        ensures Cover(resto, a) <= 1
        ensures Cover(hechos + [span], a) + Cover(resto, a) == Cover(hechos, a) + Cover(huecos, a)
      {
        TomarCover(huecos, i, ns[0], a);
        CoverAppend(hechos, [span], a);
      }
      ColocarCover(peor, resto, ns[1..], hechos + [span]);
    }
  }

  // ---------------------------------------------------------------- desuspension

  datatype Reanudacion = Restaurado | NoCabe | Fallo

  function Tamanios(metas: seq<SwapMeta>): (r: seq<U32>)
    ensures |r| == |metas|
    ensures forall i :: 0 <= i < |r| ==> r[i] == metas[i].tamanio
  {
    seq(|metas|, i requires 0 <= i < |metas| => metas[i].tamanio)
  }

  predicate SegmentoDe(sticks: seq<StickInfo>, m: SwapMeta, span: Interval, g: Segmento) {
    g.id == m.id && Span(g) == span && StickAt(sticks, g.base) == Some(g.stick)
  }

  predicate FueraDe(s: Km, t: Km, spans: seq<Interval>) {
    |t.mem| == |s.mem| && forall a :: 0 <= a < |s.mem| && Cover(spans, a) == 0 ==> t.mem[a] == s.mem[a]
  }

  predicate Cargados(s: Km, t: Km, metas: seq<SwapMeta>, spans: seq<Interval>)
    requires |metas| == |spans|
  {
    forall i :: 0 <= i < |metas| ==> Bytes(t.mem, spans[i].base, spans[i].size) == Guardado(s.disco, metas[i])
  }

  ghost predicate Reanudado(s: Km, t: Km, peor: bool, k: nat)
    requires k < |s.contextos|
  {
    var ctx := s.contextos[k];
    var metas := MetasDe(s.metas, ctx.pid);
    var c := Colocar(peor, s.huecos, Tamanios(metas), []);
    && c.Some? && |t.contextos| == |s.contextos|
    && var segs := t.contextos[k].segmentos;
    && t == s.(contextos := s.contextos[k := ctx.(segmentos := segs)], huecos := c.value.huecos,
               mem := t.mem, metas := MetasSin(s.metas, ctx.pid), bitmap := t.bitmap)
    && |segs| == |metas|
    && (forall i :: 0 <= i < |segs| ==> SegmentoDe(s.sticks, metas[i], c.value.spans[i], segs[i]))
    && FueraDe(s, t, c.value.spans)
    && Cargados(s, t, metas, c.value.spans)
    && Liberado(s.bitmap, t.bitmap, metas)
  }

  /** After a rollback the holes may be listed in another order, and free memory may hold other bytes. */
  ghost predicate Deshecho(s: Km, t: Km) {
    && t == s.(huecos := t.huecos, mem := t.mem, swapActivo := t.swapActivo)
    && (t.swapActivo ==> s.swapActivo)
    && NonEmpty(t.huecos) && Coalesced(t.huecos) && SameCover(t.huecos, s.huecos)
    && FueraDe(s, t, s.huecos)
  }

  /** dessuspender_proceso: every outcome and the state it leaves; `averia` says that the swap device failed meanwhile. */
  ghost predicate DesuspenderStep(s: Km, t: Km, peor: bool, pid: U32, averia: bool, r: Reanudacion) {
    match Buscar(s.contextos, pid)
    case None => r == Fallo && t == s
    case Some(k) =>
      var metas := MetasDe(s.metas, pid);
      if s.contextos[k].segmentos != [] || !s.swapActivo then r == Fallo && t == s
      else if metas == [] then r == Restaurado && t == s
      else if Colocar(peor, s.huecos, Tamanios(metas), []).None? then
        r == NoCabe && Deshecho(s, t) && t.mem == s.mem && t.swapActivo == s.swapActivo
      else if averia then r == Fallo && Deshecho(s, t)
      else r == Restaurado && Reanudado(s, t, peor, k)
  }

  lemma {:induction false} MetasSinMenos(metas: seq<SwapMeta>, pid: U32)
    ensures forall i :: 0 <= i < |MetasSin(metas, pid)| ==> MetasSin(metas, pid)[i] in metas
    ensures |MetasSin(metas, pid)| + |MetasDe(metas, pid)| == |metas|
  {
    if metas != [] {
      MetasSinMenos(metas[1..], pid);
    }
  }

  /** Dropping the entries of one process and clearing their bits keeps the swap invariant. */
  lemma LiberarSwapOk(s: Km, t: Km, pid: U32)
    requires SwapOk(s) && t.metas == MetasSin(s.metas, pid) && Liberado(s.bitmap, t.bitmap, MetasDe(s.metas, pid))
    requires t.disco == s.disco && t.blockSize == s.blockSize && (t.swapActivo ==> s.swapActivo)
    requires forall q :: q != pid && Buscar(s.contextos, q).Some? ==> Buscar(t.contextos, q).Some?
    ensures SwapOk(t)
  {
    forall i | 0 <= i < |t.metas|
      ensures MetaOk(t, t.metas[i])
    {
      var j :| 0 <= j < |s.metas| && s.metas[j] == t.metas[i];
      assert MetaOk(s, s.metas[j]);
    }
    forall b: U32 | b < |t.bitmap|
      ensures Usos(t.metas, b) == Bit(t.bitmap[b])
    {
      UsosParten(s.metas, pid, b);
      assert Usos(s.metas, b) == Bit(s.bitmap[b]);
    }
    assert |t.bitmap| == |s.bitmap|;
  }

  lemma MetaDe(s: Km, pid: U32, i: nat)
    requires SwapOk(s) && i < |MetasDe(s.metas, pid)|
    ensures MetaOk(s, MetasDe(s.metas, pid)[i])
  {
    var j :| 0 <= j < |s.metas| && s.metas[j] == MetasDe(s.metas, pid)[i];
  }

  lemma ReanudadoSegmento(s: Km, t: Km, peor: bool, k: nat, i: nat)
    requires SwapOk(s) && k < |s.contextos| && Reanudado(s, t, peor, k) && i < |t.contextos[k].segmentos|
    ensures SegmentoOk(s.sticks, t.contextos[k].segmentos[i])
  {
    var metas := MetasDe(s.metas, s.contextos[k].pid);
    ColocarTamanio(peor, s.huecos, Tamanios(metas), [], i);
    assert SegmentoDe(s.sticks, metas[i], Colocar(peor, s.huecos, Tamanios(metas), []).value.spans[i], t.contextos[k].segmentos[i]);
    MetaDe(s, s.contextos[k].pid, i);
  }

  lemma ReanudadoSpans(s: Km, t: Km, peor: bool, k: nat)
    requires k < |s.contextos| && Reanudado(s, t, peor, k)
    ensures Spans(t.contextos[k].segmentos) == Colocar(peor, s.huecos, Tamanios(MetasDe(s.metas, s.contextos[k].pid)), []).value.spans
  {
    var metas := MetasDe(s.metas, s.contextos[k].pid);
    var spans := Colocar(peor, s.huecos, Tamanios(metas), []).value.spans;
    var segs := t.contextos[k].segmentos;
    forall i | 0 <= i < |segs|
      ensures Spans(segs)[i] == spans[i]
    {
      assert SegmentoDe(s.sticks, metas[i], spans[i], segs[i]);
    }
  }

  lemma HuecosSanos(s: Km)
    requires Inv(s)
    ensures Sanos(s.huecos)
  {
    forall a
      ensures Cover(s.huecos, a) <= 1
    {
      CoverAtMostOne(s, a);
    }
  }

  lemma ReanudadoInv(s: Km, t: Km, peor: bool, k: nat)
    requires Inv(s) && k < |s.contextos| && s.contextos[k].segmentos == [] && Reanudado(s, t, peor, k)
    ensures Inv(t)
  {
    var c := t.contextos[k];
    var ns := Tamanios(MetasDe(s.metas, s.contextos[k].pid));
    ReanudadoSpans(s, t, peor, k);
    forall i | 0 <= i < |c.segmentos|
      ensures SegmentoOk(s.sticks, c.segmentos[i])
    {
      ReanudadoSegmento(s, t, peor, k, i);
    }
    HuecosSanos(s);
    ColocarCover(peor, s.huecos, ns, []);
    forall a
      ensures Cover(Spans(c.segmentos), a) + Cover(t.huecos, a) == Cover(Spans([]), a) + Cover(s.huecos, a)
    {
    }
    TiledUpdate(s, k, c, t.huecos);
    TiledMem(s.(contextos := t.contextos, huecos := t.huecos), t);
    SegmentosOkUpdate(s.sticks, s.contextos, k, c);
    PidsIguales(s.contextos, t.contextos);
    LiberarSwapOk(s, t, s.contextos[k].pid);
  }

  lemma TiledMem(s: Km, t: Km)
    requires Tiled(s) && t.contextos == s.contextos && t.huecos == s.huecos && |t.mem| == |s.mem|
    ensures Tiled(t)
  {
    forall a
      ensures Cover(Todos(t.contextos), a) + Cover(t.huecos, a) == Bit(0 <= a < |t.mem|)
    {
      CoverAtMostOne(s, a);
      assert Cover(Todos(s.contextos), a) + Cover(s.huecos, a) == Bit(0 <= a < |s.mem|);
    }
  }

  /** Writing to free memory changes no segment. */
  lemma ResidentesFuera(s: Km, t: Km, j: nat)
    requires Inv(s) && j < |s.contextos| && FueraDe(s, t, s.huecos)
    ensures Residentes(t.mem, s.contextos[j].segmentos) == Residentes(s.mem, s.contextos[j].segmentos)
  {
    forall i | 0 <= i < |s.contextos[j].segmentos|
      ensures var g := s.contextos[j].segmentos[i]; Bytes(t.mem, g.base, g.limite) == Bytes(s.mem, g.base, g.limite)
    {
      SegmentoFuera(s, t, j, i);
    }
  }

  lemma SegmentoFuera(s: Km, t: Km, j: nat, i: nat)
    requires Tiled(s) && j < |s.contextos| && i < |s.contextos[j].segmentos| && FueraDe(s, t, s.huecos)
    ensures var g := s.contextos[j].segmentos[i]; Bytes(t.mem, g.base, g.limite) == Bytes(s.mem, g.base, g.limite)
  {
    var g := s.contextos[j].segmentos[i];
    forall a | g.base <= a < g.base + g.limite && a < |s.mem|
      ensures t.mem[a] == s.mem[a]
    {
      CoverTodosOne(s.contextos, j, i, a);
      assert Cover(Todos(s.contextos), a) + Cover(s.huecos, a) == Bit(0 <= a < |s.mem|);
    }
    BytesIguales(s.mem, t.mem, g.base, g.limite);
  }

  lemma ReanudadoContenido(s: Km, t: Km, peor: bool, k: nat, j: nat)
    requires Inv(s) && k < |s.contextos| && s.contextos[k].segmentos == [] && Reanudado(s, t, peor, k)
    requires j < |s.contextos|
    ensures Contenido(t, j) == Contenido(s, j)
  {
    var pid, q := s.contextos[k].pid, s.contextos[j].pid;
    var metas := MetasDe(s.metas, pid);
    EnSwapSin(s.disco, s.metas, pid, q);
    if j == k {
      ReanudadoSpans(s, t, peor, k);
      EnSwapDe(s.disco, s.metas, pid);
      var segs := t.contextos[k].segmentos;
      forall i | 0 <= i < |segs|
        ensures Residentes(t.mem, segs)[i] == EnSwap(s.disco, s.metas, pid)[i]
      {
        assert Spans(segs)[i] == Span(segs[i]);
        assert SegmentoDe(s.sticks, metas[i], Span(segs[i]), segs[i]);
      }
      assert Residentes(t.mem, segs) == EnSwap(s.disco, s.metas, pid);
    } else {
      ReanudadoFuera(s, t, peor, k);
      ResidentesFuera(s, t, j);
    }
  }

  lemma ReanudadoFuera(s: Km, t: Km, peor: bool, k: nat)
    requires Inv(s) && k < |s.contextos| && Reanudado(s, t, peor, k)
    ensures FueraDe(s, t, s.huecos)
  {
    var ns := Tamanios(MetasDe(s.metas, s.contextos[k].pid));
    var c := Colocar(peor, s.huecos, ns, []).value;
    HuecosSanos(s);
    ColocarCover(peor, s.huecos, ns, []);
    forall a | 0 <= a < |s.mem| && Cover(s.huecos, a) == 0
      ensures t.mem[a] == s.mem[a]
    {
      assert Cover(c.spans, a) + Cover(c.huecos, a) == Cover([], a) + Cover(s.huecos, a);
    }
  }

  lemma DeshechoPreserva(s: Km, t: Km)
    requires Inv(s) && Deshecho(s, t)
    ensures Inv(t) && forall q :: Vista(t, q) == Vista(s, q)
    ensures forall h :: h in t.huecos <==> h in s.huecos
  {
    forall a
      ensures Cover(Todos(t.contextos), a) + Cover(t.huecos, a) == Bit(0 <= a < |t.mem|)
    {
      assert Cover(t.huecos, a) == Cover(s.huecos, a);
      assert Cover(Todos(s.contextos), a) + Cover(s.huecos, a) == Bit(0 <= a < |s.mem|);
    }
    forall i | 0 <= i < |t.metas|
      ensures MetaOk(t, t.metas[i])
    {
      assert MetaOk(s, s.metas[i]);
    }
    forall j | 0 <= j < |s.contextos|
      ensures Contenido(t, j) == Contenido(s, j)
    {
      ResidentesFuera(s, t, j);
    }
    VistaIgual(s, t);
    HuecosSanos(s);
    CoalescedIsCanonical(s.huecos, t.huecos);
  }

  /**
   * Bringing a process back keeps the invariant and every stored byte of every
   * process, whatever the outcome; without success the very same holes remain.
   */
  lemma DesuspenderPreserva(s: Km, t: Km, peor: bool, pid: U32, averia: bool, r: Reanudacion)
    requires Inv(s) && DesuspenderStep(s, t, peor, pid, averia, r)
    ensures Inv(t) && forall q :: Vista(t, q) == Vista(s, q)
    ensures r != Restaurado ==>
      && t.contextos == s.contextos && t.metas == s.metas && t.bitmap == s.bitmap && t.disco == s.disco
      && forall h :: h in t.huecos <==> h in s.huecos
  {
    if t != s {
      var k := Buscar(s.contextos, pid).value;
      if r == Restaurado {
        ReanudadoInv(s, t, peor, k);
        forall j | 0 <= j < |s.contextos|
          ensures Contenido(t, j) == Contenido(s, j)
        {
          ReanudadoContenido(s, t, peor, k, j);
        }
        VistaIgual(s, t);
      } else {
        DeshechoPreserva(s, t);
      }
    }
  }

  // ---------------------------------------------------------------- finishing a process

  /** finalizar_proceso: the context, its ranges, its swap entries and their blocks go, and nothing else. */
  ghost predicate FinalizarStep(s: Km, t: Km, pid: U32) {
    match Buscar(s.contextos, pid)
    case None => t == s
    case Some(k) => Finalizado(s, t, k)
  }

  ghost predicate Finalizado(s: Km, t: Km, k: nat)
    requires k < |s.contextos|
  {
    var ctx := s.contextos[k];
    && t == s.(contextos := RemoveAt(s.contextos, k), huecos := t.huecos,
               metas := MetasSin(s.metas, ctx.pid), bitmap := t.bitmap)
    && NonEmpty(t.huecos) && Coalesced(t.huecos) && SameCover(t.huecos, s.huecos + Spans(ctx.segmentos))
    && Liberado(s.bitmap, t.bitmap, MetasDe(s.metas, ctx.pid))
  }

  lemma BuscarRemove(ctxs: seq<Contexto>, k: nat, q: U32)
    requires PidsDistintos(ctxs) && k < |ctxs|
    ensures PidsDistintos(RemoveAt(ctxs, k))
    ensures q == ctxs[k].pid ==> Buscar(RemoveAt(ctxs, k), q).None?
    ensures q != ctxs[k].pid ==>
      (Buscar(RemoveAt(ctxs, k), q).Some? <==> Buscar(ctxs, q).Some?)
      && (Buscar(ctxs, q).Some? ==> RemoveAt(ctxs, k)[Buscar(RemoveAt(ctxs, k), q).value] == ctxs[Buscar(ctxs, q).value])
  {
    var r := RemoveAt(ctxs, k);
    assert forall j :: 0 <= j < |r| ==> r[j] == ctxs[if j < k then j else j + 1];
    var b := Buscar(ctxs, q);
    if b.Some? && b.value != k {
      assert r[if b.value < k then b.value else b.value - 1] == ctxs[b.value];
    }
  }

  lemma TiledRemove(s: Km, t: Km, k: nat)
    requires Tiled(s) && k < |s.contextos| && t.contextos == RemoveAt(s.contextos, k) && |t.mem| == |s.mem|
    requires SameCover(t.huecos, s.huecos + Spans(s.contextos[k].segmentos))
    ensures Tiled(t)
  {
    var spans := Spans(s.contextos[k].segmentos);
    forall a
      ensures Cover(Todos(t.contextos), a) + Cover(t.huecos, a) == Bit(0 <= a < |t.mem|)
    {
      CoverTodosRemove(s.contextos, k, a);
      CoverAppend(s.huecos, spans, a);
      assert Cover(t.huecos, a) == Cover(s.huecos + spans, a);
      assert Cover(Todos(s.contextos), a) + Cover(s.huecos, a) == Bit(0 <= a < |s.mem|);
    }
  }

  lemma FinalizadoInv(s: Km, t: Km, k: nat)
    requires Inv(s) && k < |s.contextos| && Finalizado(s, t, k)
    ensures Inv(t)
  {
    TiledRemove(s, t, k);
    forall c, i | 0 <= c < |t.contextos| && 0 <= i < |t.contextos[c].segmentos|
      ensures SegmentoOk(t.sticks, t.contextos[c].segmentos[i])
    {
      assert SegmentoOk(s.sticks, s.contextos[if c < k then c else c + 1].segmentos[i]);
    }
    forall q
      ensures PidsDistintos(t.contextos)
      ensures q != s.contextos[k].pid && Buscar(s.contextos, q).Some? ==> Buscar(t.contextos, q).Some?
    {
      BuscarRemove(s.contextos, k, q);
    }
    BuscarRemove(s.contextos, k, 0);
    LiberarSwapOk(s, t, s.contextos[k].pid);
  }

  /** A finished process stores nothing any more; every other process stores what it stored. */
  lemma FinalizarPreserva(s: Km, t: Km, pid: U32)
    requires Inv(s) && FinalizarStep(s, t, pid)
    ensures Inv(t) && forall q :: Vista(t, q) == if q == pid then None else Vista(s, q)
  {
    if Buscar(s.contextos, pid).Some? {
      var k := Buscar(s.contextos, pid).value;
      FinalizadoInv(s, t, k);
      forall q
        ensures Vista(t, q) == if q == pid then None else Vista(s, q)
      {
        BuscarRemove(s.contextos, k, q);
        EnSwapSin(s.disco, s.metas, pid, q);
      }
    }
  }

  /** Finishing frees exactly the bytes and the blocks of the process. */
  lemma FinalizarLibera(s: Km, t: Km, pid: U32, k: nat)
    requires Inv(s) && Buscar(s.contextos, pid) == Some(k) && FinalizarStep(s, t, pid)
    ensures forall a :: Cover(t.huecos, a) == Cover(s.huecos, a) + Cover(Spans(s.contextos[k].segmentos), a)
    ensures forall b: U32 :: b < |s.bitmap| ==> (t.bitmap[b] != s.bitmap[b] <==> Usos(MetasDe(s.metas, pid), b) > 0)
  {
    forall a
      ensures Cover(t.huecos, a) == Cover(s.huecos, a) + Cover(Spans(s.contextos[k].segmentos), a)
    {
      CoverAppend(s.huecos, Spans(s.contextos[k].segmentos), a);
      assert Cover(t.huecos, a) == Cover(s.huecos + Spans(s.contextos[k].segmentos), a);
    }
    forall b: U32 | b < |s.bitmap|
      ensures t.bitmap[b] != s.bitmap[b] <==> Usos(MetasDe(s.metas, pid), b) > 0
    {
      UsosParten(s.metas, pid, b);
      assert Usos(s.metas, b) == Bit(s.bitmap[b]);
    }
  }

  // ---------------------------------------------------------------- step by step

  lemma LiberadoNada(b: seq<bool>)
    ensures Liberado(b, b, [])
  {
  }

  /** Reading the blocks of an entry gives exactly as many bytes as were saved. */
  lemma GuardadoLargo(s: Km, m: SwapMeta)
    requires SwapOk(s) && MetaOk(s, m)
    ensures |Guardado(s.disco, m)| == m.tamanio
  {
    JuntarLargo(s.disco, m.bloques, s.blockSize);
    BloquesAlcanzan(m.tamanio, s.blockSize);
  }

  /** The first `n` bytes, or all there are. */
  function Tope(x: seq<Byte>, n: nat): seq<Byte> {
    if n <= |x| then x[..n] else x
  }

  lemma TopePaso(x: seq<Byte>, y: seq<Byte>, n: nat)
    ensures Tope(x + y, n) == Tope(x, n) + y[..Min(n - |Tope(x, n)|, |y|)]
  {
  }

  /** A reservation in progress: what is taken, what is left, and that going on from here gives what starting over would. */
  ghost predicate Reservando(peor: bool, h0: seq<Interval>, huecos: seq<Interval>, ns: seq<U32>, spans: seq<Interval>, i: nat) {
    && i == |spans| <= |ns|
    && Sanos(huecos) && Bounded(huecos, U32_MAX) && Bounded(spans, U32_MAX)
    && (forall j :: 0 <= j < i ==> spans[j].size == ns[j])
    && (forall a :: Cover(spans, a) + Cover(huecos, a) == Cover(h0, a))
    && Colocar(peor, h0, ns, []) == Colocar(peor, huecos, ns[i..], spans)
  }

  lemma ReservandoInicio(peor: bool, h0: seq<Interval>, ns: seq<U32>)
    requires Sanos(h0) && Bounded(h0, U32_MAX)
    ensures Reservando(peor, h0, h0, ns, [], 0)
  {
    assert ns[0..] == ns;
  }

  lemma ReservandoPaso(peor: bool, h0: seq<Interval>, huecos: seq<Interval>, ns: seq<U32>, spans: seq<Interval>, i: nat, h: nat)
    requires Reservando(peor, h0, huecos, ns, spans, i) && i < |ns| && Elegido(peor, huecos, ns[i], h) && ns[i] > 0
    ensures Cabe(huecos, h, ns[i])
    ensures Reservando(peor, h0, Tomar(huecos, h, ns[i]), ns, spans + [Interval(huecos[h].base, ns[i])], i + 1)
  {
    var n := ns[i];
    var span := Interval(huecos[h].base, n);
    var resto := Tomar(huecos, h, n);
    ElegirUnico(peor, huecos, n, h);
    TomarCoalesced(huecos, h, n);
    forall a
      ensures Cover(resto, a) <= 1 && Cover(spans + [span], a) + Cover(resto, a) == Cover(h0, a)
    {
      TomarCover(huecos, h, n, a);
      CoverAppend(spans, [span], a);
      assert Cover(spans, a) + Cover(huecos, a) == Cover(h0, a);
    }
    assert ns[i..][1..] == ns[i + 1..];
  }

  lemma ReservandoFalla(peor: bool, h0: seq<Interval>, huecos: seq<Interval>, ns: seq<U32>, spans: seq<Interval>, i: nat)
    requires Reservando(peor, h0, huecos, ns, spans, i) && i < |ns| && !HayHueco(huecos, ns[i])
    ensures Colocar(peor, h0, ns, []) == None
  {
    assert ns[i..] != [] && ns[i..][0] == ns[i];
  }

  /** Giving back what was reserved covers what was covered before. */
  lemma DevolverReserva(peor: bool, h0: seq<Interval>, huecos: seq<Interval>, ns: seq<U32>, spans: seq<Interval>, i: nat)
    requires Reservando(peor, h0, huecos, ns, spans, i) && forall j :: 0 <= j < |ns| ==> ns[j] > 0
    ensures NonEmpty(huecos + spans) && Bounded(huecos + spans, U32_MAX) && SameCover(huecos + spans, h0)
  {
    forall a
      ensures Cover(huecos + spans, a) == Cover(h0, a)
    {
      CoverAppend(huecos, spans, a);
      assert Cover(spans, a) + Cover(huecos, a) == Cover(h0, a);
    }
  }

  /** The data written so far: the first `i` ranges are loaded and nothing outside the ranges has changed. */
  predicate CargadosHasta(m0: seq<Byte>, mem: seq<Byte>, spans: seq<Interval>, datos: seq<seq<Byte>>, i: nat)
    requires |datos| == |spans|
  {
    && |mem| == |m0|
    && (forall j :: 0 <= j < |spans| && j < i ==> Bytes(mem, spans[j].base, spans[j].size) == datos[j])
    && forall a :: 0 <= a < |m0| && Cover(spans, a) == 0 ==> mem[a] == m0[a]
  }

  lemma SpansSeparados(spans: seq<Interval>, i: nat, j: nat, a: int)
    requires i < |spans| && j < |spans| && i != j && Cover(spans, a) <= 1 && Holds(spans[i], a)
    ensures !Holds(spans[j], a)
  {
    if Holds(spans[j], a) {
      CoverTwo(spans, i, j, a);
    }
  }

  lemma CargarPaso(m0: seq<Byte>, mem: seq<Byte>, spans: seq<Interval>, datos: seq<seq<Byte>>, i: nat)
    requires |datos| == |spans| && i < |spans| && (forall a :: Cover(spans, a) <= 1)
    requires CargadosHasta(m0, mem, spans, datos, i)
    requires |datos[i]| == spans[i].size && spans[i].base + spans[i].size <= |mem|
    ensures CargadosHasta(m0, Splice(mem, spans[i].base, datos[i]), spans, datos, i + 1)
  {
    var mem2 := Splice(mem, spans[i].base, datos[i]);
    forall j | 0 <= j <= i
      ensures Bytes(mem2, spans[j].base, spans[j].size) == datos[j]
    {
      if j < i {
        forall a | spans[j].base <= a < spans[j].base + spans[j].size && a < |mem|
          ensures mem2[a] == mem[a]
        {
          SpansSeparados(spans, j, i, a);
        }
        BytesIguales(mem, mem2, spans[j].base, spans[j].size);
      }
    }
    forall a | 0 <= a < |m0| && Cover(spans, a) == 0
      ensures mem2[a] == m0[a]
    {
      if Holds(spans[i], a) {
        CoverOne(spans, i, a);
      }
    }
  }

  lemma ColocadoEnMemoria(s: Km, c: Colocacion, i: nat)
    requires Inv(s) && i < |c.spans| && c.spans[i].size > 0
    requires forall a :: Cover(c.spans, a) + Cover(c.huecos, a) == Cover(s.huecos, a)
    ensures c.spans[i].base + c.spans[i].size <= |s.mem|
  {
    var a := c.spans[i].base + c.spans[i].size - 1;
    CoverOne(c.spans, i, a);
    assert Cover(c.spans, a) + Cover(c.huecos, a) == Cover(s.huecos, a);
    CoverAtMostOne(s, a);
    assert Cover(Todos(s.contextos), a) + Cover(s.huecos, a) == Bit(0 <= a < |s.mem|);
  }

  /** Taking the first entry of a process out of the list. */
  lemma {:induction false} QuitarPrimera(metas: seq<SwapMeta>, j: nat, pid: U32)
    requires j < |metas| && metas[j].pid == pid && forall x :: 0 <= x < j ==> metas[x].pid != pid
    ensures MetasDe(metas, pid) == [metas[j]] + MetasDe(RemoveAt(metas, j), pid)
    ensures MetasSin(RemoveAt(metas, j), pid) == MetasSin(metas, pid)
  {
    if j == 0 {
      assert RemoveAt(metas, 0) == metas[1..];
    } else {
      QuitarPrimera(metas[1..], j - 1, pid);
      assert RemoveAt(metas, j)[1..] == RemoveAt(metas[1..], j - 1);
      assert RemoveAt(metas, j)[0] == metas[0];
    }
  }

  lemma {:induction false} PrimeraDe(metas: seq<SwapMeta>, pid: U32) returns (j: nat)
    requires MetasDe(metas, pid) != []
    ensures j < |metas| && metas[j] == MetasDe(metas, pid)[0] && metas[j].pid == pid
    ensures forall x :: 0 <= x < j ==> metas[x].pid != pid
  {
    if metas[0].pid == pid {
      j := 0;
    } else {
      var k := PrimeraDe(metas[1..], pid);
      j := k + 1;
      assert forall x :: 0 < x < |metas| ==> metas[x] == metas[1..][x - 1];
    }
  }

  lemma {:induction false} SinEntradas(metas: seq<SwapMeta>, pid: U32)
    requires MetasDe(metas, pid) == []
    ensures MetasSin(metas, pid) == metas
  {
    if metas != [] {
      SinEntradas(metas[1..], pid);
    }
  }

  predicate Guardados(ms: seq<SwapMeta>, d: seq<seq<Byte>>, datos: seq<seq<Byte>>) {
    |datos| <= |ms| && forall i :: 0 <= i < |datos| ==> datos[i] == Guardado(d, ms[i])
  }

  /** Process `k` of a valid state has these entries in swap, and these ranges have been taken for them. */
  ghost predicate Reanudable(s: Km, peor: bool, k: nat, ms: seq<SwapMeta>, c: Colocacion) {
    && Inv(s) && k < |s.contextos| && s.contextos[k].segmentos == []
    && ms == MetasDe(s.metas, s.contextos[k].pid)
    && Colocar(peor, s.huecos, Tamanios(ms), []) == Some(c)
  }

  lemma ReanudableMeta(s: Km, peor: bool, k: nat, ms: seq<SwapMeta>, c: Colocacion, i: nat)
    requires Reanudable(s, peor, k, ms, c) && i < |ms|
    ensures |c.spans| == |ms| && MetaOk(s, ms[i]) && c.spans[i].size == ms[i].tamanio
    ensures c.spans[i].base + c.spans[i].size <= |s.mem|
  {
    ColocarTamanio(peor, s.huecos, Tamanios(ms), [], i);
    MetaDe(s, s.contextos[k].pid, i);
    HuecosSanos(s);
    ColocarCover(peor, s.huecos, Tamanios(ms), []);
    ColocadoEnMemoria(s, c, i);
  }

  lemma ReanudableBloques(s: Km, peor: bool, k: nat, ms: seq<SwapMeta>, c: Colocacion)
    requires Reanudable(s, peor, k, ms, c)
    ensures forall i, j :: 0 <= i < |ms| && 0 <= j < |ms[i].bloques| ==> ms[i].bloques[j] < |s.bitmap|
    ensures ms != [] ==> s.blockSize > 0
    ensures ms == [] ==> c.spans == []
  {
    forall i, j | 0 <= i < |ms| && 0 <= j < |ms[i].bloques|
      ensures ms[i].bloques[j] < |s.bitmap|
    {
      MetaDe(s, s.contextos[k].pid, i);
    }
    if ms != [] {
      MetaDe(s, s.contextos[k].pid, 0);
    }
  }

  lemma ReanudableDatos(s: Km, peor: bool, k: nat, ms: seq<SwapMeta>, c: Colocacion, datos: seq<seq<Byte>>)
    requires Reanudable(s, peor, k, ms, c) && |datos| == |ms| && Guardados(ms, s.disco, datos)
    ensures |c.spans| == |ms| && forall a :: Cover(c.spans, a) <= 1
    ensures forall i :: 0 <= i < |ms| ==> 0 < |datos[i]| == c.spans[i].size <= I32_MAX && c.spans[i].base + c.spans[i].size <= |s.mem|
  {
    HuecosSanos(s);
    ColocarCover(peor, s.huecos, Tamanios(ms), []);
    forall a
      ensures Cover(c.spans, a) <= 1
    {
      assert Cover(c.spans, a) + Cover(c.huecos, a) == Cover([], a) + Cover(s.huecos, a);
    }
    forall i | 0 <= i < |ms|
      ensures 0 < |datos[i]| == c.spans[i].size <= I32_MAX && c.spans[i].base + c.spans[i].size <= |s.mem|
    {
      ReanudableMeta(s, peor, k, ms, c, i);
      GuardadoLargo(s, ms[i]);
    }
  }

  lemma ReanudableBases(s: Km, peor: bool, k: nat, ms: seq<SwapMeta>, c: Colocacion)
    requires Reanudable(s, peor, k, ms, c)
    ensures |c.spans| == |ms|
    ensures forall i :: 0 <= i < |ms| ==> c.spans[i].base < Total(s.sticks) && c.spans[i].size == ms[i].tamanio
  {
    forall i | 0 <= i < |ms|
      ensures c.spans[i].base < Total(s.sticks) && c.spans[i].size == ms[i].tamanio
    {
      ReanudableMeta(s, peor, k, ms, c, i);
    }
  }

  lemma ReanudableDevuelve(s: Km, peor: bool, k: nat, ms: seq<SwapMeta>, c: Colocacion)
    requires Reanudable(s, peor, k, ms, c)
    ensures NonEmpty(c.huecos + c.spans) && Bounded(c.huecos + c.spans, U32_MAX) && SameCover(c.huecos + c.spans, s.huecos)
  {
    HuecosSanos(s);
    ColocarCover(peor, s.huecos, Tamanios(ms), []);
    forall a
      ensures Cover(c.huecos + c.spans, a) == Cover(s.huecos, a)
    {
      CoverAppend(c.huecos, c.spans, a);
      assert Cover(c.spans, a) + Cover(c.huecos, a) == Cover([], a) + Cover(s.huecos, a);
    }
    var todos := c.huecos + c.spans;
    forall i | 0 <= i < |todos|
      ensures todos[i].size > 0 && todos[i].base + todos[i].size <= U32_MAX
    {
      if i >= |c.huecos| {
        ReanudableMeta(s, peor, k, ms, c, i - |c.huecos|);
      } else {
        var a := todos[i].base + todos[i].size - 1;
        CoverOne(c.huecos, i, a);
        assert Cover(c.spans, a) + Cover(c.huecos, a) == Cover([], a) + Cover(s.huecos, a);
        CoverAtMostOne(s, a);
        assert Cover(Todos(s.contextos), a) + Cover(s.huecos, a) == Bit(0 <= a < |s.mem|);
      }
    }
  }

  /** The pieces of a commit put together. */
  lemma ArmarReanudado(s: Km, t: Km, peor: bool, k: nat, ms: seq<SwapMeta>, c: Colocacion, segs: seq<Segmento>, datos: seq<seq<Byte>>)
    requires Reanudable(s, peor, k, ms, c) && |segs| == |ms| == |c.spans| == |datos|
    requires forall i :: 0 <= i < |segs| ==> SegmentoDe(s.sticks, ms[i], c.spans[i], segs[i])
    requires Guardados(ms, s.disco, datos) && CargadosHasta(s.mem, t.mem, c.spans, datos, |ms|)
    requires Liberado(s.bitmap, t.bitmap, ms)
    requires t == s.(contextos := s.contextos[k := s.contextos[k].(segmentos := segs)], huecos := c.huecos,
                     mem := t.mem, metas := MetasSin(s.metas, s.contextos[k].pid), bitmap := t.bitmap)
    ensures Reanudado(s, t, peor, k) && Inv(t)
  {
    assert Cargados(s, t, ms, c.spans);
    ReanudadoInv(s, t, peor, k);
  }

  /** finalizar_proceso has looked at the entries from `i` on. */
  ghost predicate EnCurso(m0: seq<SwapMeta>, metas: seq<SwapMeta>, pid: U32, i: nat, b0: seq<bool>, b: seq<bool>) {
    && i <= |m0| && |b0| <= U32_MAX
    && metas == m0[..i] + MetasSin(m0[i..], pid)
    && Liberado(b0, b, MetasDe(m0[i..], pid))
  }

  lemma EnCursoPaso(m0: seq<SwapMeta>, metas: seq<SwapMeta>, pid: U32, i: nat, b0: seq<bool>, b: seq<bool>)
    requires i < |m0| && EnCurso(m0, metas, pid, i + 1, b0, b)
    ensures i < |metas| && metas[i] == m0[i]
    ensures m0[i].pid != pid ==> EnCurso(m0, metas, pid, i, b0, b)
  {
    assert m0[i..][1..] == m0[i + 1..];
    if m0[i].pid != pid {
      assert m0[..i + 1] + MetasSin(m0[i + 1..], pid) == m0[..i] + MetasSin(m0[i..], pid);
    }
  }

  lemma EnCursoQuita(m0: seq<SwapMeta>, metas: seq<SwapMeta>, pid: U32, i: nat, b0: seq<bool>, b1: seq<bool>, b2: seq<bool>)
    requires i < |m0| && EnCurso(m0, metas, pid, i + 1, b0, b1) && m0[i].pid == pid && i < |metas|
    requires LiberadaEntrada(b1, b2, m0[i].bloques)
    ensures EnCurso(m0, RemoveAt(metas, i), pid, i, b0, b2)
  {
    assert m0[i..][1..] == m0[i + 1..];
    LiberadoFrente(b0, b1, b2, m0[i], MetasDe(m0[i + 1..], pid));
    assert RemoveAt(metas, i) == m0[..i] + MetasSin(m0[i..], pid);
  }
}
