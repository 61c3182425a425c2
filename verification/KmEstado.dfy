/**
 * The state of Kernel Memory as a value: its invariant, and what a process
 * can observe of it. A process owns pieces: an id with the bytes behind it,
 * wherever they are, resident or in swap.
 */
module KmEstado {
  import opened Basics
  import opened Intervals
  import opened Sticks
  import opened Contexto

  const I32_MAX: int := 0x7FFF_FFFF

  datatype SwapMeta = SwapMeta(pid: U32, id: U32, tamanio: U32, bloques: seq<U32>)

  /** A CREAR_SEGMENTO request that waits for a compaction. */
  datatype Pedido = Pedido(pid: U32, id: U32, tamanio: U32)

  datatype Km = Km(
    sticks: seq<StickInfo>,
    mem: seq<Byte>,
    contextos: seq<Contexto>,
    huecos: seq<Interval>,
    metas: seq<SwapMeta>,
    bitmap: seq<bool>,
    disco: seq<seq<Byte>>,
    blockSize: U32,
    swapActivo: bool,
    pendiente: Option<Pedido>)

  datatype Pieza = Pieza(id: U32, bytes: seq<Byte>)

  // ---------------------------------------------------------------- observation

  function Bytes(mem: seq<Byte>, base: int, n: int): seq<Byte> {
    if 0 <= base && 0 <= n && base + n <= |mem| then mem[base..base + n] else []
  }

  function Residentes(mem: seq<Byte>, segs: seq<Segmento>): (r: seq<Pieza>)
    ensures |r| == |segs|
    ensures forall i :: 0 <= i < |r| ==> r[i] == Pieza(segs[i].id, Bytes(mem, segs[i].base, segs[i].limite))
  {
    seq(|segs|, i requires 0 <= i < |segs| => Pieza(segs[i].id, Bytes(mem, segs[i].base, segs[i].limite)))
  }

  function Bloque(disco: seq<seq<Byte>>, b: int): seq<Byte> {
    if 0 <= b < |disco| then disco[b] else []
  }

  /** The blocks of a list, one after the other. */
  function Juntar(disco: seq<seq<Byte>>, bloques: seq<U32>): seq<Byte> {
    if bloques == [] then [] else Bloque(disco, bloques[0]) + Juntar(disco, bloques[1..])
  }

  function Guardado(disco: seq<seq<Byte>>, m: SwapMeta): seq<Byte> {
    var todo := Juntar(disco, m.bloques);
    if m.tamanio <= |todo| then todo[..m.tamanio] else todo
  }

  /** The pieces a process has in swap, in the order of the metadata list. */
  function EnSwap(disco: seq<seq<Byte>>, metas: seq<SwapMeta>, pid: U32): seq<Pieza> {
    if metas == [] then []
    else if metas[0].pid == pid then [Pieza(metas[0].id, Guardado(disco, metas[0]))] + EnSwap(disco, metas[1..], pid)
    else EnSwap(disco, metas[1..], pid)
  }

  ghost function Contenido(s: Km, k: nat): multiset<Pieza>
    requires k < |s.contextos|
  {
    multiset(Residentes(s.mem, s.contextos[k].segmentos)) + multiset(EnSwap(s.disco, s.metas, s.contextos[k].pid))
  }

  /** What a process stores, if it exists: the abstract state every operation is measured against. */
  ghost function Vista(s: Km, pid: U32): Option<multiset<Pieza>> {
    match Buscar(s.contextos, pid)
    case None => None
    case Some(k) => Some(Contenido(s, k))
  }

  /** What one process stores, if it exists, seen as pieces without addresses. */
  type Deposito = Option<multiset<Pieza>>

  ghost predicate Agrega(v: Deposito, w: Deposito, id: U32, n: U32) {
    v.Some? && exists z: Pieza :: z.id == id && |z.bytes| == n && w == Some(v.value + multiset{z})
  }

  ghost predicate Quita(v: Deposito, w: Deposito, id: U32) {
    w == v || (v.Some? && exists z: Pieza :: z in v.value && z.id == id && w == Some(v.value - multiset{z}))
  }

  ghost predicate Escribe(v: Deposito, w: Deposito, id: int, desp: nat, datos: seq<Byte>) {
    v.Some? && exists z: Pieza ::
      z in v.value && z.id == id && desp + |datos| <= |z.bytes|
      && w == Some(v.value - multiset{z} + multiset{z.(bytes := Splice(z.bytes, desp, datos))})
  }

  // ---------------------------------------------------------------- invariant

  function Bloques(n: nat, bs: nat): nat
    requires bs > 0
  {
    n / bs + Bit(n % bs != 0)
  }

  /** How many times the metadata list uses a block. */
  function Usos(metas: seq<SwapMeta>, b: U32): nat {
    if metas == [] then 0 else multiset(metas[0].bloques)[b] + Usos(metas[1..], b)
  }

  predicate PidsDistintos(ctxs: seq<Contexto>) {
    forall i, j :: 0 <= i < |ctxs| && 0 <= j < |ctxs| && ctxs[i].pid == ctxs[j].pid ==> i == j
  }

  predicate SegmentoOk(sticks: seq<StickInfo>, g: Segmento) {
    0 < g.limite <= I32_MAX && StickAt(sticks, g.base) == Some(g.stick)
  }

  predicate SegmentosOk(sticks: seq<StickInfo>, ctxs: seq<Contexto>) {
    forall k, i :: 0 <= k < |ctxs| && 0 <= i < |ctxs[k].segmentos| ==> SegmentoOk(sticks, ctxs[k].segmentos[i])
  }

  /** Resident segments and holes partition the address space: every address is in exactly one of them. */
  ghost predicate Tiled(s: Km) {
    forall a {:trigger Cover(s.huecos, a)} {:trigger Cover(Todos(s.contextos), a)} ::
      Cover(Todos(s.contextos), a) + Cover(s.huecos, a) == Bit(0 <= a < |s.mem|)
  }

  predicate MetaOk(s: Km, m: SwapMeta) {
    && 0 < m.tamanio <= I32_MAX
    && s.blockSize > 0
    && |m.bloques| == Bloques(m.tamanio, s.blockSize)
    && (forall j :: 0 <= j < |m.bloques| ==> m.bloques[j] < |s.bitmap|)
    && Buscar(s.contextos, m.pid).Some?
  }

  /** A bit is set exactly when one metadata entry owns the block; no block has two owners. */
  ghost predicate Owned(s: Km) {
    forall b: U32 {:trigger Usos(s.metas, b)} :: b < |s.bitmap| ==> Usos(s.metas, b) == Bit(s.bitmap[b])
  }

  ghost predicate SwapOk(s: Km) {
    && |s.disco| == |s.bitmap| <= U32_MAX && s.blockSize <= U32_MAX - 4
    && (forall b :: 0 <= b < |s.disco| ==> |s.disco[b]| == s.blockSize)
    && (s.bitmap == [] <==> s.blockSize == 0)
    && (s.swapActivo ==> s.blockSize > 0)
    && (forall i :: 0 <= i < |s.metas| ==> MetaOk(s, s.metas[i]))
    && Owned(s)
  }

  ghost predicate Inv(s: Km) {
    && Contiguous(s.sticks) && |s.mem| == Total(s.sticks)
    && PidsDistintos(s.contextos)
    && SegmentosOk(s.sticks, s.contextos)
    && NonEmpty(s.huecos) && Coalesced(s.huecos)
    && Tiled(s)
    && SwapOk(s)
  }

  // ---------------------------------------------------------------- consequences

  lemma BuscarUnico(ctxs: seq<Contexto>, k: nat)
    requires PidsDistintos(ctxs) && k < |ctxs|
    ensures Buscar(ctxs, ctxs[k].pid) == Some(k)
  {
  }

  lemma PidsIguales(xs: seq<Contexto>, ys: seq<Contexto>)
    requires |xs| == |ys| && forall j :: 0 <= j < |xs| ==> ys[j].pid == xs[j].pid
    requires PidsDistintos(xs)
    ensures PidsDistintos(ys)
    ensures forall pid :: Buscar(ys, pid) == Buscar(xs, pid)
  {
    forall pid
      ensures Buscar(ys, pid) == Buscar(xs, pid)
    {
      var j := Buscar(xs, pid);
      if j.Some? {
        assert ys[j.value].pid == pid;
      }
    }
  }

  /** A change confined to one process changes what that process stores and nothing else. */
  lemma VistaLocal(s: Km, t: Km, k: nat)
    requires PidsDistintos(s.contextos) && k < |s.contextos| == |t.contextos|
    requires forall j :: 0 <= j < |s.contextos| ==> t.contextos[j].pid == s.contextos[j].pid
    requires forall j :: 0 <= j < |s.contextos| && j != k ==> Contenido(t, j) == Contenido(s, j)
    ensures PidsDistintos(t.contextos)
    ensures forall q :: Vista(t, q) == if q == s.contextos[k].pid then Some(Contenido(t, k)) else Vista(s, q)
  {
    PidsIguales(s.contextos, t.contextos);
    BuscarUnico(s.contextos, k);
  }

  /** Same contents for every process, same abstract state. */
  lemma VistaIgual(s: Km, t: Km)
    requires PidsDistintos(s.contextos) && |s.contextos| == |t.contextos|
    requires forall j :: 0 <= j < |s.contextos| ==> t.contextos[j].pid == s.contextos[j].pid
    requires forall j :: 0 <= j < |s.contextos| ==> Contenido(t, j) == Contenido(s, j)
    ensures PidsDistintos(t.contextos)
    ensures forall q :: Vista(t, q) == Vista(s, q)
  {
    PidsIguales(s.contextos, t.contextos);
  }

  /** The swap side of the invariant only looks at which processes exist. */
  lemma SwapFrame(s: Km, t: Km)
    requires SwapOk(s) && PidsDistintos(s.contextos) && |s.contextos| == |t.contextos|
    requires forall j :: 0 <= j < |s.contextos| ==> t.contextos[j].pid == s.contextos[j].pid
    requires t.metas == s.metas && t.bitmap == s.bitmap && t.disco == s.disco
    requires t.blockSize == s.blockSize && t.swapActivo == s.swapActivo
    ensures SwapOk(t) && PidsDistintos(t.contextos)
  {
    PidsIguales(s.contextos, t.contextos);
    forall i | 0 <= i < |t.metas|
      ensures MetaOk(t, t.metas[i])
    {
      assert MetaOk(s, s.metas[i]);
    }
  }

  lemma SegmentosOkUpdate(sticks: seq<StickInfo>, ctxs: seq<Contexto>, k: nat, c: Contexto)
    requires SegmentosOk(sticks, ctxs) && k < |ctxs|
    requires forall i :: 0 <= i < |c.segmentos| ==> SegmentoOk(sticks, c.segmentos[i])
    ensures SegmentosOk(sticks, ctxs[k := c])
  {
  }

  /** Moving addresses between the segments of one process and the holes keeps the partition. */
  lemma TiledUpdate(s: Km, k: nat, c: Contexto, huecos: seq<Interval>)
    requires Tiled(s) && k < |s.contextos|
    requires forall a :: Cover(Spans(c.segmentos), a) + Cover(huecos, a)
                      == Cover(Spans(s.contextos[k].segmentos), a) + Cover(s.huecos, a)
    ensures Tiled(s.(contextos := s.contextos[k := c], huecos := huecos))
  {
    forall a
      ensures Cover(Todos(s.contextos[k := c]), a) + Cover(huecos, a) == Bit(0 <= a < |s.mem|)
    {
      CoverAtMostOne(s, a);
      CoverTodosUpdate(s.contextos, k, c, a);
    }
  }

  lemma CoverAtMostOne(s: Km, a: int)
    requires Tiled(s)
    ensures Cover(Todos(s.contextos), a) <= 1 && Cover(s.huecos, a) <= 1
  {
    assert Cover(Todos(s.contextos), a) + Cover(s.huecos, a) == Bit(0 <= a < |s.mem|);
  }

  lemma SegmentoEnMemoria(s: Km, k: nat, i: nat)
    requires Inv(s) && k < |s.contextos| && i < |s.contextos[k].segmentos|
    ensures var g := s.contextos[k].segmentos[i]; g.base + g.limite <= |s.mem|
  {
    var g := s.contextos[k].segmentos[i];
    assert SegmentoOk(s.sticks, g);
    var a := g.base + g.limite - 1;
    CoverTodosOne(s.contextos, k, i, a);
    CoverAtMostOne(s, a);
  }

  lemma HuecoEnMemoria(s: Km, i: nat)
    requires Inv(s) && i < |s.huecos|
    ensures s.huecos[i].base + s.huecos[i].size <= |s.mem|
  {
    var a := s.huecos[i].base + s.huecos[i].size - 1;
    CoverOne(s.huecos, i, a);
    CoverAtMostOne(s, a);
  }

  /** Two different resident segments, of the same process or not, share no address. */
  lemma SegmentosDisjuntos(s: Km, k: nat, i: nat, l: nat, j: nat)
    requires Inv(s) && k < |s.contextos| && i < |s.contextos[k].segmentos|
    requires l < |s.contextos| && j < |s.contextos[l].segmentos| && (k != l || i != j)
    ensures var g, h := s.contextos[k].segmentos[i], s.contextos[l].segmentos[j];
            g.base + g.limite <= h.base || h.base + h.limite <= g.base
  {
    var g, h := s.contextos[k].segmentos[i], s.contextos[l].segmentos[j];
    assert SegmentoOk(s.sticks, g) && SegmentoOk(s.sticks, h);
    var a := if g.base < h.base then h.base else g.base;
    if g.base + g.limite > h.base && h.base + h.limite > g.base {
      CoverTodosTwo(s.contextos, k, i, l, j, a);
      CoverAtMostOne(s, a);
    }
  }

  /** Free and used bytes add up to the installed memory. */
  lemma BytesConservados(s: Km)
    requires Inv(s)
    ensures Sum(Todos(s.contextos)) + Sum(s.huecos) == |s.mem|
  {
    var todo := Todos(s.contextos) + s.huecos;
    forall a
      ensures Cover(todo, a) == Bit(0 <= a < |s.mem|)
    {
      CoverAppend(Todos(s.contextos), s.huecos, a);
      CoverAtMostOne(s, a);
    }
    forall i | 0 <= i < |todo|
      ensures todo[i].base + todo[i].size <= |s.mem|
    {
      var a := todo[i].base + todo[i].size - 1;
      if todo[i].size > 0 {
        CoverOne(todo, i, a);
      } else {
        TodosNoVacio(s.sticks, s.contextos);
      }
    }
    PartitionSum(todo, |s.mem|);
    SumAppend(Todos(s.contextos), s.huecos);
  }

  lemma {:induction false} TodosNoVacio(sticks: seq<StickInfo>, ctxs: seq<Contexto>)
    requires SegmentosOk(sticks, ctxs)
    ensures NonEmpty(Todos(ctxs))
  {
    if ctxs != [] {
      forall k, i | 0 <= k < |ctxs[1..]| && 0 <= i < |ctxs[1..][k].segmentos|
        ensures SegmentoOk(sticks, ctxs[1..][k].segmentos[i])
      {
        assert SegmentoOk(sticks, ctxs[k + 1].segmentos[i]);
      }
      TodosNoVacio(sticks, ctxs[1..]);
      forall i | 0 <= i < |ctxs[0].segmentos|
        ensures Spans(ctxs[0].segmentos)[i].size > 0
      {
        assert SegmentoOk(sticks, ctxs[0].segmentos[i]);
      }
    }
  }

  /** A memory that agrees on a range holds the same bytes there. */
  lemma BytesIguales(mem: seq<Byte>, mem2: seq<Byte>, base: nat, n: nat)
    requires |mem| == |mem2|
    requires forall a :: base <= a < base + n && a < |mem| ==> mem[a] == mem2[a]
    ensures Bytes(mem, base, n) == Bytes(mem2, base, n)
  {
  }
}
