/** Suspending a process to swap and bringing it back. */
module KmSwap {
  import opened Basics
  import opened Intervals
  import opened Sticks
  import opened Contexto
  import opened KmEstado
  import opened KmAsignacion

  // ---------------------------------------------------------------- blocks

  function Ceros(n: nat): (r: seq<Byte>)
    ensures |r| == n
  {
    seq(n, _ => 0)
  }

  /** The `bs` bytes of the data from `off` on, padded with zeros. */
  function Trozo(datos: seq<Byte>, bs: nat, off: nat): (r: seq<Byte>)
    requires off <= |datos|
    ensures |r| == bs
    ensures forall i :: 0 <= i < bs && off + i < |datos| ==> r[i] == datos[off + i]
  {
    var chunk := Min(|datos| - off, bs);
    datos[off..off + chunk] + Ceros(bs - chunk)
  }

  /** Block `b` of the list holds its part of the data. */
  predicate Escrito(disco: seq<seq<Byte>>, bloques: seq<U32>, datos: seq<Byte>, bs: nat, b: nat)
    requires b < |bloques|
  {
    b * bs <= |datos| && Bloque(disco, bloques[b]) == Trozo(datos, bs, b * bs)
  }

  /** The number of blocks reaches the end of the data, and the last block is not empty. */
  lemma BloquesAlcanzan(n: nat, bs: nat)
    requires bs > 0 && n > 0
    ensures Bloques(n, bs) > 0
    ensures (Bloques(n, bs) - 1) * bs < n <= Bloques(n, bs) * bs
  {
    var q, r := n / bs, n % bs;
    assert n == q * bs + r;
    assert (q + 1) * bs == q * bs + bs;
    if r == 0 {
      assert (q - 1) * bs == q * bs - bs;
    }
  }

  lemma OffsetEnRango(n: nat, bs: nat, b: nat)
    requires bs > 0 && n > 0 && b < Bloques(n, bs)
    ensures 0 <= b * bs < n
  {
    BloquesAlcanzan(n, bs);
    MulMonotono(b, Bloques(n, bs) - 1, bs);
  }

  lemma MulMonotono(x: nat, y: nat, z: nat)
    requires x <= y
    ensures x * z <= y * z
  {
  }

  lemma {:induction false} JuntarLargo(disco: seq<seq<Byte>>, bloques: seq<U32>, bs: nat)
    requires forall j :: 0 <= j < |bloques| ==> bloques[j] < |disco|
    requires forall b :: 0 <= b < |disco| ==> |disco[b]| == bs
    ensures |Juntar(disco, bloques)| == |bloques| * bs
  {
    if bloques != [] {
      JuntarLargo(disco, bloques[1..], bs);
      assert |bloques| * bs == bs + |bloques[1..]| * bs;
    }
  }

  lemma {:induction false} JuntarAppend(disco: seq<seq<Byte>>, xs: seq<U32>, ys: seq<U32>)
    ensures Juntar(disco, xs + ys) == Juntar(disco, xs) + Juntar(disco, ys)
  {
    if xs == [] {
      assert xs + ys == ys;
    } else {
      assert (xs + ys)[1..] == xs[1..] + ys;
      JuntarAppend(disco, xs[1..], ys);
    }
  }

  /** Reading back, block by block, what was written block by block gives the data. */
  lemma JuntarBloques(disco: seq<seq<Byte>>, bloques: seq<U32>, datos: seq<Byte>, bs: nat)
    requires bs > 0 && |datos| > 0 && |bloques| == Bloques(|datos|, bs)
    requires forall j :: 0 <= j < |bloques| ==> Escrito(disco, bloques, datos, bs, j)
    ensures |Juntar(disco, bloques)| >= |datos| && Juntar(disco, bloques)[..|datos|] == datos
  {
    BloquesAlcanzan(|datos|, bs);
    JuntarPrefijo(disco, bloques, datos, bs, |bloques|);
    assert bloques[..|bloques|] == bloques;
  }

  /** `x` is the data's first `n` bytes, as far as there is data. */
  predicate Empieza(x: seq<Byte>, datos: seq<Byte>, n: nat) {
    |x| == n && forall i :: 0 <= i < n && i < |datos| ==> x[i] == datos[i]
  }

  lemma {:induction false} JuntarPrefijo(disco: seq<seq<Byte>>, bloques: seq<U32>, datos: seq<Byte>, bs: nat, k: nat)
    requires k <= |bloques|
    requires forall j :: 0 <= j < |bloques| ==> Escrito(disco, bloques, datos, bs, j)
    ensures Empieza(Juntar(disco, bloques[..k]), datos, k * bs)
  {
    if k > 0 {
      JuntarPrefijo(disco, bloques, datos, bs, k - 1);
      assert Escrito(disco, bloques, datos, bs, k - 1);
      JuntarUltimo(disco, bloques, k);
      EmpiezaTrozo(Juntar(disco, bloques[..k - 1]), datos, (k - 1) * bs, bs);
      assert k * bs == (k - 1) * bs + bs;
    }
  }

  lemma JuntarUltimo(disco: seq<seq<Byte>>, bloques: seq<U32>, k: nat)
    requires 0 < k <= |bloques|
    ensures Juntar(disco, bloques[..k]) == Juntar(disco, bloques[..k - 1]) + Bloque(disco, bloques[k - 1])
  {
    assert bloques[..k] == bloques[..k - 1] + [bloques[k - 1]];
    JuntarAppend(disco, bloques[..k - 1], [bloques[k - 1]]);
    assert Juntar(disco, [bloques[k - 1]]) == Bloque(disco, bloques[k - 1]);
  }

  lemma EmpiezaTrozo(x: seq<Byte>, datos: seq<Byte>, off: nat, bs: nat)
    requires Empieza(x, datos, off) && off <= |datos|
    ensures Empieza(x + Trozo(datos, bs, off), datos, off + bs)
  {
  }

  // ---------------------------------------------------------------- frames

  /** Blocks that keep their contents keep what is stored in them. */
  lemma {:induction false} JuntarFrame(d: seq<seq<Byte>>, e: seq<seq<Byte>>, bloques: seq<U32>)
    requires forall j :: 0 <= j < |bloques| ==> Bloque(d, bloques[j]) == Bloque(e, bloques[j])
    ensures Juntar(d, bloques) == Juntar(e, bloques)
  {
    if bloques != [] {
      assert forall j :: 0 <= j < |bloques[1..]| ==> bloques[1..][j] == bloques[j + 1];
      JuntarFrame(d, e, bloques[1..]);
    }
  }

  /** Every block in use holds the same bytes on both disks. */
  predicate MismosUsados(bitmap: seq<bool>, d: seq<seq<Byte>>, e: seq<seq<Byte>>) {
    && |d| == |e| == |bitmap|
    && forall b :: 0 <= b < |bitmap| && bitmap[b] ==> d[b] == e[b]
  }

  lemma {:induction false} UsoDeBloque(metas: seq<SwapMeta>, i: nat, j: nat)
    requires i < |metas| && j < |metas[i].bloques|
    ensures Usos(metas, metas[i].bloques[j]) > 0
  {
    if i == 0 {
      assert metas[0].bloques[j] in multiset(metas[0].bloques);
    } else {
      UsoDeBloque(metas[1..], i - 1, j);
    }
  }

  /** What is in swap is untouched by writes to blocks nobody owns. */
  lemma EnSwapFrame(s: Km, e: seq<seq<Byte>>, pid: U32)
    requires SwapOk(s) && MismosUsados(s.bitmap, s.disco, e)
    ensures EnSwap(e, s.metas, pid) == EnSwap(s.disco, s.metas, pid)
  {
    forall i | 0 <= i < |s.metas|
      ensures Guardado(e, s.metas[i]) == Guardado(s.disco, s.metas[i])
    {
      assert MetaOk(s, s.metas[i]);
      forall j | 0 <= j < |s.metas[i].bloques|
        ensures Bloque(e, s.metas[i].bloques[j]) == Bloque(s.disco, s.metas[i].bloques[j])
      {
        UsoDeBloque(s.metas, i, j);
        assert s.bitmap[s.metas[i].bloques[j]];
      }
      JuntarFrame(e, s.disco, s.metas[i].bloques);
    }
    EnSwapIgual(s.disco, e, s.metas, pid);
  }

  lemma {:induction false} EnSwapIgual(d: seq<seq<Byte>>, e: seq<seq<Byte>>, metas: seq<SwapMeta>, pid: U32)
    requires forall i :: 0 <= i < |metas| ==> Guardado(e, metas[i]) == Guardado(d, metas[i])
    ensures EnSwap(e, metas, pid) == EnSwap(d, metas, pid)
  {
    if metas != [] {
      EnSwapIgual(d, e, metas[1..], pid);
    }
  }

  lemma {:induction false} EnSwapAppend(d: seq<seq<Byte>>, xs: seq<SwapMeta>, ys: seq<SwapMeta>, pid: U32)
    ensures EnSwap(d, xs + ys, pid) == EnSwap(d, xs, pid) + EnSwap(d, ys, pid)
  {
    if xs == [] {
      assert xs + ys == ys;
    } else {
      assert (xs + ys)[1..] == xs[1..] + ys;
      EnSwapAppend(d, xs[1..], ys, pid);
    }
  }

  lemma {:induction false} UsosAppend(xs: seq<SwapMeta>, ys: seq<SwapMeta>, b: U32)
    ensures Usos(xs + ys, b) == Usos(xs, b) + Usos(ys, b)
  {
    if xs == [] {
      assert xs + ys == ys;
    } else {
      assert (xs + ys)[1..] == xs[1..] + ys;
      UsosAppend(xs[1..], ys, b);
    }
  }

  // ---------------------------------------------------------------- freeing blocks

  /** Exactly the blocks of these entries have been cleared. */
  ghost predicate Liberado(antes: seq<bool>, ahora: seq<bool>, quitadas: seq<SwapMeta>) {
    && |ahora| == |antes|
    && forall b: U32 {:trigger Usos(quitadas, b)} :: b < |antes| ==> ahora[b] == (antes[b] && Usos(quitadas, b) == 0)
  }

  predicate LiberadaEntrada(antes: seq<bool>, ahora: seq<bool>, bloques: seq<U32>) {
    |ahora| == |antes| && forall b :: 0 <= b < |antes| ==> ahora[b] == (antes[b] && b !in bloques)
  }

  lemma LiberadoPaso(b0: seq<bool>, b1: seq<bool>, b2: seq<bool>, ms: seq<SwapMeta>, i: nat)
    requires i < |ms| && |b0| <= U32_MAX && Liberado(b0, b1, ms[..i]) && LiberadaEntrada(b1, b2, ms[i].bloques)
    ensures Liberado(b0, b2, ms[..i + 1])
  {
    forall b: U32 | b < |b0|
      ensures b2[b] == (b0[b] && Usos(ms[..i + 1], b) == 0)
    {
      assert ms[..i + 1] == ms[..i] + [ms[i]];
      UsosAppend(ms[..i], [ms[i]], b);
      assert b1[b] == (b0[b] && Usos(ms[..i], b) == 0);
      assert b in ms[i].bloques <==> b in multiset(ms[i].bloques);
    }
  }

  lemma LiberadoEn(b0: seq<bool>, b1: seq<bool>, ms: seq<SwapMeta>, b: U32)
    requires Liberado(b0, b1, ms) && b < |b0|
    ensures b1[b] == (b0[b] && Usos(ms, b) == 0)
  {
    assert Usos(ms, b) >= 0;
  }

  /** The loop that frees entries from the last to the first. */
  lemma LiberadoFrente(b0: seq<bool>, b1: seq<bool>, b2: seq<bool>, m: SwapMeta, resto: seq<SwapMeta>)
    requires |b0| <= U32_MAX && Liberado(b0, b1, resto) && LiberadaEntrada(b1, b2, m.bloques)
    ensures Liberado(b0, b2, [m] + resto)
  {
    forall b: U32 | b < |b0|
      ensures b2[b] == (b0[b] && Usos([m] + resto, b) == 0)
    {
      LiberadoEn(b0, b1, resto, b);
      UsosAppend([m], resto, b);
      assert b in m.bloques <==> b in multiset(m.bloques);
    }
  }

  // ---------------------------------------------------------------- one process' metadata

  function MetasDe(metas: seq<SwapMeta>, pid: U32): (r: seq<SwapMeta>)
    ensures forall i :: 0 <= i < |r| ==> r[i].pid == pid && r[i] in metas
  {
    if metas == [] then []
    else if metas[0].pid == pid then [metas[0]] + MetasDe(metas[1..], pid)
    else MetasDe(metas[1..], pid)
  }

  function MetasSin(metas: seq<SwapMeta>, pid: U32): (r: seq<SwapMeta>)
    ensures forall i :: 0 <= i < |r| ==> r[i].pid != pid && r[i] in metas
  {
    if metas == [] then []
    else if metas[0].pid == pid then MetasSin(metas[1..], pid)
    else [metas[0]] + MetasSin(metas[1..], pid)
  }

  lemma {:induction false} UsosParten(metas: seq<SwapMeta>, pid: U32, b: U32)
    ensures Usos(metas, b) == Usos(MetasDe(metas, pid), b) + Usos(MetasSin(metas, pid), b)
  {
    if metas != [] {
      UsosParten(metas[1..], pid, b);
    }
  }

  lemma {:induction false} EnSwapSin(d: seq<seq<Byte>>, metas: seq<SwapMeta>, pid: U32, q: U32)
    ensures EnSwap(d, MetasSin(metas, pid), q) == if q == pid then [] else EnSwap(d, metas, q)
  {
    if metas != [] {
      EnSwapSin(d, metas[1..], pid, q);
    }
  }

  lemma {:induction false} EnSwapDe(d: seq<seq<Byte>>, metas: seq<SwapMeta>, pid: U32)
    ensures |EnSwap(d, metas, pid)| == |MetasDe(metas, pid)|
    ensures forall i :: 0 <= i < |MetasDe(metas, pid)| ==>
              EnSwap(d, metas, pid)[i] == Pieza(MetasDe(metas, pid)[i].id, Guardado(d, MetasDe(metas, pid)[i]))
  {
    if metas != [] {
      EnSwapDe(d, metas[1..], pid);
    }
  }

  lemma {:induction false} EnSwapAjeno(d: seq<seq<Byte>>, metas: seq<SwapMeta>, q: U32)
    requires forall i :: 0 <= i < |metas| ==> metas[i].pid != q
    ensures EnSwap(d, metas, q) == []
  {
    if metas != [] {
      EnSwapAjeno(d, metas[1..], q);
    }
  }

  lemma {:induction false} MetasTodas(metas: seq<SwapMeta>, pid: U32)
    requires forall i :: 0 <= i < |metas| ==> metas[i].pid == pid
    ensures MetasDe(metas, pid) == metas
  {
    if metas != [] {
      MetasTodas(metas[1..], pid);
    }
  }

  // ---------------------------------------------------------------- suspension

  /** Metadata for a segment: its id and size, and as many blocks as the size needs. */
  predicate EsMeta(bs: nat, cantBloques: nat, pid: U32, g: Segmento, m: SwapMeta) {
    && m.pid == pid && m.id == g.id && m.tamanio == g.limite
    && bs > 0 && |m.bloques| == Bloques(g.limite, bs)
    && forall j :: 0 <= j < |m.bloques| ==> m.bloques[j] < cantBloques
  }

  predicate EscritosHasta(disco: seq<seq<Byte>>, bloques: seq<U32>, datos: seq<Byte>, bs: nat, n: nat) {
    forall j :: 0 <= j < |bloques| && j < n ==> Escrito(disco, bloques, datos, bs, j)
  }

  predicate Escritos(disco: seq<seq<Byte>>, bloques: seq<U32>, datos: seq<Byte>, bs: nat) {
    EscritosHasta(disco, bloques, datos, bs, |bloques|)
  }

  /** The metadata of a segment whose bytes are now in its blocks. */
  predicate Copiado(s: Km, disco: seq<seq<Byte>>, pid: U32, g: Segmento, m: SwapMeta) {
    EsMeta(s.blockSize, |s.bitmap|, pid, g, m) && Escritos(disco, m.bloques, Bytes(s.mem, g.base, g.limite), s.blockSize)
  }

  /** Every block of the new entries was free and is now in use, once; nothing else changed. */
  ghost predicate Reservado(antes: seq<bool>, ahora: seq<bool>, nuevas: seq<SwapMeta>) {
    && |ahora| == |antes|
    && forall b: U32 {:trigger Usos(nuevas, b)} :: b < |antes| ==> Bit(antes[b]) + Usos(nuevas, b) == Bit(ahora[b])
  }

  ghost predicate ReservadaEntrada(antes: seq<bool>, ahora: seq<bool>, bloques: seq<U32>) {
    && |ahora| == |antes|
    && (forall j :: 0 <= j < |bloques| ==> bloques[j] < |antes|)
    && forall b: U32 {:trigger multiset(bloques)[b]} :: b < |antes| ==> Bit(antes[b]) + multiset(bloques)[b] == Bit(ahora[b])
  }

  predicate DelTamanio(d: seq<seq<Byte>>, bs: nat) {
    forall b :: 0 <= b < |d| ==> |d[b]| == bs
  }

  predicate DiscoOk(s: Km, d: seq<seq<Byte>>) {
    MismosUsados(s.bitmap, s.disco, d) && DelTamanio(d, s.blockSize)
  }

  ghost predicate Suspendido(s: Km, t: Km, k: nat, nuevas: seq<SwapMeta>)
    requires k < |s.contextos|
  {
    var ctx := s.contextos[k];
    && t == s.(contextos := s.contextos[k := ctx.(segmentos := [])], huecos := t.huecos,
               metas := s.metas + nuevas, bitmap := t.bitmap, disco := t.disco)
    && NonEmpty(t.huecos) && Coalesced(t.huecos) && SameCover(t.huecos, s.huecos + Spans(ctx.segmentos))
    && |nuevas| == |ctx.segmentos|
    && (forall i :: 0 <= i < |nuevas| ==> Copiado(s, t.disco, ctx.pid, ctx.segmentos[i], nuevas[i]))
    && DiscoOk(s, t.disco) && Reservado(s.bitmap, t.bitmap, nuevas)
  }

  /** A failure can leave traces only in blocks that nobody owns. */
  ghost predicate SoloDisco(s: Km, t: Km) {
    && t == s.(disco := t.disco, swapActivo := t.swapActivo)
    && DiscoOk(s, t.disco) && (t.swapActivo ==> s.swapActivo)
  }

  function Necesarios(segs: seq<Segmento>, bs: nat): nat
    requires bs > 0
  {
    if segs == [] then 0 else Bloques(segs[0].limite, bs) + Necesarios(segs[1..], bs)
  }

  function Libres(bitmap: seq<bool>): nat {
    if bitmap == [] then 0 else Bit(!bitmap[0]) + Libres(bitmap[1..])
  }

  /**
   * suspender_proceso: every outcome and the state it leaves; `averia` says that the
   * swap device failed meanwhile. Without a failure it succeeds exactly when the blocks suffice.
   */
  ghost predicate SuspenderStep(s: Km, t: Km, pid: U32, averia: bool, ok: bool) {
    match Buscar(s.contextos, pid)
    case None => !ok && t == s
    case Some(k) =>
      if !s.swapActivo || s.blockSize == 0 then !ok && t == s
      else if s.contextos[k].segmentos == [] then ok && t == s
      else if Necesarios(s.contextos[k].segmentos, s.blockSize) > Libres(s.bitmap) then !ok && t == s
      else if averia then !ok && SoloDisco(s, t)
      else ok && exists nuevas :: Suspendido(s, t, k, nuevas)
  }

  lemma GuardadoCopia(s: Km, t: Km, pid: U32, g: Segmento, m: SwapMeta)
    requires Copiado(s, t.disco, pid, g, m) && g.limite > 0 && g.base + g.limite <= |s.mem|
    ensures Guardado(t.disco, m) == Bytes(s.mem, g.base, g.limite)
  {
    JuntarBloques(t.disco, m.bloques, Bytes(s.mem, g.base, g.limite), s.blockSize);
  }

  lemma {:induction false} EnSwapNuevas(d: seq<seq<Byte>>, nuevas: seq<SwapMeta>, pid: U32, ps: seq<Pieza>)
    requires |nuevas| == |ps|
    requires forall i :: 0 <= i < |nuevas| ==> nuevas[i].pid == pid && ps[i] == Pieza(nuevas[i].id, Guardado(d, nuevas[i]))
    ensures EnSwap(d, nuevas, pid) == ps
  {
    MetasTodas(nuevas, pid);
    EnSwapDe(d, nuevas, pid);
  }

  lemma SuspendidoSwapOk(s: Km, t: Km, k: nat, nuevas: seq<SwapMeta>)
    requires Inv(s) && k < |s.contextos| && Suspendido(s, t, k, nuevas)
    ensures SwapOk(t) && PidsDistintos(t.contextos)
  {
    PidsIguales(s.contextos, t.contextos);
    BuscarUnico(s.contextos, k);
    forall i | 0 <= i < |t.metas|
      ensures MetaOk(t, t.metas[i])
    {
      if i < |s.metas| {
        assert MetaOk(s, s.metas[i]);
      } else {
        var j := i - |s.metas|;
        assert Copiado(s, t.disco, s.contextos[k].pid, s.contextos[k].segmentos[j], nuevas[j]);
        assert SegmentoOk(s.sticks, s.contextos[k].segmentos[j]);
      }
    }
    forall b: U32 | b < |t.bitmap|
      ensures Usos(t.metas, b) == Bit(t.bitmap[b])
    {
      UsosAppend(s.metas, nuevas, b);
      assert Usos(s.metas, b) == Bit(s.bitmap[b]);
    }
  }

  lemma SuspendidoInv(s: Km, t: Km, k: nat, nuevas: seq<SwapMeta>)
    requires Inv(s) && k < |s.contextos| && Suspendido(s, t, k, nuevas)
    ensures Inv(t)
  {
    var ctx := s.contextos[k];
    var c := ctx.(segmentos := []);
    forall a
      ensures Cover(Spans(c.segmentos), a) + Cover(t.huecos, a) == Cover(Spans(ctx.segmentos), a) + Cover(s.huecos, a)
    {
      CoverAppend(s.huecos, Spans(ctx.segmentos), a);
      assert Cover(t.huecos, a) == Cover(s.huecos + Spans(ctx.segmentos), a);
    }
    TiledUpdate(s, k, c, t.huecos);
    SegmentosOkUpdate(s.sticks, s.contextos, k, c);
    SuspendidoSwapOk(s, t, k, nuevas);
  }

  lemma SuspendidoContenido(s: Km, t: Km, k: nat, nuevas: seq<SwapMeta>, j: nat)
    requires Inv(s) && k < |s.contextos| && Suspendido(s, t, k, nuevas) && j < |s.contextos|
    ensures Contenido(t, j) == Contenido(s, j)
  {
    var ctx := s.contextos[k];
    var q := s.contextos[j].pid;
    EnSwapAppend(t.disco, s.metas, nuevas, q);
    EnSwapFrame(s, t.disco, q);
    if j == k {
      var ps := Residentes(s.mem, ctx.segmentos);
      forall i | 0 <= i < |nuevas|
        ensures nuevas[i].pid == q && ps[i] == Pieza(nuevas[i].id, Guardado(t.disco, nuevas[i]))
      {
        assert Copiado(s, t.disco, ctx.pid, ctx.segmentos[i], nuevas[i]);
        assert SegmentoOk(s.sticks, ctx.segmentos[i]);
        SegmentoEnMemoria(s, k, i);
        GuardadoCopia(s, t, ctx.pid, ctx.segmentos[i], nuevas[i]);
      }
      EnSwapNuevas(t.disco, nuevas, q, ps);
    } else {
      forall i | 0 <= i < |nuevas|
        ensures nuevas[i].pid != q
      {
        assert Copiado(s, t.disco, ctx.pid, ctx.segmentos[i], nuevas[i]);
      }
      EnSwapAjeno(t.disco, nuevas, q);
    }
  }

  /** Suspending, successfully or not, keeps the invariant and every stored byte of every process. */
  lemma SuspenderPreserva(s: Km, t: Km, pid: U32, averia: bool, ok: bool)
    requires Inv(s) && SuspenderStep(s, t, pid, averia, ok)
    ensures Inv(t) && forall q :: Vista(t, q) == Vista(s, q)
    ensures !ok ==> t.contextos == s.contextos && t.huecos == s.huecos && t.metas == s.metas && t.bitmap == s.bitmap && t.mem == s.mem
  {
    if t != s {
      var k := Buscar(s.contextos, pid).value;
      if ok {
        var nuevas :| Suspendido(s, t, k, nuevas);
        SuspendidoInv(s, t, k, nuevas);
        forall j | 0 <= j < |s.contextos|
          ensures Contenido(t, j) == Contenido(s, j)
        {
          SuspendidoContenido(s, t, k, nuevas, j);
        }
        VistaIgual(s, t);
      } else {
        SoloDiscoPreserva(s, t);
      }
    }
  }

  lemma SoloDiscoPreserva(s: Km, t: Km)
    requires Inv(s) && SoloDisco(s, t)
    ensures Inv(t) && forall q :: Vista(t, q) == Vista(s, q)
  {
    forall i | 0 <= i < |t.metas|
      ensures MetaOk(t, t.metas[i])
    {
      assert MetaOk(s, s.metas[i]);
    }
    forall j | 0 <= j < |s.contextos|
      ensures Contenido(t, j) == Contenido(s, j)
    {
      EnSwapFrame(s, t.disco, s.contextos[j].pid);
    }
    VistaIgual(s, t);
  }

  // ---------------------------------------------------------------- reserving and copying, step by step

  lemma {:induction false} LibresUno(bm: seq<bool>, nb: nat)
    requires nb < |bm| && !bm[nb]
    ensures Libres(bm[nb := true]) + 1 == Libres(bm)
  {
    if nb > 0 {
      assert bm[nb := true][1..] == bm[1..][nb - 1 := true];
      LibresUno(bm[1..], nb - 1);
    } else {
      assert bm[nb := true][1..] == bm[1..];
    }
  }

  lemma {:induction false} LibresCero(bm: seq<bool>)
    requires forall b :: 0 <= b < |bm| ==> bm[b]
    ensures Libres(bm) == 0
  {
    if bm != [] {
      LibresCero(bm[1..]);
    }
  }

  lemma ReservadaEntradaPaso(b0: seq<bool>, b1: seq<bool>, bloques: seq<U32>, nb: U32)
    requires ReservadaEntrada(b0, b1, bloques) && nb < |b1| && !b1[nb]
    ensures ReservadaEntrada(b0, b1[nb := true], bloques + [nb])
  {
    forall b: U32 | b < |b0|
      ensures Bit(b0[b]) + multiset(bloques + [nb])[b] == Bit(b1[nb := true][b])
    {
      assert multiset(bloques + [nb])[b] == multiset(bloques)[b] + Bit(b == nb);
    }
  }

  lemma ReservadoPaso(b0: seq<bool>, b1: seq<bool>, b2: seq<bool>, nuevas: seq<SwapMeta>, m: SwapMeta)
    requires Reservado(b0, b1, nuevas) && ReservadaEntrada(b1, b2, m.bloques)
    ensures Reservado(b0, b2, nuevas + [m])
  {
    forall b: U32 | b < |b0|
      ensures Bit(b0[b]) + Usos(nuevas + [m], b) == Bit(b2[b])
    {
      UsosAppend(nuevas, [m], b);
      assert Bit(b0[b]) + Usos(nuevas, b) == Bit(b1[b]);
      assert Bit(b1[b]) + multiset(m.bloques)[b] == Bit(b2[b]);
    }
  }

  /** Clearing what was reserved restores the bitmap exactly. */
  lemma DeshacerReserva(b0: seq<bool>, b1: seq<bool>, b2: seq<bool>, nuevas: seq<SwapMeta>)
    requires |b0| <= U32_MAX && Reservado(b0, b1, nuevas) && Liberado(b1, b2, nuevas)
    ensures b2 == b0
  {
    forall b: U32 | b < |b0|
      ensures b2[b] == b0[b]
    {
      assert Bit(b0[b]) + Usos(nuevas, b) == Bit(b1[b]);
    }
  }

  /** Only the listed blocks differ. */
  predicate SoloBloques(d: seq<seq<Byte>>, e: seq<seq<Byte>>, bloques: seq<U32>) {
    |e| == |d| && forall b :: 0 <= b < |d| && b !in bloques ==> e[b] == d[b]
  }

  predicate Distintos(bloques: seq<U32>) {
    forall i, j :: 0 <= i < j < |bloques| ==> bloques[i] != bloques[j]
  }

  lemma {:induction false} UsosDeEntrada(ms: seq<SwapMeta>, i: nat, b: U32)
    requires i < |ms|
    ensures multiset(ms[i].bloques)[b] <= Usos(ms, b)
  {
    if i > 0 {
      UsosDeEntrada(ms[1..], i - 1, b);
    }
  }

  lemma {:induction false} UsosDeDos(ms: seq<SwapMeta>, i: nat, j: nat, b: U32)
    requires i < j < |ms|
    ensures multiset(ms[i].bloques)[b] + multiset(ms[j].bloques)[b] <= Usos(ms, b)
  {
    if i > 0 {
      UsosDeDos(ms[1..], i - 1, j - 1, b);
    } else {
      UsosDeEntrada(ms[1..], j - 1, b);
    }
  }

  lemma RepetidoDos(bloques: seq<U32>, i: nat, j: nat)
    requires i < j < |bloques| && bloques[i] == bloques[j]
    ensures multiset(bloques)[bloques[i]] >= 2
  {
    var b := bloques[i];
    assert bloques == bloques[..j] + bloques[j..];
    assert bloques[..j][i] == b && bloques[j..][0] == b;
    assert b in multiset(bloques[..j]) && b in multiset(bloques[j..]);
  }

  /** The blocks reserved for one entry are distinct, were free before, and belong to no other new entry. */
  lemma ReservadoDistintos(b0: seq<bool>, b1: seq<bool>, nuevas: seq<SwapMeta>, i: nat)
    requires |b0| <= U32_MAX && Reservado(b0, b1, nuevas) && i < |nuevas|
    requires forall j :: 0 <= j < |nuevas[i].bloques| ==> nuevas[i].bloques[j] < |b0|
    ensures Distintos(nuevas[i].bloques)
    ensures forall b :: b in nuevas[i].bloques ==> !b0[b]
  {
    forall x, y | 0 <= x < y < |nuevas[i].bloques|
      ensures nuevas[i].bloques[x] != nuevas[i].bloques[y]
    {
      var b := nuevas[i].bloques[x];
      UsosDeEntrada(nuevas, i, b);
      assert Bit(b0[b]) + Usos(nuevas, b) == Bit(b1[b]);
      if b == nuevas[i].bloques[y] {
        RepetidoDos(nuevas[i].bloques, x, y);
      }
    }
    forall b | b in nuevas[i].bloques
      ensures !b0[b]
    {
      assert b in multiset(nuevas[i].bloques);
      UsosDeEntrada(nuevas, i, b);
      assert Bit(b0[b]) + Usos(nuevas, b) == Bit(b1[b]);
    }
  }

  lemma ReservadoAjenos(b0: seq<bool>, b1: seq<bool>, nuevas: seq<SwapMeta>, i: nat, j: nat, b: U32)
    requires Reservado(b0, b1, nuevas) && i < j < |nuevas| && b < |b0|
    ensures b !in nuevas[i].bloques || b !in nuevas[j].bloques
  {
    UsosDeDos(nuevas, i, j, b);
    assert Bit(b0[b]) + Usos(nuevas, b) == Bit(b1[b]);
    assert b in nuevas[i].bloques ==> b in multiset(nuevas[i].bloques);
    assert b in nuevas[j].bloques ==> b in multiset(nuevas[j].bloques);
  }

  lemma EscritosPaso(d: seq<seq<Byte>>, bloques: seq<U32>, datos: seq<Byte>, bs: nat, b: nat)
    requires b < |bloques| && Distintos(bloques) && (forall j :: 0 <= j < |bloques| ==> bloques[j] < |d|)
    requires b * bs <= |datos| && EscritosHasta(d, bloques, datos, bs, b)
    ensures EscritosHasta(d[bloques[b] := Trozo(datos, bs, b * bs)], bloques, datos, bs, b + 1)
  {
    var e := d[bloques[b] := Trozo(datos, bs, b * bs)];
    forall j | 0 <= j <= b
      ensures Escrito(e, bloques, datos, bs, j)
    {
      if j < b {
        assert Escrito(d, bloques, datos, bs, j);
      }
    }
  }

  /** What was written to other blocks stays readable. */
  lemma EscritosFrame(d: seq<seq<Byte>>, e: seq<seq<Byte>>, tocados: seq<U32>, bloques: seq<U32>, datos: seq<Byte>, bs: nat)
    requires SoloBloques(d, e, tocados) && Escritos(d, bloques, datos, bs)
    requires forall j :: 0 <= j < |bloques| ==> bloques[j] < |d| && bloques[j] !in tocados
    ensures Escritos(e, bloques, datos, bs)
  {
    forall j | 0 <= j < |bloques|
      ensures Escrito(e, bloques, datos, bs, j)
    {
      assert Escrito(d, bloques, datos, bs, j);
    }
  }

  lemma MismosUsadosPaso(bm: seq<bool>, d: seq<seq<Byte>>, e: seq<seq<Byte>>, f: seq<seq<Byte>>, bloques: seq<U32>)
    requires MismosUsados(bm, d, e) && SoloBloques(e, f, bloques)
    requires forall b :: b in bloques ==> b < |bm| && !bm[b]
    ensures MismosUsados(bm, d, f)
  {
  }

  /** Blocks are reserved for every segment of process `k` of a valid state. */
  ghost predicate Copiable(s: Km, k: nat, nuevas: seq<SwapMeta>, b1: seq<bool>) {
    && Inv(s) && k < |s.contextos| && s.blockSize > 0
    && |nuevas| == |s.contextos[k].segmentos|
    && (forall i :: 0 <= i < |nuevas| ==>
          EsMeta(s.blockSize, |s.bitmap|, s.contextos[k].pid, s.contextos[k].segmentos[i], nuevas[i]))
    && Reservado(s.bitmap, b1, nuevas)
  }

  predicate CopiadosHasta(s: Km, k: nat, nuevas: seq<SwapMeta>, d: seq<seq<Byte>>, n: nat)
    requires k < |s.contextos| && |nuevas| == |s.contextos[k].segmentos|
  {
    forall i :: 0 <= i < n && i < |nuevas| ==> Copiado(s, d, s.contextos[k].pid, s.contextos[k].segmentos[i], nuevas[i])
  }

  lemma CopiablePaso(s: Km, k: nat, nuevas: seq<SwapMeta>, b1: seq<bool>, i: nat)
    requires Copiable(s, k, nuevas, b1) && i < |nuevas|
    ensures var g := s.contextos[k].segmentos[i];
            && 0 < g.limite && g.base + g.limite <= |s.mem|
            && |nuevas[i].bloques| == Bloques(g.limite, s.blockSize) && Distintos(nuevas[i].bloques)
    ensures forall j :: 0 <= j < |nuevas[i].bloques| ==> nuevas[i].bloques[j] < |s.bitmap|
    ensures forall b :: b in nuevas[i].bloques ==> b < |s.bitmap| && !s.bitmap[b]
  {
    assert EsMeta(s.blockSize, |s.bitmap|, s.contextos[k].pid, s.contextos[k].segmentos[i], nuevas[i]);
    assert SegmentoOk(s.sticks, s.contextos[k].segmentos[i]);
    SegmentoEnMemoria(s, k, i);
    ReservadoDistintos(s.bitmap, b1, nuevas, i);
  }

  lemma CopiadosPaso(s: Km, k: nat, nuevas: seq<SwapMeta>, b1: seq<bool>, d: seq<seq<Byte>>, e: seq<seq<Byte>>, i: nat)
    requires Copiable(s, k, nuevas, b1) && i < |nuevas| && |d| == |s.bitmap|
    requires CopiadosHasta(s, k, nuevas, d, i) && SoloBloques(d, e, nuevas[i].bloques)
    requires var g := s.contextos[k].segmentos[i]; Escritos(e, nuevas[i].bloques, Bytes(s.mem, g.base, g.limite), s.blockSize)
    ensures CopiadosHasta(s, k, nuevas, e, i + 1)
  {
    var pid := s.contextos[k].pid;
    forall x | 0 <= x <= i
      ensures Copiado(s, e, pid, s.contextos[k].segmentos[x], nuevas[x])
    {
      var g := s.contextos[k].segmentos[x];
      assert EsMeta(s.blockSize, |s.bitmap|, pid, g, nuevas[x]);
      if x < i {
        assert Copiado(s, d, pid, g, nuevas[x]);
        forall j | 0 <= j < |nuevas[x].bloques|
          ensures nuevas[x].bloques[j] !in nuevas[i].bloques
        {
          ReservadoAjenos(s.bitmap, b1, nuevas, x, i, nuevas[x].bloques[j]);
        }
        EscritosFrame(d, e, nuevas[i].bloques, nuevas[x].bloques, Bytes(s.mem, g.base, g.limite), s.blockSize);
      }
    }
  }

  lemma {:induction false} LibresAcotado(bm: seq<bool>)
    ensures Libres(bm) <= |bm|
  {
    if bm != [] {
      LibresAcotado(bm[1..]);
    }
  }
}
