/** When Kernel Memory grants each request, in terms of what it holds: segments, holes, entries in swap. */
module KmRespuestas {
  import opened Basics
  import opened Intervals
  import opened Sticks
  import opened Contexto
  import opened KmEstado
  import opened KmAsignacion
  import opened KmSwap
  import opened KmReanudar
  import opened KmOperaciones
  import opened Mmu

  predicate Conoce(s: Km, pid: U32) {
    exists c :: c in s.contextos && c.pid == pid
  }

  /** The table of the process is known and has a segment with that id. */
  predicate TieneId(s: Km, pid: U32, id: U32) {
    exists c :: c in s.contextos && c.pid == pid && exists g :: g in c.segmentos && g.id == id
  }

  predicate SinSegmentos(s: Km, pid: U32) {
    forall c :: c in s.contextos && c.pid == pid ==> c.segmentos == []
  }

  predicate TieneEntrada(s: Km, pid: U32) {
    exists m :: m in s.metas && m.pid == pid
  }

  lemma BuscarConoce(s: Km, pid: U32)
    requires PidsDistintos(s.contextos)
    ensures Buscar(s.contextos, pid).Some? <==> Conoce(s, pid)
    ensures Buscar(s.contextos, pid).Some? ==>
      var segs := s.contextos[Buscar(s.contextos, pid).value].segmentos;
      && (SinSegmentos(s, pid) <==> segs == [])
      && forall id: U32 :: TieneId(s, pid, id) <==> BuscarSegmento(segs, id).Some?
  {
    if Buscar(s.contextos, pid).Some? {
      var k := Buscar(s.contextos, pid).value;
      var c := s.contextos[k];
      assert c in s.contextos;
      forall d | d in s.contextos && d.pid == pid
        ensures d == c
      {
        var j :| 0 <= j < |s.contextos| && s.contextos[j] == d;
      }
      forall id: U32
        ensures TieneId(s, pid, id) <==> BuscarSegmento(c.segmentos, id).Some?
      {
        if BuscarSegmento(c.segmentos, id).Some? {
          assert c.segmentos[BuscarSegmento(c.segmentos, id).value] in c.segmentos;
        }
      }
    }
  }

  lemma {:induction false} EntradasDe(metas: seq<SwapMeta>, pid: U32)
    ensures MetasDe(metas, pid) == [] <==> forall m :: m in metas ==> m.pid != pid
  {
    if metas != [] {
      EntradasDe(metas[1..], pid);
      assert metas[0] in metas;
      assert forall m :: m in metas ==> m == metas[0] || m in metas[1..];
    }
  }

  /** A process is created exactly when its pid is new. */
  lemma CrearProcesoResponde(s: Km, t: Km, pid: U32, ok: bool)
    requires Inv(s) && CrearProcesoStep(s, t, pid, ok)
    ensures ok <==> !Conoce(s, pid)
    ensures ok ==> t.contextos == s.contextos + [Contexto(pid, REGISTROS_CERO, [])]
  {
    BuscarConoce(s, pid);
  }

  /** A segment can be asked for: of a known process, with a new id, not empty and not too large. */
  predicate Pedible(s: Km, segMax: int, p: Pedido) {
    Conoce(s, p.pid) && !TieneId(s, p.pid, p.id) && 0 < p.tamanio <= segMax
  }

  predicate CabeJunto(s: Km, n: int) {
    exists h :: h in s.huecos && h.size >= n
  }

  /** An allocation is granted at once if one hole has room, after a compaction if all together have, and never otherwise. */
  lemma PedirSegmentoResponde(s: Km, t: Km, segMax: int, peor: bool, p: Pedido, r: Option<bool>)
    requires Inv(s) && PedirSegmentoStep(s, t, segMax, peor, p, r)
    ensures r == Some(true) <==> Pedible(s, segMax, p) && CabeJunto(s, p.tamanio)
    ensures r == None <==> Pedible(s, segMax, p) && !CabeJunto(s, p.tamanio) && Sum(s.huecos) >= p.tamanio
    ensures r == None ==> t == s.(pendiente := Some(p))
    ensures r == Some(false) ==> t == s
  {
    hide Inv, PedirSegmentoStep;
    PidsDe(s);
    BuscarConoce(s, p.pid);
    UnHueco(s.huecos, p.tamanio);
    PedirEs(s, t, segMax, peor, p, r);
  }

  lemma PidsDe(s: Km)
    requires Inv(s)
    ensures PidsDistintos(s.contextos)
  {
  }

  lemma UnHueco(huecos: seq<Interval>, n: int)
    ensures HayHueco(huecos, n) <==> exists h :: h in huecos && h.size >= n
  {
    if h :| h in huecos && h.size >= n {
      var i :| 0 <= i < |huecos| && huecos[i] == h;
    }
    if HayHueco(huecos, n) {
      var i :| 0 <= i < |huecos| && huecos[i].size >= n;
      assert huecos[i] in huecos;
    }
  }

  lemma PedirEs(s: Km, t: Km, segMax: int, peor: bool, p: Pedido, r: Option<bool>)
    requires PedirSegmentoStep(s, t, segMax, peor, p, r)
    ensures var a, h := Admisible(s, segMax, p.pid, p.id, p.tamanio), HayHueco(s.huecos, p.tamanio);
            && (r == Some(true) <==> a && h)
            && (r == None <==> a && !h && Sum(s.huecos) >= p.tamanio)
            && (r == None ==> t == s.(pendiente := Some(p))) && (r == Some(false) ==> t == s)
  {
    hide Admisible, HayHueco;
    var u, res :| CrearStep(s, u, segMax, peor, p.pid, p.id, p.tamanio, res)
      && t == (if res == Resultado.Compactar then u.(pendiente := Some(p)) else u)
      && r == (if res == Resultado.Compactar then None else Some(res == Ok));
  }

  predicate EntraEnSwap(s: Km, pid: U32) {
    s.blockSize > 0 && exists c :: c in s.contextos && c.pid == pid && Necesarios(c.segmentos, s.blockSize) <= Libres(s.bitmap)
  }

  /** A process is suspended when it is known, swap is active and its segments fit in the free blocks, which one without segments always does. */
  lemma SuspenderResponde(s: Km, t: Km, pid: U32, averia: bool, ok: bool)
    requires Inv(s) && SuspenderStep(s, t, pid, averia, ok)
    ensures ok <==> Conoce(s, pid) && s.swapActivo && (SinSegmentos(s, pid) || (EntraEnSwap(s, pid) && !averia))
    ensures Conoce(s, pid) && SinSegmentos(s, pid) ==> t == s
  {
    BuscarConoce(s, pid);
    if Buscar(s.contextos, pid).Some? {
      var k := Buscar(s.contextos, pid).value;
      assert s.contextos[k] in s.contextos;
      forall c | c in s.contextos && c.pid == pid
        ensures c == s.contextos[k]
      {
        var j :| 0 <= j < |s.contextos| && s.contextos[j] == c;
      }
    }
  }

  /** It can be brought back: it is known, nothing of it is in memory, and swap is active. */
  predicate Volvible(s: Km, pid: U32) {
    Conoce(s, pid) && SinSegmentos(s, pid) && s.swapActivo
  }

  /** There is room for every entry of the process, by the configured strategy. */
  ghost predicate SeColoca(s: Km, peor: bool, pid: U32) {
    Colocar(peor, s.huecos, Tamanios(MetasDe(s.metas, pid)), []).Some?
  }

  /**
   * A process is brought back exactly when that holds and either it has nothing in swap, and
   * then nothing changes, or all of it can be placed and the device does not fail.
   */
  lemma DesuspenderResponde(s: Km, t: Km, peor: bool, pid: U32, averia: bool, r: Reanudacion)
    requires Inv(s) && DesuspenderStep(s, t, peor, pid, averia, r)
    ensures r == Restaurado <==> Volvible(s, pid) && (!TieneEntrada(s, pid) || (SeColoca(s, peor, pid) && !averia))
    ensures r == NoCabe <==> Volvible(s, pid) && TieneEntrada(s, pid) && !SeColoca(s, peor, pid)
    ensures Volvible(s, pid) && !TieneEntrada(s, pid) ==> r == Restaurado && t == s
    ensures !Volvible(s, pid) ==> r == Fallo && t == s
  {
    hide Colocar, Reanudado, Deshecho;
    BuscarConoce(s, pid);
    EntradasDe(s.metas, pid);
  }

  /** The segment a logical address names has room for the access. */
  predicate Alcanza(s: Km, segMax: int, pid: U32, dir: U32, n: int) {
    && Conoce(s, pid) && segMax > 0 && 0 < n
    && exists k, i ::
      && 0 <= k < |s.contextos| && s.contextos[k].pid == pid && 0 <= i < |s.contextos[k].segmentos|
      && s.contextos[k].segmentos[i].id == dir / segMax && dir % segMax + n <= s.contextos[k].segmentos[i].limite
      && forall j :: 0 <= j < i ==> s.contextos[k].segmentos[j].id != dir / segMax
  }

  lemma TraduceSiAlcanza(s: Km, segMax: int, pid: U32, dir: U32, n: U32)
    requires Inv(s) && segMax <= U32_MAX
    ensures TraducirPid(s, segMax, pid, dir, n) != U32_MAX <==> Alcanza(s, segMax, pid, dir, n)
    ensures Buscar(s.contextos, pid).Some? && segMax > 0 ==>
      (Alcanza(s, segMax, pid, dir, n) <==> Traducir(s.contextos[Buscar(s.contextos, pid).value].segmentos, segMax, dir, n).MmuOk?)
  {
    hide Tiled, SwapOk, Coalesced, NonEmpty, SegmentosOk;
    BuscarConoce(s, pid);
    if Buscar(s.contextos, pid).Some? && segMax > 0 {
      var k := Buscar(s.contextos, pid).value;
      AcuerdoValido(s, k, segMax, dir, n);
      Cociente(dir, segMax);
      EnTabla(s, k, segMax, dir, n);
    }
  }

  lemma EnTabla(s: Km, k: nat, segMax: U32, dir: U32, n: U32)
    requires Inv(s) && segMax > 0 && k < |s.contextos| && dir / segMax <= U32_MAX
    ensures Alcanza(s, segMax, s.contextos[k].pid, dir, n) <==> Traducir(s.contextos[k].segmentos, segMax, dir, n).MmuOk?
  {
    hide Tiled, SwapOk, Coalesced, NonEmpty, SegmentosOk, Alcanza, Traducir;
    var segs := s.contextos[k].segmentos;
    Cociente(dir, segMax);
    SegmentosEnRango(s, k);
    AlcanzaEn(s, k, segMax, dir, n);
    TraduceEn(s.mem, segs, segMax, dir, n);
  }

  predicate Dentro(segs: seq<Segmento>, num: U32, hasta: int) {
    var b := BuscarSegmento(segs, num);
    b.Some? && hasta <= segs[b.value].limite
  }

  lemma AlcanzaEn(s: Km, k: nat, segMax: U32, dir: U32, n: U32)
    requires PidsDistintos(s.contextos) && segMax > 0 && k < |s.contextos| && dir / segMax <= U32_MAX
    ensures Alcanza(s, segMax, s.contextos[k].pid, dir, n) <==> n > 0 && Dentro(s.contextos[k].segmentos, dir / segMax, dir % segMax + n)
  {
    assert s.contextos[k] in s.contextos;
    if Alcanza(s, segMax, s.contextos[k].pid, dir, n) {
      var l, i :| 0 <= l < |s.contextos| && s.contextos[l].pid == s.contextos[k].pid && 0 <= i < |s.contextos[l].segmentos|
        && s.contextos[l].segmentos[i].id == dir / segMax && dir % segMax + n <= s.contextos[l].segmentos[i].limite
        && forall j :: 0 <= j < i ==> s.contextos[l].segmentos[j].id != dir / segMax;
      assert l == k && BuscarSegmento(s.contextos[k].segmentos, dir / segMax) == Some(i);
    }
  }

  lemma TraduceEn(mem: seq<Byte>, segs: seq<Segmento>, segMax: U32, dir: U32, n: U32)
    requires EnRango(mem, segs) && |mem| <= U32_MAX && segMax > 0 && dir / segMax <= U32_MAX && 0 <= dir % segMax <= U32_MAX
    ensures Traducir(segs, segMax, dir, n).MmuOk? <==> n > 0 && Dentro(segs, dir / segMax, dir % segMax + n)
  {
  }

  /** A read is served exactly for the accesses the CPU's MMU would translate. */
  lemma LeerDatosResponde(s: Km, segMax: int, pid: U32, dir: U32, n: U32, r: Option<seq<Byte>>)
    requires Inv(s) && segMax <= U32_MAX && LeerDatosStep(s, segMax, pid, dir, n, r)
    ensures r.Some? <==> Alcanza(s, segMax, pid, dir, n)
  {
    TraduceSiAlcanza(s, segMax, pid, dir, n);
  }

  /** So is a write. */
  lemma EscribirDatosResponde(s: Km, t: Km, segMax: int, pid: U32, dir: U32, datos: seq<Byte>, ok: bool)
    requires Inv(s) && segMax <= U32_MAX && |datos| <= U32_MAX && EscribirDatosStep(s, t, segMax, pid, dir, datos, ok)
    ensures ok <==> Alcanza(s, segMax, pid, dir, |datos|)
    ensures !ok ==> t == s
  {
    TraduceSiAlcanza(s, segMax, pid, dir, |datos|);
  }

  /** A stick joins unless it is empty or the addresses would not fit in 32 bits. */
  lemma RegistrarStickResponde(s: Km, t: Km, contenido: seq<Byte>, ok: bool)
    requires Inv(s) && RegistrarStickStep(s, t, contenido, ok)
    ensures ok <==> contenido != [] && |s.mem| + |contenido| <= U32_MAX
    ensures if ok then t.mem == s.mem + contenido else t == s
  {
    CountBound(s.sticks);
  }

  /** A swap device is accepted if its sizes are whole, none is connected, and nothing is in swap; then all of it is free. */
  lemma IdentificarSwapResponde(s: Km, t: Km, total: U32, bs: U32, cerrado: bool, ok: bool)
    requires IdentificarSwapStep(s, t, total, bs, cerrado, ok)
    ensures ok <==> 0 < bs <= total && total % bs == 0 && bs <= U32_MAX - 4 && (!s.swapActivo || cerrado) && s.metas == []
    ensures ok ==> t.swapActivo && t.blockSize == bs && |t.bitmap| == total / bs && forall b :: 0 <= b < |t.bitmap| ==> !t.bitmap[b]
    ensures t.contextos == s.contextos && t.huecos == s.huecos && t.mem == s.mem && t.metas == s.metas
  {
  }
}
