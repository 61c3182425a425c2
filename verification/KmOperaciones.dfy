/** The remaining requests Kernel Memory serves, and the compaction that answers a deferred one. */
module KmOperaciones {
  import opened Basics
  import opened Intervals
  import opened Sticks
  import opened Contexto
  import opened KmEstado
  import opened KmAsignacion
  import opened KmCompactacion
  import opened KmReanudar

  // ---------------------------------------------------------------- processes and their registers

  ghost predicate CrearProcesoStep(s: Km, t: Km, pid: U32, ok: bool) {
    if Buscar(s.contextos, pid).Some? then !ok && t == s
    else ok && t == s.(contextos := s.contextos + [Contexto(pid, REGISTROS_CERO, [])])
  }

  lemma BuscarAppend(ctxs: seq<Contexto>, c: Contexto)
    requires PidsDistintos(ctxs) && Buscar(ctxs, c.pid).None?
    ensures PidsDistintos(ctxs + [c])
    ensures forall q :: Buscar(ctxs + [c], q) == if q == c.pid then Some(|ctxs|) else Buscar(ctxs, q)
  {
    var all := ctxs + [c];
    forall q
      ensures Buscar(all, q) == if q == c.pid then Some(|ctxs|) else Buscar(ctxs, q)
    {
      assert all[|ctxs|] == c;
      var k := Buscar(ctxs, q);
      if k.Some? {
        assert all[k.value] == ctxs[k.value];
      }
    }
  }

  lemma CrearProcesoInv(s: Km, t: Km, pid: U32)
    requires Inv(s) && CrearProcesoStep(s, t, pid, true)
    ensures Inv(t) && EnSwap(t.disco, t.metas, pid) == []
  {
    var c := Contexto(pid, REGISTROS_CERO, []);
    BuscarAppend(s.contextos, c);
    forall a
      ensures Cover(Todos(t.contextos), a) + Cover(t.huecos, a) == Bit(0 <= a < |t.mem|)
    {
      CoverTodosAppend(s.contextos, c, a);
      assert Cover(Todos(s.contextos), a) + Cover(s.huecos, a) == Bit(0 <= a < |s.mem|);
    }
    forall i | 0 <= i < |t.metas|
      ensures MetaOk(t, t.metas[i]) && t.metas[i].pid != pid
    {
      assert MetaOk(s, s.metas[i]);
    }
    KmSwap.EnSwapAjeno(t.disco, t.metas, pid);
  }

  lemma ContenidoVacio(s: Km, k: nat)
    requires k < |s.contextos| && s.contextos[k].segmentos == [] && EnSwap(s.disco, s.metas, s.contextos[k].pid) == []
    ensures Contenido(s, k) == multiset{}
  {
    assert Residentes(s.mem, s.contextos[k].segmentos) == [];
  }

  /** A new process starts with nothing, and no other process notices. */
  lemma CrearProcesoPreserva(s: Km, t: Km, pid: U32, ok: bool)
    requires Inv(s) && CrearProcesoStep(s, t, pid, ok)
    ensures Inv(t)
    ensures forall q :: Vista(t, q) == if ok && q == pid then Some(multiset{}) else Vista(s, q)
  {
    if ok {
      CrearProcesoInv(s, t, pid);
      BuscarAppend(s.contextos, Contexto(pid, REGISTROS_CERO, []));
      ContenidoVacio(t, |s.contextos|);
      forall q
        ensures Vista(t, q) == if q == pid then Some(multiset{}) else Vista(s, q)
      {
        var k := Buscar(s.contextos, q);
        assert q != pid && k.Some? ==> t.contextos[k.value] == s.contextos[k.value];
      }
    }
  }

  ghost predicate GuardarContextoStep(s: Km, t: Km, pid: U32, r: Registros) {
    match Buscar(s.contextos, pid)
    case None => t == s
    case Some(k) => t == s.(contextos := s.contextos[k := s.contextos[k].(registros := r)])
  }

  /** Saving a context stores the registers and cannot touch a segment table. */
  lemma GuardarContextoPreserva(s: Km, t: Km, pid: U32, r: Registros)
    requires Inv(s) && GuardarContextoStep(s, t, pid, r)
    ensures Inv(t) && forall q :: Vista(t, q) == Vista(s, q)
  {
    if Buscar(s.contextos, pid).Some? {
      var k := Buscar(s.contextos, pid).value;
      var c := s.contextos[k].(registros := r);
      TiledUpdate(s, k, c, s.huecos);
      forall i | 0 <= i < |c.segmentos|
        ensures SegmentoOk(s.sticks, c.segmentos[i])
      {
        assert SegmentoOk(s.sticks, s.contextos[k].segmentos[i]);
      }
      SegmentosOkUpdate(s.sticks, s.contextos, k, c);
      SwapFrame(s, t);
      VistaIgual(s, t);
    }
  }

  // ---------------------------------------------------------------- reading and writing for the Kernel Scheduler

  /** traducir_direccion: UINT32_MAX stands for a fault. */
  function TraducirDireccion(segs: seq<Segmento>, segMax: int, dir: U32, n: U32): U32 {
    if segMax <= 0 || n == 0 || dir / segMax > U32_MAX then U32_MAX
    else TraducirEn(segs, dir / segMax, dir % segMax, n)
  }

  /** The part that knows the segment number and the offset. */
  function TraducirEn(segs: seq<Segmento>, num: U32, desp: nat, n: U32): U32 {
    match BuscarSegmento(segs, num)
    case None => U32_MAX
    case Some(i) =>
      if desp > segs[i].limite || n > segs[i].limite - desp then U32_MAX
      else if segs[i].base > U32_MAX - desp then U32_MAX
      else segs[i].base + desp
  }

  ghost function TraducirPid(s: Km, segMax: int, pid: U32, dir: U32, n: U32): U32 {
    match Buscar(s.contextos, pid)
    case None => U32_MAX
    case Some(k) => TraducirDireccion(s.contextos[k].segmentos, segMax, dir, n)
  }

  ghost predicate LeerDatosStep(s: Km, segMax: int, pid: U32, dir: U32, n: U32, r: Option<seq<Byte>>) {
    var f := TraducirPid(s, segMax, pid, dir, n);
    if f == U32_MAX then r == None
    else f + n <= |s.mem| && r == Some(s.mem[f..f + n])
  }

  ghost predicate EscribirDatosStep(s: Km, t: Km, segMax: int, pid: U32, dir: U32, datos: seq<Byte>, ok: bool) {
    if |datos| > U32_MAX then !ok && t == s
    else
      var f := TraducirPid(s, segMax, pid, dir, |datos|);
      if f == U32_MAX then !ok && t == s
      else ok && f + |datos| <= |s.mem| && t == s.(mem := Splice(s.mem, f, datos))
  }

  lemma TraduceEnDentro(s: Km, k: nat, num: U32, desp: nat, n: U32) returns (i: nat)
    requires Inv(s) && k < |s.contextos| && TraducirEn(s.contextos[k].segmentos, num, desp, n) != U32_MAX
    ensures i < |s.contextos[k].segmentos|
    ensures var g := s.contextos[k].segmentos[i];
            && g.id == num && TraducirEn(s.contextos[k].segmentos, num, desp, n) == g.base + desp
            && desp + n <= g.limite && g.base + g.limite <= |s.mem|
  {
    i := BuscarSegmento(s.contextos[k].segmentos, num).value;
    SegmentoEnMemoria(s, k, i);
  }

  /** A successful translation lands inside the segment the address names. */
  lemma TraduceDentro(s: Km, k: nat, segMax: int, dir: U32, n: U32) returns (i: nat)
    requires Inv(s) && k < |s.contextos| && TraducirDireccion(s.contextos[k].segmentos, segMax, dir, n) != U32_MAX
    ensures i < |s.contextos[k].segmentos|
    ensures var g := s.contextos[k].segmentos[i];
            var f := TraducirDireccion(s.contextos[k].segmentos, segMax, dir, n);
            && segMax > 0 && n > 0 && g.id == dir / segMax
            && f == g.base + dir % segMax && dir % segMax + n <= g.limite && g.base + g.limite <= |s.mem|
  {
    i := TraduceEnDentro(s, k, dir / segMax, dir % segMax, n);
  }

  lemma PiezaResidente(s: Km, k: nat, i: nat)
    requires k < |s.contextos| && i < |s.contextos[k].segmentos|
    ensures var g := s.contextos[k].segmentos[i]; Pieza(g.id, Bytes(s.mem, g.base, g.limite)) in Contenido(s, k)
  {
    var r := Residentes(s.mem, s.contextos[k].segmentos);
    assert r[i] in multiset(r);
  }

  lemma LeerPieza(s: Km, k: nat, i: nat, desp: nat, n: nat) returns (p: Pieza)
    requires k < |s.contextos| && i < |s.contextos[k].segmentos|
    requires var g := s.contextos[k].segmentos[i]; desp + n <= g.limite && g.base + g.limite <= |s.mem|
    ensures var g := s.contextos[k].segmentos[i];
            && p in Contenido(s, k) && p.id == g.id && desp + n <= |p.bytes|
            && s.mem[g.base + desp..g.base + desp + n] == p.bytes[desp..desp + n]
  {
    var g := s.contextos[k].segmentos[i];
    p := Pieza(g.id, Bytes(s.mem, g.base, g.limite));
    PiezaResidente(s, k, i);
    CorteDeCorte(s.mem, g.base, g.limite, desp, n);
  }

  predicate EnRango(mem: seq<Byte>, segs: seq<Segmento>) {
    forall i :: 0 <= i < |segs| ==> segs[i].base + segs[i].limite <= |mem|
  }

  lemma SegmentosEnRango(s: Km, k: nat)
    requires Inv(s) && k < |s.contextos|
    ensures EnRango(s.mem, s.contextos[k].segmentos)
  {
    forall i | 0 <= i < |s.contextos[k].segmentos|
      ensures s.contextos[k].segmentos[i].base + s.contextos[k].segmentos[i].limite <= |s.mem|
    {
      SegmentoEnMemoria(s, k, i);
    }
  }

  lemma LeerTraducido(s: Km, k: nat, num: U32, desp: nat, n: U32) returns (p: Pieza)
    requires k < |s.contextos| && EnRango(s.mem, s.contextos[k].segmentos)
    requires TraducirEn(s.contextos[k].segmentos, num, desp, n) != U32_MAX
    ensures var f := TraducirEn(s.contextos[k].segmentos, num, desp, n);
            && p in Contenido(s, k) && p.id == num && desp + n <= |p.bytes| && f + n <= |s.mem|
            && s.mem[f..f + n] == p.bytes[desp..desp + n]
  {
    hide Contenido;
    var i := BuscarSegmento(s.contextos[k].segmentos, num).value;
    var g := s.contextos[k].segmentos[i];
    assert g.base + g.limite <= |s.mem|;
    p := LeerPieza(s, k, i, desp, n);
  }

  /** Reading returns the bytes of the piece the address names. */
  lemma LeerDatosLee(s: Km, segMax: int, pid: U32, dir: U32, n: U32, r: Option<seq<Byte>>, num: int, desp: int) returns (p: Pieza)
    requires Inv(s) && LeerDatosStep(s, segMax, pid, dir, n, r) && r.Some?
    requires segMax > 0 ==> num == dir / segMax && desp == dir % segMax
    ensures segMax > 0 && Vista(s, pid).Some? && p in Vista(s, pid).value && p.id == num
    ensures 0 <= desp && desp + n <= |p.bytes| && r.value == p.bytes[desp..desp + n]
  {
    SegmentosEnRango(s, Buscar(s.contextos, pid).value);
    p := LeerTraducido(s, Buscar(s.contextos, pid).value, num, desp, n);
  }

  lemma CorteDeCorte(mem: seq<Byte>, base: nat, lim: nat, desp: nat, n: nat)
    requires base + lim <= |mem| && desp + n <= lim
    ensures Bytes(mem, base, lim)[desp..desp + n] == mem[base + desp..base + desp + n]
  {
  }

  lemma SpliceDentro(mem: seq<Byte>, base: nat, lim: nat, desp: nat, datos: seq<Byte>)
    requires base + lim <= |mem| && desp + |datos| <= lim
    ensures Bytes(Splice(mem, base + desp, datos), base, lim) == Splice(Bytes(mem, base, lim), desp, datos)
  {
  }

  /** Writing changes one piece of one process, inside its limits, and nothing else anywhere. */
  lemma EscribirDatosPreserva(s: Km, t: Km, segMax: int, pid: U32, dir: U32, datos: seq<Byte>, ok: bool)
    requires Inv(s) && EscribirDatosStep(s, t, segMax, pid, dir, datos, ok)
    ensures Inv(t)
    ensures forall q :: q != pid || !ok ==> Vista(t, q) == Vista(s, q)
    ensures ok ==> segMax > 0 && Escribe(Vista(s, pid), Vista(t, pid), dir / segMax, dir % segMax, datos)
  {
    if ok {
      var k := Buscar(s.contextos, pid).value;
      var i := TraduceDentro(s, k, segMax, dir, |datos|);
      TiledMem(s, t);
      SwapFrame(s, t);
      EscribirVista(s, t, k, i, dir % segMax, datos);
    }
  }

  lemma EscribirVista(s: Km, t: Km, k: nat, i: nat, desp: nat, datos: seq<Byte>)
    requires Inv(s) && EscritoEn(s, t, k, i, desp, datos)
    ensures forall q :: q == s.contextos[k].pid || Vista(t, q) == Vista(s, q)
    ensures Escribe(Vista(s, s.contextos[k].pid), Vista(t, s.contextos[k].pid), s.contextos[k].segmentos[i].id, desp, datos)
  {
    hide Contenido, Tiled, SwapOk, SegmentosOk;
    forall j | 0 <= j < |s.contextos| && j != k
      ensures Contenido(t, j) == Contenido(s, j)
    {
      EscribirAjeno(s, t, k, i, desp, datos, j);
    }
    VistaLocal(s, t, k);
    EscribirPropio(s, t, k, i, desp, datos);
  }

  predicate EscritoEn(s: Km, t: Km, k: nat, i: nat, desp: nat, datos: seq<Byte>) {
    && k < |s.contextos| && i < |s.contextos[k].segmentos|
    && var g := s.contextos[k].segmentos[i];
    && desp + |datos| <= g.limite && g.base + g.limite <= |s.mem|
    && t == s.(mem := Splice(s.mem, g.base + desp, datos))
  }

  lemma EscribirOtro(s: Km, t: Km, k: nat, i: nat, desp: nat, datos: seq<Byte>, l: nat, j: nat)
    requires Inv(s) && EscritoEn(s, t, k, i, desp, datos)
    requires l < |s.contextos| && j < |s.contextos[l].segmentos| && (l != k || j != i)
    ensures var h := s.contextos[l].segmentos[j]; Bytes(t.mem, h.base, h.limite) == Bytes(s.mem, h.base, h.limite)
  {
    var h := s.contextos[l].segmentos[j];
    SegmentosDisjuntos(s, k, i, l, j);
    BytesIguales(s.mem, t.mem, h.base, h.limite);
  }

  lemma EscribirAjeno(s: Km, t: Km, k: nat, i: nat, desp: nat, datos: seq<Byte>, l: nat)
    requires Inv(s) && EscritoEn(s, t, k, i, desp, datos) && l < |s.contextos| && l != k
    ensures Contenido(t, l) == Contenido(s, l)
  {
    forall j | 0 <= j < |s.contextos[l].segmentos|
      ensures var h := s.contextos[l].segmentos[j]; Bytes(t.mem, h.base, h.limite) == Bytes(s.mem, h.base, h.limite)
    {
      EscribirOtro(s, t, k, i, desp, datos, l, j);
    }
    assert Residentes(t.mem, s.contextos[l].segmentos) == Residentes(s.mem, s.contextos[l].segmentos);
  }

  lemma EscribirPropio(s: Km, t: Km, k: nat, i: nat, desp: nat, datos: seq<Byte>)
    requires Inv(s) && EscritoEn(s, t, k, i, desp, datos)
    ensures var g := s.contextos[k].segmentos[i];
            var p := Pieza(g.id, Bytes(s.mem, g.base, g.limite));
            && p in Contenido(s, k)
            && Contenido(t, k) == Contenido(s, k) - multiset{p} + multiset{Pieza(g.id, Splice(p.bytes, desp, datos))}
  {
    var segs := s.contextos[k].segmentos;
    var g := segs[i];
    var antes := Residentes(s.mem, segs);
    var p := antes[i];
    SpliceDentro(s.mem, g.base, g.limite, desp, datos);
    var p2 := Pieza(g.id, Splice(p.bytes, desp, datos));
    forall j | 0 <= j < |segs|
      ensures Residentes(t.mem, segs)[j] == antes[i := p2][j]
    {
      if j != i {
        EscribirOtro(s, t, k, i, desp, datos, k, j);
      }
    }
    assert Residentes(t.mem, segs) == antes[i := p2];
    assert antes == antes[..i] + [p] + antes[i + 1..];
    assert antes[i := p2] == antes[..i] + [p2] + antes[i + 1..];
  }

  // ---------------------------------------------------------------- growing memory and connecting swap

  ghost predicate RegistrarStickStep(s: Km, t: Km, contenido: seq<Byte>, ok: bool) {
    if |contenido| == 0 || |contenido| > U32_MAX || Total(s.sticks) > U32_MAX - |contenido| || !(0 <= Total(s.sticks)) || |s.sticks| > U32_MAX
    then !ok && t == s
    else
      var offset := Total(s.sticks);
      && ok
      && t == s.(sticks := s.sticks + [StickInfo(|s.sticks|, offset, |contenido|)], mem := s.mem + contenido, huecos := t.huecos)
      && NonEmpty(t.huecos) && Coalesced(t.huecos)
      && SameCover(t.huecos, s.huecos + [Interval(offset, |contenido|)])
  }

  lemma StickAtAppend(sticks: seq<StickInfo>, n: StickInfo, a: int)
    requires Contiguous(sticks) && Contiguous(sticks + [n]) && StickAt(sticks, a).Some?
    ensures StickAt(sticks + [n], a) == StickAt(sticks, a)
  {
    StickAtUnique(sticks + [n], a, StickAt(sticks, a).value);
  }

  /** A new stick adds free memory at the end and moves nothing. */
  lemma RegistrarStickPreserva(s: Km, t: Km, contenido: seq<Byte>, ok: bool)
    requires Inv(s) && RegistrarStickStep(s, t, contenido, ok)
    ensures Inv(t) && forall q :: Vista(t, q) == Vista(s, q)
  {
    if ok {
      var n := StickInfo(|s.sticks|, Total(s.sticks), |contenido|);
      ContiguousAppend(s.sticks, n);
      forall c, i | 0 <= c < |t.contextos| && 0 <= i < |t.contextos[c].segmentos|
        ensures SegmentoOk(t.sticks, t.contextos[c].segmentos[i])
      {
        assert SegmentoOk(s.sticks, s.contextos[c].segmentos[i]);
        StickAtAppend(s.sticks, n, s.contextos[c].segmentos[i].base);
      }
      RegistrarTiled(s, t, contenido);
      SwapFrame(s, t);
      forall j | 0 <= j < |s.contextos|
        ensures Contenido(t, j) == Contenido(s, j)
      {
        RegistrarResidentes(s, contenido, j);
      }
      VistaIgual(s, t);
    }
  }

  lemma RegistrarTiled(s: Km, t: Km, contenido: seq<Byte>)
    requires Inv(s) && RegistrarStickStep(s, t, contenido, true)
    ensures Tiled(t)
  {
    var nuevo := Interval(|s.mem|, |contenido|);
    forall a
      ensures Cover(Todos(t.contextos), a) + Cover(t.huecos, a) == Bit(0 <= a < |t.mem|)
    {
      CoverAppend(s.huecos, [nuevo], a);
      assert Cover(t.huecos, a) == Cover(s.huecos + [nuevo], a);
      assert Cover(Todos(s.contextos), a) + Cover(s.huecos, a) == Bit(0 <= a < |s.mem|);
    }
  }

  lemma RegistrarResidentes(s: Km, contenido: seq<Byte>, j: nat)
    requires Inv(s) && j < |s.contextos|
    ensures Residentes(s.mem + contenido, s.contextos[j].segmentos) == Residentes(s.mem, s.contextos[j].segmentos)
  {
    forall i | 0 <= i < |s.contextos[j].segmentos|
      ensures var g := s.contextos[j].segmentos[i];
              Bytes(s.mem + contenido, g.base, g.limite) == Bytes(s.mem, g.base, g.limite)
    {
      SegmentoEnMemoria(s, j, i);
    }
  }

  predicate TamaniosSwap(total: U32, bs: U32) {
    total != 0 && bs != 0 && total >= bs && total % bs == 0 && bs <= U32_MAX - 4
  }

  /** A swap device is accepted only while none is connected and nothing is stored; `cerrado` says the old one hung up. */
  ghost predicate IdentificarSwapStep(s: Km, t: Km, total: U32, bs: U32, cerrado: bool, ok: bool) {
    var activo := s.swapActivo && !cerrado;
    if !TamaniosSwap(total, bs) then !ok && t == s
    else if activo || s.metas != [] then !ok && t == s.(swapActivo := activo)
    else
      && ok && t == s.(bitmap := t.bitmap, blockSize := bs, disco := t.disco, swapActivo := true)
      && |t.bitmap| == |t.disco| == total / bs
      && (forall b :: 0 <= b < |t.bitmap| ==> !t.bitmap[b] && |t.disco[b]| == bs)
  }

  lemma CantBloques(total: U32, bs: U32)
    requires TamaniosSwap(total, bs)
    ensures 0 < total / bs <= U32_MAX
  {
  }

  lemma IdentificarSwapOk(s: Km, t: Km, total: U32, bs: U32, cerrado: bool)
    requires SwapOk(s) && IdentificarSwapStep(s, t, total, bs, cerrado, true)
    ensures SwapOk(t)
  {
    CantBloques(total, bs);
    forall b: U32 | b < |t.bitmap|
      ensures Usos(t.metas, b) == Bit(t.bitmap[b])
    {
    }
  }

  lemma ApagarSwapOk(s: Km, activo: bool)
    requires SwapOk(s) && (activo ==> s.swapActivo)
    ensures SwapOk(s.(swapActivo := activo))
  {
    var t := s.(swapActivo := activo);
    forall i | 0 <= i < |t.metas|
      ensures MetaOk(t, t.metas[i])
    {
      assert MetaOk(s, s.metas[i]);
    }
  }

  /** Connecting or losing a swap device changes nothing any process stores. */
  lemma IdentificarSwapPreserva(s: Km, t: Km, total: U32, bs: U32, cerrado: bool, ok: bool)
    requires Inv(s) && IdentificarSwapStep(s, t, total, bs, cerrado, ok)
    ensures Inv(t) && forall q :: Vista(t, q) == Vista(s, q)
  {
    if ok {
      IdentificarSwapOk(s, t, total, bs, cerrado);
    } else {
      ApagarSwapOk(s, t.swapActivo);
    }
    VistaIgual(s, t);
  }

  // ---------------------------------------------------------------- the deferred request

  /** CREAR_SEGMENTO: an answer now, or none (None) and the request kept until the compaction. */
  ghost predicate PedirSegmentoStep(s: Km, t: Km, segMax: int, peor: bool, p: Pedido, r: Option<bool>) {
    exists u, res :: CrearStep(s, u, segMax, peor, p.pid, p.id, p.tamanio, res)
      && t == (if res == Compactar then u.(pendiente := Some(p)) else u)
      && r == (if res == Compactar then None else Some(res == Ok))
  }

  /** FIN_COMPACTACION: compact, then retry the deferred request and answer it. */
  ghost predicate FinCompactacionStep(s: Km, t: Km, segMax: int, peor: bool, r: Option<bool>) {
    var u := Compactado(s).(pendiente := None);
    match s.pendiente
    case None => t == u && r == None
    case Some(p) => ReintentoStep(u, t, segMax, peor, p, r)
  }

  ghost predicate ReintentoStep(u: Km, t: Km, segMax: int, peor: bool, p: Pedido, r: Option<bool>) {
    exists res :: CrearStep(u, t, segMax, peor, p.pid, p.id, p.tamanio, res) && r == Some(res == Ok)
  }

  /** What keeps a deferred request serviceable: it was admissible and there was enough free memory in all. */
  predicate PendienteOk(s: Km, segMax: int) {
    s.pendiente.Some? ==>
      var p := s.pendiente.value;
      Admisible(s, segMax, p.pid, p.id, p.tamanio) && Sum(s.huecos) >= p.tamanio
  }

  lemma {:induction false} RefSumInsertar(r: Ref, refs: seq<Ref>)
    ensures RefSum(Insertar(r, refs)) == RefSum(refs) + r.span.size
  {
    if refs != [] && r.span.base > refs[0].span.base {
      RefSumInsertar(r, refs[1..]);
    }
  }

  lemma {:induction false} RefSumOrdenar(refs: seq<Ref>)
    ensures RefSum(Ordenar(refs)) == RefSum(refs)
  {
    if refs != [] {
      RefSumOrdenar(refs[1..]);
      RefSumInsertar(refs[0], Ordenar(refs[1..]));
    }
  }

  lemma {:induction false} RefSumAppend(xs: seq<Ref>, ys: seq<Ref>)
    ensures RefSum(xs + ys) == RefSum(xs) + RefSum(ys)
  {
    if xs == [] {
      assert xs + ys == ys;
    } else {
      assert (xs + ys)[1..] == xs[1..] + ys;
      RefSumAppend(xs[1..], ys);
    }
  }

  lemma {:induction false} RefSumSpans(refs: seq<Ref>, spans: seq<Interval>)
    requires |refs| == |spans| && forall i :: 0 <= i < |refs| ==> refs[i].span == spans[i]
    ensures RefSum(refs) == Sum(spans)
  {
    if refs != [] {
      RefSumSpans(refs[1..], spans[1..]);
    }
  }

  lemma {:induction false} RefSumTodos(ctxs: seq<Contexto>, c: nat)
    requires c <= |ctxs|
    ensures RefSum(Refs(ctxs, c)) == Sum(Todos(ctxs[c..]))
    decreases |ctxs| - c
  {
    if c < |ctxs| {
      RefSumTodos(ctxs, c + 1);
      var aqui := RefsDe(c, ctxs[c].segmentos);
      RefSumAppend(aqui, Refs(ctxs, c + 1));
      RefSumSpans(aqui, Spans(ctxs[c].segmentos));
      SumAppend(Spans(ctxs[c].segmentos), Todos(ctxs[c + 1..]));
      assert ctxs[c..][1..] == ctxs[c + 1..];
    }
  }

  lemma UsadoMasLibre(s: Km)
    requires Inv(s)
    ensures Usado(s) + Sum(s.huecos) == |s.mem|
  {
    BytesConservados(s);
    RefSumOrdenar(Refs(s.contextos, 0));
    RefSumTodos(s.contextos, 0);
    assert s.contextos[0..] == s.contextos;
  }

  lemma HuecosCompactado(s: Km)
    ensures Compactado(s).huecos == HuecoFinal(Usado(s), |s.mem|)
  {
  }

  /** After compacting, the only hole is as large as all the free memory there was. */
  lemma CompactadoHueco(s: Km)
    requires Inv(s)
    ensures |Compactado(s).huecos| == Bit(Sum(s.huecos) > 0)
    ensures Sum(s.huecos) > 0 ==> Compactado(s).huecos[0].size == Sum(s.huecos) && Compactado(s).huecos[0].base == Usado(s)
  {
    UsadoMasLibre(s);
    HuecosCompactado(s);
  }

  lemma CompactadoAdmisible(s: Km, segMax: int, pid: U32, id: U32, n: U32)
    requires Inv(s) && Admisible(s, segMax, pid, id, n)
    ensures Admisible(Compactado(s), segMax, pid, id, n)
  {
    CompactarPreserva(s);
    var t := Compactado(s);
    forall j | 0 <= j < |s.contextos|
      ensures t.contextos[j].pid == s.contextos[j].pid
    {
      assert MismosSegmentos(s, t, j);
    }
    PidsIguales(s.contextos, t.contextos);
    var k := Buscar(s.contextos, pid).value;
    assert MismosSegmentos(s, t, k);
    var segs, tegs := s.contextos[k].segmentos, t.contextos[k].segmentos;
    forall i | 0 <= i < |tegs|
      ensures tegs[i].id != id
    {
      assert Residentes(t.mem, tegs)[i] == Residentes(s.mem, segs)[i];
    }
  }

  /** Compaction always answers the deferred allocation: the retry succeeds. */
  lemma FinCompactacionResponde(s: Km, t: Km, segMax: int, peor: bool, r: Option<bool>)
    requires Inv(s) && PendienteOk(s, segMax) && FinCompactacionStep(s, t, segMax, peor, r)
    ensures r == if s.pendiente.Some? then Some(true) else None
    ensures t.pendiente == None
  {
    if s.pendiente.Some? {
      var p := s.pendiente.value;
      var c := Compactado(s);
      var u := c.(pendiente := None);
      CompactadoHueco(s);
      CompactadoAdmisible(s, segMax, p.pid, p.id, p.tamanio);
      assert Admisible(u, segMax, p.pid, p.id, p.tamanio);
      assert u.huecos[0].size >= p.tamanio;
      assert HayHueco(u.huecos, p.tamanio);
    }
  }

  lemma PendienteVista(s: Km, p: Option<Pedido>)
    requires Inv(s)
    ensures Inv(s.(pendiente := p)) && forall q :: Vista(s.(pendiente := p), q) == Vista(s, q)
  {
    SwapFrame(s, s.(pendiente := p));
    VistaIgual(s, s.(pendiente := p));
  }

  lemma Reintento(u: Km, t: Km, segMax: int, peor: bool, p: Pedido, r: Option<bool>)
    requires Inv(u) && segMax <= I32_MAX && ReintentoStep(u, t, segMax, peor, p, r)
    ensures Inv(t)
    ensures forall q :: (r == Some(true) && q == p.pid) || Vista(t, q) == Vista(u, q)
    ensures r == Some(true) ==> Agrega(Vista(u, p.pid), Vista(t, p.pid), p.id, p.tamanio)
  {
    var res :| CrearStep(u, t, segMax, peor, p.pid, p.id, p.tamanio, res) && r == Some(res == Ok);
    CrearPreserva(u, t, segMax, peor, p.pid, p.id, p.tamanio, res);
  }

  lemma CompactadoPendiente(s: Km)
    requires Inv(s)
    ensures var u := Compactado(s).(pendiente := None); Inv(u) && forall q :: Vista(u, q) == Vista(s, q)
  {
    CompactarPreserva(s);
    CompactarVista(s);
    PendienteVista(Compactado(s), None);
  }

  /** Compaction and the retry together add one piece of the requested size to the requester, and move no byte of anyone. */
  lemma FinCompactacionPreserva(s: Km, t: Km, segMax: int, peor: bool, r: Option<bool>)
    requires Inv(s) && segMax <= I32_MAX && FinCompactacionStep(s, t, segMax, peor, r)
    ensures Inv(t)
    ensures forall q :: (r == Some(true) && q == s.pendiente.value.pid) || Vista(t, q) == Vista(s, q)
    ensures r == Some(true) ==> var p := s.pendiente.value; Agrega(Vista(s, p.pid), Vista(t, p.pid), p.id, p.tamanio)
  {
    CompactadoPendiente(s);
    if s.pendiente.Some? {
      var p := s.pendiente.value;
      Reintento(Compactado(s).(pendiente := None), t, segMax, peor, p, r);
    }
  }
}
