/**
 * Context-switch transparency: however a process is cut into bursts, and whatever
 * Kernel Memory does to it and to others in between, it computes what it would
 * compute alone on its own logical memory.
 */
module CpuTransparencia {
  import opened Basics
  import opened Intervals
  import opened Sticks
  import opened Contexto
  import opened KmEstado
  import opened KmAsignacion
  import opened KmCompactacion
  import opened KmSwap
  import opened KmReanudar
  import opened KmOperaciones
  import opened KmCorridas
  import opened KmIdentidades
  import opened Mmu
  import opened CpuInstrucciones

  // ---------------------------------------------------------------- the two memories

  function AdmiteMmu(t: ResultadoMmu): ResultadoCpu {
    match t
    case MmuOk(_) => CpuOk
    case MmuError => CpuError
    case _ => CpuSegFault
  }

  function LeerDesde(segs: seq<Segmento>, mem: seq<Byte>, num: U32, desp: U32, n: U32): seq<Byte> {
    match TraducirDesde(segs, num, desp, n)
    case MmuOk(t) => Bytes(mem, t.fisica, n)
    case _ => []
  }

  function EscribirDesde(segs: seq<Segmento>, mem: seq<Byte>, num: U32, desp: U32, datos: seq<Byte>): (r: seq<Byte>)
    ensures |r| == |mem|
  {
    if |datos| > U32_MAX then mem
    else match TraducirDesde(segs, num, desp, |datos|)
      case MmuOk(t) => if t.fisica + |datos| <= |mem| then Splice(mem, t.fisica, datos) else mem
      case _ => mem
  }

  /** Segment number and offset of a logical address. */
  predicate Divisible(segMax: U32, dir: U32) {
    segMax > 0 && dir / segMax <= U32_MAX && dir % segMax <= U32_MAX
  }

  function LeerFisica(segs: seq<Segmento>, segMax: U32, mem: seq<Byte>, dir: U32, n: U32): seq<Byte> {
    if n == 0 || !Divisible(segMax, dir) then [] else LeerDesde(segs, mem, dir / segMax, dir % segMax, n)
  }

  function EscribirFisica(segs: seq<Segmento>, segMax: U32, mem: seq<Byte>, dir: U32, datos: seq<Byte>): (r: seq<Byte>)
    ensures |r| == |mem|
  {
    if |datos| == 0 || !Divisible(segMax, dir) then mem else EscribirDesde(segs, mem, dir / segMax, dir % segMax, datos)
  }

  /** Physical memory seen through a segment table and the MMU. */
  function Fisica(segs: seq<Segmento>, segMax: U32): Memoria<seq<Byte>> {
    Memoria(
      (mem, dir, n) => AdmiteMmu(Traducir(segs, segMax, dir, n)),
      (mem, dir, n) => LeerFisica(segs, segMax, mem, dir, n),
      (mem, dir, datos) => EscribirFisica(segs, segMax, mem, dir, datos))
  }

  lemma TraduceEnRango(segs: seq<Segmento>, segMax: U32, mem: seq<Byte>, dir: U32, n: U32)
    requires EnRango(mem, segs) && Traducir(segs, segMax, dir, n).MmuOk?
    ensures Traducir(segs, segMax, dir, n).traduccion.fisica + n <= |mem|
  {
    var i := BuscarSegmento(segs, dir / segMax).value;
    assert segs[i].base + segs[i].limite <= |mem|;
  }

  /** COPY_MEM is memmove: the destination ends with what the source held before, even when the ranges overlap, and nothing else changes. */
  lemma CopyMemEsMemmove(segs: seq<Segmento>, segMax: U32, mem: seq<Byte>, r: Registros, p: seq<string>, n: U32)
    requires EnRango(mem, segs) && |p| == 1 && LeerRegistro(r, p[0]) == Some(n) && n > 0
    requires Traducir(segs, segMax, r.si, n).MmuOk? && Traducir(segs, segMax, r.di, n).MmuOk?
    ensures var src, dst := Traducir(segs, segMax, r.si, n).traduccion.fisica, Traducir(segs, segMax, r.di, n).traduccion.fisica;
            && src + n <= |mem| && dst + n <= |mem|
            && CopyMem(Fisica(segs, segMax), mem, r, p) == Salida(CpuOk, Splice(mem, dst, mem[src..src + n]), AvanzarPc(r))
  {
    TraduceEnRango(segs, segMax, mem, r.si, n);
    TraduceEnRango(segs, segMax, mem, r.di, n);
  }

  /** MOV_IN reads as many bytes as the register has, from the address in SI, most significant first. */
  lemma MovInLee(segs: seq<Segmento>, segMax: U32, mem: seq<Byte>, r: Registros, nombre: string, n: U32) returns (v: U32)
    requires EnRango(mem, segs) && n == (if Ancho(nombre) == 256 then 1 else 4) && EsRegistro(nombre)
    ensures var s, t := MovIn(Fisica(segs, segMax), mem, r, [nombre]), Traducir(segs, segMax, r.si, n);
            && s.memoria == mem
            && (s.res == CpuOk <==> t.MmuOk?) && (s.res == CpuSegFault <==> t.SegmentoNoEncontrado? || t.SegmentationFault?)
            && (s.res != CpuOk ==> s.registros == r)
            && (t.MmuOk? ==>
                  && t.traduccion.fisica + n <= |mem|
                  && Queda(r, s.registros, nombre, v, (r.pc + 1) % 0x1_0000_0000)
                  && if n == 1 then v == mem[t.traduccion.fisica] else EnCuatro(mem[t.traduccion.fisica..t.traduccion.fisica + 4], v))
  {
    hide Queda, Traducir, MovIn, LeerFisica, EscribirFisica, EnCuatro;
    var t := Traducir(segs, segMax, r.si, n);
    if t.MmuOk? {
      TraduceEnRango(segs, segMax, mem, r.si, n);
      LeeTraducido(segs, segMax, mem, r.si, n);
    }
    v := MovInCarga(Fisica(segs, segMax), mem, r, nombre, n);
  }

  /** Over any memory: what is admitted is read and assigned, in the order of the bytes. */
  lemma MovInCarga<M>(f: Memoria<M>, m: M, r: Registros, nombre: string, n: U32) returns (v: U32)
    requires n == (if Ancho(nombre) == 256 then 1 else 4) && EsRegistro(nombre)
    requires f.admite(m, r.si, n) == CpuOk ==> |f.leer(m, r.si, n)| == n
    ensures var s, c, b := MovIn(f, m, r, [nombre]), f.admite(m, r.si, n), f.leer(m, r.si, n);
            if c != CpuOk then s == Salida(c, m, r)
            else s.res == CpuOk && s.memoria == m && Queda(r, s.registros, nombre, v, (r.pc + 1) % 0x1_0000_0000) && if n == 1 then v == b[0] else EnCuatro(b, v)
  {
    hide Queda, Asignar, BytesAValor, ValorABytes;
    v := 0;
    if f.admite(m, r.si, n) == CpuOk {
      var b := f.leer(m, r.si, n);
      v := BytesAValor(b, n);
      BytesEnOrden(v, b);
      AsignarQueda(r, nombre, v);
      assert v % Ancho(nombre) == v;
    }
  }

  lemma LeeTraducido(segs: seq<Segmento>, segMax: U32, mem: seq<Byte>, dir: U32, n: U32)
    requires Traducir(segs, segMax, dir, n).MmuOk? && Traducir(segs, segMax, dir, n).traduccion.fisica + n <= |mem|
    ensures var f := Traducir(segs, segMax, dir, n).traduccion.fisica; LeerFisica(segs, segMax, mem, dir, n) == mem[f..f + n]
  {
  }

  lemma EscribeTraducido(segs: seq<Segmento>, segMax: U32, mem: seq<Byte>, dir: U32, datos: seq<Byte>)
    requires |datos| <= U32_MAX && Traducir(segs, segMax, dir, |datos|).MmuOk? && Traducir(segs, segMax, dir, |datos|).traduccion.fisica + |datos| <= |mem|
    ensures EscribirFisica(segs, segMax, mem, dir, datos) == Splice(mem, Traducir(segs, segMax, dir, |datos|).traduccion.fisica, datos)
  {
  }

  /** MOV_OUT stores the register at the address in DI, most significant byte first, and nothing else. */
  lemma MovOutEscribe(segs: seq<Segmento>, segMax: U32, mem: seq<Byte>, r: Registros, nombre: string, n: U32)
    requires EnRango(mem, segs) && n == (if Ancho(nombre) == 256 then 1 else 4) && EsRegistro(nombre)
    ensures var s, t := MovOut(Fisica(segs, segMax), mem, r, [nombre]), Traducir(segs, segMax, r.di, n);
            && (s.res == CpuOk <==> t.MmuOk?) && (s.res == CpuSegFault <==> t.SegmentoNoEncontrado? || t.SegmentationFault?)
            && (s.res != CpuOk ==> s.memoria == mem && s.registros == r)
            && (t.MmuOk? ==>
                  var f := t.traduccion.fisica;
                  && s.registros == r.(pc := (r.pc + 1) % 0x1_0000_0000) && |s.memoria| == |mem| && f + n <= |mem|
                  && (forall a :: 0 <= a < |mem| && !(f <= a < f + n) ==> s.memoria[a] == mem[a])
                  && if n == 1 then s.memoria[f] == Vale(r, nombre) else EnCuatro(s.memoria[f..f + 4], Vale(r, nombre)))
  {
    hide Traducir, ValorABytes, EscribirFisica;
    LeerSiRegistro(r);
    var t, v := Traducir(segs, segMax, r.di, n), LeerRegistro(r, nombre).value;
    BytesEnOrden(v, ValorABytes(v, n));
    if t.MmuOk? {
      TraduceEnRango(segs, segMax, mem, r.di, n);
      RegistroEnRango(r, nombre);
      EscribeTraducido(segs, segMax, mem, r.di, ValorABytes(v, n));
      var f := t.traduccion.fisica;
      assert Splice(mem, f, ValorABytes(v, n))[f..f + n] == ValorABytes(v, n);
    }
  }

  /** COPY_MEM asks for the source first, then for the destination; if either is refused, or there is nothing to copy, nothing changes. */
  lemma CopyMemResponde(segs: seq<Segmento>, segMax: U32, mem: seq<Byte>, r: Registros, nombre: string)
    ensures var s, n := CopyMem(Fisica(segs, segMax), mem, r, [nombre]), LeerRegistro(r, nombre);
            if n.None? || n == Some(0) then s == Salida(CpuError, mem, r)
            else
              var t, u := Traducir(segs, segMax, r.si, n.value), Traducir(segs, segMax, r.di, n.value);
              && (s.res == CpuOk <==> t.MmuOk? && u.MmuOk?)
              && (s.res == CpuError <==> t.MmuError? || (t.MmuOk? && u.MmuError?))
              && (s.res != CpuOk ==> s.memoria == mem && s.registros == r)
  {
    hide Traducir, LeerFisica, EscribirFisica;
  }

  ghost function PiezaCon(v: multiset<Pieza>, id: int): (r: Option<Pieza>)
    ensures r.Some? ==> r.value in v && r.value.id == id
    ensures r.None? ==> forall p: Pieza :: p in v ==> p.id != id
  {
    if exists p: Pieza :: p in v && p.id == id then
      var p: Pieza :| p in v && p.id == id;
      Some(p)
    else None
  }

  ghost function AdmiteEn(v: multiset<Pieza>, num: U32, desp: U32, n: U32): ResultadoCpu {
    match PiezaCon(v, num)
    case None => CpuSegFault
    case Some(p) => if desp + n > |p.bytes| then CpuSegFault else CpuOk
  }

  ghost function LeerEn(v: multiset<Pieza>, num: U32, desp: U32, n: U32): seq<Byte> {
    if AdmiteEn(v, num, desp, n) != CpuOk then [] else PiezaCon(v, num).value.bytes[desp..desp + n]
  }

  ghost function EscribirEn(v: multiset<Pieza>, num: U32, desp: U32, datos: seq<Byte>): multiset<Pieza> {
    if |datos| > U32_MAX || AdmiteEn(v, num, desp, |datos|) != CpuOk then v
    else
      var p := PiezaCon(v, num).value;
      v - multiset{p} + multiset{p.(bytes := Splice(p.bytes, desp, datos))}
  }

  ghost function AdmiteLogica(segMax: U32, v: multiset<Pieza>, dir: U32, n: U32): ResultadoCpu {
    if n == 0 || !Divisible(segMax, dir) then CpuError else AdmiteEn(v, dir / segMax, dir % segMax, n)
  }

  ghost function LeerLogica(segMax: U32, v: multiset<Pieza>, dir: U32, n: U32): seq<Byte> {
    if n == 0 || !Divisible(segMax, dir) then [] else LeerEn(v, dir / segMax, dir % segMax, n)
  }

  ghost function EscribirLogica(segMax: U32, v: multiset<Pieza>, dir: U32, datos: seq<Byte>): multiset<Pieza> {
    if |datos| == 0 || !Divisible(segMax, dir) then v else EscribirEn(v, dir / segMax, dir % segMax, datos)
  }

  /** The process' own memory: pieces with ids, no addresses, no sticks, no other process. */
  ghost function Logica(segMax: U32): Memoria<multiset<Pieza>> {
    Memoria(
      (v, dir, n) => AdmiteLogica(segMax, v, dir, n),
      (v, dir, n) => LeerLogica(segMax, v, dir, n),
      (v, dir, datos) => EscribirLogica(segMax, v, dir, datos))
  }

  /** Process `k` of state `s` is in memory, and `v` is what it stores. */
  ghost predicate Refleja(s: Km, k: nat, v: multiset<Pieza>) {
    && Inv(s) && k < |s.contextos|
    && EnMemoria(s, s.contextos[k].pid)
    && v == Contenido(s, k) && IdsUnicos(v)
  }

  lemma ReflejaResidentes(s: Km, k: nat, v: multiset<Pieza>)
    requires Refleja(s, k, v)
    ensures v == multiset(Residentes(s.mem, s.contextos[k].segmentos))
  {
    EnSwapDe(s.disco, s.metas, s.contextos[k].pid);
    assert EnSwap(s.disco, s.metas, s.contextos[k].pid) == [];
  }

  lemma PiezaDeSegmento(s: Km, k: nat, v: multiset<Pieza>, i: nat)
    requires Refleja(s, k, v) && i < |s.contextos[k].segmentos|
    ensures var g := s.contextos[k].segmentos[i];
            && g.base + g.limite <= |s.mem| <= U32_MAX
            && PiezaCon(v, g.id) == Some(Pieza(g.id, Bytes(s.mem, g.base, g.limite)))
  {
    var g := s.contextos[k].segmentos[i];
    SegmentoEnMemoria(s, k, i);
    PiezaResidente(s, k, i);
  }

  lemma SinSegmento(s: Km, k: nat, v: multiset<Pieza>, id: U32)
    requires Refleja(s, k, v) && BuscarSegmento(s.contextos[k].segmentos, id).None?
    ensures PiezaCon(v, id) == None
  {
    ReflejaResidentes(s, k, v);
    var r := Residentes(s.mem, s.contextos[k].segmentos);
    forall p: Pieza | p in v
      ensures p.id != id
    {
      assert p in multiset(r);
      var i :| 0 <= i < |r| && r[i] == p;
    }
  }

  lemma AdmiteEnIgual(s: Km, k: nat, v: multiset<Pieza>, num: U32, desp: U32, n: U32)
    requires Refleja(s, k, v) && n > 0
    ensures AdmiteMmu(TraducirDesde(s.contextos[k].segmentos, num, desp, n)) == AdmiteEn(v, num, desp, n)
  {
    var b := BuscarSegmento(s.contextos[k].segmentos, num);
    if b.None? {
      SinSegmento(s, k, v, num);
    } else {
      PiezaDeSegmento(s, k, v, b.value);
    }
  }

  /** Both memories admit the same accesses, with the same kind of refusal. */
  lemma AdmiteIgual(s: Km, k: nat, v: multiset<Pieza>, segMax: U32, dir: U32, n: U32)
    requires Refleja(s, k, v)
    ensures AdmiteMmu(Traducir(s.contextos[k].segmentos, segMax, dir, n)) == AdmiteLogica(segMax, v, dir, n)
  {
    if n > 0 && Divisible(segMax, dir) {
      AdmiteEnIgual(s, k, v, dir / segMax, dir % segMax, n);
    }
  }

  lemma LeerEnIgual(s: Km, k: nat, v: multiset<Pieza>, num: U32, desp: U32, n: U32)
    requires Refleja(s, k, v) && n > 0 && AdmiteEn(v, num, desp, n) == CpuOk
    ensures LeerDesde(s.contextos[k].segmentos, s.mem, num, desp, n) == LeerEn(v, num, desp, n)
  {
    AdmiteEnIgual(s, k, v, num, desp, n);
    var i := BuscarSegmento(s.contextos[k].segmentos, num).value;
    PiezaDeSegmento(s, k, v, i);
    var g := s.contextos[k].segmentos[i];
    CorteDeCorte(s.mem, g.base, g.limite, desp, n);
  }

  lemma LeerIgual(s: Km, k: nat, v: multiset<Pieza>, segMax: U32, dir: U32, n: U32)
    requires Refleja(s, k, v) && AdmiteLogica(segMax, v, dir, n) == CpuOk
    ensures LeerFisica(s.contextos[k].segmentos, segMax, s.mem, dir, n) == LeerLogica(segMax, v, dir, n)
  {
    LeerEnIgual(s, k, v, dir / segMax, dir % segMax, n);
  }

  lemma EscritoEnRefleja(s: Km, t: Km, k: nat, v: multiset<Pieza>, i: nat, desp: nat, datos: seq<Byte>)
    requires Refleja(s, k, v) && EscritoEn(s, t, k, i, desp, datos)
    ensures var g := s.contextos[k].segmentos[i];
            var p := Pieza(g.id, Bytes(s.mem, g.base, g.limite));
            Refleja(t, k, v - multiset{p} + multiset{Pieza(g.id, Splice(p.bytes, desp, datos))})
    ensures forall q :: q == s.contextos[k].pid || Vista(t, q) == Vista(s, q)
  {
    var g := s.contextos[k].segmentos[i];
    var p := Pieza(g.id, Bytes(s.mem, g.base, g.limite));
    EscribirVista(s, t, k, i, desp, datos);
    EscribirPropio(s, t, k, i, desp, datos);
    TiledMem(s, t);
    SwapFrame(s, t);
    IdsTrasEscribir(v, p, Splice(p.bytes, desp, datos));
  }

  lemma EscribirDesdeEs(s: Km, k: nat, v: multiset<Pieza>, num: U32, desp: U32, datos: seq<Byte>) returns (i: nat)
    requires Refleja(s, k, v) && 0 < |datos| <= U32_MAX && AdmiteEn(v, num, desp, |datos|) == CpuOk
    ensures i < |s.contextos[k].segmentos|
    ensures var g := s.contextos[k].segmentos[i];
            && g.id == num && desp + |datos| <= g.limite && g.base + g.limite <= |s.mem|
            && PiezaCon(v, num) == Some(Pieza(g.id, Bytes(s.mem, g.base, g.limite)))
            && EscribirDesde(s.contextos[k].segmentos, s.mem, num, desp, datos) == Splice(s.mem, g.base + desp, datos)
  {
    AdmiteEnIgual(s, k, v, num, desp, |datos|);
    i := BuscarSegmento(s.contextos[k].segmentos, num).value;
    PiezaDeSegmento(s, k, v, i);
  }

  lemma EscribirEnIgual(s: Km, k: nat, v: multiset<Pieza>, num: U32, desp: U32, datos: seq<Byte>)
    requires Refleja(s, k, v) && 0 < |datos| <= U32_MAX && AdmiteEn(v, num, desp, |datos|) == CpuOk
    ensures var t := s.(mem := EscribirDesde(s.contextos[k].segmentos, s.mem, num, desp, datos));
            && Refleja(t, k, EscribirEn(v, num, desp, datos))
            && forall q :: q == s.contextos[k].pid || Vista(t, q) == Vista(s, q)
  {
    var i := EscribirDesdeEs(s, k, v, num, desp, datos);
    var t := s.(mem := EscribirDesde(s.contextos[k].segmentos, s.mem, num, desp, datos));
    EscritoEnRefleja(s, t, k, v, i, desp, datos);
  }

  /** A write through the MMU is the write on logical memory, and no other process can tell. */
  lemma EscribirIgual(s: Km, k: nat, v: multiset<Pieza>, segMax: U32, dir: U32, datos: seq<Byte>)
    requires Refleja(s, k, v) && 0 < |datos| <= U32_MAX && AdmiteLogica(segMax, v, dir, |datos|) == CpuOk
    ensures var t := s.(mem := EscribirFisica(s.contextos[k].segmentos, segMax, s.mem, dir, datos));
            && Refleja(t, k, EscribirLogica(segMax, v, dir, datos))
            && forall q :: q == s.contextos[k].pid || Vista(t, q) == Vista(s, q)
  {
    EscribirEnIgual(s, k, v, dir / segMax, dir % segMax, datos);
  }

  /** Same outcome, same registers, memories that still match, and nothing any other process could notice. */
  ghost predicate Coinciden(s: Km, k: nat, f: Salida<seq<Byte>>, l: Salida<multiset<Pieza>>) {
    && k < |s.contextos|
    && f.res == l.res && f.registros == l.registros
    && Refleja(s.(mem := f.memoria), k, l.memoria)
    && forall q :: q == s.contextos[k].pid || Vista(s.(mem := f.memoria), q) == Vista(s, q)
  }

  lemma CoincidenQuietas(s: Km, k: nat, v: multiset<Pieza>, res: ResultadoCpu, r: Registros)
    requires Refleja(s, k, v)
    ensures Coinciden(s, k, Salida(res, s.mem, r), Salida(res, v, r))
  {
    assert s.(mem := s.mem) == s;
  }

  /** One instruction on physical memory and the same instruction on logical memory coincide. */
  lemma PasoIgual(s: Km, k: nat, v: multiset<Pieza>, segMax: U32, r: Registros, ins: Instruccion)
    requires Refleja(s, k, v)
    ensures Coinciden(s, k, PasoCpu(Fisica(s.contextos[k].segmentos, segMax), s.mem, r, ins), PasoCpu(Logica(segMax), v, r, ins))
  {
    hide MovIn, MovOut, CopyMem, Refleja;
    match ins.opcode
    case MOV_IN => MovInIgual(s, k, v, segMax, r, ins.parametros);
    case MOV_OUT => MovOutIgual(s, k, v, segMax, r, ins.parametros);
    case COPY_MEM => CopyMemIgual(s, k, v, segMax, r, ins.parametros);
    case _ =>
      var l := PasoCpu(Logica(segMax), v, r, ins);
      CoincidenQuietas(s, k, v, l.res, l.registros);
  }

  lemma MovInIgual(s: Km, k: nat, v: multiset<Pieza>, segMax: U32, r: Registros, p: seq<string>)
    requires Refleja(s, k, v)
    ensures Coinciden(s, k, MovIn(Fisica(s.contextos[k].segmentos, segMax), s.mem, r, p), MovIn(Logica(segMax), v, r, p))
  {
    hide Refleja, AdmiteLogica, LeerLogica, LeerFisica, Asignar, BytesAValor, Traducir;
    var l := MovIn(Logica(segMax), v, r, p);
    CoincidenQuietas(s, k, v, l.res, l.registros);
    if |p| == 1 && TamanioRegistro(p[0]).Some? {
      var n := TamanioRegistro(p[0]).value;
      AdmiteIgual(s, k, v, segMax, r.si, n);
      if AdmiteLogica(segMax, v, r.si, n) == CpuOk {
        LeerIgual(s, k, v, segMax, r.si, n);
      }
    }
  }

  lemma CoincidenEscritas(s: Km, k: nat, v: multiset<Pieza>, segMax: U32, dir: U32, datos: seq<Byte>, r: Registros)
    requires Refleja(s, k, v) && 0 < |datos| <= U32_MAX && AdmiteLogica(segMax, v, dir, |datos|) == CpuOk
    ensures Coinciden(s, k, Salida(CpuOk, EscribirFisica(s.contextos[k].segmentos, segMax, s.mem, dir, datos), r),
                      Salida(CpuOk, EscribirLogica(segMax, v, dir, datos), r))
  {
    EscribirIgual(s, k, v, segMax, dir, datos);
  }

  lemma MovOutIgual(s: Km, k: nat, v: multiset<Pieza>, segMax: U32, r: Registros, p: seq<string>)
    requires Refleja(s, k, v)
    ensures Coinciden(s, k, MovOut(Fisica(s.contextos[k].segmentos, segMax), s.mem, r, p), MovOut(Logica(segMax), v, r, p))
  {
    if |p| != 1 || TamanioRegistro(p[0]).None? || LeerRegistro(r, p[0]).None? {
      CoincidenQuietas(s, k, v, CpuError, r);
    } else {
      var n := TamanioRegistro(p[0]).value;
      AdmiteIgual(s, k, v, segMax, r.di, n);
      var c := AdmiteLogica(segMax, v, r.di, n);
      if c == CpuOk {
        CoincidenEscritas(s, k, v, segMax, r.di, ValorABytes(LeerRegistro(r, p[0]).value, n), AvanzarPc(r));
      } else {
        CoincidenQuietas(s, k, v, c, r);
      }
    }
  }

  lemma CopyMemIgual(s: Km, k: nat, v: multiset<Pieza>, segMax: U32, r: Registros, p: seq<string>)
    requires Refleja(s, k, v)
    ensures Coinciden(s, k, CopyMem(Fisica(s.contextos[k].segmentos, segMax), s.mem, r, p), CopyMem(Logica(segMax), v, r, p))
  {
    if |p| != 1 || LeerRegistro(r, p[0]).None? || LeerRegistro(r, p[0]).value == 0 {
      CoincidenQuietas(s, k, v, CpuError, r);
    } else {
      var n := LeerRegistro(r, p[0]).value;
      AdmiteIgual(s, k, v, segMax, r.si, n);
      AdmiteIgual(s, k, v, segMax, r.di, n);
      var c, d := AdmiteLogica(segMax, v, r.si, n), AdmiteLogica(segMax, v, r.di, n);
      if c == CpuOk && d == CpuOk {
        LeerIgual(s, k, v, segMax, r.si, n);
        CoincidenEscritas(s, k, v, segMax, r.di, LeerLogica(segMax, v, r.si, n), AvanzarPc(r));
      } else {
        CoincidenQuietas(s, k, v, if c != CpuOk then c else d, r);
      }
    }
  }

  // ---------------------------------------------------------------- the saved registers

  ghost function RegistrosDe(s: Km, pid: U32): Option<Registros> {
    match Buscar(s.contextos, pid)
    case None => None
    case Some(k) => Some(s.contextos[k].registros)
  }

  predicate MismosRegistros(xs: seq<Contexto>, ys: seq<Contexto>) {
    && |ys| == |xs|
    && forall j :: 0 <= j < |xs| ==> ys[j].pid == xs[j].pid && ys[j].registros == xs[j].registros
  }

  lemma RegistrosIguales(s: Km, t: Km, pid: U32)
    requires PidsDistintos(s.contextos) && MismosRegistros(s.contextos, t.contextos)
    ensures RegistrosDe(t, pid) == RegistrosDe(s, pid)
  {
    PidsIguales(s.contextos, t.contextos);
  }

  predicate Guarda(e: Evento, pid: U32) {
    e.GuardarContexto? && e.pid == pid
  }

  lemma CrearRegistros(c: Config, s: Km, t: Km, p: Pedido, res: Resultado)
    requires CrearStep(s, t, c.segMax, c.peor, p.pid, p.id, p.tamanio, res)
    ensures MismosRegistros(s.contextos, t.contextos)
  {
  }

  lemma CompactadoRegistros(s: Km)
    requires Inv(s)
    ensures MismosRegistros(s.contextos, Compactado(s).contextos)
  {
    CompactarPreserva(s);
    forall j | 0 <= j < |s.contextos|
      ensures Compactado(s).contextos[j].pid == s.contextos[j].pid && Compactado(s).contextos[j].registros == s.contextos[j].registros
    {
      assert MismosSegmentos(s, Compactado(s), j);
    }
  }

  lemma FinCompactacionRegistros(c: Config, s: Km, t: Km, r: Option<bool>)
    requires Inv(s) && FinCompactacionStep(s, t, c.segMax, c.peor, r)
    ensures MismosRegistros(s.contextos, t.contextos)
  {
    CompactadoRegistros(s);
    if s.pendiente.Some? {
      var u := Compactado(s).(pendiente := None);
      var res :| CrearStep(u, t, c.segMax, c.peor, s.pendiente.value.pid, s.pendiente.value.id, s.pendiente.value.tamanio, res);
      CrearRegistros(c, u, t, s.pendiente.value, res);
      assert u.contextos == Compactado(s).contextos;
    }
  }

  lemma PedirRegistros(c: Config, s: Km, t: Km, p: Pedido, r: Option<bool>)
    requires PedirSegmentoStep(s, t, c.segMax, c.peor, p, r)
    ensures MismosRegistros(s.contextos, t.contextos)
  {
    var u, res :| CrearStep(s, u, c.segMax, c.peor, p.pid, p.id, p.tamanio, res)
      && t == (if res == Resultado.Compactar then u.(pendiente := Some(p)) else u);
    CrearRegistros(c, s, u, p, res);
  }

  /** Steps that add or remove no process and save no context leave all saved registers alone. */
  lemma PasoMismosRegistros(c: Config, s: Km, e: Evento, t: Km)
    requires Inv(s) && Paso(c, s, e, t)
    requires !e.CrearProceso? && !e.Finalizar? && !e.GuardarContexto?
    ensures MismosRegistros(s.contextos, t.contextos)
  {
    hide Tiled, SegmentosOk, SwapOk, Contiguous, NonEmpty, Coalesced, SameCover, DiscoOk, Reservado, Copiado, Liberado, FueraDe, Cargados, SegmentoDe;
    match e
    case PedirSegmento(p, r) =>
      PedirRegistros(c, s, t, p, r);
    case FinCompactacion(p, ok) =>
      FinCompactacionRegistros(c, s, t, if p.None? then None else Some(ok));
    case _ =>
  }

  /** Only saving, creating or finishing a process changes its saved registers. */
  lemma PasoRegistros(c: Config, s: Km, e: Evento, t: Km, pid: U32)
    requires Inv(s) && Paso(c, s, e, t) && !Toca(e, pid) && !Guarda(e, pid)
    ensures RegistrosDe(t, pid) == RegistrosDe(s, pid)
  {
    if e.CrearProceso? {
      if e.ok {
        BuscarAppend(s.contextos, Contexto(e.pid, REGISTROS_CERO, []));
      }
    } else if e.Finalizar? {
      if Buscar(s.contextos, e.pid).Some? {
        BuscarRemove(s.contextos, Buscar(s.contextos, e.pid).value, pid);
      }
    } else if e.GuardarContexto? {
      PidsIguales(s.contextos, t.contextos);
    } else {
      PasoMismosRegistros(c, s, e, t);
      RegistrosIguales(s, t, pid);
    }
  }

  // ---------------------------------------------------------------- bursts

  /** What the CPU holds during a burst: the table it was given and the live registers. */
  datatype Copia = Copia(segs: seq<Segmento>, registros: Registros)

  datatype Mundo = Mundo(km: Km, cpu: Option<Copia>)

  datatype Accion = Despachar | Ejecutar | Llamar | Devolver | Entorno(evento: Evento)

  ghost function TablaDe(s: Km, pid: U32): seq<Segmento> {
    match Buscar(s.contextos, pid)
    case None => []
    case Some(k) => s.contextos[k].segmentos
  }

  ghost predicate DespacharPaso(pid: U32, w: Mundo, x: Mundo) {
    && w.cpu == None && EnMemoria(w.km, pid) && Buscar(w.km.contextos, pid).Some?
    && x == w.(cpu := Some(Copia(TablaDe(w.km, pid), RegistrosDe(w.km, pid).value)))
  }

  ghost predicate EjecutarPaso(c: Config, prog: U32 -> Instruccion, w: Mundo, x: Mundo) {
    && w.cpu.Some? && 0 < c.segMax <= U32_MAX
    && var cpu := w.cpu.value;
    && var f := PasoCpu(Fisica(cpu.segs, c.segMax), w.km.mem, cpu.registros, prog(cpu.registros.pc));
    && f.res == CpuOk && !EsSyscallOExit(prog(cpu.registros.pc).opcode)
    && x == Mundo(w.km.(mem := f.memoria), Some(cpu.(registros := f.registros)))
  }

  /** A syscall: the CPU moves the program counter past it and ends the burst; what is asked for is done elsewhere. */
  ghost predicate LlamarPaso(prog: U32 -> Instruccion, w: Mundo, x: Mundo) {
    && w.cpu.Some? && EsSyscallOExit(prog(w.cpu.value.registros.pc).opcode)
    && x == w.(cpu := Some(w.cpu.value.(registros := AvanzarPc(w.cpu.value.registros))))
  }

  ghost predicate DevolverPaso(pid: U32, w: Mundo, x: Mundo) {
    && w.cpu.Some? && x.cpu == None
    && GuardarContextoStep(w.km, x.km, pid, w.cpu.value.registros)
  }

  /** The requests that can move the segments of a process. */
  predicate Mueve(e: Evento, pid: U32) {
    e.FinCompactacion? || (e.Suspender? && e.pid == pid) || (e.Desuspender? && e.pid == pid)
  }

  /**
   * Any request of anyone that does not ask to change this process. While it is on a CPU
   * there is no compaction, and nobody takes it to swap or back: the Kernel Scheduler
   * empties EXEC before FIN_COMPACTACION and suspends only processes in BLOCK.
   */
  ghost predicate EntornoPaso(c: Config, pid: U32, e: Evento, w: Mundo, x: Mundo) {
    && Paso(c, w.km, e, x.km) && !Toca(e, pid) && !Guarda(e, pid)
    && x.cpu == w.cpu
    && (w.cpu.Some? ==> !Mueve(e, pid))
  }

  lemma MismaTabla(s: Km, t: Km, pid: U32)
    requires PidsDistintos(s.contextos) && |t.contextos| == |s.contextos|
    requires forall j :: 0 <= j < |s.contextos| ==>
      t.contextos[j].pid == s.contextos[j].pid && (s.contextos[j].pid == pid ==> t.contextos[j].segmentos == s.contextos[j].segmentos)
    ensures TablaDe(t, pid) == TablaDe(s, pid)
  {
    PidsIguales(s.contextos, t.contextos);
  }

  lemma PedirTabla(c: Config, s: Km, t: Km, p: Pedido, r: Option<bool>, pid: U32)
    requires Inv(s) && PedirSegmentoStep(s, t, c.segMax, c.peor, p, r) && !(r == Some(true) && p.pid == pid)
    ensures TablaDe(t, pid) == TablaDe(s, pid)
  {
    var u, res :| CrearStep(s, u, c.segMax, c.peor, p.pid, p.id, p.tamanio, res)
      && t == (if res == Resultado.Compactar then u.(pendiente := Some(p)) else u)
      && r == (if res == Resultado.Compactar then None else Some(res == Ok));
    MismaTabla(s, u, pid);
  }

  /** Deleting a segment of another process, taking it to swap, or bringing it back. */
  lemma AjenoTabla(c: Config, s: Km, e: Evento, t: Km, pid: U32)
    requires PidsDistintos(s.contextos) && Paso(c, s, e, t) && !Toca(e, pid) && !Mueve(e, pid)
    requires e.EliminarSegmento? || e.Suspender? || e.Desuspender?
    ensures TablaDe(t, pid) == TablaDe(s, pid)
  {
    hide SameCover, DiscoOk, Reservado, Copiado, Liberado, FueraDe, Cargados, SegmentoDe, Colocar, NonEmpty, Coalesced;
    MismaTabla(s, t, pid);
  }

  /** A process' segments stay where they are unless it asks, memory is compacted, or it is taken to swap or back. */
  lemma TablaQuieta(c: Config, s: Km, e: Evento, t: Km, pid: U32)
    requires Inv(s) && Paso(c, s, e, t) && !Toca(e, pid) && !Mueve(e, pid)
    ensures TablaDe(t, pid) == TablaDe(s, pid)
  {
    hide Tiled, SegmentosOk, SwapOk, Contiguous, NonEmpty, Coalesced;
    match e
    case CrearProceso(q, ok) =>
      if ok {
        BuscarAppend(s.contextos, Contexto(q, REGISTROS_CERO, []));
      }
    case Finalizar(q) =>
      if Buscar(s.contextos, q).Some? {
        BuscarRemove(s.contextos, Buscar(s.contextos, q).value, pid);
      }
    case PedirSegmento(p, r) =>
      PedirTabla(c, s, t, p, r, pid);
    case EliminarSegmento(_, _) =>
      AjenoTabla(c, s, e, t, pid);
    case Suspender(_, _, _) =>
      AjenoTabla(c, s, e, t, pid);
    case Desuspender(_, _, _) =>
      AjenoTabla(c, s, e, t, pid);
    case _ =>
      MismaTabla(s, t, pid);
  }

  ghost predicate MundoPaso(c: Config, pid: U32, prog: U32 -> Instruccion, w: Mundo, a: Accion, x: Mundo) {
    match a
    case Despachar => DespacharPaso(pid, w, x)
    case Ejecutar => EjecutarPaso(c, prog, w, x)
    case Llamar => LlamarPaso(prog, w, x)
    case Devolver => DevolverPaso(pid, w, x)
    case Entorno(e) => EntornoPaso(c, pid, e, w, x)
  }

  /** The process alone: its registers and its logical memory. */
  datatype Solo = Solo(registros: Registros, memoria: multiset<Pieza>)

  /** One instruction of the process alone; of a syscall it only sees the program counter move. */
  ghost function UnPaso(segMax: U32, prog: U32 -> Instruccion, x: Solo): Solo {
    var ins := prog(x.registros.pc);
    if EsSyscallOExit(ins.opcode) then Solo(AvanzarPc(x.registros), x.memoria)
    else
      var l := PasoCpu(Logica(segMax), x.memoria, x.registros, ins);
      Solo(l.registros, l.memoria)
  }

  /** The actions that are instructions of the process. */
  predicate Instruye(a: Accion) {
    a == Ejecutar || a == Llamar
  }

  function Iterar<T>(f: T -> T, x: T, n: nat): T {
    if n == 0 then x else f(Iterar(f, x, n - 1))
  }

  ghost function Avanza(segMax: U32, prog: U32 -> Instruccion): Solo -> Solo {
    x => UnPaso(segMax, prog, x)
  }

  /** The process run without interruption for `n` instructions. */
  ghost function SinCortes(segMax: U32, prog: U32 -> Instruccion, x: Solo, n: nat): Solo {
    Iterar(Avanza(segMax, prog), x, n)
  }

  /** The world, with the process on a CPU or off, holds exactly the state `x` of the process. */
  ghost predicate Sincronizado(w: Mundo, pid: U32, x: Solo) {
    && Inv(w.km) && Vista(w.km, pid) == Some(x.memoria) && IdsUnicos(x.memoria)
    && match w.cpu
       case None => RegistrosDe(w.km, pid) == Some(x.registros)
       case Some(cpu) => cpu.registros == x.registros && cpu.segs == TablaDe(w.km, pid) && EnMemoria(w.km, pid)
  }

  lemma SincronizadoRefleja(w: Mundo, pid: U32, x: Solo) returns (k: nat)
    requires Sincronizado(w, pid, x) && w.cpu.Some?
    ensures Buscar(w.km.contextos, pid) == Some(k) && Refleja(w.km, k, x.memoria)
    ensures w.cpu.value.segs == w.km.contextos[k].segmentos
  {
    k := Buscar(w.km.contextos, pid).value;
  }

  lemma EjecutarSincronizado(c: Config, pid: U32, prog: U32 -> Instruccion, w: Mundo, x: Mundo, p: Solo)
    requires Sincronizado(w, pid, p) && EjecutarPaso(c, prog, w, x)
    ensures Sincronizado(x, pid, UnPaso(c.segMax, prog, p))
  {
    var k := SincronizadoRefleja(w, pid, p);
    PasoIgual(w.km, k, p.memoria, c.segMax, p.registros, prog(p.registros.pc));
  }

  /** Keeping the table and what is stored keeps all of it in memory. */
  lemma SigueEnMemoria(s: Km, t: Km, pid: U32)
    requires Vista(s, pid).Some? && Vista(t, pid) == Vista(s, pid) && EnMemoria(s, pid) && TablaDe(t, pid) == TablaDe(s, pid)
    ensures EnMemoria(t, pid)
  {
    EnSwapDe(s.disco, s.metas, pid);
    EnSwapDe(t.disco, t.metas, pid);
    var j, k := Buscar(s.contextos, pid).value, Buscar(t.contextos, pid).value;
    assert |Contenido(s, j)| == |TablaDe(s, pid)| + |EnSwap(s.disco, s.metas, pid)|;
    assert |Contenido(t, k)| == |TablaDe(t, pid)| + |EnSwap(t.disco, t.metas, pid)|;
  }

  lemma EntornoSincronizado(c: Config, pid: U32, e: Evento, w: Mundo, x: Mundo, p: Solo)
    requires Sincronizado(w, pid, p) && EntornoPaso(c, pid, e, w, x) && c.segMax <= I32_MAX
    ensures Sincronizado(x, pid, p)
  {
    PasoRefina(c, w.km, e, x.km);
    assert PasoSimple(c, e, pid, Vista(w.km, pid), Vista(x.km, pid));
    PasoRegistros(c, w.km, e, x.km, pid);
    if w.cpu.Some? {
      TablaQuieta(c, w.km, e, x.km, pid);
      SigueEnMemoria(w.km, x.km, pid);
    }
  }

  lemma DevolverSincronizado(pid: U32, w: Mundo, x: Mundo, p: Solo)
    requires Sincronizado(w, pid, p) && DevolverPaso(pid, w, x)
    ensures Sincronizado(x, pid, p)
  {
    GuardarContextoPreserva(w.km, x.km, pid, p.registros);
    PidsIguales(w.km.contextos, x.km.contextos);
  }

  /** Only an executed instruction moves the process, and it moves it as it would alone. */
  lemma PasoSincronizado(c: Config, pid: U32, prog: U32 -> Instruccion, w: Mundo, a: Accion, x: Mundo, p: Solo)
    requires Sincronizado(w, pid, p) && MundoPaso(c, pid, prog, w, a, x) && 0 < c.segMax <= I32_MAX
    ensures Instruye(a) ==> Sincronizado(x, pid, UnPaso(c.segMax, prog, p))
    ensures !Instruye(a) ==> Sincronizado(x, pid, p)
  {
    match a
    case Despachar =>
    case Ejecutar => EjecutarSincronizado(c, pid, prog, w, x, p);
    case Llamar =>
    case Devolver => DevolverSincronizado(pid, w, x, p);
    case Entorno(e) => EntornoSincronizado(c, pid, e, w, x, p);
  }

  function Ejecutadas(acciones: seq<Accion>, n: nat): nat
    requires n <= |acciones|
  {
    if n == 0 then 0 else Ejecutadas(acciones, n - 1) + Bit(Instruye(acciones[n - 1]))
  }

  ghost predicate Historia(c: Config, pid: U32, prog: U32 -> Instruccion, ws: seq<Mundo>, acciones: seq<Accion>) {
    |ws| == |acciones| + 1 && forall i :: 0 <= i < |acciones| ==> MundoPaso(c, pid, prog, ws[i], acciones[i], ws[i + 1])
  }

  /** An instruction advances the process by `f`, any other action leaves it where it was. */
  ghost predicate Guiado(P: (Mundo, Solo) -> bool, f: Solo -> Solo, w: Mundo, a: Accion, x: Mundo) {
    forall p :: P(w, p) ==> P(x, if Instruye(a) then f(p) else p)
  }

  lemma {:induction false} Simulacion(P: (Mundo, Solo) -> bool, f: Solo -> Solo, ws: seq<Mundo>, acciones: seq<Accion>, x: Solo, n: nat)
    requires |ws| == |acciones| + 1 && n <= |acciones| && P(ws[0], x)
    requires forall i :: 0 <= i < |acciones| ==> Guiado(P, f, ws[i], acciones[i], ws[i + 1])
    ensures P(ws[n], Iterar(f, x, Ejecutadas(acciones, n)))
  {
    if n > 0 {
      Simulacion(P, f, ws, acciones, x, n - 1);
      assert Guiado(P, f, ws[n - 1], acciones[n - 1], ws[n]);
    }
  }

  lemma PasoGuiado(c: Config, pid: U32, prog: U32 -> Instruccion, w: Mundo, a: Accion, x: Mundo)
    requires MundoPaso(c, pid, prog, w, a, x) && 0 < c.segMax <= I32_MAX
    ensures Guiado(Sincronia(pid), Avanza(c.segMax, prog), w, a, x)
  {
    forall p | Sincronizado(w, pid, p)
      ensures Sincronizado(x, pid, if Instruye(a) then UnPaso(c.segMax, prog, p) else p)
    {
      PasoSincronizado(c, pid, prog, w, a, x, p);
    }
  }

  ghost function Sincronia(pid: U32): (Mundo, Solo) -> bool {
    (w, x) => Sincronizado(w, pid, x)
  }

  /**
   * Context-switch transparency: after any history of bursts, saves, compactions, swaps,
   * and other processes' work, the process is where the same number of instructions,
   * run without interruption on its logical memory alone, would have taken it.
   */
  lemma Transparencia(c: Config, pid: U32, prog: U32 -> Instruccion, ws: seq<Mundo>, acciones: seq<Accion>, x: Solo, n: nat)
    requires Historia(c, pid, prog, ws, acciones) && n <= |acciones| && 0 < c.segMax <= I32_MAX
    requires Sincronizado(ws[0], pid, x)
    ensures Sincronizado(ws[n], pid, SinCortes(c.segMax, prog, x, Ejecutadas(acciones, n)))
  {
    forall i | 0 <= i < |acciones|
      ensures Guiado(Sincronia(pid), Avanza(c.segMax, prog), ws[i], acciones[i], ws[i + 1])
    {
      PasoGuiado(c, pid, prog, ws[i], acciones[i], ws[i + 1]);
    }
    Simulacion(Sincronia(pid), Avanza(c.segMax, prog), ws, acciones, x, n);
  }

  /** Where a history can begin: any process, in any state of a run from the start whose allocations repeat no id in swap. */
  lemma Arranque(c: Config, ss: seq<Km>, es: seq<Evento>, pid: U32) returns (x: Solo)
    requires Corrida(c, ss, es) && ss[0] == INICIAL && c.segMax <= I32_MAX
    requires forall i :: 0 <= i < |es| ==> SinRepetir(ss[i], es[i])
    requires Vista(ss[|es|], pid).Some?
    ensures Sincronizado(Mundo(ss[|es|], None), pid, x)
  {
    hide Paso, SinRepetir, IdsUnicos;
    InicialInv();
    CorridaInv(c, ss, es, |es|);
    CorridaUnicos(c, ss, es, |es|);
    assert TodosUnicos(ss[|es|]);
    x := Solo(RegistrosDe(ss[|es|], pid).value, Vista(ss[|es|], pid).value);
  }

  /** Two histories of the same process that execute equally many instructions end with the same saved registers and the same memory. */
  lemma MismoResultado(c: Config, pid: U32, prog: U32 -> Instruccion, ws: seq<Mundo>, as1: seq<Accion>, us: seq<Mundo>, as2: seq<Accion>, x: Solo)
    requires Historia(c, pid, prog, ws, as1) && Historia(c, pid, prog, us, as2) && 0 < c.segMax <= I32_MAX
    requires Sincronizado(ws[0], pid, x) && Sincronizado(us[0], pid, x)
    requires Ejecutadas(as1, |as1|) == Ejecutadas(as2, |as2|)
    requires ws[|as1|].cpu == None && us[|as2|].cpu == None
    ensures RegistrosDe(ws[|as1|].km, pid) == RegistrosDe(us[|as2|].km, pid)
    ensures Vista(ws[|as1|].km, pid) == Vista(us[|as2|].km, pid)
  {
    Transparencia(c, pid, prog, ws, as1, x, |as1|);
    Transparencia(c, pid, prog, us, as2, x, |as2|);
  }

  /** A fault is not an accident of the cut either: the next instruction faults in the history exactly when it does alone. */
  lemma MismaFalla(c: Config, pid: U32, prog: U32 -> Instruccion, w: Mundo, x: Solo)
    requires Sincronizado(w, pid, x) && w.cpu.Some? && 0 < c.segMax <= U32_MAX
    ensures PasoCpu(Fisica(w.cpu.value.segs, c.segMax), w.km.mem, w.cpu.value.registros, prog(w.cpu.value.registros.pc)).res
            == PasoCpu(Logica(c.segMax), x.memoria, x.registros, prog(x.registros.pc)).res
  {
    var k := SincronizadoRefleja(w, pid, x);
    PasoIgual(w.km, k, x.memoria, c.segMax, x.registros, prog(x.registros.pc));
  }
}
