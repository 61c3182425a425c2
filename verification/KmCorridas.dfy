/** Whole runs of Kernel Memory: every request in any order, and what they add up to for each process. */
module KmCorridas {
  import opened Basics
  import opened Intervals
  import opened Sticks
  import opened Contexto
  import opened KmEstado
  import opened KmAsignacion
  import opened KmSwap
  import opened KmReanudar
  import opened KmOperaciones

  datatype Config = Config(segMax: int, peor: bool)

  datatype Evento =
    | CrearProceso(pid: U32, ok: bool)
    | GuardarContexto(pid: U32, registros: Registros)
    | PedirSegmento(pedido: Pedido, respuesta: Option<bool>)
    | EliminarSegmento(pid: U32, id: U32)
    | LeerDatos(pid: U32, dir: U32, n: U32, leido: Option<seq<Byte>>)
    | EscribirDatos(pid: U32, dir: U32, datos: seq<Byte>, ok: bool)
    | FinCompactacion(pendiente: Option<Pedido>, ok: bool)
    | Suspender(pid: U32, averia: bool, ok: bool)
    | Desuspender(pid: U32, averia: bool, resultado: Reanudacion)
    | Finalizar(pid: U32)
    | RegistrarStick(contenido: seq<Byte>, ok: bool)
    | IdentificarSwap(total: U32, bs: U32, cerrado: bool, ok: bool)

  ghost predicate Paso(c: Config, s: Km, e: Evento, t: Km) {
    match e
    case CrearProceso(pid, ok) => CrearProcesoStep(s, t, pid, ok)
    case GuardarContexto(pid, r) => GuardarContextoStep(s, t, pid, r)
    case PedirSegmento(p, r) => PedirSegmentoStep(s, t, c.segMax, c.peor, p, r)
    case EliminarSegmento(pid, id) => EliminarStep(s, t, pid, id)
    case LeerDatos(pid, dir, n, r) => LeerDatosStep(s, c.segMax, pid, dir, n, r) && t == s
    case EscribirDatos(pid, dir, datos, ok) => EscribirDatosStep(s, t, c.segMax, pid, dir, datos, ok)
    case FinCompactacion(p, ok) =>
      p == s.pendiente && FinCompactacionStep(s, t, c.segMax, c.peor, if p.None? then None else Some(ok))
    case Suspender(pid, averia, ok) => SuspenderStep(s, t, pid, averia, ok)
    case Desuspender(pid, averia, r) => DesuspenderStep(s, t, c.peor, pid, averia, r)
    case Finalizar(pid) => FinalizarStep(s, t, pid)
    case RegistrarStick(contenido, ok) => RegistrarStickStep(s, t, contenido, ok)
    case IdentificarSwap(total, bs, cerrado, ok) => IdentificarSwapStep(s, t, total, bs, cerrado, ok)
  }

  // ---------------------------------------------------------------- the simple machine

  /** One step of the simple machine, for the process `q`: no sticks, holes, blocks or compaction in sight. */
  ghost predicate PasoSimple(c: Config, e: Evento, q: U32, v: Deposito, w: Deposito) {
    match e
    case CrearProceso(pid, ok) => if ok && q == pid then v == None && w == Some(multiset{}) else w == v
    case PedirSegmento(p, r) => if r == Some(true) && q == p.pid then Agrega(v, w, p.id, p.tamanio) else w == v
    case FinCompactacion(p, ok) => if p.Some? && ok && q == p.value.pid then Agrega(v, w, p.value.id, p.value.tamanio) else w == v
    case EliminarSegmento(pid, id) => if q == pid then Quita(v, w, id) else w == v
    case EscribirDatos(pid, dir, datos, ok) =>
      if ok && q == pid then c.segMax > 0 && Escribe(v, w, dir / c.segMax, dir % c.segMax, datos) else w == v
    case Finalizar(pid) => if q == pid then w == None else w == v
    case _ => w == v
  }

  ghost predicate Refina(c: Config, s: Km, e: Evento, t: Km) {
    Inv(t) && forall q :: PasoSimple(c, e, q, Vista(s, q), Vista(t, q))
  }

  lemma PedirRefina(c: Config, s: Km, p: Pedido, r: Option<bool>, t: Km)
    requires Inv(s) && c.segMax <= I32_MAX && PedirSegmentoStep(s, t, c.segMax, c.peor, p, r)
    ensures Refina(c, s, PedirSegmento(p, r), t)
  {
    var u, res :| CrearStep(s, u, c.segMax, c.peor, p.pid, p.id, p.tamanio, res)
      && t == (if res == Compactar then u.(pendiente := Some(p)) else u)
      && r == (if res == Compactar then None else Some(res == Ok));
    CrearPreserva(s, u, c.segMax, c.peor, p.pid, p.id, p.tamanio, res);
    if res == Compactar {
      PendienteVista(s, Some(p));
    }
  }

  lemma EscribirRefina(c: Config, s: Km, pid: U32, dir: U32, datos: seq<Byte>, ok: bool, t: Km)
    requires Inv(s) && EscribirDatosStep(s, t, c.segMax, pid, dir, datos, ok)
    ensures Refina(c, s, EscribirDatos(pid, dir, datos, ok), t)
  {
    EscribirDatosPreserva(s, t, c.segMax, pid, dir, datos, ok);
  }

  lemma CompactarRefina(c: Config, s: Km, ok: bool, t: Km)
    requires Inv(s) && c.segMax <= I32_MAX && Paso(c, s, FinCompactacion(s.pendiente, ok), t)
    ensures Refina(c, s, FinCompactacion(s.pendiente, ok), t)
  {
    FinCompactacionPreserva(s, t, c.segMax, c.peor, if s.pendiente.None? then None else Some(ok));
  }

  /** Swapping, growing memory and connecting devices: steps no process can notice. */
  lemma PasoInvisible(c: Config, s: Km, e: Evento, t: Km)
    requires Inv(s) && Paso(c, s, e, t)
    requires e.Suspender? || e.Desuspender? || e.RegistrarStick? || e.IdentificarSwap?
    ensures Inv(t) && forall q :: Vista(t, q) == Vista(s, q)
  {
    match e
    case Suspender(pid, averia, ok) =>
      SuspenderPreserva(s, t, pid, averia, ok);
    case Desuspender(pid, averia, r) =>
      DesuspenderPreserva(s, t, c.peor, pid, averia, r);
    case RegistrarStick(contenido, ok) =>
      RegistrarStickPreserva(s, t, contenido, ok);
    case IdentificarSwap(total, bs, cerrado, ok) =>
      IdentificarSwapPreserva(s, t, total, bs, cerrado, ok);
    case _ =>
  }

  /** Every step of Kernel Memory keeps its invariant and is a step of the simple machine, for every process. */
  lemma PasoRefina(c: Config, s: Km, e: Evento, t: Km)
    requires Inv(s) && c.segMax <= I32_MAX && Paso(c, s, e, t)
    ensures Refina(c, s, e, t)
  {
    hide Inv;
    match e
    case CrearProceso(pid, ok) =>
      CrearProcesoPreserva(s, t, pid, ok);
    case GuardarContexto(pid, r) =>
      GuardarContextoPreserva(s, t, pid, r);
    case PedirSegmento(p, r) =>
      PedirRefina(c, s, p, r, t);
    case EliminarSegmento(pid, id) =>
      EliminarPreserva(s, t, pid, id);
    case LeerDatos(_, _, _, _) =>
    case EscribirDatos(pid, dir, datos, ok) =>
      EscribirRefina(c, s, pid, dir, datos, ok, t);
    case FinCompactacion(_, ok) =>
      CompactarRefina(c, s, ok, t);
    case Finalizar(pid) =>
      FinalizarPreserva(s, t, pid);
    case _ =>
      PasoInvisible(c, s, e, t);
  }

  // ---------------------------------------------------------------- runs

  ghost predicate Corrida(c: Config, ss: seq<Km>, es: seq<Evento>) {
    |ss| == |es| + 1 && forall i :: 0 <= i < |es| ==> Paso(c, ss[i], es[i], ss[i + 1])
  }

  const INICIAL := Km([], [], [], [], [], [], [], 0, false, None)

  lemma InicialInv()
    ensures Inv(INICIAL) && forall q :: Vista(INICIAL, q) == None
  {
  }

  /** The partition of memory, the coalesced holes, the ownership of blocks and the stick ids hold in every state of every run. */
  lemma {:induction false} CorridaInv(c: Config, ss: seq<Km>, es: seq<Evento>, i: nat)
    requires Corrida(c, ss, es) && Inv(ss[0]) && c.segMax <= I32_MAX && i < |ss|
    ensures Inv(ss[i])
  {
    if i > 0 {
      CorridaInv(c, ss, es, i - 1);
      PasoRefina(c, ss[i - 1], es[i - 1], ss[i]);
    }
  }

  /** Does the event ask to change what this process stores? */
  predicate Toca(e: Evento, q: U32) {
    match e
    case CrearProceso(pid, ok) => ok && q == pid
    case PedirSegmento(p, r) => r == Some(true) && q == p.pid
    case FinCompactacion(p, ok) => ok && p.Some? && q == p.value.pid
    case EliminarSegmento(pid, _) => q == pid
    case EscribirDatos(pid, _, _, ok) => ok && q == pid
    case Finalizar(pid) => q == pid
    case _ => false
  }

  /** A run that never asks to change a process leaves its ids and bytes alone, whatever is done to it and to the others. */
  lemma {:induction false} CorridaAisla(c: Config, ss: seq<Km>, es: seq<Evento>, q: U32, n: nat)
    requires Corrida(c, ss, es) && Inv(ss[0]) && c.segMax <= I32_MAX && n <= |es|
    requires forall i :: 0 <= i < n ==> !Toca(es[i], q)
    ensures Vista(ss[n], q) == Vista(ss[0], q)
  {
    if n > 0 {
      CorridaAisla(c, ss, es, q, n - 1);
      CorridaInv(c, ss, es, n - 1);
      PasoRefina(c, ss[n - 1], es[n - 1], ss[n]);
      assert PasoSimple(c, es[n - 1], q, Vista(ss[n - 1], q), Vista(ss[n], q));
    }
  }

  /** The segments of a process, with their bytes, as the process itself sees them when it runs. */
  ghost function Segmentos(s: Km, pid: U32): multiset<Pieza> {
    match Buscar(s.contextos, pid)
    case None => multiset{}
    case Some(k) => multiset(Residentes(s.mem, s.contextos[k].segmentos))
  }

  predicate EnMemoria(s: Km, pid: U32) {
    MetasDe(s.metas, pid) == []
  }

  lemma EnMemoriaVista(s: Km, pid: U32)
    requires EnMemoria(s, pid) && Buscar(s.contextos, pid).Some?
    ensures Vista(s, pid) == Some(Segmentos(s, pid))
  {
    EnSwapDe(s.disco, s.metas, pid);
    var k := Buscar(s.contextos, pid).value;
    assert EnSwap(s.disco, s.metas, s.contextos[k].pid) == [];
    assert Contenido(s, k) == multiset(Residentes(s.mem, s.contextos[k].segmentos));
  }

  lemma RestauradoEnMemoria(s: Km, t: Km, peor: bool, pid: U32, averia: bool)
    requires Inv(s) && DesuspenderStep(s, t, peor, pid, averia, Restaurado)
    ensures EnMemoria(t, pid) && Buscar(t.contextos, pid).Some?
  {
    DesuspenderPreserva(s, t, peor, pid, averia, Restaurado);
    assert Vista(t, pid) == Vista(s, pid);
    if t != s {
      MetasDeSin(s.metas, pid);
    }
  }

  lemma {:induction false} MetasDeSin(metas: seq<SwapMeta>, pid: U32)
    ensures MetasDe(MetasSin(metas, pid), pid) == []
  {
    if metas != [] {
      MetasDeSin(metas[1..], pid);
    }
  }

  /**
   * Suspend/desuspend round trip: a process is suspended, anything at all happens to the
   * others (and further suspensions, failed attempts and compactions to it as well), and
   * when it comes back it has the same segment ids with the same limits and bytes.
   */
  lemma IdaYVuelta(c: Config, ss: seq<Km>, es: seq<Evento>, pid: U32, averia: bool)
    requires Corrida(c, ss, es) && Inv(ss[0]) && c.segMax <= I32_MAX && |es| >= 2
    requires es[0] == Suspender(pid, false, true) && EnMemoria(ss[0], pid)
    requires es[|es| - 1] == Desuspender(pid, averia, Restaurado)
    requires forall i :: 0 <= i < |es| ==> !Toca(es[i], pid)
    ensures Segmentos(ss[|es|], pid) == Segmentos(ss[0], pid)
  {
    var n := |es|;
    CorridaAisla(c, ss, es, pid, n);
    CorridaInv(c, ss, es, n - 1);
    RestauradoEnMemoria(ss[n - 1], ss[n], c.peor, pid, averia);
    EnMemoriaVista(ss[n], pid);
    assert Paso(c, ss[0], es[0], ss[1]);
    EnMemoriaVista(ss[0], pid);
  }

  /** In between, a suspended process occupies no memory: all it had is in swap. */
  lemma SuspendidoSinMemoria(s: Km, t: Km, pid: U32, averia: bool)
    requires Inv(s) && SuspenderStep(s, t, pid, averia, true)
    ensures Segmentos(t, pid) == multiset{}
    ensures Buscar(t.contextos, pid).Some? && t.contextos[Buscar(t.contextos, pid).value].segmentos == []
  {
    SuspenderPreserva(s, t, pid, averia, true);
    var k := Buscar(s.contextos, pid).value;
    if t != s {
      PidsIguales(s.contextos, t.contextos);
    }
    assert Residentes(t.mem, t.contextos[k].segmentos) == [];
  }

  // ---------------------------------------------------------------- the deferred request

  /** While a request is deferred the Kernel Scheduler's connection carries nothing but FIN_COMPACTACION. */
  predicate Ordenado(s: Km, e: Evento) {
    s.pendiente.Some? ==> e.FinCompactacion? || e.GuardarContexto? || e.RegistrarStick? || e.IdentificarSwap?
  }

  lemma CrearPendienteOk(s: Km, u: Km, c: Config, p: Pedido, res: Resultado)
    requires PendienteOk(s, c.segMax) && s.pendiente == None
    requires CrearStep(s, u, c.segMax, c.peor, p.pid, p.id, p.tamanio, res)
    ensures PendienteOk(if res == Compactar then u.(pendiente := Some(p)) else u, c.segMax)
  {
  }

  lemma GuardarPendienteOk(s: Km, t: Km, segMax: int, pid: U32, r: Registros)
    requires Inv(s) && PendienteOk(s, segMax) && GuardarContextoStep(s, t, pid, r)
    ensures PendienteOk(t, segMax)
  {
    if s.pendiente.Some? && Buscar(s.contextos, pid).Some? {
      PidsIguales(s.contextos, t.contextos);
    }
  }

  lemma RegistrarPendienteOk(s: Km, t: Km, segMax: int, contenido: seq<Byte>, ok: bool)
    requires Inv(s) && PendienteOk(s, segMax) && RegistrarStickStep(s, t, contenido, ok)
    ensures PendienteOk(t, segMax)
  {
    if ok {
      RegistrarStickPreserva(s, t, contenido, ok);
      BytesConservados(s);
      BytesConservados(t);
    }
  }

  lemma PasoPendienteOk(c: Config, s: Km, e: Evento, t: Km)
    requires Inv(s) && c.segMax <= I32_MAX && Paso(c, s, e, t) && Ordenado(s, e) && PendienteOk(s, c.segMax)
    ensures PendienteOk(t, c.segMax)
  {
    hide Tiled, SegmentosOk, SwapOk, Contiguous, NonEmpty, Coalesced, PidsDistintos;
    match e
    case GuardarContexto(pid, r) =>
      GuardarPendienteOk(s, t, c.segMax, pid, r);
    case PedirSegmento(p, r) =>
      var u, res :| CrearStep(s, u, c.segMax, c.peor, p.pid, p.id, p.tamanio, res)
        && t == (if res == Compactar then u.(pendiente := Some(p)) else u);
      CrearPendienteOk(s, u, c, p, res);
    case FinCompactacion(p, ok) =>
      FinCompactacionResponde(s, t, c.segMax, c.peor, if p.None? then None else Some(ok));
    case RegistrarStick(contenido, ok) =>
      RegistrarPendienteOk(s, t, c.segMax, contenido, ok);
    case _ =>
  }

  lemma {:induction false} CorridaPendienteOk(c: Config, ss: seq<Km>, es: seq<Evento>, i: nat)
    requires Corrida(c, ss, es) && Inv(ss[0]) && PendienteOk(ss[0], c.segMax) && c.segMax <= I32_MAX && i < |ss|
    requires forall j :: 0 <= j < |es| ==> Ordenado(ss[j], es[j])
    ensures PendienteOk(ss[i], c.segMax)
  {
    if i > 0 {
      CorridaPendienteOk(c, ss, es, i - 1);
      CorridaInv(c, ss, es, i - 1);
      PasoPendienteOk(c, ss[i - 1], es[i - 1], ss[i]);
    }
  }

  /** In every run in which requests keep that order, a deferred CREAR_SEGMENTO is answered with the segment, never with an error; KmJunto shows that they do. */
  lemma SiempreResponde(c: Config, ss: seq<Km>, es: seq<Evento>, i: nat)
    requires Corrida(c, ss, es) && ss[0] == INICIAL && c.segMax <= I32_MAX && i < |es|
    requires forall j :: 0 <= j < |es| ==> Ordenado(ss[j], es[j])
    requires es[i].FinCompactacion? && es[i].pendiente.Some?
    ensures es[i].ok && Agrega(Vista(ss[i], es[i].pendiente.value.pid), Vista(ss[i + 1], es[i].pendiente.value.pid),
                               es[i].pendiente.value.id, es[i].pendiente.value.tamanio)
  {
    InicialInv();
    CorridaInv(c, ss, es, i);
    CorridaPendienteOk(c, ss, es, i);
    assert Paso(c, ss[i], es[i], ss[i + 1]);
    FinCompactacionResponde(ss[i], ss[i + 1], c.segMax, c.peor, Some(es[i].ok));
    PasoRefina(c, ss[i], es[i], ss[i + 1]);
    assert PasoSimple(c, es[i], es[i].pendiente.value.pid,
                      Vista(ss[i], es[i].pendiente.value.pid), Vista(ss[i + 1], es[i].pendiente.value.pid));
  }

  // ---------------------------------------------------------------- unique segment ids

  /** No two pieces share an id. */
  ghost predicate IdsUnicos(v: multiset<Pieza>) {
    forall x: Pieza, y: Pieza :: x in v && y in v && x.id == y.id ==> x == y && v[x] == 1
  }

  ghost predicate SinId(v: multiset<Pieza>, id: U32) {
    forall x: Pieza :: x in v ==> x.id != id
  }

  /**
   * A successful CREAR_SEGMENTO keeps the ids of its process unique exactly when the
   * process has no segment with that id in swap: crear_segmento only looks at the resident table.
   */
  lemma CrearIds(c: Config, s: Km, t: Km, p: Pedido, k: nat)
    requires Inv(s) && c.segMax <= I32_MAX && Buscar(s.contextos, p.pid) == Some(k)
    requires CrearStep(s, t, c.segMax, c.peor, p.pid, p.id, p.tamanio, Ok) && IdsUnicos(Contenido(s, k))
    ensures Vista(t, p.pid).Some?
    ensures IdsUnicos(Vista(t, p.pid).value) <==> SinId(multiset(EnSwap(s.disco, s.metas, p.pid)), p.id)
  {
    var z := CrearVista(s, t, c.segMax, c.peor, p.pid, p.id, p.tamanio);
    var residentes := Residentes(s.mem, s.contextos[k].segmentos);
    assert Vista(t, p.pid).value == Contenido(s, k) + multiset{z};
    forall x: Pieza | x in multiset(residentes)
      ensures x.id != p.id
    {
      var i :| 0 <= i < |residentes| && residentes[i] == x;
    }
    IdsMas(Contenido(s, k), z);
    assert Contenido(s, k) == multiset(residentes) + multiset(EnSwap(s.disco, s.metas, p.pid));
  }

  lemma IdsMas(v: multiset<Pieza>, z: Pieza)
    requires IdsUnicos(v)
    ensures IdsUnicos(v + multiset{z}) <==> SinId(v, z.id)
  {
    var w := v + multiset{z};
    assert z in w;
    if !SinId(v, z.id) {
      var x: Pieza :| x in v && x.id == z.id;
      assert x in w && w[z] == v[z] + 1;
    } else {
      forall x: Pieza, y: Pieza | x in w && y in w && x.id == y.id
        ensures x == y && w[x] == 1
      {
      }
    }
  }

  lemma IdsTrasEscribir(v: multiset<Pieza>, p: Pieza, bytes: seq<Byte>)
    requires IdsUnicos(v) && p in v
    ensures IdsUnicos(v - multiset{p} + multiset{p.(bytes := bytes)})
  {
    assert v[p] == 1;
  }
}
