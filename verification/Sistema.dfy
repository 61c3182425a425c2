/**
 * The whole system as one machine: the Kernel Scheduler, Kernel Memory behind its one
 * connection, and every CPU with the context it was given. Whatever they do to each
 * other, each process computes what it would compute alone.
 */
module Sistema {
  import opened Basics
  import opened Contexto
  import opened KmEstado
  import opened KmAsignacion
  import opened KmSwap
  import opened KmReanudar
  import opened KmOperaciones
  import opened KmCorridas
  import opened KmIdentidades
  import opened KmRastro
  import opened Mmu
  import opened CpuInstrucciones
  import opened CpuTransparencia
  import KsMutex
  import KsEstado
  import KsInvariantes
  import KsPasos
  import KsCorridas
  import KsRetornos
  import KsEfectos
  import KsCiclo
  import KsTraslados
  import KsTareas
  import KsHallazgos

  type Pid = KsEstado.Pid

  /** What the scheduler has done about the end of a burst: nothing yet, begun to create the child it asks for, or what it asks for. */
  datatype Tramite = SinAtender | EnCreacion(hijo: nat) | Atendida

  datatype Parte = Parte(fin: FinDeRafaga, tramite: Tramite)

  /** A syscall as it was made: the instruction, and the registers its parameters may name. */
  datatype Llamada = Llamada(registros: Registros, ins: Instruccion)

  datatype Sistema = Sistema(
    ks: KsEstado.Ks,
    km: Km,
    atendido: Option<Evento>,   // what Kernel Memory did for the request on the channel and the scheduler has not taken yet
    cpus: map<Pid, Copia>,      // the processes on a CPU: the table it was given and the live registers
    partes: map<Pid, Parte>,    // of the processes in EXEC, those whose burst has ended
    llamadas: map<Pid, Llamada>)   // the last syscall of each process

  datatype Movimiento =
    | Planifica(suceso: KsPasos.Suceso)
    | Rechaza(pid: Pid)         // the scheduler refuses an INIT_PROC out of hand
    | Atiende(evento: Evento)   // Kernel Memory serves the scheduler
    | Crece(evento: Evento)     // a stick or a swap device connects
    | Restaura(pid: Pid)        // a CPU asks for the context of the process it was given
    | Ejecuta(pid: Pid)         // an instruction of registers or memory
    | Llama(pid: Pid)           // a syscall
    | Corta(pid: Pid, fin: FinDeRafaga)   // an interruption or a fault
    | Salva(pid: Pid)           // the CPU stores the context at the end of the burst

  /** The request a handler makes. */
  predicate Pide(t: KsEstado.Tarea, e: Evento) {
    match t
    case Creando(p) => e.CrearProceso? && e.pid == p
    case Alloc(p) => e.PedirSegmento? && e.pedido.pid == p
    case Free(p) => e.EliminarSegmento? && e.pid == p
    case Suspendiendo(p) => e.Suspender? && e.pid == p
    case Desuspendiendo(p) => e.Desuspender? && e.pid == p
    case Escribiendo(p) => e.EscribirDatos? && e.pid == p
    case Leyendo(p) => e.LeerDatos? && e.pid == p
    case Avisando(p, _) => e.Finalizar? && e.pid == p
  }

  /** What the handler goes on with, once that has been done. */
  predicate Concuerda(e: Evento, s: KsPasos.Suceso) {
    match s
    case CrearFin(p, ok) => e == CrearProceso(p, ok)
    case LecturaFin(p, ok) => e.LeerDatos? && e.pid == p && (ok ==> e.leido.Some?)
    case StdinFin(p, ok) => e.EscribirDatos? && e.pid == p && e.ok == ok
    case SuspenderFin(p, ok) => e.Suspender? && e.pid == p && e.ok == ok
    case DesuspenderFin(p, regreso) => e.Desuspender? && e.pid == p && (regreso == KsPasos.NoCabe <==> e.resultado != Restaurado)
    case AllocFin(p, ok) =>
      || (e.PedirSegmento? && e.pedido.pid == p && e.respuesta == Some(ok))
      || (e.FinCompactacion? && e.pendiente.Some? && e.pendiente.value.pid == p && e.ok == ok)
    case FreeFin(p) => e.EliminarSegmento? && e.pid == p
    case AvisoFin(p, _) => e.Finalizar? && e.pid == p
    case _ => false
  }

  /** An allocation waits for a compaction. */
  predicate Diferida(x: Sistema) {
    x.atendido.Some? && x.atendido.value.PedirSegmento? && x.atendido.value.respuesta == None
  }

  // ---------------------------------------------------------------- what the CPUs tell the scheduler

  /** The burst of `p` has ended and its context is stored. */
  predicate Volvio(x: Sistema, p: Pid) {
    p in x.partes && p !in x.cpus
  }

  predicate Llamo(x: Sistema, p: Pid, o: Opcode) {
    p in x.partes && x.partes[p].fin.Syscall? && x.partes[p].fin.ins.opcode == o
  }

  predicate Pendiente(x: Sistema, p: Pid, o: Opcode, nombre: string) {
    Llamo(x, p, o) && x.partes[p].fin.ins.parametros == [nombre] && x.partes[p].tramite == SinAtender
  }

  /** An INIT_PROC the scheduler has not looked at. */
  predicate PideHijo(x: Sistema, p: Pid) {
    Llamo(x, p, INIT_PROC) && |x.partes[p].fin.ins.parametros| == 2 && x.partes[p].tramite == SinAtender
  }

  predicate PideBloqueo(x: Sistema, p: Pid, inicio: KsPasos.Inicio) {
    match inicio
    case Iniciada => Llamo(x, p, SLEEP) || Llamo(x, p, STDIN)
    case ConLectura => Llamo(x, p, STDOUT)
    case SinInterfaz => Llamo(x, p, SLEEP) || Llamo(x, p, STDIN) || Llamo(x, p, STDOUT)
  }

  /** How the bursts end after which there is no other. */
  predicate Mortal(fin: FinDeRafaga) {
    !fin.Interrupcion? && !fin.Syscall?
  }

  /**
   * What a CPU must have said for the scheduler to take the step. A CPU stores the context
   * before it hands a process back, and the handlers wait for that before they take the
   * process out of EXEC, all but three: EXIT takes it out and never waits, and the memory
   * syscalls take it out first and wait before they ask Kernel Memory.
   */
  predicate Dicho(x: Sistema, s: KsPasos.Suceso) {
    match s
    case Termina(p) => KsPasos.Corre(x.ks, p) ==> p in x.partes && Mortal(x.partes[p].fin) && (p in x.cpus ==> x.partes[p].fin == Exit)
    case Interrumpe(p) => KsPasos.Corre(x.ks, p) ==> Volvio(x, p) && x.partes[p].fin == Interrupcion
    case Vuelve(p) =>
      KsPasos.Corre(x.ks, p) ==>
        Volvio(x, p) && x.partes[p].tramite == Atendida && (Llamo(x, p, MUTEX_CREATE) || Llamo(x, p, MUTEX_UNLOCK) || Llamo(x, p, INIT_PROC))
    case Bloquea(p, inicio) => KsPasos.Corre(x.ks, p) ==> Volvio(x, p) && PideBloqueo(x, p, inicio)
    case MutexLock(p, nombre) => KsPasos.Corre(x.ks, p) ==> Volvio(x, p) && Pendiente(x, p, MUTEX_LOCK, nombre)
    case MemPide(p, alloc) => KsPasos.Corre(x.ks, p) ==> Llamo(x, p, if alloc then MEM_ALLOC else MEM_FREE)
    case MutexCrea(p, nombre) => Pendiente(x, p, MUTEX_CREATE, nombre)
    case MutexUnlock(p, nombre) => Pendiente(x, p, MUTEX_UNLOCK, nombre)
    case CrearInicio(padre, prioridad) =>
      x.ks.proximo > 0 ==>
        && PideHijo(x, padre)
        && x.partes[padre].fin.ins.parametros[0] != ""
        && prioridad == KsMutex.AInt(ParsearUint32(x.partes[padre].fin.ins.parametros[1]))
    case TomarCanal(t) => t.Alloc? || t.Free? ==> t.pid !in x.cpus
    case Compactar(_) => Diferida(x)
    case _ => true
  }

  function Tramitada(partes: map<Pid, Parte>, p: Pid, tramite: Tramite): map<Pid, Parte> {
    if p in partes then partes[p := partes[p].(tramite := tramite)] else partes
  }

  /** The parent of `h` gets its answer; if it is a refusal its burst ends in error. */
  function Respondida(parte: Parte, h: Pid, ok: bool): Parte {
    if parte.tramite != EnCreacion(h) then parte
    else Parte(if ok then parte.fin else ErrorExecute, Atendida)
  }

  /** What remains to be heard after a step. */
  function Escuchadas(x: Sistema, s: KsPasos.Suceso): map<Pid, Parte> {
    match s
    case MutexCrea(p, _) => Tramitada(x.partes, p, Atendida)
    case MutexUnlock(p, _) => Tramitada(x.partes, p, Atendida)
    case CrearInicio(padre, _) => if x.ks.proximo > 0 then Tramitada(x.partes, padre, EnCreacion(x.ks.proximo)) else x.partes
    case CrearFin(h, ok) => map p | p in x.partes :: Respondida(x.partes[p], h, ok)
    case _ =>
      match KsRetornos.QuienSale(x.ks, s)
      case None => x.partes
      case Some(p) => x.partes - {p}
  }

  /** The processes that were on a CPU that is gone. */
  function Caidos(s: KsEstado.Ks, e: KsPasos.Suceso): set<Pid> {
    if !e.DesconectarCpu? then {}
    else match KsPasos.Huerfano(s.procs, s.exec, e.fd)
      case None => {}
      case Some(p) => {p}
  }

  // ---------------------------------------------------------------- movements

  /** The scheduler's step. */
  ghost predicate PlanificaPaso(cfg: KsEstado.Cfg, x: Sistema, s: KsPasos.Suceso, y: Sistema) {
    && KsPasos.Puede(cfg, x.ks, s) && y.ks == KsPasos.Despues(cfg, x.ks, s) && y.km == x.km && y.llamadas == x.llamadas
    && Dicho(x, s) && y.partes == Escuchadas(x, s) && y.cpus == x.cpus - Caidos(x.ks, s)
    && if KsPasos.DeMemoria(s) then x.atendido.Some? && Concuerda(x.atendido.value, s) && y.atendido == None
       else y.atendido == x.atendido
  }

  /** An INIT_PROC with no program or an invalid priority is answered with an error. */
  predicate RechazaPaso(cfg: KsEstado.Cfg, x: Sistema, p: Pid, y: Sistema) {
    && PideHijo(x, p)
    && var pedido := x.partes[p].fin.ins.parametros;
    && (pedido[0] == "" || (cfg.cmn && !(0 <= KsMutex.AInt(ParsearUint32(pedido[1])) < cfg.n)))
    && y == x.(partes := x.partes[p := Parte(ErrorExecute, Atendida)])
  }

  /** The request carries the parameters of the process' syscall. */
  predicate Segun(llamadas: map<Pid, Llamada>, e: Evento) {
    match e
    case PedirSegmento(q, _) =>
      && q.pid in llamadas
      && var ins := llamadas[q.pid].ins;
      ins.opcode == MEM_ALLOC && |ins.parametros| == 2 && q.id == ParsearUint32(ins.parametros[0]) && q.tamanio == ParsearUint32(ins.parametros[1])
    case EliminarSegmento(p, id) =>
      && p in llamadas
      && var ins := llamadas[p].ins;
      ins.opcode == MEM_FREE && |ins.parametros| == 1 && id == ParsearUint32(ins.parametros[0])
    case LeerDatos(p, dir, n, _) => p in llamadas && llamadas[p].ins.opcode == STDOUT && Consola(llamadas[p], dir, n)
    case EscribirDatos(p, dir, datos, _) => p in llamadas && llamadas[p].ins.opcode == STDIN && Consola(llamadas[p], dir, |datos|)
    case _ => true
  }

  /** The registers of a console call hold the logical address and the size. */
  predicate Consola(l: Llamada, dir: U32, n: nat) {
    var ps := l.ins.parametros;
    |ps| == 2 && LeerRegistro(l.registros, ps[0]) == Some(dir) && LeerRegistro(l.registros, ps[1]) == Some(n)
  }

  /** Kernel Memory serves the request on the channel, or compacts when it is told to. */
  ghost predicate AtiendePaso(c: Config, x: Sistema, e: Evento, y: Sistema) {
    && Paso(c, x.km, e, y.km) && y == x.(km := y.km, atendido := Some(e))
    && if e.FinCompactacion? then Diferida(x) && x.ks.fase.FinEnviado?
       else x.atendido == None && x.ks.canal.Some? && Pide(x.ks.canal.value, e) && Segun(x.llamadas, e)
  }

  ghost predicate CrecePaso(c: Config, x: Sistema, e: Evento, y: Sistema) {
    (e.RegistrarStick? || e.IdentificarSwap?) && Paso(c, x.km, e, y.km) && y == x.(km := y.km)
  }

  ghost predicate RestauraPaso(x: Sistema, p: Pid, y: Sistema) {
    && p in x.ks.exec && p !in x.cpus && p !in x.partes && Buscar(x.km.contextos, p).Some?
    && y == x.(cpus := x.cpus[p := Copia(TablaDe(x.km, p), RegistrosDe(x.km, p).value)])
  }

  /** `p` is in the middle of a burst. */
  predicate EnRafaga(x: Sistema, p: Pid) {
    p in x.cpus && p in x.ks.exec && p !in x.partes
  }

  /** One instruction, on physical memory through the table the CPU was given. */
  ghost predicate EjecutaPaso(c: Config, prog: U32 -> Instruccion, x: Sistema, p: Pid, y: Sistema) {
    && EnRafaga(x, p) && p in y.cpus
    && EjecutarPaso(c, prog, Mundo(x.km, Some(x.cpus[p])), Mundo(y.km, Some(y.cpus[p])))
    && y == x.(km := y.km, cpus := x.cpus[p := y.cpus[p]])
  }

  /** A syscall ends the burst, with the program counter past it; if its parameters are wrong nothing is asked for. */
  ghost predicate LlamaPaso(prog: U32 -> Instruccion, x: Sistema, p: Pid, y: Sistema) {
    && EnRafaga(x, p)
    && var ins, q := prog(x.cpus[p].registros.pc), AvanzarPc(x.cpus[p].registros);
    && EsSyscallOExit(ins.opcode)
    && y == x.(cpus := x.cpus[p := x.cpus[p].(registros := q)],
               partes := x.partes[p := Parte(FinDeSyscall(q, ins), SinAtender)],
               llamadas := x.llamadas[p := Llamada(q, ins)])
  }

  /** Why a burst ends between two instructions. A failure of a socket ends it in error too, and an interruption can come at any time. */
  ghost predicate Corte(c: Config, prog: U32 -> Instruccion, mem: seq<Byte>, w: Copia, fin: FinDeRafaga) {
    match fin
    case ErrorDecode => prog(w.registros.pc).opcode == UNKNOWN
    case SegFault => 0 < c.segMax <= U32_MAX && PasoCpu(Fisica(w.segs, c.segMax), mem, w.registros, prog(w.registros.pc)).res == CpuSegFault
    case _ => fin == Interrupcion || fin == ErrorFetch || fin == ErrorExecute
  }

  ghost predicate CortaPaso(c: Config, prog: U32 -> Instruccion, x: Sistema, p: Pid, fin: FinDeRafaga, y: Sistema) {
    && EnRafaga(x, p) && Corte(c, prog, x.km.mem, x.cpus[p], fin)
    && y == x.(partes := x.partes[p := Parte(fin, SinAtender)])
  }

  /** The context is stored once the burst is over; after an INIT_PROC, not before its answer. */
  ghost predicate SalvaPaso(x: Sistema, p: Pid, y: Sistema) {
    && p in x.cpus && (p in x.ks.exec ==> p in x.partes && (Llamo(x, p, INIT_PROC) ==> x.partes[p].tramite == Atendida))
    && GuardarContextoStep(x.km, y.km, p, x.cpus[p].registros) && y == x.(km := y.km, cpus := x.cpus - {p})
  }

  /** The program of each process. */
  type Programas = Pid -> (U32 -> Instruccion)

  ghost predicate Transcurre(c: Config, cfg: KsEstado.Cfg, progs: Programas, x: Sistema, m: Movimiento, y: Sistema) {
    match m
    case Planifica(s) => PlanificaPaso(cfg, x, s, y)
    case Rechaza(p) => RechazaPaso(cfg, x, p, y)
    case Atiende(e) => AtiendePaso(c, x, e, y)
    case Crece(e) => CrecePaso(c, x, e, y)
    case Restaura(p) => RestauraPaso(x, p, y)
    case Ejecuta(p) => EjecutaPaso(c, progs(p), x, p, y)
    case Llama(p) => LlamaPaso(progs(p), x, p, y)
    case Corta(p, fin) => CortaPaso(c, progs(p), x, p, fin, y)
    case Salva(p) => SalvaPaso(x, p, y)
  }

  // ---------------------------------------------------------------- the invariant

  predicate Suspendida(a: Option<Evento>) {
    a.Some? && a.value.Suspender? && a.value.ok
  }

  predicate Restaurada(a: Option<Evento>) {
    a.Some? && a.value.Desuspender? && a.value.resultado == Restaurado
  }

  /** The processes that may have something in swap: suspended, about to be, or buried. */
  predicate Fuera(x: Sistema, p: U32) {
    && p <= 0x7FFF_FFFF && p in x.ks.procs && KsEstado.Escribiendo(p) !in x.ks.tareas
    && match x.ks.procs[p].estado
       case EXIT => true
       case SUSP_BLOCK => true
       case SUSP_READY => !(x.ks.canal == Some(KsEstado.Desuspendiendo(p)) && Restaurada(x.atendido))
       case BLOCK => x.ks.canal == Some(KsEstado.Suspendiendo(p)) && Suspendida(x.atendido)
       case _ => false
  }

  predicate EnSwapOk(x: Sistema) {
    forall m :: m in x.km.metas ==> Fuera(x, m.pid)
  }

  /** The one request on the channel, what has been done for it, and what waits for a compaction. */
  predicate CanalOk(x: Sistema) {
    && (x.atendido.Some? ==> x.ks.canal.Some? && (x.atendido.value.FinCompactacion? || Pide(x.ks.canal.value, x.atendido.value)))
    && (x.km.pendiente.Some? ==> Diferida(x) && x.km.pendiente == Some(x.atendido.value.pedido))
  }

  /**
   * A process on a CPU is in EXEC, or was a moment ago and its memory syscall has not been
   * asked for yet, and the table it runs with is its table; or it has made its last syscall.
   */
  ghost predicate EnCpu(x: Sistema, p: Pid) {
    && p in x.cpus && p in x.ks.procs
    && (x.ks.procs[p].estado == KsEstado.EXIT || Vivo(x, p))
  }

  ghost predicate Vivo(x: Sistema, p: Pid)
    requires p in x.cpus && p in x.ks.procs
  {
    && x.ks.procs[p].estado == KsEstado.EXEC && Buscar(x.km.contextos, p).Some?
    && (p in x.ks.exec ==> x.cpus[p].segs == TablaDe(x.km, p))
    && (p !in x.ks.exec ==> x.ks.canal != Some(KsEstado.Alloc(p)) && x.ks.canal != Some(KsEstado.Free(p)))
  }

  ghost predicate CpusOk(x: Sistema) {
    forall p :: p in x.cpus ==> EnCpu(x, p)
  }

  predicate PartesOk(x: Sistema) {
    forall p :: p in x.partes ==> p in x.ks.exec
  }

  ghost predicate Firme(cfg: KsEstado.Cfg, x: Sistema) {
    && KsInvariantes.Inv(cfg, x.ks, None, 0) && KsTareas.AvisosOk(x.ks) && KsRetornos.Limpia(x.ks)
    && Inv(x.km) && TodosUnicos(x.km)
    && EnSwapOk(x) && CanalOk(x) && CpusOk(x) && PartesOk(x)
  }

  // ---------------------------------------------------------------- the scheduler moves

  /** A request on the channel that holds its process: where the process is, and that it is nowhere else. */
  lemma EnCanal(cfg: KsEstado.Cfg, s: KsEstado.Ks)
    requires KsInvariantes.Inv(cfg, s, None, 0) && s.canal.Some? && KsInvariantes.Titular(s.canal.value).Some?
    ensures var t := s.canal.value;
            && t in s.tareas && t.pid in s.procs && KsInvariantes.EstadoDeTarea(t, s.procs[t.pid].estado)
            && (forall e :: t.pid !in KsEstado.Cola(s, e))
            && (forall u :: u in s.tareas && KsInvariantes.Titular(u) == Some(t.pid) ==> u == t)
  {
    CanalPendiente(cfg, s);
    hide KsInvariantes.Inv;
    KsTareas.Retenido(cfg, s, s.canal.value);
  }

  lemma CanalPendiente(cfg: KsEstado.Cfg, s: KsEstado.Ks)
    requires KsInvariantes.Inv(cfg, s, None, 0) && s.canal.Some?
    ensures s.canal.value in s.tareas
  {
    hide KsInvariantes.Lugares, KsInvariantes.Ligadura, KsInvariantes.Compactacion, KsInvariantes.NivelesOk;
  }

  lemma EnCola(cfg: KsEstado.Cfg, s: KsEstado.Ks, p: Pid, e: KsEstado.Estado)
    requires KsInvariantes.Inv(cfg, s, None, 0) && p in KsEstado.Cola(s, e)
    ensures p in s.procs && s.procs[p].estado == e
  {
    hide KsInvariantes.Inv;
    KsCorridas.Lugar(cfg, s, p);
  }

  /** The answers that can bring a process into or keep it in a suspended state. */
  lemma Acaba(cfg: KsEstado.Cfg, s: KsEstado.Ks, p: Pid)
    requires p in s.procs
    ensures KsPasos.Puede(cfg, s, KsPasos.SuspenderFin(p, true)) ==>
      var t := KsPasos.Despues(cfg, s, KsPasos.SuspenderFin(p, true)); p in t.procs && t.procs[p].estado == KsEstado.SUSP_BLOCK
    ensures KsPasos.Puede(cfg, s, KsPasos.DesuspenderFin(p, KsPasos.NoCabe)) ==>
      var t := KsPasos.Despues(cfg, s, KsPasos.DesuspenderFin(p, KsPasos.NoCabe)); p in t.procs && t.procs[p].estado == KsEstado.SUSP_READY
  {
  }

  /** A process that may have something in swap is not about to be written to. */
  lemma SinEscribir(cfg: KsEstado.Cfg, x: Sistema, s: KsPasos.Suceso, y: Sistema, p: Pid)
    requires KsInvariantes.Inv(cfg, x.ks, None, 0) && KsTareas.AvisosOk(x.ks) && PlanificaPaso(cfg, x, s, y) && Fuera(x, p)
    ensures KsEstado.Escribiendo(p) !in y.ks.tareas
  {
    hide KsInvariantes.Inv, KsPasos.Despues, KsPasos.Puede, Dicho, Escuchadas, Caidos;
    KsTareas.Tareas(cfg, x.ks, s);
    if KsTraslados.Ordena(x.ks, s, p) {
      if s.StdinDatos? {
        EnCola(cfg, x.ks, p, KsEstado.BLOCK);
        EnCanal(cfg, x.ks);
      } else {
        CanalDe(cfg, x.ks, s);
        EnCanal(cfg, x.ks);
      }
    }
  }

  /** The request an answer is for. */
  lemma CanalDe(cfg: KsEstado.Cfg, ks: KsEstado.Ks, s: KsPasos.Suceso)
    requires KsPasos.Puede(cfg, ks, s) && KsPasos.DeMemoria(s)
    ensures ks.canal.Some? && ks.canal.value.pid == s.pid
    ensures match s
      case CrearFin(p, _) => ks.canal.value == KsEstado.Creando(p)
      case LecturaFin(p, _) => ks.canal.value == KsEstado.Leyendo(p)
      case StdinFin(p, _) => ks.canal.value == KsEstado.Escribiendo(p)
      case SuspenderFin(p, _) => ks.canal.value == KsEstado.Suspendiendo(p)
      case DesuspenderFin(p, _) => ks.canal.value == KsEstado.Desuspendiendo(p)
      case AllocFin(p, _) => ks.canal.value == KsEstado.Alloc(p)
      case FreeFin(p) => ks.canal.value == KsEstado.Free(p)
      case AvisoFin(p, debe) => ks.canal.value == KsEstado.Avisando(p, debe)
      case _ => true
  {
  }

  lemma ToCanal(cfg: KsEstado.Cfg, ks: KsEstado.Ks, s: KsPasos.Suceso)
    requires KsPasos.Puede(cfg, ks, s) && s.TomarCanal?
    ensures ks.canal == None && s.tarea in ks.tareas
  {
  }

  /** The channel after a step of the scheduler, and what has been done for it. */
  lemma CanalTras(cfg: KsEstado.Cfg, x: Sistema, s: KsPasos.Suceso, y: Sistema)
    requires KsInvariantes.Inv(cfg, x.ks, None, 0) && KsTareas.AvisosOk(x.ks) && CanalOk(x) && PlanificaPaso(cfg, x, s, y)
    ensures KsTareas.AvisosOk(y.ks) && CanalOk(y)
    ensures y.ks.canal == (if KsPasos.DeMemoria(s) then None else if s.TomarCanal? then Some(s.tarea) else x.ks.canal)
    ensures KsPasos.DeMemoria(s) || s.TomarCanal? ==> y.atendido == None
    ensures !KsPasos.DeMemoria(s) ==> y.atendido == x.atendido
  {
    hide KsInvariantes.Inv, KsPasos.Despues, KsPasos.Puede, Dicho, Escuchadas, Caidos;
    KsTareas.Tareas(cfg, x.ks, s);
    if s.TomarCanal? {
      ToCanal(cfg, x.ks, s);
    }
  }

  /** A process the step cannot reach stays where it may have something in swap. */
  lemma FueraQuieta(cfg: KsEstado.Cfg, x: Sistema, s: KsPasos.Suceso, y: Sistema, p: Pid)
    requires KsInvariantes.Inv(cfg, x.ks, None, 0) && KsTareas.AvisosOk(x.ks) && CanalOk(x) && PlanificaPaso(cfg, x, s, y)
    requires Fuera(x, p) && !KsCiclo.Alcanza(x.ks, s, p)
    ensures Fuera(y, p)
  {
    hide KsInvariantes.Inv, KsPasos.Despues, KsPasos.Puede, Dicho, Escuchadas, Caidos;
    SinEscribir(cfg, x, s, y, p);
    CanalTras(cfg, x, s, y);
    KsCiclo.Quieto(cfg, x.ks, s, p);
    if KsPasos.DeMemoria(s) {
      CanalDe(cfg, x.ks, s);
    } else if s.TomarCanal? {
      ToCanal(cfg, x.ks, s);
    }
  }

  lemma FueraAlcanzada(cfg: KsEstado.Cfg, x: Sistema, s: KsPasos.Suceso, y: Sistema, p: Pid)
    requires KsInvariantes.Inv(cfg, x.ks, None, 0) && KsTareas.AvisosOk(x.ks) && CanalOk(x) && PlanificaPaso(cfg, x, s, y)
    requires Fuera(x, p) && KsCiclo.Alcanza(x.ks, s, p)
    ensures Fuera(y, p)
  {
    hide KsInvariantes.Inv, KsPasos.Despues, KsPasos.Puede, KsEstado.Listos, Dicho, Escuchadas, Caidos;
    SinEscribir(cfg, x, s, y, p);
    CanalTras(cfg, x, s, y);
    FueraDeColas(cfg, x, p);
    if p in x.ks.suspBlock {
      DeSuspBlock(cfg, x, s, y, p);
    } else {
      CanalDe(cfg, x.ks, s);
      EnCanal(cfg, x.ks);
      Acaba(cfg, x.ks, p);
    }
  }

  lemma FueraDeColas(cfg: KsEstado.Cfg, x: Sistema, p: Pid)
    requires KsInvariantes.Inv(cfg, x.ks, None, 0) && Fuera(x, p)
    ensures p !in x.ks.exec && p !in KsEstado.Listos(x.ks.ready) && p !in x.ks.block
  {
    hide KsInvariantes.Inv, KsEstado.Listos;
    KsCorridas.Lugar(cfg, x.ks, p);
    assert p in x.ks.exec ==> p in KsEstado.Cola(x.ks, KsEstado.EXEC);
    assert p in KsEstado.Listos(x.ks.ready) ==> p in KsEstado.Cola(x.ks, KsEstado.READY);
    assert p in x.ks.block ==> p in KsEstado.Cola(x.ks, KsEstado.BLOCK);
    if p in x.ks.block {
      EnCanal(cfg, x.ks);
    }
  }

  /** A process in SUSP_BLOCK goes to SUSP_READY or ends. */
  lemma DeSuspBlock(cfg: KsEstado.Cfg, x: Sistema, s: KsPasos.Suceso, y: Sistema, p: Pid)
    requires KsInvariantes.Inv(cfg, x.ks, None, 0) && KsTareas.AvisosOk(x.ks) && CanalOk(x) && PlanificaPaso(cfg, x, s, y)
    requires p in x.ks.suspBlock && KsEstado.Escribiendo(p) !in y.ks.tareas
    ensures Fuera(y, p)
  {
    hide KsEfectos.Tabla, KsEstado.Listos, KsInvariantes.Inv, KsPasos.Despues, KsPasos.Puede, Dicho, Escuchadas, Caidos;
    CanalTras(cfg, x, s, y);
    EnCola(cfg, x.ks, p, KsEstado.SUSP_BLOCK);
    if KsPasos.DeMemoria(s) {
      CanalDe(cfg, x.ks, s);
    }
    if x.ks.canal.Some? && KsInvariantes.Titular(x.ks.canal.value) == Some(p) {
      EnCanal(cfg, x.ks);
    }
    var q, b := KsCiclo.UnaTransicion(cfg, x.ks, s);
    KsCiclo.PasoPersiste(cfg, x.ks, s, p);
  }

  /** A process on a CPU that runs: it goes on running, or has just made a memory syscall or its last one. */
  lemma CorreTras(cfg: KsEstado.Cfg, x: Sistema, s: KsPasos.Suceso, y: Sistema, p: Pid)
    requires KsInvariantes.Inv(cfg, x.ks, None, 0) && KsInvariantes.Inv(cfg, y.ks, None, 0) && KsTareas.AvisosOk(x.ks) && CanalOk(x)
    requires PlanificaPaso(cfg, x, s, y) && EnCpu(x, p) && p in x.ks.exec && p in y.cpus
    ensures EnCpu(y, p)
  {
    hide KsInvariantes.Inv, KsPasos.Despues, KsPasos.Puede, Dicho;
    assert p in KsEstado.Cola(x.ks, KsEstado.EXEC);
    EnCola(cfg, x.ks, p, KsEstado.EXEC);
    if p in y.ks.exec {
      EnCola(cfg, y.ks, p, KsEstado.EXEC);
    } else {
      Sale(cfg, x, s, y, p);
      if s.Termina? {
        TerminaTras(cfg, x.ks, p);
      } else {
        PideTras(cfg, x.ks, s, p);
        CanalTras(cfg, x, s, y);
        if x.ks.canal.Some? && KsInvariantes.Titular(x.ks.canal.value) == Some(p) {
          EnCanal(cfg, x.ks);
        }
      }
    }
  }

  /** The only ways out of EXEC while still on a CPU. */
  lemma Sale(cfg: KsEstado.Cfg, x: Sistema, s: KsPasos.Suceso, y: Sistema, p: Pid)
    requires PlanificaPaso(cfg, x, s, y) && p in x.ks.exec && p in x.ks.procs && p in y.cpus && p !in y.ks.exec
    ensures s == KsPasos.Termina(p) || (s.MemPide? && s.pid == p)
  {
    hide KsPasos.Despues, KsPasos.Puede, Escuchadas, Concuerda;
    KsRetornos.Devueltas(cfg, x.ks, s);
  }

  lemma TerminaTras(cfg: KsEstado.Cfg, s: KsEstado.Ks, p: Pid)
    requires KsInvariantes.Inv(cfg, s, None, 0) && KsPasos.Puede(cfg, s, KsPasos.Termina(p)) && KsPasos.Corre(s, p)
    ensures var t := KsPasos.Despues(cfg, s, KsPasos.Termina(p)); p in t.procs && t.procs[p].estado == KsEstado.EXIT
  {
    hide KsInvariantes.Inv, KsPasos.Despues, KsPasos.Puede;
    KsCiclo.PasoPersiste(cfg, s, KsPasos.Termina(p), p);
    var q, b := KsCiclo.UnaTransicion(cfg, s, KsPasos.Termina(p));
  }

  lemma PideTras(cfg: KsEstado.Cfg, s: KsEstado.Ks, e: KsPasos.Suceso, p: Pid)
    requires KsInvariantes.Inv(cfg, s, None, 0) && KsPasos.Puede(cfg, s, e) && e.MemPide? && p in s.procs
    ensures var t := KsPasos.Despues(cfg, s, e); p in t.procs && t.procs[p].estado == s.procs[p].estado
  {
    hide KsInvariantes.Inv, KsPasos.Despues, KsPasos.Puede;
    KsCiclo.PasoPersiste(cfg, s, e, p);
    var q, b := KsCiclo.UnaTransicion(cfg, s, e);
  }

  /** A process that has left EXEC for a memory syscall and whose CPU has not stored the context yet waits. */
  lemma EsperaTras(cfg: KsEstado.Cfg, x: Sistema, s: KsPasos.Suceso, y: Sistema, p: Pid)
    requires KsInvariantes.Inv(cfg, x.ks, None, 0) && KsTareas.AvisosOk(x.ks) && CanalOk(x) && PlanificaPaso(cfg, x, s, y)
    requires EnCpu(x, p) && p !in x.ks.exec && x.ks.procs[p].estado == KsEstado.EXEC && p in y.cpus
    ensures EnCpu(y, p) && p !in y.ks.exec
  {
    hide KsInvariantes.Inv, KsPasos.Despues, KsPasos.Puede, KsEstado.Listos, Dicho, Escuchadas, Caidos;
    CanalTras(cfg, x, s, y);
    if s.TomarCanal? {
      NoSeToma(cfg, x, s, y, p);
    }
    EsperaQuieta(cfg, x.ks, s, p);
  }

  lemma NoSeToma(cfg: KsEstado.Cfg, x: Sistema, s: KsPasos.Suceso, y: Sistema, p: Pid)
    requires PlanificaPaso(cfg, x, s, y) && s.TomarCanal? && p in x.cpus
    ensures s.tarea != KsEstado.Alloc(p) && s.tarea != KsEstado.Free(p)
  {
    hide KsPasos.Despues, KsPasos.Puede;
  }

  lemma EsperaQuieta(cfg: KsEstado.Cfg, s: KsEstado.Ks, e: KsPasos.Suceso, p: Pid)
    requires KsInvariantes.Inv(cfg, s, None, 0) && KsPasos.Puede(cfg, s, e)
    requires p in s.procs && p !in s.exec && s.procs[p].estado == KsEstado.EXEC && s.canal != Some(KsEstado.Alloc(p)) && s.canal != Some(KsEstado.Free(p))
    ensures var t := KsPasos.Despues(cfg, s, e); p in t.procs && t.procs[p].estado == KsEstado.EXEC && p !in t.exec
  {
    hide KsInvariantes.Inv, KsPasos.Despues, KsPasos.Puede, KsEstado.Listos;
    KsCorridas.Lugar(cfg, s, p);
    assert p in KsEstado.Listos(s.ready) ==> p in KsEstado.Cola(s, KsEstado.READY);
    assert p in s.block ==> p in KsEstado.Cola(s, KsEstado.BLOCK);
    assert p in s.suspBlock ==> p in KsEstado.Cola(s, KsEstado.SUSP_BLOCK);
    if KsPasos.DeMemoria(e) {
      CanalDe(cfg, s, e);
      if KsInvariantes.Titular(s.canal.value) == Some(p) {
        EnCanal(cfg, s);
      }
    }
    KsCiclo.Quieto(cfg, s, e, p);
    if p in KsPasos.Despues(cfg, s, e).exec {
      KsCiclo.EntraEnExec(cfg, s, e, p);
    }
  }

  /** Nobody is taken out of EXEC in the middle of a burst, unless its CPU is gone. */
  lemma NadieCortado(cfg: KsEstado.Cfg, x: Sistema, s: KsPasos.Suceso, y: Sistema, p: Pid)
    requires PlanificaPaso(cfg, x, s, y) && p in x.ks.exec && p in x.ks.procs && p !in y.ks.exec
    ensures p in x.partes || p in Caidos(x.ks, s)
  {
    hide KsPasos.Despues, KsPasos.Puede, Escuchadas, Concuerda;
    KsRetornos.Devueltas(cfg, x.ks, s);
  }

  /** A process that has ended stays so. */
  lemma SigueEnterrado(cfg: KsEstado.Cfg, s: KsEstado.Ks, e: KsPasos.Suceso, p: Pid)
    requires KsInvariantes.Inv(cfg, s, None, 0) && KsPasos.Puede(cfg, s, e) && p in s.procs && s.procs[p].estado == KsEstado.EXIT
    ensures var t := KsPasos.Despues(cfg, s, e); p in t.procs && t.procs[p].estado == KsEstado.EXIT
  {
    hide KsEfectos.Tabla, KsInvariantes.Inv, KsPasos.Despues, KsPasos.Puede;
    if e.CrearFin? && e.pid == p {
      CanalDe(cfg, s, e);
      KsEfectos.EnTarea(cfg, s, KsEstado.Creando(p));
    } else {
      var q, b := KsCiclo.UnaTransicion(cfg, s, e);
      KsCiclo.PasoPersiste(cfg, s, e, p);
    }
  }

  /** Only processes in EXEC have something to be heard. */
  lemma PartesTras(cfg: KsEstado.Cfg, x: Sistema, s: KsPasos.Suceso, y: Sistema)
    requires PlanificaPaso(cfg, x, s, y) && PartesOk(x)
    ensures PartesOk(y)
  {
    hide KsPasos.Despues, KsPasos.Puede, Dicho, Concuerda, KsPasos.Huerfano;
    KsRetornos.Devueltas(cfg, x.ks, s);
  }

  lemma PlanificaFirme(cfg: KsEstado.Cfg, x: Sistema, s: KsPasos.Suceso, y: Sistema)
    requires Firme(cfg, x) && PlanificaPaso(cfg, x, s, y) && !KsRetornos.Estorba(x.ks, s)
    ensures Firme(cfg, y)
  {
    hide KsInvariantes.Inv, Inv, KsPasos.Despues, KsPasos.Puede, KsRetornos.Estorba, KsRetornos.Limpia, TodosUnicos, Fuera, EnCpu, Dicho, Escuchadas;
    KsPasos.PasoInv(cfg, x.ks, s);
    CanalTras(cfg, x, s, y);
    KsRetornos.PasoLimpia(cfg, x.ks, s);
    PartesTras(cfg, x, s, y);
    forall m | m in y.km.metas
      ensures Fuera(y, m.pid)
    {
      FueraTras(cfg, x, s, y, m.pid);
    }
    forall p | p in y.cpus
      ensures EnCpu(y, p)
    {
      CpuTras(cfg, x, s, y, p);
    }
  }

  lemma FueraTras(cfg: KsEstado.Cfg, x: Sistema, s: KsPasos.Suceso, y: Sistema, p: U32)
    requires KsInvariantes.Inv(cfg, x.ks, None, 0) && KsTareas.AvisosOk(x.ks) && CanalOk(x) && PlanificaPaso(cfg, x, s, y) && Fuera(x, p)
    ensures Fuera(y, p)
  {
    hide KsInvariantes.Inv, KsPasos.Despues, KsPasos.Puede, KsCiclo.Alcanza, Dicho, Escuchadas, Caidos;
    if KsCiclo.Alcanza(x.ks, s, p) {
      FueraAlcanzada(cfg, x, s, y, p);
    } else {
      FueraQuieta(cfg, x, s, y, p);
    }
  }

  lemma CpuTras(cfg: KsEstado.Cfg, x: Sistema, s: KsPasos.Suceso, y: Sistema, p: Pid)
    requires KsInvariantes.Inv(cfg, x.ks, None, 0) && KsInvariantes.Inv(cfg, y.ks, None, 0) && KsTareas.AvisosOk(x.ks) && CanalOk(x)
    requires PlanificaPaso(cfg, x, s, y) && EnCpu(x, p) && p in y.cpus
    ensures EnCpu(y, p)
  {
    hide KsInvariantes.Inv, KsPasos.Despues, KsPasos.Puede, Vivo, Dicho, Escuchadas;
    if x.ks.procs[p].estado == KsEstado.EXIT {
      SigueEnterrado(cfg, x.ks, s, p);
    } else if p in x.ks.exec {
      CorreTras(cfg, x, s, y, p);
    } else {
      EsEjecutando(x, p);
      EsperaTras(cfg, x, s, y, p);
    }
  }

  lemma EsEjecutando(x: Sistema, p: Pid)
    requires EnCpu(x, p) && x.ks.procs[p].estado != KsEstado.EXIT
    ensures x.ks.procs[p].estado == KsEstado.EXEC
  {
  }

  // ---------------------------------------------------------------- Kernel Memory serves

  /** A process in EXEC, running or with a memory syscall pending, has nothing in swap. */
  lemma ExecEnMemoria(x: Sistema, p: Pid)
    requires EnSwapOk(x) && p in x.ks.procs && x.ks.procs[p].estado == KsEstado.EXEC
    ensures EnMemoria(x.km, p) && EnSwap(x.km.disco, x.km.metas, p) == []
  {
    EnSwapDe(x.km.disco, x.km.metas, p);
    assert !Fuera(x, p);
    NingunaMeta(x.km.metas, p);
  }

  /** The process whose allocation Kernel Memory is carrying out is in EXEC, and nothing of it is in swap. */
  lemma AsignaEnMemoria(cfg: KsEstado.Cfg, x: Sistema, p: Pedido)
    requires Firme(cfg, x) && x.ks.canal.Some? && x.ks.canal.value.Alloc? && x.ks.canal.value.pid == p.pid
    ensures SinId(multiset(EnSwap(x.km.disco, x.km.metas, p.pid)), p.id)
  {
    hide KsInvariantes.Inv, Inv, TodosUnicos, EnSwapOk, KsRetornos.Limpia, KsTareas.AvisosOk, CpusOk;
    EnCanal(cfg, x.ks);
    ExecEnMemoria(x, p.pid);
  }

  lemma NoRepite(c: Config, cfg: KsEstado.Cfg, x: Sistema, e: Evento, y: Sistema)
    requires Firme(cfg, x) && AtiendePaso(c, x, e, y)
    ensures SinRepetir(x.km, e)
  {
    hide KsInvariantes.Inv, Inv, TodosUnicos, EnSwapOk, KsRetornos.Limpia, KsTareas.AvisosOk, CpusOk, SinId;
    if Asignada(e).Some? {
      AsignaEnMemoria(cfg, x, Asignada(e).value);
    }
  }

  /** When Kernel Memory compacts, nobody is in EXEC. */
  lemma ExecVacia(cfg: KsEstado.Cfg, s: KsEstado.Ks)
    requires KsInvariantes.Inv(cfg, s, None, 0) && KsRetornos.Limpia(s) && s.fase.FinEnviado?
    ensures s.exec == []
  {
    hide KsInvariantes.Inv;
    KsCorridas.Cuenta(cfg, s);
  }

  /** Nothing Kernel Memory does for the scheduler is about a process on a CPU that has not ended, and while one runs it does not move its segments. */
  lemma NoToca(c: Config, cfg: KsEstado.Cfg, x: Sistema, e: Evento, y: Sistema, p: Pid)
    requires Firme(cfg, x) && AtiendePaso(c, x, e, y) && p in x.cpus && p in x.ks.procs && Vivo(x, p)
    ensures !Toca(e, p) && (p in x.ks.exec ==> !Mueve(e, p)) && !Guarda(e, p)
  {
    hide KsInvariantes.Inv, Inv, TodosUnicos, EnSwapOk, KsTareas.AvisosOk, Paso;
    if e.FinCompactacion? {
      ExecVacia(cfg, x.ks);
      FinDe(c, x.km, e, y.km);
    } else {
      NoPide(cfg, x, e, p);
    }
  }

  lemma NoAfecta(c: Config, cfg: KsEstado.Cfg, x: Sistema, e: Evento, y: Sistema, p: Pid)
    requires Firme(cfg, x) && AtiendePaso(c, x, e, y) && p in x.cpus
    ensures EnCpu(x, p) && (x.ks.procs[p].estado == KsEstado.EXIT || (!Toca(e, p) && (p in x.ks.exec ==> !Mueve(e, p))))
  {
    hide KsInvariantes.Inv, Inv, TodosUnicos, EnSwapOk, CanalOk, KsRetornos.Limpia, KsTareas.AvisosOk, AtiendePaso, Toca, Mueve, Vivo;
    if x.ks.procs[p].estado != KsEstado.EXIT {
      NoToca(c, cfg, x, e, y, p);
    }
  }

  lemma FinDe(c: Config, s: Km, e: Evento, t: Km)
    requires Paso(c, s, e, t) && e.FinCompactacion?
    ensures e.pendiente == s.pendiente
  {
  }

  lemma NoPide(cfg: KsEstado.Cfg, x: Sistema, e: Evento, p: Pid)
    requires KsInvariantes.Inv(cfg, x.ks, None, 0) && KsTareas.AvisosOk(x.ks) && p in x.cpus && p in x.ks.procs && Vivo(x, p)
    requires x.ks.canal.Some? && Pide(x.ks.canal.value, e)
    ensures !Toca(e, p) && !Mueve(e, p) && !Guarda(e, p)
  {
    hide KsInvariantes.Inv;
    CanalPendiente(cfg, x.ks);
    if x.ks.canal.value.pid == p {
      if KsInvariantes.Titular(x.ks.canal.value) == Some(p) {
        assert p in x.ks.exec ==> p in KsEstado.Cola(x.ks, KsEstado.EXEC);
        EnCanal(cfg, x.ks);
      } else if x.ks.canal.value.Avisando? {
        assert p in KsEstado.Cola(x.ks, KsEstado.EXIT);
        EnCola(cfg, x.ks, p, KsEstado.EXIT);
      }
    }
  }

  lemma SwapTras(c: Config, cfg: KsEstado.Cfg, x: Sistema, e: Evento, y: Sistema, m: SwapMeta)
    requires Firme(cfg, x) && AtiendePaso(c, x, e, y) && m in y.km.metas
    ensures Fuera(y, m.pid)
  {
    hide KsInvariantes.Inv, Inv, TodosUnicos, Paso, KsRetornos.Limpia, KsTareas.AvisosOk, CpusOk;
    MetasTras(c, x.km, e, y.km, m);
    if e.Suspender? && e.ok && m.pid == e.pid {
      CanalPendiente(cfg, x.ks);
      EnCanal(cfg, x.ks);
      assert KsInvariantes.Titular(KsEstado.Escribiendo(m.pid)) == Some(m.pid);
    } else {
      assert Fuera(x, m.pid);
    }
  }

  lemma EnCpuTras(c: Config, cfg: KsEstado.Cfg, x: Sistema, e: Evento, y: Sistema, p: Pid)
    requires Inv(x.km) && c.segMax <= I32_MAX && Paso(c, x.km, e, y.km) && y.ks == x.ks && p in x.cpus && p in y.cpus && y.cpus[p] == x.cpus[p]
    requires EnCpu(x, p) && (x.ks.procs[p].estado == KsEstado.EXIT || (!Toca(e, p) && (p in x.ks.exec ==> !Mueve(e, p))))
    ensures EnCpu(y, p)
  {
    hide Inv, Paso;
    if x.ks.procs[p].estado != KsEstado.EXIT {
      PasoRefina(c, x.km, e, y.km);
      assert PasoSimple(c, e, p, Vista(x.km, p), Vista(y.km, p));
      if p in x.ks.exec {
        TablaQuieta(c, x.km, e, y.km, p);
      }
    }
  }

  lemma AtiendeFirme(c: Config, cfg: KsEstado.Cfg, x: Sistema, e: Evento, y: Sistema)
    requires Firme(cfg, x) && AtiendePaso(c, x, e, y) && c.segMax <= I32_MAX
    ensures Firme(cfg, y)
  {
    hide KsInvariantes.Inv, Inv, TodosUnicos, Paso, SinRepetir, Fuera, EnCpu, KsRetornos.Limpia, KsTareas.AvisosOk, Toca, Mueve;
    PasoRefina(c, x.km, e, y.km);
    NoRepite(c, cfg, x, e, y);
    PasoUnicos(c, x.km, e, y.km);
    if y.km.pendiente.Some? {
      PendienteTras(c, x.km, e, y.km);
    }
    forall m | m in y.km.metas
      ensures Fuera(y, m.pid)
    {
      SwapTras(c, cfg, x, e, y, m);
    }
    forall p | p in y.cpus
      ensures EnCpu(y, p)
    {
      NoAfecta(c, cfg, x, e, y, p);
      EnCpuTras(c, cfg, x, e, y, p);
    }
  }

  lemma CreceFirme(c: Config, cfg: KsEstado.Cfg, x: Sistema, e: Evento, y: Sistema)
    requires Firme(cfg, x) && CrecePaso(c, x, e, y) && c.segMax <= I32_MAX
    ensures Firme(cfg, y)
  {
    hide KsInvariantes.Inv, Inv, TodosUnicos, Paso, Fuera, EnCpu, KsRetornos.Limpia, KsTareas.AvisosOk;
    PasoRefina(c, x.km, e, y.km);
    PasoUnicos(c, x.km, e, y.km);
    if y.km.pendiente.Some? {
      PendienteTras(c, x.km, e, y.km);
    }
    forall m | m in y.km.metas
      ensures Fuera(y, m.pid)
    {
      MetasTras(c, x.km, e, y.km, m);
      FueraIgual(x, y, m.pid);
    }
    forall p | p in y.cpus
      ensures EnCpu(y, p)
    {
      EnCpuTras(c, cfg, x, e, y, p);
    }
  }

  lemma FueraIgual(x: Sistema, y: Sistema, p: U32)
    requires y.ks == x.ks && y.atendido == x.atendido && Fuera(x, p)
    ensures Fuera(y, p)
  {
  }

  // ---------------------------------------------------------------- a CPU moves

  lemma RestauraFirme(cfg: KsEstado.Cfg, x: Sistema, p: Pid, y: Sistema)
    requires Firme(cfg, x) && RestauraPaso(x, p, y)
    ensures Firme(cfg, y)
  {
    hide KsInvariantes.Inv, Inv, TodosUnicos, KsRetornos.Limpia, KsTareas.AvisosOk;
    assert p in KsEstado.Cola(x.ks, KsEstado.EXEC);
    EnCola(cfg, x.ks, p, KsEstado.EXEC);
    forall q | q in y.cpus
      ensures EnCpu(y, q)
    {
      assert q != p ==> EnCpu(x, q);
    }
    forall m | m in y.km.metas
      ensures Fuera(y, m.pid)
    {
      FueraIgual(x, y, m.pid);
    }
  }

  /** What a CPU does to its registers, and what it says, moves nothing else. */
  lemma RafagaFirme(cfg: KsEstado.Cfg, x: Sistema, p: Pid, y: Sistema)
    requires Firme(cfg, x) && p in x.ks.exec && y == x.(cpus := y.cpus, partes := y.partes, llamadas := y.llamadas)
    requires y.cpus.Keys == x.cpus.Keys && forall q :: q in x.cpus ==> y.cpus[q].segs == x.cpus[q].segs
    requires y.partes.Keys <= x.partes.Keys + {p}
    ensures Firme(cfg, y)
  {
    hide KsInvariantes.Inv, Inv, TodosUnicos, KsRetornos.Limpia, KsTareas.AvisosOk;
    forall q | q in y.cpus
      ensures EnCpu(y, q)
    {
      assert EnCpu(x, q);
    }
    forall m | m in y.km.metas
      ensures Fuera(y, m.pid)
    {
      FueraIgual(x, y, m.pid);
    }
  }

  lemma EnExec(cfg: KsEstado.Cfg, x: Sistema)
    requires Firme(cfg, x)
    ensures PartesOk(x)
  {
    hide KsInvariantes.Inv, Inv, TodosUnicos, KsRetornos.Limpia, KsTareas.AvisosOk, EnSwapOk, CanalOk, CpusOk, PartesOk;
  }

  lemma DichoFirme(c: Config, cfg: KsEstado.Cfg, progs: Programas, x: Sistema, m: Movimiento, y: Sistema)
    requires Firme(cfg, x) && Transcurre(c, cfg, progs, x, m, y) && (m.Llama? || m.Corta? || m.Rechaza?)
    ensures Firme(cfg, y)
  {
    hide Firme, Corte, FinDeSyscall, AvanzarPc, EsSyscallOExit;
    EnExec(cfg, x);
    RafagaFirme(cfg, x, m.pid, y);
  }

  lemma Corriendo(cfg: KsEstado.Cfg, x: Sistema, p: Pid)
    requires Firme(cfg, x) && p in x.cpus && p in x.ks.exec
    ensures p in x.ks.procs && Vivo(x, p)
  {
    hide KsInvariantes.Inv, Inv, TodosUnicos, EnSwapOk, CanalOk, KsRetornos.Limpia, KsTareas.AvisosOk, Vivo;
    assert EnCpu(x, p);
    assert p in KsEstado.Cola(x.ks, KsEstado.EXEC);
    EnCola(cfg, x.ks, p, KsEstado.EXEC);
  }

  /** An instruction of a running process is that instruction on its own memory, and no other process can tell. */
  lemma EjecutaIgual(c: Config, cfg: KsEstado.Cfg, prog: U32 -> Instruccion, x: Sistema, p: Pid, y: Sistema)
    requires Firme(cfg, x) && EjecutaPaso(c, prog, x, p, y)
    ensures Vista(x.km, p).Some? && Inv(y.km) && y.km == x.km.(mem := y.km.mem)
    ensures var l := PasoCpu(Logica(c.segMax), Vista(x.km, p).value, x.cpus[p].registros, prog(x.cpus[p].registros.pc));
            && y.cpus[p] == x.cpus[p].(registros := l.registros)
            && Vista(y.km, p) == Some(l.memoria) && IdsUnicos(l.memoria)
    ensures forall q: U32 :: q != p ==> Vista(y.km, q) == Vista(x.km, q)
  {
    hide KsInvariantes.Inv, Inv, KsRetornos.Limpia, KsTareas.AvisosOk, IdsUnicos, EnSwapOk, CanalOk, Contenido, Fisica, Logica;
    Corriendo(cfg, x, p);
    ExecEnMemoria(x, p);
    var k := Buscar(x.km.contextos, p).value;
    var v := Contenido(x.km, k);
    assert Vista(x.km, p) == Some(v);
    PasoIgual(x.km, k, v, c.segMax, x.cpus[p].registros, prog(x.cpus[p].registros.pc));
  }

  lemma EjecutaFirme(c: Config, cfg: KsEstado.Cfg, prog: U32 -> Instruccion, x: Sistema, p: Pid, y: Sistema)
    requires Firme(cfg, x) && EjecutaPaso(c, prog, x, p, y)
    ensures Firme(cfg, y)
  {
    hide KsInvariantes.Inv, Inv, KsRetornos.Limpia, KsTareas.AvisosOk, IdsUnicos, EjecutarPaso, Vista;
    EjecutaIgual(c, cfg, prog, x, p, y);
    forall q | q in y.cpus
      ensures EnCpu(y, q)
    {
      assert EnCpu(x, q);
    }
    forall m | m in y.km.metas
      ensures Fuera(y, m.pid)
    {
      FueraIgual(x, y, m.pid);
    }
    forall q: U32 | Vista(y.km, q).Some?
      ensures IdsUnicos(Vista(y.km, q).value)
    {
      assert q != p ==> Vista(y.km, q) == Vista(x.km, q);
    }
  }

  lemma SalvaKm(s: Km, t: Km, p: U32, r: Registros)
    requires Inv(s) && GuardarContextoStep(s, t, p, r)
    ensures Inv(t) && t.metas == s.metas && t.pendiente == s.pendiente
    ensures forall q: U32 :: Vista(t, q) == Vista(s, q) && TablaDe(t, q) == TablaDe(s, q) && Buscar(t.contextos, q) == Buscar(s.contextos, q)
    ensures forall q: U32 :: RegistrosDe(t, q) == if q == p && Buscar(s.contextos, p).Some? then Some(r) else RegistrosDe(s, q)
  {
    hide Tiled, SegmentosOk, SwapOk, Vista;
    GuardarContextoPreserva(s, t, p, r);
    if Buscar(s.contextos, p).Some? {
      PidsIguales(s.contextos, t.contextos);
    }
  }

  lemma SalvaFirme(cfg: KsEstado.Cfg, x: Sistema, p: Pid, y: Sistema)
    requires Firme(cfg, x) && SalvaPaso(x, p, y)
    ensures Firme(cfg, y)
  {
    hide KsInvariantes.Inv, Inv, KsRetornos.Limpia, KsTareas.AvisosOk, IdsUnicos, GuardarContextoStep, Vista, TablaDe;
    SalvaKm(x.km, y.km, p, x.cpus[p].registros);
    forall q | q in y.cpus
      ensures EnCpu(y, q)
    {
      assert EnCpu(x, q);
    }
    forall m | m in y.km.metas
      ensures Fuera(y, m.pid)
    {
      FueraIgual(x, y, m.pid);
    }
    forall q: U32 | Vista(y.km, q).Some?
      ensures IdsUnicos(Vista(y.km, q).value)
    {
      assert Vista(x.km, q).Some?;
    }
  }

  // ---------------------------------------------------------------- whole runs

  /** The processes are marked for a compaction while someone runs and a return is left over from the one before. */
  predicate Estorba(x: Sistema, m: Movimiento) {
    m.Planifica? && KsRetornos.Estorba(x.ks, m.suceso)
  }

  lemma TranscurreFirme(c: Config, cfg: KsEstado.Cfg, progs: Programas, x: Sistema, m: Movimiento, y: Sistema)
    requires Firme(cfg, x) && Transcurre(c, cfg, progs, x, m, y) && c.segMax <= I32_MAX && !Estorba(x, m)
    ensures Firme(cfg, y)
  {
    hide Firme, PlanificaPaso, AtiendePaso, CrecePaso, RestauraPaso, EjecutaPaso, SalvaPaso, LlamaPaso, CortaPaso, RechazaPaso;
    match m
    case Planifica(s) => PlanificaFirme(cfg, x, s, y);
    case Atiende(e) => AtiendeFirme(c, cfg, x, e, y);
    case Crece(e) => CreceFirme(c, cfg, x, e, y);
    case Restaura(p) => RestauraFirme(cfg, x, p, y);
    case Ejecuta(p) => EjecutaFirme(c, cfg, progs(p), x, p, y);
    case Salva(p) => SalvaFirme(cfg, x, p, y);
    case _ => DichoFirme(c, cfg, progs, x, m, y);
  }

  function Inicio(cfg: KsEstado.Cfg): Sistema
    requires cfg.n > 0
  {
    Sistema(KsCorridas.Inicial(cfg), INICIAL, None, map[], map[], map[])
  }

  ghost predicate Marcha(c: Config, cfg: KsEstado.Cfg, progs: Programas, xs: seq<Sistema>, ms: seq<Movimiento>) {
    && KsCorridas.CfgOk(cfg) && |xs| == |ms| + 1 && xs[0] == Inicio(cfg)
    && forall i :: 0 <= i < |ms| ==> Transcurre(c, cfg, progs, xs[i], ms[i], xs[i + 1])
  }

  lemma InicioFirme(cfg: KsEstado.Cfg)
    requires KsCorridas.CfgOk(cfg)
    ensures Firme(cfg, Inicio(cfg))
  {
    hide KsInvariantes.Inv, Inv, TodosUnicos;
    KsCorridas.InicialInv(cfg);
    InicialInv();
    InicialUnicos();
  }

  lemma {:induction false} MarchaFirme(c: Config, cfg: KsEstado.Cfg, progs: Programas, xs: seq<Sistema>, ms: seq<Movimiento>, n: nat)
    requires Marcha(c, cfg, progs, xs, ms) && c.segMax <= I32_MAX && n <= |ms|
    requires forall i :: 0 <= i < n ==> !Estorba(xs[i], ms[i])
    ensures Firme(cfg, xs[n])
  {
    hide Firme, Transcurre, Estorba;
    if n == 0 {
      InicioFirme(cfg);
    } else {
      MarchaFirme(c, cfg, progs, xs, ms, n - 1);
      TranscurreFirme(c, cfg, progs, xs[n - 1], ms[n - 1], xs[n]);
    }
  }

  /** What the scheduler does in a run of the system is a run of the scheduler: all that is proved of those holds here. */
  lemma {:induction false} MarchaKs(c: Config, cfg: KsEstado.Cfg, progs: Programas, xs: seq<Sistema>, ms: seq<Movimiento>, n: nat)
    requires Marcha(c, cfg, progs, xs, ms) && n <= |ms|
    ensures KsHallazgos.SeAlcanza(cfg, xs[n].ks)
  {
    hide KsHallazgos.SeAlcanza, Transcurre;
    if n == 0 {
      KsHallazgos.SeAlcanzaInicial(cfg);
    } else {
      MarchaKs(c, cfg, progs, xs, ms, n - 1);
      PasoKs(c, cfg, progs, xs[n - 1], ms[n - 1], xs[n]);
    }
  }

  lemma PasoKs(c: Config, cfg: KsEstado.Cfg, progs: Programas, x: Sistema, m: Movimiento, y: Sistema)
    requires KsHallazgos.SeAlcanza(cfg, x.ks) && Transcurre(c, cfg, progs, x, m, y)
    ensures KsHallazgos.SeAlcanza(cfg, y.ks)
  {
    hide KsHallazgos.SeAlcanza, KsPasos.Puede, KsPasos.Despues, Dicho, Escuchadas, Paso;
    if m.Planifica? {
      KsHallazgos.SeAlcanzaPaso(cfg, x.ks, m.suceso);
    }
  }

  /** Without queue preemption no marking is of that kind: the runs below are then all runs. */
  lemma {:induction false} SinDesalojo(c: Config, cfg: KsEstado.Cfg, progs: Programas, xs: seq<Sistema>, ms: seq<Movimiento>, n: nat)
    requires Marcha(c, cfg, progs, xs, ms) && c.segMax <= I32_MAX && n <= |ms| && !cfg.preemption
    ensures forall i :: 0 <= i < n ==> !Estorba(xs[i], ms[i])
  {
    hide Firme, Transcurre, Estorba, Marcha;
    if n > 0 {
      SinDesalojo(c, cfg, progs, xs, ms, n - 1);
      MarchaFirme(c, cfg, progs, xs, ms, n - 1);
      PasoDe(c, cfg, progs, xs, ms, n - 1);
      NoEstorba(c, cfg, progs, xs[n - 1], ms[n - 1], xs[n]);
    }
  }

  lemma PasoDe(c: Config, cfg: KsEstado.Cfg, progs: Programas, xs: seq<Sistema>, ms: seq<Movimiento>, n: nat)
    requires Marcha(c, cfg, progs, xs, ms) && n < |ms|
    ensures |xs| == |ms| + 1 && Transcurre(c, cfg, progs, xs[n], ms[n], xs[n + 1])
  {
    hide Transcurre;
  }

  lemma NoEstorba(c: Config, cfg: KsEstado.Cfg, progs: Programas, x: Sistema, m: Movimiento, y: Sistema)
    requires Firme(cfg, x) && Transcurre(c, cfg, progs, x, m, y) && !cfg.preemption
    ensures !Estorba(x, m)
  {
    hide KsInvariantes.Inv, Inv, TodosUnicos, EnSwapOk, CanalOk, CpusOk, KsPasos.Despues;
    KsRetornos.SinPreemption(cfg, x.ks);
  }

  // ---------------------------------------------------------------- each process, seen alone

  /** The state of a process: what it stores, and its registers, live if it is on a CPU. */
  ghost function Es(x: Sistema, p: Pid): Option<Solo> {
    match Vista(x.km, p)
    case None => None
    case Some(v) =>
      match RegistrosDe(x.km, p)
      case None => None
      case Some(r) => Some(Solo(if p in x.cpus then x.cpus[p].registros else r, v))
  }

  /** A process asks Kernel Memory for something that changes it: to exist, to grow, to shrink, to get STDIN bytes, to end. */
  predicate Pidio(m: Movimiento, p: Pid) {
    m.Atiende? && Toca(m.evento, p)
  }

  /** The movements that are instructions of the process. */
  predicate Instruye(m: Movimiento, p: Pid) {
    m == Ejecuta(p) || m == Llama(p)
  }

  /** The process was on a CPU that is gone. */
  predicate SeCae(x: Sistema, m: Movimiento, p: Pid) {
    m.Planifica? && p in x.cpus && p in Caidos(x.ks, m.suceso)
  }

  function MemoriaDe(v: Option<Solo>): Deposito {
    match v
    case None => None
    case Some(s) => Some(s.memoria)
  }

  /** A request as the process alone would see it: its memory changes as PasoSimple says, and its registers start at zero and stay. */
  ghost predicate SoloPide(c: Config, e: Evento, p: Pid, v: Option<Solo>, w: Option<Solo>) {
    && PasoSimple(c, e, p, MemoriaDe(v), MemoriaDe(w))
    && (w.Some? ==> w.value.registros == if v.Some? then v.value.registros else REGISTROS_CERO)
  }

  /** A step of the process alone: its own instruction, its own request, or nothing. */
  ghost predicate SoloPaso(c: Config, prog: U32 -> Instruccion, m: Movimiento, p: Pid, v: Option<Solo>, w: Option<Solo>)
    requires 0 < c.segMax <= I32_MAX
  {
    if Instruye(m, p) then v.Some? && w == Some(UnPaso(c.segMax, prog, v.value))
    else if Pidio(m, p) then SoloPide(c, m.evento, p, v, w)
    else w == v
  }

  lemma EsVista(x: Sistema, p: Pid)
    ensures MemoriaDe(Es(x, p)) == Vista(x.km, p)
  {
  }

  lemma AtiendeEs(c: Config, x: Sistema, e: Evento, y: Sistema, p: Pid)
    requires Inv(x.km) && Inv(y.km) && c.segMax <= I32_MAX && Paso(c, x.km, e, y.km) && y.cpus == x.cpus
    requires !Toca(e, p) && !Guarda(e, p)
    ensures Es(y, p) == Es(x, p)
  {
    hide Inv, Paso, Toca, PasoSimple, Vista, RegistrosDe;
    PasoRefina(c, x.km, e, y.km);
    SimpleIgual(c, e, p, Vista(x.km, p), Vista(y.km, p));
    PasoRegistros(c, x.km, e, y.km, p);
  }

  lemma SimpleIgual(c: Config, e: Evento, p: U32, v: Deposito, w: Deposito)
    requires PasoSimple(c, e, p, v, w) && !Toca(e, p)
    ensures w == v
  {
  }

  /** The requests of a process leave its registers alone; one that is created starts with zeros. */
  lemma TocaRegistros(c: Config, s: Km, e: Evento, t: Km, p: Pid)
    requires Inv(s) && Inv(t) && Paso(c, s, e, t) && Toca(e, p) && c.segMax <= I32_MAX
    ensures e.CrearProceso? ==> RegistrosDe(s, p) == None && RegistrosDe(t, p) == Some(REGISTROS_CERO)
    ensures e.Finalizar? ==> RegistrosDe(t, p) == None
    ensures !e.CrearProceso? && !e.Finalizar? ==> RegistrosDe(t, p) == RegistrosDe(s, p)
  {
    if e.CrearProceso? {
      BuscarAppend(s.contextos, Contexto(p, REGISTROS_CERO, []));
    } else if e.Finalizar? {
      hide Inv, Paso;
      PasoRefina(c, s, e, t);
      assert PasoSimple(c, e, p, Vista(s, p), Vista(t, p));
    } else {
      hide Inv, Paso;
      PasoMismosRegistros(c, s, e, t);
      PidsDe(s);
      RegistrosIguales(s, t, p);
    }
  }

  lemma PidsDe(s: Km)
    requires Inv(s)
    ensures PidsDistintos(s.contextos)
  {
  }

  /** A process that Kernel Memory creates is on no CPU. */
  lemma CreaFuera(cfg: KsEstado.Cfg, x: Sistema, p: Pid)
    requires Firme(cfg, x) && x.ks.canal == Some(KsEstado.Creando(p))
    ensures p !in x.cpus
  {
    hide KsInvariantes.Inv, Inv, TodosUnicos, KsRetornos.Limpia, KsTareas.AvisosOk, EnSwapOk, CanalOk;
    KsEfectos.EnTarea(cfg, x.ks, KsEstado.Creando(p));
    assert p in x.cpus ==> EnCpu(x, p);
  }

  lemma PidioEs(c: Config, cfg: KsEstado.Cfg, x: Sistema, e: Evento, y: Sistema, p: Pid)
    requires Firme(cfg, x) && Firme(cfg, y) && AtiendePaso(c, x, e, y) && c.segMax <= I32_MAX && Toca(e, p)
    ensures SoloPide(c, e, p, Es(x, p), Es(y, p))
  {
    hide KsInvariantes.Inv, Inv, TodosUnicos, KsRetornos.Limpia, KsTareas.AvisosOk, EnSwapOk, CanalOk, CpusOk, Paso, PasoSimple, Vista, RegistrosDe;
    PasoRefina(c, x.km, e, y.km);
    EsVista(x, p);
    EsVista(y, p);
    TocaRegistros(c, x.km, e, y.km, p);
    if e.CrearProceso? {
      CreaFuera(cfg, x, p);
    } else {
      EsRegistros(x, y, p);
    }
  }

  lemma EsRegistros(x: Sistema, y: Sistema, p: Pid)
    requires y.cpus == x.cpus && (RegistrosDe(y.km, p) == None || RegistrosDe(y.km, p) == RegistrosDe(x.km, p))
    ensures Es(y, p).Some? ==> Es(x, p).Some? && Es(y, p).value.registros == Es(x, p).value.registros
  {
  }

  lemma EjecutaEs(c: Config, cfg: KsEstado.Cfg, prog: U32 -> Instruccion, x: Sistema, q: Pid, y: Sistema, p: Pid)
    requires Firme(cfg, x) && EjecutaPaso(c, prog, x, q, y)
    ensures if q == p then Es(x, p).Some? && Es(y, p) == Some(UnPaso(c.segMax, prog, Es(x, p).value)) else Es(y, p) == Es(x, p)
  {
    hide KsInvariantes.Inv, Inv, TodosUnicos, KsRetornos.Limpia, KsTareas.AvisosOk, IdsUnicos, EnSwapOk, CanalOk, Contenido, Logica;
    EjecutaIgual(c, cfg, prog, x, q, y);
    Corriendo(cfg, x, q);
  }

  lemma LlamaEs(c: Config, cfg: KsEstado.Cfg, prog: U32 -> Instruccion, x: Sistema, q: Pid, y: Sistema, p: Pid)
    requires Firme(cfg, x) && LlamaPaso(prog, x, q, y) && 0 < c.segMax <= I32_MAX
    ensures if q == p then Es(x, p).Some? && Es(y, p) == Some(UnPaso(c.segMax, prog, Es(x, p).value)) else Es(y, p) == Es(x, p)
  {
    hide Firme, Logica, PasoCpu, EsSyscallOExit;
    Existe(cfg, x, q);
  }

  lemma Existe(cfg: KsEstado.Cfg, x: Sistema, p: Pid)
    requires Firme(cfg, x) && p in x.cpus && p in x.ks.exec
    ensures Vista(x.km, p).Some? && RegistrosDe(x.km, p).Some?
  {
    hide Firme;
    Corriendo(cfg, x, p);
  }

  lemma SalvaEs(cfg: KsEstado.Cfg, x: Sistema, q: Pid, y: Sistema, p: Pid)
    requires Firme(cfg, x) && SalvaPaso(x, q, y)
    ensures Es(y, p) == Es(x, p)
  {
    hide KsInvariantes.Inv, Inv, TodosUnicos, KsRetornos.Limpia, KsTareas.AvisosOk, EnSwapOk, CanalOk, CpusOk, GuardarContextoStep, Contenido;
    SalvaKm(x.km, y.km, q, x.cpus[q].registros);
    assert Vista(y.km, p) == Vista(x.km, p);
  }

  lemma CreceEs(c: Config, cfg: KsEstado.Cfg, x: Sistema, e: Evento, y: Sistema, p: Pid)
    requires Firme(cfg, x) && Firme(cfg, y) && CrecePaso(c, x, e, y) && c.segMax <= I32_MAX
    ensures Es(y, p) == Es(x, p)
  {
    hide KsInvariantes.Inv, Inv, TodosUnicos, KsRetornos.Limpia, KsTareas.AvisosOk, EnSwapOk, CanalOk, CpusOk, Paso, Es;
    AtiendeEs(c, x, e, y, p);
  }

  lemma AtiendeSolo(c: Config, cfg: KsEstado.Cfg, prog: U32 -> Instruccion, x: Sistema, e: Evento, y: Sistema, p: Pid)
    requires Firme(cfg, x) && Firme(cfg, y) && AtiendePaso(c, x, e, y) && 0 < c.segMax <= I32_MAX
    ensures SoloPaso(c, prog, Atiende(e), p, Es(x, p), Es(y, p))
  {
    hide KsInvariantes.Inv, Inv, TodosUnicos, KsRetornos.Limpia, KsTareas.AvisosOk, EnSwapOk, CanalOk, CpusOk, Paso, Es, SoloPide, Toca;
    if Toca(e, p) {
      PidioEs(c, cfg, x, e, y, p);
    } else {
      AtiendeEs(c, x, e, y, p);
    }
  }

  lemma PlanificaEs(cfg: KsEstado.Cfg, x: Sistema, s: KsPasos.Suceso, y: Sistema, p: Pid)
    requires PlanificaPaso(cfg, x, s, y)
    ensures !SeCae(x, Planifica(s), p) ==> Es(y, p) == Es(x, p)
    ensures SeCae(x, Planifica(s), p) && Es(x, p).Some? ==>
      RegistrosDe(x.km, p).Some? && Es(y, p) == Some(Solo(RegistrosDe(x.km, p).value, Es(x, p).value.memoria))
  {
    hide KsPasos.Despues, KsPasos.Puede, Dicho, Escuchadas, Concuerda, Vista, RegistrosDe;
  }

  /** A restored context, the end of a burst, and a refusal leave every process where it was. */
  lemma QuietoEs(c: Config, cfg: KsEstado.Cfg, progs: Programas, x: Sistema, m: Movimiento, y: Sistema, p: Pid)
    requires Transcurre(c, cfg, progs, x, m, y) && (m.Restaura? || m.Corta? || m.Rechaza?)
    ensures Es(y, p) == Es(x, p)
  {
    hide Corte, Vista, RegistrosDe;
  }

  /**
   * Whatever moves in the system, each process takes a step of its own or none at all:
   * only its own instructions, syscalls among them, and its own requests move it, and they
   * move it as they would alone. If its CPU goes away it is back at its stored registers.
   */
  lemma TranscurreEs(c: Config, cfg: KsEstado.Cfg, progs: Programas, x: Sistema, m: Movimiento, y: Sistema, p: Pid)
    requires Firme(cfg, x) && Firme(cfg, y) && Transcurre(c, cfg, progs, x, m, y) && 0 < c.segMax <= I32_MAX
    ensures !SeCae(x, m, p) ==> SoloPaso(c, progs(p), m, p, Es(x, p), Es(y, p))
    ensures SeCae(x, m, p) && Es(x, p).Some? ==>
      RegistrosDe(x.km, p).Some? && Es(y, p) == Some(Solo(RegistrosDe(x.km, p).value, Es(x, p).value.memoria))
  {
    hide Firme, PlanificaPaso, AtiendePaso, CrecePaso, RestauraPaso, EjecutaPaso, SalvaPaso, LlamaPaso, CortaPaso, RechazaPaso, Es, SoloPide, UnPaso, RegistrosDe, Caidos;
    match m
    case Planifica(s) => PlanificaEs(cfg, x, s, y, p);
    case Atiende(e) => AtiendeSolo(c, cfg, progs(p), x, e, y, p);
    case Crece(e) => CreceEs(c, cfg, x, e, y, p);
    case Ejecuta(q) => EjecutaEs(c, cfg, progs(q), x, q, y, p);
    case Llama(q) => LlamaEs(c, cfg, progs(q), x, q, y, p);
    case Salva(q) => SalvaEs(cfg, x, q, y, p);
    case _ => QuietoEs(c, cfg, progs, x, m, y, p);
  }

  function Instrucciones(ms: seq<Movimiento>, p: Pid, desde: nat, hasta: nat): nat
    requires desde <= hasta <= |ms|
    decreases hasta
  {
    if hasta == desde then 0 else Instrucciones(ms, p, desde, hasta - 1) + Bit(Instruye(ms[hasta - 1], p))
  }

  /**
   * Every process lives in the system the life it would live alone: from its creation to
   * its end, in every run, each movement is an instruction of it, a request it made, or
   * nothing to it, as long as no CPU goes away with it. The processes must not be marked for
   * a compaction while someone runs and a return is left over, which without queue
   * preemption never happens.
   */
  lemma SistemaSolo(c: Config, cfg: KsEstado.Cfg, progs: Programas, xs: seq<Sistema>, ms: seq<Movimiento>, p: Pid, n: nat)
    requires Marcha(c, cfg, progs, xs, ms) && 0 < c.segMax <= I32_MAX && n < |ms|
    requires (forall i :: 0 <= i <= n ==> !Estorba(xs[i], ms[i])) && !SeCae(xs[n], ms[n], p)
    ensures SoloPaso(c, progs(p), ms[n], p, Es(xs[n], p), Es(xs[n + 1], p))
  {
    hide Firme, Transcurre, Estorba, SeCae, SoloPaso;
    MarchaFirme(c, cfg, progs, xs, ms, n);
    MarchaFirme(c, cfg, progs, xs, ms, n + 1);
    TranscurreEs(c, cfg, progs, xs[n], ms[n], xs[n + 1], p);
  }

  /**
   * So the system is transparent: between any two moments at which a process has asked for
   * nothing that changes it, it has done the instructions its CPUs executed, syscalls
   * included, exactly as if they had run alone on its own memory, whatever the scheduler
   * did with it, on however many CPUs the others ran, wherever compactions and swaps took
   * its segments.
   */
  lemma {:induction false} SistemaTransparente(c: Config, cfg: KsEstado.Cfg, progs: Programas, xs: seq<Sistema>, ms: seq<Movimiento>,
                                               p: Pid, desde: nat, hasta: nat)
    requires Marcha(c, cfg, progs, xs, ms) && 0 < c.segMax <= I32_MAX && desde <= hasta <= |ms|
    requires forall i :: 0 <= i < hasta ==> !Estorba(xs[i], ms[i])
    requires forall i :: desde <= i < hasta ==> !Pidio(ms[i], p) && !SeCae(xs[i], ms[i], p)
    requires Es(xs[desde], p).Some?
    ensures Es(xs[hasta], p) == Some(SinCortes(c.segMax, progs(p), Es(xs[desde], p).value, Instrucciones(ms, p, desde, hasta)))
    decreases hasta
  {
    hide Marcha, Estorba, Pidio, Es, UnPaso, SeCae, SoloPide, Instruye;
    if desde < hasta {
      SistemaTransparente(c, cfg, progs, xs, ms, p, desde, hasta - 1);
      SistemaSolo(c, cfg, progs, xs, ms, p, hasta - 1);
    }
  }

  /** A process on a CPU faults, or goes on, exactly when it would alone. */
  lemma SistemaFalla(c: Config, cfg: KsEstado.Cfg, progs: Programas, xs: seq<Sistema>, ms: seq<Movimiento>, p: Pid, n: nat)
    requires Marcha(c, cfg, progs, xs, ms) && 0 < c.segMax <= I32_MAX && n <= |ms| && EnRafaga(xs[n], p)
    requires forall i :: 0 <= i < n ==> !Estorba(xs[i], ms[i])
    ensures Es(xs[n], p).Some?
    ensures var x, s := xs[n], Es(xs[n], p).value;
            var ins := progs(p)(s.registros.pc);
            PasoCpu(Fisica(x.cpus[p].segs, c.segMax), x.km.mem, x.cpus[p].registros, ins).res == PasoCpu(Logica(c.segMax), s.memoria, s.registros, ins).res
  {
    hide Transcurre, Estorba, KsInvariantes.Inv, Inv, KsRetornos.Limpia, KsTareas.AvisosOk, IdsUnicos, EnSwapOk, CanalOk, Contenido, Fisica, Logica;
    var x := xs[n];
    MarchaFirme(c, cfg, progs, xs, ms, n);
    Corriendo(cfg, x, p);
    ExecEnMemoria(x, p);
    var k := Buscar(x.km.contextos, p).value;
    var v := Contenido(x.km, k);
    assert Vista(x.km, p) == Some(v);
    PasoIgual(x.km, k, v, c.segMax, x.cpus[p].registros, progs(p)(x.cpus[p].registros.pc));
  }

  /** Segment ids stay unique: the scheduler never allocates for a process that has anything in swap. */
  lemma SistemaUnicos(c: Config, cfg: KsEstado.Cfg, progs: Programas, xs: seq<Sistema>, ms: seq<Movimiento>, n: nat)
    requires Marcha(c, cfg, progs, xs, ms) && c.segMax <= I32_MAX && n <= |ms|
    requires forall i :: 0 <= i < n ==> !Estorba(xs[i], ms[i])
    ensures TodosUnicos(xs[n].km)
  {
    hide Transcurre, Estorba, KsInvariantes.Inv, Inv, TodosUnicos, EnSwapOk, CanalOk, CpusOk;
    MarchaFirme(c, cfg, progs, xs, ms, n);
  }

  /** Every running process has the table its CPU runs with, all of it is in memory, and when Kernel Memory compacts nobody runs. */
  lemma SistemaQuieto(c: Config, cfg: KsEstado.Cfg, progs: Programas, xs: seq<Sistema>, ms: seq<Movimiento>, n: nat)
    requires Marcha(c, cfg, progs, xs, ms) && c.segMax <= I32_MAX && n < |ms|
    requires forall i :: 0 <= i < n ==> !Estorba(xs[i], ms[i])
    ensures forall p :: p in xs[n].cpus && p in xs[n].ks.exec ==> xs[n].cpus[p].segs == TablaDe(xs[n].km, p) && EnMemoria(xs[n].km, p)
    ensures ms[n].Atiende? && ms[n].evento.FinCompactacion? ==> xs[n].ks.exec == []
  {
    hide Estorba, KsInvariantes.Inv, Inv, TodosUnicos, EnSwapOk, CanalOk, EnMemoria;
    MarchaFirme(c, cfg, progs, xs, ms, n);
    forall p | p in xs[n].cpus && p in xs[n].ks.exec
      ensures xs[n].cpus[p].segs == TablaDe(xs[n].km, p) && EnMemoria(xs[n].km, p)
    {
      Corriendo(cfg, xs[n], p);
      ExecEnMemoria(xs[n], p);
    }
    assert Transcurre(c, cfg, progs, xs[n], ms[n], xs[n + 1]);
    if ms[n].Atiende? && ms[n].evento.FinCompactacion? {
      ExecVacia(cfg, xs[n].ks);
    }
  }
}
