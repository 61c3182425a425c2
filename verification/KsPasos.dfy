/**
 * The Kernel Scheduler as a step system. One message handler is one step, cut
 * only where it waits for Kernel Memory; the planner's gate and its dispatch,
 * compactando and the marking loop, and an answer and what its handler does
 * next are single steps too.
 */
module KsPasos {
  import opened Basics
  import opened KsMutex
  import opened KsEstado
  import opened KsInvariantes
  import opened KsHandlers
  import opened KsPlanificador

  /** How a blocking syscall starts: under way, under way once its data have been read, or with no interface to serve it. */
  datatype Inicio = Iniciada | ConLectura | SinInterfaz

  /** A desuspension: back to READY, STDIN bytes still to be written, STDIN bytes unusable, or refused. */
  datatype Regreso = Listo | PorEscribir | Inservible | NoCabe

  datatype Suceso =
    | ConectarCpu(fd: int)
    | DesconectarCpu(fd: int)
    | CrearInicio(padre: Pid, prioridad: int)
    | CrearFin(pid: Pid, ok: bool)
    | TomarCanal(tarea: Tarea)
    | PlanToma
    | PlanPasa
    | Termina(pid: Pid)
    | Interrumpe(pid: Pid)
    | Vuelve(pid: Pid)
    | Bloquea(pid: Pid, inicio: Inicio)
    | LecturaFin(pid: Pid, ok: bool)
    | IoFin(pid: Pid, sinDatos: bool)
    | StdinDatos(pid: Pid, validos: bool, vacio: bool)
    | StdinFin(pid: Pid, ok: bool)
    | SuspenderInicio(pid: Pid)
    | SuspenderFin(pid: Pid, ok: bool)
    | DesuspenderInicio(pid: Pid)
    | DesuspenderFin(pid: Pid, regreso: Regreso)
    | MemPide(pid: Pid, alloc: bool)
    | AllocFin(pid: Pid, ok: bool)
    | FreeFin(pid: Pid)
    | MutexCrea(pid: Pid, nombre: string)
    | MutexLock(pid: Pid, nombre: string)
    | MutexUnlock(pid: Pid, nombre: string)
    | AvisoFin(pid: Pid, debe: bool)
    | Compactar(pid: Pid)
    | Marca
    | Recoge
    | EnviaFin
    | Reanuda

  // ---------------------------------------------------------------- handlers

  /** EXIT, ERROR and SEG_FAULT. */
  function Terminado(s: Ks, p: Pid): Ks
    requires p in s.procs
  {
    Enterrar(SacarExec(s, p), p, true)
  }

  /** The CPU obeyed an interrupt: an evicted process keeps its place, one whose quantum ended goes to the back. */
  function Interrumpido(cfg: Cfg, s: Ks, p: Pid): Ks
    requires p in s.procs && Formado(cfg, s)
  {
    if s.procs[p].preemptado then PonerReady(cfg, Desmarcar(SacarExec(s, p), p), p, true)
    else Encolar(cfg, SacarExec(s, p), p)
  }

  /** A syscall that does not block. */
  function Devuelto(cfg: Cfg, s: Ks, p: Pid): Ks
    requires p in s.procs && Formado(cfg, s)
  {
    Encolar(cfg, Desmarcar(SacarExec(s, p), p), p)
  }

  /** SLEEP, STDOUT and STDIN. */
  function Bloqueado(s: Ks, p: Pid, inicio: Inicio): Ks
    requires p in s.procs
  {
    var t := PonerBlock(SacarExec(s, p), p);
    match inicio
    case Iniciada => t
    case ConLectura => Abrir(t, Leyendo(p))
    case SinInterfaz => Enterrar(Sacar(t, p, BLOCK), p, false)
  }

  function Leido(s: Ks, p: Pid, ok: bool): Ks {
    var t := Cerrar(s, Leyendo(p));
    if ok || p !in t.block then t else Enterrar(Sacar(t, p, BLOCK), p, false)
  }

  /** What a blocked process waited for has come. */
  function Despertado(cfg: Cfg, s: Ks, p: Pid): Ks
    requires Formado(cfg, s)
  {
    if p in s.block && p in s.procs then Encolar(cfg, Sacar(s, p, BLOCK), p)
    else if p in s.suspBlock then Poner(Sacar(s, p, SUSP_BLOCK), p, SUSP_READY)
    else s
  }

  /** An IO that can give its process nothing ends it. */
  function Malogrado(s: Ks, p: Pid): Ks {
    if p in s.block then Enterrar(Sacar(s, p, BLOCK), p, false)
    else if p in s.suspBlock then Enterrar(Sacar(s, p, SUSP_BLOCK), p, false)
    else s
  }

  /** STDIN bytes: for a resident process they are written before it wakes up, for a suspended one they are kept. */
  function ConDatos(cfg: Cfg, s: Ks, p: Pid, validos: bool, vacio: bool): Ks
    requires Formado(cfg, s)
  {
    if !validos then Malogrado(s, p)
    else if p in s.block && !vacio then Abrir(Sacar(s, p, BLOCK), Escribiendo(p))
    else Despertado(cfg, s, p)
  }

  function Escrito(cfg: Cfg, s: Ks, p: Pid, ok: bool): Ks
    requires Formado(cfg, s) && p in s.procs
  {
    var t := Cerrar(s, Escribiendo(p));
    if ok then Encolar(cfg, t, p) else Enterrar(t, p, false)
  }

  function Suspendido(s: Ks, p: Pid, ok: bool): Ks {
    Poner(Cerrar(s, Suspendiendo(p)), p, if ok then SUSP_BLOCK else BLOCK)
  }

  function Desuspendido(cfg: Cfg, s: Ks, p: Pid, regreso: Regreso): Ks
    requires Formado(cfg, s) && p in s.procs
  {
    var t := Cerrar(s, Desuspendiendo(p));
    match regreso
    case Listo => Encolar(cfg, t, p)
    case PorEscribir => Abrir(t, Escribiendo(p))
    case Inservible => Enterrar(t, p, false)
    case NoCabe => Poner(t, p, SUSP_READY)
  }

  function Creado(cfg: Cfg, s: Ks, p: Pid, ok: bool): Ks
    requires Formado(cfg, s) && p in s.procs
  {
    var t := Cerrar(s, Creando(p));
    if ok then Encolar(cfg, t, p) else Morir(t, p)
  }

  function Pidiendo(s: Ks, p: Pid, alloc: bool): Ks
    requires p in s.procs
  {
    Abrir(SacarExecMem(s, p), if alloc then Alloc(p) else Free(p))
  }

  /** The answer to MEM_ALLOC; if a compaction waited for it, it may end. */
  function Asignado(s: Ks, p: Pid, ok: bool): Ks
    requires p in s.procs
  {
    var t := Cerrar(s.(fase := if s.fase.FinEnviado? then Respondida else s.fase), Alloc(p));
    if ok then Redespachar(t, p) else Enterrar(SoltarCpu(t, p), p, true)
  }

  function Liberado(s: Ks, p: Pid): Ks {
    Redespachar(Cerrar(s, Free(p)), p)
  }

  function Bloqueando(cfg: Cfg, s: Ks, p: Pid, nombre: string): Ks
    requires p in s.procs && Formado(cfg, s)
  {
    var l := LockEn(s.mutexes, p, s.procs[p].prioridad, nombre);
    var t := Desmarcar(SacarExec(s, p), p).(mutexes := l.lista);
    if l.codigo == 0 then Encolar(cfg, t, p)
    else if l.codigo == 1 then PonerBlock(Recalcular(cfg, t, l.ownerAElevar), p)
    else Enterrar(t, p, true)
  }

  /** What MUTEX_UNLOCK does before it wakes the next owner up. */
  function Soltando(cfg: Cfg, s: Ks, p: Pid, nombre: string): Ks {
    var r := UnlockEn(s.mutexes, p, nombre);
    Recalcular(cfg, Recalcular(cfg, s.(mutexes := r.lista), p), r.sucesor)
  }

  lemma SoltandoFormado(cfg: Cfg, s: Ks, p: Pid, nombre: string)
    ensures |Soltando(cfg, s, p, nombre).ready| == |s.ready|
  {
  }

  function Desbloqueando(cfg: Cfg, s: Ks, p: Pid, nombre: string): Ks
    requires Formado(cfg, s)
  {
    var q := UnlockEn(s.mutexes, p, nombre).sucesor;
    SoltandoFormado(cfg, s, p, nombre);
    var t := Soltando(cfg, s, p, nombre);
    if 0 <= q <= INT_MAX then Despertado(cfg, t, q) else t
  }

  /** The planner's pass once the gate is open. */
  function Planificado(s: Ks): Ks {
    var i, k := PrimerNivel(s.ready), PrimeraLibre(s.cpus);
    if i.Some? && k.Some? && s.ready[i.value][0] in s.procs then Despachar(s.(plan := false), i.value, k.value)
    else s.(plan := false)
  }

  /** The process that ran on a CPU that is gone goes back to READY. */
  function Rescatado(s: Ks, p: Pid, fd: int): Ks
    requires p in s.procs
  {
    var t := SacarExecMem(s, p);
    t.(procs := t.procs[p := t.procs[p].(fd := -1)], cpus := SinCpu(s.cpus, fd))
  }

  function Huerfano(procs: map<Pid, Proceso>, exec: seq<Pid>, fd: int): (r: Option<Pid>)
    ensures r.Some? ==> r.value in exec && TieneFd(procs, r.value, fd)
    ensures r.None? ==> forall p :: p in exec ==> !TieneFd(procs, p, fd)
  {
    if exec == [] then None
    else if TieneFd(procs, exec[0], fd) then Some(exec[0])
    else Huerfano(procs, exec[1..], fd)
  }

  function Desconectado(cfg: Cfg, s: Ks, fd: int): Ks
    requires Formado(cfg, s)
  {
    match Huerfano(s.procs, s.exec, fd)
    case None => s.(cpus := SinCpu(s.cpus, fd))
    case Some(p) => Encolar(cfg, Rescatado(s, p, fd), p)
  }

  // ---------------------------------------------------------------- steps

  predicate Corre(s: Ks, p: Pid) {
    p in s.exec && p in s.procs
  }

  /** main creates PID 0 before it accepts any connection. */
  predicate Arrancado(s: Ks) {
    0 in s.procs && s.procs[0].estado != NEW
  }

  /** PID 0 is created by main with priority 0; every other process by one that runs. */
  predicate Engendra(s: Ks, padre: Pid, prioridad: int) {
    if s.proximo == 0 then prioridad == 0 else Corre(s, padre)
  }

  /** A step that can be taken: its handler is waiting, its answer can have come, its gate is open. */
  predicate Puede(cfg: Cfg, s: Ks, e: Suceso) {
    Formado(cfg, s) &&
    match e
    case ConectarCpu(fd) => fd >= 0 && Arrancado(s) && forall i :: 0 <= i < |s.cpus| ==> s.cpus[i].fd != fd
    case DesconectarCpu(fd) => fd >= 0 && forall p :: p in s.procs && s.procs[p].fd == fd ==> p in s.exec
    case CrearInicio(padre, prioridad) => s.proximo <= INT_MAX && Engendra(s, padre, prioridad) && (cfg.cmn ==> 0 <= prioridad < cfg.n)
    case CrearFin(p, _) => s.canal == Some(Creando(p)) && p in s.procs
    case TomarCanal(t) => s.canal == None && t in s.tareas
    case PlanToma => s.tokens > 0 && !s.plan
    case PlanPasa => s.plan && s.fase == Normal
    case LecturaFin(p, _) => s.canal == Some(Leyendo(p))
    case StdinFin(p, _) => s.canal == Some(Escribiendo(p)) && p in s.procs
    case SuspenderInicio(p) => p in s.block
    case SuspenderFin(p, _) => s.canal == Some(Suspendiendo(p))
    case DesuspenderInicio(p) => p in s.suspReady
    case DesuspenderFin(p, _) => s.canal == Some(Desuspendiendo(p)) && p in s.procs
    case AllocFin(p, _) => s.canal == Some(Alloc(p)) && p in s.procs && s.pedida == None && !s.fase.Marcada?
    case FreeFin(p) => s.canal == Some(Free(p))
    case AvisoFin(p, debe) => s.canal == Some(Avisando(p, debe))
    case Compactar(p) => s.canal == Some(Alloc(p)) && s.pedida == None && (s.fase == Normal || s.fase == Respondida)
    case Marca => s.pedida.Some? && s.fase == Normal
    case Recoge => s.fase.Marcada? && s.fase.faltan > 0 && s.devueltas > 0
    case EnviaFin => s.fase.Marcada? && s.fase.faltan == 0
    case Reanuda => s.fase == Respondida
    case _ => true
  }

  /** The state after a step. A CPU's message about a process that does not run changes nothing. */
  function Despues(cfg: Cfg, s: Ks, e: Suceso): Ks
    requires Puede(cfg, s, e)
  {
    match e
    case ConectarCpu(fd) => s.(cpus := s.cpus + [CpuEntry(fd, false)], tokens := s.tokens + 1)
    case DesconectarCpu(fd) => Desconectado(cfg, s, fd)
    case CrearInicio(_, prioridad) => Abrir(Nacer(s, s.proximo, prioridad), Creando(s.proximo))
    case CrearFin(p, ok) => Creado(cfg, s, p, ok)
    case TomarCanal(t) => s.(canal := Some(t))
    case PlanToma => s.(tokens := s.tokens - 1, plan := true)
    case PlanPasa => Planificado(s)
    case Termina(p) => if Corre(s, p) then Terminado(s, p) else s
    case Interrumpe(p) => if Corre(s, p) then Interrumpido(cfg, s, p) else s
    case Vuelve(p) => if Corre(s, p) then Devuelto(cfg, s, p) else s
    case Bloquea(p, inicio) => if Corre(s, p) then Bloqueado(s, p, inicio) else s
    case LecturaFin(p, ok) => Leido(s, p, ok)
    case IoFin(p, sinDatos) => if sinDatos then Malogrado(s, p) else Despertado(cfg, s, p)
    case StdinDatos(p, validos, vacio) => ConDatos(cfg, s, p, validos, vacio)
    case StdinFin(p, ok) => Escrito(cfg, s, p, ok)
    case SuspenderInicio(p) => Abrir(Sacar(s, p, BLOCK), Suspendiendo(p))
    case SuspenderFin(p, ok) => Suspendido(s, p, ok)
    case DesuspenderInicio(p) => Abrir(Sacar(s, p, SUSP_READY), Desuspendiendo(p))
    case DesuspenderFin(p, regreso) => Desuspendido(cfg, s, p, regreso)
    case MemPide(p, alloc) => if Corre(s, p) then Pidiendo(s, p, alloc) else s
    case AllocFin(p, ok) => Asignado(s, p, ok)
    case FreeFin(p) => Liberado(s, p)
    case MutexCrea(_, nombre) => s.(mutexes := CrearEn(s.mutexes, nombre))
    case MutexLock(p, nombre) => if Corre(s, p) then Bloqueando(cfg, s, p, nombre) else s
    case MutexUnlock(p, nombre) => Desbloqueando(cfg, s, p, nombre)
    case AvisoFin(p, debe) => Cerrar(s, Avisando(p, debe)).(tokens := s.tokens + Bit(debe))
    case Compactar(p) => s.(pedida := Some(p))
    case Marca => Marcar(s, s.pedida.value)
    case Recoge => s.(fase := s.fase.(faltan := s.fase.faltan - 1), devueltas := s.devueltas - 1)
    case EnviaFin => s.(fase := FinEnviado(s.fase.pid, s.fase.sobrantes))
    case Reanuda => s.(fase := Normal, tokens := s.tokens + 1)
  }

  // ---------------------------------------------------------------- each handler keeps the invariant

  lemma TerminadoInv(cfg: Cfg, s: Ks, p: Pid)
    requires Inv(cfg, s, None, 0) && Corre(s, p)
    ensures Inv(cfg, Terminado(s, p), None, 0)
  {
    hide Inv;
    SacarExecInv(cfg, s, p);
    EnterrarInv(cfg, SacarExec(s, p), p, true, 1);
  }

  /** Out of EXEC and without its mark, the process is free to go anywhere. */
  lemma FueraDeExec(cfg: Cfg, s: Ks, p: Pid)
    requires Inv(cfg, s, None, 0) && Corre(s, p)
    ensures Inv(cfg, Desmarcar(SacarExec(s, p), p), Some(p), 1) && Libre(Desmarcar(SacarExec(s, p), p), p)
    ensures s.procs[p].preemptado || SacarExec(s, p) == Desmarcar(SacarExec(s, p), p)
  {
    hide Inv;
    SacarExecInv(cfg, s, p);
    DesmarcarInv(cfg, SacarExec(s, p), p, 1);
    var t := SacarExec(s, p);
    if !s.procs[p].preemptado {
      assert t.procs[p := t.procs[p].(preemptado := false)] == t.procs;
    }
  }

  lemma InterrumpidoInv(cfg: Cfg, s: Ks, p: Pid)
    requires Inv(cfg, s, None, 0) && Corre(s, p)
    ensures Formado(cfg, s) && Inv(cfg, Interrumpido(cfg, s, p), None, 0)
  {
    hide Inv;
    FueraDeExec(cfg, s, p);
    var t := Desmarcar(SacarExec(s, p), p);
    PonerReadyInv(cfg, t, p, true, 1);
    EncolarInv(cfg, t, p, 1);
  }

  lemma DevueltoInv(cfg: Cfg, s: Ks, p: Pid)
    requires Inv(cfg, s, None, 0) && Corre(s, p)
    ensures Formado(cfg, s) && Inv(cfg, Devuelto(cfg, s, p), None, 0)
  {
    hide Inv;
    FueraDeExec(cfg, s, p);
    EncolarInv(cfg, Desmarcar(SacarExec(s, p), p), p, 1);
  }

  lemma SacarYEnterrar(cfg: Cfg, s: Ks, p: Pid, e: Estado)
    requires Inv(cfg, s, None, 0) && p in Cola(s, e) && (e == BLOCK || e == SUSP_BLOCK)
    ensures Inv(cfg, Enterrar(Sacar(s, p, e), p, false), None, 0)
  {
    hide Inv;
    SacarInv(cfg, s, p, e);
    EnterrarInv(cfg, Sacar(s, p, e), p, false, 0);
  }

  lemma BloqueadoInv(cfg: Cfg, s: Ks, p: Pid, inicio: Inicio)
    requires Inv(cfg, s, None, 0) && Corre(s, p)
    ensures Inv(cfg, Bloqueado(s, p, inicio), None, 0)
  {
    hide Inv;
    SacarExecInv(cfg, s, p);
    PonerBlockInv(cfg, SacarExec(s, p), p, 1);
    var t := PonerBlock(SacarExec(s, p), p);
    match inicio
    case Iniciada =>
    case ConLectura => AbrirNadieInv(cfg, t, Leyendo(p), 0);
    case SinInterfaz =>
      assert t.block[|s.block|] == p;
      SacarYEnterrar(cfg, t, p, BLOCK);
  }

  /** A handler that is not an allocation is never the one a compaction waits for. */
  lemma EsContestable(cfg: Cfg, s: Ks, t: Tarea)
    requires Inv(cfg, s, None, 0) && s.canal == Some(t) && !t.Alloc?
    ensures Contestable(s, t)
  {
  }

  lemma LeidoInv(cfg: Cfg, s: Ks, p: Pid, ok: bool)
    requires Inv(cfg, s, None, 0) && s.canal == Some(Leyendo(p))
    ensures Inv(cfg, Leido(s, p, ok), None, 0)
  {
    hide Inv;
    EsContestable(cfg, s, Leyendo(p));
    CerrarInv(cfg, s, Leyendo(p));
    if !ok && p in s.block {
      SacarYEnterrar(cfg, Cerrar(s, Leyendo(p)), p, BLOCK);
    }
  }

  lemma DespertadoInv(cfg: Cfg, s: Ks, p: Pid)
    requires Inv(cfg, s, None, 0) && Formado(cfg, s)
    ensures Inv(cfg, Despertado(cfg, s, p), None, 0)
  {
    hide Inv;
    if p in s.block && p in s.procs {
      SacarInv(cfg, s, p, BLOCK);
      EncolarInv(cfg, Sacar(s, p, BLOCK), p, 0);
    } else if p in s.suspBlock {
      SacarInv(cfg, s, p, SUSP_BLOCK);
      PonerInv(cfg, Sacar(s, p, SUSP_BLOCK), p, SUSP_READY, 0);
    }
  }

  lemma MalogradoInv(cfg: Cfg, s: Ks, p: Pid)
    requires Inv(cfg, s, None, 0)
    ensures Inv(cfg, Malogrado(s, p), None, 0)
  {
    hide Inv;
    if p in s.block {
      SacarYEnterrar(cfg, s, p, BLOCK);
    } else if p in s.suspBlock {
      SacarYEnterrar(cfg, s, p, SUSP_BLOCK);
    }
  }

  /** A process leaves a queue into the hands of a handler that waits. */
  lemma SacarYAbrir(cfg: Cfg, s: Ks, p: Pid, e: Estado, t: Tarea)
    requires Inv(cfg, s, None, 0) && p in Cola(s, e) && (e == BLOCK || e == SUSP_READY)
    requires Titular(t) == Some(p) && EstadoDeTarea(t, e)
    ensures Inv(cfg, Abrir(Sacar(s, p, e), t), None, 0)
  {
    hide Inv;
    SacarInv(cfg, s, p, e);
    AbrirInv(cfg, Sacar(s, p, e), p, t);
  }

  lemma ConDatosInv(cfg: Cfg, s: Ks, p: Pid, validos: bool, vacio: bool)
    requires Inv(cfg, s, None, 0) && Formado(cfg, s)
    ensures Inv(cfg, ConDatos(cfg, s, p, validos, vacio), None, 0)
  {
    hide Inv;
    MalogradoInv(cfg, s, p);
    DespertadoInv(cfg, s, p);
    if p in s.block {
      SacarYAbrir(cfg, s, p, BLOCK, Escribiendo(p));
    }
  }

  lemma EscritoInv(cfg: Cfg, s: Ks, p: Pid, ok: bool)
    requires Inv(cfg, s, None, 0) && s.canal == Some(Escribiendo(p)) && Formado(cfg, s) && p in s.procs
    ensures Inv(cfg, Escrito(cfg, s, p, ok), None, 0)
  {
    hide Inv;
    EsContestable(cfg, s, Escribiendo(p));
    CerrarInv(cfg, s, Escribiendo(p));
    var t := Cerrar(s, Escribiendo(p));
    EncolarInv(cfg, t, p, 0);
    EnterrarInv(cfg, t, p, false, 0);
  }

  lemma SuspendidoInv(cfg: Cfg, s: Ks, p: Pid, ok: bool)
    requires Inv(cfg, s, None, 0) && s.canal == Some(Suspendiendo(p))
    ensures Inv(cfg, Suspendido(s, p, ok), None, 0)
  {
    hide Inv;
    EsContestable(cfg, s, Suspendiendo(p));
    CerrarInv(cfg, s, Suspendiendo(p));
    PonerInv(cfg, Cerrar(s, Suspendiendo(p)), p, if ok then SUSP_BLOCK else BLOCK, 0);
  }

  lemma DesuspendidoInv(cfg: Cfg, s: Ks, p: Pid, regreso: Regreso)
    requires Inv(cfg, s, None, 0) && s.canal == Some(Desuspendiendo(p)) && Formado(cfg, s) && p in s.procs
    ensures Inv(cfg, Desuspendido(cfg, s, p, regreso), None, 0)
  {
    hide Inv;
    EsContestable(cfg, s, Desuspendiendo(p));
    CerrarInv(cfg, s, Desuspendiendo(p));
    var t := Cerrar(s, Desuspendiendo(p));
    match regreso
    case Listo => EncolarInv(cfg, t, p, 0);
    case PorEscribir => AbrirInv(cfg, t, p, Escribiendo(p));
    case Inservible => EnterrarInv(cfg, t, p, false, 0);
    case NoCabe => PonerInv(cfg, t, p, SUSP_READY, 0);
  }

  lemma CreadoInv(cfg: Cfg, s: Ks, p: Pid, ok: bool)
    requires Inv(cfg, s, None, 0) && s.canal == Some(Creando(p)) && Formado(cfg, s) && p in s.procs
    ensures Inv(cfg, Creado(cfg, s, p, ok), None, 0)
  {
    hide Inv;
    EsContestable(cfg, s, Creando(p));
    CerrarInv(cfg, s, Creando(p));
    var t := Cerrar(s, Creando(p));
    EncolarInv(cfg, t, p, 0);
    MorirInv(cfg, t, p);
  }

  lemma CreandoInv(cfg: Cfg, s: Ks, prioridad: int)
    requires Inv(cfg, s, None, 0) && s.proximo <= INT_MAX && (cfg.cmn ==> 0 <= prioridad < cfg.n)
    ensures Inv(cfg, Abrir(Nacer(s, s.proximo, prioridad), Creando(s.proximo)), None, 0)
  {
    hide Inv;
    NacerInv(cfg, s, s.proximo, prioridad);
    AbrirInv(cfg, Nacer(s, s.proximo, prioridad), s.proximo, Creando(s.proximo));
  }

  lemma PidiendoInv(cfg: Cfg, s: Ks, p: Pid, alloc: bool)
    requires Inv(cfg, s, None, 0) && Corre(s, p)
    ensures Inv(cfg, Pidiendo(s, p, alloc), None, 0)
  {
    hide Inv;
    SacarExecMemInv(cfg, s, p);
    AbrirInv(cfg, SacarExecMem(s, p), p, if alloc then Alloc(p) else Free(p));
  }

  lemma RespondidaInv(cfg: Cfg, s: Ks)
    requires Inv(cfg, s, None, 0) && s.fase.FinEnviado?
    ensures Inv(cfg, s.(fase := Respondida), None, 0)
  {
    hide Lugares, CpusOk, NivelesOk;
    FaseInv(cfg, s, s.(fase := Respondida));
  }

  lemma AsignadoInv(cfg: Cfg, s: Ks, p: Pid, ok: bool)
    requires Inv(cfg, s, None, 0) && s.canal == Some(Alloc(p)) && p in s.procs && s.pedida == None && !s.fase.Marcada?
    ensures Inv(cfg, Asignado(s, p, ok), None, 0)
  {
    hide Inv;
    if s.fase.FinEnviado? {
      RespondidaInv(cfg, s);
    }
    var m := s.(fase := if s.fase.FinEnviado? then Respondida else s.fase);
    assert m.procs == s.procs && (!s.fase.FinEnviado? ==> m == s);
    CerrarInv(cfg, m, Alloc(p));
    var t := Cerrar(m, Alloc(p));
    if ok {
      RedespacharInv(cfg, t, p);
    } else {
      SoltarCpuInv(cfg, t, p);
      EnterrarInv(cfg, SoltarCpu(t, p), p, true, 1);
    }
  }

  lemma LiberadoInv(cfg: Cfg, s: Ks, p: Pid)
    requires Inv(cfg, s, None, 0) && s.canal == Some(Free(p))
    ensures Inv(cfg, Liberado(s, p), None, 0)
  {
    hide Inv;
    EsContestable(cfg, s, Free(p));
    CerrarInv(cfg, s, Free(p));
    RedespacharInv(cfg, Cerrar(s, Free(p)), p);
  }

  // ---------------------------------------------------------------- mutexes

  /** No waiter has a negative priority. */
  predicate EsperasOk(mutexes: seq<MutexKs>) {
    forall i, j :: 0 <= i < |mutexes| && 0 <= j < |mutexes[i].cola| ==> 0 <= mutexes[i].cola[j].prioridad
  }

  lemma MutexesInv(cfg: Cfg, s: Ks, x: Option<Pid>, d: nat, mutexes: seq<MutexKs>)
    requires Inv(cfg, s, x, d) && (cfg.cmn ==> EsperasOk(mutexes))
    ensures Inv(cfg, s.(mutexes := mutexes), x, d)
  {
    hide Lugares, Ligadura, Compactacion;
    var t := s.(mutexes := mutexes);
    OtrosCampos(s, t, x);
    MutexesResto(cfg, s, x, mutexes);
  }

  lemma MutexesResto(cfg: Cfg, s: Ks, x: Option<Pid>, mutexes: seq<MutexKs>)
    requires Ligadura(s, x) && Compactacion(cfg, s, x)
    ensures Ligadura(s.(mutexes := mutexes), x) && Compactacion(cfg, s.(mutexes := mutexes), x)
  {
  }

  lemma EsperasNiveles(cfg: Cfg, s: Ks, x: Option<Pid>, d: nat)
    requires Inv(cfg, s, x, d) && cfg.cmn
    ensures EsperasOk(s.mutexes) && forall p :: p in s.procs ==> 0 <= s.procs[p].prioridad
  {
    hide Lugares, Ligadura, Compactacion;
  }

  lemma MutexesEsperas(mutexes: seq<MutexKs>, pid: U32, prioridad: int, nombre: string)
    requires EsperasOk(mutexes)
    ensures 0 <= prioridad ==> EsperasOk(LockEn(mutexes, pid, prioridad, nombre).lista)
    ensures EsperasOk(UnlockEn(mutexes, pid, nombre).lista) && EsperasOk(CrearEn(mutexes, nombre))
  {
  }

  lemma BloqueandoInv(cfg: Cfg, s: Ks, p: Pid, nombre: string)
    requires Inv(cfg, s, None, 0) && Corre(s, p) && Formado(cfg, s)
    ensures Inv(cfg, Bloqueando(cfg, s, p, nombre), None, 0)
  {
    hide Inv;
    FueraDeExec(cfg, s, p);
    var m := Desmarcar(SacarExec(s, p), p);
    var l := LockEn(s.mutexes, p, s.procs[p].prioridad, nombre);
    if cfg.cmn {
      EsperasNiveles(cfg, s, None, 0);
      MutexesEsperas(s.mutexes, p, s.procs[p].prioridad, nombre);
    }
    MutexesInv(cfg, m, Some(p), 1, l.lista);
    var t := m.(mutexes := l.lista);
    if l.codigo == 0 {
      EncolarInv(cfg, t, p, 1);
    } else if l.codigo == 1 {
      RecalcularInv(cfg, t, Some(p), 1, l.ownerAElevar);
      RecalcularFd(cfg, t, l.ownerAElevar, p);
      PonerBlockInv(cfg, Recalcular(cfg, t, l.ownerAElevar), p, 1);
    } else {
      EnterrarInv(cfg, t, p, true, 1);
    }
  }

  lemma RecalcularFd(cfg: Cfg, s: Ks, q: int, p: Pid)
    requires p in s.procs
    ensures p in Recalcular(cfg, s, q).procs && Recalcular(cfg, s, q).procs[p].fd == s.procs[p].fd
  {
  }

  lemma DesbloqueandoInv(cfg: Cfg, s: Ks, p: Pid, nombre: string)
    requires Inv(cfg, s, None, 0) && Formado(cfg, s)
    ensures Inv(cfg, Desbloqueando(cfg, s, p, nombre), None, 0)
  {
    hide Inv;
    var r := UnlockEn(s.mutexes, p, nombre);
    if cfg.cmn {
      EsperasNiveles(cfg, s, None, 0);
      MutexesEsperas(s.mutexes, p, 0, nombre);
    }
    var m := s.(mutexes := r.lista);
    MutexesInv(cfg, s, None, 0, r.lista);
    RecalcularInv(cfg, m, None, 0, p);
    RecalcularInv(cfg, Recalcular(cfg, m, p), None, 0, r.sucesor);
    SoltandoFormado(cfg, s, p, nombre);
    if 0 <= r.sucesor <= INT_MAX {
      DespertadoInv(cfg, Soltando(cfg, s, p, nombre), r.sucesor);
    }
  }

  lemma CreaMutexInv(cfg: Cfg, s: Ks, nombre: string)
    requires Inv(cfg, s, None, 0)
    ensures Inv(cfg, s.(mutexes := CrearEn(s.mutexes, nombre)), None, 0)
  {
    hide Inv;
    if cfg.cmn {
      EsperasNiveles(cfg, s, None, 0);
      MutexesEsperas(s.mutexes, 0, 0, nombre);
    }
    MutexesInv(cfg, s, None, 0, CrearEn(s.mutexes, nombre));
  }

  // ---------------------------------------------------------------- the planner and the CPUs

  lemma PlanificadoInv(cfg: Cfg, s: Ks)
    requires Inv(cfg, s, None, 0) && s.plan && s.fase == Normal
    ensures Inv(cfg, Planificado(s), None, 0)
  {
    hide Inv;
    var i, k := PrimerNivel(s.ready), PrimeraLibre(s.cpus);
    if i.Some? && k.Some? {
      DespacharInv(cfg, s, i.value, k.value);
    } else {
      PasarDeLargo(cfg, s);
    }
  }

  lemma RescatadoLigadura(s: Ks, p: Pid, fd: int)
    requires Ligadura(s, None) && p in s.procs && s.procs[p].fd == fd && fd >= 0
    ensures Ligadura(Rescatado(s, p, fd), Some(p)) && Libres(Rescatado(s, p, fd).cpus) <= Libres(s.cpus)
  {
    var t := Rescatado(s, p, fd);
    SinCpuMiembros(s.cpus, fd);
    SinCpuDistintas(s.cpus, fd);
    SinCpuLibres(s.cpus, fd);
    forall q | q in t.procs && t.procs[q].fd >= 0
      ensures Ocupada(t.cpus, t.procs[q].fd)
    {
      assert Ocupada(s.cpus, s.procs[q].fd);
    }
    forall f: int | Ocupada(t.cpus, f)
      ensures exists q :: TieneFd(t.procs, q, f)
    {
      assert Ocupada(s.cpus, f);
      var q :| TieneFd(s.procs, q, f);
      assert TieneFd(t.procs, q, f);
    }
  }

  lemma RescatadoResto(cfg: Cfg, s: Ks, p: Pid, fd: int)
    requires Lugares(s, None) && Compactacion(cfg, s, None) && NivelesOk(cfg, s) && p in s.exec && p in s.procs
    ensures Lugares(Rescatado(s, p, fd), Some(p)) && Compactacion(cfg, Rescatado(s, p, fd), Some(p)) && NivelesOk(cfg, Rescatado(s, p, fd))
  {
    hide Lugares, Compactacion, NivelesOk;
    var m, t := SacarExecMem(s, p), Rescatado(s, p, fd);
    SacarExecLugares(s, p);
    SacarExecCuentas(cfg, s, p);
    EnManoFuera(m, p);
    OtrosCampos(m, t, Some(p));
    EnManoCuentas(cfg, m, t, p, Some(p));
    PonerNiveles(cfg, s, t, p);
  }

  lemma DesconectadoInv(cfg: Cfg, s: Ks, fd: int)
    requires Inv(cfg, s, None, 0) && Puede(cfg, s, DesconectarCpu(fd))
    ensures Inv(cfg, Desconectado(cfg, s, fd), None, 0)
  {
    match Huerfano(s.procs, s.exec, fd)
    case None =>
      hide Inv;
      SinCpuInv(cfg, s, None, 0, fd);
    case Some(p) =>
      hide Lugares, Ligadura, Compactacion, NivelesOk;
      RescatadoLigadura(s, p, fd);
      RescatadoResto(cfg, s, p, fd);
      RescatadoTrabajo(s, p, fd);
      EncolarInv(cfg, Rescatado(s, p, fd), p, 0);
  }

  lemma RescatadoTrabajo(s: Ks, p: Pid, fd: int)
    requires TrabajoOk(s, 0) && CanalOk(s) && p in s.procs && Libres(Rescatado(s, p, fd).cpus) <= Libres(s.cpus)
    ensures TrabajoOk(Rescatado(s, p, fd), 0) && CanalOk(Rescatado(s, p, fd)) && Libre(Rescatado(s, p, fd), p)
  {
  }

  // ---------------------------------------------------------------- the handshake

  lemma RecogeInv(cfg: Cfg, s: Ks)
    requires Inv(cfg, s, None, 0) && Puede(cfg, s, Recoge)
    ensures Inv(cfg, Despues(cfg, s, Recoge), None, 0)
  {
    hide Lugares, CpusOk, NivelesOk;
    FaseInv(cfg, s, Despues(cfg, s, Recoge));
  }

  lemma EnviaFinInv(cfg: Cfg, s: Ks)
    requires Inv(cfg, s, None, 0) && Puede(cfg, s, EnviaFin)
    ensures Inv(cfg, Despues(cfg, s, EnviaFin), None, 0)
  {
    hide Lugares, CpusOk, NivelesOk;
    FaseInv(cfg, s, Despues(cfg, s, EnviaFin));
  }

  lemma ReanudaInv(cfg: Cfg, s: Ks)
    requires Inv(cfg, s, None, 0) && Puede(cfg, s, Reanuda)
    ensures Inv(cfg, Despues(cfg, s, Reanuda), None, 0)
  {
    hide Lugares, CpusOk, NivelesOk;
    FaseInv(cfg, s, Despues(cfg, s, Reanuda));
  }

  lemma CanalPasoInv(cfg: Cfg, s: Ks, e: Suceso)
    requires Inv(cfg, s, None, 0) && Puede(cfg, s, e) && (e.TomarCanal? || e.Compactar?)
    ensures Inv(cfg, Despues(cfg, s, e), None, 0)
  {
    hide Lugares, Ligadura, Compactacion, NivelesOk;
    CanalInv(cfg, s, Despues(cfg, s, e));
  }

  lemma AvisoFinInv(cfg: Cfg, s: Ks, p: Pid, debe: bool)
    requires Inv(cfg, s, None, 0) && s.canal == Some(Avisando(p, debe))
    ensures Inv(cfg, Cerrar(s, Avisando(p, debe)).(tokens := s.tokens + Bit(debe)), None, 0)
  {
    hide Inv;
    EsContestable(cfg, s, Avisando(p, debe));
    if debe {
      CerrarAvisoInv(cfg, s, p);
    } else {
      CerrarInv(cfg, s, Avisando(p, debe));
    }
  }

  predicate DeMemoria(e: Suceso) {
    e.CrearFin? || e.LecturaFin? || e.StdinFin? || e.SuspenderFin? || e.DesuspenderFin? || e.AllocFin? || e.FreeFin? || e.AvisoFin?
  }

  /** Answers of Kernel Memory. */
  lemma RespuestaInv(cfg: Cfg, s: Ks, e: Suceso)
    requires Inv(cfg, s, None, 0) && Puede(cfg, s, e) && DeMemoria(e)
    ensures Inv(cfg, Despues(cfg, s, e), None, 0)
  {
    hide Inv;
    match e
    case CrearFin(p, ok) => CreadoInv(cfg, s, p, ok);
    case LecturaFin(p, ok) => LeidoInv(cfg, s, p, ok);
    case StdinFin(p, ok) => EscritoInv(cfg, s, p, ok);
    case SuspenderFin(p, ok) => SuspendidoInv(cfg, s, p, ok);
    case DesuspenderFin(p, regreso) => DesuspendidoInv(cfg, s, p, regreso);
    case AllocFin(p, ok) => AsignadoInv(cfg, s, p, ok);
    case FreeFin(p) => LiberadoInv(cfg, s, p);
    case AvisoFin(p, debe) => AvisoFinInv(cfg, s, p, debe);
  }

  predicate DeCpu(e: Suceso) {
    e.Termina? || e.Interrumpe? || e.Vuelve? || e.Bloquea? || e.MemPide? || e.MutexCrea? || e.MutexLock? || e.MutexUnlock?
  }

  /** Messages of the CPUs. */
  lemma SyscallInv(cfg: Cfg, s: Ks, e: Suceso)
    requires Inv(cfg, s, None, 0) && Puede(cfg, s, e) && DeCpu(e)
    ensures Inv(cfg, Despues(cfg, s, e), None, 0)
  {
    hide Inv;
    match e
    case Termina(p) => if Corre(s, p) { TerminadoInv(cfg, s, p); }
    case Interrumpe(p) => if Corre(s, p) { InterrumpidoInv(cfg, s, p); }
    case Vuelve(p) => if Corre(s, p) { DevueltoInv(cfg, s, p); }
    case Bloquea(p, inicio) => if Corre(s, p) { BloqueadoInv(cfg, s, p, inicio); }
    case MemPide(p, alloc) => if Corre(s, p) { PidiendoInv(cfg, s, p, alloc); }
    case MutexCrea(_, nombre) => CreaMutexInv(cfg, s, nombre);
    case MutexLock(p, nombre) => if Corre(s, p) { BloqueandoInv(cfg, s, p, nombre); }
    case MutexUnlock(p, nombre) => DesbloqueandoInv(cfg, s, p, nombre);
  }

  /** Every step keeps the invariant. */
  lemma PasoInv(cfg: Cfg, s: Ks, e: Suceso)
    requires Inv(cfg, s, None, 0) && Puede(cfg, s, e)
    ensures Inv(cfg, Despues(cfg, s, e), None, 0)
  {
    hide Inv;
    if DeMemoria(e) {
      RespuestaInv(cfg, s, e);
    } else if DeCpu(e) {
      SyscallInv(cfg, s, e);
    } else {
      match e
      case ConectarCpu(fd) => ConectarInv(cfg, s, fd);
      case DesconectarCpu(fd) => DesconectadoInv(cfg, s, fd);
      case CrearInicio(_, prioridad) => CreandoInv(cfg, s, prioridad);
      case PlanToma => TomarTokenInv(cfg, s);
      case PlanPasa => PlanificadoInv(cfg, s);
      case IoFin(p, sinDatos) => MalogradoInv(cfg, s, p); DespertadoInv(cfg, s, p);
      case StdinDatos(p, validos, vacio) => ConDatosInv(cfg, s, p, validos, vacio);
      case SuspenderInicio(p) => SacarYAbrir(cfg, s, p, BLOCK, Suspendiendo(p));
      case DesuspenderInicio(p) => SacarYAbrir(cfg, s, p, SUSP_READY, Desuspendiendo(p));
      case Marca => MarcarInv(cfg, s, s.pedida.value);
      case Recoge => RecogeInv(cfg, s);
      case EnviaFin => EnviaFinInv(cfg, s);
      case Reanuda => ReanudaInv(cfg, s);
      case _ => CanalPasoInv(cfg, s, e);
    }
  }
}
