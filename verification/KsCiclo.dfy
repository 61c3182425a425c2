/** The life of a process: which state changes a step can bring about, what is final, and whom the planner picks. */
module KsCiclo {
  import opened Basics
  import opened KsMutex
  import opened KsEstado
  import opened KsInvariantes
  import opened KsHandlers
  import opened KsPlanificador
  import opened KsPasos
  import opened KsCorridas
  import opened KsEfectos

  // ---------------------------------------------------------------- the seven-state diagram

  predicate Arista(a: Estado, b: Estado) {
    match a
    case NEW => b == READY
    case READY => b == EXEC
    case EXEC => b == READY || b == BLOCK || b == EXIT
    case BLOCK => b == READY || b == SUSP_BLOCK || b == EXIT
    case SUSP_BLOCK => b == SUSP_READY || b == EXIT
    case SUSP_READY => b == READY || b == EXIT
    case EXIT => false
  }

  /** Process `p` is now in state `b`, and no other process that lives on has changed state. */
  predicate Cambia(s: Ks, t: Ks, p: Pid, b: Estado) {
    forall r :: r in s.procs && r in t.procs ==> t.procs[r].estado == if r == p then b else s.procs[r].estado
  }

  /** The state `p` is in, or NEW if it does not exist. */
  function EstadoDe(s: Ks, p: Pid): Estado {
    if p in s.procs then s.procs[p].estado else NEW
  }

  predicate UnaArista(s: Ks, t: Ks, p: Pid, b: Estado) {
    Cambia(s, t, p, b) && (p in s.procs && p in t.procs ==> b == s.procs[p].estado || Arista(s.procs[p].estado, b))
  }

  /** The answers that put the process a handler holds somewhere else. */
  predicate Contesta(e: Suceso) {
    e.CrearFin? || e.StdinFin? || e.SuspenderFin? || e.DesuspenderFin? || e.AllocFin?
  }

  /** The processes whose state a step can change: those that run, are ready or wait, and the one whose answer has come. */
  predicate Alcanza(s: Ks, e: Suceso, p: Pid) {
    p in s.exec || p in Listos(s.ready) || p in s.block || p in s.suspBlock || (Contesta(e) && p == e.pid)
  }

  /** The step changes the state of nobody but `p`, along an edge of the diagram, and of `p` only if it can reach it. */
  predicate Transita(s: Ks, e: Suceso, t: Ks, p: Pid, b: Estado) {
    UnaArista(s, t, p, b) && (Alcanza(s, e, p) || b == EstadoDe(s, p) || p !in s.procs)
  }

  // ---------------------------------------------------------------- every step follows the diagram

  /** The move of the table is an edge of the diagram, or none, from where the process is. */
  predicate Sigue(s: Ks, e: Suceso, m: Traslado) {
    m.Va? ==> m.pid in s.procs && (m.a == s.procs[m.pid].estado || (Arista(s.procs[m.pid].estado, m.a) && Alcanza(s, e, m.pid)))
  }

  lemma EnEstado(cfg: Cfg, s: Ks, p: Pid, e: Estado)
    requires Inv(cfg, s, None, 0) && p in Cola(s, e)
    ensures p in s.procs && s.procs[p].estado == e
  {
    hide Inv;
    Lugar(cfg, s, p);
  }

  lemma CpuSigue(cfg: Cfg, s: Ks, e: Suceso)
    requires Inv(cfg, s, None, 0) && Puede(cfg, s, e) && DeCpu(e) && !e.MutexUnlock?
    ensures Sigue(s, e, Tabla(s, e).quien)
  {
    hide Inv, Puede, Listos;
    if !e.MutexCrea? && Corre(s, e.pid) {
      EnEstado(cfg, s, e.pid, EXEC);
    }
  }

  lemma DespertarSigue(cfg: Cfg, s: Ks, e: Suceso, p: Pid)
    requires Inv(cfg, s, None, 0) && Puede(cfg, s, e)
    ensures Sigue(s, e, AlDespertar(s, p).quien) && Sigue(s, e, AlMalograrse(s, p).quien)
    ensures e.LecturaFin? ==> Sigue(s, e, Tabla(s, e).quien)
  {
    hide Inv, Puede, Listos;
    if p in s.block {
      EnEstado(cfg, s, p, BLOCK);
    } else if p in s.suspBlock {
      EnEstado(cfg, s, p, SUSP_BLOCK);
    }
    if e.LecturaFin? && e.pid in s.block {
      EnEstado(cfg, s, e.pid, BLOCK);
    }
  }

  lemma EsperaSigue(cfg: Cfg, s: Ks, e: Suceso)
    requires Inv(cfg, s, None, 0) && Puede(cfg, s, e) && (e.IoFin? || e.StdinDatos? || e.MutexUnlock? || e.LecturaFin?)
    ensures Sigue(s, e, Tabla(s, e).quien)
  {
    hide Inv, Puede, Sigue, AlDespertar, AlMalograrse, Heredero;
    DespertarSigue(cfg, s, e, e.pid);
    if e.MutexUnlock? {
      match Heredero(s, e.pid, e.nombre)
      case None => NadaSigue(s, e);
      case Some(q) => DespertarSigue(cfg, s, e, q);
    } else {
      NadaSigue(s, e);
    }
  }

  lemma NadaSigue(s: Ks, e: Suceso)
    ensures Sigue(s, e, Nadie) && forall p :: Sigue(s, e, Retenido(p))
  {
  }

  lemma RespuestaSigue(cfg: Cfg, s: Ks, e: Suceso)
    requires Inv(cfg, s, None, 0) && Puede(cfg, s, e) && (Contesta(e) || e.FreeFin?)
    ensures Sigue(s, e, Tabla(s, e).quien)
  {
    hide Inv, Listos;
    EnTarea(cfg, s, s.canal.value);
  }

  lemma PlanSigue(cfg: Cfg, s: Ks, e: Suceso)
    requires Inv(cfg, s, None, 0) && Puede(cfg, s, e) && (e.PlanPasa? || e.DesconectarCpu?)
    ensures Sigue(s, e, Tabla(s, e).quien)
  {
    hide Inv, Puede, Listos;
    match e
    case PlanPasa =>
      var i := PrimerNivel(s.ready);
      if i.Some? {
        ListosMiembro(s.ready, i.value, s.ready[i.value][0]);
        EnEstado(cfg, s, s.ready[i.value][0], READY);
      }
    case DesconectarCpu(fd) =>
      var h := Huerfano(s.procs, s.exec, fd);
      if h.Some? {
        EnEstado(cfg, s, h.value, EXEC);
      }
  }

  lemma TablaSigue(cfg: Cfg, s: Ks, e: Suceso)
    requires Inv(cfg, s, None, 0) && Puede(cfg, s, e)
    ensures Sigue(s, e, Tabla(s, e).quien)
  {
    hide Inv, Puede, Sigue;
    if e.IoFin? || e.StdinDatos? || e.MutexUnlock? || e.LecturaFin? {
      EsperaSigue(cfg, s, e);
    } else if DeCpu(e) {
      CpuSigue(cfg, s, e);
    } else if Contesta(e) || e.FreeFin? {
      RespuestaSigue(cfg, s, e);
    } else if e.PlanPasa? || e.DesconectarCpu? {
      PlanSigue(cfg, s, e);
    } else {
      NadaSigue(s, e);
    }
  }

  /** A step changes the state of at most one living process, the one of its row, only along an edge of the diagram, and only if it can reach it. */
  lemma UnaTransicion(cfg: Cfg, s: Ks, e: Suceso) returns (p: Pid, b: Estado)
    requires Inv(cfg, s, None, 0) && Puede(cfg, s, e)
    ensures Transita(s, e, Despues(cfg, s, e), p, b)
    ensures var m := Tabla(s, e).quien;
            && (m.Va? ==> p == m.pid && b == m.a) && (m.Retenido? ==> p == m.pid && b == EstadoDe(s, p)) && (m.Nadie? ==> b == EstadoDe(s, p))
  {
    hide Inv, Puede, Despues, Tabla, Alcanza, Arista;
    var m := Tabla(s, e).quien;
    TablaSigue(cfg, s, e);
    EstadosTras(cfg, s, e);
    p := if m.Nadie? then 0 else m.pid;
    b := if m.Va? then m.a else EstadoDe(s, p);
  }

  lemma EstadosTras(cfg: Cfg, s: Ks, e: Suceso)
    requires Inv(cfg, s, None, 0) && Puede(cfg, s, e)
    ensures var t, m := Despues(cfg, s, e), Tabla(s, e).quien;
            forall r :: r in s.procs && r in t.procs ==> t.procs[r].estado == if m.Va? && m.pid == r then m.a else s.procs[r].estado
  {
    hide Inv, Puede, Despues, Tabla, Papeles, Orden, EnSusColas, EnLosPapeles, Recalcula, MarcaTras, Desalojada, FdTras;
    Efectos(cfg, s, e);
    MismosEstados(cfg, s, e);
  }

  /** The bookkeeping changes the state of no process. */
  lemma MismosEstados(cfg: Cfg, s: Ks, e: Suceso)
    requires Inv(cfg, s, None, 0) && Puede(cfg, s, e)
    ensures var b := Papeles(s, e); forall r :: r in s.procs ==> r in b.procs && b.procs[r].estado == s.procs[r].estado
  {
    hide Inv, Puede, DeMemoria;
    NuevoPid(cfg, s);
  }

  // ---------------------------------------------------------------- nobody is lost

  lemma MutexPersiste(cfg: Cfg, s: Ks, e: Suceso)
    requires Puede(cfg, s, e) && (e.MutexLock? || e.MutexUnlock?)
    ensures s.exit <= Despues(cfg, s, e).exit && s.procs.Keys <= Despues(cfg, s, e).procs.Keys
  {
    hide Bloqueando, Desbloqueando, Despues;
    MutexMarco(cfg, s, e);
  }

  lemma AsignadoPersiste(s: Ks, p: Pid, ok: bool)
    requires p in s.procs
    ensures s.exit <= Asignado(s, p, ok).exit && s.procs.Keys <= Asignado(s, p, ok).procs.Keys
  {
  }

  lemma CreadoPersiste(cfg: Cfg, s: Ks, p: Pid, ok: bool)
    requires Formado(cfg, s) && p in s.procs
    ensures Creado(cfg, s, p, ok).exit == s.exit
    ensures forall q :: q in s.procs && (q != p || ok) ==> q in Creado(cfg, s, p, ok).procs
  {
  }

  lemma PlanificadoPersiste(s: Ks)
    ensures Planificado(s).exit == s.exit && s.procs.Keys <= Planificado(s).procs.Keys
  {
  }

  /** EXIT is final, and only a creation that Kernel Memory refuses makes a process disappear. */
  lemma PasoPersiste(cfg: Cfg, s: Ks, e: Suceso, p: Pid)
    requires Puede(cfg, s, e)
    ensures s.exit <= Despues(cfg, s, e).exit
    ensures p in s.procs && e != CrearFin(p, false) ==> p in Despues(cfg, s, e).procs
  {
    hide Despues, Puede;
    if !DePlanOMutex(e) {
      PasoMarco(cfg, s, e);
    } else if e.MutexLock? || e.MutexUnlock? {
      MutexPersiste(cfg, s, e);
    } else if e.AllocFin? || e.FreeFin? || e.CrearFin? {
      RespuestaPersiste(cfg, s, e, p);
    } else {
      PlanPersiste(cfg, s, e, p);
    }
  }

  lemma RespuestaPersiste(cfg: Cfg, s: Ks, e: Suceso, p: Pid)
    requires Puede(cfg, s, e) && (e.AllocFin? || e.FreeFin? || e.CrearFin?)
    ensures s.exit <= Despues(cfg, s, e).exit
    ensures p in s.procs && e != CrearFin(p, false) ==> p in Despues(cfg, s, e).procs
  {
    hide Asignado, Liberado, Creado;
    match e
    case AllocFin(q, ok) => AsignadoPersiste(s, q, ok);
    case FreeFin(q) => LiberadoPersiste(s, q);
    case CrearFin(q, ok) => CreadoPersiste(cfg, s, q, ok);
  }

  lemma PlanPersiste(cfg: Cfg, s: Ks, e: Suceso, p: Pid)
    requires Puede(cfg, s, e) && DePlanOMutex(e) && !e.MutexLock? && !e.MutexUnlock? && !e.AllocFin? && !e.FreeFin? && !e.CrearFin?
    ensures s.exit == Despues(cfg, s, e).exit && s.procs.Keys <= Despues(cfg, s, e).procs.Keys
  {
    hide Planificado;
    PlanificadoPersiste(s);
  }

  lemma LiberadoPersiste(s: Ks, p: Pid)
    ensures Liberado(s, p).procs == s.procs && Liberado(s, p).exit == s.exit
  {
  }

  /** A process the step cannot reach stays as it is. */
  lemma Quieto(cfg: Cfg, s: Ks, e: Suceso, p: Pid)
    requires Inv(cfg, s, None, 0) && Puede(cfg, s, e) && p in s.procs && !Alcanza(s, e, p)
    ensures p in Despues(cfg, s, e).procs && Despues(cfg, s, e).procs[p].estado == s.procs[p].estado
  {
    hide Inv, Puede, Despues, Tabla;
    var q, b := UnaTransicion(cfg, s, e);
    PasoPersiste(cfg, s, e, p);
  }

  lemma CreadoExec(cfg: Cfg, s: Ks, p: Pid, ok: bool)
    requires Formado(cfg, s) && p in s.procs
    ensures Creado(cfg, s, p, ok).exec == s.exec
  {
  }

  lemma PlanificadoExec(s: Ks, p: Pid)
    requires p in Planificado(s).exec && p !in s.exec
    ensures p in Listos(s.ready)
  {
    var i := PrimerNivel(s.ready);
    if i.Some? {
      ListosMiembro(s.ready, i.value, s.ready[i.value][0]);
    }
  }

  lemma AsignadoExec(s: Ks, p: Pid, ok: bool, q: Pid)
    requires p in s.procs && q in Asignado(s, p, ok).exec && q !in s.exec
    ensures q == p && ok
  {
  }

  lemma LiberadoExec(s: Ks, p: Pid, q: Pid)
    requires q in Liberado(s, p).exec && q !in s.exec
    ensures q == p
  {
  }

  /** A process comes into EXEC by a dispatch, or back into it when its memory syscall is answered. */
  lemma EntraEnExec(cfg: Cfg, s: Ks, e: Suceso, p: Pid)
    requires Puede(cfg, s, e) && p in Despues(cfg, s, e).exec && p !in s.exec
    ensures p in Listos(s.ready) || e == AllocFin(p, true) || e == FreeFin(p)
  {
    hide Despues, Puede;
    if !DePlanOMutex(e) {
      PasoMarco(cfg, s, e);
    } else if e.MutexLock? || e.MutexUnlock? {
      MutexMarco(cfg, s, e);
    } else {
      RestoEnExec(cfg, s, e, p);
    }
  }

  lemma RestoEnExec(cfg: Cfg, s: Ks, e: Suceso, p: Pid)
    requires Puede(cfg, s, e) && p in Despues(cfg, s, e).exec && p !in s.exec && DePlanOMutex(e) && !e.MutexLock? && !e.MutexUnlock?
    ensures p in Listos(s.ready) || e == AllocFin(p, true) || e == FreeFin(p)
  {
    if e.CrearFin? || e.AllocFin? || e.FreeFin? {
      hide Despues, Puede;
      RespuestaEnExec(cfg, s, e, p);
    } else {
      hide Planificado, Listos;
      if e.PlanPasa? {
        PlanificadoExec(s, p);
      }
    }
  }

  lemma RespuestaEnExec(cfg: Cfg, s: Ks, e: Suceso, p: Pid)
    requires Puede(cfg, s, e) && p in Despues(cfg, s, e).exec && p !in s.exec && (e.CrearFin? || e.AllocFin? || e.FreeFin?)
    ensures e == AllocFin(p, true) || e == FreeFin(p)
  {
    hide Asignado, Liberado, Creado;
    match e
    case CrearFin(q, ok) => CreadoExec(cfg, s, q, ok);
    case AllocFin(q, ok) => AsignadoExec(s, q, ok, p);
    case FreeFin(q) => LiberadoExec(s, q, p);
  }

  /** In every run the buried stay buried, in order, and a process stays known unless its creation is refused. */
  lemma {:induction false} NadieSePierde(cfg: Cfg, ss: seq<Ks>, es: seq<Suceso>, i: nat, j: nat, p: Pid)
    requires Corrida(cfg, ss, es) && i <= j < |ss|
    ensures ss[i].exit <= ss[j].exit
    ensures p in ss[i].procs && CrearFin(p, false) !in es[i..j] ==> p in ss[j].procs
  {
    hide Despues, Puede;
    if i < j {
      NadieSePierde(cfg, ss, es, i, j - 1, p);
      PasoPersiste(cfg, ss[j - 1], es[j - 1], p);
      assert es[i..j] == es[i..j - 1] + [es[j - 1]];
    }
  }

  // ---------------------------------------------------------------- whom the planner picks

  /** The planner gives the first free CPU to the front of the first non-empty queue: under CMN nobody READY is more urgent. */
  lemma DespachaAlMejor(cfg: Cfg, ss: seq<Ks>, es: seq<Suceso>, i: nat, p: Pid, q: Pid)
    requires Corrida(cfg, ss, es) && i < |es| && es[i] == PlanPasa && cfg.cmn
    requires p !in ss[i].exec && p in ss[i + 1].exec
    requires q in ss[i].procs && ss[i].procs[q].estado == READY
    ensures p in ss[i].procs && ss[i].procs[p].prioridad <= ss[i].procs[q].prioridad
    ensures PrimeraLibre(ss[i].cpus).Some? && ss[i + 1].procs[p].fd == ss[i].cpus[PrimeraLibre(ss[i].cpus).value].fd
  {
    hide Inv, Listos;
    var s := ss[i];
    CorridaInv(cfg, ss, es, i);
    Lugar(cfg, s, q);
    if q !in Cola(s, READY) {
      SoloEnMano(cfg, s, q);
      EnManosTarea(s.tareas, q);
    }
    var k := EnQueNivel(s.ready, q);
    var n := PrimerNivel(s.ready).value;
    var x :| 0 <= x < |s.ready[k]| && s.ready[k][x] == q;
    ColaPorPrioridad(cfg, ss, es, i, k, x);
    ColaPorPrioridad(cfg, ss, es, i, n, 0);
  }

  lemma {:induction false} EnQueNivel(ready: seq<seq<Pid>>, p: Pid) returns (k: nat)
    requires p in Listos(ready)
    ensures k < |ready| && p in ready[k]
  {
    if p in ready[0] {
      k := 0;
    } else {
      k := EnQueNivel(ready[1..], p);
      k := k + 1;
    }
  }

  // ---------------------------------------------------------------- whom a newcomer evicts

  /** The victim runs, is unmarked and less urgent than the newcomer, and no such process is less urgent than it; there is none only if there is no such process. */
  lemma {:induction false} VictimaPeor(procs: map<Pid, Proceso>, exec: seq<Pid>, prioridad: int, mejor: Option<Pid>)
    requires mejor.Some? ==> Desalojable(procs, mejor.value, prioridad)
    ensures var v := Victima(procs, exec, prioridad, mejor);
      && (v.None? <==> mejor.None? && forall q :: q in exec ==> !Desalojable(procs, q, prioridad))
      && (v.Some? ==> Desalojable(procs, v.value, prioridad) && (v == mejor || v.value in exec)
                      && forall q :: Some(q) == mejor || (q in exec && Desalojable(procs, q, prioridad)) ==>
                           procs[q].prioridad <= procs[v.value].prioridad)
  {
    if exec != [] {
      var p := exec[0];
      var gana := p in procs && !procs[p].preemptado && procs[p].prioridad > prioridad
        && (mejor.None? || (mejor.value in procs && procs[p].prioridad > procs[mejor.value].prioridad));
      VictimaPeor(procs, exec[1..], prioridad, if gana then Some(p) else mejor);
    }
  }
}
