/** What holds in every state of every run of the Kernel Scheduler. */
module KsCorridas {
  import opened Basics
  import opened KsMutex
  import opened KsEstado
  import opened KsInvariantes
  import opened KsHandlers
  import opened KsPlanificador
  import opened KsPasos

  /** Queue preemption is read only for the multilevel algorithm; every other one has a single queue. */
  predicate CfgOk(cfg: Cfg) {
    cfg.n > 0 && (!cfg.cmn ==> cfg.n == 1 && !cfg.preemption)
  }

  function Inicial(cfg: Cfg): Ks
    requires cfg.n > 0
  {
    Ks(0, map[], seq(cfg.n, _ => []), [], [], [], [], [], multiset{}, [], None, [], [], 0, false, None, Normal, 0)
  }

  ghost predicate Corrida(cfg: Cfg, ss: seq<Ks>, es: seq<Suceso>) {
    && CfgOk(cfg) && |ss| == |es| + 1 && ss[0] == Inicial(cfg)
    && forall i :: 0 <= i < |es| ==> Puede(cfg, ss[i], es[i]) && ss[i + 1] == Despues(cfg, ss[i], es[i])
  }

  lemma {:induction false} NadieListo(ready: seq<seq<Pid>>)
    requires forall i :: 0 <= i < |ready| ==> ready[i] == []
    ensures Listos(ready) == []
  {
    if ready != [] {
      NadieListo(ready[1..]);
    }
  }

  lemma InicialInv(cfg: Cfg)
    requires CfgOk(cfg)
    ensures Inv(cfg, Inicial(cfg), None, 0)
  {
    var s := Inicial(cfg);
    NadieListo(s.ready);
    forall p: Pid
      ensures EnColas(s, p) + s.mano[p] == 0
    {
    }
    forall e, p: Pid
      ensures Veces(Cola(s, e), p) == 0
    {
    }
  }

  lemma {:induction false} CorridaInv(cfg: Cfg, ss: seq<Ks>, es: seq<Suceso>, i: nat)
    requires Corrida(cfg, ss, es) && i < |ss|
    ensures Inv(cfg, ss[i], None, 0)
  {
    hide Inv;
    if i == 0 {
      InicialInv(cfg);
    } else {
      CorridaInv(cfg, ss, es, i - 1);
      PasoInv(cfg, ss[i - 1], es[i - 1]);
    }
  }

  // ---------------------------------------------------------------- processes are conserved

  lemma {:induction false} EnManosTarea(ts: seq<Tarea>, p: Pid)
    requires EnManos(ts, p) > 0
    ensures exists t :: t in ts && Titular(t) == Some(p)
  {
    if Titular(ts[0]) == Some(p) {
      assert ts[0] in ts;
    } else {
      EnManosTarea(ts[1..], p);
      var t :| t in ts[1..] && Titular(t) == Some(p);
      assert t in ts;
    }
  }

  /**
   * Every created process is in exactly one queue or held by exactly one pending
   * handler, and its state is the one of that place.
   */
  lemma UnSoloLugar(cfg: Cfg, ss: seq<Ks>, es: seq<Suceso>, i: nat, p: Pid)
    requires Corrida(cfg, ss, es) && i < |ss|
    ensures EnColas(ss[i], p) + EnManos(ss[i].tareas, p) == Bit(p in ss[i].procs)
    ensures forall e :: p in Cola(ss[i], e) ==> p in ss[i].procs && ss[i].procs[p].estado == e
    ensures forall t :: t in ss[i].tareas && Titular(t) == Some(p) ==> p in ss[i].procs && EstadoDeTarea(t, ss[i].procs[p].estado)
  {
    CorridaInv(cfg, ss, es, i);
    Lugar(cfg, ss[i], p);
  }

  lemma Lugar(cfg: Cfg, s: Ks, p: Pid)
    requires Inv(cfg, s, None, 0)
    ensures EnColas(s, p) + EnManos(s.tareas, p) == Bit(p in s.procs)
    ensures forall e :: p in Cola(s, e) ==> p in s.procs && s.procs[p].estado == e
    ensures forall t :: t in s.tareas && Titular(t) == Some(p) ==> p in s.procs && EstadoDeTarea(t, s.procs[p].estado)
  {
    hide Ligadura, Compactacion, NivelesOk;
    assert EnColas(s, p) + s.mano[p] == Bit(p in s.procs);
    assert s.mano[p] == EnManos(s.tareas, p) + 0;
    forall e | p in Cola(s, e)
      ensures p in s.procs && s.procs[p].estado == e
    {
      VecesMiembro(Cola(s, e), p);
    }
  }

  // ---------------------------------------------------------------- CPUs

  predicate Pide(s: Ks, p: Pid) {
    Alloc(p) in s.tareas || Free(p) in s.tareas
  }

  /**
   * Each busy CPU is bound to exactly one process, free CPUs to none, and the
   * bound processes are those in EXEC and those whose memory syscall is pending.
   */
  lemma CadaCpuUnProceso(cfg: Cfg, ss: seq<Ks>, es: seq<Suceso>, i: nat)
    requires Corrida(cfg, ss, es) && i < |ss|
    ensures forall c :: c in ss[i].cpus ==> (c.ocupada <==> exists p :: TieneFd(ss[i].procs, p, c.fd))
    ensures forall p, q :: p in ss[i].procs && q in ss[i].procs && ss[i].procs[p].fd >= 0 && ss[i].procs[p].fd == ss[i].procs[q].fd ==> p == q
    ensures forall p :: p in ss[i].procs && ss[i].procs[p].fd >= 0 ==> CpuEntry(ss[i].procs[p].fd, true) in ss[i].cpus
    ensures forall p :: p in ss[i].procs ==> (ss[i].procs[p].fd >= 0 <==> p in ss[i].exec || Pide(ss[i], p))
  {
    CorridaInv(cfg, ss, es, i);
    CpusUsadas(cfg, ss[i]);
    forall p | p in ss[i].procs
      ensures ss[i].procs[p].fd >= 0 <==> p in ss[i].exec || Pide(ss[i], p)
    {
      QuienTieneCpu(cfg, ss[i], p);
    }
  }

  lemma CpusUsadas(cfg: Cfg, s: Ks)
    requires Inv(cfg, s, None, 0)
    ensures forall c :: c in s.cpus ==> (c.ocupada <==> exists p :: TieneFd(s.procs, p, c.fd))
    ensures FdsUnicos(s.procs) && forall p :: p in s.procs && s.procs[p].fd >= 0 ==> CpuEntry(s.procs[p].fd, true) in s.cpus
  {
    hide Lugares, Compactacion, NivelesOk;
    forall c | c in s.cpus
      ensures c.ocupada <==> exists p :: TieneFd(s.procs, p, c.fd)
    {
      if c.ocupada {
        assert c == CpuEntry(c.fd, true);
        assert Ocupada(s.cpus, c.fd);
      } else {
        LibreSinProceso(s.procs, s.cpus, c);
      }
    }
  }

  lemma LibreSinProceso(procs: map<Pid, Proceso>, cpus: seq<CpuEntry>, c: CpuEntry)
    requires CpusOk(procs, cpus) && c in cpus && !c.ocupada
    ensures !exists p :: TieneFd(procs, p, c.fd)
  {
    forall p | p in procs
      ensures procs[p].fd != c.fd
    {
      assert procs[p].fd >= 0 ==> Ocupada(cpus, procs[p].fd);
    }
  }

  lemma QuienTieneCpu(cfg: Cfg, s: Ks, p: Pid)
    requires Inv(cfg, s, None, 0) && p in s.procs
    ensures s.procs[p].fd >= 0 <==> p in s.exec || Pide(s, p)
  {
    hide Lugares, CpusOk, Compactacion, NivelesOk;
    Lugar(cfg, s, p);
    assert p in Cola(s, EXEC) <==> p in s.exec;
    if s.procs[p].estado == EXEC && p !in s.exec {
      SoloEnMano(cfg, s, p);
      EnManosTarea(s.tareas, p);
    }
    assert Alloc(p) in s.tareas ==> Titular(Alloc(p)) == Some(p);
    assert Free(p) in s.tareas ==> Titular(Free(p)) == Some(p);
  }

  lemma SoloEnMano(cfg: Cfg, s: Ks, p: Pid)
    requires Inv(cfg, s, None, 0) && p in s.procs && p !in Cola(s, s.procs[p].estado)
    ensures EnManos(s.tareas, p) > 0
  {
    hide Ligadura, Compactacion, NivelesOk;
    ColasSuman(s, p);
    assert EnColas(s, p) + s.mano[p] == 1;
    assert s.mano[p] == EnManos(s.tareas, p) + 0;
    forall e
      ensures Veces(Cola(s, e), p) == 0
    {
      VecesMiembro(Cola(s, e), p);
    }
  }

  // ---------------------------------------------------------------- wakeups

  /** No wakeup is lost: tokens, the planner's pass and the posts still owed cover every free CPU that has work. */
  lemma SinDespertadosPerdidos(cfg: Cfg, ss: seq<Ks>, es: seq<Suceso>, i: nat)
    requires Corrida(cfg, ss, es) && i < |ss|
    ensures ss[i].tokens + Bit(ss[i].plan) + Debe(ss[i].tareas) >= Min(Libres(ss[i].cpus), |Listos(ss[i].ready)|)
  {
    hide Lugares, Ligadura, Compactacion, NivelesOk;
    CorridaInv(cfg, ss, es, i);
  }

  lemma {:induction false} NadieDebe(ts: seq<Tarea>)
    requires forall t :: t in ts ==> !(t.Avisando? && t.debe)
    ensures Debe(ts) == 0
  {
    if ts != [] {
      assert ts[0] in ts;
      NadieDebe(ts[1..]);
    }
  }

  lemma {:induction false} AlgunoLibre(cpus: seq<CpuEntry>)
    requires Libres(cpus) == 0
    ensures forall c :: c in cpus ==> c.ocupada
  {
    if cpus != [] {
      AlgunoLibre(cpus[1..]);
    }
  }

  /** Once the planner has nothing left to do and no handler owes a post, no CPU is idle while a process is READY. */
  lemma NingunaOciosa(cfg: Cfg, ss: seq<Ks>, es: seq<Suceso>, i: nat, c: CpuEntry, p: Pid)
    requires Corrida(cfg, ss, es) && i < |ss|
    requires ss[i].tokens == 0 && !ss[i].plan && forall t :: t in ss[i].tareas ==> !(t.Avisando? && t.debe)
    requires c in ss[i].cpus && p in ss[i].procs && ss[i].procs[p].estado == READY
    ensures c.ocupada
  {
    hide Ligadura, Compactacion, NivelesOk, CanalOk, Libres, Listos;
    SinDespertadosPerdidos(cfg, ss, es, i);
    NadieDebe(ss[i].tareas);
    CorridaInv(cfg, ss, es, i);
    if p !in Cola(ss[i], READY) {
      SoloEnMano(cfg, ss[i], p);
      EnManosTarea(ss[i].tareas, p);
      Lugar(cfg, ss[i], p);
    } else {
      AlgunoLibre(ss[i].cpus);
    }
  }

  // ---------------------------------------------------------------- the compaction handshake

  predicate Esperando(s: Ks) {
    s.fase.Marcada? || s.fase.FinEnviado?
  }

  /** What most steps leave alone, and whom they do not let into EXEC. */
  predicate Marco(s: Ks, t: Ks) {
    t.mutexes == s.mutexes && t.fase == s.fase && s.exit <= t.exit && s.procs.Keys <= t.procs.Keys && forall p :: p in t.exec ==> p in s.exec
  }

  lemma MarcoTrans(s: Ks, t: Ks, u: Ks)
    requires Marco(s, t) && Marco(t, u)
    ensures Marco(s, u)
  {
  }

  lemma PonerReadyMarco(cfg: Cfg, s: Ks, p: Pid, alFrente: bool)
    requires p in s.procs && Formado(cfg, s)
    ensures Marco(s, PonerReady(cfg, s, p, alFrente))
  {
  }

  lemma EncolarMarco(cfg: Cfg, s: Ks, p: Pid)
    requires p in s.procs && Formado(cfg, s)
    ensures Marco(s, Encolar(cfg, s, p))
  {
  }

  lemma SacarExecMarco(s: Ks, p: Pid)
    requires p in s.procs
    ensures Marco(s, SacarExec(s, p)) && Marco(s, SacarExecMem(s, p)) && Marco(s, Desmarcar(SacarExec(s, p), p))
  {
    QuitarMiembros(s.exec, p);
  }

  lemma EnterrarMarco(s: Ks, p: Pid, debe: bool)
    ensures Marco(s, Enterrar(s, p, debe))
  {
  }

  lemma PonerBlockMarco(s: Ks, p: Pid)
    ensures Marco(s, PonerBlock(s, p)) && PonerBlock(s, p).procs.Keys == s.procs.Keys
  {
  }

  lemma SacarMarco(s: Ks, p: Pid, e: Estado)
    ensures Marco(s, Sacar(s, p, e))
  {
  }

  lemma PonerMarco(s: Ks, p: Pid, e: Estado)
    ensures Marco(s, Poner(s, p, e))
  {
  }

  lemma CerrarMarco(s: Ks, t: Tarea)
    ensures Marco(s, Cerrar(s, t)) && Marco(s, Abrir(s, t)) && Marco(s, s)
  {
  }

  lemma DespertadoMarco(cfg: Cfg, s: Ks, p: Pid)
    requires Formado(cfg, s)
    ensures Marco(s, Despertado(cfg, s, p))
  {
    hide Marco, Encolar, Poner;
    var t, u := Sacar(s, p, BLOCK), Sacar(s, p, SUSP_BLOCK);
    CerrarMarco(s, Leyendo(p));
    if p in s.block && p in s.procs {
      SacarMarco(s, p, BLOCK);
      EncolarMarco(cfg, t, p);
      MarcoTrans(s, t, Encolar(cfg, t, p));
    } else if p in s.suspBlock {
      SacarMarco(s, p, SUSP_BLOCK);
      PonerMarco(u, p, SUSP_READY);
      MarcoTrans(s, u, Poner(u, p, SUSP_READY));
    }
  }

  lemma SacarYEnterrarMarco(s: Ks, p: Pid, e: Estado)
    ensures Marco(s, Enterrar(Sacar(s, p, e), p, false))
  {
    hide Marco, Enterrar, Sacar;
    SacarMarco(s, p, e);
    EnterrarMarco(Sacar(s, p, e), p, false);
    MarcoTrans(s, Sacar(s, p, e), Enterrar(Sacar(s, p, e), p, false));
  }

  lemma MalogradoMarco(s: Ks, p: Pid)
    ensures Marco(s, Malogrado(s, p))
  {
    hide Marco, Enterrar, Sacar;
    CerrarMarco(s, Leyendo(p));
    SacarYEnterrarMarco(s, p, BLOCK);
    SacarYEnterrarMarco(s, p, SUSP_BLOCK);
  }

  lemma ConDatosMarco(cfg: Cfg, s: Ks, p: Pid, validos: bool, vacio: bool)
    requires Formado(cfg, s)
    ensures Marco(s, ConDatos(cfg, s, p, validos, vacio))
  {
    hide Marco, Malogrado, Despertado, Abrir, Sacar;
    MalogradoMarco(s, p);
    DespertadoMarco(cfg, s, p);
    var t := Sacar(s, p, BLOCK);
    SacarMarco(s, p, BLOCK);
    CerrarMarco(t, Escribiendo(p));
    MarcoTrans(s, t, Abrir(t, Escribiendo(p)));
  }

  lemma TerminadoMarco(s: Ks, p: Pid)
    requires p in s.procs
    ensures Marco(s, Terminado(s, p))
  {
    hide Marco, SacarExec, Enterrar;
    SacarExecMarco(s, p);
    EnterrarMarco(SacarExec(s, p), p, true);
    MarcoTrans(s, SacarExec(s, p), Terminado(s, p));
  }

  lemma VueltoMarco(cfg: Cfg, s: Ks, p: Pid)
    requires p in s.procs && Formado(cfg, s)
    ensures Marco(s, Interrumpido(cfg, s, p)) && Marco(s, Devuelto(cfg, s, p))
  {
    hide Marco, Encolar, PonerReady;
    var t, u := SacarExec(s, p), Desmarcar(SacarExec(s, p), p);
    SacarExecMarco(s, p);
    EncolarMarco(cfg, t, p);
    EncolarMarco(cfg, u, p);
    PonerReadyMarco(cfg, u, p, true);
    MarcoTrans(s, t, Encolar(cfg, t, p));
    MarcoTrans(s, u, Encolar(cfg, u, p));
    MarcoTrans(s, u, PonerReady(cfg, u, p, true));
  }

  lemma BloqueadoMarco(s: Ks, p: Pid, inicio: Inicio)
    requires p in s.procs
    ensures Marco(s, Bloqueado(s, p, inicio))
  {
    hide Marco, SacarExec, PonerBlock, Abrir, Enterrar, Sacar;
    var t := SacarExec(s, p);
    var u := PonerBlock(t, p);
    SacarExecMarco(s, p);
    PonerBlockMarco(t, p);
    MarcoTrans(s, t, u);
    CerrarMarco(u, Leyendo(p));
    MarcoTrans(s, u, Abrir(u, Leyendo(p)));
    SacarYEnterrarMarco(u, p, BLOCK);
    MarcoTrans(s, u, Enterrar(Sacar(u, p, BLOCK), p, false));
  }

  lemma PidiendoMarco(s: Ks, p: Pid, alloc: bool)
    requires p in s.procs
    ensures Marco(s, Pidiendo(s, p, alloc))
  {
    hide Marco, SacarExecMem, Abrir;
    var t := SacarExecMem(s, p);
    SacarExecMarco(s, p);
    CerrarMarco(t, if alloc then Alloc(p) else Free(p));
    MarcoTrans(s, t, Pidiendo(s, p, alloc));
  }

  lemma CpuMarco(cfg: Cfg, s: Ks, e: Suceso)
    requires Puede(cfg, s, e) && DeCpu(e) && !DePlanOMutex(e)
    ensures Marco(s, Despues(cfg, s, e))
  {
    hide Marco, Terminado, Interrumpido, Devuelto, Bloqueado, Pidiendo;
    CerrarMarco(s, Leyendo(e.pid));
    if Corre(s, e.pid) {
      match e
      case Termina(p) => TerminadoMarco(s, p);
      case Bloquea(p, inicio) => BloqueadoMarco(s, p, inicio);
      case MemPide(p, alloc) => PidiendoMarco(s, p, alloc);
      case Interrumpe(p) => VueltoMarco(cfg, s, p);
      case Vuelve(p) => VueltoMarco(cfg, s, p);
    }
  }

  lemma LeidoMarco(s: Ks, p: Pid, ok: bool)
    ensures Marco(s, Leido(s, p, ok))
  {
    hide Marco, Enterrar, Sacar;
    var t := Cerrar(s, Leyendo(p));
    CerrarMarco(s, Leyendo(p));
    SacarYEnterrarMarco(t, p, BLOCK);
    MarcoTrans(s, t, Enterrar(Sacar(t, p, BLOCK), p, false));
  }

  lemma RegresoMarco(cfg: Cfg, s: Ks, p: Pid, tarea: Tarea)
    requires Formado(cfg, s) && p in s.procs
    ensures var t := Cerrar(s, tarea);
      && Marco(s, Encolar(cfg, t, p)) && Marco(s, Enterrar(t, p, false)) && Marco(s, Abrir(t, Escribiendo(p)))
      && Marco(s, Poner(t, p, SUSP_READY)) && Marco(s, Poner(t, p, SUSP_BLOCK)) && Marco(s, Poner(t, p, BLOCK))
  {
    hide Marco, Encolar, Enterrar, Abrir, Poner;
    var t := Cerrar(s, tarea);
    CerrarMarco(s, tarea);
    EncolarMarco(cfg, t, p);
    EnterrarMarco(t, p, false);
    CerrarMarco(t, Escribiendo(p));
    PonerMarco(t, p, SUSP_READY);
    PonerMarco(t, p, SUSP_BLOCK);
    PonerMarco(t, p, BLOCK);
    MarcoTrans(s, t, Encolar(cfg, t, p));
    MarcoTrans(s, t, Enterrar(t, p, false));
    MarcoTrans(s, t, Abrir(t, Escribiendo(p)));
    MarcoTrans(s, t, Poner(t, p, SUSP_READY));
    MarcoTrans(s, t, Poner(t, p, SUSP_BLOCK));
    MarcoTrans(s, t, Poner(t, p, BLOCK));
  }

  lemma SuspendidoMarco(s: Ks, p: Pid, ok: bool)
    ensures Marco(s, Suspendido(s, p, ok))
  {
    hide Marco, Poner;
    CerrarMarco(s, Suspendiendo(p));
    PonerMarco(Cerrar(s, Suspendiendo(p)), p, if ok then SUSP_BLOCK else BLOCK);
    MarcoTrans(s, Cerrar(s, Suspendiendo(p)), Suspendido(s, p, ok));
  }

  lemma AvisoMarco(s: Ks, t: Tarea, n: nat)
    ensures Marco(s, Cerrar(s, t).(tokens := n))
  {
  }

  lemma MemoriaMarco(cfg: Cfg, s: Ks, e: Suceso)
    requires Puede(cfg, s, e) && DeMemoria(e) && !DePlanOMutex(e)
    ensures Marco(s, Despues(cfg, s, e))
  {
    hide Marco, Encolar, Enterrar, Abrir, Poner, Cerrar, Leido, Suspendido;
    match e
    case LecturaFin(p, ok) => LeidoMarco(s, p, ok);
    case StdinFin(p, ok) => RegresoMarco(cfg, s, p, Escribiendo(p));
    case SuspenderFin(p, ok) => SuspendidoMarco(s, p, ok);
    case DesuspenderFin(p, _) => RegresoMarco(cfg, s, p, Desuspendiendo(p));
    case AvisoFin(p, debe) => AvisoMarco(s, Avisando(p, debe), s.tokens + Bit(debe));
  }

  /** The steps that dispatch, change mutexes, or move the handshake on; and the end of a creation. */
  predicate DePlanOMutex(e: Suceso) {
    e.MutexCrea? || e.MutexLock? || e.MutexUnlock? || e.AllocFin? || e.FreeFin? || e.CrearFin? || e.PlanPasa?
    || e.Marca? || e.Recoge? || e.EnviaFin? || e.Reanuda?
  }

  lemma RescatadoMarco(cfg: Cfg, s: Ks, p: Pid, fd: int)
    requires p in s.procs && Formado(cfg, s)
    ensures Marco(s, Encolar(cfg, Rescatado(s, p, fd), p))
  {
    hide Encolar;
    QuitarMiembros(s.exec, p);
    EncolarMarco(cfg, Rescatado(s, p, fd), p);
  }

  lemma DesconectadoMarco(cfg: Cfg, s: Ks, fd: int)
    requires Formado(cfg, s)
    ensures Marco(s, Desconectado(cfg, s, fd))
  {
    hide Encolar, Rescatado;
    match Huerfano(s.procs, s.exec, fd)
    case None =>
    case Some(p) => RescatadoMarco(cfg, s, p, fd);
  }

  lemma CreandoMarco(s: Ks, prioridad: int)
    requires s.proximo <= INT_MAX
    ensures Marco(s, Abrir(Nacer(s, s.proximo, prioridad), Creando(s.proximo)))
  {
  }

  lemma SacarYAbrirMarco(s: Ks, p: Pid, e: Estado, t: Tarea)
    ensures Marco(s, Abrir(Sacar(s, p, e), t))
  {
  }

  lemma OtroMarco(cfg: Cfg, s: Ks, e: Suceso)
    requires Puede(cfg, s, e) && !DeMemoria(e) && !DeCpu(e) && !DePlanOMutex(e)
    ensures Marco(s, Despues(cfg, s, e))
  {
    hide Desconectado, Malogrado, Despertado, ConDatos, Abrir, Nacer, Sacar;
    match e
    case DesconectarCpu(fd) => DesconectadoMarco(cfg, s, fd);
    case CrearInicio(_, prioridad) => CreandoMarco(s, prioridad);
    case IoFin(p, _) => DespertadoMarco(cfg, s, p); MalogradoMarco(s, p);
    case StdinDatos(p, validos, vacio) => ConDatosMarco(cfg, s, p, validos, vacio);
    case SuspenderInicio(p) => SacarYAbrirMarco(s, p, BLOCK, Suspendiendo(p));
    case DesuspenderInicio(p) => SacarYAbrirMarco(s, p, SUSP_READY, Desuspendiendo(p));
    case _ =>
  }

  lemma PasoMarco(cfg: Cfg, s: Ks, e: Suceso)
    requires Puede(cfg, s, e) && !DePlanOMutex(e)
    ensures Marco(s, Despues(cfg, s, e))
  {
    hide Marco, Puede, Despues;
    if DeMemoria(e) {
      MemoriaMarco(cfg, s, e);
    } else if DeCpu(e) {
      CpuMarco(cfg, s, e);
    } else {
      OtroMarco(cfg, s, e);
    }
  }

  /**
   * Whichever way a marked process leaves EXEC, it signals exactly once: in every
   * step of the wait the semaphore gains what EXEC loses, less what the wait takes.
   */
  lemma CadaMarcadoUnaVez(cfg: Cfg, s: Ks, e: Suceso)
    requires Inv(cfg, s, None, 0) && Puede(cfg, s, e) && s.fase.Marcada? && Despues(cfg, s, e).fase.Marcada?
    ensures var t := Despues(cfg, s, e);
            t.devueltas + Bit(e == Recoge) - s.devueltas == |s.exec| - |t.exec| && t.fase.faltan + Bit(e == Recoge) == s.fase.faltan
  {
    hide Inv, Puede, Despues;
    SigueMarcada(cfg, s, e);
    PasoInv(cfg, s, e);
    NadieEntra(cfg, s, e);
    Cuenta(cfg, s);
    Cuenta(cfg, Despues(cfg, s, e));
  }

  lemma SigueMarcada(cfg: Cfg, s: Ks, e: Suceso)
    requires Puede(cfg, s, e) && s.fase.Marcada? && Despues(cfg, s, e).fase.Marcada?
    ensures !e.AllocFin? && e != EnviaFin
    ensures e == Recoge ==> Despues(cfg, s, e).fase.faltan + 1 == s.fase.faltan && Despues(cfg, s, e).fase.sobrantes == s.fase.sobrantes
  {
    if e.AllocFin? {
    } else if e == EnviaFin {
    } else if e == Recoge {
    } else {
      hide Despues, Puede;
    }
  }

  lemma Cuenta(cfg: Cfg, s: Ks)
    requires Inv(cfg, s, None, 0)
    ensures s.fase.Marcada? ==> s.devueltas + |s.exec| == s.fase.faltan + s.fase.sobrantes && TodosMarcados(s) && s.fase.faltan <= s.fase.marcados
    ensures s.fase.FinEnviado? ==> s.devueltas + |s.exec| == s.fase.sobrantes && TodosMarcados(s)
    ensures !cfg.preemption && Esperando(s) ==> s.fase.sobrantes == 0
  {
    hide Lugares, Ligadura, NivelesOk;
  }

  /** The same up to mutexes. */
  predicate MarcoMutex(s: Ks, t: Ks, mutexes: seq<MutexKs>) {
    Marco(s.(mutexes := mutexes), t)
  }

  lemma RecalcularMarco(cfg: Cfg, s: Ks, p: int)
    ensures Marco(s, Recalcular(cfg, s, p)) && Recalcular(cfg, s, p).procs.Keys == s.procs.Keys
    ensures |Recalcular(cfg, s, p).ready| == |s.ready|
  {
  }

  lemma SacadoMarco(s: Ks, p: Pid, mutexes: seq<MutexKs>)
    requires p in s.procs
    ensures MarcoMutex(s, Desmarcar(SacarExec(s, p), p).(mutexes := mutexes), mutexes)
  {
    QuitarMiembros(s.exec, p);
  }

  lemma BloqueandoMarco(cfg: Cfg, s: Ks, p: Pid, nombre: string)
    requires p in s.procs && Formado(cfg, s)
    ensures MarcoMutex(s, Bloqueando(cfg, s, p, nombre), LockEn(s.mutexes, p, s.procs[p].prioridad, nombre).lista)
  {
    hide Marco, Encolar, PonerBlock, Enterrar, Recalcular, LockEn;
    var l := LockEn(s.mutexes, p, s.procs[p].prioridad, nombre);
    var r := s.(mutexes := l.lista);
    var t := Desmarcar(SacarExec(s, p), p).(mutexes := l.lista);
    var u := Recalcular(cfg, t, l.ownerAElevar);
    SacadoMarco(s, p, l.lista);
    EncolarMarco(cfg, t, p);
    MarcoTrans(r, t, Encolar(cfg, t, p));
    RecalcularMarco(cfg, t, l.ownerAElevar);
    MarcoTrans(r, t, u);
    PonerBlockMarco(u, p);
    MarcoTrans(r, u, PonerBlock(u, p));
    EnterrarMarco(t, p, true);
    MarcoTrans(r, t, Enterrar(t, p, true));
  }

  lemma DesbloqueandoMarco(cfg: Cfg, s: Ks, p: Pid, nombre: string)
    requires Formado(cfg, s)
    ensures MarcoMutex(s, Desbloqueando(cfg, s, p, nombre), UnlockEn(s.mutexes, p, nombre).lista)
  {
    hide Marco, Recalcular, Despertado, UnlockEn;
    var r := UnlockEn(s.mutexes, p, nombre);
    var m := s.(mutexes := r.lista);
    var u := Recalcular(cfg, m, p);
    var t := Recalcular(cfg, u, r.sucesor);
    RecalcularMarco(cfg, m, p);
    RecalcularMarco(cfg, u, r.sucesor);
    MarcoTrans(m, u, t);
    if 0 <= r.sucesor <= INT_MAX {
      DespertadoMarco(cfg, t, r.sucesor);
      MarcoTrans(m, t, Despertado(cfg, t, r.sucesor));
    }
  }

  lemma MutexMarco(cfg: Cfg, s: Ks, e: Suceso)
    requires Puede(cfg, s, e) && (e.MutexLock? || e.MutexUnlock?)
    ensures var o := OperacionMutex(s, e); |o| <= 1 && MarcoMutex(s, Despues(cfg, s, e), if o == [] then s.mutexes else KsMutex.Tras(s.mutexes, o[0]))
  {
    hide Bloqueando, Desbloqueando;
    match e
    case MutexLock(p, nombre) =>
      if Corre(s, p) {
        BloqueandoMarco(cfg, s, p, nombre);
      }
    case MutexUnlock(p, nombre) => DesbloqueandoMarco(cfg, s, p, nombre);
  }

  lemma CreadoMarco(cfg: Cfg, s: Ks, p: Pid, ok: bool)
    requires Formado(cfg, s) && p in s.procs
    ensures var t := Creado(cfg, s, p, ok); t.fase == s.fase && t.exec == s.exec && t.exit == s.exit && t.mutexes == s.mutexes
  {
  }

  /** While a compaction waits nobody enters EXEC, and only the wait itself moves the handshake on. */
  lemma NadieEntra(cfg: Cfg, s: Ks, e: Suceso)
    requires Inv(cfg, s, None, 0) && Puede(cfg, s, e) && Esperando(s) && !e.AllocFin?
    ensures forall p :: p in Despues(cfg, s, e).exec ==> p in s.exec
    ensures e != Recoge && e != EnviaFin ==> Despues(cfg, s, e).fase == s.fase
  {
    hide Despues, Puede, Inv;
    if !DePlanOMutex(e) {
      PasoMarco(cfg, s, e);
    } else if e.MutexLock? || e.MutexUnlock? {
      MutexMarco(cfg, s, e);
    } else {
      RestoEntra(cfg, s, e);
    }
  }

  lemma RestoEntra(cfg: Cfg, s: Ks, e: Suceso)
    requires Inv(cfg, s, None, 0) && Puede(cfg, s, e) && Esperando(s) && !e.AllocFin?
    requires DePlanOMutex(e) && !e.MutexLock? && !e.MutexUnlock?
    ensures Despues(cfg, s, e).exec == s.exec && (e != Recoge && e != EnviaFin ==> Despues(cfg, s, e).fase == s.fase)
  {
    hide Lugares, Ligadura, Compactacion, NivelesOk, TrabajoOk;
  }

  /** handle_compactar never waits for a process that has already left: while it waits, EXEC or the semaphore is not empty. */
  lemma LaEsperaTermina(cfg: Cfg, ss: seq<Ks>, es: seq<Suceso>, i: nat)
    requires Corrida(cfg, ss, es) && i < |ss| && ss[i].fase.Marcada? && ss[i].fase.faltan > 0
    ensures Puede(cfg, ss[i], Recoge) || ss[i].exec != []
    ensures forall p :: p in ss[i].exec ==> p in ss[i].procs && ss[i].procs[p].preemptado
  {
    hide Inv, Despues;
    CorridaInv(cfg, ss, es, i);
    Cuenta(cfg, ss[i]);
    Formada(cfg, ss[i]);
    forall p | p in ss[i].exec
      ensures p in ss[i].procs
    {
      Lugar(cfg, ss[i], p);
      assert p in Cola(ss[i], EXEC);
    }
  }

  lemma Formada(cfg: Cfg, s: Ks)
    requires Inv(cfg, s, None, 0)
    ensures Formado(cfg, s)
  {
    hide Lugares, Ligadura, Compactacion;
  }

  /**
   * From the moment FIN_COMPACTACION is sent until Kernel Memory answers, what still
   * runs is exactly what was left over in the semaphore and has been consumed since:
   * EXEC is empty if and only if nothing that was left over has been taken for a return.
   * Without queue preemption nothing is ever left over; with it, KsRetornos says when.
   */
  lemma FinConExecVacia(cfg: Cfg, ss: seq<Ks>, es: seq<Suceso>, i: nat)
    requires Corrida(cfg, ss, es) && i < |ss| && ss[i].fase.FinEnviado?
    ensures |ss[i].exec| == ss[i].fase.sobrantes - ss[i].devueltas
    ensures ss[i].exec == [] <==> ss[i].devueltas == ss[i].fase.sobrantes
    ensures !cfg.preemption ==> ss[i].exec == [] && ss[i].devueltas == 0
  {
    CorridaInv(cfg, ss, es, i);
    Cuenta(cfg, ss[i]);
  }

  // ---------------------------------------------------------------- priorities

  lemma RecalcularDa(cfg: Cfg, s: Ks, q: int)
    ensures var t := Recalcular(cfg, s, q);
      && t.mutexes == s.mutexes && t.procs.Keys == s.procs.Keys
      && (0 <= q <= INT_MAX && Activo(s, q) && q in s.procs ==> t.procs[q].prioridad == Efectiva(s, q) && t.procs[q].base == s.procs[q].base)
      && (forall r :: r in s.procs && r != q ==> t.procs[r] == s.procs[r])
  {
  }

  /** The owner a lock affects, if it can be found. */
  predicate Alcanzable(s: Ks, q: int) {
    0 <= q <= INT_MAX && q in s.procs && Activo(s, q)
  }

  /** Priorities, base priorities and mutexes are the same. */
  predicate MismasPrioridades(s: Ks, t: Ks) {
    t.mutexes == s.mutexes && t.procs.Keys == s.procs.Keys
    && forall r :: r in s.procs ==> t.procs[r].prioridad == s.procs[r].prioridad && t.procs[r].base == s.procs[r].base
  }

  lemma SacadoPrioridades(s: Ks, p: Pid, mutexes: seq<MutexKs>)
    requires p in s.procs
    ensures MismasPrioridades(s.(mutexes := mutexes), Desmarcar(SacarExec(s, p), p).(mutexes := mutexes))
    ensures forall q :: q != p && Alcanzable(s, q) ==> Alcanzable(Desmarcar(SacarExec(s, p), p).(mutexes := mutexes), q)
  {
    QuitarMiembros(s.exec, p);
  }

  lemma PonerBlockPrioridades(s: Ks, p: Pid)
    ensures MismasPrioridades(s, PonerBlock(s, p))
  {
  }

  /**
   * A lock that has to wait leaves the owner with its effective priority, which is
   * at least as urgent as the waiter's, and changes nobody else's.
   */
  lemma LockHereda(cfg: Cfg, s: Ks, p: Pid, nombre: string)
    requires Inv(cfg, s, None, 0) && Corre(s, p) && Formado(cfg, s)
    requires LockEn(s.mutexes, p, s.procs[p].prioridad, nombre).codigo == 1
    ensures var t := Bloqueando(cfg, s, p, nombre);
            var q := LockEn(s.mutexes, p, s.procs[p].prioridad, nombre).ownerAElevar;
      && t.procs.Keys == s.procs.Keys && (forall r :: r in s.procs && r != q ==> t.procs[r].prioridad == s.procs[r].prioridad)
      && (q != p && Alcanzable(s, q) ==> t.procs[q].prioridad == Efectiva(t, q) <= s.procs[p].prioridad)
  {
    hide Inv, Recalcular, PonerBlock, SacarExec, Desmarcar, Alcanzable, LockEn, Heredada;
    var l := LockEn(s.mutexes, p, s.procs[p].prioridad, nombre);
    var m := Desmarcar(SacarExec(s, p), p).(mutexes := l.lista);
    var q := l.ownerAElevar;
    var u := Recalcular(cfg, m, q);
    SacadoPrioridades(s, p, l.lista);
    RecalcularDa(cfg, m, q);
    PonerBlockPrioridades(u, p);
    if q != p && Alcanzable(s, q) {
      AlcanzableEs(s, q);
      AlcanzableEs(m, q);
      EsperaCuenta(s.mutexes, p, s.procs[p].prioridad, nombre);
    }
  }

  lemma AlcanzableEs(s: Ks, q: int)
    requires Alcanzable(s, q)
    ensures 0 <= q <= INT_MAX && q in s.procs && Activo(s, q)
  {
  }

  /** The waiter's priority bounds what its owner inherits. */
  lemma EsperaCuenta(mutexes: seq<MutexKs>, p: U32, prioridad: int, nombre: string)
    requires LockEn(mutexes, p, prioridad, nombre).codigo == 1
    ensures var l := LockEn(mutexes, p, prioridad, nombre);
            0 <= l.ownerAElevar <= INT_MAX ==> Heredada(l.lista, l.ownerAElevar, INT_MAX) <= prioridad
  {
    var l := LockEn(mutexes, p, prioridad, nombre);
    var i := BuscarMutex(mutexes, nombre).value;
    if 0 <= l.ownerAElevar <= INT_MAX {
      HeredadaEs(l.lista, l.ownerAElevar, INT_MAX);
      var c := l.lista[i].cola;
      assert c[|c| - 1].prioridad == prioridad;
    }
  }

  /** An unlock leaves both the old owner and the new one with their effective priorities, and changes nobody else's. */
  lemma UnlockRecalcula(cfg: Cfg, s: Ks, p: Pid, nombre: string)
    requires Inv(cfg, s, None, 0) && Formado(cfg, s)
    ensures var t := Desbloqueando(cfg, s, p, nombre);
            var q := UnlockEn(s.mutexes, p, nombre).sucesor;
      && t.procs.Keys == s.procs.Keys && (forall r :: r in s.procs && r != p && r != q ==> t.procs[r].prioridad == s.procs[r].prioridad)
      && (Alcanzable(s, p) ==> t.procs[p].prioridad == Efectiva(t, p))
      && (Alcanzable(s, q) ==> t.procs[q].prioridad == Efectiva(t, q))
  {
    hide Inv;
    var r := UnlockEn(s.mutexes, p, nombre);
    var m := s.(mutexes := r.lista);
    var u := Recalcular(cfg, m, p);
    var v := Recalcular(cfg, u, r.sucesor);
    RecalcularDa(cfg, m, p);
    RecalcularDa(cfg, u, r.sucesor);
    RecalcularActivo(cfg, s, p, nombre);
    SoltandoFormado(cfg, s, p, nombre);
    if 0 <= r.sucesor <= INT_MAX {
      DespertarPrioridades(cfg, v, r.sucesor);
    }
  }

  lemma RecalcularActivo(cfg: Cfg, s: Ks, p: Pid, nombre: string)
    requires Inv(cfg, s, None, 0)
    ensures var m := s.(mutexes := UnlockEn(s.mutexes, p, nombre).lista); forall q :: Activo(Recalcular(cfg, m, p), q) <==> Activo(s, q)
  {
    hide Ligadura, Compactacion;
    var m := s.(mutexes := UnlockEn(s.mutexes, p, nombre).lista);
    if Recalcular(cfg, m, p) != m {
      assert EnColas(s, p) + s.mano[p] == Bit(p in s.procs);
      AplicarPrioridadColas(cfg, m, p, Efectiva(m, p));
      forall q: Pid
        ensures q in Listos(Recalcular(cfg, m, p).ready) <==> q in Listos(s.ready)
      {
        assert Veces(Cola(Recalcular(cfg, m, p), READY), q) == Veces(Cola(m, READY), q);
        VecesMiembro(Listos(s.ready), q);
        VecesMiembro(Listos(Recalcular(cfg, m, p).ready), q);
      }
    }
  }

  lemma DespertarPrioridades(cfg: Cfg, s: Ks, p: Pid)
    requires Formado(cfg, s)
    ensures var t := Despertado(cfg, s, p);
      t.mutexes == s.mutexes && t.procs.Keys == s.procs.Keys
      && forall r :: r in s.procs ==> t.procs[r].prioridad == s.procs[r].prioridad && t.procs[r].base == s.procs[r].base
  {
    if p in s.block && p in s.procs {
      EncolarPrioridades(cfg, Sacar(s, p, BLOCK), p);
    }
  }

  lemma EncolarPrioridades(cfg: Cfg, s: Ks, p: Pid)
    requires p in s.procs && Formado(cfg, s)
    ensures var t := Encolar(cfg, s, p);
      t.mutexes == s.mutexes && t.procs.Keys == s.procs.Keys
      && forall r :: r in s.procs ==> t.procs[r].prioridad == s.procs[r].prioridad && t.procs[r].base == s.procs[r].base
  {
  }

  /** Under CMN every READY process waits in the queue of its current priority, after every step. */
  lemma ColaPorPrioridad(cfg: Cfg, ss: seq<Ks>, es: seq<Suceso>, i: nat, nivel: nat, k: nat)
    requires Corrida(cfg, ss, es) && i < |ss| && cfg.cmn && nivel < |ss[i].ready| && k < |ss[i].ready[nivel]|
    ensures ss[i].ready[nivel][k] in ss[i].procs && ss[i].procs[ss[i].ready[nivel][k]].prioridad == nivel
  {
    hide Lugares, Ligadura, Compactacion;
    CorridaInv(cfg, ss, es, i);
  }

  // ---------------------------------------------------------------- mutexes over whole runs

  /** The mutex operation a step carries out. */
  function OperacionMutex(s: Ks, e: Suceso): seq<KsMutex.Evento> {
    match e
    case MutexCrea(_, nombre) => [KsMutex.Create(nombre)]
    case MutexLock(p, nombre) => if Corre(s, p) then [KsMutex.Lock(p, s.procs[p].prioridad, nombre)] else []
    case MutexUnlock(p, nombre) => [KsMutex.Unlock(p, nombre)]
    case _ => []
  }

  function OperacionesMutex(ss: seq<Ks>, es: seq<Suceso>, i: nat): seq<KsMutex.Evento>
    requires i <= |es| && |ss| == |es| + 1
  {
    if i == 0 then [] else OperacionesMutex(ss, es, i - 1) + OperacionMutex(ss[i - 1], es[i - 1])
  }

  lemma PasoMutexes(cfg: Cfg, s: Ks, e: Suceso)
    requires Puede(cfg, s, e)
    ensures var o := OperacionMutex(s, e); |o| <= 1 && Despues(cfg, s, e).mutexes == if o == [] then s.mutexes else KsMutex.Tras(s.mutexes, o[0])
  {
    hide Bloqueando, Desbloqueando;
    if !DePlanOMutex(e) {
      hide Despues;
      PasoMarco(cfg, s, e);
    } else if e.MutexLock? || e.MutexUnlock? {
      hide Despues;
      MutexMarco(cfg, s, e);
    } else if !e.MutexCrea? {
      hide Despues;
      RestoMutexes(cfg, s, e);
    }
  }

  lemma AsignadoMutexes(s: Ks, p: Pid, ok: bool)
    requires p in s.procs
    ensures Asignado(s, p, ok).mutexes == s.mutexes
  {
  }

  lemma CompactacionMutexes(cfg: Cfg, s: Ks, e: Suceso)
    requires Puede(cfg, s, e) && (e.Marca? || e.Recoge? || e.EnviaFin? || e.Reanuda?)
    ensures Despues(cfg, s, e).mutexes == s.mutexes
  {
  }

  lemma RestoMutexes(cfg: Cfg, s: Ks, e: Suceso)
    requires Puede(cfg, s, e) && DePlanOMutex(e) && !e.MutexCrea? && !e.MutexLock? && !e.MutexUnlock?
    ensures Despues(cfg, s, e).mutexes == s.mutexes
  {
    hide Asignado, Liberado, Creado, Planificado;
    if e.PlanPasa? {
      PlanificadoMutexes(s);
    } else if e.CrearFin? {
      CreadoMarco(cfg, s, e.pid, e.ok);
    } else if e.AllocFin? {
      AsignadoMutexes(s, e.pid, e.ok);
    } else if e.FreeFin? {
      LiberadoMutexes(s, e.pid);
    } else {
      hide Despues, Puede;
      CompactacionMutexes(cfg, s, e);
    }
  }

  lemma PlanificadoMutexes(s: Ks)
    ensures Planificado(s).mutexes == s.mutexes
  {
  }

  lemma LiberadoMutexes(s: Ks, p: Pid)
    ensures Liberado(s, p).mutexes == s.mutexes
  {
  }

  lemma {:induction false} ListaPrefijo(a: seq<KsMutex.Evento>, b: seq<KsMutex.Evento>, n: nat)
    requires n <= |a| <= |b| && b[..|a|] == a
    ensures Lista(b, n) == Lista(a, n)
  {
    if n > 0 {
      ListaPrefijo(a, b, n - 1);
      assert b[n - 1] == b[..|a|][n - 1];
    }
  }

  lemma UnaOperacionMas(l: seq<MutexKs>, a: seq<KsMutex.Evento>, o: seq<KsMutex.Evento>, l2: seq<MutexKs>)
    requires PidsChicos(a) && l == Lista(a, |a|) && |o| <= 1 && PidsChicos(o)
    requires l2 == if o == [] then l else KsMutex.Tras(l, o[0])
    ensures PidsChicos(a + o) && l2 == Lista(a + o, |a + o|)
  {
    if o == [] {
      assert a + o == a;
    } else {
      ListaPrefijo(a, a + o, |a|);
    }
  }

  /**
   * The scheduler's mutexes are those of a run of mutex operations by pids, so their
   * hand-off is FIFO over whole runs of the scheduler.
   */
  lemma {:induction false} MutexesDeLaCorrida(cfg: Cfg, ss: seq<Ks>, es: seq<Suceso>, i: nat)
    requires Corrida(cfg, ss, es) && i <= |es|
    ensures var os := OperacionesMutex(ss, es, i); PidsChicos(os) && ss[i].mutexes == Lista(os, |os|)
  {
    if i > 0 {
      hide Despues, Puede, Lista, KsMutex.Tras;
      MutexesDeLaCorrida(cfg, ss, es, i - 1);
      PasoMutexes(cfg, ss[i - 1], es[i - 1]);
      UnaOperacionMas(ss[i - 1].mutexes, OperacionesMutex(ss, es, i - 1), OperacionMutex(ss[i - 1], es[i - 1]), ss[i].mutexes);
    }
  }

  lemma FifoDelScheduler(cfg: Cfg, ss: seq<Ks>, es: seq<Suceso>, i: nat, nombre: string)
    requires Corrida(cfg, ss, es) && i <= |es|
    ensures var os := OperacionesMutex(ss, es, i);
      && Pedidos(os, |os|, nombre) == Concesiones(os, |os|, nombre) + ColaDe(ss[i].mutexes, nombre)
      && (OwnerDe(ss[i].mutexes, nombre) == -1 ==> ColaDe(ss[i].mutexes, nombre) == [])
  {
    MutexesDeLaCorrida(cfg, ss, es, i);
    var os := OperacionesMutex(ss, es, i);
    Fifo(os, |os|, nombre);
    if OwnerDe(ss[i].mutexes, nombre) == -1 {
      LibreSinEspera(os, |os|, nombre);
    }
  }
}
