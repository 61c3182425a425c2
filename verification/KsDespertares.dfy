/** Exactly which steps leave a free CPU with work and no token for the planner. */
module KsDespertares {
  import opened Basics
  import opened KsMutex
  import opened KsEstado
  import opened KsInvariantes
  import opened KsHandlers
  import opened KsPlanificador
  import opened KsPasos
  import opened KsCorridas

  /** The tokens and the planner's pass alone cover the free CPUs that have work. */
  predicate Cubre(s: Ks) {
    s.tokens + Bit(s.plan) >= Min(Libres(s.cpus), |Listos(s.ready)|)
  }

  /** The handlers that free a CPU before they wait for Kernel Memory and tell the planner after it. */
  predicate Entierra(s: Ks, e: Suceso) {
    match e
    case Termina(p) => Corre(s, p)
    case AllocFin(_, ok) => !ok
    case MutexLock(p, nombre) => Corre(s, p) && LockEn(s.mutexes, p, s.procs[p].prioridad, nombre).codigo == -1
    case _ => false
  }

  /** There is more work than free CPUs, and not one wakeup to spare. */
  predicate Justo(s: Ks) {
    Libres(s.cpus) < |Listos(s.ready)| && s.tokens + Bit(s.plan) == Libres(s.cpus)
  }

  // ---------------------------------------------------------------- what each helper adds

  /** CPUs, READY processes and wakeups, counted before and after. */
  predicate Suma(s: Ks, t: Ks, cpus: int, listos: int, avisos: int) {
    && Libres(t.cpus) == Libres(s.cpus) + cpus
    && |Listos(t.ready)| == |Listos(s.ready)| + listos
    && t.tokens + Bit(t.plan) == s.tokens + Bit(s.plan) + avisos
  }

  lemma SumaTras(s: Ks, m: Ks, t: Ks, c1: int, l1: int, a1: int, c2: int, l2: int, a2: int)
    requires Suma(s, m, c1, l1, a1) && Suma(m, t, c2, l2, a2)
    ensures Suma(s, t, c1 + c2, l1 + l2, a1 + a2)
  {
  }

  /** What does not concern the planner. */
  lemma Ajeno(s: Ks, t: Ks)
    requires t.cpus == s.cpus && t.ready == s.ready && t.tokens == s.tokens && t.plan == s.plan
    ensures Suma(s, t, 0, 0, 0)
  {
  }

  lemma SacarExecSuma(cfg: Cfg, s: Ks, p: Pid)
    requires Inv(cfg, s, None, 0) && Corre(s, p)
    ensures Suma(s, SacarExec(s, p), 1, 0, 0) && Suma(s, Desmarcar(SacarExec(s, p), p), 1, 0, 0)
  {
    hide Lugares, Ligadura, Compactacion, NivelesOk;
    SacarExecInv(cfg, s, p);
    SacarExecLigadura(s, p);
  }

  lemma EncolarSuma(cfg: Cfg, s: Ks, p: Pid)
    requires p in s.procs && Formado(cfg, s)
    ensures Suma(s, Encolar(cfg, s, p), 0, 1, 1) && Suma(s, PonerReady(cfg, s, p, true), 0, 1, 1)
  {
    PonerReadyColas(cfg, s, p, false);
    PonerReadyColas(cfg, s, p, true);
  }

  lemma EnterrarSuma(s: Ks, p: Pid, debe: bool)
    ensures Suma(s, Enterrar(s, p, debe), 0, 0, 0)
  {
    Ajeno(s, Enterrar(s, p, debe));
  }

  lemma PonerBlockSuma(s: Ks, p: Pid)
    ensures Suma(s, PonerBlock(s, p), 0, 0, 1) && PonerBlock(s, p).procs.Keys == s.procs.Keys
  {
  }

  lemma PonerSuma(s: Ks, p: Pid, e: Estado)
    ensures Suma(s, Poner(s, p, e), 0, 0, 0) && Suma(s, Sacar(s, p, e), 0, 0, 0) && Suma(s, Enterrar(Sacar(s, p, e), p, false), 0, 0, 0)
  {
    Ajeno(s, Poner(s, p, e));
    Ajeno(s, Sacar(s, p, e));
    Ajeno(s, Enterrar(Sacar(s, p, e), p, false));
  }

  // ---------------------------------------------------------------- what each handler adds

  lemma SaleSuma(cfg: Cfg, s: Ks, p: Pid)
    requires Inv(cfg, s, None, 0) && Corre(s, p) && Formado(cfg, s)
    ensures Suma(s, Terminado(s, p), 1, 0, 0) && Suma(s, Interrumpido(cfg, s, p), 1, 1, 1) && Suma(s, Devuelto(cfg, s, p), 1, 1, 1)
  {
    hide Inv, Suma, Encolar, PonerReady, Enterrar;
    var t, u := SacarExec(s, p), Desmarcar(SacarExec(s, p), p);
    SacarExecSuma(cfg, s, p);
    EnterrarSuma(t, p, true);
    SumaTras(s, t, Enterrar(t, p, true), 1, 0, 0, 0, 0, 0);
    EncolarSuma(cfg, t, p);
    SumaTras(s, t, Encolar(cfg, t, p), 1, 0, 0, 0, 1, 1);
    EncolarSuma(cfg, u, p);
    SumaTras(s, u, Encolar(cfg, u, p), 1, 0, 0, 0, 1, 1);
    SumaTras(s, u, PonerReady(cfg, u, p, true), 1, 0, 0, 0, 1, 1);
  }

  lemma BloqueadoSuma(cfg: Cfg, s: Ks, p: Pid, inicio: Inicio)
    requires Inv(cfg, s, None, 0) && Corre(s, p)
    ensures Suma(s, Bloqueado(s, p, inicio), 1, 0, 1)
  {
    hide Inv, Suma, SacarExec, PonerBlock, Abrir, Enterrar, Sacar;
    var t := SacarExec(s, p);
    var u := PonerBlock(t, p);
    SacarExecSuma(cfg, s, p);
    PonerBlockSuma(t, p);
    SumaTras(s, t, u, 1, 0, 0, 0, 0, 1);
    AbrirSuma(u, Leyendo(p));
    SumaTras(s, u, Abrir(u, Leyendo(p)), 1, 0, 1, 0, 0, 0);
    PonerSuma(u, p, BLOCK);
    SumaTras(s, u, Enterrar(Sacar(u, p, BLOCK), p, false), 1, 0, 1, 0, 0, 0);
  }

  lemma AbrirSuma(s: Ks, t: Tarea)
    ensures Suma(s, Abrir(s, t), 0, 0, 0) && Suma(s, Cerrar(s, t), 0, 0, 0)
  {
  }

  lemma RecalcularSuma(cfg: Cfg, s: Ks, x: Option<Pid>, d: nat, q: int)
    requires Inv(cfg, s, x, d)
    ensures Suma(s, Recalcular(cfg, s, q), 0, 0, 0) && Recalcular(cfg, s, q).procs.Keys == s.procs.Keys
  {
    hide Lugares, Ligadura, Compactacion, NivelesOk;
    RecalcularLugares(cfg, s, x, q);
  }

  lemma BloqueandoSuma(cfg: Cfg, s: Ks, p: Pid, nombre: string)
    requires Inv(cfg, s, None, 0) && Corre(s, p) && Formado(cfg, s)
    ensures var c, t := LockEn(s.mutexes, p, s.procs[p].prioridad, nombre).codigo, Bloqueando(cfg, s, p, nombre);
            if c == 0 then Suma(s, t, 1, 1, 1) else if c == 1 then Suma(s, t, 1, 0, 1) else c == -1 && Suma(s, t, 1, 0, 0)
  {
    hide Inv, Suma, Encolar, PonerBlock, Enterrar, Recalcular;
    var l := LockEn(s.mutexes, p, s.procs[p].prioridad, nombre);
    var m := Desmarcar(SacarExec(s, p), p);
    var t := m.(mutexes := l.lista);
    SacarExecSuma(cfg, s, p);
    Ajeno(m, t);
    SumaTras(s, m, t, 1, 0, 0, 0, 0, 0);
    if l.codigo == 0 {
      EncolarSuma(cfg, t, p);
      SumaTras(s, t, Encolar(cfg, t, p), 1, 0, 0, 0, 1, 1);
    } else if l.codigo == 1 {
      EnMutex(cfg, s, p, nombre);
      RecalcularSuma(cfg, t, Some(p), 1, l.ownerAElevar);
      var u := Recalcular(cfg, t, l.ownerAElevar);
      SumaTras(s, t, u, 1, 0, 0, 0, 0, 0);
      PonerBlockSuma(u, p);
      SumaTras(s, u, PonerBlock(u, p), 1, 0, 0, 0, 0, 1);
    } else {
      EnterrarSuma(t, p, true);
      SumaTras(s, t, Enterrar(t, p, true), 1, 0, 0, 0, 0, 0);
    }
  }

  /** Between the change of the mutex and the recalculation the invariant holds with the process in hand. */
  lemma EnMutex(cfg: Cfg, s: Ks, p: Pid, nombre: string)
    requires Inv(cfg, s, None, 0) && Corre(s, p)
    ensures Inv(cfg, Desmarcar(SacarExec(s, p), p).(mutexes := LockEn(s.mutexes, p, s.procs[p].prioridad, nombre).lista), Some(p), 1)
  {
    hide Inv;
    FueraDeExec(cfg, s, p);
    if cfg.cmn {
      EsperasNiveles(cfg, s, None, 0);
      MutexesEsperas(s.mutexes, p, s.procs[p].prioridad, nombre);
    }
    MutexesInv(cfg, Desmarcar(SacarExec(s, p), p), Some(p), 1, LockEn(s.mutexes, p, s.procs[p].prioridad, nombre).lista);
  }

  lemma SoltandoSuma(cfg: Cfg, s: Ks, p: Pid, nombre: string)
    requires Inv(cfg, s, None, 0)
    ensures Suma(s, Soltando(cfg, s, p, nombre), 0, 0, 0)
  {
    hide Inv, Suma, Recalcular;
    var r := UnlockEn(s.mutexes, p, nombre);
    var m := s.(mutexes := r.lista);
    if cfg.cmn {
      EsperasNiveles(cfg, s, None, 0);
      MutexesEsperas(s.mutexes, p, 0, nombre);
    }
    MutexesInv(cfg, s, None, 0, r.lista);
    Ajeno(s, m);
    RecalcularSuma(cfg, m, None, 0, p);
    RecalcularInv(cfg, m, None, 0, p);
    var u := Recalcular(cfg, m, p);
    RecalcularSuma(cfg, u, None, 0, r.sucesor);
    SumaTras(s, m, u, 0, 0, 0, 0, 0, 0);
    SumaTras(s, u, Recalcular(cfg, u, r.sucesor), 0, 0, 0, 0, 0, 0);
  }

  /** A process that becomes READY brings its token. */
  predicate ConAviso(s: Ks, t: Ks) {
    Suma(s, t, 0, 0, 0) || Suma(s, t, 0, 1, 1)
  }

  lemma DespertadoSuma(cfg: Cfg, s: Ks, p: Pid)
    requires Formado(cfg, s)
    ensures ConAviso(s, Despertado(cfg, s, p))
  {
    hide Suma, Encolar, Poner, Sacar;
    Ajeno(s, s);
    PonerSuma(s, p, BLOCK);
    PonerSuma(s, p, SUSP_BLOCK);
    if p in s.block && p in s.procs {
      var t := Sacar(s, p, BLOCK);
      SacarIguales(s, p, BLOCK);
      EncolarSuma(cfg, t, p);
      SumaTras(s, t, Encolar(cfg, t, p), 0, 0, 0, 0, 1, 1);
    } else if p in s.suspBlock {
      var t := Sacar(s, p, SUSP_BLOCK);
      PonerSuma(t, p, SUSP_READY);
      SumaTras(s, t, Poner(t, p, SUSP_READY), 0, 0, 0, 0, 0, 0);
    }
  }

  lemma SacarIguales(s: Ks, p: Pid, e: Estado)
    ensures Sacar(s, p, e).procs == s.procs && Sacar(s, p, e).ready == s.ready
  {
  }

  lemma DesbloqueandoSuma(cfg: Cfg, s: Ks, p: Pid, nombre: string)
    requires Inv(cfg, s, None, 0) && Formado(cfg, s)
    ensures ConAviso(s, Desbloqueando(cfg, s, p, nombre))
  {
    hide Inv, Suma, Soltando, Despertado, UnlockEn;
    var t, q := Soltando(cfg, s, p, nombre), UnlockEn(s.mutexes, p, nombre).sucesor;
    SoltandoSuma(cfg, s, p, nombre);
    SoltandoFormado(cfg, s, p, nombre);
    if 0 <= q <= INT_MAX {
      DespertadoSuma(cfg, t, q);
      if Suma(t, Despertado(cfg, t, q), 0, 1, 1) {
        SumaTras(s, t, Despertado(cfg, t, q), 0, 0, 0, 0, 1, 1);
      } else {
        SumaTras(s, t, Despertado(cfg, t, q), 0, 0, 0, 0, 0, 0);
      }
    }
  }

  lemma MalogradoSuma(s: Ks, p: Pid)
    ensures Suma(s, Malogrado(s, p), 0, 0, 0)
  {
    hide Suma, Sacar, Enterrar;
    Ajeno(s, s);
    PonerSuma(s, p, BLOCK);
    PonerSuma(s, p, SUSP_BLOCK);
  }

  lemma ConDatosSuma(cfg: Cfg, s: Ks, p: Pid, validos: bool, vacio: bool)
    requires Formado(cfg, s)
    ensures ConAviso(s, ConDatos(cfg, s, p, validos, vacio))
  {
    hide Suma, Despertado, Malogrado, Sacar;
    DespertadoSuma(cfg, s, p);
    MalogradoSuma(s, p);
    PonerSuma(s, p, BLOCK);
    var t := Sacar(s, p, BLOCK);
    AbrirSuma(t, Escribiendo(p));
    SumaTras(s, t, Abrir(t, Escribiendo(p)), 0, 0, 0, 0, 0, 0);
  }

  /** What a handler can do with the process the answer was for. */
  lemma RegresoSuma(cfg: Cfg, s: Ks, tarea: Tarea, p: Pid)
    requires Formado(cfg, s) && p in s.procs
    ensures var t := Cerrar(s, tarea);
      && Suma(s, Encolar(cfg, t, p), 0, 1, 1) && Suma(s, Enterrar(t, p, false), 0, 0, 0)
      && Suma(s, Abrir(t, Escribiendo(p)), 0, 0, 0) && Suma(s, Morir(t, p), 0, 0, 0)
      && Suma(s, Poner(t, p, SUSP_READY), 0, 0, 0)
  {
    hide Suma, Encolar, Enterrar, Poner;
    var t := Cerrar(s, tarea);
    AbrirSuma(s, tarea);
    EncolarSuma(cfg, t, p);
    SumaTras(s, t, Encolar(cfg, t, p), 0, 0, 0, 0, 1, 1);
    EnterrarSuma(t, p, false);
    SumaTras(s, t, Enterrar(t, p, false), 0, 0, 0, 0, 0, 0);
    Ajeno(s, Abrir(t, Escribiendo(p)));
    Ajeno(s, Morir(t, p));
    PonerSuma(t, p, SUSP_READY);
    SumaTras(s, t, Poner(t, p, SUSP_READY), 0, 0, 0, 0, 0, 0);
  }

  lemma AsignadoSuma(cfg: Cfg, s: Ks, p: Pid, ok: bool)
    requires Inv(cfg, s, None, 0) && Puede(cfg, s, AllocFin(p, ok))
    ensures Suma(s, Asignado(s, p, ok), if ok then 0 else 1, 0, 0)
  {
    hide Inv, SoltarCpu, Enterrar, Redespachar;
    if s.fase.FinEnviado? {
      RespondidaInv(cfg, s);
    }
    var m := s.(fase := if s.fase.FinEnviado? then Respondida else s.fase);
    assert m.procs == s.procs && (!s.fase.FinEnviado? ==> m == s);
    CerrarInv(cfg, m, Alloc(p));
    var t := Cerrar(m, Alloc(p));
    Ajeno(s, t);
    if ok {
      RedespacharSuma(t, p);
    } else {
      SoltarSuma(cfg, t, p);
      EnterrarSuma(SoltarCpu(t, p), p, true);
    }
  }

  lemma RedespacharSuma(s: Ks, p: Pid)
    ensures Suma(s, Redespachar(s, p), 0, 0, 0)
  {
  }

  lemma SoltarSuma(cfg: Cfg, s: Ks, p: Pid)
    requires Inv(cfg, s, Some(p), 0) && p in s.procs && s.procs[p].fd >= 0
    ensures Suma(s, SoltarCpu(s, p), 1, 0, 0)
  {
    hide Lugares, Ligadura, Compactacion, NivelesOk;
    SoltarCpuLigadura(s, p);
  }

  lemma LiberadoSuma(s: Ks, p: Pid)
    ensures Suma(s, Liberado(s, p), 0, 0, 0)
  {
  }

  lemma LeidoSuma(s: Ks, p: Pid, ok: bool)
    ensures Suma(s, Leido(s, p, ok), 0, 0, 0)
  {
    hide Suma, Sacar, Enterrar;
    var t := Cerrar(s, Leyendo(p));
    AbrirSuma(s, Leyendo(p));
    PonerSuma(t, p, BLOCK);
    SumaTras(s, t, Enterrar(Sacar(t, p, BLOCK), p, false), 0, 0, 0, 0, 0, 0);
  }

  lemma SuspendidoSuma(s: Ks, p: Pid, ok: bool)
    ensures Suma(s, Suspendido(s, p, ok), 0, 0, 0)
  {
    hide Suma, Poner;
    var t := Cerrar(s, Suspendiendo(p));
    AbrirSuma(s, Suspendiendo(p));
    PonerSuma(t, p, if ok then SUSP_BLOCK else BLOCK);
    SumaTras(s, t, Suspendido(s, p, ok), 0, 0, 0, 0, 0, 0);
  }

  lemma CapturaSuma(s: Ks, p: Pid, e: Estado, t: Tarea)
    ensures Suma(s, Abrir(Sacar(s, p, e), t), 0, 0, 0)
  {
    Ajeno(s, Abrir(Sacar(s, p, e), t));
  }

  /** A dispatch spends the pass on one CPU and one process; without one of them there was nothing to cover. */
  lemma PlanificadoSuma(cfg: Cfg, s: Ks)
    requires Inv(cfg, s, None, 0) && s.plan && s.fase == Normal
    ensures Suma(s, Planificado(s), -1, -1, -1)
         || (Suma(s, Planificado(s), 0, 0, -1) && Min(Libres(s.cpus), |Listos(s.ready)|) == 0)
  {
    hide Lugares, Ligadura, Compactacion, NivelesOk;
    var i, k := PrimerNivel(s.ready), PrimeraLibre(s.cpus);
    if i.Some? && k.Some? {
      var m := s.(plan := false);
      DespacharInv(cfg, s, i.value, k.value);
      SacarReadyColas(m, i.value);
      LibresCambio(s.cpus, k.value, CpuEntry(s.cpus[k.value].fd, true));
    } else if i.None? {
      SinListos(s.ready);
    } else {
      SinLibres(s.cpus);
    }
  }

  lemma RescatadoSuma(s: Ks, p: Pid, fd: int)
    requires p in s.procs
    ensures Suma(s, Rescatado(s, p, fd), Libres(SinCpu(s.cpus, fd)) - Libres(s.cpus), 0, 0)
    ensures |Rescatado(s, p, fd).ready| == |s.ready| && p in Rescatado(s, p, fd).procs
  {
  }

  lemma DesconectadoSuma(cfg: Cfg, s: Ks, fd: int)
    requires Inv(cfg, s, None, 0) && Puede(cfg, s, DesconectarCpu(fd))
    ensures exists c :: c <= 0 && (Suma(s, Desconectado(cfg, s, fd), c, 0, 0) || Suma(s, Desconectado(cfg, s, fd), c, 1, 1))
  {
    hide Lugares, Compactacion, NivelesOk, Encolar, Rescatado;
    var c := Libres(SinCpu(s.cpus, fd)) - Libres(s.cpus);
    SinCpuLibres(s.cpus, fd);
    match Huerfano(s.procs, s.exec, fd)
    case None =>
      assert Suma(s, Desconectado(cfg, s, fd), c, 0, 0);
    case Some(p) =>
      RescatadoSuma(s, p, fd);
      EncolarSuma(cfg, Rescatado(s, p, fd), p);
      assert Suma(s, Desconectado(cfg, s, fd), c, 1, 1);
  }

  // ---------------------------------------------------------------- the exact steps

  lemma CpuCubre(cfg: Cfg, s: Ks, e: Suceso)
    requires Inv(cfg, s, None, 0) && Cubre(s) && Puede(cfg, s, e) && DeCpu(e)
    ensures Cubre(Despues(cfg, s, e)) <==> !(Entierra(s, e) && Justo(s))
  {
    hide Inv, Puede, Despues, Cubre, Entierra, Justo;
    if e.Termina? || e.Interrumpe? || e.Vuelve? {
      DejaCubre(cfg, s, e);
    } else {
      LlamaCubre(cfg, s, e);
    }
  }

  lemma DejaCubre(cfg: Cfg, s: Ks, e: Suceso)
    requires Inv(cfg, s, None, 0) && Cubre(s) && Puede(cfg, s, e) && (e.Termina? || e.Interrumpe? || e.Vuelve?)
    ensures Cubre(Despues(cfg, s, e)) <==> !(Entierra(s, e) && Justo(s))
  {
    hide Inv, Terminado, Interrumpido, Devuelto, LockEn, Libres, Listos, Formado;
    if Corre(s, e.pid) {
      SaleSuma(cfg, s, e.pid);
    }
  }

  lemma LlamaCubre(cfg: Cfg, s: Ks, e: Suceso)
    requires Inv(cfg, s, None, 0) && Cubre(s) && Puede(cfg, s, e) && DeCpu(e) && !e.Termina? && !e.Interrumpe? && !e.Vuelve?
    ensures Cubre(Despues(cfg, s, e)) <==> !(Entierra(s, e) && Justo(s))
  {
    hide Inv, Bloqueado, Pidiendo, Bloqueando, Desbloqueando, LockEn, Libres, Listos;
    match e
    case Bloquea(p, inicio) => if Corre(s, p) { BloqueadoSuma(cfg, s, p, inicio); }
    case MemPide(p, alloc) => if Corre(s, p) { PidiendoSuma(s, p, alloc); }
    case MutexCrea(_, _) =>
    case MutexLock(p, nombre) => if Corre(s, p) { BloqueandoSuma(cfg, s, p, nombre); }
    case MutexUnlock(p, nombre) => DesbloqueandoSuma(cfg, s, p, nombre);
  }

  lemma PidiendoSuma(s: Ks, p: Pid, alloc: bool)
    requires Corre(s, p)
    ensures Suma(s, Pidiendo(s, p, alloc), 0, 0, 0)
  {
    Ajeno(s, Pidiendo(s, p, alloc));
  }

  lemma RegresoCubre(cfg: Cfg, s: Ks, e: Suceso)
    requires Puede(cfg, s, e) && (e.CrearFin? || e.StdinFin? || e.DesuspenderFin?)
    ensures ConAviso(s, Despues(cfg, s, e))
  {
    hide Suma, Encolar, Enterrar, Poner, Abrir, Morir, Cerrar;
    match e
    case CrearFin(p, ok) => RegresoSuma(cfg, s, Creando(p), p);
    case StdinFin(p, ok) => RegresoSuma(cfg, s, Escribiendo(p), p);
    case DesuspenderFin(p, regreso) => RegresoSuma(cfg, s, Desuspendiendo(p), p);
  }

  lemma MemoriaCubre(cfg: Cfg, s: Ks, e: Suceso)
    requires Inv(cfg, s, None, 0) && Cubre(s) && Puede(cfg, s, e) && DeMemoria(e)
    ensures Cubre(Despues(cfg, s, e)) <==> !(Entierra(s, e) && Justo(s))
  {
    hide Inv, Asignado, Liberado, Leido, Suspendido, Cerrar, Libres, Listos;
    if e.CrearFin? || e.StdinFin? || e.DesuspenderFin? {
      hide Despues, Puede;
      RegresoCubre(cfg, s, e);
    } else {
      hide Despues, Puede;
      RespuestaCubre(cfg, s, e);
    }
  }

  lemma RespuestaCubre(cfg: Cfg, s: Ks, e: Suceso)
    requires Inv(cfg, s, None, 0) && Cubre(s) && Puede(cfg, s, e) && DeMemoria(e) && !e.CrearFin? && !e.StdinFin? && !e.DesuspenderFin?
    ensures Cubre(Despues(cfg, s, e)) <==> !(Entierra(s, e) && Justo(s))
  {
    hide Inv, Asignado, Liberado, Leido, Suspendido, Cerrar, Libres, Listos, Formado, LockEn;
    match e
    case LecturaFin(p, ok) => LeidoSuma(s, p, ok);
    case SuspenderFin(p, ok) => SuspendidoSuma(s, p, ok);
    case AllocFin(p, ok) => AsignadoSuma(cfg, s, p, ok);
    case FreeFin(p) => LiberadoSuma(s, p);
    case AvisoFin(p, debe) => AvisoSuma(s, Avisando(p, debe), Bit(debe));
  }

  lemma AvisoSuma(s: Ks, t: Tarea, n: nat)
    ensures Suma(s, Cerrar(s, t).(tokens := s.tokens + n), 0, 0, n)
  {
  }

  lemma OtroCubre(cfg: Cfg, s: Ks, e: Suceso)
    requires Inv(cfg, s, None, 0) && Cubre(s) && Puede(cfg, s, e) && !DeMemoria(e) && !DeCpu(e)
    ensures Cubre(Despues(cfg, s, e))
  {
    hide Inv, Desconectado, Planificado, Malogrado, Despertado, ConDatos, Sacar, Libres, Listos, MarcarTodos;
    match e
    case ConectarCpu(fd) => LibresAppend(s.cpus, CpuEntry(fd, false));
    case DesconectarCpu(fd) => DesconectadoSuma(cfg, s, fd);
    case CrearInicio(_, _) =>
    case PlanPasa => PlanificadoSuma(cfg, s);
    case IoFin(p, sinDatos) => DespertadoSuma(cfg, s, p); MalogradoSuma(s, p);
    case StdinDatos(p, validos, vacio) => ConDatosSuma(cfg, s, p, validos, vacio);
    case SuspenderInicio(p) => CapturaSuma(s, p, BLOCK, Suspendiendo(p));
    case DesuspenderInicio(p) => CapturaSuma(s, p, SUSP_READY, Desuspendiendo(p));
    case _ =>
  }

  /**
   * Work conservation without counting what is owed: a step loses it exactly when it
   * buries a process whose CPU was not free, with more work than free CPUs and no
   * wakeup to spare.
   */
  lemma PasoCubre(cfg: Cfg, s: Ks, e: Suceso)
    requires Inv(cfg, s, None, 0) && Cubre(s) && Puede(cfg, s, e)
    ensures Cubre(Despues(cfg, s, e)) <==> !(Entierra(s, e) && Justo(s))
  {
    hide Inv, Despues, Cubre, Justo;
    if DeMemoria(e) {
      MemoriaCubre(cfg, s, e);
    } else if DeCpu(e) {
      CpuCubre(cfg, s, e);
    } else {
      OtroCubre(cfg, s, e);
    }
  }

  /** Over a run: the tokens cover the work in every state if and only if no step buries a process at a tight moment. */
  lemma CorridaCubre(cfg: Cfg, ss: seq<Ks>, es: seq<Suceso>, n: nat)
    requires Corrida(cfg, ss, es) && n <= |es|
    ensures (forall i :: 0 <= i <= n ==> Cubre(ss[i])) <==> (forall i :: 0 <= i < n ==> !(Entierra(ss[i], es[i]) && Justo(ss[i])))
  {
    hide Inv, Despues, Cubre, Justo, Entierra, Puede;
    if n == 0 {
      InicialCubre(cfg);
    } else {
      CorridaCubre(cfg, ss, es, n - 1);
      if forall i :: 0 <= i <= n - 1 ==> Cubre(ss[i]) {
        CorridaInv(cfg, ss, es, n - 1);
        PasoCubre(cfg, ss[n - 1], es[n - 1]);
        assert ss[n - 1 + 1] == Despues(cfg, ss[n - 1], es[n - 1]);
        assert Cubre(ss[n]) <==> !(Entierra(ss[n - 1], es[n - 1]) && Justo(ss[n - 1]));
      }
    }
  }

  lemma InicialCubre(cfg: Cfg)
    requires CfgOk(cfg)
    ensures Cubre(Inicial(cfg))
  {
  }
}
