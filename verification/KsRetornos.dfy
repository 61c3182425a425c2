/** The returns a compaction counts: where one can be left over, and what decides whether FIN_COMPACTACION finds EXEC empty. */
module KsRetornos {
  import opened Basics
  import opened KsMutex
  import opened KsEstado
  import opened KsInvariantes
  import opened KsHandlers
  import opened KsPlanificador
  import opened KsPasos
  import opened KsCorridas

  /** The process a step takes out of EXEC. */
  function QuienSale(s: Ks, e: Suceso): Option<Pid> {
    match e
    case Termina(p) => if Corre(s, p) then Some(p) else None
    case Interrumpe(p) => if Corre(s, p) then Some(p) else None
    case Vuelve(p) => if Corre(s, p) then Some(p) else None
    case Bloquea(p, _) => if Corre(s, p) then Some(p) else None
    case MemPide(p, _) => if Corre(s, p) then Some(p) else None
    case MutexLock(p, _) => if Corre(s, p) then Some(p) else None
    case DesconectarCpu(fd) => Huerfano(s.procs, s.exec, fd)
    case _ => None
  }

  /** Everybody else that runs goes on running. */
  predicate Siguen(s: Ks, t: Ks, sale: Option<Pid>) {
    forall p :: p in s.exec && sale != Some(p) ==> p in t.exec
  }

  predicate SaleMarcado(s: Ks, e: Suceso) {
    match QuienSale(s, e)
    case None => false
    case Some(p) => p in s.procs && s.procs[p].preemptado
  }

  /** A marked process leaves EXEC after Kernel Memory has answered and before compactando is cleared. */
  predicate Deja(s: Ks, e: Suceso) {
    s.fase == Respondida && SaleMarcado(s, e)
  }

  // ---------------------------------------------------------------- the semaphore

  lemma EncolarDevueltas(cfg: Cfg, s: Ks, p: Pid)
    requires p in s.procs && Formado(cfg, s)
    ensures Encolar(cfg, s, p).devueltas == s.devueltas && PonerReady(cfg, s, p, true).devueltas == s.devueltas
    ensures Encolar(cfg, s, p).exec == s.exec && PonerReady(cfg, s, p, true).exec == s.exec
  {
  }

  lemma RecalcularDevueltas(cfg: Cfg, s: Ks, q: int)
    ensures Recalcular(cfg, s, q).devueltas == s.devueltas && |Recalcular(cfg, s, q).ready| == |s.ready|
    ensures Recalcular(cfg, s, q).procs.Keys == s.procs.Keys && Recalcular(cfg, s, q).exec == s.exec
  {
  }

  lemma DespertadoDevueltas(cfg: Cfg, s: Ks, p: Pid)
    requires Formado(cfg, s)
    ensures Despertado(cfg, s, p).devueltas == s.devueltas && Despertado(cfg, s, p).exec == s.exec
  {
    hide Encolar;
    if p in s.block && p in s.procs {
      EncolarDevueltas(cfg, Sacar(s, p, BLOCK), p);
    }
  }

  lemma SaleDevueltas(cfg: Cfg, s: Ks, p: Pid)
    requires Corre(s, p) && Formado(cfg, s)
    ensures var n := s.devueltas + Bit(Compactando(s) && s.procs[p].preemptado);
      Terminado(s, p).devueltas == n && Interrumpido(cfg, s, p).devueltas == n && Devuelto(cfg, s, p).devueltas == n
    ensures Siguen(s, Terminado(s, p), Some(p)) && Siguen(s, Interrumpido(cfg, s, p), Some(p)) && Siguen(s, Devuelto(cfg, s, p), Some(p))
  {
    hide Encolar, PonerReady;
    QuitarMiembros(s.exec, p);
    EncolarDevueltas(cfg, SacarExec(s, p), p);
    EncolarDevueltas(cfg, Desmarcar(SacarExec(s, p), p), p);
  }

  lemma BloqueadoDevueltas(s: Ks, p: Pid, inicio: Inicio)
    requires Corre(s, p)
    ensures Bloqueado(s, p, inicio).devueltas == s.devueltas + Bit(Compactando(s) && s.procs[p].preemptado)
    ensures Siguen(s, Bloqueado(s, p, inicio), Some(p))
  {
    QuitarMiembros(s.exec, p);
  }

  lemma BloqueandoDevueltas(cfg: Cfg, s: Ks, p: Pid, nombre: string)
    requires Corre(s, p) && Formado(cfg, s)
    ensures Bloqueando(cfg, s, p, nombre).devueltas == s.devueltas + Bit(Compactando(s) && s.procs[p].preemptado)
    ensures Siguen(s, Bloqueando(cfg, s, p, nombre), Some(p))
  {
    QuitarMiembros(s.exec, p);
    hide Encolar, Recalcular, LockEn;
    var l := LockEn(s.mutexes, p, s.procs[p].prioridad, nombre);
    var t := Desmarcar(SacarExec(s, p), p).(mutexes := l.lista);
    EncolarDevueltas(cfg, t, p);
    RecalcularDevueltas(cfg, t, l.ownerAElevar);
  }

  lemma DesbloqueandoDevueltas(cfg: Cfg, s: Ks, p: Pid, nombre: string)
    requires Formado(cfg, s)
    ensures Desbloqueando(cfg, s, p, nombre).devueltas == s.devueltas && Desbloqueando(cfg, s, p, nombre).exec == s.exec
  {
    hide Recalcular, Despertado, UnlockEn;
    var r := UnlockEn(s.mutexes, p, nombre);
    var m := s.(mutexes := r.lista);
    RecalcularDevueltas(cfg, m, p);
    RecalcularDevueltas(cfg, Recalcular(cfg, m, p), r.sucesor);
    if 0 <= r.sucesor <= INT_MAX {
      DespertadoDevueltas(cfg, Soltando(cfg, s, p, nombre), r.sucesor);
    }
  }

  /** A message of a CPU takes its own process out, unless it is about a mutex it does not wait for. */
  lemma SalidaDeCpu(s: Ks, e: Suceso)
    requires DeCpu(e)
    ensures SaleMarcado(s, e) <==> !e.MutexCrea? && !e.MutexUnlock? && Corre(s, e.pid) && s.procs[e.pid].preemptado
    ensures QuienSale(s, e) == if !e.MutexCrea? && !e.MutexUnlock? && Corre(s, e.pid) then Some(e.pid) else None
  {
  }

  lemma CpuDevueltas(cfg: Cfg, s: Ks, e: Suceso)
    requires Puede(cfg, s, e) && DeCpu(e)
    ensures Despues(cfg, s, e).devueltas == s.devueltas + Bit(Compactando(s) && SaleMarcado(s, e))
    ensures Siguen(s, Despues(cfg, s, e), QuienSale(s, e))
  {
    hide Despues, Puede, SaleMarcado;
    if e.Termina? || e.Interrumpe? || e.Vuelve? {
      DejaDevueltas(cfg, s, e);
    } else {
      LlamaDevueltas(cfg, s, e);
    }
  }

  lemma DejaDevueltas(cfg: Cfg, s: Ks, e: Suceso)
    requires Puede(cfg, s, e) && (e.Termina? || e.Interrumpe? || e.Vuelve?)
    ensures Despues(cfg, s, e).devueltas == s.devueltas + Bit(Compactando(s) && SaleMarcado(s, e))
    ensures Siguen(s, Despues(cfg, s, e), QuienSale(s, e))
  {
    hide Terminado, Interrumpido, Devuelto, QuienSale, SaleMarcado, Formado;
    SalidaDeCpu(s, e);
    if Corre(s, e.pid) {
      SaleDevueltas(cfg, s, e.pid);
    }
  }

  lemma PidiendoDevueltas(s: Ks, p: Pid, alloc: bool)
    requires Corre(s, p)
    ensures Pidiendo(s, p, alloc).devueltas == s.devueltas + Bit(Compactando(s) && s.procs[p].preemptado)
    ensures Siguen(s, Pidiendo(s, p, alloc), Some(p))
  {
    QuitarMiembros(s.exec, p);
  }

  lemma LlamaDevueltas(cfg: Cfg, s: Ks, e: Suceso)
    requires Puede(cfg, s, e) && DeCpu(e) && !e.Termina? && !e.Interrumpe? && !e.Vuelve?
    ensures Despues(cfg, s, e).devueltas == s.devueltas + Bit(Compactando(s) && SaleMarcado(s, e))
    ensures Siguen(s, Despues(cfg, s, e), QuienSale(s, e))
  {
    hide Bloqueado, Bloqueando, Desbloqueando, QuienSale, SaleMarcado, Formado, Pidiendo;
    SalidaDeCpu(s, e);
    match e
    case Bloquea(p, inicio) => if Corre(s, p) { BloqueadoDevueltas(s, p, inicio); }
    case MemPide(p, alloc) => if Corre(s, p) { PidiendoDevueltas(s, p, alloc); }
    case MutexLock(p, nombre) => if Corre(s, p) { BloqueandoDevueltas(cfg, s, p, nombre); }
    case MutexUnlock(p, nombre) => DesbloqueandoDevueltas(cfg, s, p, nombre);
    case _ =>
  }

  lemma RegresoDevueltas(cfg: Cfg, s: Ks, t: Tarea, p: Pid)
    requires Formado(cfg, s) && p in s.procs
    ensures Encolar(cfg, Cerrar(s, t), p).devueltas == s.devueltas && Enterrar(Cerrar(s, t), p, false).devueltas == s.devueltas
    ensures Poner(Cerrar(s, t), p, SUSP_READY).devueltas == s.devueltas
    ensures Encolar(cfg, Cerrar(s, t), p).exec == s.exec && Enterrar(Cerrar(s, t), p, false).exec == s.exec
    ensures Poner(Cerrar(s, t), p, SUSP_READY).exec == s.exec
  {
    hide Encolar;
    EncolarDevueltas(cfg, Cerrar(s, t), p);
  }

  lemma AsignadoDevueltas(s: Ks, p: Pid, ok: bool)
    requires p in s.procs
    ensures Asignado(s, p, ok).devueltas == s.devueltas && Siguen(s, Asignado(s, p, ok), None)
  {
  }

  lemma LeidoDevueltas(s: Ks, p: Pid, ok: bool)
    ensures Leido(s, p, ok).devueltas == s.devueltas && Suspendido(s, p, ok).devueltas == s.devueltas && Liberado(s, p).devueltas == s.devueltas
    ensures Siguen(s, Leido(s, p, ok), None) && Siguen(s, Suspendido(s, p, ok), None) && Siguen(s, Liberado(s, p), None)
  {
  }

  lemma MemoriaDevueltas(cfg: Cfg, s: Ks, e: Suceso)
    requires Puede(cfg, s, e) && DeMemoria(e)
    ensures Despues(cfg, s, e).devueltas == s.devueltas && Siguen(s, Despues(cfg, s, e), None)
  {
    hide Despues, Puede;
    if e.CrearFin? || e.StdinFin? || e.DesuspenderFin? {
      VueltaDevueltas(cfg, s, e);
    } else {
      RespuestaDevueltas(cfg, s, e);
    }
  }

  lemma VueltaDevueltas(cfg: Cfg, s: Ks, e: Suceso)
    requires Puede(cfg, s, e) && (e.CrearFin? || e.StdinFin? || e.DesuspenderFin?)
    ensures Despues(cfg, s, e).devueltas == s.devueltas && Siguen(s, Despues(cfg, s, e), None)
  {
    hide Encolar, Enterrar, Poner;
    RegresoDevueltas(cfg, s, if e.CrearFin? then Creando(e.pid) else if e.StdinFin? then Escribiendo(e.pid) else Desuspendiendo(e.pid), e.pid);
  }

  lemma RespuestaDevueltas(cfg: Cfg, s: Ks, e: Suceso)
    requires Puede(cfg, s, e) && DeMemoria(e) && !e.CrearFin? && !e.StdinFin? && !e.DesuspenderFin?
    ensures Despues(cfg, s, e).devueltas == s.devueltas && Siguen(s, Despues(cfg, s, e), None)
  {
    hide Asignado, Leido, Suspendido, Liberado, Formado;
    match e
    case LecturaFin(p, ok) => LeidoDevueltas(s, p, ok);
    case SuspenderFin(p, ok) => LeidoDevueltas(s, p, ok);
    case AllocFin(p, ok) => AsignadoDevueltas(s, p, ok);
    case FreeFin(p) => LeidoDevueltas(s, p, true);
    case AvisoFin(p, debe) =>
  }

  lemma DesconectadoDevueltas(cfg: Cfg, s: Ks, fd: int)
    requires Formado(cfg, s)
    ensures Desconectado(cfg, s, fd).devueltas == s.devueltas + Bit(Compactando(s) && SaleMarcado(s, DesconectarCpu(fd)))
    ensures Siguen(s, Desconectado(cfg, s, fd), Huerfano(s.procs, s.exec, fd))
  {
    hide Encolar;
    match Huerfano(s.procs, s.exec, fd)
    case None =>
    case Some(p) =>
      QuitarMiembros(s.exec, p);
      EncolarDevueltas(cfg, Rescatado(s, p, fd), p);
  }

  lemma EnterradoDevueltas(s: Ks, p: Pid, e: Estado)
    ensures Enterrar(Sacar(s, p, e), p, false).devueltas == s.devueltas && Enterrar(Sacar(s, p, e), p, false).exec == s.exec
  {
  }

  lemma MalogradoDevueltas(s: Ks, p: Pid)
    ensures Malogrado(s, p).devueltas == s.devueltas && Malogrado(s, p).exec == s.exec
  {
    hide Enterrar, Sacar;
    EnterradoDevueltas(s, p, BLOCK);
    EnterradoDevueltas(s, p, SUSP_BLOCK);
  }

  lemma OtroDevueltas(cfg: Cfg, s: Ks, e: Suceso)
    requires Puede(cfg, s, e) && !DeMemoria(e) && !DeCpu(e)
    ensures Despues(cfg, s, e).devueltas == s.devueltas + Bit(Compactando(s) && SaleMarcado(s, e)) - Bit(e == Recoge)
    ensures Siguen(s, Despues(cfg, s, e), QuienSale(s, e))
  {
    hide Desconectado, Malogrado, Despertado, Huerfano;
    match e
    case DesconectarCpu(fd) => DesconectadoDevueltas(cfg, s, fd);
    case IoFin(p, _) => DespertadoDevueltas(cfg, s, p); MalogradoDevueltas(s, p);
    case StdinDatos(p, _, _) => DespertadoDevueltas(cfg, s, p); MalogradoDevueltas(s, p);
    case _ =>
  }

  /** The semaphore changes in two ways only: a marked process leaves EXEC during a compaction, or the wait takes one. Of those that run, one leaves at a time. */
  lemma Devueltas(cfg: Cfg, s: Ks, e: Suceso)
    requires Puede(cfg, s, e)
    ensures Despues(cfg, s, e).devueltas == s.devueltas + Bit(Compactando(s) && SaleMarcado(s, e)) - Bit(e == Recoge)
    ensures Siguen(s, Despues(cfg, s, e), QuienSale(s, e))
  {
    hide Despues, SaleMarcado;
    if DeMemoria(e) {
      MemoriaDevueltas(cfg, s, e);
      SinSalida(s, e);
    } else if DeCpu(e) {
      CpuDevueltas(cfg, s, e);
    } else {
      OtroDevueltas(cfg, s, e);
    }
  }

  lemma SinSalida(s: Ks, e: Suceso)
    requires DeMemoria(e)
    ensures !SaleMarcado(s, e) && QuienSale(s, e) == None
  {
  }

  // ---------------------------------------------------------------- over runs

  /** Nothing is left over in the semaphore, nor was when the processes were marked. */
  predicate SinResto(s: Ks) {
    match s.fase
    case Marcada(_, _, _, sobrantes) => sobrantes == 0
    case FinEnviado(_, sobrantes) => sobrantes == 0
    case _ => s.devueltas == 0
  }

  lemma CreadoFase(cfg: Cfg, s: Ks, p: Pid, ok: bool)
    requires Formado(cfg, s) && p in s.procs
    ensures Creado(cfg, s, p, ok).fase == s.fase
  {
  }

  lemma AsignadoFase(s: Ks, p: Pid, ok: bool)
    requires p in s.procs
    ensures Asignado(s, p, ok).fase == if s.fase.FinEnviado? then Respondida else s.fase
  {
  }

  lemma OtraFase(s: Ks, p: Pid)
    ensures Liberado(s, p).fase == s.fase && Planificado(s).fase == s.fase
  {
  }

  lemma RestoFase(cfg: Cfg, s: Ks, e: Suceso)
    requires Puede(cfg, s, e) && (e.CrearFin? || e.AllocFin? || e.FreeFin? || e.PlanPasa? || e.MutexCrea?)
    ensures Despues(cfg, s, e).fase == if e.AllocFin? && s.fase.FinEnviado? then Respondida else s.fase
  {
    hide Asignado, Liberado, Creado, Planificado;
    match e
    case CrearFin(p, ok) => CreadoFase(cfg, s, p, ok);
    case AllocFin(p, ok) => AsignadoFase(s, p, ok);
    case FreeFin(p) => OtraFase(s, p);
    case PlanPasa => OtraFase(s, 0);
    case MutexCrea(_, _) =>
  }

  /** What each step of the handshake makes of the phase. */
  function FaseDe(s: Ks, e: Suceso): Fase {
    match e
    case Marca => if s.pedida.Some? then Marcada(s.pedida.value, |s.exec|, |s.exec|, s.devueltas) else s.fase
    case Recoge => if s.fase.Marcada? && s.fase.faltan > 0 then s.fase.(faltan := s.fase.faltan - 1) else s.fase
    case EnviaFin => if s.fase.Marcada? then FinEnviado(s.fase.pid, s.fase.sobrantes) else s.fase
    case AllocFin(_, _) => if s.fase.FinEnviado? then Respondida else s.fase
    case Reanuda => Normal
    case _ => s.fase
  }

  lemma CompactacionFase(cfg: Cfg, s: Ks, e: Suceso)
    requires Puede(cfg, s, e) && (e.Marca? || e.Recoge? || e.EnviaFin? || e.Reanuda?)
    ensures Despues(cfg, s, e).fase == FaseDe(s, e)
  {
  }

  /** The phases of a compaction follow each other, and nothing else moves them. */
  lemma FaseTras(cfg: Cfg, s: Ks, e: Suceso)
    requires Puede(cfg, s, e)
    ensures Despues(cfg, s, e).fase == FaseDe(s, e)
  {
    hide Despues, Puede;
    if !DePlanOMutex(e) {
      PasoMarco(cfg, s, e);
    } else if e.MutexLock? || e.MutexUnlock? {
      MutexMarco(cfg, s, e);
    } else if e.CrearFin? || e.AllocFin? || e.FreeFin? || e.PlanPasa? || e.MutexCrea? {
      RestoFase(cfg, s, e);
    } else {
      CompactacionFase(cfg, s, e);
    }
  }

  lemma PasoSinResto(cfg: Cfg, s: Ks, e: Suceso)
    requires Inv(cfg, s, None, 0) && Puede(cfg, s, e) && SinResto(s) && !Deja(s, e)
    ensures SinResto(Despues(cfg, s, e))
  {
    hide Inv, Despues, SaleMarcado;
    Devueltas(cfg, s, e);
    FaseTras(cfg, s, e);
    Cuenta(cfg, s);
    if e.AllocFin? {
      SinSalida(s, e);
    }
  }

  lemma {:induction false} CorridaSinResto(cfg: Cfg, ss: seq<Ks>, es: seq<Suceso>, n: nat)
    requires Corrida(cfg, ss, es) && n <= |es| && forall i :: 0 <= i < n ==> !Deja(ss[i], es[i])
    ensures SinResto(ss[n])
  {
    hide Inv, Despues, Puede, Deja;
    if n > 0 {
      CorridaSinResto(cfg, ss, es, n - 1);
      CorridaInv(cfg, ss, es, n - 1);
      assert ss[n - 1 + 1] == Despues(cfg, ss[n - 1], es[n - 1]);
      PasoSinResto(cfg, ss[n - 1], es[n - 1]);
    }
  }

  /**
   * As long as no marked process has left EXEC between Kernel Memory's answer and the
   * end of a compaction, FIN_COMPACTACION is sent with EXEC empty, and it stays empty
   * until the answer.
   */
  lemma SinDejarNadieCorre(cfg: Cfg, ss: seq<Ks>, es: seq<Suceso>, n: nat)
    requires Corrida(cfg, ss, es) && n <= |es| && forall i :: 0 <= i < n ==> !Deja(ss[i], es[i])
    requires ss[n].fase.FinEnviado?
    ensures ss[n].exec == [] && ss[n].devueltas == 0
  {
    hide Inv, Despues, Puede, Deja;
    CorridaSinResto(cfg, ss, es, n);
    CorridaInv(cfg, ss, es, n);
    Cuenta(cfg, ss[n]);
  }

  // ---------------------------------------------------------------- at each marking

  /** The processes are marked while someone runs and a return is left over. */
  predicate Estorba(s: Ks, e: Suceso) {
    e == Marca && s.exec != [] && s.devueltas > 0
  }

  /** Nothing was left over when the processes were marked, or nobody ran. */
  predicate Limpia(s: Ks) {
    s.fase.Marcada? || s.fase.FinEnviado? ==> s.fase.sobrantes == 0 || s.exec == []
  }

  lemma PasoLimpia(cfg: Cfg, s: Ks, e: Suceso)
    requires Inv(cfg, s, None, 0) && Puede(cfg, s, e) && Limpia(s) && !Estorba(s, e)
    ensures Limpia(Despues(cfg, s, e))
  {
    hide Inv, Despues, Puede;
    FaseTras(cfg, s, e);
    if e == Marca {
      MarcaExec(cfg, s);
    } else if e.AllocFin? {
      NoMarcada(cfg, s, e);
    } else if Esperando(s) {
      NadieEntra(cfg, s, e);
      var t := Despues(cfg, s, e);
      assert t.exec != [] ==> t.exec[0] in s.exec;
    }
  }

  lemma NoMarcada(cfg: Cfg, s: Ks, e: Suceso)
    requires Puede(cfg, s, e) && e.AllocFin?
    ensures !s.fase.Marcada?
  {
  }

  lemma MarcaExec(cfg: Cfg, s: Ks)
    requires Puede(cfg, s, Marca)
    ensures Despues(cfg, s, Marca).exec == s.exec
  {
  }

  /** In a run in which no marking is of that kind, FIN_COMPACTACION is always sent with EXEC empty; AlMarcar says of each such marking that it need not be. */
  lemma {:induction false} SinEstorbo(cfg: Cfg, ss: seq<Ks>, es: seq<Suceso>, n: nat)
    requires Corrida(cfg, ss, es) && n <= |es| && forall i :: 0 <= i < n ==> !Estorba(ss[i], es[i])
    ensures Limpia(ss[n]) && (ss[n].fase.FinEnviado? ==> ss[n].exec == [])
  {
    hide Inv, Despues, Puede, Estorba;
    if n > 0 {
      SinEstorbo(cfg, ss, es, n - 1);
      CorridaInv(cfg, ss, es, n - 1);
      assert ss[n - 1 + 1] == Despues(cfg, ss[n - 1], es[n - 1]);
      PasoLimpia(cfg, ss[n - 1], es[n - 1]);
    }
    CorridaInv(cfg, ss, es, n);
    Cuenta(cfg, ss[n]);
  }

  /** Only a run in which a marked process leaves EXEC between the answer and the end of a compaction has such a marking, and none has without queue preemption. */
  lemma EstorbaSoloSiDeja(cfg: Cfg, ss: seq<Ks>, es: seq<Suceso>, n: nat)
    requires Corrida(cfg, ss, es) && n < |es| && (!cfg.preemption || forall i :: 0 <= i < n ==> !Deja(ss[i], es[i]))
    ensures !Estorba(ss[n], es[n])
  {
    hide Inv, Despues, Deja;
    if !cfg.preemption {
      CorridaInv(cfg, ss, es, n);
      SinPreemption(cfg, ss[n]);
    } else {
      CorridaSinResto(cfg, ss, es, n);
    }
  }

  lemma SinPreemption(cfg: Cfg, s: Ks)
    requires Inv(cfg, s, None, 0) && !cfg.preemption
    ensures s.fase == Normal ==> s.devueltas == 0
  {
    hide Lugares, Ligadura, NivelesOk;
  }

  // ---------------------------------------------------------------- decided when the processes are marked

  /** A run from `s` up to the first state in which no process is awaited any more. */
  ghost predicate Tramo(cfg: Cfg, s: Ks, ss: seq<Ks>, es: seq<Suceso>) {
    && |ss| == |es| + 1 && ss[0] == s
    && forall i :: 0 <= i < |es| ==> ss[i].fase.Marcada? && Puede(cfg, ss[i], es[i]) && ss[i + 1] == Despues(cfg, ss[i], es[i])
  }

  /** The wait of a compaction, whole: from the marking loop to FIN_COMPACTACION. */
  ghost predicate Espera(cfg: Cfg, b: Ks, ss: seq<Ks>, es: seq<Suceso>)
    requires Puede(cfg, b, Marca)
  {
    Tramo(cfg, Despues(cfg, b, Marca), ss, es) && ss[|es|].fase.FinEnviado?
  }

  lemma ConMiembro(q: seq<Pid>)
    ensures q == [] || exists p: Pid :: p in q
  {
    if q != [] {
      assert q[0] in q;
    }
  }

  lemma PasoEspera(cfg: Cfg, s: Ks, e: Suceso)
    requires Inv(cfg, s, None, 0) && Puede(cfg, s, e) && s.fase.Marcada?
    ensures var t := Despues(cfg, s, e); Inv(cfg, t, None, 0) && Esperando(t) && t.fase.sobrantes == s.fase.sobrantes
    ensures s.exec == [] ==> Despues(cfg, s, e).exec == []
  {
    hide Inv, Despues;
    PasoInv(cfg, s, e);
    FaseTras(cfg, s, e);
    if !e.AllocFin? {
      NadieEntra(cfg, s, e);
      ConMiembro(Despues(cfg, s, e).exec);
    }
  }

  lemma {:induction false} TramoEspera(cfg: Cfg, s: Ks, ss: seq<Ks>, es: seq<Suceso>, n: nat)
    requires Inv(cfg, s, None, 0) && s.fase.Marcada? && Tramo(cfg, s, ss, es) && n <= |es|
    ensures Inv(cfg, ss[n], None, 0) && Esperando(ss[n]) && ss[n].fase.sobrantes == s.fase.sobrantes
    ensures s.exec == [] ==> ss[n].exec == []
  {
    hide Inv, Despues, Puede;
    if n > 0 {
      TramoEspera(cfg, s, ss, es, n - 1);
      assert ss[n - 1 + 1] == Despues(cfg, ss[n - 1], es[n - 1]);
      PasoEspera(cfg, ss[n - 1], es[n - 1]);
    }
  }

  lemma TramoMas(cfg: Cfg, s: Ks, e: Suceso, ss: seq<Ks>, es: seq<Suceso>)
    requires s.fase.Marcada? && Puede(cfg, s, e) && Tramo(cfg, Despues(cfg, s, e), ss, es)
    ensures Tramo(cfg, s, [s] + ss, [e] + es)
  {
    hide Puede, Despues;
    var ss2, es2 := [s] + ss, [e] + es;
    forall i | 0 <= i < |es2|
      ensures ss2[i].fase.Marcada? && Puede(cfg, ss2[i], es2[i]) && ss2[i + 1] == Despues(cfg, ss2[i], es2[i])
    {
      if i > 0 {
        assert ss2[i] == ss[i - 1] && es2[i] == es[i - 1] && ss2[i + 1] == ss[i - 1 + 1];
      }
    }
  }

  /** With something left over, all but one process can return, and the wait ends with that one running. */
  lemma {:induction false} HastaElFin(cfg: Cfg, s: Ks) returns (ss: seq<Ks>, es: seq<Suceso>)
    requires Inv(cfg, s, None, 0) && s.fase.Marcada? && s.fase.sobrantes > 0 && s.exec != []
    ensures Tramo(cfg, s, ss, es) && ss[|es|].fase.FinEnviado? && ss[|es|].exec != []
    decreases |s.exec|, s.fase.faltan
  {
    hide Inv, Despues, Puede;
    Cuenta(cfg, s);
    var e := Siguiente(cfg, s);
    var t := Despues(cfg, s, e);
    PasoEspera(cfg, s, e);
    if e == EnviaFin {
      ss, es := [t], [];
    } else {
      ss, es := HastaElFin(cfg, t);
    }
    TramoMas(cfg, s, e, ss, es);
    ss, es := [s] + ss, [e] + es;
  }

  /** The step to take: let one more return while more than one runs, else take a post, else send FIN_COMPACTACION. */
  lemma Siguiente(cfg: Cfg, s: Ks) returns (e: Suceso)
    requires Inv(cfg, s, None, 0) && s.fase.Marcada? && s.fase.sobrantes > 0 && s.exec != []
    ensures Puede(cfg, s, e)
    ensures var t := Despues(cfg, s, e);
      if e == EnviaFin then t.fase.FinEnviado? && t.exec == s.exec
      else t.fase.Marcada? && t.exec != [] && (|t.exec| < |s.exec| || (|t.exec| == |s.exec| && t.fase.faltan < s.fase.faltan))
  {
    hide Inv;
    Cuenta(cfg, s);
    Formada(cfg, s);
    if |s.exec| > 1 {
      var p := s.exec[0];
      Lugar(cfg, s, p);
      assert p in Cola(s, EXEC);
      e := Interrumpe(p);
      UnoVuelve(cfg, s, p);
    } else if s.fase.faltan > 0 {
      e := Recoge;
    } else {
      e := EnviaFin;
    }
  }

  lemma UnoVuelve(cfg: Cfg, s: Ks, p: Pid)
    requires Inv(cfg, s, None, 0) && s.fase.Marcada? && Corre(s, p) && Puede(cfg, s, Interrumpe(p))
    ensures Despues(cfg, s, Interrumpe(p)).fase == s.fase && |Despues(cfg, s, Interrumpe(p)).exec| == |s.exec| - 1
  {
    hide Inv, Despues;
    Cuenta(cfg, s);
    PasoInv(cfg, s, Interrumpe(p));
    Cuenta(cfg, Despues(cfg, s, Interrumpe(p)));
    FaseTras(cfg, s, Interrumpe(p));
    Devueltas(cfg, s, Interrumpe(p));
  }

  /**
   * Whether FIN_COMPACTACION will find EXEC empty is decided when the processes are
   * marked: every course of the wait ends with EXEC empty if and only if the semaphore
   * held nothing then, or nobody was running.
   */
  lemma AlMarcar(cfg: Cfg, b: Ks)
    requires Inv(cfg, b, None, 0) && Puede(cfg, b, Marca)
    ensures (forall ss: seq<Ks>, es: seq<Suceso> :: Espera(cfg, b, ss, es) ==> ss[|es|].exec == []) <==> (b.devueltas == 0 || b.exec == [])
  {
    var s := Despues(cfg, b, Marca);
    assert s.fase == Marcada(b.pedida.value, |b.exec|, |b.exec|, b.devueltas) && s.exec == b.exec;
    hide Inv, Despues, Puede;
    PasoInv(cfg, b, Marca);
    if b.devueltas == 0 || b.exec == [] {
      forall ss: seq<Ks>, es: seq<Suceso> | Espera(cfg, b, ss, es)
        ensures ss[|es|].exec == []
      {
        TramoEspera(cfg, s, ss, es, |es|);
        Cuenta(cfg, ss[|es|]);
      }
    } else {
      var ss, es := HastaElFin(cfg, s);
      assert Espera(cfg, b, ss, es);
    }
  }
}
