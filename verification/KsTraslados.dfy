/** Where each handler takes its process: from which queue to which, with every other queue the same; and how STDIN bytes hold a process until they are written. */
module KsTraslados {
  import opened Basics
  import opened KsMutex
  import opened KsEstado
  import opened KsInvariantes
  import opened KsHandlers
  import opened KsPlanificador
  import opened KsPasos
  import opened KsCorridas
  import opened KsCiclo
  import opened KsEfectos

  // ---------------------------------------------------------------- one process from one place to another

  /** `p` goes from the queue of one state to that of another, and every other queue is the same; NEW stands for the hands of a handler. */
  predicate Pasa(cfg: Cfg, s: Ks, t: Ks, p: Pid, de: Estado, a: Estado, alFrente: bool) {
    && t.exec == (if de == EXEC then Quitar(s.exec, p) else s.exec) + (if a == EXEC then [p] else [])
    && t.block == (if de == BLOCK then Quitar(s.block, p) else s.block) + (if a == BLOCK then [p] else [])
    && t.suspBlock == (if de == SUSP_BLOCK then Quitar(s.suspBlock, p) else s.suspBlock) + (if a == SUSP_BLOCK then [p] else [])
    && t.suspReady == (if de == SUSP_READY then Quitar(s.suspReady, p) else s.suspReady) + (if a == SUSP_READY then [p] else [])
    && t.exit == s.exit + (if a == EXIT then [p] else [])
    && p in s.procs && p in t.procs && t.procs[p].estado == (if a == NEW then s.procs[p].estado else a)
    && (if a != READY then t.ready == s.ready
        else
          var i := Nivel(cfg, s.procs[p].prioridad);
          0 <= i < |s.ready| && t.ready == s.ready[i := if alFrente then [p] + s.ready[i] else s.ready[i] + [p]])
  }

  lemma PasaSi(cfg: Cfg, b: Ks, t: Ks, f: Fila, fd: int, marca: bool, p: Pid, de: Estado, a: Estado, alFrente: bool)
    requires Ajeno(b, p, de) && de != READY && de != EXIT && p in b.procs && Formado(cfg, b)
    requires Muda(cfg, b, t, f, fd, marca) && Orden(cfg, b, t, f.quien) && f.quien == if a == NEW then Retenido(p) else Va(p, a, alFrente)
    ensures Pasa(cfg, b, t, p, de, a, alFrente)
  {
    hide Quitar;
  }

  lemma PasaDesde(cfg: Cfg, s: Ks, b: Ks, t: Ks, p: Pid, de: Estado, a: Estado, alFrente: bool)
    requires Pasa(cfg, b, t, p, de, a, alFrente) && b.procs == s.procs && b.ready == s.ready && b.exec == s.exec && b.block == s.block
    requires b.suspBlock == s.suspBlock && b.suspReady == s.suspReady && b.exit == s.exit
    ensures Pasa(cfg, s, t, p, de, a, alFrente)
  {
  }

  lemma MismosLugares(cfg: Cfg, s: Ks, e: Suceso)
    requires !e.CrearInicio? && !e.Marca?
    ensures var b := Papeles(s, e);
            && b.procs == s.procs && b.ready == s.ready && b.exec == s.exec && b.block == s.block && b.suspBlock == s.suspBlock
            && b.suspReady == s.suspReady && b.exit == s.exit && b.tokens == s.tokens
            && b.tareas == if DeMemoria(e) && s.canal.Some? then QuitarTarea(s.tareas, s.canal.value) else s.tareas
    ensures DeMemoria(e) && s.canal.Some? ==> Papeles(s, e) == Cerrar(s, s.canal.value)
    ensures Formado(cfg, s) ==> Formado(cfg, Papeles(s, e))
  {
  }

  /** Where the process a step is about comes from and goes to. */
  lemma Lleva(cfg: Cfg, s: Ks, e: Suceso, p: Pid, de: Estado, a: Estado, alFrente: bool)
    requires Inv(cfg, s, None, 0) && Puede(cfg, s, e) && !Recalcula(s, e) && !e.CrearInicio? && !e.Marca?
    requires Tabla(s, e).quien == if a == NEW then Retenido(p) else Va(p, a, alFrente)
    requires if de == NEW then DeMemoria(e) && s.canal.Some? && Titular(s.canal.value) == Some(p) else de != READY && de != EXIT && p in Cola(s, de)
    ensures Pasa(cfg, s, Despues(cfg, s, e), p, de, a, alFrente)
    ensures var t := Despues(cfg, s, e);
            && t.tareas == (if DeMemoria(e) && s.canal.Some? then QuitarTarea(s.tareas, s.canal.value) else s.tareas) + Tabla(s, e).abre
            && t.tokens == s.tokens + Tabla(s, e).posts && t.procs[p].preemptado == MarcaTras(s, e)
  {
    hide Inv, Puede, Despues, Papeles, Tabla, Recalcula, Ajeno, Pasa, EnSusColas, Orden, Cola, Cerrar;
    var b, t := Papeles(s, e), Despues(cfg, s, e);
    Efectos(cfg, s, e);
    MismosLugares(cfg, s, e);
    Formada(cfg, s);
    if de == NEW {
      DeTarea(cfg, s, s.canal.value);
    } else {
      UnaCola(cfg, s, p, de);
      AjenoIgual(s, b, p, de);
    }
    PasaSi(cfg, b, t, Tabla(s, e), FdTras(b, Tabla(s, e).quien), MarcaTras(s, e), p, de, a, alFrente);
    PasaDesde(cfg, s, b, t, p, de, a, alFrente);
  }

  lemma AjenoIgual(s: Ks, b: Ks, p: Pid, e: Estado)
    requires Ajeno(s, p, e) && b.ready == s.ready && b.exec == s.exec && b.block == s.block
    requires b.suspBlock == s.suspBlock && b.suspReady == s.suspReady && b.exit == s.exit
    ensures Ajeno(b, p, e)
  {
  }

  /** Out of EXEC into READY, queue by queue. */
  lemma AlReves(cfg: Cfg, s: Ks, t: Ks, p: Pid, alFrente: bool)
    requires Pasa(cfg, s, t, p, EXEC, READY, alFrente)
    ensures t.exec == Quitar(s.exec, p) && t.block == s.block && t.suspBlock == s.suspBlock && t.suspReady == s.suspReady && t.exit == s.exit
    ensures p in s.procs && p in t.procs
    ensures var i := Nivel(cfg, s.procs[p].prioridad);
            0 <= i < |s.ready| && t.ready == s.ready[i := if alFrente then [p] + s.ready[i] else s.ready[i] + [p]]
  {
    Concat(Quitar(s.exec, p));
    Concat(s.block);
    Concat(s.suspBlock);
    Concat(s.suspReady);
    Concat(s.exit);
  }

  // ---------------------------------------------------------------- handler by handler

  lemma LlevaFin(cfg: Cfg, s: Ks, p: Pid)
    requires Inv(cfg, s, None, 0) && Puede(cfg, s, Termina(p)) && Corre(s, p)
    ensures var t := Despues(cfg, s, Termina(p)); Pasa(cfg, s, t, p, EXEC, EXIT, false) && t.tareas == s.tareas + [Avisando(p, true)]
  {
    hide Inv, Puede, Despues, Pasa;
    Lleva(cfg, s, Termina(p), p, EXEC, EXIT, false);
  }

  lemma LlevaInterrupcion(cfg: Cfg, s: Ks, p: Pid)
    requires Inv(cfg, s, None, 0) && Puede(cfg, s, Interrumpe(p)) && Corre(s, p)
    ensures var t := Despues(cfg, s, Interrumpe(p)); Pasa(cfg, s, t, p, EXEC, READY, s.procs[p].preemptado) && p in t.procs && !t.procs[p].preemptado
  {
    var marcado := s.procs[p].preemptado;
    hide Inv, Puede, Despues;
    Lleva(cfg, s, Interrumpe(p), p, EXEC, READY, marcado);
  }

  lemma LlevaSyscall(cfg: Cfg, s: Ks, p: Pid)
    requires Inv(cfg, s, None, 0) && Puede(cfg, s, Vuelve(p)) && Corre(s, p)
    ensures Pasa(cfg, s, Despues(cfg, s, Vuelve(p)), p, EXEC, READY, false)
  {
    hide Inv, Puede, Despues, Pasa;
    Lleva(cfg, s, Vuelve(p), p, EXEC, READY, false);
  }

  lemma LlevaBloqueo(cfg: Cfg, s: Ks, p: Pid, inicio: Inicio)
    requires Inv(cfg, s, None, 0) && Puede(cfg, s, Bloquea(p, inicio)) && Corre(s, p)
    ensures var t := Despues(cfg, s, Bloquea(p, inicio));
            && Pasa(cfg, s, t, p, EXEC, if inicio == SinInterfaz then EXIT else BLOCK, false)
            && t.tareas == s.tareas + if inicio == ConLectura then [Leyendo(p)] else if inicio == SinInterfaz then [Avisando(p, false)] else []
  {
    hide Inv, Puede, Despues, Pasa;
    Lleva(cfg, s, Bloquea(p, inicio), p, EXEC, if inicio == SinInterfaz then EXIT else BLOCK, false);
  }

  lemma LlevaMemoria(cfg: Cfg, s: Ks, p: Pid, alloc: bool)
    requires Inv(cfg, s, None, 0) && Puede(cfg, s, MemPide(p, alloc)) && Corre(s, p)
    ensures var t := Despues(cfg, s, MemPide(p, alloc));
            Pasa(cfg, s, t, p, EXEC, NEW, false) && t.tareas == s.tareas + [if alloc then Alloc(p) else Free(p)]
  {
    hide Inv, Puede, Despues, Pasa;
    Lleva(cfg, s, MemPide(p, alloc), p, EXEC, NEW, false);
  }

  /** A running process that asks for a mutex: ended if there is none, READY if it is free, in BLOCK if it is taken. */
  predicate PideMutex(cfg: Cfg, s: Ks, t: Ks, p: Pid, nombre: string) {
    match BuscarMutex(s.mutexes, nombre)
    case None => Pasa(cfg, s, t, p, EXEC, EXIT, false) && t.tareas == s.tareas + [Avisando(p, true)]
    case Some(i) =>
      if s.mutexes[i].owner == -1 then Pasa(cfg, s, t, p, EXEC, READY, false)
      else t.exec == Quitar(s.exec, p) && t.block == s.block + [p] && p in t.procs && t.procs[p].estado == BLOCK
  }

  lemma LlevaLock(cfg: Cfg, s: Ks, p: Pid, nombre: string)
    requires Inv(cfg, s, None, 0) && Puede(cfg, s, MutexLock(p, nombre)) && Corre(s, p)
    ensures PideMutex(cfg, s, Despues(cfg, s, MutexLock(p, nombre)), p, nombre)
  {
    hide Inv, Puede, Despues, Pasa;
    var m := BuscarMutex(s.mutexes, nombre);
    if m.None? {
      Lleva(cfg, s, MutexLock(p, nombre), p, EXEC, EXIT, false);
    } else if s.mutexes[m.value].owner == -1 {
      Lleva(cfg, s, MutexLock(p, nombre), p, EXEC, READY, false);
    } else {
      Efectos(cfg, s, MutexLock(p, nombre));
      EnColaExec(s, p);
      UnaCola(cfg, s, p, EXEC);
      Concat(Quitar(s.exec, p));
    }
  }

  lemma EnLaCola(cfg: Cfg, s: Ks, e: Suceso, p: Pid)
    requires Puede(cfg, s, e) && (e == SuspenderInicio(p) || e == DesuspenderInicio(p))
    ensures p in Cola(s, if e.DesuspenderInicio? then SUSP_READY else BLOCK)
  {
    hide Formado;
  }

  /** Out of the queue where a process waits, into the hands of a handler. */
  lemma LlevaEspera(cfg: Cfg, s: Ks, e: Suceso, p: Pid)
    requires Inv(cfg, s, None, 0) && Puede(cfg, s, e) && (e == SuspenderInicio(p) || e == DesuspenderInicio(p))
    ensures var t := Despues(cfg, s, e);
            && Pasa(cfg, s, t, p, if e.DesuspenderInicio? then SUSP_READY else BLOCK, NEW, false)
            && t.tareas == s.tareas + [if e.SuspenderInicio? then Suspendiendo(p) else Desuspendiendo(p)]
  {
    hide Inv, Puede, Despues, Pasa, Cola;
    EnLaCola(cfg, s, e, p);
    Lleva(cfg, s, e, p, if e.DesuspenderInicio? then SUSP_READY else BLOCK, NEW, false);
  }

  /** Bytes for a resident process: it is held until they are written. */
  lemma LlevaDatos(cfg: Cfg, s: Ks, p: Pid)
    requires Inv(cfg, s, None, 0) && Puede(cfg, s, StdinDatos(p, true, false)) && p in s.block
    ensures var t := Despues(cfg, s, StdinDatos(p, true, false)); Pasa(cfg, s, t, p, BLOCK, NEW, false) && t.tareas == s.tareas + [Escribiendo(p)]
  {
    assert p in Cola(s, BLOCK);
    hide Inv, Puede, Despues, Pasa, Cola;
    Lleva(cfg, s, StdinDatos(p, true, false), p, BLOCK, NEW, false);
  }

  /** What a process waits for comes, or can give it nothing. */
  lemma LlevaIo(cfg: Cfg, s: Ks, e: Suceso, p: Pid, malo: bool)
    requires Inv(cfg, s, None, 0) && Puede(cfg, s, e) && (p in s.block || p in s.suspBlock)
    requires e == IoFin(p, malo) || (e.StdinDatos? && e.pid == p && malo == !e.validos && (malo || e.vacio || p !in s.block))
    ensures var t := Despues(cfg, s, e);
            && (malo ==> Pasa(cfg, s, t, p, if p in s.block then BLOCK else SUSP_BLOCK, EXIT, false) && t.tareas == s.tareas + [Avisando(p, false)])
            && (!malo && p in s.block ==> Pasa(cfg, s, t, p, BLOCK, READY, false))
            && (!malo && p !in s.block ==> Pasa(cfg, s, t, p, SUSP_BLOCK, SUSP_READY, false))
  {
    hide Inv, Puede, Despues, Pasa;
    if malo {
      Lleva(cfg, s, e, p, if p in s.block then BLOCK else SUSP_BLOCK, EXIT, false);
    } else if p in s.block {
      Lleva(cfg, s, e, p, BLOCK, READY, false);
    } else {
      Lleva(cfg, s, e, p, SUSP_BLOCK, SUSP_READY, false);
    }
  }

  /** The request that holds its process and that an answer is for. */
  function Contestada(e: Suceso): Option<Tarea> {
    match e
    case CrearFin(p, _) => Some(Creando(p))
    case StdinFin(p, _) => Some(Escribiendo(p))
    case SuspenderFin(p, _) => Some(Suspendiendo(p))
    case DesuspenderFin(p, _) => Some(Desuspendiendo(p))
    case AllocFin(p, _) => Some(Alloc(p))
    case FreeFin(p) => Some(Free(p))
    case _ => None
  }

  lemma TitularDe(cfg: Cfg, s: Ks, e: Suceso)
    requires Puede(cfg, s, e) && Contestada(e).Some?
    ensures s.canal == Contestada(e) && Titular(s.canal.value) == Some(e.pid)
  {
    hide Formado;
  }

  /** Where the answers put the process a handler holds, granted or refused. */
  lemma LlevaRespuesta(cfg: Cfg, s: Ks, e: Suceso)
    requires Inv(cfg, s, None, 0) && Puede(cfg, s, e) && (e.StdinFin? || e.SuspenderFin? || e.AllocFin? || (e.CrearFin? && e.ok))
    ensures var t, r := Despues(cfg, s, e), QuitarTarea(s.tareas, Contestada(e).value);
            match e
            case CrearFin(p, _) => Pasa(cfg, s, t, p, NEW, READY, false) && t.tareas == r
            case StdinFin(p, ok) => Pasa(cfg, s, t, p, NEW, if ok then READY else EXIT, false) && t.tareas == r + if ok then [] else [Avisando(p, false)]
            case SuspenderFin(p, ok) => Pasa(cfg, s, t, p, NEW, if ok then SUSP_BLOCK else BLOCK, false) && t.tareas == r
            case AllocFin(p, ok) => Pasa(cfg, s, t, p, NEW, if ok then EXEC else EXIT, false) && t.tareas == r + if ok then [] else [Avisando(p, true)]
            case _ => true
  {
    hide Inv, Puede, Despues, Pasa, Titular;
    TitularDe(cfg, s, e);
    match e
    case CrearFin(p, _) => Lleva(cfg, s, e, p, NEW, READY, false);
    case StdinFin(p, ok) => Lleva(cfg, s, e, p, NEW, if ok then READY else EXIT, false);
    case SuspenderFin(p, ok) => Lleva(cfg, s, e, p, NEW, if ok then SUSP_BLOCK else BLOCK, false);
    case AllocFin(p, ok) => Lleva(cfg, s, e, p, NEW, if ok then EXEC else EXIT, false);
  }

  lemma LlevaRegreso(cfg: Cfg, s: Ks, p: Pid, regreso: Regreso)
    requires Inv(cfg, s, None, 0) && Puede(cfg, s, DesuspenderFin(p, regreso))
    ensures var t, r := Despues(cfg, s, DesuspenderFin(p, regreso)), QuitarTarea(s.tareas, Desuspendiendo(p));
            match regreso
            case Listo => Pasa(cfg, s, t, p, NEW, READY, false) && t.tareas == r
            case PorEscribir => Pasa(cfg, s, t, p, NEW, NEW, false) && t.tareas == r + [Escribiendo(p)]
            case Inservible => Pasa(cfg, s, t, p, NEW, EXIT, false) && t.tareas == r + [Avisando(p, false)]
            case NoCabe => Pasa(cfg, s, t, p, NEW, SUSP_READY, false) && t.tareas == r
  {
    var e := DesuspenderFin(p, regreso);
    hide Inv, Puede, Despues, Pasa, Titular;
    TitularDe(cfg, s, e);
    match regreso
    case Listo => Lleva(cfg, s, e, p, NEW, READY, false);
    case PorEscribir => Lleva(cfg, s, e, p, NEW, NEW, false);
    case Inservible => Lleva(cfg, s, e, p, NEW, EXIT, false);
    case NoCabe => Lleva(cfg, s, e, p, NEW, SUSP_READY, false);
  }

  lemma LlevaFree(cfg: Cfg, s: Ks, p: Pid)
    requires Inv(cfg, s, None, 0) && Puede(cfg, s, FreeFin(p))
    ensures var t := Despues(cfg, s, FreeFin(p)); Pasa(cfg, s, t, p, NEW, EXEC, false) && t.tareas == QuitarTarea(s.tareas, Free(p))
  {
    hide Inv, Puede, Despues, Pasa, Titular;
    TitularDe(cfg, s, FreeFin(p));
    Lleva(cfg, s, FreeFin(p), p, NEW, EXEC, false);
  }

  lemma LlevaCpu(cfg: Cfg, s: Ks, fd: int, p: Pid)
    requires Inv(cfg, s, None, 0) && Puede(cfg, s, DesconectarCpu(fd)) && Huerfano(s.procs, s.exec, fd) == Some(p)
    ensures Pasa(cfg, s, Despues(cfg, s, DesconectarCpu(fd)), p, EXEC, READY, false)
  {
    hide Inv, Puede, Despues, Pasa;
    EnColaExec(s, p);
    Lleva(cfg, s, DesconectarCpu(fd), p, EXEC, READY, false);
  }

  lemma DatosDeBlock(cfg: Cfg, s: Ks, p: Pid)
    requires Inv(cfg, s, None, 0) && Puede(cfg, s, StdinDatos(p, true, false)) && p in s.block
    ensures var t := Despues(cfg, s, StdinDatos(p, true, false));
            && t.tareas == s.tareas + [Escribiendo(p)] && t.block == Quitar(s.block, p) && t.ready == s.ready
            && p !in t.block && forall i :: 0 <= i < |t.ready| ==> p !in t.ready[i]
  {
    assert p in Cola(s, BLOCK);
    hide Inv, Puede, Despues;
    LlevaDatos(cfg, s, p);
    UnaCola(cfg, s, p, BLOCK);
    QuitarMiembros(s.block, p);
    Concat(Quitar(s.block, p));
  }

  lemma NadieEspera(cfg: Cfg, s: Ks, p: Pid)
    requires Formado(cfg, s)
    ensures p !in s.block && p !in s.suspBlock ==>
      Despertado(cfg, s, p) == s && Malogrado(s, p) == s && forall validos, vacio :: ConDatos(cfg, s, p, validos, vacio) == s
  {
  }

  lemma LlevaLectura(cfg: Cfg, s: Ks, p: Pid)
    requires Inv(cfg, s, None, 0) && Puede(cfg, s, LecturaFin(p, false)) && p in s.block
    ensures Pasa(cfg, s, Despues(cfg, s, LecturaFin(p, false)), p, BLOCK, EXIT, false)
  {
    assert p in Cola(s, BLOCK);
    hide Inv, Puede, Despues, Pasa, Cola;
    Lleva(cfg, s, LecturaFin(p, false), p, BLOCK, EXIT, false);
  }

  /** Whoever takes over a mutex is READY, at the back of the queue of its priority. */
  lemma LlevaUnlock(cfg: Cfg, s: Ks, p: Pid, nombre: string)
    requires Inv(cfg, s, None, 0) && Puede(cfg, s, MutexUnlock(p, nombre))
    ensures var t, h := Despues(cfg, s, MutexUnlock(p, nombre)), Heredero(s, p, nombre);
            && (h.Some? && h.value in s.block ==>
                  && h.value !in t.block && h.value in t.procs && t.procs[h.value].estado == READY
                  && var i := Nivel(cfg, t.procs[h.value].prioridad); 0 <= i < |t.ready| && t.ready[i] != [] && t.ready[i][|t.ready[i]| - 1] == h.value)
            && (h.None? || (h.value !in s.block && h.value !in s.suspBlock) ==>
                  t.block == s.block && t.suspBlock == s.suspBlock && t.suspReady == s.suspReady)
  {
    var e := MutexUnlock(p, nombre);
    hide Inv, Puede, Despues, Heredero, Quitar, EsVictima;
    Formada(cfg, s);
    PasoInv(cfg, s, e);
    Formada(cfg, Despues(cfg, s, e));
    Efectos(cfg, s, e);
    OrdenTrasMutex(cfg, s, e);
    var h := Heredero(s, p, nombre);
    if h.Some? {
      QuitarMiembros(s.block, h.value);
      Concat(Quitar(s.block, h.value));
    }
  }

  // ---------------------------------------------------------------- STDIN bytes

  /** The bytes are for a process that waits in memory, or comes back to it, and have still to be written. */
  predicate Ordena(s: Ks, e: Suceso, p: Pid) {
    (e == StdinDatos(p, true, false) && p in s.block) || e == DesuspenderFin(p, PorEscribir)
  }

  lemma {:induction false} QuedaTarea(ts: seq<Tarea>, t: Tarea, u: Tarea)
    requires u in ts && u != t
    ensures u in QuitarTarea(ts, t)
  {
    if ts[0] != t && ts[0] != u {
      QuedaTarea(ts[1..], t, u);
    }
  }

  lemma TareasDe(cfg: Cfg, s: Ks, e: Suceso)
    requires Inv(cfg, s, None, 0) && Puede(cfg, s, e)
    ensures var t := Despues(cfg, s, e);
            && t.tareas == (if DeMemoria(e) && s.canal.Some? then QuitarTarea(s.tareas, s.canal.value) else s.tareas) + Tabla(s, e).abre
            && t.canal == (if DeMemoria(e) then None else if e.TomarCanal? then Some(e.tarea) else s.canal)
  {
    hide Inv, Puede, Despues, Tabla, EnSusColas, EnSuFicha, Orden, Recalcula, MarcaTras;
    Efectos(cfg, s, e);
    if DeMemoria(e) {
      ConCanal(cfg, s, e);
    }
  }

  lemma ConCanal(cfg: Cfg, s: Ks, e: Suceso)
    requires Puede(cfg, s, e) && DeMemoria(e)
    ensures s.canal.Some? && forall p :: s.canal == Some(Escribiendo(p)) ==> e.StdinFin? && e.pid == p
  {
    hide Formado;
  }

  /** The process is in the hands of the handler that writes for it: in no queue, and neither READY nor ended. */
  predicate Escribe(s: Ks, p: Pid) {
    Escribiendo(p) in s.tareas && p in s.procs && (s.procs[p].estado == BLOCK || s.procs[p].estado == SUSP_READY) && Ajeno(s, p, NEW)
  }

  lemma EscribeSi(cfg: Cfg, s: Ks, p: Pid)
    requires Inv(cfg, s, None, 0) && Escribiendo(p) in s.tareas
    ensures Escribe(s, p)
  {
    hide Inv, Ajeno;
    Lugar(cfg, s, p);
    assert Titular(Escribiendo(p)) == Some(p);
    EnLaMano(cfg, s, Escribiendo(p));
    AjenoSi(s, p, NEW);
  }

  /** Bytes that can be written are asked to be written ... */
  lemma EmpiezaAEscribir(cfg: Cfg, s: Ks, e: Suceso, p: Pid)
    requires Inv(cfg, s, None, 0) && Puede(cfg, s, e) && Ordena(s, e, p)
    ensures Escribe(Despues(cfg, s, e), p)
  {
    hide Inv, Puede, Despues, Escribe;
    TareasDe(cfg, s, e);
    assert Tabla(s, e).abre == [Escribiendo(p)];
    PasoInv(cfg, s, e);
    EscribeSi(cfg, Despues(cfg, s, e), p);
  }

  /** ... and their process is held until Kernel Memory has answered, whatever else the scheduler does. */
  lemma SigueEscribiendo(cfg: Cfg, s: Ks, e: Suceso, p: Pid)
    requires Inv(cfg, s, None, 0) && Puede(cfg, s, e) && Escribiendo(p) in s.tareas && !(e.StdinFin? && e.pid == p)
    ensures Escribe(Despues(cfg, s, e), p)
  {
    hide Inv, Puede, Despues, Escribe, Tabla;
    TareasDe(cfg, s, e);
    if DeMemoria(e) {
      ConCanal(cfg, s, e);
      QuedaTarea(s.tareas, s.canal.value, Escribiendo(p));
    }
    PasoInv(cfg, s, e);
    EscribeSi(cfg, Despues(cfg, s, e), p);
  }

  /** The answer makes it READY, or ends it. */
  lemma AcabaDeEscribir(cfg: Cfg, s: Ks, p: Pid, ok: bool)
    requires Inv(cfg, s, None, 0) && Puede(cfg, s, StdinFin(p, ok))
    ensures var t := Despues(cfg, s, StdinFin(p, ok)); p in t.procs && t.procs[p].estado == if ok then READY else EXIT
  {
    hide Inv, Puede, Despues;
    LlevaRespuesta(cfg, s, StdinFin(p, ok));
  }

  /** In every run: from the bytes on, the process is held until the answer to their writing. */
  lemma {:induction false} RetenidaHastaEscribir(cfg: Cfg, ss: seq<Ks>, es: seq<Suceso>, i: nat, j: nat, p: Pid)
    requires Corrida(cfg, ss, es) && i < j < |ss| && Ordena(ss[i], es[i], p)
    requires forall k :: i < k < j ==> !(es[k].StdinFin? && es[k].pid == p)
    ensures Escribe(ss[j], p)
  {
    hide Puede, Despues, Inv, Ordena;
    CorridaInv(cfg, ss, es, j - 1);
    if j == i + 1 {
      EmpiezaAEscribir(cfg, ss[i], es[i], p);
    } else {
      RetenidaHastaEscribir(cfg, ss, es, i, j - 1, p);
      SigueEscribiendo(cfg, ss[j - 1], es[j - 1], p);
    }
  }
}
