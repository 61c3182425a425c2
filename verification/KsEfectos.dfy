/**
 * What each step does, told by what it moves: which process, to which end of which queue,
 * what is posted, asked of Kernel Memory and marked, and that everything else stays.
 */
module KsEfectos {
  import opened Basics
  import opened KsMutex
  import opened KsEstado
  import opened KsInvariantes
  import opened KsHandlers
  import opened KsPlanificador
  import opened KsPasos
  import opened KsCorridas

  // ---------------------------------------------------------------- the table

  /** Whom a step moves: to the queue of a state, into the hands of a handler, or out of existence. */
  datatype Traslado =
    | Nadie
    | Va(pid: Pid, a: Estado, alFrente: bool)
    | Retenido(pid: Pid)
    | Desaparece(pid: Pid)

  /** What a step does: whom it moves, the posts of sem_cpu_disponible, and the requests it opens. */
  datatype Fila = Fila(quien: Traslado, posts: int, abre: seq<Tarea>)

  function Nada(posts: int): Fila {
    Fila(Nadie, posts, [])
  }

  function Llega(p: Pid, a: Estado): Fila {
    Fila(Va(p, a, false), Bit(a == READY), [])
  }

  /** Buried, and Kernel Memory is told. */
  function Muere(p: Pid, debe: bool): Fila {
    Fila(Va(p, EXIT, false), 0, [Avisando(p, debe)])
  }

  function Espera(t: Tarea): Fila {
    Fila(Retenido(t.pid), 0, [t])
  }

  /** What a process waited for has come: it is READY, unless it is out of memory. */
  function AlDespertar(s: Ks, p: Pid): Fila {
    if p in s.block then Llega(p, READY) else if p in s.suspBlock then Llega(p, SUSP_READY) else Nada(0)
  }

  function AlMalograrse(s: Ks, p: Pid): Fila {
    if p in s.block || p in s.suspBlock then Muere(p, false) else Nada(0)
  }

  function AlPedirMutex(s: Ks, p: Pid, nombre: string): Fila {
    match BuscarMutex(s.mutexes, nombre)
    case None => Muere(p, true)
    case Some(i) => if s.mutexes[i].owner == -1 then Llega(p, READY) else Fila(Va(p, BLOCK, false), 1, [])
  }

  /** Who takes over the mutex that `p` gives up. */
  function Heredero(s: Ks, p: Pid, nombre: string): Option<Pid> {
    match BuscarMutex(s.mutexes, nombre)
    case None => None
    case Some(i) =>
      var m := s.mutexes[i];
      if m.owner == p && m.cola != [] && m.cola[0].pid <= INT_MAX then Some(m.cola[0].pid) else None
  }

  /** The table: one row a step. Messages of a CPU about a process that does not run do nothing. */
  function Tabla(s: Ks, e: Suceso): Fila {
    match e
    case ConectarCpu(_) => Nada(1)
    case DesconectarCpu(fd) => (match Huerfano(s.procs, s.exec, fd) case None => Nada(0) case Some(p) => Llega(p, READY))
    case CrearInicio(_, _) => if s.proximo <= INT_MAX then Espera(Creando(s.proximo)) else Nada(0)
    case CrearFin(p, ok) => if ok then Llega(p, READY) else Fila(Desaparece(p), 0, [])
    case TomarCanal(_) => Nada(0)
    case PlanToma => Nada(-1)
    case PlanPasa =>
      var i := PrimerNivel(s.ready);
      if i.Some? && PrimeraLibre(s.cpus).Some? then Llega(s.ready[i.value][0], EXEC) else Nada(0)
    case Termina(p) => if Corre(s, p) then Muere(p, true) else Nada(0)
    case Interrumpe(p) => if Corre(s, p) then Fila(Va(p, READY, s.procs[p].preemptado), 1, []) else Nada(0)
    case Vuelve(p) => if Corre(s, p) then Llega(p, READY) else Nada(0)
    case Bloquea(p, inicio) =>
      if !Corre(s, p) then Nada(0)
      else (match inicio
        case Iniciada => Fila(Va(p, BLOCK, false), 1, [])
        case ConLectura => Fila(Va(p, BLOCK, false), 1, [Leyendo(p)])
        case SinInterfaz => Fila(Va(p, EXIT, false), 1, [Avisando(p, false)]))
    case LecturaFin(p, ok) => if !ok && p in s.block then Muere(p, false) else Nada(0)
    case IoFin(p, sinDatos) => if sinDatos then AlMalograrse(s, p) else AlDespertar(s, p)
    case StdinDatos(p, validos, vacio) =>
      if !validos then AlMalograrse(s, p)
      else if p in s.block && !vacio then Espera(Escribiendo(p))
      else AlDespertar(s, p)
    case StdinFin(p, ok) => if ok then Llega(p, READY) else Muere(p, false)
    case SuspenderInicio(p) => Espera(Suspendiendo(p))
    case SuspenderFin(p, ok) => Llega(p, if ok then SUSP_BLOCK else BLOCK)
    case DesuspenderInicio(p) => Espera(Desuspendiendo(p))
    case DesuspenderFin(p, regreso) =>
      (match regreso
        case Listo => Llega(p, READY)
        case PorEscribir => Espera(Escribiendo(p))
        case Inservible => Muere(p, false)
        case NoCabe => Llega(p, SUSP_READY))
    case MemPide(p, alloc) => if Corre(s, p) then Espera(if alloc then Alloc(p) else Free(p)) else Nada(0)
    case AllocFin(p, ok) => if ok then Llega(p, EXEC) else Muere(p, true)
    case FreeFin(p) => Llega(p, EXEC)
    case MutexCrea(_, _) => Nada(0)
    case MutexLock(p, nombre) => if Corre(s, p) then AlPedirMutex(s, p, nombre) else Nada(0)
    case MutexUnlock(p, nombre) => (match Heredero(s, p, nombre) case None => Nada(0) case Some(q) => AlDespertar(s, q))
    case AvisoFin(_, debe) => Nada(Bit(debe))
    case Compactar(_) => Nada(0)
    case Marca => Nada(0)
    case Recoge => Nada(0)
    case EnviaFin => Nada(0)
    case Reanuda => Nada(1)
  }

  /** The bookkeeping of a step: the request that was answered, the channel, the CPUs that come and go, the planner's pass, the next pid. */
  function Papeles(s: Ks, e: Suceso): Ks {
    match e
    case ConectarCpu(fd) => s.(cpus := s.cpus + [CpuEntry(fd, false)])
    case DesconectarCpu(fd) => s.(cpus := SinCpu(s.cpus, fd))
    case CrearInicio(_, prioridad) =>
      if s.proximo <= INT_MAX then s.(proximo := s.proximo + 1, procs := s.procs[s.proximo := Proceso(NEW, prioridad, prioridad, -1, false)]) else s
    case TomarCanal(t) => s.(canal := Some(t))
    case PlanToma => s.(plan := true)
    case PlanPasa => s.(plan := false)
    case Compactar(p) => s.(pedida := Some(p))
    case Marca => s.(pedida := None, procs := map p | p in s.procs :: s.procs[p].(preemptado := p in s.exec || s.procs[p].preemptado))
    case _ => if DeMemoria(e) && s.canal.Some? then s.(tareas := QuitarTarea(s.tareas, s.canal.value), canal := None) else s
  }

  // ---------------------------------------------------------------- what a row means

  predicate Mueve(m: Traslado, r: Pid) {
    !m.Nadie? && m.pid == r
  }

  /** A queue after the step: without the process that moves, which joins its back if it goes there. */
  function Con(q: seq<Pid>, m: Traslado, e: Estado): seq<Pid> {
    (if m.Nadie? then q else Quitar(q, m.pid)) + (if m.Va? && m.a == e then [m.pid] else [])
  }

  predicate EnSusColas(s: Ks, t: Ks, m: Traslado) {
    && t.exec == Con(s.exec, m, EXEC) && t.block == Con(s.block, m, BLOCK) && t.suspBlock == Con(s.suspBlock, m, SUSP_BLOCK)
    && t.suspReady == Con(s.suspReady, m, SUSP_READY) && t.exit == Con(s.exit, m, EXIT)
  }

  /** The same for the ready queues; an evicted process joins the front of its own. */
  predicate EnSuNivel(cfg: Cfg, s: Ks, t: Ks, m: Traslado) {
    && |t.ready| == |s.ready|
    && forall i :: 0 <= i < |t.ready| ==>
         var q := if m.Nadie? then s.ready[i] else Quitar(s.ready[i], m.pid);
         t.ready[i] ==
           if !(m.Va? && m.a == READY && m.pid in s.procs && i == Nivel(cfg, s.procs[m.pid].prioridad)) then q
           else if m.alFrente then [m.pid] + q
           else q + [m.pid]
  }

  predicate MismaPrioridad(s: Ks, t: Ks) {
    forall r :: r in s.procs && r in t.procs ==> t.procs[r].prioridad == s.procs[r].prioridad
  }

  /** A running process that can be evicted for one of the given priority. */
  predicate Cede(s: Ks, t: Ks, prioridad: int, q: Pid) {
    q in s.procs && q in t.procs && !s.procs[q].preemptado && t.procs[q].prioridad > prioridad
  }

  /** The first of the least urgent among them. */
  predicate EsPeor(s: Ks, t: Ks, prioridad: int, i: nat) {
    && i < |t.exec| && Cede(s, t, prioridad, t.exec[i])
    && forall j :: 0 <= j < |t.exec| && Cede(s, t, prioridad, t.exec[j]) ==>
         t.procs[t.exec[j]].prioridad < t.procs[t.exec[i]].prioridad || (i <= j && t.procs[t.exec[j]].prioridad == t.procs[t.exec[i]].prioridad)
  }

  /** Queue preemption marks it, when no CPU is free. */
  predicate EsVictima(cfg: Cfg, s: Ks, t: Ks, prioridad: int, r: Pid) {
    && cfg.preemption && (forall k :: 0 <= k < |t.cpus| ==> t.cpus[k].ocupada)
    && exists i :: 0 <= i < |t.exec| && t.exec[i] == r && EsPeor(s, t, prioridad, i)
  }

  /** `r` is marked because of the newcomer to READY. */
  predicate Desalojada(cfg: Cfg, s: Ks, t: Ks, m: Traslado, r: Pid) {
    m.Va? && m.a == READY && !m.alFrente && m.pid in t.procs && EsVictima(cfg, s, t, t.procs[m.pid].prioridad, r)
  }

  /** Nobody else changes, but for the mark of a victim; the process that moves has the state of the place it goes to. */
  predicate EnSuFicha(cfg: Cfg, s: Ks, t: Ks, m: Traslado, fd: int, marca: bool) {
    && t.procs.Keys == (if m.Desaparece? then s.procs.Keys - {m.pid} else s.procs.Keys)
    && (forall r :: r in t.procs && !Mueve(m, r) ==>
          && t.procs[r].estado == s.procs[r].estado && t.procs[r].base == s.procs[r].base && t.procs[r].fd == s.procs[r].fd
          && (t.procs[r].preemptado <==> s.procs[r].preemptado || Desalojada(cfg, s, t, m, r)))
    && (m.Va? || m.Retenido? ==>
          && m.pid in t.procs && t.procs[m.pid].base == s.procs[m.pid].base && t.procs[m.pid].fd == fd
          && t.procs[m.pid].estado == (if m.Va? then m.a else s.procs[m.pid].estado) && t.procs[m.pid].preemptado == marca)
  }

  predicate MismosFds(x: seq<CpuEntry>, y: seq<CpuEntry>) {
    |x| == |y| && forall k :: 0 <= k < |x| ==> y[k].fd == x[k].fd
  }

  predicate EnLosPapeles(s: Ks, t: Ks, f: Fila) {
    && t.tokens == s.tokens + f.posts && t.tareas == s.tareas + f.abre && t.canal == s.canal
    && t.plan == s.plan && t.pedida == s.pedida && t.proximo == s.proximo && MismosFds(s.cpus, t.cpus)
  }

  predicate Muda(cfg: Cfg, s: Ks, t: Ks, f: Fila, fd: int, marca: bool) {
    EnSusColas(s, t, f.quien) && EnSuFicha(cfg, s, t, f.quien, fd, marca) && EnLosPapeles(s, t, f)
  }

  predicate Orden(cfg: Cfg, s: Ks, t: Ks, m: Traslado) {
    EnSuNivel(cfg, s, t, m) && MismaPrioridad(s, t)
  }

  // ---------------------------------------------------------------- where processes are

  lemma EnTarea(cfg: Cfg, s: Ks, t: Tarea)
    requires Inv(cfg, s, None, 0) && s.canal == Some(t) && Titular(t).Some?
    ensures t.pid in s.procs && EstadoDeTarea(t, s.procs[t.pid].estado)
  {
    hide Lugares, Ligadura, Compactacion, NivelesOk;
    Lugar(cfg, s, t.pid);
  }

  lemma NuevoPid(cfg: Cfg, s: Ks)
    requires Inv(cfg, s, None, 0)
    ensures s.proximo <= INT_MAX ==> s.proximo !in s.procs
  {
    hide Lugares, Ligadura, Compactacion;
  }


  lemma {:induction false} QuitarAjeno(q: seq<Pid>, p: Pid)
    requires p !in q
    ensures Quitar(q, p) == q
  {
    if q != [] {
      QuitarAjeno(q[1..], p);
    }
  }

  lemma {:induction false} QuitarAlFinal(q: seq<Pid>, x: Pid, p: Pid)
    ensures Quitar(q + [x], p) == Quitar(q, p) + (if x == p then [] else [x])
  {
    if q == [] {
      assert Quitar([x], p) == if x == p then Quitar([x][1..], p) else [x] + Quitar([x][1..], p);
    } else {
      assert (q + [x])[1..] == q[1..] + [x];
      QuitarAlFinal(q[1..], x, p);
    }
  }

  predicate SinEl(q: seq<Pid>, p: Pid) {
    p !in q && Quitar(q, p) == q
  }

  /** `p` is in no queue, but perhaps in that of state `e`. */
  predicate Ajeno(s: Ks, p: Pid, e: Estado) {
    && (e == EXEC || SinEl(s.exec, p)) && (e == BLOCK || SinEl(s.block, p)) && (e == SUSP_BLOCK || SinEl(s.suspBlock, p))
    && (e == SUSP_READY || SinEl(s.suspReady, p)) && (e == EXIT || SinEl(s.exit, p))
    && (e == READY || forall i :: 0 <= i < |s.ready| ==> SinEl(s.ready[i], p))
  }

  lemma AjenoSi(s: Ks, p: Pid, e: Estado)
    requires forall f :: f != e ==> p !in Cola(s, f)
    ensures Ajeno(s, p, e)
  {
    assert p !in Cola(s, EXEC) || e == EXEC;
    assert p !in Cola(s, BLOCK) || e == BLOCK;
    assert p !in Cola(s, SUSP_BLOCK) || e == SUSP_BLOCK;
    assert p !in Cola(s, SUSP_READY) || e == SUSP_READY;
    assert p !in Cola(s, EXIT) || e == EXIT;
    assert p !in Cola(s, READY) || e == READY;
    if e != EXEC { QuitarAjeno(s.exec, p); }
    if e != BLOCK { QuitarAjeno(s.block, p); }
    if e != SUSP_BLOCK { QuitarAjeno(s.suspBlock, p); }
    if e != SUSP_READY { QuitarAjeno(s.suspReady, p); }
    if e != EXIT { QuitarAjeno(s.exit, p); }
    if e != READY {
      forall i | 0 <= i < |s.ready|
        ensures SinEl(s.ready[i], p)
      {
        if p in s.ready[i] {
          ListosMiembro(s.ready, i, p);
        }
        QuitarAjeno(s.ready[i], p);
      }
    }
  }

  /** A process in a queue is in no other, has the state of that queue, and only in EXEC a CPU. */
  lemma UnaCola(cfg: Cfg, s: Ks, p: Pid, e: Estado)
    requires Inv(cfg, s, None, 0) && p in Cola(s, e)
    ensures Ajeno(s, p, e) && p in s.procs && s.procs[p].estado == e && (e != EXEC ==> s.procs[p].fd == -1)
    ensures e != EXEC && e != EXIT ==> !s.procs[p].preemptado
  {
    hide Inv, Ajeno, Cola;
    Lugar(cfg, s, p);
    Apagado(cfg, s, p);
    forall f | f != e
      ensures p !in Cola(s, f)
    {
    }
    AjenoSi(s, p, e);
    EnColaExec(s, p);
  }

  lemma EnColaExec(s: Ks, p: Pid)
    ensures p in s.exec <==> p in Cola(s, EXEC)
  {
  }

  lemma Apagado(cfg: Cfg, s: Ks, p: Pid)
    requires Inv(cfg, s, None, 0) && p in s.procs
    ensures if s.procs[p].estado == EXEC then s.procs[p].fd >= 0 else s.procs[p].fd == -1
    ensures s.procs[p].preemptado ==> p in s.exec || s.procs[p].estado == EXIT
  {
    hide Lugares, NivelesOk;
  }

  // ---------------------------------------------------------------- victims

  predicate Desalojable(procs: map<Pid, Proceso>, p: Pid, prioridad: int) {
    p in procs && !procs[p].preemptado && procs[p].prioridad > prioridad
  }

  predicate PeorEn(procs: map<Pid, Proceso>, exec: seq<Pid>, prioridad: int, i: nat) {
    && i < |exec| && Desalojable(procs, exec[i], prioridad)
    && forall j :: 0 <= j < |exec| && Desalojable(procs, exec[j], prioridad) ==>
         procs[exec[j]].prioridad < procs[exec[i]].prioridad || (i <= j && procs[exec[j]].prioridad == procs[exec[i]].prioridad)
  }

  /** The search keeps the best so far unless somebody that runs is strictly less urgent, and then finds the first of the least urgent. */
  lemma {:induction false} VictimaPrimera(procs: map<Pid, Proceso>, exec: seq<Pid>, prioridad: int, mejor: Option<Pid>) returns (i: nat)
    requires mejor.Some? ==> Desalojable(procs, mejor.value, prioridad)
    ensures var v := Victima(procs, exec, prioridad, mejor);
            if forall j :: 0 <= j < |exec| && Desalojable(procs, exec[j], prioridad) ==> mejor.Some? && procs[exec[j]].prioridad <= procs[mejor.value].prioridad
            then v == mejor else PeorEn(procs, exec, prioridad, i) && v == Some(exec[i])
  {
    i := 0;
    if exec != [] {
      var p, r := exec[0], exec[1..];
      var gana := p in procs && !procs[p].preemptado && procs[p].prioridad > prioridad
        && (mejor.None? || (mejor.value in procs && procs[p].prioridad > procs[mejor.value].prioridad));
      var m := if gana then Some(p) else mejor;
      var k := VictimaPrimera(procs, r, prioridad, m);
      assert forall j :: 0 < j < |exec| ==> exec[j] == r[j - 1];
      if forall j :: 0 <= j < |r| && Desalojable(procs, r[j], prioridad) ==> m.Some? && procs[r[j]].prioridad <= procs[m.value].prioridad {
        i := 0;
      } else {
        i := k + 1;
        var j :| 0 <= j < |r| && Desalojable(procs, r[j], prioridad) && !(m.Some? && procs[r[j]].prioridad <= procs[m.value].prioridad);
        assert r[k] == exec[k + 1] && r[j] == exec[j + 1];
      }
    }
  }

  lemma VictimaUnica(procs: map<Pid, Proceso>, exec: seq<Pid>, prioridad: int, j: nat)
    ensures PeorEn(procs, exec, prioridad, j) ==> Victima(procs, exec, prioridad, None) == Some(exec[j])
    ensures Victima(procs, exec, prioridad, None).Some? ==> exists i :: 0 <= i < |exec| && PeorEn(procs, exec, prioridad, i) && exec[i] == Victima(procs, exec, prioridad, None).value
  {
    var i := VictimaPrimera(procs, exec, prioridad, None);
    if PeorEn(procs, exec, prioridad, j) {
      assert PeorEn(procs, exec, prioridad, i) ==> i == j;
    }
  }

  lemma PeorIgual(s: Ks, t: Ks, prioridad: int, i: nat)
    requires t.exec == s.exec && t.procs.Keys == s.procs.Keys && forall r :: r in s.procs ==> t.procs[r].prioridad == s.procs[r].prioridad
    ensures EsPeor(s, t, prioridad, i) <==> PeorEn(s.procs, s.exec, prioridad, i)
  {
  }

  /** Marking: at most one process, only when no CPU is free, the first of the least urgent. */
  lemma MarcaUna(cfg: Cfg, s: Ks, prioridad: int)
    ensures var t := VerificarPreemption(cfg, s, prioridad);
            && t == s.(procs := t.procs) && t.procs.Keys == s.procs.Keys
            && forall r :: r in s.procs ==> t.procs[r] == s.procs[r].(preemptado := s.procs[r].preemptado || EsVictima(cfg, s, t, prioridad, r))
  {
    hide Victima, PeorEn, EsPeor;
    var t := VerificarPreemption(cfg, s, prioridad);
    forall j: nat
      ensures EsPeor(s, t, prioridad, j) <==> PeorEn(s.procs, s.exec, prioridad, j)
      ensures PeorEn(s.procs, s.exec, prioridad, j) ==> j < |s.exec| && Victima(s.procs, s.exec, prioridad, None) == Some(s.exec[j])
    {
      PeorIgual(s, t, prioridad, j);
      VictimaUnica(s.procs, s.exec, prioridad, j);
      if PeorEn(s.procs, s.exec, prioridad, j) {
        DentroDeExec(s.procs, s.exec, prioridad, j);
      }
    }
    VictimaUnica(s.procs, s.exec, prioridad, 0);
    var v := Victima(s.procs, s.exec, prioridad, None);
    if v.Some? {
      var i :| 0 <= i < |s.exec| && PeorEn(s.procs, s.exec, prioridad, i) && s.exec[i] == v.value;
      assert EsPeor(s, t, prioridad, i);
    }
  }

  lemma DentroDeExec(procs: map<Pid, Proceso>, exec: seq<Pid>, prioridad: int, i: nat)
    requires PeorEn(procs, exec, prioridad, i)
    ensures i < |exec| && exec[i] in procs
  {
  }

  // ---------------------------------------------------------------- out of one place ...

  /** `u` is `s` with `p` taken out of wherever it was, ready queues and priorities aside. */
  predicate Sacado(s: Ks, u: Ks, p: Pid) {
    && p in s.procs && u.procs.Keys == s.procs.Keys && u.procs[p].base == s.procs[p].base
    && u.exec == Quitar(s.exec, p) && u.block == Quitar(s.block, p) && u.suspBlock == Quitar(s.suspBlock, p)
    && u.suspReady == Quitar(s.suspReady, p) && u.exit == Quitar(s.exit, p)
    && (forall r :: r in s.procs && r != p ==>
          u.procs[r].estado == s.procs[r].estado && u.procs[r].base == s.procs[r].base && u.procs[r].fd == s.procs[r].fd
          && u.procs[r].preemptado == s.procs[r].preemptado)
    && u.tareas == s.tareas && u.canal == s.canal && u.plan == s.plan && u.pedida == s.pedida && u.proximo == s.proximo
    && MismosFds(s.cpus, u.cpus)
  }

  predicate SacadoDeNivel(s: Ks, u: Ks, p: Pid) {
    |u.ready| == |s.ready| && (forall i :: 0 <= i < |u.ready| ==> u.ready[i] == Quitar(s.ready[i], p)) && MismaPrioridad(s, u)
  }

  lemma {:induction false} LiberarFds(cpus: seq<CpuEntry>, fd: int)
    ensures MismosFds(cpus, Liberar(cpus, fd))
  {
    if cpus != [] && cpus[0].fd != fd {
      LiberarFds(cpus[1..], fd);
      var r := Liberar(cpus[1..], fd);
      assert forall k :: 0 < k < |cpus| ==> ([cpus[0]] + r)[k] == r[k - 1] && cpus[k] == cpus[1..][k - 1];
    }
  }

  lemma DeExec(s: Ks, p: Pid)
    requires p in s.procs && Ajeno(s, p, EXEC)
    ensures var u := SacarExec(s, p);
            Sacado(s, u, p) && SacadoDeNivel(s, u, p) && u.tokens == s.tokens && u.procs[p].fd == -1 && u.procs[p].preemptado == s.procs[p].preemptado
    ensures var u := Desmarcar(SacarExec(s, p), p);
            Sacado(s, u, p) && SacadoDeNivel(s, u, p) && u.tokens == s.tokens && u.procs[p].fd == -1 && !u.procs[p].preemptado
  {
    LiberarFds(s.cpus, s.procs[p].fd);
  }

  lemma DeExecMem(s: Ks, p: Pid)
    requires p in s.procs && Ajeno(s, p, EXEC)
    ensures var u := SacarExecMem(s, p);
            && Sacado(s, u, p) && SacadoDeNivel(s, u, p) && u.tokens == s.tokens && u.procs[p].fd == s.procs[p].fd && !u.procs[p].preemptado
            && u.procs[p].estado == s.procs[p].estado
  {
  }

  lemma DeCola(s: Ks, p: Pid, e: Estado)
    requires p in s.procs && Ajeno(s, p, e) && (e == BLOCK || e == SUSP_BLOCK || e == SUSP_READY)
    ensures var u := Sacar(s, p, e); Sacado(s, u, p) && SacadoDeNivel(s, u, p) && u.tokens == s.tokens && u.procs == s.procs
  {
  }

  /** A process in the hands of a handler is in no queue. */
  lemma DeMano(s: Ks, p: Pid)
    requires p in s.procs && Ajeno(s, p, NEW)
    ensures Sacado(s, s, p) && SacadoDeNivel(s, s, p)
  {
  }

  // ---------------------------------------------------------------- ... and into another

  lemma Concat(q: seq<Pid>)
    ensures q + [] == q
  {
  }

  /** At the front: nobody is marked. */
  lemma AlFrente(cfg: Cfg, s: Ks, u: Ks, p: Pid)
    requires Sacado(s, u, p) && Formado(cfg, u)
    ensures var t, f := PonerReady(cfg, u, p, true), Fila(Va(p, READY, true), u.tokens - s.tokens + 1, []);
            Muda(cfg, s, t, f, u.procs[p].fd, u.procs[p].preemptado)
  {
    Concat(Quitar(s.exec, p));
    Concat(Quitar(s.block, p));
    Concat(Quitar(s.suspBlock, p));
    Concat(Quitar(s.suspReady, p));
    Concat(Quitar(s.exit, p));
  }

  lemma OrdenReady(cfg: Cfg, s: Ks, u: Ks, p: Pid, alFrente: bool)
    requires Sacado(s, u, p) && SacadoDeNivel(s, u, p) && Formado(cfg, u)
    ensures Orden(cfg, s, PonerReady(cfg, u, p, alFrente), Va(p, READY, alFrente))
  {
  }

  /** At the back: the newcomer can have a victim. */
  lemma AlFinal(cfg: Cfg, s: Ks, u: Ks, p: Pid)
    requires Sacado(s, u, p) && Formado(cfg, u)
    ensures var t, f := Encolar(cfg, u, p), Fila(Va(p, READY, false), u.tokens - s.tokens + 1, []);
            Muda(cfg, s, t, f, u.procs[p].fd, u.procs[p].preemptado) && (SacadoDeNivel(s, u, p) ==> Orden(cfg, s, t, f.quien))
  {
    hide VerificarPreemption, EsVictima, Quitar;
    var v, t, prioridad := PonerReady(cfg, u, p, false), Encolar(cfg, u, p), u.procs[p].prioridad;
    hide Sacado, SacadoDeNivel, EnSuNivel;
    ASuNivel(cfg, s, u, p);
    MarcaUna(cfg, v, prioridad);
    MarcaIgual(cfg, s, u, v, t, p);
    if SacadoDeNivel(s, u, p) {
      OrdenReady(cfg, s, u, p, false);
      OrdenIgual(cfg, s, v, t, Va(p, READY, false));
    }
  }

  /** The newcomer in its place, before anybody is marked. */
  lemma ASuNivel(cfg: Cfg, s: Ks, u: Ks, p: Pid)
    requires Sacado(s, u, p) && Formado(cfg, u)
    ensures var v := PonerReady(cfg, u, p, false);
            && EnSusColas(s, v, Va(p, READY, false)) && EnLosPapeles(s, v, Fila(Va(p, READY, false), u.tokens - s.tokens + 1, []))
            && v.procs == u.procs[p := u.procs[p].(estado := READY)] && v.procs.Keys == s.procs.Keys
            && v.procs[p].base == s.procs[p].base && p !in v.exec
            && forall r :: r in s.procs && r != p ==>
                 v.procs[r].estado == s.procs[r].estado && v.procs[r].base == s.procs[r].base && v.procs[r].fd == s.procs[r].fd
                 && v.procs[r].preemptado == s.procs[r].preemptado
  {
    QuitarMiembros(s.exec, p);
    Concat(Quitar(s.exec, p));
    Concat(Quitar(s.block, p));
    Concat(Quitar(s.suspBlock, p));
    Concat(Quitar(s.suspReady, p));
    Concat(Quitar(s.exit, p));
  }

  lemma MarcaIgual(cfg: Cfg, s: Ks, u: Ks, v: Ks, t: Ks, p: Pid)
    requires p !in v.exec && t.exec == v.exec && v.procs.Keys == s.procs.Keys
    requires forall r :: r in s.procs && r != p ==> v.procs[r].preemptado == s.procs[r].preemptado
    ensures forall prioridad: int, r: Pid :: EsVictima(cfg, v, t, prioridad, r) <==> EsVictima(cfg, s, t, prioridad, r)
    ensures forall prioridad: int :: !EsVictima(cfg, v, t, prioridad, p)
  {
    forall prioridad: int, r: Pid
      ensures EsVictima(cfg, v, t, prioridad, r) <==> EsVictima(cfg, s, t, prioridad, r)
    {
      VictimaAntes(cfg, s, v, t, prioridad, r);
    }
  }

  lemma VictimaAntes(cfg: Cfg, s: Ks, v: Ks, t: Ks, prioridad: int, r: Pid)
    requires forall q :: q in t.exec ==> (q in s.procs <==> q in v.procs) && (q in s.procs ==> s.procs[q].preemptado == v.procs[q].preemptado)
    ensures EsVictima(cfg, v, t, prioridad, r) <==> EsVictima(cfg, s, t, prioridad, r)
  {
    forall i: nat
      ensures EsPeor(v, t, prioridad, i) <==> EsPeor(s, t, prioridad, i)
    {
      PeorAntes(s, v, t, prioridad, i);
    }
  }

  lemma PeorAntes(s: Ks, v: Ks, t: Ks, prioridad: int, i: nat)
    requires forall q :: q in t.exec ==> (q in s.procs <==> q in v.procs) && (q in s.procs ==> s.procs[q].preemptado == v.procs[q].preemptado)
    ensures EsPeor(v, t, prioridad, i) <==> EsPeor(s, t, prioridad, i)
  {
  }

  lemma OrdenIgual(cfg: Cfg, s: Ks, v: Ks, t: Ks, m: Traslado)
    requires Orden(cfg, s, v, m) && t.ready == v.ready && t.procs.Keys == v.procs.Keys && forall r :: r in v.procs ==> t.procs[r].prioridad == v.procs[r].prioridad
    ensures Orden(cfg, s, t, m)
  {
  }

  /** Into one of the other queues. */
  lemma ACola(cfg: Cfg, s: Ks, u: Ks, p: Pid, e: Estado)
    requires Sacado(s, u, p) && (e == BLOCK || e == SUSP_BLOCK || e == SUSP_READY || e == EXIT)
    ensures var t, f := Poner(u, p, e), Fila(Va(p, e, false), u.tokens - s.tokens, []);
            Muda(cfg, s, t, f, u.procs[p].fd, u.procs[p].preemptado) && (SacadoDeNivel(s, u, p) ==> Orden(cfg, s, t, f.quien))
  {
    hide Quitar, EsVictima, EsPeor, Poner, EnSusColas;
    ColasDe(s, u, p, e);
    PonerMas(s, u, p, e);
  }

  lemma ColasDe(s: Ks, u: Ks, p: Pid, e: Estado)
    requires Sacado(s, u, p) && (e == BLOCK || e == SUSP_BLOCK || e == SUSP_READY || e == EXIT)
    ensures EnSusColas(s, Poner(u, p, e), Va(p, e, false))
  {
    hide Quitar;
    Concat(Quitar(s.exec, p));
    Concat(Quitar(s.block, p));
    Concat(Quitar(s.suspBlock, p));
    Concat(Quitar(s.suspReady, p));
    Concat(Quitar(s.exit, p));
  }

  lemma PonerMas(s: Ks, u: Ks, p: Pid, e: Estado)
    requires Sacado(s, u, p)
    ensures var t := Poner(u, p, e);
            && t.procs == u.procs[p := u.procs[p].(estado := e)] && t.tokens == u.tokens && t.ready == u.ready && t.tareas == u.tareas
            && t.canal == u.canal && t.plan == u.plan && t.pedida == u.pedida && t.proximo == u.proximo && t.cpus == u.cpus
  {
  }

  /** A request more, posts more. */
  lemma YPide(cfg: Cfg, s: Ks, t: Ks, f: Fila, fd: int, marca: bool, x: Tarea)
    requires Muda(cfg, s, t, f, fd, marca) && f.abre == []
    ensures Muda(cfg, s, Abrir(t, x), f.(abre := [x]), fd, marca) && (Orden(cfg, s, t, f.quien) ==> Orden(cfg, s, Abrir(t, x), f.quien))
    ensures Muda(cfg, s, t.(tokens := t.tokens + 1), f.(posts := f.posts + 1), fd, marca)
    ensures Orden(cfg, s, t, f.quien) ==> Orden(cfg, s, t.(tokens := t.tokens + 1), f.quien)
  {
    hide Quitar, EsPeor, Cede;
    VictimaIgual(cfg, s, t, Abrir(t, x));
    VictimaIgual(cfg, s, t, t.(tokens := t.tokens + 1));
    hide EsVictima;
  }

  lemma VictimaIgual(cfg: Cfg, s: Ks, t: Ks, u: Ks)
    requires u.procs == t.procs && u.exec == t.exec && u.cpus == t.cpus
    ensures forall prioridad: int, r: Pid :: EsVictima(cfg, s, u, prioridad, r) <==> EsVictima(cfg, s, t, prioridad, r)
  {
    forall prioridad: int, i: nat
      ensures EsPeor(s, u, prioridad, i) <==> EsPeor(s, t, prioridad, i)
    {
    }
  }

  /** Into the hands of a handler. */
  lemma AMano(cfg: Cfg, s: Ks, u: Ks, t: Tarea)
    requires Sacado(s, u, t.pid) && u.procs[t.pid].estado == s.procs[t.pid].estado
    ensures Muda(cfg, s, Abrir(u, t), Fila(Retenido(t.pid), u.tokens - s.tokens, [t]), u.procs[t.pid].fd, u.procs[t.pid].preemptado)
    ensures SacadoDeNivel(s, u, t.pid) ==> Orden(cfg, s, Abrir(u, t), Retenido(t.pid))
  {
    Concat(Quitar(s.exec, t.pid));
    Concat(Quitar(s.block, t.pid));
    Concat(Quitar(s.suspBlock, t.pid));
    Concat(Quitar(s.suspReady, t.pid));
    Concat(Quitar(s.exit, t.pid));
  }

  /** Nothing moves. */
  lemma SinMover(cfg: Cfg, s: Ks, t: Ks, posts: int, fd: int)
    requires t.exec == s.exec && t.block == s.block && t.suspBlock == s.suspBlock && t.suspReady == s.suspReady && t.exit == s.exit
    requires t.ready == s.ready && t.procs == s.procs && t.tareas == s.tareas && t.canal == s.canal && t.cpus == s.cpus
    requires t.plan == s.plan && t.pedida == s.pedida && t.proximo == s.proximo && t.tokens == s.tokens + posts
    ensures Muda(cfg, s, t, Nada(posts), fd, false) && Orden(cfg, s, t, Nadie)
  {
    Concat(s.exec);
    Concat(s.block);
    Concat(s.suspBlock);
    Concat(s.suspReady);
    Concat(s.exit);
    assert s.tareas + [] == s.tareas;
  }

  // ---------------------------------------------------------------- handlers

  /** The socket of the process that moves: kept in EXEC and in hand, the first free CPU's if it is dispatched, and none anywhere else. */
  function FdTras(s: Ks, m: Traslado): int {
    match m
    case Va(p, a, _) =>
      if a != EXEC then -1
      else if p in s.procs && s.procs[p].fd >= 0 then s.procs[p].fd
      else (match PrimeraLibre(s.cpus) case None => -1 case Some(k) => s.cpus[k].fd)
    case Retenido(p) => if p in s.procs then s.procs[p].fd else -1
    case _ => -1
  }

  /** Marks are cleared on the way out of EXEC, except at the end of a process. */
  predicate MarcaTras(s: Ks, e: Suceso) {
    e.Termina? && Corre(s, e.pid) && s.procs[e.pid].preemptado
  }

  predicate Hecho(cfg: Cfg, s: Ks, t: Ks, f: Fila, marca: bool) {
    Muda(cfg, s, t, f, FdTras(s, f.quien), marca) && Orden(cfg, s, t, f.quien)
  }

  lemma TerminadoHecho(cfg: Cfg, s: Ks, p: Pid)
    requires p in s.procs && Ajeno(s, p, EXEC)
    ensures Hecho(cfg, s, Terminado(s, p), Muere(p, true), s.procs[p].preemptado)
  {
    hide Muda, Orden, Sacado, SacadoDeNivel, SacarExec, Poner;
    DeExec(s, p);
    EnterradoHecho(cfg, s, SacarExec(s, p), p, true);
  }

  lemma EnterradoHecho(cfg: Cfg, s: Ks, u: Ks, p: Pid, debe: bool)
    requires Sacado(s, u, p) && SacadoDeNivel(s, u, p)
    ensures var t, f := Enterrar(u, p, debe), Fila(Va(p, EXIT, false), u.tokens - s.tokens, [Avisando(p, debe)]);
            Muda(cfg, s, t, f, u.procs[p].fd, u.procs[p].preemptado) && Orden(cfg, s, t, f.quien)
  {
    var fd, marca := u.procs[p].fd, u.procs[p].preemptado;
    hide Muda, Orden, Sacado, SacadoDeNivel, Poner;
    ACola(cfg, s, u, p, EXIT);
    YPide(cfg, s, Poner(u, p, EXIT), Fila(Va(p, EXIT, false), u.tokens - s.tokens, []), fd, marca, Avisando(p, debe));
  }

  lemma InterrumpidoHecho(cfg: Cfg, s: Ks, p: Pid)
    requires p in s.procs && Ajeno(s, p, EXEC) && Formado(cfg, s)
    ensures Hecho(cfg, s, Interrumpido(cfg, s, p), Fila(Va(p, READY, s.procs[p].preemptado), 1, []), false)
  {
    hide Muda, Orden, Sacado, SacadoDeNivel, Encolar, PonerReady;
    DeExec(s, p);
    if s.procs[p].preemptado {
      var u := Desmarcar(SacarExec(s, p), p);
      AlFrente(cfg, s, u, p);
      OrdenReady(cfg, s, u, p, true);
    } else {
      AlFinal(cfg, s, SacarExec(s, p), p);
    }
  }

  lemma DevueltoHecho(cfg: Cfg, s: Ks, p: Pid)
    requires p in s.procs && Ajeno(s, p, EXEC) && Formado(cfg, s)
    ensures Hecho(cfg, s, Devuelto(cfg, s, p), Llega(p, READY), false)
  {
    hide Muda, Orden, Sacado, SacadoDeNivel, Encolar;
    DeExec(s, p);
    AlFinal(cfg, s, Desmarcar(SacarExec(s, p), p), p);
  }

  lemma PidiendoHecho(cfg: Cfg, s: Ks, p: Pid, alloc: bool)
    requires p in s.procs && Ajeno(s, p, EXEC)
    ensures Hecho(cfg, s, Pidiendo(s, p, alloc), Espera(if alloc then Alloc(p) else Free(p)), false)
  {
    hide Muda, Orden, Sacado, SacadoDeNivel, SacarExecMem;
    DeExecMem(s, p);
    AMano(cfg, s, SacarExecMem(s, p), if alloc then Alloc(p) else Free(p));
  }

  /** mover_a_block posts; a process with no interface does not stay there. */
  lemma ABlock(cfg: Cfg, s: Ks, p: Pid)
    requires p in s.procs && Ajeno(s, p, EXEC)
    ensures var t := PonerBlock(SacarExec(s, p), p);
            && Muda(cfg, s, t, Fila(Va(p, BLOCK, false), 1, []), -1, false) && Orden(cfg, s, t, Va(p, BLOCK, false))
            && Sacado(s, Sacar(t, p, BLOCK), p) && SacadoDeNivel(s, Sacar(t, p, BLOCK), p) && Sacar(t, p, BLOCK).procs == t.procs
            && Sacar(t, p, BLOCK).tokens == s.tokens + 1 && t.procs[p].fd == -1 && !t.procs[p].preemptado
  {
    hide Muda, Orden, Quitar;
    DeExec(s, p);
    var u := Desmarcar(SacarExec(s, p), p);
    ACola(cfg, s, u, p, BLOCK);
    YPide(cfg, s, Poner(u, p, BLOCK), Fila(Va(p, BLOCK, false), 0, []), -1, false, Leyendo(p));
    QuitarAlFinal(s.block, p, p);
    Concat(Quitar(s.block, p));
  }

  lemma BloqueadoHecho(cfg: Cfg, s: Ks, p: Pid, inicio: Inicio)
    requires Corre(s, p) && Ajeno(s, p, EXEC)
    ensures Hecho(cfg, s, Bloqueado(s, p, inicio), Tabla(s, Bloquea(p, inicio)), false)
  {
    hide Muda, Orden, Sacado, SacadoDeNivel, SacarExec, PonerBlock, Sacar, Enterrar;
    ABlock(cfg, s, p);
    var t := PonerBlock(SacarExec(s, p), p);
    match inicio
    case Iniciada =>
    case ConLectura => YPide(cfg, s, t, Fila(Va(p, BLOCK, false), 1, []), -1, false, Leyendo(p));
    case SinInterfaz => EnterradoHecho(cfg, s, Sacar(t, p, BLOCK), p, false);
  }

  // ---------------------------------------------------------------- answers

  /** Back into EXEC, on the CPU it kept. */
  lemma AExec(cfg: Cfg, s: Ks, u: Ks, p: Pid)
    requires Sacado(s, u, p) && u.procs[p].estado == EXEC
    ensures var t, f := Redespachar(u, p), Fila(Va(p, EXEC, false), u.tokens - s.tokens, []);
            Muda(cfg, s, t, f, u.procs[p].fd, u.procs[p].preemptado) && (SacadoDeNivel(s, u, p) ==> Orden(cfg, s, t, f.quien))
  {
    hide Quitar, EsVictima;
    Concat(Quitar(s.block, p));
    Concat(Quitar(s.suspBlock, p));
    Concat(Quitar(s.suspReady, p));
    Concat(Quitar(s.exit, p));
  }

  lemma Muerto(cfg: Cfg, s: Ks, p: Pid)
    requires p in s.procs && Ajeno(s, p, NEW)
    ensures Hecho(cfg, s, Morir(s, p), Fila(Desaparece(p), 0, []), false)
  {
    Concat(s.exec);
    Concat(s.block);
    Concat(s.suspBlock);
    Concat(s.suspReady);
    Concat(s.exit);
  }

  /** The process whose request has been answered is where its handler left it. */
  lemma DeTarea(cfg: Cfg, s: Ks, t: Tarea)
    requires Inv(cfg, s, None, 0) && s.canal == Some(t) && Titular(t).Some?
    ensures var b := Cerrar(s, t);
            && t.pid in b.procs && Ajeno(b, t.pid, NEW) && EstadoDeTarea(t, b.procs[t.pid].estado) && b.procs == s.procs && b.ready == s.ready
            && (if b.procs[t.pid].estado == EXEC then b.procs[t.pid].fd >= 0 else b.procs[t.pid].fd == -1) && !b.procs[t.pid].preemptado
  {
    hide Inv, Ajeno, EstadoDeTarea;
    PendienteEnTareas(cfg, s);
    EnTarea(cfg, s, t);
    EnLaMano(cfg, s, t);
    EnColaExec(s, t.pid);
    SinExit(t, s.procs[t.pid].estado);
    Apagado(cfg, s, t.pid);
    AjenoSi(s, t.pid, NEW);
    CerradoAjeno(s, t);
  }

  lemma SinExit(t: Tarea, e: Estado)
    requires EstadoDeTarea(t, e) && Titular(t).Some?
    ensures e != EXIT
  {
  }

  lemma CerradoAjeno(s: Ks, t: Tarea)
    requires Ajeno(s, t.pid, NEW)
    ensures Ajeno(Cerrar(s, t), t.pid, NEW) && Cerrar(s, t).procs == s.procs && Cerrar(s, t).ready == s.ready
  {
  }

  lemma PendienteEnTareas(cfg: Cfg, s: Ks)
    requires Inv(cfg, s, None, 0) && s.canal.Some?
    ensures s.canal.value in s.tareas
  {
    hide Lugares, Ligadura, Compactacion, NivelesOk;
  }

  lemma EnLaMano(cfg: Cfg, s: Ks, t: Tarea)
    requires Inv(cfg, s, None, 0) && t in s.tareas && Titular(t).Some?
    ensures forall e :: t.pid !in Cola(s, e)
  {
    hide Inv, EnColas;
    Lugar(cfg, s, t.pid);
    var i :| 0 <= i < |s.tareas| && s.tareas[i] == t;
    EnManosMiembro(s.tareas, i, t.pid);
    forall e
      ensures t.pid !in Cola(s, e)
    {
      ColasSuman(s, t.pid);
      VecesMiembro(Cola(s, e), t.pid);
    }
  }

  lemma CreadoHecho(cfg: Cfg, s: Ks, p: Pid, ok: bool)
    requires Inv(cfg, s, None, 0) && Puede(cfg, s, CrearFin(p, ok))
    ensures Hecho(cfg, Papeles(s, CrearFin(p, ok)), Creado(cfg, s, p, ok), Tabla(s, CrearFin(p, ok)), false)
  {
    hide Inv, Muda, Orden, Sacado, SacadoDeNivel, Encolar, Morir, Ajeno;
    var b := Cerrar(s, Creando(p));
    DeTarea(cfg, s, Creando(p));
    DeMano(b, p);
    if ok {
      AlFinal(cfg, b, b, p);
    } else {
      Muerto(cfg, b, p);
    }
  }

  lemma EscritoHecho(cfg: Cfg, s: Ks, p: Pid, ok: bool)
    requires Inv(cfg, s, None, 0) && Puede(cfg, s, StdinFin(p, ok))
    ensures Hecho(cfg, Papeles(s, StdinFin(p, ok)), Escrito(cfg, s, p, ok), Tabla(s, StdinFin(p, ok)), false)
  {
    hide Inv, Muda, Orden, Sacado, SacadoDeNivel, Encolar, Enterrar, Ajeno;
    var b := Cerrar(s, Escribiendo(p));
    DeTarea(cfg, s, Escribiendo(p));
    DeMano(b, p);
    if ok {
      AlFinal(cfg, b, b, p);
    } else {
      EnterradoHecho(cfg, b, b, p, false);
    }
  }

  lemma SuspendidoHecho(cfg: Cfg, s: Ks, p: Pid, ok: bool)
    requires Inv(cfg, s, None, 0) && Puede(cfg, s, SuspenderFin(p, ok))
    ensures Hecho(cfg, Papeles(s, SuspenderFin(p, ok)), Suspendido(s, p, ok), Tabla(s, SuspenderFin(p, ok)), false)
  {
    hide Inv, Muda, Orden, Sacado, SacadoDeNivel, Poner, Ajeno;
    var b := Cerrar(s, Suspendiendo(p));
    DeTarea(cfg, s, Suspendiendo(p));
    DeMano(b, p);
    ACola(cfg, b, b, p, if ok then SUSP_BLOCK else BLOCK);
  }

  lemma DesuspendidoHecho(cfg: Cfg, s: Ks, p: Pid, regreso: Regreso)
    requires Inv(cfg, s, None, 0) && Puede(cfg, s, DesuspenderFin(p, regreso))
    ensures Hecho(cfg, Papeles(s, DesuspenderFin(p, regreso)), Desuspendido(cfg, s, p, regreso), Tabla(s, DesuspenderFin(p, regreso)), false)
  {
    hide Inv, Muda, Orden, Sacado, SacadoDeNivel, Encolar, Enterrar, Poner, Abrir, Ajeno;
    var b := Cerrar(s, Desuspendiendo(p));
    DeTarea(cfg, s, Desuspendiendo(p));
    DeMano(b, p);
    match regreso
    case Listo => AlFinal(cfg, b, b, p);
    case PorEscribir => AMano(cfg, b, b, Escribiendo(p));
    case Inservible => EnterradoHecho(cfg, b, b, p, false);
    case NoCabe => ACola(cfg, b, b, p, SUSP_READY);
  }

  lemma LeidoHecho(cfg: Cfg, s: Ks, p: Pid, ok: bool)
    requires Inv(cfg, s, None, 0) && Puede(cfg, s, LecturaFin(p, ok))
    ensures Hecho(cfg, Papeles(s, LecturaFin(p, ok)), Leido(s, p, ok), Tabla(s, LecturaFin(p, ok)), false)
  {
    hide Inv, Muda, Orden, Sacado, SacadoDeNivel, Enterrar, Ajeno, Sacar;
    var b := Cerrar(s, Leyendo(p));
    if !ok && p in s.block {
      UnaCola(cfg, s, p, BLOCK);
      CerradoCola(s, Leyendo(p), BLOCK);
      DeCola(b, p, BLOCK);
      EnterradoHecho(cfg, b, Sacar(b, p, BLOCK), p, false);
    } else {
      SinMover(cfg, b, b, 0, -1);
    }
  }

  lemma CerradoCola(s: Ks, t: Tarea, e: Estado)
    requires Ajeno(s, t.pid, e)
    ensures Ajeno(Cerrar(s, t), t.pid, e) && Cerrar(s, t).block == s.block
  {
  }

  lemma AsignadoHecho(cfg: Cfg, s: Ks, p: Pid, ok: bool)
    requires Inv(cfg, s, None, 0) && Puede(cfg, s, AllocFin(p, ok))
    ensures Hecho(cfg, Papeles(s, AllocFin(p, ok)), Asignado(s, p, ok), Tabla(s, AllocFin(p, ok)), false)
  {
    hide Inv, Muda, Orden, Enterrar, Ajeno, Redespachar, Sacado, SacadoDeNivel, SoltarCpu;
    var b := Cerrar(s, Alloc(p));
    var u := Cerrar(s.(fase := if s.fase.FinEnviado? then Respondida else s.fase), Alloc(p));
    DeTarea(cfg, s, Alloc(p));
    DeMano(b, p);
    OtraFase(b, u, p);
    if ok {
      AExec(cfg, b, u, p);
    } else {
      EnterradoHecho(cfg, b, SoltarCpu(u, p), p, true);
    }
  }

  lemma OtraFase(s: Ks, u: Ks, p: Pid)
    requires Sacado(s, s, p) && SacadoDeNivel(s, s, p) && u == s.(fase := u.fase)
    ensures Sacado(s, u, p) && SacadoDeNivel(s, u, p)
    ensures var v := SoltarCpu(u, p);
            Sacado(s, v, p) && SacadoDeNivel(s, v, p) && v.tokens == s.tokens && v.procs[p].fd == -1 && v.procs[p].preemptado == s.procs[p].preemptado
  {
    hide Quitar;
    LiberarFds(u.cpus, u.procs[p].fd);
  }

  lemma LiberadoHecho(cfg: Cfg, s: Ks, p: Pid)
    requires Inv(cfg, s, None, 0) && Puede(cfg, s, FreeFin(p))
    ensures Hecho(cfg, Papeles(s, FreeFin(p)), Liberado(s, p), Tabla(s, FreeFin(p)), false)
  {
    hide Inv, Muda, Orden, Sacado, SacadoDeNivel, Ajeno, Redespachar;
    var b := Cerrar(s, Free(p));
    DeTarea(cfg, s, Free(p));
    DeMano(b, p);
    AExec(cfg, b, b, p);
  }

  // ---------------------------------------------------------------- what a process waits for

  lemma DespertadoHecho(cfg: Cfg, s: Ks, p: Pid)
    requires Inv(cfg, s, None, 0) && Formado(cfg, s)
    ensures Hecho(cfg, s, Despertado(cfg, s, p), AlDespertar(s, p), false)
  {
    hide Inv, Muda, Orden, Sacado, SacadoDeNivel, Encolar, Ajeno, Sacar, Poner;
    if p in s.block {
      UnaCola(cfg, s, p, BLOCK);
      DeCola(s, p, BLOCK);
      AlFinal(cfg, s, Sacar(s, p, BLOCK), p);
    } else if p in s.suspBlock {
      UnaCola(cfg, s, p, SUSP_BLOCK);
      DeCola(s, p, SUSP_BLOCK);
      ACola(cfg, s, Sacar(s, p, SUSP_BLOCK), p, SUSP_READY);
    } else {
      SinMover(cfg, s, s, 0, -1);
    }
  }

  lemma MalogradoHecho(cfg: Cfg, s: Ks, p: Pid)
    requires Inv(cfg, s, None, 0)
    ensures Hecho(cfg, s, Malogrado(s, p), AlMalograrse(s, p), false)
  {
    hide Inv, Muda, Orden, Sacado, SacadoDeNivel, Enterrar, Ajeno, Sacar;
    if p in s.block {
      UnaCola(cfg, s, p, BLOCK);
      DeCola(s, p, BLOCK);
      EnterradoHecho(cfg, s, Sacar(s, p, BLOCK), p, false);
    } else if p in s.suspBlock {
      UnaCola(cfg, s, p, SUSP_BLOCK);
      DeCola(s, p, SUSP_BLOCK);
      EnterradoHecho(cfg, s, Sacar(s, p, SUSP_BLOCK), p, false);
    } else {
      SinMover(cfg, s, s, 0, -1);
    }
  }

  /** A handler takes a process out of a queue and asks Kernel Memory for something. */
  lemma TomadoHecho(cfg: Cfg, s: Ks, t: Tarea, e: Estado)
    requires Inv(cfg, s, None, 0) && t.pid in Cola(s, e) && (e == BLOCK || e == SUSP_READY)
    ensures Hecho(cfg, s, Abrir(Sacar(s, t.pid, e), t), Espera(t), false)
  {
    hide Inv, Muda, Orden, Sacado, SacadoDeNivel, Ajeno, Sacar, Abrir;
    UnaCola(cfg, s, t.pid, e);
    DeCola(s, t.pid, e);
    AMano(cfg, s, Sacar(s, t.pid, e), t);
  }

  lemma ConDatosHecho(cfg: Cfg, s: Ks, p: Pid, validos: bool, vacio: bool)
    requires Inv(cfg, s, None, 0) && Formado(cfg, s)
    ensures Hecho(cfg, s, ConDatos(cfg, s, p, validos, vacio), Tabla(s, StdinDatos(p, validos, vacio)), false)
  {
    hide Inv, Hecho, Malogrado, Despertado, Abrir, Sacar, AlDespertar, AlMalograrse;
    if !validos {
      MalogradoHecho(cfg, s, p);
    } else if p in s.block && !vacio {
      TomadoHecho(cfg, s, Escribiendo(p), BLOCK);
    } else {
      DespertadoHecho(cfg, s, p);
    }
  }

  // ---------------------------------------------------------------- the planner, the CPUs, a new process

  lemma {:induction false} Frente(q: seq<Pid>, p: Pid)
    requires q != [] && q[0] == p && Veces(q, p) == 1
    ensures Quitar(q, p) == q[1..]
  {
    VecesMiembro(q[1..], p);
    QuitarAjeno(q[1..], p);
  }

  /** The front of the first ready queue that is not empty is in no other. */
  lemma SoloAlFrente(cfg: Cfg, s: Ks, i: nat)
    requires Inv(cfg, s, None, 0) && i < |s.ready| && s.ready[i] != []
    ensures var p := s.ready[i][0];
            && p in s.procs && Ajeno(s, p, READY) && s.procs[p].fd == -1 && !s.procs[p].preemptado && Quitar(s.ready[i], p) == s.ready[i][1..]
            && forall k :: 0 <= k < |s.ready| && k != i ==> SinEl(s.ready[k], p)
  {
    hide Inv, Ajeno;
    var p := s.ready[i][0];
    ListosMiembro(s.ready, i, p);
    UnaCola(cfg, s, p, READY);
    Lugar(cfg, s, p);
    VecesMiembro(s.ready[i], p);
    EnUnNivel(s.ready, i, p);
    Frente(s.ready[i], p);
  }

  lemma EnUnNivel(ready: seq<seq<Pid>>, i: nat, p: Pid)
    requires i < |ready| && p in ready[i] && Veces(Listos(ready), p) <= 1
    ensures Veces(ready[i], p) == 1 && forall k :: 0 <= k < |ready| && k != i ==> SinEl(ready[k], p)
  {
    VecesMiembro(ready[i], p);
    ListosUpdate(ready, i, [], p);
    var r := ready[i := []];
    forall k | 0 <= k < |ready| && k != i
      ensures SinEl(ready[k], p)
    {
      assert r[k] == ready[k];
      if p in r[k] {
        ListosMiembro(r, k, p);
        VecesMiembro(Listos(r), p);
      }
      QuitarAjeno(ready[k], p);
    }
  }

  lemma PlanificadoHecho(cfg: Cfg, s: Ks)
    requires Inv(cfg, s, None, 0) && Puede(cfg, s, PlanPasa)
    ensures Hecho(cfg, Papeles(s, PlanPasa), Planificado(s), Tabla(s, PlanPasa), false)
  {
    hide Inv, Muda, Orden;
    var b := s.(plan := false);
    var i, k := PrimerNivel(s.ready), PrimeraLibre(s.cpus);
    if i.Some? && k.Some? {
      SoloAlFrente(cfg, s, i.value);
      DespachadoHecho(cfg, b, i.value, k.value);
    } else {
      SinMover(cfg, b, b, 0, -1);
    }
  }

  lemma DespachadoHecho(cfg: Cfg, s: Ks, i: nat, k: nat)
    requires i < |s.ready| && s.ready[i] != [] && s.ready[i][0] in s.procs && PrimeraLibre(s.cpus) == Some(k)
    requires var p := s.ready[i][0];
             Ajeno(s, p, READY) && s.procs[p].fd == -1 && !s.procs[p].preemptado && Quitar(s.ready[i], p) == s.ready[i][1..]
             && forall j :: 0 <= j < |s.ready| && j != i ==> SinEl(s.ready[j], p)
    ensures Hecho(cfg, s, Despachar(s, i, k), Llega(s.ready[i][0], EXEC), false)
  {
    hide Quitar;
    Concat(s.block);
    Concat(s.suspBlock);
    Concat(s.suspReady);
    Concat(s.exit);
  }

  lemma NacidoHecho(cfg: Cfg, s: Ks, padre: Pid, prioridad: int)
    requires Inv(cfg, s, None, 0) && Puede(cfg, s, CrearInicio(padre, prioridad))
    ensures Hecho(cfg, Papeles(s, CrearInicio(padre, prioridad)), Despues(cfg, s, CrearInicio(padre, prioridad)), Tabla(s, CrearInicio(padre, prioridad)), false)
  {
    hide Inv, Muda, Orden, Sacado, SacadoDeNivel, Ajeno;
    var p := s.proximo;
    var b := Papeles(s, CrearInicio(padre, prioridad));
    NuevoPid(cfg, s);
    Lugar(cfg, s, p);
    NingunaCola(s, p);
    AjenoSi(s, p, NEW);
    NacidoAjeno(s, b, p);
    DeMano(b, p);
    NacidoSacado(s, b, p, prioridad);
    AMano(cfg, b, Nacer(s, p, prioridad), Creando(p));
  }

  lemma NingunaCola(s: Ks, p: Pid)
    requires EnColas(s, p) == 0
    ensures forall e :: p !in Cola(s, e)
  {
    hide EnColas;
    forall e
      ensures p !in Cola(s, e)
    {
      ColasSuman(s, p);
      VecesMiembro(Cola(s, e), p);
    }
  }

  lemma NacidoAjeno(s: Ks, b: Ks, p: Pid)
    requires Ajeno(s, p, NEW) && b.exec == s.exec && b.block == s.block && b.suspBlock == s.suspBlock && b.suspReady == s.suspReady
    requires b.exit == s.exit && b.ready == s.ready
    ensures Ajeno(b, p, NEW)
  {
  }

  lemma NacidoSacado(s: Ks, b: Ks, p: Pid, prioridad: int)
    requires p == s.proximo && p !in s.procs && b == s.(proximo := s.proximo + 1, procs := s.procs[p := Proceso(NEW, prioridad, prioridad, -1, false)])
    requires Sacado(b, b, p) && SacadoDeNivel(b, b, p)
    ensures Sacado(b, Nacer(s, p, prioridad), p) && SacadoDeNivel(b, Nacer(s, p, prioridad), p)
    ensures Nacer(s, p, prioridad).procs == b.procs && Nacer(s, p, prioridad).tokens == s.tokens
  {
  }

  lemma DesconectadoHecho(cfg: Cfg, s: Ks, fd: int)
    requires Inv(cfg, s, None, 0) && Formado(cfg, s)
    ensures Hecho(cfg, Papeles(s, DesconectarCpu(fd)), Desconectado(cfg, s, fd), Tabla(s, DesconectarCpu(fd)), false)
  {
    hide Inv, Muda, Orden, Sacado, SacadoDeNivel, Ajeno, Encolar, Rescatado;
    var b := s.(cpus := SinCpu(s.cpus, fd));
    match Huerfano(s.procs, s.exec, fd)
    case None => SinMover(cfg, b, b, 0, -1);
    case Some(p) =>
      EnColaExec(s, p);
      UnaCola(cfg, s, p, EXEC);
      RescatadoSacado(s, b, p, fd);
      AlFinal(cfg, b, Rescatado(s, p, fd), p);
  }

  lemma RescatadoSacado(s: Ks, b: Ks, p: Pid, fd: int)
    requires p in s.procs && Ajeno(s, p, EXEC) && b == s.(cpus := SinCpu(s.cpus, fd))
    ensures var u := Rescatado(s, p, fd);
            && Sacado(b, u, p) && SacadoDeNivel(b, u, p) && u.tokens == s.tokens && u.procs[p].fd == -1 && !u.procs[p].preemptado
            && |u.ready| == |s.ready|
  {
  }

  // ---------------------------------------------------------------- mutexes

  /** Recalculating a priority moves one process inside the ready queues, keeps the others in their order, and touches nothing else. */
  lemma RecalcularOrden(cfg: Cfg, s: Ks, q: Pid)
    ensures var t := Recalcular(cfg, s, q);
            && |t.ready| == |s.ready| && (forall i :: 0 <= i < |t.ready| ==> Quitar(t.ready[i], q) == Quitar(s.ready[i], q))
            && t == s.(ready := t.ready, procs := t.procs) && t.procs.Keys == s.procs.Keys
            && forall r :: r in s.procs ==> t.procs[r] == s.procs[r].(prioridad := t.procs[r].prioridad) && (r != q ==> t.procs[r] == s.procs[r])
  {
    var t := Recalcular(cfg, s, q);
    if t.ready != s.ready {
      var nueva := Efectiva(s, q);
      var k := NivelDe(s.ready, q).value;
      QuitarDosVeces(s.ready[k], q);
      var sin := s.ready[k := Quitar(s.ready[k], q)];
      QuitarAlFinal(sin[nueva], q, q);
      Concat(Quitar(sin[nueva], q));
    }
  }

  lemma {:induction false} QuitarDosVeces(x: seq<Pid>, p: Pid)
    ensures Quitar(Quitar(x, p), p) == Quitar(x, p)
  {
    if x != [] {
      QuitarDosVeces(x[1..], p);
      var r := Quitar(x[1..], p);
      if x[0] != p {
        assert ([x[0]] + r)[1..] == r;
      }
    }
  }

  lemma {:induction false} QuitarConmuta(x: seq<Pid>, p: Pid, q: Pid)
    ensures Quitar(Quitar(x, p), q) == Quitar(Quitar(x, q), p)
  {
    if x != [] {
      QuitarConmuta(x[1..], p, q);
      var a, b := Quitar(x[1..], p), Quitar(x[1..], q);
      assert ([x[0]] + a)[1..] == a && ([x[0]] + b)[1..] == b;
    }
  }

  lemma PidiendoMutexHecho(cfg: Cfg, s: Ks, p: Pid, nombre: string)
    requires Corre(s, p) && Ajeno(s, p, EXEC) && Formado(cfg, s)
    ensures var f := AlPedirMutex(s, p, nombre); Muda(cfg, s, Bloqueando(cfg, s, p, nombre), f, FdTras(s, f.quien), false)
    ensures var f := AlPedirMutex(s, p, nombre); f.quien.a != BLOCK ==> Orden(cfg, s, Bloqueando(cfg, s, p, nombre), f.quien)
  {
    hide Muda, Orden, Encolar, Enterrar, PonerBlock, Recalcular, SacarExec, Quitar;
    var l := LockEn(s.mutexes, p, s.procs[p].prioridad, nombre);
    var u := Desmarcar(SacarExec(s, p), p).(mutexes := l.lista);
    DeExec(s, p);
    assert Sacado(s, u, p) && SacadoDeNivel(s, u, p);
    hide Sacado, SacadoDeNivel;
    if l.codigo == 0 {
      AlFinal(cfg, s, u, p);
    } else if l.codigo == 1 {
      EsperaMutex(cfg, s, u, p, l.ownerAElevar);
    } else {
      EnterradoHecho(cfg, s, u, p, true);
    }
  }

  lemma EsperaMutex(cfg: Cfg, s: Ks, u: Ks, p: Pid, q: int)
    requires Sacado(s, u, p) && u.procs[p].fd == -1 && !u.procs[p].preemptado && u.tokens == s.tokens
    ensures Muda(cfg, s, PonerBlock(Recalcular(cfg, u, q), p), Fila(Va(p, BLOCK, false), 1, []), -1, false)
  {
    hide Muda, Recalcular, Quitar, Poner;
    var v := Recalcular(cfg, u, q);
    if 0 <= q <= INT_MAX {
      RecalcularOrden(cfg, u, q);
    } else {
      assert v == u by {
        NoRecalcula(cfg, u, q);
      }
    }
    var w := Desmarcar(v, p);
    assert Sacado(s, w, p);
    ACola(cfg, s, w, p, BLOCK);
    PonerMas(s, w, p, BLOCK);
    YPide(cfg, s, Poner(w, p, BLOCK), Fila(Va(p, BLOCK, false), 0, []), -1, false, Leyendo(p));
  }

  lemma NoRecalcula(cfg: Cfg, s: Ks, q: int)
    ensures !(0 <= q <= INT_MAX) ==> Recalcular(cfg, s, q) == s
  {
  }

  /** `u` is `s` with other mutexes, priorities and ready queues. */
  predicate Repriorizado(s: Ks, u: Ks) {
    && u == s.(mutexes := u.mutexes, ready := u.ready, procs := u.procs) && u.procs.Keys == s.procs.Keys
    && forall r :: r in s.procs ==> u.procs[r] == s.procs[r].(prioridad := u.procs[r].prioridad)
  }

  /** But for `p` and `q`, every ready queue holds the same processes in the same order. */
  predicate MismoOrden(s: Ks, t: Ks, p: Pid, q: Pid) {
    |t.ready| == |s.ready| && forall i :: 0 <= i < |t.ready| ==> Quitar(Quitar(t.ready[i], p), q) == Quitar(Quitar(s.ready[i], p), q)
  }

  lemma EnAlgunNivel(ready: seq<seq<Pid>>, p: Pid)
    ensures p in Listos(ready) <==> exists i :: 0 <= i < |ready| && p in ready[i]
    ensures p in Listos(ready) <==> NivelDe(ready, p).Some?
  {
    if i :| 0 <= i < |ready| && p in ready[i] {
      ListosMiembro(ready, i, p);
    }
    if p in Listos(ready) {
      AlgunNivel(ready, p);
    }
  }

  lemma {:induction false} AlgunNivel(ready: seq<seq<Pid>>, p: Pid)
    requires p in Listos(ready)
    ensures exists i :: 0 <= i < |ready| && p in ready[i]
  {
    if p in ready[0] {
    } else {
      AlgunNivel(ready[1..], p);
      var i :| 0 <= i < |ready[1..]| && p in ready[1..][i];
      assert p in ready[i + 1];
    }
  }

  /** A READY process whose priority changes goes to the back of the queue of the new one. */
  lemma MoverAlFinal(ready: seq<seq<Pid>>, p: Pid, nueva: int)
    requires Veces(Listos(ready), p) <= 1
    ensures 0 <= nueva < |ready| && p in Listos(ready) ==>
      forall i :: 0 <= i < |ready| ==> MoverNivel(ready, p, nueva)[i] == Quitar(ready[i], p) + if i == nueva then [p] else []
    ensures 0 <= nueva < |ready| && p !in Listos(ready) ==> MoverNivel(ready, p, nueva) == ready
  {
    EnAlgunNivel(ready, p);
    if p in Listos(ready) {
      var k := NivelDe(ready, p).value;
      EnUnNivel(ready, k, p);
      forall i | 0 <= i < |ready|
        ensures Quitar(ready[i], p) + [] == Quitar(ready[i], p) && (i != k ==> Quitar(ready[i], p) == ready[i])
      {
      }
    }
  }

  lemma SoltandoOrden(cfg: Cfg, s: Ks, p: Pid, nombre: string)
    ensures Repriorizado(s, Soltando(cfg, s, p, nombre))
    ensures var h := Heredero(s, p, nombre); MismoOrden(s, Soltando(cfg, s, p, nombre), p, if h.Some? then h.value else p)
  {
    hide Recalcular, Quitar;
    var r := UnlockEn(s.mutexes, p, nombre);
    var m := s.(mutexes := r.lista);
    var u := Recalcular(cfg, m, p);
    var v := Soltando(cfg, s, p, nombre);
    RecalcularOrden(cfg, m, p);
    var h := Heredero(s, p, nombre);
    HerederoEs(s, p, nombre);
    if h.Some? {
      RecalcularOrden(cfg, u, h.value);
    } else {
      NoRecalcula(cfg, u, r.sucesor);
    }
    var q := if h.Some? then h.value else p;
    forall i | 0 <= i < |v.ready|
      ensures Quitar(Quitar(v.ready[i], p), q) == Quitar(Quitar(s.ready[i], p), q)
    {
      QuitarConmuta(v.ready[i], p, q);
      QuitarConmuta(u.ready[i], p, q);
    }
  }

  lemma HerederoEs(s: Ks, p: Pid, nombre: string)
    ensures var r, h := UnlockEn(s.mutexes, p, nombre).sucesor, Heredero(s, p, nombre);
            if h.Some? then r == h.value else !(0 <= r <= INT_MAX)
  {
  }

  lemma SueltaSaca(s: Ks, u: Ks, q: Pid, e: Estado)
    requires Repriorizado(s, u) && q in s.procs && Ajeno(s, q, e) && (e == BLOCK || e == SUSP_BLOCK)
    ensures var v := Sacar(u, q, e);
            && Sacado(s, v, q) && v.tokens == s.tokens && v.procs == u.procs && v.ready == u.ready
            && v.procs[q].fd == s.procs[q].fd && v.procs[q].preemptado == s.procs[q].preemptado
  {
  }

  lemma SueltaSola(cfg: Cfg, s: Ks, u: Ks)
    requires Repriorizado(s, u)
    ensures Muda(cfg, s, u, Nada(0), -1, false)
  {
    Concat(s.exec);
    Concat(s.block);
    Concat(s.suspBlock);
    Concat(s.suspReady);
    Concat(s.exit);
    assert s.tareas + [] == s.tareas;
  }

  lemma SoltandoMutexHecho(cfg: Cfg, s: Ks, p: Pid, nombre: string)
    requires Inv(cfg, s, None, 0) && Formado(cfg, s)
    ensures var f := Tabla(s, MutexUnlock(p, nombre)); Muda(cfg, s, Desbloqueando(cfg, s, p, nombre), f, FdTras(s, f.quien), false)
  {
    hide Inv, Muda, Encolar, Soltando, UnlockEn, Ajeno, Poner, Sacar, Repriorizado, Sacado, SacadoDeNivel, Heredero;
    var u := Soltando(cfg, s, p, nombre);
    SoltandoOrden(cfg, s, p, nombre);
    SoltandoFormado(cfg, s, p, nombre);
    HerederoEs(s, p, nombre);
    MismasSalvoReady(s, u);
    match Heredero(s, p, nombre)
    case None => SueltaSola(cfg, s, u);
    case Some(q) =>
      if q in s.block {
        UnaCola(cfg, s, q, BLOCK);
        SueltaSaca(s, u, q, BLOCK);
        AlFinal(cfg, s, Sacar(u, q, BLOCK), q);
      } else if q in s.suspBlock {
        UnaCola(cfg, s, q, SUSP_BLOCK);
        SueltaSaca(s, u, q, SUSP_BLOCK);
        ACola(cfg, s, Sacar(u, q, SUSP_BLOCK), q, SUSP_READY);
      } else {
        SueltaSola(cfg, s, u);
      }
  }

  lemma MismasSalvoReady(s: Ks, u: Ks)
    requires Repriorizado(s, u)
    ensures u.block == s.block && u.suspBlock == s.suspBlock && u.procs.Keys == s.procs.Keys && u.tokens == s.tokens
  {
  }

  // ---------------------------------------------------------------- every step

  /** The steps that recalculate priorities, which can move owners between ready queues. */
  predicate Recalcula(s: Ks, e: Suceso) {
    e.MutexUnlock? || (e.MutexLock? && Corre(s, e.pid) && BuscarMutex(s.mutexes, e.nombre).Some? && s.mutexes[BuscarMutex(s.mutexes, e.nombre).value].owner != -1)
  }

  /** What the step makes of the row of the table. */
  predicate Efecto(cfg: Cfg, s: Ks, e: Suceso, t: Ks) {
    var b, f := Papeles(s, e), Tabla(s, e);
    Muda(cfg, b, t, f, FdTras(b, f.quien), MarcaTras(s, e)) && (Recalcula(s, e) || Orden(cfg, b, t, f.quien))
  }

  lemma SinEfecto(cfg: Cfg, s: Ks, e: Suceso)
    requires Puede(cfg, s, e) && DeCpu(e) && !e.MutexUnlock? && (e.MutexCrea? || !Corre(s, e.pid))
    ensures Efecto(cfg, s, e, Despues(cfg, s, e))
  {
    SinCambio(cfg, s, e);
    hide Muda, Orden, Despues, Papeles, Tabla, MarcaTras, Puede, Recalcula;
    SinMover(cfg, s, Despues(cfg, s, e), 0, -1);
  }

  lemma SinCambio(cfg: Cfg, s: Ks, e: Suceso)
    requires Puede(cfg, s, e) && DeCpu(e) && !e.MutexUnlock? && (e.MutexCrea? || !Corre(s, e.pid))
    ensures var t := Despues(cfg, s, e); t == s.(mutexes := t.mutexes)
    ensures Papeles(s, e) == s && Tabla(s, e) == Nada(0) && !MarcaTras(s, e)
  {
    hide Formado, Terminado, Interrumpido, Devuelto, Bloqueado, Pidiendo, Bloqueando, AlPedirMutex;
  }

  lemma MutexEfecto(cfg: Cfg, s: Ks, e: Suceso)
    requires Inv(cfg, s, None, 0) && Puede(cfg, s, e) && (e.MutexUnlock? || (e.MutexLock? && Corre(s, e.pid)))
    ensures Efecto(cfg, s, e, Despues(cfg, s, e))
  {
    hide Inv, Muda, Orden, Ajeno, Bloqueando, Desbloqueando, Heredero, Formado;
    match e
    case MutexUnlock(p, nombre) => SoltandoMutexHecho(cfg, s, p, nombre);
    case MutexLock(p, nombre) =>
      EnColaExec(s, p);
      UnaCola(cfg, s, p, EXEC);
      PidiendoMutexHecho(cfg, s, p, nombre);
  }

  lemma SaleEfecto(cfg: Cfg, s: Ks, e: Suceso)
    requires Inv(cfg, s, None, 0) && Puede(cfg, s, e) && (e.Termina? || e.Interrumpe? || e.Vuelve? || e.Bloquea? || e.MemPide?) && Corre(s, e.pid)
    ensures Efecto(cfg, s, e, Despues(cfg, s, e))
  {
    hide Inv, Muda, Orden, Ajeno, Terminado, Interrumpido, Devuelto, Bloqueado, Pidiendo, Formado;
    EnColaExec(s, e.pid);
    UnaCola(cfg, s, e.pid, EXEC);
    match e
    case Termina(p) => TerminadoHecho(cfg, s, p);
    case Interrumpe(p) => InterrumpidoHecho(cfg, s, p);
    case Vuelve(p) => DevueltoHecho(cfg, s, p);
    case Bloquea(p, inicio) => BloqueadoHecho(cfg, s, p, inicio);
    case MemPide(p, alloc) => PidiendoHecho(cfg, s, p, alloc);
  }

  lemma MemoriaEfecto(cfg: Cfg, s: Ks, e: Suceso)
    requires Inv(cfg, s, None, 0) && Puede(cfg, s, e) && DeMemoria(e)
    ensures Efecto(cfg, s, e, Despues(cfg, s, e))
  {
    hide Inv, Muda, Orden, Papeles, Tabla, Creado, Leido, Escrito, Suspendido, Desuspendido, Asignado, Liberado;
    SinMarca(s, e);
    match e
    case CrearFin(p, ok) => CreadoHecho(cfg, s, p, ok);
    case LecturaFin(p, ok) => LeidoHecho(cfg, s, p, ok);
    case StdinFin(p, ok) => EscritoHecho(cfg, s, p, ok);
    case SuspenderFin(p, ok) => SuspendidoHecho(cfg, s, p, ok);
    case DesuspenderFin(p, regreso) => DesuspendidoHecho(cfg, s, p, regreso);
    case AllocFin(p, ok) => AsignadoHecho(cfg, s, p, ok);
    case FreeFin(p) => LiberadoHecho(cfg, s, p);
    case AvisoFin(p, debe) => AvisadoHecho(cfg, s, p, debe);
  }

  lemma AvisadoHecho(cfg: Cfg, s: Ks, p: Pid, debe: bool)
    requires Puede(cfg, s, AvisoFin(p, debe))
    ensures Hecho(cfg, Papeles(s, AvisoFin(p, debe)), Despues(cfg, s, AvisoFin(p, debe)), Tabla(s, AvisoFin(p, debe)), false)
  {
    hide Muda, Orden;
    SinMover(cfg, Papeles(s, AvisoFin(p, debe)), Despues(cfg, s, AvisoFin(p, debe)), Bit(debe), -1);
  }

  lemma SinMarca(s: Ks, e: Suceso)
    ensures !e.Termina? ==> !MarcaTras(s, e)
  {
  }

  lemma EsperaEfecto(cfg: Cfg, s: Ks, e: Suceso)
    requires Inv(cfg, s, None, 0) && Puede(cfg, s, e) && (e.IoFin? || e.StdinDatos? || e.SuspenderInicio? || e.DesuspenderInicio?)
    ensures Efecto(cfg, s, e, Despues(cfg, s, e))
  {
    hide Inv, Muda, Orden, Despertado, Malogrado, ConDatos, AlDespertar, AlMalograrse, Abrir, Sacar;
    match e
    case IoFin(p, sinDatos) =>
      DespertadoHecho(cfg, s, p);
      MalogradoHecho(cfg, s, p);
    case StdinDatos(p, validos, vacio) => ConDatosHecho(cfg, s, p, validos, vacio);
    case SuspenderInicio(p) => TomadoHecho(cfg, s, Suspendiendo(p), BLOCK);
    case DesuspenderInicio(p) => TomadoHecho(cfg, s, Desuspendiendo(p), SUSP_READY);
  }

  lemma PlanEfecto(cfg: Cfg, s: Ks, e: Suceso)
    requires Inv(cfg, s, None, 0) && Puede(cfg, s, e) && (e.PlanPasa? || e.CrearInicio? || e.DesconectarCpu?)
    ensures Efecto(cfg, s, e, Despues(cfg, s, e))
  {
    hide Inv, Muda, Orden, Papeles, Tabla, Planificado, Desconectado;
    SinMarca(s, e);
    match e
    case PlanPasa => PlanificadoHecho(cfg, s);
    case CrearInicio(padre, prioridad) => NacidoHecho(cfg, s, padre, prioridad);
    case DesconectarCpu(fd) => DesconectadoHecho(cfg, s, fd);
  }

  lemma RestoEfecto(cfg: Cfg, s: Ks, e: Suceso)
    requires Puede(cfg, s, e) && !DeCpu(e) && !DeMemoria(e) && !e.IoFin? && !e.StdinDatos? && !e.SuspenderInicio? && !e.DesuspenderInicio?
    requires !e.PlanPasa? && !e.CrearInicio? && !e.DesconectarCpu?
    ensures Efecto(cfg, s, e, Despues(cfg, s, e))
  {
    hide Muda, Orden, Formado;
    var t := Despues(cfg, s, e);
    if e.Marca? {
      assert t.procs == Papeles(s, e).procs;
    }
    SinMover(cfg, Papeles(s, e), t, Tabla(s, e).posts, -1);
  }

  /**
   * Every step does what its row says and nothing else: one process moves, to the back of
   * the queue of its new state, or to the front of its ready queue if it was evicted; the
   * queues keep their order otherwise, and nobody else changes but for the mark of a victim.
   */
  lemma Efectos(cfg: Cfg, s: Ks, e: Suceso)
    requires Inv(cfg, s, None, 0) && Puede(cfg, s, e)
    ensures Efecto(cfg, s, e, Despues(cfg, s, e))
  {
    hide Inv, Efecto, Puede, Despues;
    if DeMemoria(e) {
      MemoriaEfecto(cfg, s, e);
    } else if e.MutexUnlock? || (e.MutexLock? && Corre(s, e.pid)) {
      MutexEfecto(cfg, s, e);
    } else if DeCpu(e) {
      if e.MutexCrea? || !Corre(s, e.pid) {
        SinEfecto(cfg, s, e);
      } else {
        SaleEfecto(cfg, s, e);
      }
    } else if e.IoFin? || e.StdinDatos? || e.SuspenderInicio? || e.DesuspenderInicio? {
      EsperaEfecto(cfg, s, e);
    } else if e.PlanPasa? || e.CrearInicio? || e.DesconectarCpu? {
      PlanEfecto(cfg, s, e);
    } else {
      RestoEfecto(cfg, s, e);
    }
  }

  // ---------------------------------------------------------------- the order of the ready queues when priorities change

  /** Whose priorities a mutex step recalculates: the owner the waiter waits for, or who gives the mutex up and who takes it over. */
  function Recalculados(s: Ks, e: Suceso): (Pid, Pid) {
    match e
    case MutexLock(p, nombre) =>
      (match BuscarMutex(s.mutexes, nombre)
        case None => (p, p)
        case Some(i) => var q := s.mutexes[i].owner; if 0 <= q <= INT_MAX then (q, q) else (p, p))
    case MutexUnlock(p, nombre) => (match Heredero(s, p, nombre) case None => (p, p) case Some(q) => (p, q))
    case _ => (0, 0)
  }

  lemma QuitarNuevo(x: seq<Pid>, p: Pid, q: Pid)
    ensures Quitar(Quitar(x + [q], p), q) == Quitar(Quitar(x, p), q)
  {
    QuitarConmuta(x + [q], p, q);
    QuitarConmuta(x, p, q);
    QuitarAlFinal(x, q, q);
    Concat(Quitar(x, q));
  }

  lemma DespertadoOrden(cfg: Cfg, s: Ks, u: Ks, p: Pid, q: Pid)
    requires MismoOrden(s, u, p, q) && Formado(cfg, u) && (q in u.block ==> q in u.procs)
    ensures var t := Despertado(cfg, u, q);
            && MismoOrden(s, t, p, q)
            && (q in u.block ==> q in t.procs && var i := Nivel(cfg, t.procs[q].prioridad); t.ready[i] == u.ready[i] + [q])
  {
    hide VerificarPreemption, Quitar;
    if q in u.block {
      var v := PonerReady(cfg, Sacar(u, q, BLOCK), q, false);
      MarcaUna(cfg, v, u.procs[q].prioridad);
      var i := Nivel(cfg, u.procs[q].prioridad);
      QuitarNuevo(u.ready[i], p, q);
    }
  }

  /** Whoever is woken joins the back of the queue of its priority, and but for those recalculated nobody changes places. */
  lemma OrdenTrasMutex(cfg: Cfg, s: Ks, e: Suceso)
    requires Inv(cfg, s, None, 0) && Puede(cfg, s, e) && Recalcula(s, e)
    ensures var t, (a, b) := Despues(cfg, s, e), Recalculados(s, e); MismoOrden(s, t, a, b)
    ensures e.MutexUnlock? && Heredero(s, e.pid, e.nombre).Some? && Heredero(s, e.pid, e.nombre).value in s.block ==>
      var t, q := Despues(cfg, s, e), Heredero(s, e.pid, e.nombre).value;
      q in t.procs && var l := t.ready[Nivel(cfg, t.procs[q].prioridad)]; l != [] && l[|l| - 1] == q
  {
    hide Inv, Quitar, Heredero, Despertado, Soltando;
    match e
    case MutexLock(p, nombre) => EsperaOrden(cfg, s, p, nombre);
    case MutexUnlock(p, nombre) =>
      SoltandoOrden(cfg, s, p, nombre);
      SoltandoFormado(cfg, s, p, nombre);
      HerederoEs(s, p, nombre);
      var u := Soltando(cfg, s, p, nombre);
      MismasSalvoReady(s, u);
      match Heredero(s, p, nombre)
      case None =>
      case Some(q) =>
        if q in s.block {
          UnaCola(cfg, s, q, BLOCK);
        }
        DespertadoOrden(cfg, s, u, p, q);
  }

  lemma EsperaOrden(cfg: Cfg, s: Ks, p: Pid, nombre: string)
    requires Corre(s, p) && Formado(cfg, s) && Recalcula(s, MutexLock(p, nombre))
    ensures var q := Recalculados(s, MutexLock(p, nombre)).0; MismoOrden(s, Bloqueando(cfg, s, p, nombre), q, q)
  {
    hide Quitar, Recalcular, Poner;
    var l := LockEn(s.mutexes, p, s.procs[p].prioridad, nombre);
    var u := Desmarcar(SacarExec(s, p), p).(mutexes := l.lista);
    var q := l.ownerAElevar;
    var v := Recalcular(cfg, u, q);
    var w := PonerBlock(v, p);
    PonerReadyIgual(v, p);
    if 0 <= q <= INT_MAX {
      RecalcularOrden(cfg, u, q);
    } else {
      NoRecalcula(cfg, u, q);
    }
  }

  lemma PonerReadyIgual(s: Ks, p: Pid)
    ensures PonerBlock(s, p).ready == s.ready
  {
  }
}
