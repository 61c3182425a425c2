/**
 * The Kernel Scheduler as a state: processes, queues, CPUs, semaphores, and the
 * handlers that wait for Kernel Memory. Each primitive below is one helper of the
 * source, as a function of the state.
 */
module KsEstado {
  import opened Basics
  import opened KsMutex

  type Pid = x: int | 0 <= x <= 0x7FFF_FFFF

  datatype Estado = NEW | READY | EXEC | BLOCK | SUSP_BLOCK | SUSP_READY | EXIT

  datatype Proceso = Proceso(estado: Estado, prioridad: int, base: int, fd: int, preemptado: bool)

  datatype CpuEntry = CpuEntry(fd: int, ocupada: bool)

  /** A handler in the middle of a request to Kernel Memory. All but the last two kinds hold their process. */
  datatype Tarea =
    | Creando(pid: Pid)
    | Alloc(pid: Pid)
    | Free(pid: Pid)
    | Suspendiendo(pid: Pid)
    | Desuspendiendo(pid: Pid)
    | Escribiendo(pid: Pid)
    | Leyendo(pid: Pid)
    | Avisando(pid: Pid, debe: bool)   // avisar_km_finalizacion; `debe`: sem_cpu_disponible is posted afterwards

  /** Where a compaction stands. The counts record how many processes were marked and what was left in the semaphore then. */
  datatype Fase =
    | Normal
    | Marcada(pid: Pid, faltan: nat, marcados: nat, sobrantes: nat)
    | FinEnviado(pid: Pid, sobrantes: nat)
    | Respondida

  datatype Cfg = Cfg(cmn: bool, n: nat, preemption: bool)

  datatype Ks = Ks(
    proximo: nat,                // next_pid
    procs: map<Pid, Proceso>,
    ready: seq<seq<Pid>>, exec: seq<Pid>, block: seq<Pid>,
    suspBlock: seq<Pid>, suspReady: seq<Pid>, exit: seq<Pid>,
    mano: multiset<Pid>,
    tareas: seq<Tarea>,
    canal: Option<Tarea>,        // the handler whose request Kernel Memory is serving
    cpus: seq<CpuEntry>,
    mutexes: seq<MutexKs>,
    tokens: nat,                 // sem_cpu_disponible
    plan: bool,                  // the planner has taken a token and not finished its pass
    pedida: Option<Pid>,         // a COMPACTAR has arrived and its thread waits at the planner's gate
    fase: Fase,
    devueltas: nat)              // sem_cpus_devueltas

  // ---------------------------------------------------------------- queues

  /** All ready queues, one after the other. */
  function Listos(ready: seq<seq<Pid>>): seq<Pid> {
    if ready == [] then [] else ready[0] + Listos(ready[1..])
  }

  /** A queue rotated once, without `p`. */
  function Quitar(q: seq<Pid>, p: int): seq<Pid> {
    if q == [] then [] else if q[0] == p then Quitar(q[1..], p) else [q[0]] + Quitar(q[1..], p)
  }

  function Cola(s: Ks, e: Estado): seq<Pid> {
    match e
    case NEW => []
    case READY => Listos(s.ready)
    case EXEC => s.exec
    case BLOCK => s.block
    case SUSP_BLOCK => s.suspBlock
    case SUSP_READY => s.suspReady
    case EXIT => s.exit
  }

  function Veces(q: seq<Pid>, p: Pid): nat {
    if q == [] then 0 else Bit(q[0] == p) + Veces(q[1..], p)
  }

  lemma {:induction false} VecesAppend(x: seq<Pid>, y: seq<Pid>, p: Pid)
    ensures Veces(x + y, p) == Veces(x, p) + Veces(y, p)
  {
    if x == [] {
      assert x + y == y;
    } else {
      assert (x + y)[1..] == x[1..] + y;
      VecesAppend(x[1..], y, p);
    }
  }

  lemma {:induction false} VecesMiembro(q: seq<Pid>, p: Pid)
    ensures p in q <==> Veces(q, p) > 0
  {
    if q != [] {
      VecesMiembro(q[1..], p);
    }
  }

  lemma {:induction false} ListosUpdate(ready: seq<seq<Pid>>, i: nat, q: seq<Pid>, p: Pid)
    requires i < |ready|
    ensures Veces(Listos(ready[i := q]), p) + Veces(ready[i], p) == Veces(Listos(ready), p) + Veces(q, p)
  {
    var t := ready[i := q];
    VecesAppend(t[0], Listos(t[1..]), p);
    VecesAppend(ready[0], Listos(ready[1..]), p);
    if i == 0 {
      assert t[1..] == ready[1..];
    } else {
      assert t[1..] == ready[1..][i - 1 := q];
      ListosUpdate(ready[1..], i - 1, q, p);
    }
  }

  lemma {:induction false} ListosLargo(ready: seq<seq<Pid>>, i: nat, q: seq<Pid>)
    requires i < |ready|
    ensures |Listos(ready[i := q])| + |ready[i]| == |Listos(ready)| + |q|
  {
    if i == 0 {
      assert ready[0 := q][1..] == ready[1..];
    } else {
      assert ready[i := q][1..] == ready[1..][i - 1 := q];
      ListosLargo(ready[1..], i - 1, q);
    }
  }

  lemma {:induction false} ListosMiembro(ready: seq<seq<Pid>>, i: nat, p: Pid)
    requires i < |ready| && p in ready[i]
    ensures p in Listos(ready)
  {
    if i > 0 {
      ListosMiembro(ready[1..], i - 1, p);
    }
  }

  lemma {:induction false} QuitarVeces(q: seq<Pid>, p: Pid, r: Pid)
    ensures Veces(Quitar(q, p), r) == if r == p then 0 else Veces(q, r)
    ensures |Quitar(q, p)| + Veces(q, p) == |q|
  {
    if q != [] {
      QuitarVeces(q[1..], p, r);
      var resto := Quitar(q[1..], p);
      if q[0] != p {
        assert ([q[0]] + resto)[1..] == resto;
      }
    }
  }

  // ---------------------------------------------------------------- CPUs

  /** The first entry with that socket is marked free. */
  function Liberar(cpus: seq<CpuEntry>, fd: int): seq<CpuEntry> {
    if cpus == [] then []
    else if cpus[0].fd == fd then [cpus[0].(ocupada := false)] + cpus[1..]
    else [cpus[0]] + Liberar(cpus[1..], fd)
  }

  function Libres(cpus: seq<CpuEntry>): nat {
    if cpus == [] then 0 else Bit(!cpus[0].ocupada) + Libres(cpus[1..])
  }

  /** The first free CPU. */
  function PrimeraLibre(cpus: seq<CpuEntry>): (r: Option<nat>)
    ensures r.Some? ==> r.value < |cpus| && !cpus[r.value].ocupada && forall k :: 0 <= k < r.value ==> cpus[k].ocupada
    ensures r.None? ==> forall k :: 0 <= k < |cpus| ==> cpus[k].ocupada
  {
    if cpus == [] then None
    else if !cpus[0].ocupada then Some(0)
    else match PrimeraLibre(cpus[1..])
      case Some(k) =>
        assert forall j :: 0 < j < |cpus| ==> cpus[j] == cpus[1..][j - 1];
        Some(k + 1)
      case None =>
        assert forall k :: 0 < k < |cpus| ==> cpus[k] == cpus[1..][k - 1];
        None
  }

  /** The first ready queue that is not empty. */
  function PrimerNivel(ready: seq<seq<Pid>>): (r: Option<nat>)
    ensures r.Some? ==> r.value < |ready| && ready[r.value] != [] && forall k :: 0 <= k < r.value ==> ready[k] == []
    ensures r.None? ==> forall k :: 0 <= k < |ready| ==> ready[k] == []
  {
    if ready == [] then None
    else if ready[0] != [] then Some(0)
    else match PrimerNivel(ready[1..])
      case Some(k) =>
        assert forall j :: 0 < j < |ready| ==> ready[j] == ready[1..][j - 1];
        Some(k + 1)
      case None =>
        assert forall k :: 0 < k < |ready| ==> ready[k] == ready[1..][k - 1];
        None
  }

  // ---------------------------------------------------------------- primitives

  function Nivel(cfg: Cfg, prioridad: int): int {
    if prioridad < 0 || prioridad >= cfg.n then cfg.n - 1 else prioridad
  }

  /** There is at least one ready queue, and as many as configured. */
  predicate Formado(cfg: Cfg, s: Ks) {
    0 < cfg.n == |s.ready|
  }

  predicate Compactando(s: Ks) {
    s.fase != Normal
  }

  function ConEstado(s: Ks, p: Pid, e: Estado): Ks {
    if p in s.procs then s.(procs := s.procs[p := s.procs[p].(estado := e)]) else s
  }

  function Desmarcar(s: Ks, p: Pid): Ks {
    if p in s.procs then s.(procs := s.procs[p := s.procs[p].(preemptado := false)]) else s
  }

  /** sacar_de_exec: the CPU is free again, and a marked process counts as returned. */
  function SacarExec(s: Ks, p: Pid): Ks
    requires p in s.procs
  {
    s.(exec := Quitar(s.exec, p),
       mano := s.mano + multiset{p},
       cpus := Liberar(s.cpus, s.procs[p].fd),
       procs := s.procs[p := s.procs[p].(fd := -1)],
       devueltas := s.devueltas + Bit(Compactando(s) && s.procs[p].preemptado))
  }

  /** sacar_proc_de_exec_para_mem: the CPU stays reserved. */
  function SacarExecMem(s: Ks, p: Pid): Ks
    requires p in s.procs
  {
    s.(exec := Quitar(s.exec, p),
       mano := s.mano + multiset{p},
       procs := s.procs[p := s.procs[p].(preemptado := false)],
       devueltas := s.devueltas + Bit(Compactando(s) && s.procs[p].preemptado))
  }

  /** A process in hand joins the ready queue of its priority, at the back or at the front. */
  function PonerReady(cfg: Cfg, s: Ks, p: Pid, alFrente: bool): Ks
    requires p in s.procs && Formado(cfg, s)
  {
    var i := Nivel(cfg, s.procs[p].prioridad);
    ConEstado(s, p, READY).(
      ready := s.ready[i := if alFrente then [p] + s.ready[i] else s.ready[i] + [p]],
      mano := s.mano - multiset{p},
      tokens := s.tokens + 1)
  }

  /** The running process to evict for one of the given priority: unmarked, worse, and worst among those, first found. */
  function Victima(procs: map<Pid, Proceso>, exec: seq<Pid>, prioridad: int, mejor: Option<Pid>): Option<Pid> {
    if exec == [] then mejor
    else
      var p := exec[0];
      var gana := p in procs && !procs[p].preemptado && procs[p].prioridad > prioridad
        && (mejor.None? || (mejor.value in procs && procs[p].prioridad > procs[mejor.value].prioridad));
      Victima(procs, exec[1..], prioridad, if gana then Some(p) else mejor)
  }

  function VerificarPreemption(cfg: Cfg, s: Ks, prioridad: int): Ks {
    if !cfg.preemption || PrimeraLibre(s.cpus).Some? then s
    else match Victima(s.procs, s.exec, prioridad, None)
      case None => s
      case Some(v) => if v in s.procs then s.(procs := s.procs[v := s.procs[v].(preemptado := true)]) else s
  }

  /** encolar_en_ready. */
  function Encolar(cfg: Cfg, s: Ks, p: Pid): Ks
    requires p in s.procs && Formado(cfg, s)
  {
    VerificarPreemption(cfg, PonerReady(cfg, s, p, false), s.procs[p].prioridad)
  }

  /** A process in hand joins one of the queues that do not concern the planner. */
  function Poner(s: Ks, p: Pid, e: Estado): Ks {
    var t := ConEstado(s, p, e).(mano := s.mano - multiset{p});
    match e
    case BLOCK => t.(block := s.block + [p])
    case SUSP_BLOCK => t.(suspBlock := s.suspBlock + [p])
    case SUSP_READY => t.(suspReady := s.suspReady + [p])
    case EXIT => t.(exit := s.exit + [p])
    case _ => t
  }

  /** mover_a_block. */
  function PonerBlock(s: Ks, p: Pid): Ks {
    Poner(Desmarcar(s, p), p, BLOCK).(tokens := s.tokens + 1)
  }

  /** A process is taken out of one of those queues. */
  function Sacar(s: Ks, p: Pid, e: Estado): Ks {
    var t := s.(mano := s.mano + multiset{p});
    match e
    case BLOCK => t.(block := Quitar(s.block, p))
    case SUSP_BLOCK => t.(suspBlock := Quitar(s.suspBlock, p))
    case SUSP_READY => t.(suspReady := Quitar(s.suspReady, p))
    case _ => t
  }

  /** A new process, in the hands of its creator. */
  function Nacer(s: Ks, p: Pid, prioridad: int): Ks {
    s.(proximo := s.proximo + 1, procs := s.procs[p := Proceso(NEW, prioridad, prioridad, -1, false)], mano := s.mano + multiset{p})
  }

  /** Kernel Memory refused it: the creator frees it. */
  function Morir(s: Ks, p: Pid): Ks {
    s.(procs := s.procs - {p}, mano := s.mano - multiset{p})
  }

  /** The front process of ready queue `i` gets CPU `k`. */
  function Despachar(s: Ks, i: nat, k: nat): Ks
    requires i < |s.ready| && s.ready[i] != [] && s.ready[i][0] in s.procs && k < |s.cpus|
  {
    var p := s.ready[i][0];
    s.(ready := s.ready[i := s.ready[i][1..]],
       exec := s.exec + [p],
       cpus := s.cpus[k := CpuEntry(s.cpus[k].fd, true)],
       procs := s.procs[p := s.procs[p].(estado := EXEC, fd := s.cpus[k].fd)])
  }

  /** redespachar_a_misma_cpu. */
  function Redespachar(s: Ks, p: Pid): Ks {
    s.(exec := s.exec + [p], mano := s.mano - multiset{p})
  }

  /** finalizar_por_error_mem gives the reserved CPU back. */
  function SoltarCpu(s: Ks, p: Pid): Ks
    requires p in s.procs
  {
    s.(cpus := Liberar(s.cpus, s.procs[p].fd), procs := s.procs[p := s.procs[p].(fd := -1)])
  }

  function Abrir(s: Ks, t: Tarea): Ks {
    s.(tareas := s.tareas + [t])
  }

  function QuitarTarea(ts: seq<Tarea>, t: Tarea): seq<Tarea> {
    if ts == [] then [] else if ts[0] == t then ts[1..] else [ts[0]] + QuitarTarea(ts[1..], t)
  }

  /** The reply to a handler's request has arrived: the channel is free and the handler goes on. */
  function Cerrar(s: Ks, t: Tarea): Ks {
    s.(tareas := QuitarTarea(s.tareas, t), canal := None)
  }

  /** EXIT and everything that ends like it: the process is buried and Kernel Memory is told. */
  function Enterrar(s: Ks, p: Pid, debe: bool): Ks {
    Abrir(Poner(s, p, EXIT), Avisando(p, debe))
  }

  // ---------------------------------------------------------------- priorities

  predicate Activo(s: Ks, p: int) {
    p in s.exec || p in Listos(s.ready) || p in s.block || p in s.suspBlock || p in s.suspReady
  }

  function NivelDe(ready: seq<seq<Pid>>, p: Pid): (r: Option<nat>)
    ensures r.Some? ==> r.value < |ready| && p in ready[r.value]
    ensures r.None? ==> forall k :: 0 <= k < |ready| ==> p !in ready[k]
  {
    if ready == [] then None
    else if p in ready[0] then Some(0)
    else match NivelDe(ready[1..], p)
      case Some(k) => Some(k + 1)
      case None =>
        assert forall k :: 0 < k < |ready| ==> ready[k] == ready[1..][k - 1];
        None
  }

  /** A process found in a ready queue goes to the back of queue `nueva`. */
  function MoverNivel(ready: seq<seq<Pid>>, p: Pid, nueva: nat): (r: seq<seq<Pid>>)
    requires nueva < |ready|
    ensures |r| == |ready|
  {
    match NivelDe(ready, p)
    case None => ready
    case Some(i) =>
      var sin := ready[i := Quitar(ready[i], p)];
      sin[nueva := sin[nueva] + [p]]
  }

  /** aplicar_cambio_prioridad: under CMN a ready process also changes queue. */
  function AplicarPrioridad(cfg: Cfg, s: Ks, p: Pid, nueva: int): Ks
    requires p in s.procs
  {
    if s.procs[p].prioridad == nueva then s
    else
      var t := s.(procs := s.procs[p := s.procs[p].(prioridad := nueva)]);
      if !cfg.cmn || nueva < 0 || nueva >= cfg.n || nueva >= |s.ready| then t
      else t.(ready := MoverNivel(s.ready, p, nueva))
  }

  function Efectiva(s: Ks, p: Pid): int
    requires p in s.procs
  {
    Min(s.procs[p].base, Heredada(s.mutexes, p, INT_MAX))
  }

  /** recalcular_prioridad_efectiva(buscar_proceso_activo(p)). */
  function Recalcular(cfg: Cfg, s: Ks, p: int): Ks {
    if 0 <= p <= INT_MAX && Activo(s, p) && p in s.procs then AplicarPrioridad(cfg, s, p, Efectiva(s, p)) else s
  }
}
