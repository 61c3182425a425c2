/** What every helper of the Kernel Scheduler keeps: where each process is, which CPU it has, and that no wakeup is lost. */
module KsInvariantes {
  import opened Basics
  import opened KsMutex
  import opened KsEstado

  // ---------------------------------------------------------------- where each process is

  /** The process a handler holds. */
  function Titular(t: Tarea): Option<Pid> {
    match t
    case Leyendo(_) => None
    case Avisando(_, _) => None
    case _ => Some(t.pid)
  }

  function EnManos(ts: seq<Tarea>, p: Pid): nat {
    if ts == [] then 0 else Bit(Titular(ts[0]) == Some(p)) + EnManos(ts[1..], p)
  }

  function EnColas(s: Ks, p: Pid): nat {
    Veces(Listos(s.ready), p) + Veces(s.exec, p) + Veces(s.block, p) + Veces(s.suspBlock, p) + Veces(s.suspReady, p) + Veces(s.exit, p)
  }

  /** Every process is in exactly one queue or in exactly one hand, and nothing else is. */
  ghost predicate Conserva(s: Ks) {
    forall p: Pid {:trigger EnColas(s, p)} {:trigger p in s.procs} :: EnColas(s, p) + s.mano[p] == Bit(p in s.procs)
  }

  /** The hands are the handlers', plus the process `x` the running handler has just picked up. */
  ghost predicate ManoOk(s: Ks, x: Option<Pid>) {
    forall p: Pid {:trigger s.mano[p]} {:trigger EnManos(s.tareas, p)} :: s.mano[p] == EnManos(s.tareas, p) + Bit(x == Some(p))
  }

  ghost predicate EstadosOk(s: Ks) {
    forall e, p: Pid {:trigger Veces(Cola(s, e), p)} :: Veces(Cola(s, e), p) > 0 ==> p in s.procs && s.procs[p].estado == e
  }

  predicate EstadoDeTarea(t: Tarea, e: Estado) {
    match t
    case Creando(_) => e == NEW
    case Alloc(_) => e == EXEC
    case Free(_) => e == EXEC
    case Suspendiendo(_) => e == BLOCK
    case Desuspendiendo(_) => e == SUSP_READY
    case Escribiendo(_) => e == BLOCK || e == SUSP_READY
    case _ => true
  }

  predicate TareasOk(s: Ks) {
    forall i :: 0 <= i < |s.tareas| && Titular(s.tareas[i]).Some? ==>
      s.tareas[i].pid in s.procs && EstadoDeTarea(s.tareas[i], s.procs[s.tareas[i].pid].estado)
  }

  ghost predicate Lugares(s: Ks, x: Option<Pid>) {
    Conserva(s) && ManoOk(s, x) && EstadosOk(s) && TareasOk(s) && (x.Some? ==> x.value in s.procs)
  }

  // ---------------------------------------------------------------- CPUs

  predicate TieneFd(procs: map<Pid, Proceso>, p: Pid, fd: int) {
    p in procs && procs[p].fd == fd
  }

  predicate CpusDistintas(cpus: seq<CpuEntry>) {
    && (forall i, j :: 0 <= i < |cpus| && 0 <= j < |cpus| && cpus[i].fd == cpus[j].fd ==> i == j)
    && (forall i :: 0 <= i < |cpus| ==> cpus[i].fd >= 0)
  }

  predicate FdsUnicos(procs: map<Pid, Proceso>) {
    && (forall p :: p in procs ==> procs[p].fd >= -1)
    && (forall p, q :: p in procs && q in procs && procs[p].fd >= 0 && procs[p].fd == procs[q].fd ==> p == q)
  }

  predicate Ocupada(cpus: seq<CpuEntry>, fd: int) {
    CpuEntry(fd, true) in cpus
  }

  /** Every process with a socket has a busy CPU ... */
  predicate Atados(procs: map<Pid, Proceso>, cpus: seq<CpuEntry>) {
    forall p :: p in procs && procs[p].fd >= 0 ==> Ocupada(cpus, procs[p].fd)
  }

  /** ... and every busy CPU a process. */
  ghost predicate Usadas(procs: map<Pid, Proceso>, cpus: seq<CpuEntry>) {
    forall fd: int {:trigger Ocupada(cpus, fd)} :: Ocupada(cpus, fd) ==> exists p :: TieneFd(procs, p, fd)
  }

  /** The processes with a socket and the busy CPUs are in one-to-one correspondence. */
  ghost predicate CpusOk(procs: map<Pid, Proceso>, cpus: seq<CpuEntry>) {
    CpusDistintas(cpus) && FdsUnicos(procs) && Atados(procs, cpus) && Usadas(procs, cpus)
  }

  /** Exactly the processes in state EXEC have a CPU; the one in hand may have just lost its own. */
  predicate FdOk(s: Ks, x: Option<Pid>) {
    forall p :: p in s.procs && x != Some(p) ==> (s.procs[p].fd >= 0 <==> s.procs[p].estado == EXEC)
  }

  // ---------------------------------------------------------------- wakeups

  /** sem_posts that handlers still have to make. */
  function Debe(ts: seq<Tarea>): nat {
    if ts == [] then 0 else Bit(ts[0].Avisando? && ts[0].debe) + Debe(ts[1..])
  }

  /**
   * No wakeup is lost: tokens, the planner's pass and the posts still owed cover the free
   * CPUs that have work, not counting the `d` CPUs the running handler has just freed.
   */
  predicate TrabajoOk(s: Ks, d: nat) {
    s.tokens + Bit(s.plan) + Debe(s.tareas) >= Min(Libres(s.cpus) - d, |Listos(s.ready)|)
  }

  // ---------------------------------------------------------------- compaction

  predicate TodosMarcados(s: Ks) {
    forall p :: p in s.exec && p in s.procs ==> s.procs[p].preemptado
  }

  predicate NingunoMarcado(s: Ks) {
    forall p :: p in s.exec && p in s.procs ==> !s.procs[p].preemptado
  }

  /** Marks stay with processes that run, are buried, or are in hand. */
  predicate MarcasOk(s: Ks, x: Option<Pid>) {
    forall p :: p in s.procs && s.procs[p].preemptado ==> p in s.exec || s.procs[p].estado == EXIT || x == Some(p)
  }

  /** The accounts of the handshake: what is in the semaphore and who still runs add up to what is awaited and what was left over. */
  predicate CuentasOk(s: Ks) {
    match s.fase
    case Marcada(_, faltan, marcados, sobrantes) => TodosMarcados(s) && faltan <= marcados && s.devueltas + |s.exec| == faltan + sobrantes
    case FinEnviado(_, sobrantes) => TodosMarcados(s) && s.devueltas + |s.exec| == sobrantes
    case _ => true
  }

  /** Without queue preemption nothing is ever left over. */
  predicate SinSobras(cfg: Cfg, s: Ks) {
    !cfg.preemption ==>
      match s.fase
      case Marcada(_, _, _, sobrantes) => sobrantes == 0
      case FinEnviado(_, sobrantes) => sobrantes == 0
      case _ => s.devueltas == 0 && NingunoMarcado(s)
  }

  /** Whoever asked for the compaction has the only connection to Kernel Memory until it is answered. */
  predicate CanalOk(s: Ks) {
    && (s.canal.Some? ==> s.canal.value in s.tareas)
    && (s.pedida.Some? ==> s.canal == Some(Alloc(s.pedida.value)) && (s.fase.Normal? || s.fase.Respondida?))
    && (s.fase.Marcada? || s.fase.FinEnviado? ==> s.canal == Some(Alloc(s.fase.pid)))
  }

  predicate Compactacion(cfg: Cfg, s: Ks, x: Option<Pid>) {
    MarcasOk(s, x) && CuentasOk(s) && SinSobras(cfg, s)
  }

  // ---------------------------------------------------------------- priorities

  /** Under CMN priorities name queues, and every ready process is in the queue of its priority. */
  predicate NivelesOk(cfg: Cfg, s: Ks) {
    && Formado(cfg, s) && (!cfg.cmn ==> cfg.n == 1)
    && (forall p :: p in s.procs ==> p < s.proximo)
    && (cfg.cmn ==> forall p :: p in s.procs ==> 0 <= s.procs[p].base < cfg.n && 0 <= s.procs[p].prioridad < cfg.n)
    && (cfg.cmn ==> forall i, j :: 0 <= i < |s.mutexes| && 0 <= j < |s.mutexes[i].cola| ==> 0 <= s.mutexes[i].cola[j].prioridad)
    && (cfg.cmn ==> forall i, k :: 0 <= i < |s.ready| && 0 <= k < |s.ready[i]| ==>
          s.ready[i][k] in s.procs && s.procs[s.ready[i][k]].prioridad == i)
  }

  ghost predicate Ligadura(s: Ks, x: Option<Pid>) {
    CpusOk(s.procs, s.cpus) && FdOk(s, x)
  }

  ghost predicate Inv(cfg: Cfg, s: Ks, x: Option<Pid>, d: nat) {
    Lugares(s, x) && Ligadura(s, x) && TrabajoOk(s, d) && CanalOk(s) && Compactacion(cfg, s, x) && NivelesOk(cfg, s)
  }

  // ---------------------------------------------------------------- places

  /** A process in hand is in no queue, and changing what is known of it disturbs no other. */
  lemma EnMano(s: Ks, p: Pid)
    requires Conserva(s) && s.mano[p] > 0
    ensures p in s.procs && s.mano[p] == 1 && EnColas(s, p) == 0
    ensures forall e :: Veces(Cola(s, e), p) == 0
  {
    assert EnColas(s, p) + s.mano[p] == Bit(p in s.procs);
  }

  lemma EnCola(s: Ks, p: Pid, e: Estado)
    requires Conserva(s) && EstadosOk(s) && p in Cola(s, e)
    ensures p in s.procs && s.procs[p].estado == e && Veces(Cola(s, e), p) == 1 && s.mano[p] == 0
    ensures forall f :: f != e ==> Veces(Cola(s, f), p) == 0
  {
    VecesMiembro(Cola(s, e), p);
    assert EnColas(s, p) + s.mano[p] == Bit(p in s.procs);
  }

  lemma VecesUno(p: Pid, r: Pid)
    ensures Veces([p], r) == Bit(p == r)
  {
    assert [p][1..] == [];
  }

  lemma VecesAlFinal(q: seq<Pid>, p: Pid, r: Pid)
    ensures Veces(q + [p], r) == Veces(q, r) + Bit(p == r)
  {
    VecesAppend(q, [p], r);
    VecesUno(p, r);
  }

  lemma VecesAlFrente(q: seq<Pid>, p: Pid, r: Pid)
    ensures Veces([p] + q, r) == Veces(q, r) + Bit(p == r)
  {
    VecesAppend([p], q, r);
    VecesUno(p, r);
  }

  lemma {:induction false} EnManosMiembro(ts: seq<Tarea>, i: nat, p: Pid)
    requires i < |ts| && Titular(ts[i]) == Some(p)
    ensures EnManos(ts, p) > 0
  {
    if i > 0 {
      EnManosMiembro(ts[1..], i - 1, p);
    }
  }

  lemma {:induction false} EnManosAppend(xs: seq<Tarea>, t: Tarea, p: Pid)
    ensures EnManos(xs + [t], p) == EnManos(xs, p) + Bit(Titular(t) == Some(p))
    ensures Debe(xs + [t]) == Debe(xs) + Bit(t.Avisando? && t.debe)
  {
    if xs == [] {
      assert ([] + [t])[1..] == [];
    } else {
      assert (xs + [t])[1..] == xs[1..] + [t];
      EnManosAppend(xs[1..], t, p);
    }
  }

  lemma {:induction false} QuitarTareaCuenta(ts: seq<Tarea>, t: Tarea, p: Pid)
    requires t in ts
    ensures EnManos(QuitarTarea(ts, t), p) + Bit(Titular(t) == Some(p)) == EnManos(ts, p)
    ensures Debe(QuitarTarea(ts, t)) + Bit(t.Avisando? && t.debe) == Debe(ts)
    ensures forall u :: u in QuitarTarea(ts, t) ==> u in ts
  {
    if ts[0] != t {
      QuitarTareaCuenta(ts[1..], t, p);
      var resto := QuitarTarea(ts[1..], t);
      assert ([ts[0]] + resto)[1..] == resto;
    }
  }

  predicate MismosEstados(s: Ks, t: Ks, p: Option<Pid>) {
    && t.procs.Keys == s.procs.Keys
    && forall r :: r in s.procs && p != Some(r) ==> t.procs[r].estado == s.procs[r].estado
  }

  /** `p` has joined the queue of state `e`, and no queue has changed otherwise. */
  ghost predicate ColaMas(s: Ks, t: Ks, e: Estado, p: Pid) {
    forall f, r: Pid {:trigger Veces(Cola(t, f), r)} :: Veces(Cola(t, f), r) == Veces(Cola(s, f), r) + Bit(f == e && r == p)
  }

  /** All queues hold the same processes. */
  ghost predicate MismasColas(s: Ks, t: Ks) {
    forall f, r: Pid {:trigger Veces(Cola(t, f), r)} :: Veces(Cola(t, f), r) == Veces(Cola(s, f), r)
  }

  lemma ColasSuman(s: Ks, p: Pid)
    ensures EnColas(s, p) == Veces(Cola(s, READY), p) + Veces(Cola(s, EXEC), p) + Veces(Cola(s, BLOCK), p)
                           + Veces(Cola(s, SUSP_BLOCK), p) + Veces(Cola(s, SUSP_READY), p) + Veces(Cola(s, EXIT), p)
  {
  }

  lemma TareasSiguen(s: Ks, t: Ks, p: Option<Pid>)
    requires TareasOk(s) && t.tareas == s.tareas && MismosEstados(s, t, p) && (p.Some? ==> EnManos(s.tareas, p.value) == 0)
    ensures TareasOk(t)
  {
    forall i | 0 <= i < |t.tareas| && Titular(t.tareas[i]).Some?
      ensures t.tareas[i].pid in t.procs && EstadoDeTarea(t.tareas[i], t.procs[t.tareas[i].pid].estado)
    {
      if p == Some(t.tareas[i].pid) {
        EnManosMiembro(s.tareas, i, p.value);
      }
    }
  }

  lemma SinManos(s: Ks, x: Option<Pid>, p: Pid)
    requires ManoOk(s, x) && Conserva(s) && (x == Some(p) || exists e :: Veces(Cola(s, e), p) > 0)
    ensures EnManos(s.tareas, p) == 0
  {
    assert s.mano[p] == EnManos(s.tareas, p) + Bit(x == Some(p));
    assert EnColas(s, p) + s.mano[p] == Bit(p in s.procs);
    ColasSuman(s, p);
  }

  /** A process goes from a queue into the hand. */
  lemma Sale(s: Ks, t: Ks, p: Pid, e: Estado)
    requires Lugares(s, None) && p in Cola(s, e) && ColaMas(t, s, e, p)
    requires t.tareas == s.tareas && t.mano == s.mano + multiset{p} && MismosEstados(s, t, None)
    ensures Lugares(t, Some(p))
  {
    hide Conserva, ManoOk, EstadosOk, TareasOk, ColaMas;
    EnCola(s, p, e);
    SinManos(s, None, p);
    SaleCuentas(s, t, p, e);
    TareasSiguen(s, t, None);
    SaleEstados(s, t, p, e);
  }

  lemma SaleEstados(s: Ks, t: Ks, p: Pid, e: Estado)
    requires EstadosOk(s) && ColaMas(t, s, e, p) && MismosEstados(s, t, None)
    ensures EstadosOk(t)
  {
    forall f, r: Pid | Veces(Cola(t, f), r) > 0
      ensures r in t.procs && t.procs[r].estado == f
    {
      assert Veces(Cola(s, f), r) == Veces(Cola(t, f), r) + Bit(f == e && r == p);
    }
  }

  lemma SaleCuentas(s: Ks, t: Ks, p: Pid, e: Estado)
    requires Conserva(s) && ManoOk(s, None) && ColaMas(t, s, e, p) && e != NEW
    requires t.tareas == s.tareas && t.mano == s.mano + multiset{p} && t.procs.Keys == s.procs.Keys
    ensures Conserva(t) && ManoOk(t, Some(p))
  {
    hide EnColas, ColaMas, EnManos;
    forall r: Pid
      ensures EnColas(t, r) + t.mano[r] == Bit(r in t.procs)
      ensures t.mano[r] == EnManos(t.tareas, r) + Bit(p == r)
    {
      assert EnColas(s, r) + s.mano[r] == Bit(r in s.procs);
      assert s.mano[r] == EnManos(s.tareas, r) + 0;
      EnColasMas(t, s, e, p, r);
    }
  }

  /** A process goes from the hand into the queue of its new state. */
  lemma Entra(s: Ks, t: Ks, p: Pid, e: Estado)
    requires Lugares(s, Some(p)) && ColaMas(s, t, e, p) && e != NEW
    requires t.tareas == s.tareas && t.mano == s.mano - multiset{p} && MismosEstados(s, t, Some(p)) && t.procs[p].estado == e
    ensures Lugares(t, None)
  {
    SinManos(s, Some(p), p);
    EntraCuentas(s, t, p, e);
    TareasSiguen(s, t, Some(p));
    assert s.mano[p] == EnManos(s.tareas, p) + 1;
    EnMano(s, p);
    forall f, r: Pid | Veces(Cola(t, f), r) > 0
      ensures r in t.procs && t.procs[r].estado == f
    {
      assert Veces(Cola(t, f), r) == Veces(Cola(s, f), r) + Bit(f == e && r == p);
    }
  }

  lemma EnColasMas(s: Ks, t: Ks, e: Estado, p: Pid, r: Pid)
    requires ColaMas(s, t, e, p) && e != NEW
    ensures EnColas(t, r) == EnColas(s, r) + Bit(r == p)
  {
    hide Cola, EnColas;
    ColasSuman(s, r);
    ColasSuman(t, r);
    assert forall f :: Veces(Cola(t, f), r) == Veces(Cola(s, f), r) + Bit(f == e && r == p);
  }

  lemma EntraCuentas(s: Ks, t: Ks, p: Pid, e: Estado)
    requires Conserva(s) && ManoOk(s, Some(p)) && ColaMas(s, t, e, p) && e != NEW
    requires t.tareas == s.tareas && t.mano == s.mano - multiset{p} && t.procs.Keys == s.procs.Keys
    ensures Conserva(t) && ManoOk(t, None)
  {
    hide EnColas, ColaMas, EnManos;
    forall r: Pid
      ensures EnColas(t, r) + t.mano[r] == Bit(r in t.procs)
      ensures t.mano[r] == EnManos(t.tareas, r) + 0
    {
      assert EnColas(s, r) + s.mano[r] == Bit(r in s.procs);
      assert s.mano[r] == EnManos(s.tareas, r) + Bit(p == r);
      EnColasMas(s, t, e, p, r);
    }
  }

  /** Changes that leave queues, hands and states alone. */
  lemma Quieto(s: Ks, t: Ks, x: Option<Pid>)
    requires Lugares(s, x) && MismasColas(s, t)
    requires t.tareas == s.tareas && t.mano == s.mano && MismosEstados(s, t, x)
    ensures Lugares(t, x)
  {
    forall r: Pid
      ensures EnColas(t, r) + t.mano[r] == Bit(r in t.procs)
    {
      assert EnColas(s, r) + s.mano[r] == Bit(r in s.procs);
      ColasSuman(s, r);
      ColasSuman(t, r);
    }
    if x.Some? {
      SinManos(s, x, x.value);
      assert s.mano[x.value] == EnManos(s.tareas, x.value) + 1;
      EnMano(s, x.value);
    }
    TareasSiguen(s, t, x);
    forall f, r: Pid | Veces(Cola(t, f), r) > 0
      ensures r in t.procs && t.procs[r].estado == f
    {
      assert Veces(Cola(t, f), r) == Veces(Cola(s, f), r);
    }
  }

  lemma QuitarDeCola(q: seq<Pid>, p: Pid, r: Pid)
    requires Veces(q, p) == 1
    ensures Veces(Quitar(q, p), r) + Bit(r == p) == Veces(q, r)
    ensures |Quitar(q, p)| == |q| - 1
  {
    QuitarVeces(q, p, r);
  }

  // ---------------------------------------------------------------- places, helper by helper

  lemma SacarExecLugares(s: Ks, p: Pid)
    requires Lugares(s, None) && p in s.exec
    ensures p in s.procs && s.procs[p].estado == EXEC && |Quitar(s.exec, p)| == |s.exec| - 1
    ensures Lugares(SacarExec(s, p), Some(p)) && Lugares(SacarExecMem(s, p), Some(p))
  {
    hide ManoOk, TareasOk, Veces, Listos, ColaMas;
    EnCola(s, p, EXEC);
    QuitarDeCola(s.exec, p, p);
    SacarExecColas(s, p, SacarExec(s, p));
    SacarExecColas(s, p, SacarExecMem(s, p));
    Sale(s, SacarExec(s, p), p, EXEC);
    Sale(s, SacarExecMem(s, p), p, EXEC);
  }

  lemma SacarExecColas(s: Ks, p: Pid, t: Ks)
    requires Veces(s.exec, p) == 1 && t.exec == Quitar(s.exec, p)
    requires t.ready == s.ready && t.block == s.block && t.suspBlock == s.suspBlock && t.suspReady == s.suspReady && t.exit == s.exit
    ensures ColaMas(t, s, EXEC, p)
  {
    forall f, r: Pid
      ensures Veces(Cola(s, f), r) == Veces(Cola(t, f), r) + Bit(f == EXEC && r == p)
    {
      QuitarDeCola(s.exec, p, r);
    }
  }

  lemma SacarLugares(s: Ks, p: Pid, e: Estado)
    requires Lugares(s, None) && p in Cola(s, e) && (e == BLOCK || e == SUSP_BLOCK || e == SUSP_READY)
    ensures p in s.procs && s.procs[p].estado == e && Lugares(Sacar(s, p, e), Some(p))
  {
    EnCola(s, p, e);
    SacarColas(s, p, e);
    Sale(s, Sacar(s, p, e), p, e);
  }

  lemma SacarColas(s: Ks, p: Pid, e: Estado)
    requires Veces(Cola(s, e), p) == 1 && (e == BLOCK || e == SUSP_BLOCK || e == SUSP_READY)
    ensures ColaMas(Sacar(s, p, e), s, e, p)
  {
    forall f, r: Pid
      ensures Veces(Cola(s, f), r) == Veces(Cola(Sacar(s, p, e), f), r) + Bit(f == e && r == p)
    {
      QuitarDeCola(Cola(s, e), p, r);
    }
  }

  lemma PonerLugares(s: Ks, p: Pid, e: Estado)
    requires Lugares(s, Some(p)) && (e == BLOCK || e == SUSP_BLOCK || e == SUSP_READY || e == EXIT)
    ensures Lugares(Poner(s, p, e), None)
  {
    PonerColas(s, p, e);
    Entra(s, Poner(s, p, e), p, e);
  }

  lemma PonerColas(s: Ks, p: Pid, e: Estado)
    requires e == BLOCK || e == SUSP_BLOCK || e == SUSP_READY || e == EXIT
    ensures ColaMas(s, Poner(s, p, e), e, p)
  {
    forall f, r: Pid
      ensures Veces(Cola(Poner(s, p, e), f), r) == Veces(Cola(s, f), r) + Bit(f == e && r == p)
    {
      VecesAlFinal(Cola(s, e), p, r);
    }
  }

  /** Semaphores, CPUs and the compaction's bookkeeping have no say in where a process is. */
  lemma OtrosCampos(s: Ks, t: Ks, x: Option<Pid>)
    requires Lugares(s, x) && MismosEstados(s, t, x)
    requires t == s.(procs := t.procs, cpus := t.cpus, canal := t.canal, mutexes := t.mutexes, tokens := t.tokens,
                     plan := t.plan, pedida := t.pedida, fase := t.fase, devueltas := t.devueltas)
    ensures Lugares(t, x)
  {
    forall f, r: Pid
      ensures Veces(Cola(t, f), r) == Veces(Cola(s, f), r)
    {
      assert Cola(t, f) == Cola(s, f);
    }
    Quieto(s, t, x);
  }

  lemma PonerBlockLugares(s: Ks, p: Pid)
    requires Lugares(s, Some(p))
    ensures Lugares(PonerBlock(s, p), None)
  {
    var t := Desmarcar(s, p);
    OtrosCampos(s, t, Some(p));
    PonerLugares(t, p, BLOCK);
    OtrosCampos(Poner(t, p, BLOCK), PonerBlock(s, p), None);
  }

  predicate NivelValido(cfg: Cfg, s: Ks, p: Pid) {
    p in s.procs && Formado(cfg, s)
  }

  lemma PonerReadyColas(cfg: Cfg, s: Ks, p: Pid, alFrente: bool)
    requires NivelValido(cfg, s, p)
    ensures ColaMas(s, PonerReady(cfg, s, p, alFrente), READY, p)
    ensures |Listos(PonerReady(cfg, s, p, alFrente).ready)| == |Listos(s.ready)| + 1
  {
    var t := PonerReady(cfg, s, p, alFrente);
    var i := Nivel(cfg, s.procs[p].prioridad);
    ListosLargo(s.ready, i, t.ready[i]);
    forall f, r: Pid
      ensures Veces(Cola(t, f), r) == Veces(Cola(s, f), r) + Bit(f == READY && r == p)
    {
      ListosUpdate(s.ready, i, t.ready[i], r);
      VecesAlFinal(s.ready[i], p, r);
      VecesAlFrente(s.ready[i], p, r);
    }
  }

  lemma PonerReadyLugares(cfg: Cfg, s: Ks, p: Pid, alFrente: bool)
    requires Lugares(s, Some(p)) && NivelValido(cfg, s, p)
    ensures Lugares(PonerReady(cfg, s, p, alFrente), None)
  {
    PonerReadyColas(cfg, s, p, alFrente);
    Entra(s, PonerReady(cfg, s, p, alFrente), p, READY);
  }

  lemma MismosLugares(s: Ks, t: Ks)
    requires Conserva(s) && EstadosOk(s) && t == s.(tareas := t.tareas, canal := t.canal)
    ensures Conserva(t) && EstadosOk(t)
  {
    forall r: Pid
      ensures EnColas(t, r) + t.mano[r] == Bit(r in t.procs)
    {
      assert EnColas(s, r) + s.mano[r] == Bit(r in s.procs);
    }
    forall f, r: Pid | Veces(Cola(t, f), r) > 0
      ensures r in t.procs && t.procs[r].estado == f
    {
      assert Cola(t, f) == Cola(s, f);
    }
  }

  /** Handing the process to a handler, or opening one that holds none. */
  lemma AbrirLugares(s: Ks, x: Option<Pid>, t: Tarea)
    requires Lugares(s, x)
    requires Titular(t) == x || Titular(t) == None
    requires Titular(t).Some? ==> EstadoDeTarea(t, s.procs[t.pid].estado)
    ensures Lugares(Abrir(s, t), if Titular(t) == x then None else x)
  {
    var u := Abrir(s, t);
    var y := if Titular(t) == x then None else x;
    MismosLugares(s, u);
    forall r: Pid
      ensures u.mano[r] == EnManos(u.tareas, r) + Bit(y == Some(r))
    {
      EnManosAppend(s.tareas, t, r);
      assert s.mano[r] == EnManos(s.tareas, r) + Bit(x == Some(r));
    }
  }

  /** The handler goes on, with its process in hand if it has one. */
  lemma CerrarLugares(s: Ks, t: Tarea)
    requires Lugares(s, None) && t in s.tareas
    ensures Lugares(Cerrar(s, t), Titular(t))
    ensures Titular(t).Some? ==> EstadoDeTarea(t, s.procs[t.pid].estado)
  {
    var u := Cerrar(s, t);
    MismosLugares(s, u);
    forall r: Pid
      ensures u.mano[r] == EnManos(u.tareas, r) + Bit(Titular(t) == Some(r))
    {
      QuitarTareaCuenta(s.tareas, t, r);
      assert s.mano[r] == EnManos(s.tareas, r) + 0;
    }
    forall i | 0 <= i < |u.tareas| && Titular(u.tareas[i]).Some?
      ensures u.tareas[i].pid in u.procs && EstadoDeTarea(u.tareas[i], u.procs[u.tareas[i].pid].estado)
    {
      QuitarTareaCuenta(s.tareas, t, 0);
      assert u.tareas[i] in s.tareas;
    }
    var i :| 0 <= i < |s.tareas| && s.tareas[i] == t;
  }

  lemma NacerCuentas(s: Ks, p: Pid, prioridad: int)
    requires Conserva(s) && ManoOk(s, None) && p !in s.procs
    ensures Conserva(Nacer(s, p, prioridad)) && ManoOk(Nacer(s, p, prioridad), Some(p))
  {
    var t := Nacer(s, p, prioridad);
    forall r: Pid
      ensures EnColas(t, r) + t.mano[r] == Bit(r in t.procs)
      ensures t.mano[r] == EnManos(t.tareas, r) + Bit(p == r)
    {
      assert EnColas(s, r) + s.mano[r] == Bit(r in s.procs);
      assert s.mano[r] == EnManos(s.tareas, r) + 0;
    }
  }

  lemma NacerLugares(s: Ks, p: Pid, prioridad: int)
    requires Lugares(s, None) && p !in s.procs
    ensures Lugares(Nacer(s, p, prioridad), Some(p))
  {
    var t := Nacer(s, p, prioridad);
    NacerCuentas(s, p, prioridad);
    forall f, r: Pid | Veces(Cola(t, f), r) > 0
      ensures r in t.procs && t.procs[r].estado == f
    {
      assert Cola(t, f) == Cola(s, f);
    }
  }

  lemma MorirCuentas(s: Ks, p: Pid)
    requires Conserva(s) && ManoOk(s, Some(p)) && p in s.procs
    ensures Conserva(Morir(s, p)) && ManoOk(Morir(s, p), None)
  {
    var t := Morir(s, p);
    forall r: Pid
      ensures EnColas(t, r) + t.mano[r] == Bit(r in t.procs)
      ensures t.mano[r] == EnManos(t.tareas, r) + 0
    {
      assert EnColas(s, r) + s.mano[r] == Bit(r in s.procs);
      assert s.mano[r] == EnManos(s.tareas, r) + Bit(p == r);
    }
  }

  lemma MorirLugares(s: Ks, p: Pid)
    requires Lugares(s, Some(p))
    ensures Lugares(Morir(s, p), None)
  {
    hide Conserva, ManoOk, EstadosOk, TareasOk;
    MorirCuentas(s, p);
    SinManos(s, Some(p), p);
    MorirEstados(s, p);
    MorirTareas(s, p);
  }

  lemma MorirEstados(s: Ks, p: Pid)
    requires Conserva(s) && ManoOk(s, Some(p)) && EstadosOk(s)
    ensures EstadosOk(Morir(s, p))
  {
    var t := Morir(s, p);
    assert s.mano[p] == EnManos(s.tareas, p) + 1;
    EnMano(s, p);
    forall f, r: Pid | Veces(Cola(t, f), r) > 0
      ensures r in t.procs && t.procs[r].estado == f
    {
      assert Cola(t, f) == Cola(s, f);
    }
  }

  lemma MorirTareas(s: Ks, p: Pid)
    requires TareasOk(s) && EnManos(s.tareas, p) == 0
    ensures TareasOk(Morir(s, p))
  {
    var t := Morir(s, p);
    forall i | 0 <= i < |t.tareas| && Titular(t.tareas[i]).Some?
      ensures t.tareas[i].pid in t.procs && EstadoDeTarea(t.tareas[i], t.procs[t.tareas[i].pid].estado)
    {
      if t.tareas[i].pid == p {
        EnManosMiembro(s.tareas, i, p);
      }
    }
  }

  lemma RedespacharLugares(s: Ks, p: Pid)
    requires Lugares(s, Some(p)) && s.procs[p].estado == EXEC
    ensures Lugares(Redespachar(s, p), None)
  {
    var t := Redespachar(s, p);
    forall f, r: Pid
      ensures Veces(Cola(t, f), r) == Veces(Cola(s, f), r) + Bit(f == EXEC && r == p)
    {
      VecesAlFinal(s.exec, p, r);
    }
    Entra(s, t, p, EXEC);
  }

  /** The planner's pass up to the choice of a process. */
  function SacarReady(s: Ks, i: nat): Ks
    requires i < |s.ready| && s.ready[i] != []
  {
    s.(ready := s.ready[i := s.ready[i][1..]], mano := s.mano + multiset{s.ready[i][0]})
  }

  lemma SacarReadyColas(s: Ks, i: nat)
    requires i < |s.ready| && s.ready[i] != []
    ensures ColaMas(SacarReady(s, i), s, READY, s.ready[i][0]) && s.ready[i][0] in Listos(s.ready)
    ensures |Listos(SacarReady(s, i).ready)| == |Listos(s.ready)| - 1
  {
    var p := s.ready[i][0];
    ListosMiembro(s.ready, i, p);
    ListosLargo(s.ready, i, s.ready[i][1..]);
    assert s.ready[i] == [p] + s.ready[i][1..];
    forall f, r: Pid
      ensures Veces(Cola(s, f), r) == Veces(Cola(SacarReady(s, i), f), r) + Bit(f == READY && r == p)
    {
      ListosUpdate(s.ready, i, s.ready[i][1..], r);
      VecesAlFrente(s.ready[i][1..], p, r);
    }
  }

  lemma DespacharLugares(s: Ks, i: nat, k: nat)
    requires Lugares(s, None) && i < |s.ready| && s.ready[i] != [] && k < |s.cpus|
    ensures s.ready[i][0] in s.procs && s.procs[s.ready[i][0]].estado == READY && Lugares(Despachar(s, i, k), None)
  {
    hide Conserva, ManoOk, EstadosOk, TareasOk, Veces, Listos;
    var p := s.ready[i][0];
    SacarReadyColas(s, i);
    EnCola(s, p, READY);
    var m := SacarReady(s, i);
    Sale(s, m, p, READY);
    var t := Despachar(s, i, k);
    forall f, r: Pid
      ensures Veces(Cola(t, f), r) == Veces(Cola(m, f), r) + Bit(f == EXEC && r == p)
    {
      VecesAlFinal(s.exec, p, r);
    }
    assert t.mano == m.mano - multiset{p};
    Entra(m, t, p, EXEC);
  }

  lemma VerificarPreemptionLugares(cfg: Cfg, s: Ks, x: Option<Pid>, prioridad: int)
    requires Lugares(s, x)
    ensures Lugares(VerificarPreemption(cfg, s, prioridad), x)
  {
    OtrosCampos(s, VerificarPreemption(cfg, s, prioridad), x);
  }

  /** Changing a priority may move the process between ready queues, never out of them. */
  lemma MoverNivelVeces(ready: seq<seq<Pid>>, p: Pid, nueva: nat, r: Pid)
    requires nueva < |ready| && Veces(Listos(ready), p) <= 1
    ensures Veces(Listos(MoverNivel(ready, p, nueva)), r) == Veces(Listos(ready), r)
    ensures |Listos(MoverNivel(ready, p, nueva))| == |Listos(ready)|
  {
    var b := NivelDe(ready, p);
    if b.Some? {
      var i := b.value;
      var sin := ready[i := Quitar(ready[i], p)];
      NivelUnaVez(ready, i, p);
      QuitarDeCola(ready[i], p, r);
      ListosLargo(ready, i, sin[i]);
      ListosLargo(sin, nueva, sin[nueva] + [p]);
      ListosUpdate(ready, i, sin[i], r);
      ListosUpdate(sin, nueva, sin[nueva] + [p], r);
      VecesAlFinal(sin[nueva], p, r);
    }
  }

  lemma ColasPorListos(s: Ks, t: Ks)
    requires t.exec == s.exec && t.block == s.block && t.suspBlock == s.suspBlock && t.suspReady == s.suspReady && t.exit == s.exit
    requires forall r: Pid :: Veces(Listos(t.ready), r) == Veces(Listos(s.ready), r)
    ensures MismasColas(s, t)
  {
  }

  lemma AplicarPrioridadColas(cfg: Cfg, s: Ks, p: Pid, nueva: int)
    requires p in s.procs && Veces(Listos(s.ready), p) <= 1
    ensures MismasColas(s, AplicarPrioridad(cfg, s, p, nueva))
    ensures |Listos(AplicarPrioridad(cfg, s, p, nueva).ready)| == |Listos(s.ready)|
  {
    var t := AplicarPrioridad(cfg, s, p, nueva);
    if cfg.cmn && 0 <= nueva < cfg.n && nueva < |s.ready| && s.procs[p].prioridad != nueva {
      MoverNivelVeces(s.ready, p, nueva, p);
      forall r: Pid
        ensures Veces(Listos(t.ready), r) == Veces(Listos(s.ready), r)
      {
        MoverNivelVeces(s.ready, p, nueva, r);
      }
    }
    ColasPorListos(s, t);
  }

  lemma {:induction false} NivelUnaVez(ready: seq<seq<Pid>>, i: nat, p: Pid)
    requires i < |ready| && p in ready[i] && Veces(Listos(ready), p) <= 1
    ensures Veces(ready[i], p) == 1
  {
    VecesAppend(ready[0], Listos(ready[1..]), p);
    if i == 0 {
      VecesMiembro(ready[0], p);
    } else {
      NivelUnaVez(ready[1..], i - 1, p);
    }
  }

  lemma RecalcularLugares(cfg: Cfg, s: Ks, x: Option<Pid>, p: int)
    requires Lugares(s, x)
    ensures Lugares(Recalcular(cfg, s, p), x)
    ensures |Listos(Recalcular(cfg, s, p).ready)| == |Listos(s.ready)|
  {
    if Recalcular(cfg, s, p) != s {
      assert EnColas(s, p) + s.mano[p] == Bit(p in s.procs);
      AplicarPrioridadColas(cfg, s, p, Efectiva(s, p));
      Quieto(s, Recalcular(cfg, s, p), x);
    }
  }
}
