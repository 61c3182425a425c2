/** Every helper of the Kernel Scheduler keeps the whole invariant. */
module KsHandlers {
  import opened Basics
  import opened KsMutex
  import opened KsEstado
  import opened KsInvariantes

  // ---------------------------------------------------------------- CPUs

  lemma {:induction false} LiberarEn(cpus: seq<CpuEntry>, i: nat)
    requires i < |cpus| && forall a, b :: 0 <= a < |cpus| && 0 <= b < |cpus| && cpus[a].fd == cpus[b].fd ==> a == b
    ensures Liberar(cpus, cpus[i].fd) == cpus[i := CpuEntry(cpus[i].fd, false)]
  {
    if i > 0 {
      assert cpus[0].fd != cpus[i].fd;
      LiberarEn(cpus[1..], i - 1);
    }
  }

  lemma {:induction false} LibresCambio(cpus: seq<CpuEntry>, i: nat, c: CpuEntry)
    requires i < |cpus|
    ensures Libres(cpus[i := c]) + Bit(!cpus[i].ocupada) == Libres(cpus) + Bit(!c.ocupada)
  {
    if i == 0 {
      assert cpus[0 := c][1..] == cpus[1..];
    } else {
      assert cpus[i := c][1..] == cpus[1..][i - 1 := c];
      LibresCambio(cpus[1..], i - 1, c);
    }
  }

  lemma {:induction false} LibresAppend(cpus: seq<CpuEntry>, c: CpuEntry)
    ensures Libres(cpus + [c]) == Libres(cpus) + Bit(!c.ocupada)
  {
    if cpus == [] {
      assert ([] + [c])[1..] == [];
    } else {
      assert (cpus + [c])[1..] == cpus[1..] + [c];
      LibresAppend(cpus[1..], c);
    }
  }

  /** Giving up a CPU. */
  lemma Atado(procs: map<Pid, Proceso>, cpus: seq<CpuEntry>, p: Pid)
    requires Atados(procs, cpus) && p in procs && procs[p].fd >= 0
    ensures Ocupada(cpus, procs[p].fd)
  {
  }

  lemma SoltarCpus(procs: map<Pid, Proceso>, cpus: seq<CpuEntry>, p: Pid)
    requires CpusOk(procs, cpus) && p in procs && procs[p].fd >= 0
    ensures CpusOk(procs[p := procs[p].(fd := -1)], Liberar(cpus, procs[p].fd))
    ensures Libres(Liberar(cpus, procs[p].fd)) == Libres(cpus) + 1
  {
    hide Atados, Usadas, Libres, Liberar;
    Atado(procs, cpus, p);
    var i :| 0 <= i < |cpus| && cpus[i] == CpuEntry(procs[p].fd, true);
    LiberarEn(cpus, i);
    LibresCambio(cpus, i, CpuEntry(cpus[i].fd, false));
    SoltarAtados(procs, cpus, p, i);
    SoltarUsadas(procs, cpus, p, i);
  }

  lemma SoltarAtados(procs: map<Pid, Proceso>, cpus: seq<CpuEntry>, p: Pid, i: nat)
    requires FdsUnicos(procs) && Atados(procs, cpus) && p in procs && i < |cpus| && cpus[i] == CpuEntry(procs[p].fd, true)
    ensures Atados(procs[p := procs[p].(fd := -1)], cpus[i := CpuEntry(cpus[i].fd, false)])
  {
    var procs2, cpus2 := procs[p := procs[p].(fd := -1)], cpus[i := CpuEntry(cpus[i].fd, false)];
    forall q | q in procs2 && procs2[q].fd >= 0
      ensures Ocupada(cpus2, procs2[q].fd)
    {
      assert Ocupada(cpus, procs[q].fd);
      var j :| 0 <= j < |cpus| && cpus[j] == CpuEntry(procs[q].fd, true);
      assert cpus2[j] == cpus[j];
    }
  }

  lemma SoltarUsadas(procs: map<Pid, Proceso>, cpus: seq<CpuEntry>, p: Pid, i: nat)
    requires CpusDistintas(cpus) && Usadas(procs, cpus) && p in procs && i < |cpus| && cpus[i] == CpuEntry(procs[p].fd, true)
    ensures Usadas(procs[p := procs[p].(fd := -1)], cpus[i := CpuEntry(cpus[i].fd, false)])
  {
    var procs2, cpus2 := procs[p := procs[p].(fd := -1)], cpus[i := CpuEntry(cpus[i].fd, false)];
    forall fd: int | Ocupada(cpus2, fd)
      ensures exists q :: TieneFd(procs2, q, fd)
    {
      var j :| 0 <= j < |cpus2| && cpus2[j] == CpuEntry(fd, true);
      assert cpus[j] == CpuEntry(fd, true);
      assert Ocupada(cpus, fd);
      var q :| TieneFd(procs, q, fd);
      assert TieneFd(procs2, q, fd);
    }
  }

  /** Getting a CPU. */
  lemma TomarCpu(procs: map<Pid, Proceso>, cpus: seq<CpuEntry>, p: Pid, k: nat, q: Proceso)
    requires CpusOk(procs, cpus) && p in procs && procs[p].fd < 0 && k < |cpus| && !cpus[k].ocupada && q.fd == cpus[k].fd
    ensures CpusOk(procs[p := q], cpus[k := CpuEntry(cpus[k].fd, true)])
    ensures Libres(cpus[k := CpuEntry(cpus[k].fd, true)]) == Libres(cpus) - 1
  {
    var procs2, cpus2 := procs[p := q], cpus[k := CpuEntry(cpus[k].fd, true)];
    LibresCambio(cpus, k, CpuEntry(cpus[k].fd, true));
    forall r | r in procs && procs[r].fd >= 0
      ensures procs[r].fd != q.fd && Ocupada(cpus2, procs[r].fd)
    {
      assert Ocupada(cpus, procs[r].fd);
      var j :| 0 <= j < |cpus| && cpus[j] == CpuEntry(procs[r].fd, true);
      assert cpus2[j] == cpus[j];
    }
    assert cpus2[k] == CpuEntry(q.fd, true);
    forall fd: int | Ocupada(cpus2, fd)
      ensures exists r :: TieneFd(procs2, r, fd)
    {
      if fd == q.fd {
        assert TieneFd(procs2, p, fd);
      } else {
        var j :| 0 <= j < |cpus2| && cpus2[j] == CpuEntry(fd, true);
        assert cpus[j] == cpus2[j];
        assert Ocupada(cpus, fd);
        var r :| TieneFd(procs, r, fd);
        assert TieneFd(procs2, r, fd);
      }
    }
  }

  predicate MismosFd(procs: map<Pid, Proceso>, procs2: map<Pid, Proceso>) {
    && (forall p :: p in procs2 ==> procs2[p].fd >= -1 && (procs2[p].fd >= 0 ==> p in procs && procs[p].fd == procs2[p].fd))
    && (forall p :: p in procs && procs[p].fd >= 0 ==> p in procs2 && procs2[p].fd == procs[p].fd)
  }

  lemma CpusIguales(procs: map<Pid, Proceso>, procs2: map<Pid, Proceso>, cpus: seq<CpuEntry>)
    requires CpusOk(procs, cpus) && MismosFd(procs, procs2)
    ensures CpusOk(procs2, cpus)
  {
    forall fd: int | Ocupada(cpus, fd)
      ensures exists q :: TieneFd(procs2, q, fd)
    {
      var q :| TieneFd(procs, q, fd);
      assert CpuEntry(fd, true) in cpus;
      assert TieneFd(procs2, q, fd);
    }
  }

  // ---------------------------------------------------------------- queues as sets

  lemma {:induction false} QuitarMiembros(q: seq<Pid>, p: Pid)
    ensures forall r :: r in Quitar(q, p) <==> r in q && r != p
  {
    if q != [] {
      QuitarMiembros(q[1..], p);
    }
  }

  lemma {:induction false} VictimaEs(procs: map<Pid, Proceso>, exec: seq<Pid>, prioridad: int, mejor: Option<Pid>)
    requires mejor.Some? ==> mejor.value in procs && !procs[mejor.value].preemptado
    ensures var v := Victima(procs, exec, prioridad, mejor);
            v.Some? ==> v.value in procs && !procs[v.value].preemptado && (v == mejor || v.value in exec)
  {
    if exec != [] {
      var p := exec[0];
      var gana := p in procs && !procs[p].preemptado && procs[p].prioridad > prioridad
        && (mejor.None? || (mejor.value in procs && procs[p].prioridad > procs[mejor.value].prioridad));
      VictimaEs(procs, exec[1..], prioridad, if gana then Some(p) else mejor);
    }
  }

  // ---------------------------------------------------------------- leaving EXEC

  lemma SacarExecCuentas(cfg: Cfg, s: Ks, p: Pid)
    requires Compactacion(cfg, s, None) && p in s.exec && p in s.procs && |Quitar(s.exec, p)| == |s.exec| - 1
    ensures Compactacion(cfg, SacarExec(s, p), Some(p)) && Compactacion(cfg, SacarExecMem(s, p), Some(p))
  {
    QuitarMiembros(s.exec, p);
  }

  lemma SacarExecLigadura(s: Ks, p: Pid)
    requires Ligadura(s, None) && p in s.procs && s.procs[p].estado == EXEC
    ensures Ligadura(SacarExec(s, p), Some(p)) && Libres(SacarExec(s, p).cpus) == Libres(s.cpus) + 1
  {
    SoltarCpus(s.procs, s.cpus, p);
  }

  /** A marked process that leaves EXEC is counted, its CPU is free, and its socket is gone. */
  lemma SacarExecInv(cfg: Cfg, s: Ks, p: Pid)
    requires Inv(cfg, s, None, 0) && p in s.exec
    ensures p in s.procs && s.procs[p].estado == EXEC && SacarExec(s, p).procs[p].fd < 0
    ensures Inv(cfg, SacarExec(s, p), Some(p), 1)
  {
    hide Lugares, Ligadura, Compactacion, NivelesOk;
    SacarExecLugares(s, p);
    SacarExecLigadura(s, p);
    SacarExecCuentas(cfg, s, p);
    PonerNiveles(cfg, s, SacarExec(s, p), p);
  }

  lemma SacarExecMemInv(cfg: Cfg, s: Ks, p: Pid)
    requires Inv(cfg, s, None, 0) && p in s.exec
    ensures p in s.procs && s.procs[p].estado == EXEC && s.procs[p].fd >= 0
    ensures Inv(cfg, SacarExecMem(s, p), Some(p), 0)
  {
    hide Lugares, Compactacion, NivelesOk;
    SacarExecLugares(s, p);
    EnManoLigadura(s, SacarExecMem(s, p), p, None, Some(p));
    SacarExecCuentas(cfg, s, p);
    PonerNiveles(cfg, s, SacarExecMem(s, p), p);
  }

  // ---------------------------------------------------------------- a process in hand

  lemma EnManoLigadura(s: Ks, t: Ks, p: Pid, x: Option<Pid>, y: Option<Pid>)
    requires Ligadura(s, x) && (x == Some(p) || (x == None && y == Some(p))) && p in s.procs && p in t.procs
    requires t.procs == s.procs[p := t.procs[p]] && t.cpus == s.cpus && t.procs[p].fd == s.procs[p].fd
    requires y == Some(p) || (y == None && (t.procs[p].fd >= 0 <==> t.procs[p].estado == EXEC))
    ensures Ligadura(t, y)
  {
    CpusIguales(s.procs, t.procs, s.cpus);
  }

  lemma EnManoCuentas(cfg: Cfg, s: Ks, t: Ks, p: Pid, y: Option<Pid>)
    requires Compactacion(cfg, s, Some(p)) && p in s.procs && p in t.procs && t.procs == s.procs[p := t.procs[p]]
    requires p !in s.exec && t.exec == s.exec && t.fase == s.fase && t.devueltas == s.devueltas
    requires t.procs[p].preemptado ==> y == Some(p) || t.procs[p].estado == EXIT
    ensures Compactacion(cfg, t, y)
  {
  }

  lemma EnManoFuera(s: Ks, p: Pid)
    requires Lugares(s, Some(p))
    ensures p in s.procs && p !in s.exec && p !in Listos(s.ready) && s.mano[p] == 1
  {
    assert s.mano[p] == EnManos(s.tareas, p) + 1;
    EnMano(s, p);
    VecesMiembro(Cola(s, EXEC), p);
    VecesMiembro(Cola(s, READY), p);
  }

  lemma PonerReadyNiveles(cfg: Cfg, s: Ks, p: Pid, alFrente: bool)
    requires NivelesOk(cfg, s) && p in s.procs
    ensures Formado(cfg, s) && NivelesOk(cfg, PonerReady(cfg, s, p, alFrente))
  {
  }

  /** What a handler may do with the process in its hands: it has no CPU and no mark. */
  predicate Libre(s: Ks, p: Pid) {
    p in s.procs && s.procs[p].fd < 0 && !s.procs[p].preemptado
  }

  lemma PonerReadyInv(cfg: Cfg, s: Ks, p: Pid, alFrente: bool, d: nat)
    requires Inv(cfg, s, Some(p), d) && d <= 1 && Libre(s, p)
    ensures Formado(cfg, s) && Inv(cfg, PonerReady(cfg, s, p, alFrente), None, 0)
  {
    hide Lugares, Ligadura, Compactacion, NivelesOk;
    PonerReadyNiveles(cfg, s, p, alFrente);
    var t := PonerReady(cfg, s, p, alFrente);
    EnManoFuera(s, p);
    PonerReadyLugares(cfg, s, p, alFrente);
    PonerReadyColas(cfg, s, p, alFrente);
    EnManoLigadura(s, t, p, Some(p), None);
    EnManoCuentas(cfg, s, t, p, None);
  }

  lemma PonerNiveles(cfg: Cfg, s: Ks, t: Ks, p: Pid)
    requires NivelesOk(cfg, s) && p in s.procs && p in t.procs && t.procs == s.procs[p := t.procs[p]]
    requires t.ready == s.ready && t.mutexes == s.mutexes && t.proximo == s.proximo
    requires t.procs[p].prioridad == s.procs[p].prioridad && t.procs[p].base == s.procs[p].base
    ensures NivelesOk(cfg, t)
  {
  }

  lemma DesmarcarInv(cfg: Cfg, s: Ks, p: Pid, d: nat)
    requires Inv(cfg, s, Some(p), d)
    ensures Inv(cfg, Desmarcar(s, p), Some(p), d) && p in s.procs && !Desmarcar(s, p).procs[p].preemptado
  {
    hide Lugares, Ligadura, Compactacion, NivelesOk;
    var t := Desmarcar(s, p);
    EnManoFuera(s, p);
    OtrosCampos(s, t, Some(p));
    EnManoLigadura(s, t, p, Some(p), Some(p));
    EnManoCuentas(cfg, s, t, p, Some(p));
    PonerNiveles(cfg, s, t, p);
  }

  lemma PonerInv(cfg: Cfg, s: Ks, p: Pid, e: Estado, d: nat)
    requires Inv(cfg, s, Some(p), d) && (e == BLOCK || e == SUSP_BLOCK || e == SUSP_READY || e == EXIT)
    requires s.procs[p].fd < 0 && (e != EXIT ==> !s.procs[p].preemptado)
    ensures Inv(cfg, Poner(s, p, e), None, d)
  {
    hide Lugares, Ligadura, Compactacion, NivelesOk;
    var t := Poner(s, p, e);
    EnManoFuera(s, p);
    PonerLugares(s, p, e);
    EnManoLigadura(s, t, p, Some(p), None);
    EnManoCuentas(cfg, s, t, p, None);
    PonerNiveles(cfg, s, t, p);
  }

  lemma PonerBlockInv(cfg: Cfg, s: Ks, p: Pid, d: nat)
    requires Inv(cfg, s, Some(p), d) && d <= 1 && s.procs[p].fd < 0
    ensures Inv(cfg, PonerBlock(s, p), None, 0)
  {
    hide Lugares, Ligadura, Compactacion, NivelesOk;
    var t := Desmarcar(s, p);
    DesmarcarInv(cfg, s, p, d);
    PonerInv(cfg, t, p, BLOCK, d);
    PonerBlockLugares(s, p);
    SoloTokens(cfg, Poner(t, p, BLOCK), PonerBlock(s, p));
  }

  /** Semaphores have no say in anything but wakeups. */
  lemma SoloTokens(cfg: Cfg, s: Ks, t: Ks)
    requires Ligadura(s, None) && Compactacion(cfg, s, None) && NivelesOk(cfg, s) && t == s.(tokens := t.tokens, plan := t.plan)
    ensures Ligadura(t, None) && Compactacion(cfg, t, None) && NivelesOk(cfg, t)
  {
  }

  // ---------------------------------------------------------------- out of the other queues

  lemma SacarCuentas(cfg: Cfg, s: Ks, p: Pid, e: Estado)
    requires Compactacion(cfg, s, None) && p in s.procs && s.procs[p].estado == e && e != EXIT && p !in s.exec
    requires e == BLOCK || e == SUSP_BLOCK || e == SUSP_READY
    ensures Compactacion(cfg, Sacar(s, p, e), Some(p)) && !s.procs[p].preemptado
  {
  }

  lemma SacarLigadura(s: Ks, t: Ks, p: Pid)
    requires Ligadura(s, None) && t.procs == s.procs && t.cpus == s.cpus && p in s.procs && s.procs[p].estado != EXEC
    ensures Ligadura(t, Some(p)) && s.procs[p].fd < 0
  {
  }

  lemma EnOtraCola(s: Ks, p: Pid, e: Estado)
    requires Lugares(s, None) && p in Cola(s, e) && e != EXEC
    ensures p !in s.exec
  {
    EnCola(s, p, e);
    assert Veces(Cola(s, EXEC), p) == 0;
    VecesMiembro(s.exec, p);
  }

  lemma SacarNiveles(cfg: Cfg, s: Ks, t: Ks)
    requires NivelesOk(cfg, s) && t.procs == s.procs && t.ready == s.ready && t.mutexes == s.mutexes && t.proximo == s.proximo
    ensures NivelesOk(cfg, t)
  {
  }

  lemma SacarInv(cfg: Cfg, s: Ks, p: Pid, e: Estado)
    requires Inv(cfg, s, None, 0) && p in Cola(s, e) && (e == BLOCK || e == SUSP_BLOCK || e == SUSP_READY)
    ensures Inv(cfg, Sacar(s, p, e), Some(p), 0) && Libre(s, p) && s.procs[p].estado == e
  {
    hide Lugares, Ligadura, Compactacion, NivelesOk;
    SacarLugares(s, p, e);
    EnOtraCola(s, p, e);
    SacarCuentas(cfg, s, p, e);
    SacarLigadura(s, Sacar(s, p, e), p);
    SacarNiveles(cfg, s, Sacar(s, p, e));
  }

  // ---------------------------------------------------------------- handlers waiting for Kernel Memory

  lemma AbrirResto(cfg: Cfg, s: Ks, x: Option<Pid>, t: Tarea, d: nat)
    requires Compactacion(cfg, s, x) && NivelesOk(cfg, s) && CanalOk(s) && TrabajoOk(s, d)
    requires Titular(t) == x || Titular(t) == None
    requires x.Some? && Titular(t) == x ==> x.value in s.procs && !s.procs[x.value].preemptado
    ensures Compactacion(cfg, Abrir(s, t), if Titular(t) == x then None else x) && NivelesOk(cfg, Abrir(s, t)) && CanalOk(Abrir(s, t))
    ensures d <= Bit(t.Avisando? && t.debe) ==> TrabajoOk(Abrir(s, t), 0)
  {
    EnManosAppend(s.tareas, t, 0);
  }

  /** The handler keeps its process while it waits. */
  lemma AbrirInv(cfg: Cfg, s: Ks, p: Pid, t: Tarea)
    requires Inv(cfg, s, Some(p), 0) && Titular(t) == Some(p) && EstadoDeTarea(t, s.procs[p].estado)
    requires (s.procs[p].fd >= 0 <==> s.procs[p].estado == EXEC) && !s.procs[p].preemptado
    ensures Inv(cfg, Abrir(s, t), None, 0)
  {
    hide Lugares, Ligadura, Compactacion, NivelesOk, CanalOk, TrabajoOk;
    EnManoFuera(s, p);
    AbrirLugares(s, Some(p), t);
    EnManoLigadura(s, Abrir(s, t), p, Some(p), None);
    AbrirResto(cfg, s, Some(p), t, 0);
  }

  lemma MismaLigadura(s: Ks, t: Ks, x: Option<Pid>)
    requires Ligadura(s, x) && t.procs == s.procs && t.cpus == s.cpus
    ensures Ligadura(t, x)
  {
  }

  lemma AbrirNadieInv(cfg: Cfg, s: Ks, t: Tarea, d: nat)
    requires Inv(cfg, s, None, d) && Titular(t) == None && d <= Bit(t.Avisando? && t.debe)
    ensures Inv(cfg, Abrir(s, t), None, 0)
  {
    hide Lugares, Ligadura, Compactacion, NivelesOk, CanalOk, TrabajoOk;
    AbrirLugares(s, None, t);
    MismaLigadura(s, Abrir(s, t), None);
    AbrirResto(cfg, s, None, t, d);
  }

  lemma EnterrarInv(cfg: Cfg, s: Ks, p: Pid, debe: bool, d: nat)
    requires Inv(cfg, s, Some(p), d) && s.procs[p].fd < 0 && d <= Bit(debe)
    ensures Inv(cfg, Enterrar(s, p, debe), None, 0)
  {
    hide Lugares, Ligadura, Compactacion, NivelesOk, CanalOk, TrabajoOk;
    PonerInv(cfg, s, p, EXIT, d);
    AbrirNadieInv(cfg, Poner(s, p, EXIT), Avisando(p, debe), d);
  }

  /** The channel belongs to `t`, and no compaction hangs on its answer. */
  predicate Contestable(s: Ks, t: Tarea) {
    s.canal == Some(t) && s.pedida == None && !s.fase.Marcada? && !s.fase.FinEnviado?
  }

  lemma CerrarResto(cfg: Cfg, s: Ks, t: Tarea)
    requires Compactacion(cfg, s, None) && NivelesOk(cfg, s) && CanalOk(s) && TrabajoOk(s, 0) && Contestable(s, t)
    ensures t in s.tareas && NivelesOk(cfg, Cerrar(s, t)) && CanalOk(Cerrar(s, t)) && Compactacion(cfg, Cerrar(s, t), Titular(t))
    ensures !(t.Avisando? && t.debe) ==> TrabajoOk(Cerrar(s, t), 0)
    ensures TrabajoOk(Cerrar(s, t).(tokens := s.tokens + 1), 0)
  {
    QuitarTareaCuenta(s.tareas, t, 0);
  }

  lemma CerrarEstado(cfg: Cfg, s: Ks, t: Tarea)
    requires Inv(cfg, s, None, 0) && t in s.tareas && Titular(t).Some?
    ensures t.pid in s.procs && EstadoDeTarea(t, s.procs[t.pid].estado) && !s.procs[t.pid].preemptado
    ensures s.procs[t.pid].fd >= 0 <==> s.procs[t.pid].estado == EXEC
  {
    hide CpusOk, NivelesOk, CuentasOk, SinSobras, EstadosOk, CanalOk;
    var i :| 0 <= i < |s.tareas| && s.tareas[i] == t;
    EnManosMiembro(s.tareas, i, t.pid);
    assert s.mano[t.pid] == EnManos(s.tareas, t.pid) + 0;
    EnMano(s, t.pid);
    VecesMiembro(Cola(s, EXEC), t.pid);
  }

  lemma LigaduraEnMano(s: Ks, t: Ks, x: Option<Pid>)
    requires Ligadura(s, None) && t.procs == s.procs && t.cpus == s.cpus
    ensures Ligadura(t, x)
  {
  }

  /** The answer has come: the handler takes its process up where it left it. */
  lemma CerrarInv(cfg: Cfg, s: Ks, t: Tarea)
    requires Inv(cfg, s, None, 0) && Contestable(s, t) && !(t.Avisando? && t.debe)
    ensures Inv(cfg, Cerrar(s, t), Titular(t), 0)
    ensures Titular(t).Some? ==> t.pid in s.procs && EstadoDeTarea(t, s.procs[t.pid].estado) && !s.procs[t.pid].preemptado
    ensures Titular(t).Some? ==> (s.procs[t.pid].fd >= 0 <==> s.procs[t.pid].estado == EXEC)
  {
    hide Lugares, Ligadura, Compactacion, NivelesOk, CanalOk, TrabajoOk;
    CerrarResto(cfg, s, t);
    CerrarLugares(s, t);
    LigaduraEnMano(s, Cerrar(s, t), Titular(t));
    if Titular(t).Some? {
      CerrarEstado(cfg, s, t);
    }
  }

  lemma TokensLugares(s: Ks, n: nat)
    requires Lugares(s, None)
    ensures Lugares(s.(tokens := n), None)
  {
    OtrosCampos(s, s.(tokens := n), None);
  }

  /** avisar_km_finalizacion is over; the post it still owed, if any, is made. */
  lemma CerrarAvisoInv(cfg: Cfg, s: Ks, p: Pid)
    requires Inv(cfg, s, None, 0) && Contestable(s, Avisando(p, true))
    ensures Inv(cfg, Cerrar(s, Avisando(p, true)).(tokens := s.tokens + 1), None, 0)
  {
    hide Lugares, Ligadura, Compactacion, NivelesOk, CanalOk, TrabajoOk;
    var t := Cerrar(s, Avisando(p, true));
    CerrarResto(cfg, s, Avisando(p, true));
    CerrarLugares(s, Avisando(p, true));
    LigaduraEnMano(s, t, None);
    SoloTokens(cfg, t, t.(tokens := s.tokens + 1));
    TokensLugares(t, s.tokens + 1);
    CanalTokens(t, s.tokens + 1);
  }

  lemma CanalTokens(s: Ks, n: nat)
    requires CanalOk(s)
    ensures CanalOk(s.(tokens := n))
  {
  }

  // ---------------------------------------------------------------- birth and death

  lemma NacerLigadura(s: Ks, p: Pid, prioridad: int)
    requires Ligadura(s, None) && p !in s.procs
    ensures Ligadura(Nacer(s, p, prioridad), Some(p))
  {
    CpusIguales(s.procs, Nacer(s, p, prioridad).procs, s.cpus);
  }

  lemma NacerResto(cfg: Cfg, s: Ks, p: Pid, prioridad: int)
    requires Compactacion(cfg, s, None) && NivelesOk(cfg, s) && p !in s.exec && p == s.proximo && (cfg.cmn ==> 0 <= prioridad < cfg.n)
    ensures Compactacion(cfg, Nacer(s, p, prioridad), Some(p)) && NivelesOk(cfg, Nacer(s, p, prioridad))
  {
  }

  lemma Desconocido(s: Ks, p: Pid)
    requires Lugares(s, None) && p !in s.procs
    ensures p !in s.exec
  {
    assert EnColas(s, p) + s.mano[p] == Bit(p in s.procs);
    VecesMiembro(s.exec, p);
  }

  lemma PidNuevo(cfg: Cfg, s: Ks, p: Pid)
    requires NivelesOk(cfg, s) && p >= s.proximo
    ensures p !in s.procs
  {
  }

  lemma NacerInv(cfg: Cfg, s: Ks, p: Pid, prioridad: int)
    requires Inv(cfg, s, None, 0) && p == s.proximo && (cfg.cmn ==> 0 <= prioridad < cfg.n)
    ensures Inv(cfg, Nacer(s, p, prioridad), Some(p), 0)
  {
    hide Lugares, Ligadura, Compactacion, NivelesOk;
    PidNuevo(cfg, s, p);
    NacerLugares(s, p, prioridad);
    NacerLigadura(s, p, prioridad);
    Desconocido(s, p);
    NacerResto(cfg, s, p, prioridad);
  }

  lemma MorirResto(cfg: Cfg, s: Ks, p: Pid)
    requires Compactacion(cfg, s, Some(p)) && NivelesOk(cfg, s) && p !in s.exec && p !in Listos(s.ready)
    ensures Compactacion(cfg, Morir(s, p), None) && NivelesOk(cfg, Morir(s, p))
  {
    var t := Morir(s, p);
    forall i, k | cfg.cmn && 0 <= i < |t.ready| && 0 <= k < |t.ready[i]|
      ensures t.ready[i][k] in t.procs && t.procs[t.ready[i][k]].prioridad == i
    {
      ListosMiembro(s.ready, i, s.ready[i][k]);
    }
  }

  lemma MorirLigadura(s: Ks, p: Pid)
    requires Ligadura(s, Some(p)) && p in s.procs && s.procs[p].fd < 0
    ensures Ligadura(Morir(s, p), None)
  {
    CpusIguales(s.procs, Morir(s, p).procs, s.cpus);
  }

  lemma MorirInv(cfg: Cfg, s: Ks, p: Pid)
    requires Inv(cfg, s, Some(p), 0) && s.procs[p].fd < 0
    ensures Inv(cfg, Morir(s, p), None, 0)
  {
    hide Lugares, Ligadura, Compactacion, NivelesOk;
    EnManoFuera(s, p);
    MorirLugares(s, p);
    MorirLigadura(s, p);
    MorirResto(cfg, s, p);
  }
}
