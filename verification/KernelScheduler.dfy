/**
 * The Kernel Scheduler in its own form: queues popped and pushed, CPU flags set,
 * semaphores posted. Every handler is proved to be a step of the step system.
 */
module KernelScheduler {
  import opened Basics
  import opened KsMutex
  import opened KsEstado
  import opened KsInvariantes
  import opened KsHandlers
  import opened KsPlanificador
  import opened KsPasos
  import opened KsCorridas
  import opened KsCiclo
  import opened KsEfectos
  import opened KsTraslados

  // ---------------------------------------------------------------- queues

  /** Every element is popped and, unless it is the one looked for, pushed again. */
  method Rotar(cola: seq<Pid>, pid: Pid) returns (resto: seq<Pid>, hallado: bool)
    ensures resto == Quitar(cola, pid)
    ensures hallado <==> pid in cola
    ensures !hallado ==> resto == cola
  {
    resto, hallado := cola, false;
    var i := 0;
    while i < |cola|
      invariant 0 <= i <= |cola|
      invariant resto == cola[i..] + Quitar(cola[..i], pid)
      invariant hallado <==> pid in cola[..i]
    {
      var q := resto[0];
      assert q == cola[i] && cola[..i + 1] == cola[..i] + [q];
      QuitarAlFinal(cola[..i], q, pid);
      resto := resto[1..];
      if q == pid {
        hallado := true;
      } else {
        resto := resto + [q];
      }
      i := i + 1;
    }
    assert cola[..i] == cola;
    if !hallado {
      QuitarAjeno(cola, pid);
    }
  }

  method BuscarPidEnQueue(cola: seq<Pid>, pid: Pid) returns (hallado: bool)
    ensures hallado <==> pid in cola
  {
    var i := 0;
    while i < |cola|
      invariant 0 <= i <= |cola| && pid !in cola[..i]
    {
      if cola[i] == pid {
        return true;
      }
      i := i + 1;
    }
    hallado := false;
  }

  lemma {:induction false} QuitarPrimero(q: seq<Pid>, i: nat, p: Pid)
    requires i < |q| && q[i] == p && p !in q[..i] && Veces(q, p) == 1
    ensures Quitar(q, p) == q[..i] + q[i + 1..]
  {
    if i == 0 {
      VecesMiembro(q[1..], p);
      QuitarAjeno(q[1..], p);
    } else {
      var r := q[1..];
      assert q[..i] == [q[0]] + r[..i - 1] && q[i + 1..] == r[i..];
      assert q[0] == q[..i][0] && p !in r[..i - 1];
      QuitarPrimero(r, i - 1, p);
      assert [q[0]] + (r[..i - 1] + r[i..]) == q[..i] + q[i + 1..];
    }
  }

  /** The first occurrence is taken out. */
  method RemoverElemento(cola: seq<Pid>, pid: Pid) returns (resto: seq<Pid>, hallado: bool)
    requires pid in cola ==> Veces(cola, pid) == 1
    ensures hallado <==> pid in cola
    ensures resto == if hallado then Quitar(cola, pid) else cola
  {
    var i := 0;
    while i < |cola|
      invariant 0 <= i <= |cola| && pid !in cola[..i]
    {
      if cola[i] == pid {
        QuitarPrimero(cola, i, pid);
        return cola[..i] + cola[i + 1..], true;
      }
      i := i + 1;
    }
    resto, hallado := cola, false;
  }

  lemma {:induction false} LiberarPasa(cpus: seq<CpuEntry>, i: nat, fd: int)
    requires i < |cpus| && cpus[i].fd == fd && forall k :: 0 <= k < i ==> cpus[k].fd != fd
    ensures Liberar(cpus, fd) == cpus[i := cpus[i].(ocupada := false)]
    ensures SinCpu(cpus, fd) == cpus[..i] + cpus[i + 1..]
  {
    if i > 0 {
      assert cpus[..i] == [cpus[0]] + cpus[1..][..i - 1];
      LiberarPasa(cpus[1..], i - 1, fd);
    }
  }

  lemma {:induction false} LiberarNadie(cpus: seq<CpuEntry>, fd: int)
    requires forall k :: 0 <= k < |cpus| ==> cpus[k].fd != fd
    ensures Liberar(cpus, fd) == cpus && SinCpu(cpus, fd) == cpus
  {
    if cpus != [] {
      LiberarNadie(cpus[1..], fd);
    }
  }

  lemma SacarExecProcs(s: Ks, p: Pid)
    requires p in s.procs && 0 < |s.ready|
    ensures p in SacarExec(s, p).procs && SacarExec(s, p).ready == s.ready && SacarExec(s, p).procs[p].preemptado == s.procs[p].preemptado
    ensures SacarExec(s, p).procs[p].prioridad == s.procs[p].prioridad && SacarExec(s, p).mutexes == s.mutexes
  {
  }

  lemma PonerBlockEs(s: Ks, p: Pid)
    ensures PonerBlock(s, p).block == s.block + [p] && PonerBlock(s, p).procs.Keys == s.procs.Keys
    ensures p in PonerBlock(s, p).block
  {
    assert (s.block + [p])[|s.block|] == p;
  }

  lemma RescatadoEs(s: Ks, p: Pid, fd: int)
    requires p in s.procs
    ensures var t := SacarExecMem(s.(cpus := SinCpu(s.cpus, fd)), p);
            p in t.procs && Rescatado(s, p, fd) == t.(procs := t.procs[p := t.procs[p].(fd := -1)])
    ensures p in Rescatado(s, p, fd).procs && Rescatado(s, p, fd).ready == s.ready
  {
  }

  lemma SacarProcs(s: Ks, p: Pid, e: Estado)
    ensures Sacar(s, p, e).procs == s.procs
  {
  }

  lemma RecalcularNegativo(cfg: Cfg, s: Ks, q: int)
    ensures !(0 <= q <= INT_MAX) ==> Recalcular(cfg, s, q) == s
    ensures |Recalcular(cfg, s, q).ready| == |s.ready|
  {
  }

  lemma SoltandoColas(cfg: Cfg, s: Ks, p: Pid, nombre: string)
    ensures var t := Soltando(cfg, s, p, nombre); t.block == s.block && t.suspBlock == s.suspBlock && t.procs.Keys == s.procs.Keys
  {
    hide Soltando, Repriorizado;
    SoltandoOrden(cfg, s, p, nombre);
    MismasSalvoReady(s, Soltando(cfg, s, p, nombre));
  }

  /** Recalculating priorities does not duplicate a READY process. */
  lemma RecalcularUnaVez(cfg: Cfg, s: Ks, mutexes: seq<MutexKs>, p: int)
    requires Inv(cfg, s, None, 0)
    ensures forall q: Pid :: Veces(Listos(s.ready), q) <= 1 && Veces(Listos(Recalcular(cfg, s.(mutexes := mutexes), p).ready), q) <= 1
    ensures |Recalcular(cfg, s.(mutexes := mutexes), p).ready| == |s.ready|
  {
    hide Ligadura, Compactacion, NivelesOk;
    var m := s.(mutexes := mutexes);
    var t := Recalcular(cfg, m, p);
    OtrosCampos(s, m, None);
    RecalcularLugares(cfg, m, None, p);
    forall q: Pid
      ensures Veces(Listos(s.ready), q) <= 1 && Veces(Listos(t.ready), q) <= 1
    {
      assert EnColas(s, q) + s.mano[q] == Bit(q in s.procs);
      assert EnColas(t, q) + t.mano[q] == Bit(q in t.procs);
    }
  }

  /** What a handler needs to know of the state it starts from. */
  lemma Conocidos(cfg: Cfg, s: Ks)
    requires Inv(cfg, s, None, 0)
    ensures Formado(cfg, s)
    ensures forall e, p: Pid :: p in Cola(s, e) ==> p in s.procs
    ensures forall p: Pid :: Veces(Listos(s.ready), p) <= 1
    ensures forall p: Pid :: Veces(s.exec, p) <= 1
    ensures forall t :: t in s.tareas && Titular(t).Some? ==> t.pid in s.procs
  {
    hide Ligadura, Compactacion;
    forall e, p: Pid | p in Cola(s, e)
      ensures p in s.procs
    {
      VecesMiembro(Cola(s, e), p);
    }
    forall p: Pid
      ensures Veces(Listos(s.ready), p) <= 1 && Veces(s.exec, p) <= 1
    {
      assert EnColas(s, p) + s.mano[p] == Bit(p in s.procs);
    }
  }

  lemma Titulares(cfg: Cfg, s: Ks, t: Tarea)
    requires Inv(cfg, s, None, 0) && s.canal == Some(t) && Titular(t).Some?
    ensures Formado(cfg, s) && t.pid in s.procs
  {
    hide Inv;
    EnTarea(cfg, s, t);
    ConocidoEn(cfg, s, 0);
  }

  lemma ConocidoEn(cfg: Cfg, s: Ks, p: Pid)
    requires Inv(cfg, s, None, 0)
    ensures Formado(cfg, s)
    ensures p in s.exec || p in s.block || p in s.suspBlock || p in s.suspReady || p in Listos(s.ready) ==> p in s.procs
  {
    hide Inv;
    Conocidos(cfg, s);
    assert Cola(s, EXEC) == s.exec && Cola(s, BLOCK) == s.block && Cola(s, SUSP_BLOCK) == s.suspBlock
      && Cola(s, SUSP_READY) == s.suspReady && Cola(s, READY) == Listos(s.ready);
  }

  class KernelScheduler {
    const cfg: Cfg
    var proximo: nat
    var procs: map<Pid, Proceso>
    var ready: seq<seq<Pid>>
    var exec: seq<Pid>
    var block: seq<Pid>
    var suspBlock: seq<Pid>
    var suspReady: seq<Pid>
    var exit: seq<Pid>
    ghost var mano: multiset<Pid>
    var tareas: seq<Tarea>
    var canal: Option<Tarea>
    var cpus: seq<CpuEntry>
    const mutexes: MutexesKs
    var tokens: nat
    var plan: bool
    var pedida: Option<Pid>
    var fase: Fase
    var devueltas: nat

    ghost function Estado(): Ks
      reads this, mutexes
    {
      Ks(proximo, procs, ready, exec, block, suspBlock, suspReady, exit, mano, tareas, canal, cpus, mutexes.lista,
         tokens, plan, pedida, fase, devueltas)
    }

    ghost predicate Valido()
      reads this, mutexes
    {
      Inv(cfg, Estado(), None, 0)
    }

    constructor (cfg: Cfg)
      requires CfgOk(cfg)
      ensures this.cfg == cfg && fresh(mutexes) && Valido() && Estado() == Inicial(cfg)
    {
      this.cfg := cfg;
      proximo, procs, mano := 0, map[], multiset{};
      ready, exec, block, suspBlock, suspReady, exit := seq(cfg.n, _ => []), [], [], [], [], [];
      tareas, canal, cpus := [], None, [];
      mutexes := new MutexesKs();
      tokens, plan, pedida, fase, devueltas := 0, false, None, Normal, 0;
      new;
      InicialInv(cfg);
    }

    // -------------------------------------------------------------- single changes

    method CambiarEstado(pid: Pid, nuevo: Estado)
      requires pid in procs
      modifies this`procs
      ensures Estado() == ConEstado(old(Estado()), pid, nuevo)
    {
      procs := procs[pid := procs[pid].(estado := nuevo)];
    }

    method FijarCpu(pid: Pid, fd: int)
      requires pid in procs
      modifies this`procs
      ensures Estado() == old(Estado()).(procs := old(procs)[pid := old(procs)[pid].(fd := fd)])
    {
      procs := procs[pid := procs[pid].(fd := fd)];
    }

    method FijarMarca(pid: Pid, marca: bool)
      requires pid in procs
      modifies this`procs
      ensures Estado() == old(Estado()).(procs := old(procs)[pid := old(procs)[pid].(preemptado := marca)])
    {
      procs := procs[pid := procs[pid].(preemptado := marca)];
    }

    method FijarPrioridad(pid: Pid, prioridad: int)
      requires pid in procs
      modifies this`procs
      ensures Estado() == old(Estado()).(procs := old(procs)[pid := old(procs)[pid].(prioridad := prioridad)])
    {
      procs := procs[pid := procs[pid].(prioridad := prioridad)];
    }

    method FijarReady(nivel: nat, cola: seq<Pid>)
      requires nivel < |ready|
      modifies this`ready
      ensures Estado() == old(Estado()).(ready := old(ready)[nivel := cola])
    {
      ready := ready[nivel := cola];
    }

    method PushExec(pid: Pid)
      modifies this`exec
      ensures Estado() == old(Estado()).(exec := old(exec) + [pid])
    {
      exec := exec + [pid];
    }

    method PushBlock(pid: Pid)
      modifies this`block
      ensures Estado() == old(Estado()).(block := old(block) + [pid])
    {
      block := block + [pid];
    }

    method PushSuspBlock(pid: Pid)
      modifies this`suspBlock
      ensures Estado() == old(Estado()).(suspBlock := old(suspBlock) + [pid])
    {
      suspBlock := suspBlock + [pid];
    }

    method PushSuspReady(pid: Pid)
      modifies this`suspReady
      ensures Estado() == old(Estado()).(suspReady := old(suspReady) + [pid])
    {
      suspReady := suspReady + [pid];
    }

    method PushExit(pid: Pid)
      modifies this`exit
      ensures Estado() == old(Estado()).(exit := old(exit) + [pid])
    {
      exit := exit + [pid];
    }

    method PostCpuDisponible()
      modifies this`tokens
      ensures Estado() == old(Estado()).(tokens := old(tokens) + 1)
    {
      tokens := tokens + 1;
    }

    method PostCpuDevuelta()
      modifies this`devueltas
      ensures Estado() == old(Estado()).(devueltas := old(devueltas) + 1)
    {
      devueltas := devueltas + 1;
    }

    ghost method Toma(pid: Pid)
      modifies this`mano
      ensures Estado() == old(Estado()).(mano := old(mano) + multiset{pid})
    {
      mano := mano + multiset{pid};
    }

    ghost method Suelta(pid: Pid)
      modifies this`mano
      ensures Estado() == old(Estado()).(mano := old(mano) - multiset{pid})
    {
      mano := mano - multiset{pid};
    }

    /** A handler sends its request. */
    method Pedir(t: Tarea)
      modifies this`tareas
      ensures Estado() == Abrir(old(Estado()), t)
    {
      tareas := tareas + [t];
    }

    method SoltarCanal()
      modifies this`canal
      ensures Estado() == old(Estado()).(canal := None)
    {
      canal := None;
    }

    method OlvidarTarea(t: Tarea)
      modifies this`tareas
      ensures Estado() == old(Estado()).(tareas := QuitarTarea(old(tareas), t))
    {
      tareas := QuitarTarea(tareas, t);
    }

    method FijarFase(f: Fase)
      modifies this`fase
      ensures Estado() == old(Estado()).(fase := f)
    {
      fase := f;
    }

    method LiberarCpu(fd: int)
      modifies this`cpus
      ensures Estado() == old(Estado()).(cpus := Liberar(old(cpus), fd))
    {
      var i := 0;
      while i < |cpus|
        invariant 0 <= i <= |cpus| && cpus == old(cpus)
        invariant forall k :: 0 <= k < i ==> cpus[k].fd != fd
      {
        if cpus[i].fd == fd {
          LiberarPasa(cpus, i, fd);
          cpus := cpus[i := cpus[i].(ocupada := false)];
          return;
        }
        i := i + 1;
      }
      LiberarNadie(cpus, fd);
    }

    method OcuparCpu(k: nat)
      requires k < |cpus|
      modifies this`cpus
      ensures Estado() == old(Estado()).(cpus := old(cpus)[k := CpuEntry(old(cpus)[k].fd, true)])
    {
      cpus := cpus[k := cpus[k].(ocupada := true)];
    }

    method RotarExec(pid: Pid) returns (hallado: bool)
      modifies this`exec
      ensures hallado <==> pid in old(exec)
      ensures Estado() == if hallado then old(Estado()).(exec := Quitar(old(exec), pid)) else old(Estado())
    {
      exec, hallado := Rotar(exec, pid);
    }

    method RotarBlock(pid: Pid) returns (hallado: bool)
      modifies this`block
      ensures hallado <==> pid in old(block)
      ensures Estado() == if hallado then old(Estado()).(block := Quitar(old(block), pid)) else old(Estado())
    {
      block, hallado := Rotar(block, pid);
    }

    method RotarSuspBlock(pid: Pid) returns (hallado: bool)
      modifies this`suspBlock
      ensures hallado <==> pid in old(suspBlock)
      ensures Estado() == if hallado then old(Estado()).(suspBlock := Quitar(old(suspBlock), pid)) else old(Estado())
    {
      suspBlock, hallado := Rotar(suspBlock, pid);
    }

    method RotarSuspReady(pid: Pid) returns (hallado: bool)
      modifies this`suspReady
      ensures hallado <==> pid in old(suspReady)
      ensures Estado() == if hallado then old(Estado()).(suspReady := Quitar(old(suspReady), pid)) else old(Estado())
    {
      suspReady, hallado := Rotar(suspReady, pid);
    }

    // -------------------------------------------------------------- helpers

    method BuscarCpuLibre() returns (r: Option<nat>)
      ensures r == PrimeraLibre(cpus)
    {
      var i := 0;
      while i < |cpus|
        invariant 0 <= i <= |cpus|
        invariant forall k :: 0 <= k < i ==> cpus[k].ocupada
      {
        if !cpus[i].ocupada {
          return Some(i);
        }
        i := i + 1;
      }
      r := None;
    }

    method ElegirNivel() returns (r: Option<nat>)
      ensures r == PrimerNivel(ready)
    {
      var i := 0;
      while i < |ready|
        invariant 0 <= i <= |ready|
        invariant forall k :: 0 <= k < i ==> ready[k] == []
      {
        if |ready[i]| > 0 {
          return Some(i);
        }
        i := i + 1;
      }
      r := None;
    }

    /** Marks the running process to evict for a newcomer, when no CPU is free. */
    method VerificarPreemption(prioridad: int)
      modifies this`procs
      ensures Estado() == KsEstado.VerificarPreemption(cfg, old(Estado()), prioridad)
      ensures procs.Keys == old(procs).Keys
      ensures forall r :: r in procs ==>
        procs[r] == old(procs)[r].(preemptado := old(procs)[r].preemptado || EsVictima(cfg, old(Estado()), Estado(), prioridad, r))
    {
      MarcaUna(cfg, Estado(), prioridad);
      if !cfg.preemption {
        return;
      }
      var libre := BuscarCpuLibre();
      if libre.Some? {
        return;
      }
      var victima: Option<Pid> := None;
      var i := 0;
      while i < |exec|
        invariant 0 <= i <= |exec|
        invariant victima.Some? ==> victima.value in procs
        invariant Victima(procs, exec[i..], prioridad, victima) == Victima(procs, exec, prioridad, None)
      {
        var p := exec[i];
        assert exec[i..][1..] == exec[i + 1..] && exec[i..][0] == p;
        if p in procs && !procs[p].preemptado && procs[p].prioridad > prioridad
          && (victima.None? || procs[p].prioridad > procs[victima.value].prioridad) {
          victima := Some(p);
        }
        i := i + 1;
      }
      assert exec[i..] == [];
      if victima.Some? {
        procs := procs[victima.value := procs[victima.value].(preemptado := true)];
      }
    }

    method EncolarEnReady(pid: Pid)
      requires pid in procs && Formado(cfg, Estado())
      modifies this
      ensures Estado() == Encolar(cfg, old(Estado()), pid)
      ensures tokens == old(tokens) + 1 && |ready| == |old(ready)|
      ensures ready[Nivel(cfg, old(procs)[pid].prioridad)] == old(ready)[Nivel(cfg, old(procs)[pid].prioridad)] + [pid]
    {
      PonerEnReady(pid);
      VerificarPreemption(procs[pid].prioridad);
    }

    method PonerEnReady(pid: Pid)
      requires pid in procs && Formado(cfg, Estado())
      modifies this
      ensures Estado() == PonerReady(cfg, old(Estado()), pid, false)
    {
      CambiarEstado(pid, READY);
      var nivel := Nivel(cfg, procs[pid].prioridad);
      FijarReady(nivel, ready[nivel] + [pid]);
      Suelta(pid);
      PostCpuDisponible();
    }

    method EncolarAlFrenteEnReady(pid: Pid)
      requires pid in procs && Formado(cfg, Estado())
      modifies this
      ensures Estado() == PonerReady(cfg, old(Estado()), pid, true)
    {
      CambiarEstado(pid, READY);
      var nivel := Nivel(cfg, procs[pid].prioridad);
      FijarReady(nivel, [pid] + ready[nivel]);
      Suelta(pid);
      PostCpuDisponible();
    }

    /** The process leaves EXEC, its CPU is free, and a marked one is counted for the compaction. */
    method SacarDeExec(pid: Pid) returns (hallado: bool)
      requires pid in exec ==> pid in procs
      modifies this
      ensures hallado <==> pid in old(exec)
      ensures Estado() == if hallado then SacarExec(old(Estado()), pid) else old(Estado())
      ensures hallado ==> procs[pid].fd == -1 && devueltas == old(devueltas) + Bit(fase != Normal && old(procs)[pid].preemptado)
      ensures hallado ==> forall q :: q in exec <==> q in old(exec) && q != pid
    {
      QuitarMiembros(exec, pid);
      hallado := RotarExec(pid);
      if hallado {
        Toma(pid);
        LiberarCpu(procs[pid].fd);
        FijarCpu(pid, -1);
        ContarDevuelta(procs[pid].preemptado);
      }
    }

    method ContarDevuelta(marcado: bool)
      modifies this`devueltas
      ensures Estado() == old(Estado()).(devueltas := old(devueltas) + Bit(Compactando(old(Estado())) && marcado))
    {
      if fase != Normal && marcado {
        PostCpuDevuelta();
      }
    }

    /** The same for a memory syscall: the CPU stays busy. */
    method SacarProcDeExecParaMem(pid: Pid) returns (hallado: bool)
      requires pid in exec ==> pid in procs
      modifies this
      ensures hallado <==> pid in old(exec)
      ensures Estado() == if hallado then SacarExecMem(old(Estado()), pid) else old(Estado())
      ensures hallado ==> procs[pid] == old(procs)[pid].(preemptado := false) && cpus == old(cpus)
    {
      hallado := RotarExec(pid);
      if hallado {
        Toma(pid);
        ContarDevuelta(procs[pid].preemptado);
        FijarMarca(pid, false);
      }
    }

    method MoverABlock(pid: Pid)
      requires pid in procs
      modifies this
      ensures Estado() == PonerBlock(old(Estado()), pid)
    {
      FijarMarca(pid, false);
      PasarABlock(pid);
      PostCpuDisponible();
    }

    method SacarDeBlock(pid: Pid) returns (hallado: bool)
      modifies this
      ensures hallado <==> pid in old(block)
      ensures Estado() == if hallado then Sacar(old(Estado()), pid, BLOCK) else old(Estado())
    {
      hallado := RotarBlock(pid);
      if hallado {
        Toma(pid);
      }
    }

    method SacarDeSuspBlock(pid: Pid) returns (hallado: bool)
      modifies this
      ensures hallado <==> pid in old(suspBlock)
      ensures Estado() == if hallado then Sacar(old(Estado()), pid, SUSP_BLOCK) else old(Estado())
    {
      hallado := RotarSuspBlock(pid);
      if hallado {
        Toma(pid);
      }
    }

    method SacarDeSuspReady(pid: Pid) returns (hallado: bool)
      modifies this
      ensures hallado <==> pid in old(suspReady)
      ensures Estado() == if hallado then Sacar(old(Estado()), pid, SUSP_READY) else old(Estado())
    {
      hallado := RotarSuspReady(pid);
      if hallado {
        Toma(pid);
      }
    }

    method PasarABlock(pid: Pid)
      requires pid in procs
      modifies this
      ensures Estado() == Poner(old(Estado()), pid, BLOCK)
    {
      CambiarEstado(pid, BLOCK);
      PushBlock(pid);
      Suelta(pid);
    }

    method PasarASuspBlock(pid: Pid)
      requires pid in procs
      modifies this
      ensures Estado() == Poner(old(Estado()), pid, SUSP_BLOCK)
    {
      CambiarEstado(pid, SUSP_BLOCK);
      PushSuspBlock(pid);
      Suelta(pid);
    }

    method PasarASuspReady(pid: Pid)
      requires pid in procs
      modifies this
      ensures Estado() == Poner(old(Estado()), pid, SUSP_READY)
    {
      CambiarEstado(pid, SUSP_READY);
      PushSuspReady(pid);
      Suelta(pid);
    }

    /** The process is buried and Kernel Memory will be told; `debe`: the planner is told after that. */
    method Finalizar(pid: Pid, debe: bool)
      requires pid in procs
      modifies this
      ensures Estado() == Enterrar(old(Estado()), pid, debe)
    {
      CambiarEstado(pid, EXIT);
      PushExit(pid);
      Suelta(pid);
      Pedir(Avisando(pid, debe));
    }

    /** km_request returns. */
    method RecibirRespuesta(t: Tarea)
      modifies this
      ensures Estado() == Cerrar(old(Estado()), t)
    {
      OlvidarTarea(t);
      SoltarCanal();
    }

    method BuscarProcesoActivo(pid: Pid) returns (activo: bool)
      ensures activo <==> Activo(Estado(), pid)
      ensures activo <==> pid in exec || (exists i :: 0 <= i < |ready| && pid in ready[i]) || pid in block || pid in suspBlock || pid in suspReady
    {
      EnAlgunNivel(ready, pid);
      activo := BuscarPidEnQueue(exec, pid);
      if activo {
        return;
      }
      var i := 0;
      while i < |ready|
        invariant 0 <= i <= |ready|
        invariant forall k :: 0 <= k < i ==> pid !in ready[k]
      {
        var b := BuscarPidEnQueue(ready[i], pid);
        if b {
          ListosMiembro(ready, i, pid);
          return true;
        }
        i := i + 1;
      }
      if pid in Listos(ready) {
        ghost var k := EnQueNivel(ready, pid);
      }
      activo := BuscarPidEnQueue(block, pid);
      if activo {
        return;
      }
      activo := BuscarPidEnQueue(suspBlock, pid);
      if activo {
        return;
      }
      activo := BuscarPidEnQueue(suspReady, pid);
    }

    /** Takes the process out of the ready queue it is in, if any. */
    method SacarDeReady(pid: Pid) returns (estaba: bool)
      requires Formado(cfg, Estado()) && Veces(Listos(ready), pid) <= 1
      modifies this`ready
      ensures estaba <==> NivelDe(old(ready), pid).Some?
      ensures Estado() == old(Estado()).(ready := ready) && |ready| == |old(ready)|
      ensures match NivelDe(old(ready), pid)
        case None => ready == old(ready)
        case Some(k) => ready == old(ready)[k := Quitar(old(ready)[k], pid)]
    {
      estaba := false;
      var i := 0;
      while i < cfg.n && !estaba
        invariant 0 <= i <= cfg.n && |ready| == cfg.n
        invariant forall k :: 0 <= k < i && !estaba ==> pid !in ready[k]
        invariant !estaba ==> ready == old(ready) && NivelDe(ready, pid) != Some(i - 1)
        invariant estaba ==> i > 0 && NivelDe(old(ready), pid) == Some(i - 1) && ready == old(ready)[i - 1 := Quitar(old(ready)[i - 1], pid)]
      {
        if pid in ready[i] {
          NivelUnaVez(ready, i, pid);
        }
        PrimerNivelDe(ready, i, pid);
        var resto, b := RemoverElemento(ready[i], pid);
        if b {
          ready := ready[i := resto];
          estaba := true;
        }
        i := i + 1;
      }
    }

    /** A READY process also changes queue. */
    method AplicarCambioPrioridad(pid: Pid, nueva: int)
      requires pid in procs && Formado(cfg, Estado()) && Veces(Listos(ready), pid) <= 1
      modifies this`procs, this`ready
      ensures Estado() == AplicarPrioridad(cfg, old(Estado()), pid, nueva)
      ensures procs == old(procs)[pid := old(procs)[pid].(prioridad := nueva)] && |ready| == |old(ready)|
      ensures cfg.cmn && 0 <= nueva < cfg.n && nueva != old(procs)[pid].prioridad && pid in Listos(old(ready)) ==>
        forall i :: 0 <= i < |ready| ==> ready[i] == Quitar(old(ready)[i], pid) + if i == nueva then [pid] else []
      ensures !cfg.cmn || !(0 <= nueva < cfg.n) || nueva == old(procs)[pid].prioridad || pid !in Listos(old(ready)) ==> ready == old(ready)
    {
      hide Listos, NivelDe;
      MoverAlFinal(ready, pid, nueva);
      EnAlgunNivel(ready, pid);
      if procs[pid].prioridad == nueva {
        return;
      }
      if cfg.cmn && 0 <= nueva < cfg.n {
        var estaba := SacarDeReady(pid);
        FijarPrioridad(pid, nueva);
        if estaba {
          FijarReady(nueva, ready[nueva] + [pid]);
        }
      } else {
        FijarPrioridad(pid, nueva);
      }
    }

    method RecalcularPrioridadEfectiva(pid: Pid)
      requires Formado(cfg, Estado()) && Veces(Listos(ready), pid) <= 1
      modifies this`procs, this`ready
      ensures Estado() == Recalcular(cfg, old(Estado()), pid)
      ensures Activo(old(Estado()), pid) && pid in old(procs) ==>
        pid in procs && exists h :: EsHeredada(mutexes.lista, pid, h) && procs[pid].prioridad == Min(old(procs)[pid].base, h)
    {
      var activo := BuscarProcesoActivo(pid);
      if activo && pid in procs {
        var efectiva := procs[pid].base;
        var heredada := mutexes.PrioridadHeredada(pid);
        if heredada < efectiva {
          efectiva := heredada;
        }
        AplicarCambioPrioridad(pid, efectiva);
      }
    }

    method LockMutex(pid: Pid, prioridad: int, nombre: string) returns (codigo: int, owner: int)
      modifies mutexes
      ensures var l := LockEn(old(Estado()).mutexes, pid, prioridad, nombre);
              Estado() == old(Estado()).(mutexes := l.lista) && codigo == l.codigo && owner == l.ownerAElevar
    {
      var nueva;
      codigo, owner, nueva := mutexes.Lock(pid, prioridad, nombre);
    }

    method UnlockMutex(pid: Pid, nombre: string) returns (sucesor: int)
      modifies mutexes
      ensures var r := UnlockEn(old(Estado()).mutexes, pid, nombre);
              Estado() == old(Estado()).(mutexes := r.lista) && sucesor == r.sucesor
    {
      var anterior;
      sucesor, anterior := mutexes.Unlock(pid, nombre);
    }

    // -------------------------------------------------------------- messages of the CPUs

    /** DEVOLVER_PROCESO with EXIT, ERROR or SEG_FAULT, and MSG_SYSCALL_EXIT. */
    method AtenderFin(pid: Pid)
      requires Valido()
      modifies this
      ensures Valido() && Puede(cfg, old(Estado()), Termina(pid)) && Estado() == Despues(cfg, old(Estado()), Termina(pid))
      ensures pid in old(exec) ==> Pasa(cfg, old(Estado()), Estado(), pid, EXEC, EXIT, false) && tareas == old(tareas) + [Avisando(pid, true)]
      ensures pid !in old(exec) ==> Estado() == old(Estado())
    {
      hide Inv, Pasa, SacarExec, Enterrar;
      ghost var s := Estado();
      ConocidoEn(cfg, s, pid);
      PasoInv(cfg, s, Termina(pid));
      if pid in s.exec {
        LlevaFin(cfg, s, pid);
      }
      var hallado := SacarDeExec(pid);
      if hallado {
        SacarExecProcs(s, pid);
        Finalizar(pid, true);
      }
    }

    /** DEVOLVER_PROCESO with INTERRUPCION. */
    method AtenderInterrupcion(pid: Pid)
      requires Valido()
      modifies this
      ensures Valido() && Puede(cfg, old(Estado()), Interrumpe(pid)) && Estado() == Despues(cfg, old(Estado()), Interrumpe(pid))
      ensures pid in old(exec) ==> pid in old(procs) && pid in procs && !procs[pid].preemptado
      ensures pid in old(exec) ==> exec == Quitar(old(exec), pid) && block == old(block) && suspBlock == old(suspBlock) && suspReady == old(suspReady) && exit == old(exit)
      ensures pid in old(exec) ==>
        var i := Nivel(cfg, old(procs)[pid].prioridad);
        && 0 <= i < |old(ready)|
        && ready == old(ready)[i := if old(procs)[pid].preemptado then [pid] + old(ready)[i] else old(ready)[i] + [pid]]
      ensures pid !in old(exec) ==> Estado() == old(Estado())
    {
      hide Inv, Pasa, SacarExec, Encolar, PonerReady;
      ghost var s := Estado();
      ConocidoEn(cfg, s, pid);
      PasoInv(cfg, s, Interrumpe(pid));
      if pid in s.exec {
        LlevaInterrupcion(cfg, s, pid);
        AlReves(cfg, s, Despues(cfg, s, Interrumpe(pid)), pid, s.procs[pid].preemptado);
      }
      var hallado := SacarDeExec(pid);
      if hallado {
        SacarExecProcs(s, pid);
        if procs[pid].preemptado {
          FijarMarca(pid, false);
          EncolarAlFrenteEnReady(pid);
        } else {
          EncolarEnReady(pid);
        }
      }
    }

    /** DEVOLVER_PROCESO with SYSCALL. */
    method AtenderSyscall(pid: Pid)
      requires Valido()
      modifies this
      ensures Valido() && Puede(cfg, old(Estado()), Vuelve(pid)) && Estado() == Despues(cfg, old(Estado()), Vuelve(pid))
      ensures pid in old(exec) ==> Pasa(cfg, old(Estado()), Estado(), pid, EXEC, READY, false)
      ensures pid !in old(exec) ==> Estado() == old(Estado())
    {
      hide Inv, Pasa, SacarExec, Encolar;
      ghost var s := Estado();
      ConocidoEn(cfg, s, pid);
      PasoInv(cfg, s, Vuelve(pid));
      if pid in s.exec {
        LlevaSyscall(cfg, s, pid);
      }
      var hallado := SacarDeExec(pid);
      if hallado {
        SacarExecProcs(s, pid);
        FijarMarca(pid, false);
        EncolarEnReady(pid);
      }
    }

    /** SLEEP, STDOUT and STDIN. */
    method AtenderBloqueo(pid: Pid, inicio: Inicio)
      requires Valido()
      modifies this
      ensures Valido() && Puede(cfg, old(Estado()), Bloquea(pid, inicio)) && Estado() == Despues(cfg, old(Estado()), Bloquea(pid, inicio))
      ensures pid in old(exec) ==> Pasa(cfg, old(Estado()), Estado(), pid, EXEC, if inicio == SinInterfaz then EXIT else BLOCK, false)
      ensures pid in old(exec) ==>
        tareas == old(tareas) + if inicio == ConLectura then [Leyendo(pid)] else if inicio == SinInterfaz then [Avisando(pid, false)] else []
      ensures pid !in old(exec) ==> Estado() == old(Estado())
    {
      hide Inv, Pasa, SacarExec, Enterrar, PonerBlock, Sacar;
      ghost var s := Estado();
      ConocidoEn(cfg, s, pid);
      PasoInv(cfg, s, Bloquea(pid, inicio));
      if pid in s.exec {
        LlevaBloqueo(cfg, s, pid, inicio);
      }
      var hallado := SacarDeExec(pid);
      if hallado {
        SacarExecProcs(s, pid);
        MoverABlock(pid);
        PonerBlockEs(SacarExec(s, pid), pid);
        if inicio == ConLectura {
          Pedir(Leyendo(pid));
        } else if inicio == SinInterfaz {
          var bloqueado := SacarDeBlock(pid);
          if bloqueado {
            SacarProcs(PonerBlock(SacarExec(s, pid), pid), pid, BLOCK);
            Finalizar(pid, false);
          }
        }
      }
    }

    /** MEM_ALLOC and MEM_FREE. */
    method AtenderMemoria(pid: Pid, alloc: bool)
      requires Valido()
      modifies this
      ensures Valido() && Puede(cfg, old(Estado()), MemPide(pid, alloc)) && Estado() == Despues(cfg, old(Estado()), MemPide(pid, alloc))
      ensures pid in old(exec) ==> Pasa(cfg, old(Estado()), Estado(), pid, EXEC, NEW, false) && tareas == old(tareas) + [if alloc then Alloc(pid) else Free(pid)]
      ensures pid !in old(exec) ==> Estado() == old(Estado())
    {
      hide Inv, Pasa, SacarExecMem;
      ghost var s := Estado();
      ConocidoEn(cfg, s, pid);
      PasoInv(cfg, s, MemPide(pid, alloc));
      if pid in s.exec {
        LlevaMemoria(cfg, s, pid, alloc);
      }
      var hallado := SacarProcDeExecParaMem(pid);
      if hallado {
        Pedir(if alloc then Alloc(pid) else Free(pid));
      }
    }

    method AtenderMutexCreate(pid: Pid, nombre: string)
      requires Valido()
      modifies mutexes
      ensures Valido() && Puede(cfg, old(Estado()), MutexCrea(pid, nombre)) && Estado() == Despues(cfg, old(Estado()), MutexCrea(pid, nombre))
    {
      hide Inv;
      ghost var s := Estado();
      ConocidoEn(cfg, s, 0);
      PasoInv(cfg, s, MutexCrea(pid, nombre));
      var r := mutexes.Create(nombre);
    }

    method AtenderMutexLock(pid: Pid, nombre: string)
      requires Valido()
      modifies this, mutexes
      ensures Valido() && Puede(cfg, old(Estado()), MutexLock(pid, nombre)) && Estado() == Despues(cfg, old(Estado()), MutexLock(pid, nombre))
      ensures pid in old(exec) ==> PideMutex(cfg, old(Estado()), Estado(), pid, nombre)
      ensures pid !in old(exec) ==> Estado() == old(Estado())
    {
      hide Inv, PideMutex, SacarExec, Encolar, Recalcular, PonerBlock, Enterrar, LockEn;
      ghost var s := Estado();
      ConocidoEn(cfg, s, pid);
      PasoInv(cfg, s, MutexLock(pid, nombre));
      if pid in s.exec {
        LlevaLock(cfg, s, pid, nombre);
      }
      var hallado := SacarDeExec(pid);
      if hallado {
        SacarExecProcs(s, pid);
        ghost var l := LockEn(s.mutexes, pid, s.procs[pid].prioridad, nombre);
        ghost var t := Desmarcar(SacarExec(s, pid), pid).(mutexes := l.lista);
        var codigo, owner := LockMutex(pid, procs[pid].prioridad, nombre);
        FijarMarca(pid, false);
        assert Estado() == t;
        if codigo == 0 {
          EncolarEnReady(pid);
        } else if codigo == 1 {
          if 0 <= owner <= INT_MAX {
            Conocidos(cfg, s);
            RecalcularPrioridadEfectiva(owner);
          }
          RecalcularNegativo(cfg, t, owner);
          RecalcularMarco(cfg, t, owner);
          MoverABlock(pid);
        } else {
          Finalizar(pid, true);
        }
      }
    }

    /** The mutex changes hands and both owners' priorities are recalculated. */
    method SoltarMutex(pid: Pid, nombre: string) returns (sucesor: int)
      requires Valido()
      modifies this, mutexes
      ensures Estado() == Soltando(cfg, old(Estado()), pid, nombre) && sucesor == UnlockEn(old(Estado()).mutexes, pid, nombre).sucesor
    {
      hide Inv, Recalcular, UnlockEn;
      ghost var s := Estado();
      ConocidoEn(cfg, s, pid);
      sucesor := UnlockMutex(pid, nombre);
      ghost var m := Estado();
      RecalcularUnaVez(cfg, s, m.mutexes, pid);
      RecalcularPrioridadEfectiva(pid);
      ghost var u := Recalcular(cfg, m, pid);
      if 0 <= sucesor <= INT_MAX {
        RecalcularPrioridadEfectiva(sucesor);
      }
      RecalcularNegativo(cfg, u, sucesor);
    }

    method AtenderMutexUnlock(pid: Pid, nombre: string)
      requires Valido()
      modifies this, mutexes
      ensures Valido() && Puede(cfg, old(Estado()), MutexUnlock(pid, nombre)) && Estado() == Despues(cfg, old(Estado()), MutexUnlock(pid, nombre))
      ensures var h := Heredero(old(Estado()), pid, nombre);
        h.Some? && h.value in old(block) ==>
          && h.value !in block && h.value in procs && procs[h.value].estado == READY
          && var i := Nivel(cfg, procs[h.value].prioridad); 0 <= i < |ready| && ready[i] != [] && ready[i][|ready[i]| - 1] == h.value
      ensures var h := Heredero(old(Estado()), pid, nombre);
        h.None? || (h.value !in old(block) && h.value !in old(suspBlock)) ==> block == old(block) && suspBlock == old(suspBlock) && suspReady == old(suspReady)
    {
      hide Inv, Heredero, Soltando, UnlockEn, Despertado;
      ghost var s := Estado();
      ConocidoEn(cfg, s, pid);
      PasoInv(cfg, s, MutexUnlock(pid, nombre));
      LlevaUnlock(cfg, s, pid, nombre);
      SoltandoFormado(cfg, s, pid, nombre);
      SoltandoColas(cfg, s, pid, nombre);
      var sucesor := SoltarMutex(pid, nombre);
      if 0 <= sucesor <= INT_MAX {
        ConocidoEn(cfg, s, sucesor);
        Despertar(sucesor);
      }
    }

    /** BLOCK to READY, or SUSP_BLOCK to SUSP_READY. */
    method Despertar(pid: Pid)
      requires Formado(cfg, Estado()) && (pid in block || pid in suspBlock ==> pid in procs)
      modifies this
      ensures Estado() == Despertado(cfg, old(Estado()), pid)
    {
      var bloqueado := SacarDeBlock(pid);
      if bloqueado {
        EncolarEnReady(pid);
        return;
      }
      var suspendido := SacarDeSuspBlock(pid);
      if suspendido {
        PasarASuspReady(pid);
      }
    }

    // -------------------------------------------------------------- IO, suspension, creation

    /** MSG_IO_FIN; `sinDatos`: the process waited for STDIN bytes that did not come. */
    method AtenderIoFin(pid: Pid, sinDatos: bool)
      requires Valido()
      modifies this
      ensures Valido() && Puede(cfg, old(Estado()), IoFin(pid, sinDatos)) && Estado() == Despues(cfg, old(Estado()), IoFin(pid, sinDatos))
      ensures sinDatos && (pid in old(block) || pid in old(suspBlock)) ==>
        Pasa(cfg, old(Estado()), Estado(), pid, if pid in old(block) then BLOCK else SUSP_BLOCK, EXIT, false) && tareas == old(tareas) + [Avisando(pid, false)]
      ensures !sinDatos && pid in old(block) ==> Pasa(cfg, old(Estado()), Estado(), pid, BLOCK, READY, false)
      ensures !sinDatos && pid !in old(block) && pid in old(suspBlock) ==> Pasa(cfg, old(Estado()), Estado(), pid, SUSP_BLOCK, SUSP_READY, false)
      ensures pid !in old(block) && pid !in old(suspBlock) ==> Estado() == old(Estado())
    {
      hide Inv, Pasa, Despertado, Malogrado;
      ghost var s := Estado();
      ConocidoEn(cfg, s, pid);
      PasoInv(cfg, s, IoFin(pid, sinDatos));
      if pid in s.block || pid in s.suspBlock {
        LlevaIo(cfg, s, IoFin(pid, sinDatos), pid, sinDatos);
      }
      NadieEspera(cfg, s, pid);
      if sinDatos {
        Malograr(pid);
      } else {
        Despertar(pid);
      }
    }

    method Malograr(pid: Pid)
      requires pid in block || pid in suspBlock ==> pid in procs
      modifies this
      ensures Estado() == Malogrado(old(Estado()), pid)
    {
      hide Enterrar;
      var hallado := SacarDeBlock(pid);
      if !hallado {
        hallado := SacarDeSuspBlock(pid);
      }
      if hallado {
        Finalizar(pid, false);
      }
    }

    /** MSG_IO_STDIN_DATOS. */
    method AtenderStdinDatos(pid: Pid, validos: bool, vacio: bool)
      requires Valido()
      modifies this
      ensures Valido() && Puede(cfg, old(Estado()), StdinDatos(pid, validos, vacio))
      ensures Estado() == Despues(cfg, old(Estado()), StdinDatos(pid, validos, vacio))
      ensures validos && !vacio && pid in old(block) ==> tareas == old(tareas) + [Escribiendo(pid)] && block == Quitar(old(block), pid) && ready == old(ready)
      ensures validos && !vacio && pid in old(block) ==> pid !in block && forall i :: 0 <= i < |ready| ==> pid !in ready[i]
      ensures !validos && (pid in old(block) || pid in old(suspBlock)) ==>
        Pasa(cfg, old(Estado()), Estado(), pid, if pid in old(block) then BLOCK else SUSP_BLOCK, EXIT, false) && tareas == old(tareas) + [Avisando(pid, false)]
      ensures validos && vacio && pid in old(block) ==> Pasa(cfg, old(Estado()), Estado(), pid, BLOCK, READY, false)
      ensures validos && pid !in old(block) && pid in old(suspBlock) ==> Pasa(cfg, old(Estado()), Estado(), pid, SUSP_BLOCK, SUSP_READY, false)
      ensures pid !in old(block) && pid !in old(suspBlock) ==> Estado() == old(Estado())
    {
      hide Inv, Pasa, Despertado, Malogrado, Sacar;
      ghost var s := Estado();
      ConocidoEn(cfg, s, pid);
      PasoInv(cfg, s, StdinDatos(pid, validos, vacio));
      if validos && !vacio && pid in s.block {
        DatosDeBlock(cfg, s, pid);
      } else if pid in s.block || pid in s.suspBlock {
        LlevaIo(cfg, s, StdinDatos(pid, validos, vacio), pid, !validos);
      }
      NadieEspera(cfg, s, pid);
      if !validos {
        Malograr(pid);
        return;
      }
      if !vacio {
        var hallado := SacarDeBlock(pid);
        if hallado {
          Pedir(Escribiendo(pid));
          return;
        }
      }
      Despertar(pid);
    }

    /** The suspension timer of a blocked process. */
    method IniciarSuspension(pid: Pid)
      requires Valido() && pid in block
      modifies this
      ensures Valido() && Puede(cfg, old(Estado()), SuspenderInicio(pid)) && Estado() == Despues(cfg, old(Estado()), SuspenderInicio(pid))
      ensures Pasa(cfg, old(Estado()), Estado(), pid, BLOCK, NEW, false) && tareas == old(tareas) + [Suspendiendo(pid)]
    {
      hide Inv, Pasa, Sacar;
      ghost var s := Estado();
      ConocidoEn(cfg, s, pid);
      PasoInv(cfg, s, SuspenderInicio(pid));
      LlevaEspera(cfg, s, SuspenderInicio(pid), pid);
      var hallado := SacarDeBlock(pid);
      Pedir(Suspendiendo(pid));
    }

    method TerminarSuspension(pid: Pid, ok: bool)
      requires Valido() && canal == Some(Suspendiendo(pid))
      modifies this
      ensures Valido() && Puede(cfg, old(Estado()), SuspenderFin(pid, ok)) && Estado() == Despues(cfg, old(Estado()), SuspenderFin(pid, ok))
      ensures Pasa(cfg, old(Estado()), Estado(), pid, NEW, if ok then SUSP_BLOCK else BLOCK, false) && tareas == QuitarTarea(old(tareas), Suspendiendo(pid))
    {
      hide Inv, Pasa, Poner;
      ghost var s := Estado();
      Titulares(cfg, s, Suspendiendo(pid));
      PasoInv(cfg, s, SuspenderFin(pid, ok));
      LlevaRespuesta(cfg, s, SuspenderFin(pid, ok));
      RecibirRespuesta(Suspendiendo(pid));
      if ok {
        PasarASuspBlock(pid);
      } else {
        PasarABlock(pid);
      }
    }

    /** One candidate of the long-term worker. */
    method IniciarDesuspension(pid: Pid)
      requires Valido() && pid in suspReady
      modifies this
      ensures Valido() && Puede(cfg, old(Estado()), DesuspenderInicio(pid)) && Estado() == Despues(cfg, old(Estado()), DesuspenderInicio(pid))
      ensures Pasa(cfg, old(Estado()), Estado(), pid, SUSP_READY, NEW, false) && tareas == old(tareas) + [Desuspendiendo(pid)]
    {
      hide Inv, Pasa, Sacar;
      ghost var s := Estado();
      ConocidoEn(cfg, s, pid);
      PasoInv(cfg, s, DesuspenderInicio(pid));
      LlevaEspera(cfg, s, DesuspenderInicio(pid), pid);
      var hallado := SacarDeSuspReady(pid);
      Pedir(Desuspendiendo(pid));
    }

    method TerminarDesuspension(pid: Pid, regreso: Regreso)
      requires Valido() && canal == Some(Desuspendiendo(pid))
      modifies this
      ensures Valido() && Puede(cfg, old(Estado()), DesuspenderFin(pid, regreso))
      ensures Estado() == Despues(cfg, old(Estado()), DesuspenderFin(pid, regreso))
      ensures match regreso
        case Listo => Pasa(cfg, old(Estado()), Estado(), pid, NEW, READY, false) && tareas == QuitarTarea(old(tareas), Desuspendiendo(pid))
        case PorEscribir => Pasa(cfg, old(Estado()), Estado(), pid, NEW, NEW, false) && tareas == QuitarTarea(old(tareas), Desuspendiendo(pid)) + [Escribiendo(pid)]
        case Inservible => Pasa(cfg, old(Estado()), Estado(), pid, NEW, EXIT, false) && tareas == QuitarTarea(old(tareas), Desuspendiendo(pid)) + [Avisando(pid, false)]
        case NoCabe => Pasa(cfg, old(Estado()), Estado(), pid, NEW, SUSP_READY, false) && tareas == QuitarTarea(old(tareas), Desuspendiendo(pid))
    {
      hide Inv, Pasa, Poner, Encolar, Enterrar, Abrir;
      ghost var s := Estado();
      Titulares(cfg, s, Desuspendiendo(pid));
      PasoInv(cfg, s, DesuspenderFin(pid, regreso));
      LlevaRegreso(cfg, s, pid, regreso);
      RecibirRespuesta(Desuspendiendo(pid));
      match regreso
      case Listo => EncolarEnReady(pid);
      case PorEscribir => Pedir(Escribiendo(pid));
      case Inservible => Finalizar(pid, false);
      case NoCabe => PasarASuspReady(pid);
    }

    /** The bytes of STDIN have been written, or refused. */
    method TerminarEscritura(pid: Pid, ok: bool)
      requires Valido() && canal == Some(Escribiendo(pid))
      modifies this
      ensures Valido() && Puede(cfg, old(Estado()), StdinFin(pid, ok)) && Estado() == Despues(cfg, old(Estado()), StdinFin(pid, ok))
      ensures Pasa(cfg, old(Estado()), Estado(), pid, NEW, if ok then READY else EXIT, false)
      ensures tareas == QuitarTarea(old(tareas), Escribiendo(pid)) + if ok then [] else [Avisando(pid, false)]
    {
      hide Inv, Pasa, Encolar, Enterrar;
      ghost var s := Estado();
      Titulares(cfg, s, Escribiendo(pid));
      PasoInv(cfg, s, StdinFin(pid, ok));
      LlevaRespuesta(cfg, s, StdinFin(pid, ok));
      RecibirRespuesta(Escribiendo(pid));
      if ok {
        EncolarEnReady(pid);
      } else {
        Finalizar(pid, false);
      }
    }

    /** The bytes for STDOUT have been read, or not. */
    method TerminarLectura(pid: Pid, ok: bool)
      requires Valido() && canal == Some(Leyendo(pid))
      modifies this
      ensures Valido() && Puede(cfg, old(Estado()), LecturaFin(pid, ok)) && Estado() == Despues(cfg, old(Estado()), LecturaFin(pid, ok))
      ensures !ok && pid in old(block) ==> Pasa(cfg, old(Estado()), Estado(), pid, BLOCK, EXIT, false)
      ensures ok || pid !in old(block) ==> block == old(block) && ready == old(ready) && exec == old(exec) && exit == old(exit)
    {
      hide Inv, Pasa, Sacar, Enterrar;
      ghost var s := Estado();
      ConocidoEn(cfg, s, pid);
      PasoInv(cfg, s, LecturaFin(pid, ok));
      if !ok && pid in s.block {
        LlevaLectura(cfg, s, pid);
      }
      RecibirRespuesta(Leyendo(pid));
      if !ok {
        var bloqueado := SacarDeBlock(pid);
        if bloqueado {
          SacarProcs(Cerrar(s, Leyendo(pid)), pid, BLOCK);
          Finalizar(pid, false);
        }
      }
    }

    method IniciarCreacion(padre: Pid, prioridad: int)
      requires Valido() && proximo <= INT_MAX && Engendra(Estado(), padre, prioridad) && (cfg.cmn ==> 0 <= prioridad < cfg.n)
      modifies this
      ensures Valido() && Puede(cfg, old(Estado()), CrearInicio(padre, prioridad)) && Estado() == Despues(cfg, old(Estado()), CrearInicio(padre, prioridad))
    {
      hide Inv;
      ghost var s := Estado();
      ConocidoEn(cfg, s, 0);
      PasoInv(cfg, s, CrearInicio(padre, prioridad));
      var pid := TomarPid();
      AltaProceso(pid, Proceso(NEW, prioridad, prioridad, -1, false));
      Toma(pid);
      Pedir(Creando(pid));
    }

    method TomarPid() returns (pid: Pid)
      requires proximo <= INT_MAX
      modifies this`proximo
      ensures pid == old(proximo) && Estado() == old(Estado()).(proximo := old(proximo) + 1)
    {
      pid := proximo;
      proximo := proximo + 1;
    }

    method AltaProceso(pid: Pid, proc: Proceso)
      modifies this`procs
      ensures Estado() == old(Estado()).(procs := old(procs)[pid := proc])
    {
      procs := procs[pid := proc];
    }

    method BajaProceso(pid: Pid)
      modifies this`procs
      ensures Estado() == old(Estado()).(procs := old(procs) - {pid})
    {
      procs := procs - {pid};
    }

    method TerminarCreacion(pid: Pid, ok: bool)
      requires Valido() && canal == Some(Creando(pid))
      modifies this
      ensures Valido() && Puede(cfg, old(Estado()), CrearFin(pid, ok)) && Estado() == Despues(cfg, old(Estado()), CrearFin(pid, ok))
      ensures ok ==> Pasa(cfg, old(Estado()), Estado(), pid, NEW, READY, false)
      ensures !ok ==> pid !in procs && ready == old(ready)
    {
      hide Inv, Pasa, Encolar;
      ghost var s := Estado();
      Titulares(cfg, s, Creando(pid));
      PasoInv(cfg, s, CrearFin(pid, ok));
      if ok {
        LlevaRespuesta(cfg, s, CrearFin(pid, ok));
      }
      RecibirRespuesta(Creando(pid));
      if ok {
        EncolarEnReady(pid);
      } else {
        BajaProceso(pid);
        Suelta(pid);
      }
    }

    // -------------------------------------------------------------- memory syscalls

    method RedespacharAMismaCpu(pid: Pid)
      modifies this
      ensures Estado() == Redespachar(old(Estado()), pid)
    {
      PushExec(pid);
      Suelta(pid);
    }

    method FinalizarPorErrorMem(pid: Pid)
      requires pid in procs
      modifies this
      ensures Estado() == Enterrar(SoltarCpu(old(Estado()), pid), pid, true)
    {
      hide Enterrar;
      var fd := procs[pid].fd;
      FijarCpu(pid, -1);
      LiberarCpu(fd);
      Finalizar(pid, true);
    }

    /** manejar_mem_alloc once Kernel Memory has answered. */
    method TerminarAlloc(pid: Pid, ok: bool)
      requires Valido() && canal == Some(Alloc(pid)) && pedida == None && !fase.Marcada?
      modifies this
      ensures Valido() && Puede(cfg, old(Estado()), AllocFin(pid, ok)) && Estado() == Despues(cfg, old(Estado()), AllocFin(pid, ok))
      ensures Pasa(cfg, old(Estado()), Estado(), pid, NEW, if ok then EXEC else EXIT, false)
      ensures tareas == QuitarTarea(old(tareas), Alloc(pid)) + if ok then [] else [Avisando(pid, true)]
    {
      hide Inv, Pasa, Enterrar, SoltarCpu, Redespachar;
      ghost var s := Estado();
      Titulares(cfg, s, Alloc(pid));
      PasoInv(cfg, s, AllocFin(pid, ok));
      LlevaRespuesta(cfg, s, AllocFin(pid, ok));
      FijarFase(if fase.FinEnviado? then Respondida else fase);
      RecibirRespuesta(Alloc(pid));
      if ok {
        RedespacharAMismaCpu(pid);
      } else {
        FinalizarPorErrorMem(pid);
      }
    }

    method TerminarFree(pid: Pid)
      requires Valido() && canal == Some(Free(pid))
      modifies this
      ensures Valido() && Puede(cfg, old(Estado()), FreeFin(pid)) && Estado() == Despues(cfg, old(Estado()), FreeFin(pid))
      ensures Pasa(cfg, old(Estado()), Estado(), pid, NEW, EXEC, false) && tareas == QuitarTarea(old(tareas), Free(pid))
    {
      hide Inv, Pasa, Redespachar, Cerrar;
      ghost var s := Estado();
      Titulares(cfg, s, Free(pid));
      PasoInv(cfg, s, FreeFin(pid));
      LlevaFree(cfg, s, pid);
      RecibirRespuesta(Free(pid));
      RedespacharAMismaCpu(pid);
    }

    /** avisar_km_finalizacion, and the post that follows it in most handlers. */
    method TerminarAviso(pid: Pid, debe: bool)
      requires Valido() && canal == Some(Avisando(pid, debe))
      modifies this
      ensures Valido() && Puede(cfg, old(Estado()), AvisoFin(pid, debe)) && Estado() == Despues(cfg, old(Estado()), AvisoFin(pid, debe))
    {
      hide Inv;
      ghost var s := Estado();
      ConocidoEn(cfg, s, pid);
      PasoInv(cfg, s, AvisoFin(pid, debe));
      RecibirRespuesta(Avisando(pid, debe));
      if debe {
        PostCpuDisponible();
      }
    }

    /** mutex_km_req: the next request goes out. */
    method TomarConexion(t: Tarea)
      requires Valido() && canal == None && t in tareas
      modifies this
      ensures Valido() && Puede(cfg, old(Estado()), TomarCanal(t)) && Estado() == Despues(cfg, old(Estado()), TomarCanal(t))
    {
      hide Inv;
      ghost var s := Estado();
      ConocidoEn(cfg, s, 0);
      PasoInv(cfg, s, TomarCanal(t));
      canal := Some(t);
    }

    // -------------------------------------------------------------- the planner and the CPUs

    /** sem_wait(&sem_cpu_disponible) returns. */
    method TomarToken()
      requires Valido() && tokens > 0 && !plan
      modifies this
      ensures Valido() && Puede(cfg, old(Estado()), PlanToma) && Estado() == Despues(cfg, old(Estado()), PlanToma)
    {
      hide Inv;
      ghost var s := Estado();
      ConocidoEn(cfg, s, 0);
      PasoInv(cfg, s, PlanToma);
      tokens := tokens - 1;
      plan := true;
    }

    method TerminarPasada()
      modifies this`plan
      ensures Estado() == old(Estado()).(plan := false)
    {
      plan := false;
    }

    /** despachar, with the CPU reserved first. */
    method DespacharEn(pid: Pid, k: nat)
      requires pid in procs && k < |cpus|
      modifies this
      ensures var s := old(Estado());
              Estado() == s.(cpus := s.cpus[k := CpuEntry(s.cpus[k].fd, true)], exec := s.exec + [pid],
                             procs := s.procs[pid := s.procs[pid].(estado := EXEC, fd := s.cpus[k].fd)])
    {
      ghost var s := Estado();
      OcuparCpu(k);
      CambiarEstado(pid, EXEC);
      FijarCpu(pid, cpus[k].fd);
      assert procs == s.procs[pid := s.procs[pid].(estado := EXEC, fd := s.cpus[k].fd)];
      PushExec(pid);
    }

    /** The planner's pass: the front of the first non-empty queue goes to the first free CPU, or back where it was. */
    method Planificar()
      requires Valido() && plan && fase == Normal
      modifies this
      ensures Valido() && Puede(cfg, old(Estado()), PlanPasa) && Estado() == Despues(cfg, old(Estado()), PlanPasa)
      ensures if PrimerNivel(old(ready)).Some? && PrimeraLibre(old(cpus)).Some? then
          var i, k := PrimerNivel(old(ready)).value, PrimeraLibre(old(cpus)).value;
          var p := old(ready)[i][0];
          && ready == old(ready)[i := old(ready)[i][1..]] && exec == old(exec) + [p]
          && p in procs && procs[p].estado == EXEC && procs[p].fd == old(cpus)[k].fd && cpus == old(cpus)[k := CpuEntry(old(cpus)[k].fd, true)]
        else ready == old(ready) && exec == old(exec) && cpus == old(cpus) && procs == old(procs)
    {
      hide Inv;
      ghost var s := Estado();
      ConocidoEn(cfg, s, 0);
      PasoInv(cfg, s, PlanPasa);
      TerminarPasada();
      var nivel := ElegirNivel();
      if nivel.None? {
        return;
      }
      var i := nivel.value;
      var pid := ready[i][0];
      ListosMiembro(s.ready, i, pid);
      ConocidoEn(cfg, s, pid);
      FijarReady(i, ready[i][1..]);
      var cpu := BuscarCpuLibre();
      if cpu.Some? {
        DespacharEn(pid, cpu.value);
      } else {
        FijarReady(i, [pid] + ready[i]);
        assert s.ready[i] == [pid] + s.ready[i][1..];
        assert s.ready[i := s.ready[i][1..]][i := s.ready[i]] == s.ready;
      }
    }

    method ConectarCpu(fd: int)
      requires Valido() && fd >= 0 && Arrancado(Estado()) && forall i :: 0 <= i < |cpus| ==> cpus[i].fd != fd
      modifies this
      ensures Valido() && Puede(cfg, old(Estado()), KsPasos.ConectarCpu(fd)) && Estado() == Despues(cfg, old(Estado()), KsPasos.ConectarCpu(fd))
    {
      hide Inv;
      ghost var s := Estado();
      ConocidoEn(cfg, s, 0);
      PasoInv(cfg, s, KsPasos.ConectarCpu(fd));
      cpus := cpus + [CpuEntry(fd, false)];
      PostCpuDisponible();
    }

    method QuitarCpu(fd: int)
      modifies this`cpus
      ensures Estado() == old(Estado()).(cpus := SinCpu(old(cpus), fd))
    {
      var i := 0;
      while i < |cpus|
        invariant 0 <= i <= |cpus| && cpus == old(cpus)
        invariant forall k :: 0 <= k < i ==> cpus[k].fd != fd
      {
        if cpus[i].fd == fd {
          LiberarPasa(cpus, i, fd);
          cpus := cpus[..i] + cpus[i + 1..];
          return;
        }
        i := i + 1;
      }
      LiberarNadie(cpus, fd);
    }

    method BuscarHuerfano(fd: int) returns (r: Option<Pid>)
      ensures r == Huerfano(procs, exec, fd)
    {
      var i := 0;
      while i < |exec|
        invariant 0 <= i <= |exec|
        invariant Huerfano(procs, exec[i..], fd) == Huerfano(procs, exec, fd)
      {
        assert exec[i..][0] == exec[i] && exec[i..][1..] == exec[i + 1..];
        if exec[i] in procs && procs[exec[i]].fd == fd {
          return Some(exec[i]);
        }
        i := i + 1;
      }
      assert exec[i..] == [];
      r := None;
    }

    method Rescatar(pid: Pid)
      requires pid in procs && pid in exec
      modifies this
      ensures var t := SacarExecMem(old(Estado()), pid); Estado() == t.(procs := t.procs[pid := t.procs[pid].(fd := -1)])
    {
      var b := SacarProcDeExecParaMem(pid);
      FijarCpu(pid, -1);
    }

    /** A CPU is gone; whoever ran on it goes back to READY. */
    method DesconectarCpu(fd: int)
      requires Valido() && fd >= 0 && forall p :: p in procs && procs[p].fd == fd ==> p in exec
      modifies this
      ensures Valido() && Puede(cfg, old(Estado()), KsPasos.DesconectarCpu(fd)) && Estado() == Despues(cfg, old(Estado()), KsPasos.DesconectarCpu(fd))
      ensures match Huerfano(old(procs), old(exec), fd)
        case None => exec == old(exec) && ready == old(ready) && procs == old(procs)
        case Some(p) => Pasa(cfg, old(Estado()), Estado(), p, EXEC, READY, false)
    {
      hide Inv, Pasa, Encolar, SacarExecMem, Rescatado;
      ghost var s := Estado();
      ConocidoEn(cfg, s, 0);
      PasoInv(cfg, s, KsPasos.DesconectarCpu(fd));
      if Huerfano(s.procs, s.exec, fd).Some? {
        LlevaCpu(cfg, s, fd, Huerfano(s.procs, s.exec, fd).value);
      }
      QuitarCpu(fd);
      var huerfano := BuscarHuerfano(fd);
      if huerfano.Some? {
        Rescatar(huerfano.value);
        RescatadoEs(s, huerfano.value, fd);
        EncolarEnReady(huerfano.value);
      }
    }

    // -------------------------------------------------------------- handle_compactar

    /** COMPACTAR has arrived. */
    method RecibirCompactar(pid: Pid)
      requires Valido() && canal == Some(Alloc(pid)) && pedida == None && (fase == Normal || fase == Respondida)
      modifies this
      ensures Valido() && Puede(cfg, old(Estado()), Compactar(pid)) && Estado() == Despues(cfg, old(Estado()), Compactar(pid))
    {
      hide Inv;
      ghost var s := Estado();
      ConocidoEn(cfg, s, 0);
      PasoInv(cfg, s, Compactar(pid));
      pedida := Some(pid);
    }

    method OlvidarPedida()
      modifies this`pedida
      ensures Estado() == old(Estado()).(pedida := None)
    {
      pedida := None;
    }

    /** The gate is taken and every running process is told to stop. */
    method InterrumpirCpus()
      requires Valido() && pedida.Some? && fase == Normal
      modifies this
      ensures Valido() && Puede(cfg, old(Estado()), Marca) && Estado() == Despues(cfg, old(Estado()), Marca)
      ensures procs.Keys == old(procs).Keys && exec == old(exec)
      ensures forall r :: r in procs ==> procs[r] == old(procs)[r].(preemptado := r in exec || old(procs)[r].preemptado)
    {
      hide Inv;
      ghost var s := Estado();
      Conocidos(cfg, s);
      ConocidoEn(cfg, s, 0);
      PasoInv(cfg, s, Marca);
      FijarFase(Marcada(pedida.value, |exec|, |exec|, devueltas));
      OlvidarPedida();
      MarcarEnExec();
    }

    method MarcarEnExec()
      modifies this`procs
      ensures Estado() == old(Estado()).(procs := MarcarTodos(old(procs), old(exec)))
    {
      var i := 0;
      assert MarcarTodos(procs, exec[..0]) == procs;
      while i < |exec|
        invariant 0 <= i <= |exec|
        invariant procs == MarcarTodos(old(procs), exec[..i])
      {
        if exec[i] in procs {
          procs := procs[exec[i] := procs[exec[i]].(preemptado := true)];
        }
        assert exec[..i + 1] == exec[..i] + [exec[i]];
        i := i + 1;
        assert procs == MarcarTodos(old(procs), exec[..i]);
      }
      assert exec[..i] == exec;
    }

    /** One sem_wait(&sem_cpus_devueltas). */
    method EsperarDevuelta()
      requires Valido() && fase.Marcada? && fase.faltan > 0 && devueltas > 0
      modifies this
      ensures Valido() && Puede(cfg, old(Estado()), Recoge) && Estado() == Despues(cfg, old(Estado()), Recoge)
    {
      hide Inv;
      ghost var s := Estado();
      ConocidoEn(cfg, s, 0);
      PasoInv(cfg, s, Recoge);
      devueltas := devueltas - 1;
      fase := fase.(faltan := fase.faltan - 1);
    }

    method EnviarFinCompactacion()
      requires Valido() && fase.Marcada? && fase.faltan == 0
      modifies this
      ensures Valido() && Puede(cfg, old(Estado()), EnviaFin) && Estado() == Despues(cfg, old(Estado()), EnviaFin)
    {
      hide Inv;
      ghost var s := Estado();
      ConocidoEn(cfg, s, 0);
      PasoInv(cfg, s, EnviaFin);
      FijarFase(FinEnviado(fase.pid, fase.sobrantes));
    }

    method ReanudarPlanificador()
      requires Valido() && fase == Respondida
      modifies this
      ensures Valido() && Puede(cfg, old(Estado()), Reanuda) && Estado() == Despues(cfg, old(Estado()), Reanuda)
    {
      hide Inv;
      ghost var s := Estado();
      ConocidoEn(cfg, s, 0);
      PasoInv(cfg, s, Reanuda);
      FijarFase(Normal);
      PostCpuDisponible();
    }
  }

  lemma {:induction false} PrimerNivelDe(ready: seq<seq<Pid>>, i: nat, p: Pid)
    requires i < |ready| && forall k :: 0 <= k < i ==> p !in ready[k]
    ensures p in ready[i] ==> NivelDe(ready, p) == Some(i)
    ensures p !in ready[i] ==> NivelDe(ready, p) != Some(i)
  {
    if i > 0 {
      assert forall k :: 0 <= k < i - 1 ==> ready[1..][k] == ready[k + 1];
      PrimerNivelDe(ready[1..], i - 1, p);
    }
  }
}
