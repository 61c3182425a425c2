/** The planner, priorities, CPUs that come and go, and the compaction handshake keep the invariant. */
module KsPlanificador {
  import opened Basics
  import opened KsMutex
  import opened KsEstado
  import opened KsInvariantes
  import opened KsHandlers

  // ---------------------------------------------------------------- preemption

  lemma MarcarUno(cfg: Cfg, s: Ks, t: Ks, p: Pid)
    requires Compactacion(cfg, s, None) && cfg.preemption && p in s.exec && p in s.procs && !s.procs[p].preemptado
    requires t == s.(procs := s.procs[p := s.procs[p].(preemptado := true)])
    ensures Compactacion(cfg, t, None)
  {
  }

  /** A running process may be marked for eviction, never during the wait of a compaction. */
  lemma VerificarPreemptionInv(cfg: Cfg, s: Ks, prioridad: int)
    requires Inv(cfg, s, None, 0)
    ensures Inv(cfg, VerificarPreemption(cfg, s, prioridad), None, 0)
  {
    hide Lugares, Ligadura, Compactacion, NivelesOk;
    var t := VerificarPreemption(cfg, s, prioridad);
    VictimaEs(s.procs, s.exec, prioridad, None);
    VerificarPreemptionLugares(cfg, s, None, prioridad);
    if t != s {
      var v := Victima(s.procs, s.exec, prioridad, None).value;
      EnExec(s, v);
      MarcarUnoLigadura(s, t, v);
      MarcarUno(cfg, s, t, v);
      PonerNiveles(cfg, s, t, v);
    }
  }

  lemma EnExec(s: Ks, p: Pid)
    requires Lugares(s, None) && p in s.exec
    ensures p in s.procs && s.procs[p].estado == EXEC
  {
    EnCola(s, p, EXEC);
  }

  lemma MarcarUnoLigadura(s: Ks, t: Ks, p: Pid)
    requires Ligadura(s, None) && p in s.procs && t == s.(procs := s.procs[p := s.procs[p].(preemptado := true)])
    ensures Ligadura(t, None)
  {
    CpusIguales(s.procs, t.procs, s.cpus);
  }

  /** encolar_en_ready. */
  lemma EncolarInv(cfg: Cfg, s: Ks, p: Pid, d: nat)
    requires Inv(cfg, s, Some(p), d) && d <= 1 && Libre(s, p)
    ensures Formado(cfg, s) && Inv(cfg, Encolar(cfg, s, p), None, 0)
  {
    hide Inv;
    PonerReadyInv(cfg, s, p, false, d);
    VerificarPreemptionInv(cfg, PonerReady(cfg, s, p, false), s.procs[p].prioridad);
  }

  // ---------------------------------------------------------------- dispatch

  lemma {:induction false} SinListos(ready: seq<seq<Pid>>)
    requires PrimerNivel(ready).None?
    ensures Listos(ready) == []
  {
    if ready != [] {
      assert ready[0] == [];
      SinListos(ready[1..]);
    }
  }

  lemma {:induction false} SinLibres(cpus: seq<CpuEntry>)
    requires PrimeraLibre(cpus).None?
    ensures Libres(cpus) == 0
  {
    if cpus != [] {
      SinLibres(cpus[1..]);
    }
  }

  lemma DespacharLigadura(s: Ks, i: nat, k: nat)
    requires Ligadura(s, None) && i < |s.ready| && s.ready[i] != [] && k < |s.cpus| && !s.cpus[k].ocupada
    requires s.ready[i][0] in s.procs && s.procs[s.ready[i][0]].estado == READY
    ensures Ligadura(Despachar(s, i, k), None) && Libres(Despachar(s, i, k).cpus) == Libres(s.cpus) - 1
  {
    var p := s.ready[i][0];
    TomarCpu(s.procs, s.cpus, p, k, s.procs[p].(estado := EXEC, fd := s.cpus[k].fd));
  }

  lemma DespacharResto(cfg: Cfg, s: Ks, i: nat, k: nat)
    requires Compactacion(cfg, s, None) && NivelesOk(cfg, s) && s.fase == Normal
    requires i < |s.ready| && s.ready[i] != [] && k < |s.cpus|
    requires s.ready[i][0] in s.procs && s.procs[s.ready[i][0]].estado == READY && s.ready[i][0] !in s.exec
    ensures Compactacion(cfg, Despachar(s, i, k), None) && NivelesOk(cfg, Despachar(s, i, k))
  {
    var t := Despachar(s, i, k);
    assert forall r :: r in t.exec <==> r in s.exec || r == s.ready[i][0];
    assert forall j :: 0 <= j < |t.ready[i]| ==> t.ready[i][j] == s.ready[i][j + 1];
  }

  /** The planner's pass with a process and a CPU to give it. */
  lemma DespacharInv(cfg: Cfg, s: Ks, i: nat, k: nat)
    requires Inv(cfg, s, None, 0) && s.plan && s.fase == Normal
    requires i < |s.ready| && s.ready[i] != [] && k < |s.cpus| && !s.cpus[k].ocupada
    ensures s.ready[i][0] in s.procs && Inv(cfg, Despachar(s.(plan := false), i, k), None, 0)
  {
    hide Lugares, Ligadura, Compactacion, NivelesOk;
    var m := s.(plan := false);
    SoloTokens(cfg, s, m);
    OtrosCampos(s, m, None);
    DespacharLugares(m, i, k);
    SacarReadyColas(m, i);
    EnOtraCola(m, s.ready[i][0], READY);
    DespacharLigadura(m, i, k);
    DespacharResto(cfg, m, i, k);
  }

  /** The planner's pass without one of them. */
  lemma PasarDeLargo(cfg: Cfg, s: Ks)
    requires Inv(cfg, s, None, 0) && (PrimerNivel(s.ready).None? || PrimeraLibre(s.cpus).None?)
    ensures Inv(cfg, s.(plan := false), None, 0)
  {
    hide Lugares, Ligadura, Compactacion, NivelesOk;
    SoloTokens(cfg, s, s.(plan := false));
    OtrosCampos(s, s.(plan := false), None);
    if PrimerNivel(s.ready).None? {
      SinListos(s.ready);
    } else {
      SinLibres(s.cpus);
    }
  }

  lemma TomarTokenInv(cfg: Cfg, s: Ks)
    requires Inv(cfg, s, None, 0) && s.tokens > 0 && !s.plan
    ensures Inv(cfg, s.(tokens := s.tokens - 1, plan := true), None, 0)
  {
    hide Lugares, Ligadura, Compactacion, NivelesOk;
    SoloTokens(cfg, s, s.(tokens := s.tokens - 1, plan := true));
    OtrosCampos(s, s.(tokens := s.tokens - 1, plan := true), None);
  }

  // ---------------------------------------------------------------- memory syscalls

  lemma RedespacharResto(cfg: Cfg, s: Ks, p: Pid)
    requires Compactacion(cfg, s, Some(p)) && NivelesOk(cfg, s) && p in s.procs && !s.procs[p].preemptado
    requires s.fase == Normal || s.fase == Respondida
    ensures Compactacion(cfg, Redespachar(s, p), None) && NivelesOk(cfg, Redespachar(s, p))
  {
    assert forall r :: r in Redespachar(s, p).exec <==> r in s.exec || r == p;
  }

  lemma RedespacharInv(cfg: Cfg, s: Ks, p: Pid)
    requires Inv(cfg, s, Some(p), 0) && s.procs[p].estado == EXEC && s.procs[p].fd >= 0 && !s.procs[p].preemptado
    requires s.fase == Normal || s.fase == Respondida
    ensures Inv(cfg, Redespachar(s, p), None, 0)
  {
    hide Lugares, Ligadura, Compactacion, NivelesOk;
    EnManoFuera(s, p);
    RedespacharLugares(s, p);
    EnManoLigadura(s, Redespachar(s, p), p, Some(p), None);
    RedespacharResto(cfg, s, p);
  }

  lemma SoltarCpuLigadura(s: Ks, p: Pid)
    requires Ligadura(s, Some(p)) && p in s.procs && s.procs[p].fd >= 0
    ensures Ligadura(SoltarCpu(s, p), Some(p)) && Libres(SoltarCpu(s, p).cpus) == Libres(s.cpus) + 1
  {
    SoltarCpus(s.procs, s.cpus, p);
  }

  lemma SoltarCpuInv(cfg: Cfg, s: Ks, p: Pid)
    requires Inv(cfg, s, Some(p), 0) && s.procs[p].fd >= 0
    ensures Inv(cfg, SoltarCpu(s, p), Some(p), 1) && SoltarCpu(s, p).procs[p].fd < 0
  {
    hide Lugares, Ligadura, Compactacion, NivelesOk;
    EnManoFuera(s, p);
    var t := SoltarCpu(s, p);
    SoltarCpuLigadura(s, p);
    OtrosCampos(s, t, Some(p));
    EnManoCuentas(cfg, s, t, p, Some(p));
    PonerNiveles(cfg, s, t, p);
  }

  // ---------------------------------------------------------------- priorities

  /** Every process of a ready queue has the queue's number as priority. */
  predicate EnSuNivel(ready: seq<seq<Pid>>, procs: map<Pid, Proceso>) {
    forall i, k :: 0 <= i < |ready| && 0 <= k < |ready[i]| ==> ready[i][k] in procs && procs[ready[i][k]].prioridad == i
  }

  lemma MoverNivelOk(ready: seq<seq<Pid>>, procs: map<Pid, Proceso>, p: Pid, nueva: nat)
    requires EnSuNivel(ready, procs) && p in procs && nueva < |ready|
    ensures EnSuNivel(MoverNivel(ready, p, nueva), procs[p := procs[p].(prioridad := nueva)])
  {
    var t, procs2 := MoverNivel(ready, p, nueva), procs[p := procs[p].(prioridad := nueva)];
    var b := NivelDe(ready, p);
    if b.Some? {
      QuitarMiembros(ready[b.value], p);
    }
    forall i, k | 0 <= i < |t| && 0 <= k < |t[i]|
      ensures t[i][k] in procs2 && procs2[t[i][k]].prioridad == i
    {
      var q := t[i][k];
      if b.Some? {
        MoverNivelMiembros(ready, p, nueva, i, q);
      }
      if q != p {
        assert q in ready[i];
      }
    }
  }

  lemma MoverNivelMiembros(ready: seq<seq<Pid>>, p: Pid, nueva: nat, i: nat, q: Pid)
    requires nueva < |ready| && i < |ready| && q in MoverNivel(ready, p, nueva)[i] && NivelDe(ready, p).Some?
    ensures q in ready[i] || (q == p && i == nueva)
    ensures q == p && NivelDe(ready, p) == Some(i) ==> i == nueva
  {
    QuitarMiembros(ready[NivelDe(ready, p).value], p);
  }

  lemma EfectivaRango(cfg: Cfg, s: Ks, p: Pid)
    requires NivelesOk(cfg, s) && cfg.cmn && p in s.procs
    ensures 0 <= Efectiva(s, p) < cfg.n
  {
    HeredadaEs(s.mutexes, p, INT_MAX);
  }

  lemma RecalcularNiveles(cfg: Cfg, s: Ks, p: int)
    requires NivelesOk(cfg, s)
    ensures NivelesOk(cfg, Recalcular(cfg, s, p))
  {
    var t := Recalcular(cfg, s, p);
    if t != s {
      var nueva := Efectiva(s, p);
      if cfg.cmn {
        EfectivaRango(cfg, s, p);
        assert EnSuNivel(s.ready, s.procs);
        MoverNivelOk(s.ready, s.procs, p, nueva);
        assert t.procs == s.procs[p := s.procs[p].(prioridad := nueva)];
      }
    }
  }

  lemma SoloPrioridad(cfg: Cfg, s: Ks, t: Ks, x: Option<Pid>, p: Pid)
    requires Ligadura(s, x) && Compactacion(cfg, s, x) && p in s.procs
    requires t == s.(procs := t.procs, ready := t.ready) && p in t.procs
    requires t.procs == s.procs[p := s.procs[p].(prioridad := t.procs[p].prioridad)]
    ensures Ligadura(t, x) && Compactacion(cfg, t, x)
  {
    hide Ligadura, Compactacion;
    SoloPrioridadLigadura(s, t, x, p);
    SoloPrioridadCompactacion(cfg, s, t, x, p);
  }

  lemma SoloPrioridadLigadura(s: Ks, t: Ks, x: Option<Pid>, p: Pid)
    requires Ligadura(s, x) && p in s.procs && p in t.procs && t.cpus == s.cpus
    requires t.procs == s.procs[p := s.procs[p].(prioridad := t.procs[p].prioridad)]
    ensures Ligadura(t, x)
  {
    CpusIguales(s.procs, t.procs, s.cpus);
  }

  lemma SoloPrioridadCompactacion(cfg: Cfg, s: Ks, t: Ks, x: Option<Pid>, p: Pid)
    requires Compactacion(cfg, s, x) && p in s.procs && p in t.procs
    requires t == s.(procs := t.procs, ready := t.ready)
    requires t.procs == s.procs[p := s.procs[p].(prioridad := t.procs[p].prioridad)]
    ensures Compactacion(cfg, t, x)
  {
  }

  lemma RecalcularInv(cfg: Cfg, s: Ks, x: Option<Pid>, d: nat, p: int)
    requires Inv(cfg, s, x, d)
    ensures Inv(cfg, Recalcular(cfg, s, p), x, d)
  {
    hide Lugares, Ligadura, Compactacion, NivelesOk;
    RecalcularNiveles(cfg, s, p);
    RecalcularLugares(cfg, s, x, p);
    var t := Recalcular(cfg, s, p);
    if t != s {
      SoloPrioridad(cfg, s, t, x, p);
    }
  }

  // ---------------------------------------------------------------- CPUs that come and go

  lemma ConectarCpus(procs: map<Pid, Proceso>, cpus: seq<CpuEntry>, fd: int)
    requires CpusOk(procs, cpus) && fd >= 0 && forall i :: 0 <= i < |cpus| ==> cpus[i].fd != fd
    ensures CpusOk(procs, cpus + [CpuEntry(fd, false)])
  {
    var t := cpus + [CpuEntry(fd, false)];
    forall p | p in procs && procs[p].fd >= 0
      ensures Ocupada(t, procs[p].fd)
    {
      assert Ocupada(cpus, procs[p].fd);
    }
    forall f: int | Ocupada(t, f)
      ensures exists p :: TieneFd(procs, p, f)
    {
      assert Ocupada(cpus, f);
    }
  }

  lemma ConectarInv(cfg: Cfg, s: Ks, fd: int)
    requires Inv(cfg, s, None, 0) && fd >= 0 && forall i :: 0 <= i < |s.cpus| ==> s.cpus[i].fd != fd
    ensures Inv(cfg, s.(cpus := s.cpus + [CpuEntry(fd, false)], tokens := s.tokens + 1), None, 0)
  {
    hide Lugares, CpusOk, Compactacion, NivelesOk;
    var t := s.(cpus := s.cpus + [CpuEntry(fd, false)], tokens := s.tokens + 1);
    ConectarCpus(s.procs, s.cpus, fd);
    LibresAppend(s.cpus, CpuEntry(fd, false));
    OtrosCampos(s, t, None);
    OtrasCuentas(cfg, s, t, None);
  }

  lemma OtrasCuentas(cfg: Cfg, s: Ks, t: Ks, x: Option<Pid>)
    requires Compactacion(cfg, s, x) && NivelesOk(cfg, s)
    requires t == s.(cpus := t.cpus, tokens := t.tokens, plan := t.plan, canal := t.canal, pedida := t.pedida)
    ensures Compactacion(cfg, t, x) && NivelesOk(cfg, t)
  {
  }

  /** The list of CPUs without the entry of a socket. */
  function SinCpu(cpus: seq<CpuEntry>, fd: int): seq<CpuEntry> {
    if cpus == [] then [] else if cpus[0].fd == fd then cpus[1..] else [cpus[0]] + SinCpu(cpus[1..], fd)
  }

  lemma {:induction false} SinCpuLibres(cpus: seq<CpuEntry>, fd: int)
    ensures Libres(SinCpu(cpus, fd)) <= Libres(cpus)
  {
    if cpus != [] && cpus[0].fd != fd {
      SinCpuLibres(cpus[1..], fd);
      var r := SinCpu(cpus[1..], fd);
      assert ([cpus[0]] + r)[1..] == r;
    }
  }

  lemma DistintasCola(cpus: seq<CpuEntry>)
    requires CpusDistintas(cpus) && cpus != []
    ensures CpusDistintas(cpus[1..]) && forall c :: c in cpus[1..] ==> c.fd != cpus[0].fd
  {
    assert forall i :: 0 <= i < |cpus[1..]| ==> cpus[1..][i] == cpus[i + 1];
  }

  lemma {:induction false} SinCpuMiembros(cpus: seq<CpuEntry>, fd: int)
    requires CpusDistintas(cpus)
    ensures forall c :: c in SinCpu(cpus, fd) <==> c in cpus && c.fd != fd
  {
    hide CpusDistintas;
    if cpus != [] {
      DistintasCola(cpus);
      SinCpuMiembros(cpus[1..], fd);
    }
  }

  lemma DistintasMas(c: CpuEntry, cpus: seq<CpuEntry>)
    requires CpusDistintas(cpus) && c.fd >= 0 && forall x :: x in cpus ==> x.fd != c.fd
    ensures CpusDistintas([c] + cpus)
  {
    var t := [c] + cpus;
    assert forall i :: 0 < i < |t| ==> t[i] == cpus[i - 1] && t[i] in cpus;
  }

  lemma {:induction false} SinCpuDistintas(cpus: seq<CpuEntry>, fd: int)
    requires CpusDistintas(cpus)
    ensures CpusDistintas(SinCpu(cpus, fd))
  {
    if cpus != [] {
      DistintasCola(cpus);
      if cpus[0].fd != fd {
        SinCpuDistintas(cpus[1..], fd);
        SinCpuMiembros(cpus[1..], fd);
        DistintasMas(cpus[0], SinCpu(cpus[1..], fd));
      }
    }
  }

  lemma SinCpuOk(procs: map<Pid, Proceso>, cpus: seq<CpuEntry>, fd: int)
    requires CpusOk(procs, cpus) && forall p :: p in procs ==> procs[p].fd != fd
    ensures CpusOk(procs, SinCpu(cpus, fd)) && Libres(SinCpu(cpus, fd)) <= Libres(cpus)
  {
    SinCpuMiembros(cpus, fd);
    SinCpuDistintas(cpus, fd);
    SinCpuLibres(cpus, fd);
    var t := SinCpu(cpus, fd);
    forall p | p in procs && procs[p].fd >= 0
      ensures Ocupada(t, procs[p].fd)
    {
      assert Ocupada(cpus, procs[p].fd);
    }
    forall f: int | Ocupada(t, f)
      ensures exists p :: TieneFd(procs, p, f)
    {
      assert Ocupada(cpus, f);
    }
  }

  lemma SinCpuInv(cfg: Cfg, s: Ks, x: Option<Pid>, d: nat, fd: int)
    requires Inv(cfg, s, x, d) && forall p :: p in s.procs ==> s.procs[p].fd != fd
    ensures Inv(cfg, s.(cpus := SinCpu(s.cpus, fd)), x, d)
  {
    hide Lugares, CpusOk, Compactacion, NivelesOk;
    var t := s.(cpus := SinCpu(s.cpus, fd));
    SinCpuOk(s.procs, s.cpus, fd);
    OtrosCampos(s, t, x);
    OtrasCuentas(cfg, s, t, x);
  }

  // ---------------------------------------------------------------- the compaction handshake

  function MarcarTodos(procs: map<Pid, Proceso>, exec: seq<Pid>): map<Pid, Proceso> {
    map p | p in procs :: if p in exec then procs[p].(preemptado := true) else procs[p]
  }

  /** compactando is set and everything that runs is marked and told to stop. */
  function Marcar(s: Ks, pid: Pid): Ks {
    s.(procs := MarcarTodos(s.procs, s.exec), pedida := None, fase := Marcada(pid, |s.exec|, |s.exec|, s.devueltas))
  }

  lemma MarcarLigadura(s: Ks, pid: Pid)
    requires Ligadura(s, None)
    ensures Ligadura(Marcar(s, pid), None)
  {
    CpusIguales(s.procs, Marcar(s, pid).procs, s.cpus);
  }

  lemma MarcarResto(cfg: Cfg, s: Ks, pid: Pid)
    requires Compactacion(cfg, s, None) && NivelesOk(cfg, s) && s.fase == Normal
    ensures Compactacion(cfg, Marcar(s, pid), None) && NivelesOk(cfg, Marcar(s, pid))
  {
  }

  lemma MarcarInv(cfg: Cfg, s: Ks, pid: Pid)
    requires Inv(cfg, s, None, 0) && s.pedida == Some(pid) && s.fase == Normal
    ensures Inv(cfg, Marcar(s, pid), None, 0)
  {
    hide Lugares, Ligadura, Compactacion, NivelesOk;
    OtrosCampos(s, Marcar(s, pid), None);
    MarcarLigadura(s, pid);
    MarcarResto(cfg, s, pid);
  }

  /** What a step of the handshake changes: the phase, its semaphore, and perhaps the planner's. */
  predicate SoloFase(s: Ks, t: Ks) {
    t == s.(fase := t.fase, devueltas := t.devueltas, tokens := t.tokens, pedida := t.pedida, canal := t.canal)
  }

  lemma FaseInv(cfg: Cfg, s: Ks, t: Ks)
    requires Inv(cfg, s, None, 0) && SoloFase(s, t) && t.tokens >= s.tokens
    requires CuentasOk(t) && SinSobras(cfg, t) && CanalOk(t)
    ensures Inv(cfg, t, None, 0)
  {
    hide Lugares, CpusOk, CuentasOk, SinSobras, CanalOk;
    OtrosCampos(s, t, None);
  }

  lemma CanalInv(cfg: Cfg, s: Ks, t: Ks)
    requires Inv(cfg, s, None, 0) && t == s.(pedida := t.pedida, canal := t.canal) && CanalOk(t)
    ensures Inv(cfg, t, None, 0)
  {
    hide Lugares, Ligadura, Compactacion, NivelesOk, CanalOk;
    OtrosCampos(s, t, None);
    OtrasCuentas(cfg, s, t, None);
    MismaLigadura(s, t, None);
  }
}
