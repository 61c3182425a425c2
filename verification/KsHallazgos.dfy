/** Runs of the Kernel Scheduler step by step, and one that shows a wakeup owed; SistemaPerdida has the other. */
module KsHallazgos {
  import opened Basics
  import opened KsMutex
  import opened KsEstado
  import opened KsInvariantes
  import opened KsHandlers
  import opened KsPlanificador
  import opened KsPasos
  import opened KsCorridas
  import opened KsCiclo
  import opened KsEfectos

  ghost predicate SeAlcanza(cfg: Cfg, s: Ks) {
    exists ss: seq<Ks>, es: seq<Suceso> :: Corrida(cfg, ss, es) && ss[|es|] == s
  }

  lemma SeAlcanzaInicial(cfg: Cfg)
    requires CfgOk(cfg)
    ensures SeAlcanza(cfg, Inicial(cfg))
  {
    assert Corrida(cfg, [Inicial(cfg)], []);
  }

  lemma SeAlcanzaPaso(cfg: Cfg, s: Ks, e: Suceso)
    requires SeAlcanza(cfg, s) && Puede(cfg, s, e)
    ensures SeAlcanza(cfg, Despues(cfg, s, e))
  {
    hide Puede, Despues, Inicial;
    var ss, es :| Corrida(cfg, ss, es) && ss[|es|] == s;
    var ss2, es2 := ss + [Despues(cfg, s, e)], es + [e];
    forall i | 0 <= i < |es2|
      ensures Puede(cfg, ss2[i], es2[i]) && ss2[i + 1] == Despues(cfg, ss2[i], es2[i])
    {
      if i < |es| {
        assert ss2[i] == ss[i] && ss2[i + 1] == ss[i + 1] && es2[i] == es[i];
      }
    }
    assert Corrida(cfg, ss2, es2);
  }

  /** A step and its outcome. */
  predicate Da(cfg: Cfg, s: Ks, e: Suceso, t: Ks) {
    Puede(cfg, s, e) && Despues(cfg, s, e) == t
  }

  lemma Lleva(cfg: Cfg, s: Ks, e: Suceso, t: Ks)
    requires SeAlcanza(cfg, s) && Da(cfg, s, e, t)
    ensures SeAlcanza(cfg, t)
  {
    hide Puede, Despues, SeAlcanza;
    SeAlcanzaPaso(cfg, s, e);
  }

  function EnReady(prioridad: int): Proceso {
    Proceso(READY, prioridad, prioridad, -1, false)
  }

  /** A whole creation, when Kernel Memory is at leisure. */
  function ConProceso(cfg: Cfg, s: Ks, prioridad: int): Ks
    requires Formado(cfg, s) && s.proximo <= INT_MAX
  {
    var i := Nivel(cfg, prioridad);
    s.(proximo := s.proximo + 1, procs := s.procs[s.proximo := EnReady(prioridad)], ready := s.ready[i := s.ready[i] + [s.proximo]], tokens := s.tokens + 1)
  }

  /** Nobody that runs is less urgent than a newcomer of this priority. */
  predicate NadiePeor(procs: map<Pid, Proceso>, exec: seq<Pid>, prioridad: int) {
    forall p :: p in exec ==> !Desalojable(procs, p, prioridad)
  }

  /** The child of a creation while its creator waits for Kernel Memory. */
  function Naciendo(s: Ks, prioridad: int): Ks
    requires s.proximo <= INT_MAX
  {
    Abrir(Nacer(s, s.proximo, prioridad), Creando(s.proximo))
  }

  lemma Creacion(cfg: Cfg, s: Ks, padre: Pid, prioridad: int)
    requires Formado(cfg, s) && s.canal == None && s.tareas == [] && s.proximo <= INT_MAX
    requires Engendra(s, padre, prioridad) && (cfg.cmn ==> 0 <= prioridad < cfg.n)
    requires NadiePeor(s.procs, s.exec, prioridad)
    ensures var p: Pid, s1 := s.proximo, Naciendo(s, prioridad);
            && Da(cfg, s, CrearInicio(padre, prioridad), s1)
            && Da(cfg, s1, TomarCanal(Creando(p)), s1.(canal := Some(Creando(p))))
            && Da(cfg, s1.(canal := Some(Creando(p))), CrearFin(p, true), ConProceso(cfg, s, prioridad))
  {
    var p: Pid, s1 := s.proximo, Naciendo(s, prioridad);
    assert s1.tareas[0] == Creando(p);
    assert s.mano + multiset{p} - multiset{p} == s.mano;
    CreadoEs(cfg, s, s1.(canal := Some(Creando(p))), p, prioridad);
  }

  lemma CreaProceso(cfg: Cfg, s: Ks, padre: Pid, prioridad: int)
    requires SeAlcanza(cfg, s) && Formado(cfg, s) && s.canal == None && s.tareas == [] && s.proximo <= INT_MAX
    requires Engendra(s, padre, prioridad) && (cfg.cmn ==> 0 <= prioridad < cfg.n)
    requires NadiePeor(s.procs, s.exec, prioridad)
    ensures SeAlcanza(cfg, ConProceso(cfg, s, prioridad))
  {
    hide SeAlcanza, Da;
    var p: Pid, s1 := s.proximo, Naciendo(s, prioridad);
    Creacion(cfg, s, padre, prioridad);
    Lleva(cfg, s, CrearInicio(padre, prioridad), s1);
    Lleva(cfg, s1, TomarCanal(Creando(p)), s1.(canal := Some(Creando(p))));
    Lleva(cfg, s1.(canal := Some(Creando(p))), CrearFin(p, true), ConProceso(cfg, s, prioridad));
  }

  lemma CreadoEs(cfg: Cfg, s: Ks, t: Ks, p: Pid, prioridad: int)
    requires Formado(cfg, s) && s.canal == None && s.tareas == [] && p == s.proximo && s.mano + multiset{p} - multiset{p} == s.mano
    requires t == Abrir(Nacer(s, p, prioridad), Creando(p)).(canal := Some(Creando(p)))
    requires NadiePeor(s.procs, s.exec, prioridad)
    ensures Creado(cfg, t, p, true) == ConProceso(cfg, s, prioridad)
  {
    var m := Cerrar(t, Creando(p));
    var u, v := PonerReady(cfg, m, p, false), ConProceso(cfg, s, prioridad);
    assert QuitarTarea([] + [Creando(p)], Creando(p)) == [];
    assert u.procs == v.procs;
    VictimaPeor(u.procs, u.exec, prioridad, None);
  }

  lemma Conecta(cfg: Cfg, s: Ks, fd: int)
    requires SeAlcanza(cfg, s) && Puede(cfg, s, ConectarCpu(fd))
    ensures SeAlcanza(cfg, s.(cpus := s.cpus + [CpuEntry(fd, false)], tokens := s.tokens + 1))
  {
    hide SeAlcanza;
    Lleva(cfg, s, ConectarCpu(fd), s.(cpus := s.cpus + [CpuEntry(fd, false)], tokens := s.tokens + 1));
  }

  /** The planner can give the front of queue `i` CPU `k`. */
  predicate Despachable(cfg: Cfg, s: Ks, i: nat, k: nat) {
    && Formado(cfg, s) && s.tokens > 0 && !s.plan && s.fase == Normal
    && PrimerNivel(s.ready) == Some(i) && PrimeraLibre(s.cpus) == Some(k) && s.ready[i][0] in s.procs
  }

  /** The planner takes a token and dispatches. */
  lemma Despacho(cfg: Cfg, s: Ks, i: nat, k: nat)
    requires Despachable(cfg, s, i, k)
    ensures Da(cfg, s, PlanToma, s.(tokens := s.tokens - 1, plan := true))
    ensures Da(cfg, s.(tokens := s.tokens - 1, plan := true), PlanPasa, Despachar(s.(tokens := s.tokens - 1), i, k))
  {
    assert s.(tokens := s.tokens - 1, plan := true).(plan := false) == s.(tokens := s.tokens - 1);
  }

  lemma Despacha(cfg: Cfg, s: Ks, i: nat, k: nat)
    requires SeAlcanza(cfg, s) && Despachable(cfg, s, i, k)
    ensures SeAlcanza(cfg, Despachar(s.(tokens := s.tokens - 1), i, k))
  {
    hide SeAlcanza, Da;
    Despacho(cfg, s, i, k);
    Lleva(cfg, s, PlanToma, s.(tokens := s.tokens - 1, plan := true));
    Lleva(cfg, s.(tokens := s.tokens - 1, plan := true), PlanPasa, Despachar(s.(tokens := s.tokens - 1), i, k));
  }

  lemma PasaEnVano(cfg: Cfg, s: Ks)
    requires SeAlcanza(cfg, s) && Formado(cfg, s) && s.tokens > 0 && !s.plan && s.fase == Normal
    requires PrimerNivel(s.ready).None? || PrimeraLibre(s.cpus).None?
    ensures SeAlcanza(cfg, s.(tokens := s.tokens - 1))
  {
    hide SeAlcanza;
    var t := s.(tokens := s.tokens - 1, plan := true);
    Lleva(cfg, s, PlanToma, t);
    Lleva(cfg, t, PlanPasa, s.(tokens := s.tokens - 1));
  }

  // ---------------------------------------------------------------- a wakeup may be owed for a while

  const UNA_COLA := Cfg(false, 1, false)

  /** PID 0 on the only CPU, having just created PID 1. */
  function PadreEHijo(): Ks {
    Ks(2, map[0 := Proceso(EXEC, 0, 0, 5, false), 1 := EnReady(0)], [[1]], [0], [], [], [], [], multiset{}, [], None,
       [CpuEntry(5, true)], [], 2, false, None, Normal, 0)
  }

  lemma PadreEHijoSeAlcanza()
    ensures SeAlcanza(UNA_COLA, PadreEHijo())
  {
    hide SeAlcanza;
    var s := Inicial(UNA_COLA);
    assert s.ready == [[]];
    SeAlcanzaInicial(UNA_COLA);
    CreaProceso(UNA_COLA, s, 0, 0);
    var s1 := ConProceso(UNA_COLA, s, 0);
    assert s1.ready[0] == [0];
    assert s1.ready == [[0]];
    Conecta(UNA_COLA, s1, 5);
    var s2 := s1.(cpus := s1.cpus + [CpuEntry(5, false)], tokens := s1.tokens + 1);
    assert s2.cpus == [CpuEntry(5, false)];
    Despacha(UNA_COLA, s2, 0, 0);
    var s3 := Despachar(s2.(tokens := s2.tokens - 1), 0, 0);
    assert s3.ready == [[]] && s3.exec == [0] && s3.cpus == [CpuEntry(5, true)];
    CreaProceso(UNA_COLA, s3, 0, 0);
    var s4 := ConProceso(UNA_COLA, s3, 0);
    assert s4.ready[0] == [1];
    assert s4.ready == [[1]];
    assert s4 == PadreEHijo();
  }

  /** The parent has come back from its syscall, the child runs, and the planner is idle. */
  function DosProcesos(): Ks {
    Ks(2, map[0 := EnReady(0), 1 := Proceso(EXEC, 0, 0, 5, false)], [[0]], [1], [], [], [], [], multiset{}, [], None,
       [CpuEntry(5, true)], [], 0, false, None, Normal, 0)
  }

  lemma VueltaDelPadre()
    ensures Devuelto(UNA_COLA, PadreEHijo(), 0)
         == PadreEHijo().(procs := map[0 := EnReady(0), 1 := EnReady(0)], ready := [[1, 0]], exec := [], cpus := [CpuEntry(5, false)], tokens := 3)
  {
    assert Quitar([0], 0) == Quitar([0][1..], 0) == [];
    assert Liberar([CpuEntry(5, true)], 5) == [CpuEntry(5, false)];
    var t := Devuelto(UNA_COLA, PadreEHijo(), 0);
    assert t.ready[0] == [1, 0];
    assert t.ready == [[1, 0]];
    assert multiset{} + multiset{0 as Pid} - multiset{0 as Pid} == multiset{};
  }

  lemma DosProcesosSeAlcanza()
    ensures SeAlcanza(UNA_COLA, DosProcesos())
  {
    hide SeAlcanza, Devuelto;
    PadreEHijoSeAlcanza();
    VueltaDelPadre();
    var s := Devuelto(UNA_COLA, PadreEHijo(), 0);
    Lleva(UNA_COLA, PadreEHijo(), Vuelve(0), s);
    Despacha(UNA_COLA, s, 0, 0);
    var s1 := Despachar(s.(tokens := s.tokens - 1), 0, 0);
    assert [1 as Pid, 0][1..] == [0];
    assert s1.ready == [[0]] && s1.exec == [1] && s1.cpus == [CpuEntry(5, true)];
    PasaEnVano(UNA_COLA, s1);
    var s2 := s1.(tokens := s1.tokens - 1);
    PasaEnVano(UNA_COLA, s2);
    assert s2.(tokens := s2.tokens - 1) == DosProcesos();
  }

  /**
   * After an EXIT the CPU is free and a process is READY, but nobody will tell the
   * planner until Kernel Memory has answered: tokens alone do not cover the free CPUs
   * that have work.
   */
  lemma DespertarDebido() returns (s: Ks)
    ensures SeAlcanza(UNA_COLA, s) && s.tokens + Bit(s.plan) < Min(Libres(s.cpus), |Listos(s.ready)|)
  {
    var a := DosProcesos();
    DosProcesosSeAlcanza();
    s := Terminado(a, 1);
    SeAlcanzaPaso(UNA_COLA, a, Termina(1));
    assert s.cpus == [CpuEntry(5, false)];
    assert Libres([CpuEntry(5, false)][1..]) == 0;
    assert Listos([[0]]) == [0] + Listos([[0]][1..]);
  }
}
