/** The scheduler's side of a run in which a return is left over from one compaction to the next, state by state. */
module KsDesalojo {
  import opened Basics
  import opened KsMutex
  import opened KsEstado
  import opened KsHandlers
  import opened KsPlanificador
  import opened KsPasos
  import opened KsCorridas
  import opened KsRetornos
  import opened KsHallazgos

  const CON_DESALOJO := Cfg(true, 2, true)

  // ---------------------------------------------------------------- the first two processes

  /** PID 0 is READY and the only CPU is free. */
  function Arrancada(): Ks {
    Ks(1, map[0 := EnReady(0)], [[0], []], [], [], [], [], [], multiset{}, [], None, [CpuEntry(7, false)], [], 2, false, None, Normal, 0)
  }

  lemma ArrancadaEs()
    ensures ConProceso(CON_DESALOJO, Inicial(CON_DESALOJO), 0) == Arrancada().(cpus := [], tokens := 1)
    ensures Da(CON_DESALOJO, Arrancada().(cpus := [], tokens := 1), ConectarCpu(7), Arrancada())
  {
    var s := Inicial(CON_DESALOJO);
    assert s.ready == [[], []];
    assert ConProceso(CON_DESALOJO, s, 0).ready[0] == [0];
    assert ConProceso(CON_DESALOJO, s, 0).ready == [[0], []];
    assert [] + [CpuEntry(7, false)] == [CpuEntry(7, false)];
  }

  function CeroCorre(): Ks {
    Ks(1, map[0 := Proceso(EXEC, 0, 0, 7, false)], [[], []], [0], [], [], [], [], multiset{}, [], None, [CpuEntry(7, true)], [], 1, false, None, Normal, 0)
  }

  lemma CeroCorreEs()
    ensures Despachable(CON_DESALOJO, Arrancada(), 0, 0) && Despachar(Arrancada().(tokens := Arrancada().tokens - 1), 0, 0) == CeroCorre()
  {
    assert [0 as Pid][1..] == [];
    assert [] + [0 as Pid] == [0];
  }

  /** PID 0 on the only CPU, having created the less urgent PID 1. */
  function Urgente(): Ks {
    Ks(2, map[0 := Proceso(EXEC, 0, 0, 7, false), 1 := EnReady(1)], [[], [1]], [0], [], [], [], [], multiset{}, [], None,
       [CpuEntry(7, true)], [], 2, false, None, Normal, 0)
  }

  lemma UrgenteEs()
    ensures ConProceso(CON_DESALOJO, CeroCorre(), 1) == Urgente()
  {
    var s := ConProceso(CON_DESALOJO, CeroCorre(), 1);
    assert s.ready[1] == [1];
    assert s.ready == [[], [1]];
  }

  /** A message about the process `p`, which leaves EXEC. */
  predicate Saca(s: Ks, e: Suceso, p: Pid, t: Ks) {
    DeCpu(e) && Da(CON_DESALOJO, s, e, t) && QuienSale(s, e) == Some(p)
  }

  /** The parent has come back from its syscall. */
  function DeVuelta(): Ks {
    Urgente().(procs := map[0 := EnReady(0), 1 := EnReady(1)], ready := [[0], [1]], exec := [], cpus := [CpuEntry(7, false)], tokens := 3)
  }

  lemma DeVueltaEs()
    ensures Devuelto(CON_DESALOJO, Urgente(), 0) == DeVuelta()
  {
    assert Quitar([0], 0) == Quitar([0][1..], 0) == [];
    assert Liberar([CpuEntry(7, true)], 7) == [CpuEntry(7, false)];
    var t := Devuelto(CON_DESALOJO, Urgente(), 0);
    assert t.ready[0] == [0];
    assert t.ready == [[0], [1]];
    assert multiset{} + multiset{0 as Pid} - multiset{0 as Pid} == multiset{};
  }

  lemma Vuelta()
    ensures Saca(Urgente(), Vuelve(0), 0, DeVuelta())
  {
    hide Devuelto, DeVuelta;
    DeVueltaEs();
  }

  lemma UrgenteOtraVez()
    ensures Despachable(CON_DESALOJO, DeVuelta(), 0, 0) && Despachar(DeVuelta().(tokens := DeVuelta().tokens - 1), 0, 0) == Urgente()
  {
    assert [0 as Pid][1..] == [];
    assert [] + [0 as Pid] == [0];
  }

  /** PID 0 sleeps and its CPU is free. */
  function Dormido(): Ks {
    Ks(2, map[0 := Proceso(BLOCK, 0, 0, -1, false), 1 := EnReady(1)], [[], [1]], [], [0], [], [], [], multiset{}, [], None,
       [CpuEntry(7, false)], [], 3, false, None, Normal, 0)
  }

  lemma DormidoEs()
    ensures Bloqueado(Urgente(), 0, Iniciada) == Dormido()
  {
    assert Quitar([0], 0) == Quitar([0][1..], 0) == [];
    assert Liberar([CpuEntry(7, true)], 7) == [CpuEntry(7, false)];
    assert multiset{} + multiset{0 as Pid} - multiset{0 as Pid} == multiset{};
    assert [] + [0 as Pid] == [0];
  }

  lemma Duerme()
    ensures Saca(Urgente(), Bloquea(0, Iniciada), 0, Dormido())
  {
    hide Bloqueado, Dormido;
    DormidoEs();
  }

  /** A compaction asked for by PID 1 has been answered and its thread has not gone on yet. */
  function Contestada(): Ks {
    Ks(2, map[0 := Proceso(BLOCK, 0, 0, -1, false), 1 := Proceso(EXEC, 1, 1, 7, false)], [[], []], [1], [0], [], [], [], multiset{}, [], None,
       [CpuEntry(7, true)], [], 2, false, None, Respondida, 0)
  }

  function UnoCorriendo(): Ks {
    Contestada().(fase := Normal)
  }

  lemma UnoCorriendoEs()
    ensures Despachable(CON_DESALOJO, Dormido(), 1, 0) && Despachar(Dormido().(tokens := Dormido().tokens - 1), 1, 0) == UnoCorriendo()
  {
    assert PrimerNivel(Dormido().ready[1..]) == Some(0);
    assert [1 as Pid][1..] == [];
    assert [] + [1 as Pid] == [1];
  }

  // ---------------------------------------------------------------- memory syscalls of the only process that runs

  /** Its memory syscall waits for the channel. */
  function EnPedido(s: Ks, t: Tarea): Ks {
    s.(exec := [], mano := s.mano + multiset{t.pid}, tareas := [t])
  }

  predicate CorreSola(s: Ks, p: Pid) {
    s.exec == [p] && p in s.procs && !s.procs[p].preemptado && s.tareas == [] && s.canal == None && s.pedida == None
  }

  lemma PideEs(s: Ks, p: Pid, alloc: bool)
    requires CorreSola(s, p)
    ensures Pidiendo(s, p, alloc) == EnPedido(s, if alloc then Alloc(p) else Free(p))
  {
    assert s.procs[p := s.procs[p].(preemptado := false)] == s.procs;
    assert Quitar([p], p) == Quitar([p][1..], p) == [];
  }

  /** A request that is answered at once leaves the scheduler as it was. */
  lemma Ciclo(s: Ks, p: Pid, alloc: bool)
    requires CorreSola(s, p) && Formado(CON_DESALOJO, s) && !s.fase.Marcada? && !s.fase.FinEnviado?
    ensures var t := if alloc then Alloc(p) else Free(p);
            var s1 := EnPedido(s, t);
            && Da(CON_DESALOJO, s, MemPide(p, alloc), s1)
            && Da(CON_DESALOJO, s1, TomarCanal(t), s1.(canal := Some(t)))
            && Da(CON_DESALOJO, s1.(canal := Some(t)), if alloc then AllocFin(p, true) else FreeFin(p), s)
  {
    var t := if alloc then Alloc(p) else Free(p);
    PideEs(s, p, alloc);
    assert t in EnPedido(s, t).tareas;
    assert QuitarTarea([t], t) == [];
    assert [] + [p] == [p];
    assert s.mano + multiset{p} - multiset{p} == s.mano;
  }

  // The steps of the handshake, one by one.

  lemma Pedida(s: Ks, p: Pid)
    requires Formado(CON_DESALOJO, s) && s.canal == Some(Alloc(p)) && s.pedida == None && s.fase == Normal
    ensures Da(CON_DESALOJO, s, Compactar(p), s.(pedida := Some(p)))
  {
  }

  lemma MarcaNadie(s: Ks, p: Pid)
    requires Formado(CON_DESALOJO, s) && s.pedida == None && s.fase == Normal && s.exec == []
    ensures Da(CON_DESALOJO, s.(pedida := Some(p)), Marca, s.(fase := Marcada(p, 0, 0, s.devueltas)))
  {
    assert MarcarTodos(s.procs, []) == s.procs;
  }

  lemma Recogida(s: Ks, p: Pid, marcados: nat, sobrantes: nat)
    requires Formado(CON_DESALOJO, s) && s.fase == Marcada(p, 1, marcados, sobrantes) && s.devueltas == 1
    ensures Da(CON_DESALOJO, s, Recoge, s.(fase := Marcada(p, 0, marcados, sobrantes), devueltas := 0))
  {
  }

  lemma Enviada(s: Ks, p: Pid, marcados: nat, sobrantes: nat)
    requires Formado(CON_DESALOJO, s) && s.fase == Marcada(p, 0, marcados, sobrantes)
    ensures Da(CON_DESALOJO, s, EnviaFin, s.(fase := FinEnviado(p, sobrantes)))
  {
  }

  /** The answer after a compaction. */
  lemma Contestacion(s: Ks, p: Pid)
    requires CorreSola(s, p) && Formado(CON_DESALOJO, s) && s.fase == Normal
    ensures var s1 := EnPedido(s, Alloc(p)).(canal := Some(Alloc(p)));
            Da(CON_DESALOJO, s1.(fase := FinEnviado(p, s.devueltas)), AllocFin(p, true), s.(fase := Respondida))
  {
    assert QuitarTarea([Alloc(p)], Alloc(p)) == [];
    assert [] + [p] == [p];
    assert s.mano + multiset{p} - multiset{p} == s.mano;
  }

  // ---------------------------------------------------------------- a return is left over

  /** Before the compaction's thread goes on, the sleep of PID 0 ends and PID 1 is marked ... */
  function Marcado(): Ks {
    Ks(2, map[0 := EnReady(0), 1 := Proceso(EXEC, 1, 1, 7, true)], [[0], []], [1], [], [], [], [], multiset{}, [], None,
       [CpuEntry(7, true)], [], 3, false, None, Respondida, 0)
  }

  /** ... and stops, which counts as a return to a compaction that awaits none. */
  function Sobrante(): Ks {
    Ks(2, map[0 := EnReady(0), 1 := EnReady(1)], [[0], [1]], [], [], [], [], [], multiset{}, [], None,
       [CpuEntry(7, false)], [], 4, false, None, Respondida, 1)
  }

  lemma DespiertaUrgente()
    ensures Despertado(CON_DESALOJO, Contestada(), 0) == Marcado()
  {
    var c := CON_DESALOJO;
    var t := Sacar(Contestada(), 0, BLOCK);
    assert Quitar([0], 0) == Quitar([0][1..], 0) == [];
    var u := PonerReady(c, t, 0, false);
    assert u.ready[0] == [0];
    assert u.ready == [[0], []];
    assert Victima(u.procs, [1][1..], 0, Some(1)) == Some(1);
    assert Victima(u.procs, [1], 0, None) == Some(1);
    assert multiset{} + multiset{0 as Pid} - multiset{0 as Pid} == multiset{};
  }

  lemma SobranteEs()
    ensures Interrumpido(CON_DESALOJO, Marcado(), 1) == Sobrante()
  {
    assert Quitar([1], 1) == Quitar([1][1..], 1) == [];
    assert Liberar([CpuEntry(7, true)], 7) == [CpuEntry(7, false)];
    assert [1 as Pid] + [] == [1];
    var t := Interrumpido(CON_DESALOJO, Marcado(), 1);
    assert t.ready == [[0], [1]];
  }

  lemma Despierta()
    ensures Da(CON_DESALOJO, Contestada(), IoFin(0, false), Marcado())
  {
    hide Despertado, Marcado;
    DespiertaUrgente();
  }

  lemma Para()
    ensures Saca(Marcado(), Interrumpe(1), 1, Sobrante())
    ensures Da(CON_DESALOJO, Sobrante(), Reanuda, Sobrante().(fase := Normal, tokens := 5))
  {
    hide Interrumpido;
    SobranteEs();
  }

  /** PID 0 is dispatched to the first CPU and PID 1 to another that has come. */
  function DosCorriendo(): Ks {
    Ks(2, map[0 := Proceso(EXEC, 0, 0, 7, false), 1 := Proceso(EXEC, 1, 1, 8, false)], [[], []], [0, 1], [], [], [], [],
       multiset{}, [], None, [CpuEntry(7, true), CpuEntry(8, true)], [], 4, false, None, Normal, 1)
  }

  lemma DosCorriendoEs()
    ensures var s := Sobrante().(fase := Normal, tokens := 5);
            var s1 := Despachar(s.(tokens := 4), 0, 0);
            var s2 := s1.(cpus := [CpuEntry(7, true), CpuEntry(8, false)], tokens := 5);
            && Despachable(CON_DESALOJO, s, 0, 0) && Da(CON_DESALOJO, s1, ConectarCpu(8), s2)
            && Despachable(CON_DESALOJO, s2, 1, 1) && Despachar(s2.(tokens := 4), 1, 1) == DosCorriendo()
  {
    var s := Sobrante().(fase := Normal, tokens := 5);
    var s1 := Despachar(s.(tokens := 4), 0, 0);
    assert [1 as Pid][1..] == [] && [0 as Pid][1..] == [];
    assert s1.ready == [[], [1]];
    assert s1.cpus == [CpuEntry(7, true)] && s1.exec == [0];
    var s2 := s1.(cpus := s1.cpus + [CpuEntry(8, false)], tokens := 5);
    assert s2.cpus == [CpuEntry(7, true), CpuEntry(8, false)];
    assert PrimerNivel(s2.ready[1..]) == Some(0) && PrimeraLibre(s2.cpus[1..]) == Some(0);
  }

  /** The next compaction takes the leftover for the return it waits for. */
  function FinAntesDeTiempo(): Ks {
    DosCorriendo().(procs := map[0 := Proceso(EXEC, 0, 0, 7, false), 1 := Proceso(EXEC, 1, 1, 8, true)], exec := [1],
                    mano := multiset{0}, tareas := [Alloc(0)], canal := Some(Alloc(0)), fase := FinEnviado(0, 1), devueltas := 0)
  }

  lemma PideUno()
    ensures Pidiendo(DosCorriendo(), 0, true) == DosCorriendo().(exec := [1], mano := multiset{0}, tareas := [Alloc(0)])
  {
    var s := DosCorriendo();
    assert s.procs[0 := s.procs[0].(preemptado := false)] == s.procs;
    assert Quitar([1], 0) == [1] + Quitar([1][1..], 0) == [1];
    assert [0, 1][1..] == [1 as Pid];
    assert multiset{} + multiset{0} == multiset{0 as Pid};
  }

  function OtraPedida(): Ks {
    DosCorriendo().(exec := [1], mano := multiset{0}, tareas := [Alloc(0)], canal := Some(Alloc(0)), pedida := Some(0))
  }

  lemma MarcaEs()
    ensures Marcar(OtraPedida(), 0) == FinAntesDeTiempo().(fase := Marcada(0, 1, 1, 1), devueltas := 1)
  {
    assert MarcarTodos(DosCorriendo().procs, [1]) == FinAntesDeTiempo().procs;
  }

  /** The second compaction: PID 0 asks ... */
  lemma OtraPide()
    ensures var s := DosCorriendo().(exec := [1], mano := multiset{0}, tareas := [Alloc(0)]);
            && Da(CON_DESALOJO, DosCorriendo(), MemPide(0, true), s)
            && Da(CON_DESALOJO, s, TomarCanal(Alloc(0)), s.(canal := Some(Alloc(0))))
  {
    hide Pidiendo;
    PideUno();
    assert [Alloc(0)][0] == Alloc(0);
  }

  /** ... and PID 1, which runs, is marked. */
  lemma OtraMarca()
    ensures Da(CON_DESALOJO, OtraPedida(), Marca, FinAntesDeTiempo().(fase := Marcada(0, 1, 1, 1), devueltas := 1))
  {
    hide Marcar;
    MarcaEs();
  }
}
