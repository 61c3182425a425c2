/** How runs of the whole system are built, step by step, and one from the start of the program to the first instruction of PID 0. */
module SistemaArranque {
  import opened Basics
  import opened Intervals
  import opened Sticks
  import opened Contexto
  import opened KmEstado
  import opened KmOperaciones
  import opened KmCorridas
  import opened CpuInstrucciones
  import opened CpuTransparencia
  import KsMutex
  import KsEstado
  import KsPasos
  import KsHallazgos
  import KsDesalojo
  import opened KmFragmentada
  import opened Sistema

  const PLAN := KsDesalojo.CON_DESALOJO

  /** PID 0 creates PID 1, sleeps, and asks for memory when it wakes up. */
  function Padre(pc: U32): Instruccion {
    if pc == 0 then Instruccion(NOOP, [])
    else if pc == 1 then Instruccion(INIT_PROC, ["hijo", Texto(1)])
    else if pc == 2 then Instruccion(SLEEP, [Texto(9)])
    else Instruccion(MEM_ALLOC, [Texto(7), Texto(2)])
  }

  /** PID 1 takes and gives memory, and stores a byte in what it has. */
  function Hijo(pc: U32): Instruccion {
    if pc == 0 then Instruccion(MEM_ALLOC, [Texto(1), Texto(2)])
    else if pc == 1 then Instruccion(MEM_ALLOC, [Texto(2), Texto(1)])
    else if pc == 2 then Instruccion(MEM_FREE, [Texto(1)])
    else if pc == 3 then Instruccion(MEM_ALLOC, [Texto(0), Texto(3)])
    else if pc == 4 then Instruccion(MEM_FREE, [Texto(2)])
    else if pc == 5 then Instruccion(NOOP, [])
    else Instruccion(MOV_OUT, ["AX"])
  }

  ghost function Progs(): Programas {
    (p: Pid) => (pc: U32) => if p == 0 then Padre(pc) else Hijo(pc)
  }

  lemma Programa(p: Pid, pc: U32)
    ensures Progs()(p)(pc) == if p == 0 then Padre(pc) else Hijo(pc)
  {
    var f := Progs()(p);
    assert f(pc) == if p == 0 then Padre(pc) else Hijo(pc);
  }

  // ---------------------------------------------------------------- runs, step by step

  ghost predicate SeAlcanza(x: Sistema) {
    exists xs: seq<Sistema>, ms: seq<Movimiento> :: Marcha(CHICA, PLAN, Progs(), xs, ms) && xs[|ms|] == x
  }

  lemma SeAlcanzaInicio()
    ensures SeAlcanza(Inicio(PLAN))
  {
    assert Marcha(CHICA, PLAN, Progs(), [Inicio(PLAN)], []);
  }

  lemma Sigue(x: Sistema, m: Movimiento, y: Sistema)
    requires SeAlcanza(x) && Transcurre(CHICA, PLAN, Progs(), x, m, y)
    ensures SeAlcanza(y)
  {
    hide Transcurre, Inicio, Progs;
    var xs: seq<Sistema>, ms: seq<Movimiento> :| Marcha(CHICA, PLAN, Progs(), xs, ms) && xs[|ms|] == x;
    var xs2, ms2 := xs + [y], ms + [m];
    forall i | 0 <= i < |ms2|
      ensures Transcurre(CHICA, PLAN, Progs(), xs2[i], ms2[i], xs2[i + 1])
    {
      if i < |ms| {
        assert xs2[i] == xs[i] && xs2[i + 1] == xs[i + 1] && ms2[i] == ms[i];
      }
    }
    assert Marcha(CHICA, PLAN, Progs(), xs2, ms2);
  }

  // ---------------------------------------------------------------- the scheduler

  /** The steps that no CPU and no answer brings about, and the notice that a compaction is needed. */
  predicate Suelto(x: Sistema, e: KsPasos.Suceso) {
    (e.Compactar? && Diferida(x)) || e.ConectarCpu? || e.PlanToma? || e.PlanPasa? || e.IoFin? || e.Marca? || e.Recoge? || e.EnviaFin? || e.Reanuda?
  }

  lemma NadaDicho(x: Sistema, e: KsPasos.Suceso)
    requires Suelto(x, e)
    ensures Dicho(x, e) && Escuchadas(x, e) == x.partes && Caidos(x.ks, e) == {} && !KsPasos.DeMemoria(e)
  {
  }

  lemma Lleva(x: Sistema, e: KsPasos.Suceso, t: KsEstado.Ks)
    requires SeAlcanza(x) && Suelto(x, e) && KsHallazgos.Da(PLAN, x.ks, e, t)
    ensures SeAlcanza(x.(ks := t))
  {
    hide SeAlcanza, KsPasos.Puede, KsPasos.Despues, Progs, Dicho, Escuchadas, Caidos, KsPasos.DeMemoria;
    NadaDicho(x, e);
    var y := x.(ks := t);
    assert x.cpus - Caidos(x.ks, e) == x.cpus;
    assert PlanificaPaso(PLAN, x, e, y);
    Sigue(x, Planifica(e), y);
  }

  lemma Despacha(x: Sistema, i: nat, k: nat, t: KsEstado.Ks)
    requires SeAlcanza(x) && KsHallazgos.Despachable(PLAN, x.ks, i, k) && t == KsEstado.Despachar(x.ks.(tokens := x.ks.tokens - 1), i, k)
    ensures SeAlcanza(x.(ks := t))
  {
    hide SeAlcanza, KsHallazgos.Da, KsEstado.Despachar;
    KsHallazgos.Despacho(PLAN, x.ks, i, k);
    var s := x.ks.(tokens := x.ks.tokens - 1, plan := true);
    Lleva(x, KsPasos.PlanToma, s);
    Lleva(x.(ks := s), KsPasos.PlanPasa, t);
  }

  /** A message of a CPU whose process leaves EXEC. */
  lemma Oye(x: Sistema, e: KsPasos.Suceso, t: KsEstado.Ks, p: Pid)
    requires SeAlcanza(x) && KsDesalojo.Saca(x.ks, e, p, t) && Dicho(x, e)
    ensures SeAlcanza(x.(ks := t, partes := x.partes - {p}))
  {
    hide SeAlcanza, KsPasos.Puede, KsPasos.Despues, Progs, Dicho;
    var y := x.(ks := t, partes := x.partes - {p});
    assert x.cpus - Caidos(x.ks, e) == x.cpus;
    assert PlanificaPaso(PLAN, x, e, y);
    Sigue(x, Planifica(e), y);
  }

  lemma Toma(x: Sistema, tarea: KsEstado.Tarea, t: KsEstado.Ks)
    requires SeAlcanza(x) && KsHallazgos.Da(PLAN, x.ks, KsPasos.TomarCanal(tarea), t) && tarea.pid !in x.cpus
    ensures SeAlcanza(x.(ks := t))
  {
    hide SeAlcanza, KsPasos.Puede, KsPasos.Despues, Progs;
    var y, e := x.(ks := t), KsPasos.TomarCanal(tarea);
    assert x.cpus - Caidos(x.ks, e) == x.cpus;
    assert PlanificaPaso(PLAN, x, e, y);
    Sigue(x, Planifica(e), y);
  }

  /** The answer to a memory syscall. */
  lemma Contesta(x: Sistema, e: KsPasos.Suceso, t: KsEstado.Ks)
    requires SeAlcanza(x) && (e.AllocFin? || e.FreeFin?) && KsHallazgos.Da(PLAN, x.ks, e, t)
    requires x.atendido.Some? && Concuerda(x.atendido.value, e)
    ensures SeAlcanza(x.(ks := t, atendido := None))
  {
    hide SeAlcanza, KsPasos.Puede, KsPasos.Despues, Progs, Concuerda;
    var y := x.(ks := t, atendido := None);
    assert x.cpus - Caidos(x.ks, e) == x.cpus;
    assert PlanificaPaso(PLAN, x, e, y);
    Sigue(x, Planifica(e), y);
  }

  // ---------------------------------------------------------------- creations

  function ConContexto(s: Km, p: Pid): Km {
    s.(contextos := s.contextos + [Contexto(p, REGISTROS_CERO, [])])
  }

  /** Its creator, if there is one, is told that the child exists. */
  function Avisado(partes: map<Pid, Parte>, padre: Pid): map<Pid, Parte> {
    if padre in partes then partes[padre := Parte(partes[padre].fin, Atendida)] else partes
  }

  predicate SoloPadre(x: Sistema, padre: Pid) {
    forall p :: p in x.partes ==> p == padre
  }

  lemma Empieza(x: Sistema, padre: Pid, prioridad: int) returns (y: Sistema)
    requires SeAlcanza(x) && x.ks.proximo <= KsMutex.INT_MAX && Dicho(x, KsPasos.CrearInicio(padre, prioridad)) && SoloPadre(x, padre)
    requires x.ks.proximo == 0 ==> padre !in x.partes
    requires KsHallazgos.Da(PLAN, x.ks, KsPasos.CrearInicio(padre, prioridad), KsHallazgos.Naciendo(x.ks, prioridad))
    ensures SeAlcanza(y) && y == x.(ks := KsHallazgos.Naciendo(x.ks, prioridad), partes := y.partes)
    ensures y.partes == if padre in x.partes then x.partes[padre := Parte(x.partes[padre].fin, EnCreacion(x.ks.proximo))] else x.partes
  {
    hide SeAlcanza, KsPasos.Puede, KsPasos.Despues, Progs, Dicho;
    var e := KsPasos.CrearInicio(padre, prioridad);
    y := x.(ks := KsHallazgos.Naciendo(x.ks, prioridad), partes := Escuchadas(x, e));
    assert x.cpus - Caidos(x.ks, e) == x.cpus;
    assert PlanificaPaso(PLAN, x, e, y);
    Sigue(x, Planifica(e), y);
  }

  lemma Termina(x: Sistema, padre: Pid, h: Pid, t: KsEstado.Ks) returns (y: Sistema)
    requires SeAlcanza(x) && x.atendido == Some(CrearProceso(h, true)) && KsHallazgos.Da(PLAN, x.ks, KsPasos.CrearFin(h, true), t)
    requires SoloPadre(x, padre) && (padre in x.partes ==> x.partes[padre].tramite == EnCreacion(h))
    ensures SeAlcanza(y) && y == x.(ks := t, atendido := None, partes := Avisado(x.partes, padre))
  {
    hide SeAlcanza, KsPasos.Puede, KsPasos.Despues, Progs;
    var e := KsPasos.CrearFin(h, true);
    y := x.(ks := t, atendido := None, partes := Avisado(x.partes, padre));
    assert Escuchadas(x, e) == y.partes;
    assert x.cpus - Caidos(x.ks, e) == x.cpus;
    assert PlanificaPaso(PLAN, x, e, y);
    Sigue(x, Planifica(e), y);
  }

  /** A whole creation, when Kernel Memory is at leisure. */
  lemma Crea(x: Sistema, padre: Pid, prioridad: int) returns (y: Sistema)
    requires SeAlcanza(x) && x.atendido == None && x.ks.proximo <= KsMutex.INT_MAX && Dicho(x, KsPasos.CrearInicio(padre, prioridad)) && SoloPadre(x, padre)
    requires x.ks.proximo == 0 ==> padre !in x.partes
    requires KsEstado.Formado(PLAN, x.ks) && x.ks.canal == None && x.ks.tareas == [] && KsPasos.Engendra(x.ks, padre, prioridad) && 0 <= prioridad < 2
    requires KsHallazgos.NadiePeor(x.ks.procs, x.ks.exec, prioridad) && Buscar(x.km.contextos, x.ks.proximo).None? && x.ks.proximo !in x.cpus
    ensures SeAlcanza(y)
    ensures y == x.(ks := KsHallazgos.ConProceso(PLAN, x.ks, prioridad), km := ConContexto(x.km, x.ks.proximo), partes := Avisado(x.partes, padre))
  {
    hide SeAlcanza, KsHallazgos.Da, Dicho, Progs;
    var h: Pid := x.ks.proximo;
    KsHallazgos.Creacion(PLAN, x.ks, padre, prioridad);
    var a := Empieza(x, padre, prioridad);
    var s := a.ks.(canal := Some(KsEstado.Creando(h)));
    Toma(a, KsEstado.Creando(h), s);
    var b := a.(ks := s);
    var d := b.(km := ConContexto(x.km, h), atendido := Some(CrearProceso(h, true)));
    Sigue(b, Atiende(CrearProceso(h, true)), d);
    y := Termina(d, padre, h, KsHallazgos.ConProceso(PLAN, x.ks, prioridad));
  }

  // ---------------------------------------------------------------- bursts

  /** `p` is next to run on its CPU, and its program counter is stored. */
  predicate PorCorrer(x: Sistema, p: Pid, k: nat) {
    p in x.ks.exec && p !in x.cpus && p !in x.partes && Buscar(x.km.contextos, p) == Some(k)
  }

  lemma Retoma(x: Sistema, p: Pid, k: nat)
    requires SeAlcanza(x) && PorCorrer(x, p, k)
    ensures SeAlcanza(x.(cpus := x.cpus[p := Copia(x.km.contextos[k].segmentos, x.km.contextos[k].registros)]))
  {
    hide SeAlcanza, Progs;
    Sigue(x, Restaura(p), x.(cpus := x.cpus[p := Copia(x.km.contextos[k].segmentos, x.km.contextos[k].registros)]));
  }

  /** A NOOP. */
  lemma Pasa(x: Sistema, p: Pid)
    requires EnRafaga(x, p) && Progs()(p)(x.cpus[p].registros.pc).opcode == NOOP
    ensures Transcurre(CHICA, PLAN, Progs(), x, Ejecuta(p), x.(cpus := x.cpus[p := x.cpus[p].(registros := AvanzarPc(x.cpus[p].registros))]))
  {
    hide Progs;
    assert x.km.(mem := x.km.mem) == x.km;
  }

  lemma Invoca(x: Sistema, p: Pid, ins: Instruccion) returns (y: Sistema)
    requires SeAlcanza(x) && EnRafaga(x, p) && ins == Progs()(p)(x.cpus[p].registros.pc) && EsSyscallOExit(ins.opcode)
    ensures var q := AvanzarPc(x.cpus[p].registros);
            && SeAlcanza(y)
            && y == x.(cpus := x.cpus[p := x.cpus[p].(registros := q)], partes := x.partes[p := Parte(FinDeSyscall(q, ins), SinAtender)],
                       llamadas := x.llamadas[p := Llamada(q, ins)])
  {
    hide SeAlcanza, Progs;
    var q := AvanzarPc(x.cpus[p].registros);
    y := x.(cpus := x.cpus[p := x.cpus[p].(registros := q)], partes := x.partes[p := Parte(FinDeSyscall(q, ins), SinAtender)],
            llamadas := x.llamadas[p := Llamada(q, ins)]);
    Sigue(x, Llama(p), y);
  }

  function ConRegistros(s: Km, k: nat, r: Registros): Km
    requires k < |s.contextos|
  {
    s.(contextos := s.contextos[k := s.contextos[k].(registros := r)])
  }

  lemma Deposita(x: Sistema, p: Pid, k: nat)
    requires SeAlcanza(x) && p in x.cpus && p in x.partes && (Llamo(x, p, INIT_PROC) ==> x.partes[p].tramite == Atendida)
    requires Buscar(x.km.contextos, p) == Some(k)
    ensures SeAlcanza(x.(km := ConRegistros(x.km, k, x.cpus[p].registros), cpus := x.cpus - {p}))
  {
    hide SeAlcanza, Progs;
    Sigue(x, Salva(p), x.(km := ConRegistros(x.km, k, x.cpus[p].registros), cpus := x.cpus - {p}));
  }

  lemma RegistrosCero(r0: Registros, g0: seq<Segmento>, r1: Registros, g1: seq<Segmento>, mem: seq<Byte>, huecos: seq<Interval>, q: Registros)
    ensures ConRegistros(Cinco(Dos(r0, g0, r1, g1), mem, huecos, None), 0, q) == Cinco(Dos(q, g0, r1, g1), mem, huecos, None)
    ensures Buscar(Cinco(Dos(r0, g0, r1, g1), mem, huecos, None).contextos, 0) == Some(0) && Dos(r0, g0, r1, g1)[0].registros == r0
  {
  }

  lemma RegistrosUno(r0: Registros, g0: seq<Segmento>, r1: Registros, g1: seq<Segmento>, mem: seq<Byte>, huecos: seq<Interval>, q: Registros)
    ensures ConRegistros(Cinco(Dos(r0, g0, r1, g1), mem, huecos, None), 1, q) == Cinco(Dos(r0, g0, q, g1), mem, huecos, None)
    ensures Buscar(Cinco(Dos(r0, g0, r1, g1), mem, huecos, None).contextos, 1) == Some(1) && Dos(r0, g0, r1, g1)[1].registros == r1
  {
    Posiciones(r0, g0, r1, g1);
  }

  /** A burst of nothing but a syscall, up to the stored context. */
  lemma Turno(x: Sistema, p: Pid, k: nat, ins: Instruccion) returns (y: Sistema)
    requires SeAlcanza(x) && PorCorrer(x, p, k) && ins == Progs()(p)(x.km.contextos[k].registros.pc)
    requires EsSyscallOExit(ins.opcode) && ins.opcode != INIT_PROC
    ensures var q := AvanzarPc(x.km.contextos[k].registros);
            && SeAlcanza(y)
            && y == x.(km := ConRegistros(x.km, k, q), partes := x.partes[p := Parte(FinDeSyscall(q, ins), SinAtender)],
                       llamadas := x.llamadas[p := Llamada(q, ins)])
  {
    hide SeAlcanza, Progs, AvanzarPc;
    Retoma(x, p, k);
    var a := x.(cpus := x.cpus[p := Copia(x.km.contextos[k].segmentos, x.km.contextos[k].registros)]);
    var b := Invoca(a, p, ins);
    Deposita(b, p, k);
    y := b.(km := ConRegistros(b.km, k, b.cpus[p].registros), cpus := b.cpus - {p});
    assert y.cpus == x.cpus;
  }

  // ---------------------------------------------------------------- the first instruction

  function Sola(pc: U32): seq<Contexto> {
    [Contexto(0, REGISTROS_CERO.(pc := pc), [])]
  }

  /** PID 0 is on the only CPU, which has not asked for its context yet. */
  function Arrancado(): Sistema {
    Sistema(KsDesalojo.CeroCorre(), Vacia(Sola(0)), None, map[], map[], map[])
  }

  lemma ArrancadoSeAlcanza()
    ensures SeAlcanza(Arrancado())
  {
    hide SeAlcanza, Paso, KsHallazgos.Da, KsEstado.Despachar;
    var x0 := Inicio(PLAN);
    SeAlcanzaInicio();
    PrimerStick();
    var x1 := x0.(km := Vacia([]));
    Sigue(x0, Crece(RegistrarStick(BYTES, true)), x1);
    var x2 := Crea(x1, 0, 0);
    KsDesalojo.ArrancadaEs();
    assert ConContexto(x1.km, 0) == Vacia(Sola(0)) by {
      assert [] + [Contexto(0, REGISTROS_CERO, [])] == Sola(0);
    }
    var x3 := x2.(ks := KsDesalojo.Arrancada());
    Lleva(x2, KsPasos.ConectarCpu(7), x3.ks);
    KsDesalojo.CeroCorreEs();
    Despacha(x3, 0, 0, KsDesalojo.CeroCorre());
  }

  /** PID 0 at its second instruction. */
  function EnMarcha(): Sistema {
    Arrancado().(cpus := map[0 := Copia([], REGISTROS_CERO.(pc := 1))])
  }

  lemma SinNada(s: Km)
    requires s == Vacia(Sola(0))
    ensures Vista(s, 0) == Some(multiset{}) && RegistrosDe(s, 0) == Some(REGISTROS_CERO)
  {
    assert Buscar(s.contextos, 0) == Some(0);
    assert Residentes(s.mem, []) == [];
    assert EnSwap(s.disco, s.metas, 0) == [];
    var k := Buscar(s.contextos, 0).value;
    assert Contenido(s, k) == multiset{};
  }

  /** PID 0 is restored on its CPU, and executes. */
  lemma PrimeraInstruccion() returns (x: Sistema)
    ensures SeAlcanza(x) && Transcurre(CHICA, PLAN, Progs(), x, Ejecuta(0), EnMarcha())
    ensures Es(x, 0) == Some(Solo(REGISTROS_CERO, multiset{}))
  {
    hide SeAlcanza, Progs, Transcurre;
    var a := Arrancado();
    ArrancadoSeAlcanza();
    assert Buscar(a.km.contextos, 0) == Some(0);
    x := a.(cpus := map[0 := Copia([], REGISTROS_CERO)]);
    Retoma(a, 0, 0);
    Programa(0, 0);
    Pasa(x, 0);
    assert x.cpus[0 := EnMarcha().cpus[0]] == EnMarcha().cpus;
    SinNada(a.km);
  }
}
