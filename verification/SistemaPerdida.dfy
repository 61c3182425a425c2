/**
 * Why the processes must not be marked for a compaction while someone runs and a return
 * is left over: a run of the whole system in which a compaction moves the segment of a
 * process that runs, and the byte it stores next is lost.
 */
module SistemaPerdida {
  import opened Basics
  import opened Intervals
  import opened Contexto
  import opened KmEstado
  import opened KmOperaciones
  import opened KmCorridas
  import opened Mmu
  import opened CpuInstrucciones
  import opened CpuTransparencia
  import KsEstado
  import KsPasos
  import KsHallazgos
  import KsDesalojo
  import opened KmFragmentada
  import opened Sistema
  import opened SistemaArranque

  // ---------------------------------------------------------------- memory syscalls

  function TareaDe(p: Pid, alloc: bool): KsEstado.Tarea {
    if alloc then KsEstado.Alloc(p) else KsEstado.Free(p)
  }

  /** A memory syscall of a process whose context is stored, up to what Kernel Memory makes of it. */
  lemma PideMemoria(x: Sistema, p: Pid, alloc: bool, s: KsEstado.Ks, e: Evento, km: Km)
    requires SeAlcanza(x) && x.atendido == None && p !in x.cpus && KsPasos.Corre(x.ks, p) && Llamo(x, p, if alloc then MEM_ALLOC else MEM_FREE)
    requires KsHallazgos.Da(PLAN, x.ks, KsPasos.MemPide(p, alloc), s)
    requires KsHallazgos.Da(PLAN, s, KsPasos.TomarCanal(TareaDe(p, alloc)), s.(canal := Some(TareaDe(p, alloc))))
    requires !e.FinCompactacion? && Pide(TareaDe(p, alloc), e) && Segun(x.llamadas, e) && Paso(CHICA, x.km, e, km)
    ensures SeAlcanza(x.(ks := s.(canal := Some(TareaDe(p, alloc))), km := km, atendido := Some(e), partes := x.partes - {p}))
  {
    hide SeAlcanza, KsHallazgos.Da, Progs, Paso, Segun, Llamo, Pide;
    assert KsDesalojo.Saca(x.ks, KsPasos.MemPide(p, alloc), p, s);
    Oye(x, KsPasos.MemPide(p, alloc), s, p);
    var a := x.(ks := s, partes := x.partes - {p});
    var t := s.(canal := Some(TareaDe(p, alloc)));
    Toma(a, TareaDe(p, alloc), t);
    var b := a.(ks := t);
    Sigue(b, Atiende(e), b.(km := km, atendido := Some(e)));
  }

  lemma Pedida(x: Sistema, p: Pid, q: Registros, ins: Instruccion, e: Evento)
    requires p in x.partes && x.partes[p].fin == FinDeSyscall(q, ins) && SyscallValida(q, ins) && ins.opcode != EXIT
    requires p in x.llamadas && x.llamadas[p] == Llamada(q, ins)
    requires Segun(map[p := Llamada(q, ins)], e) && (if e.PedirSegmento? then e.pedido.pid == p else e.EliminarSegmento? && e.pid == p)
    ensures Llamo(x, p, ins.opcode) && Segun(x.llamadas, e)
  {
  }

  /** Answered at once, if nobody else runs. */
  lemma Ciclo(x: Sistema, p: Pid, alloc: bool, e: Evento, km: Km)
    requires SeAlcanza(x) && x.atendido == None && p !in x.cpus && Llamo(x, p, if alloc then MEM_ALLOC else MEM_FREE)
    requires KsDesalojo.CorreSola(x.ks, p) && KsEstado.Formado(PLAN, x.ks) && !x.ks.fase.Marcada? && !x.ks.fase.FinEnviado?
    requires if alloc then e.PedirSegmento? && e.respuesta == Some(true) && e.pedido.pid == p else e.EliminarSegmento? && e.pid == p
    requires Segun(x.llamadas, e) && Paso(CHICA, x.km, e, km)
    ensures SeAlcanza(x.(km := km, partes := x.partes - {p}))
  {
    hide SeAlcanza, KsHallazgos.Da, Progs, Paso, Segun, Llamo, KsDesalojo.EnPedido;
    KsDesalojo.Ciclo(x.ks, p, alloc);
    var s := KsDesalojo.EnPedido(x.ks, TareaDe(p, alloc));
    PideMemoria(x, p, alloc, s, e, km);
    var b := x.(ks := s.(canal := Some(TareaDe(p, alloc))), km := km, atendido := Some(e), partes := x.partes - {p});
    Contesta(b, if alloc then KsPasos.AllocFin(p, true) else KsPasos.FreeFin(p), x.ks);
  }

  /** A whole burst of one memory syscall. */
  lemma Syscall(x: Sistema, p: Pid, k: nat, alloc: bool, ins: Instruccion, e: Evento, km: Km) returns (y: Sistema)
    requires SeAlcanza(x) && x.atendido == None && PorCorrer(x, p, k) && ins == Progs()(p)(x.km.contextos[k].registros.pc)
    requires KsDesalojo.CorreSola(x.ks, p) && KsEstado.Formado(PLAN, x.ks) && !x.ks.fase.Marcada? && !x.ks.fase.FinEnviado?
    requires ins.opcode == (if alloc then MEM_ALLOC else MEM_FREE) && |ins.parametros| == if alloc then 2 else 1
    requires Segun(map[p := Llamada(AvanzarPc(x.km.contextos[k].registros), ins)], e)
    requires if alloc then e.PedirSegmento? && e.respuesta == Some(true) && e.pedido.pid == p else e.EliminarSegmento? && e.pid == p
    requires Paso(CHICA, ConRegistros(x.km, k, AvanzarPc(x.km.contextos[k].registros)), e, km)
    ensures SeAlcanza(y) && y == x.(km := km, llamadas := y.llamadas)
  {
    hide SeAlcanza, Progs, Paso, AvanzarPc, Segun, Llamo, FinDeSyscall, KsDesalojo.CorreSola, KsEstado.Formado;
    var a := Turno(x, p, k, ins);
    Pedida(a, p, AvanzarPc(x.km.contextos[k].registros), ins, e);
    Ciclo(a, p, alloc, e, km);
    y := a.(km := km, partes := a.partes - {p});
    assert y.partes == x.partes;
  }

  // ---------------------------------------------------------------- PID 0 creates PID 1 and sleeps

  function En(pc: U32): Registros {
    REGISTROS_CERO.(pc := pc)
  }

  const CREA := Instruccion(INIT_PROC, ["hijo", Texto(1)])

  /** Kernel Memory while PID 1 has nothing yet. */
  function Nueva(pc: U32): Km {
    Vacia(Dos(En(pc), [], En(0), []))
  }

  lemma EnMarchaSeAlcanza()
    ensures SeAlcanza(EnMarcha())
  {
    hide SeAlcanza, Transcurre, EnMarcha;
    var a := PrimeraInstruccion();
    Sigue(a, Ejecuta(0), EnMarcha());
  }

  lemma FinDeCrea()
    ensures FinDeSyscall(En(2), CREA) == FinDeRafaga.Syscall(CREA) && Progs()(0)(1) == CREA && EsSyscallOExit(CREA.opcode)
  {
    Programa(0, 1);
  }

  /** PID 0 waits for the answer to its INIT_PROC. */
  lemma Pidiendo() returns (x: Sistema)
    ensures SeAlcanza(x) && x == Arrancado().(cpus := map[0 := Copia([], En(2))], partes := map[0 := Parte(FinDeRafaga.Syscall(CREA), SinAtender)], llamadas := x.llamadas)
  {
    hide SeAlcanza, Progs, FinDeSyscall;
    EnMarchaSeAlcanza();
    FinDeCrea();
    x := Invoca(EnMarcha(), 0, CREA);
    assert x.cpus == map[0 := Copia([], En(2))];
    assert x.partes == map[0 := Parte(FinDeRafaga.Syscall(CREA), SinAtender)];
  }

  lemma ConHijo() returns (x: Sistema)
    ensures SeAlcanza(x) && x == Sistema(KsDesalojo.Urgente(), Nueva(0), None, map[0 := Copia([], En(2))],
                                         map[0 := Parte(FinDeRafaga.Syscall(CREA), Atendida)], x.llamadas)
  {
    hide SeAlcanza;
    var a := Pidiendo();
    ParsearTexto(1);
    KsDesalojo.UrgenteEs();
    x := Crea(a, 0, 1);
    assert x.partes == map[0 := Parte(FinDeRafaga.Syscall(CREA), Atendida)];
    assert x.km.contextos == Dos(En(0), [], En(0), []);
  }

  /** The whole system with nobody on a CPU and nothing to be heard. */
  ghost predicate Quieta(x: Sistema, s: KsEstado.Ks, km: Km) {
    SeAlcanza(x) && x == Sistema(s, km, None, map[], map[], x.llamadas)
  }

  /** The parent has been answered and its context stored. */
  lemma Respondido() returns (x: Sistema)
    ensures SeAlcanza(x) && x == Sistema(KsDesalojo.Urgente(), Nueva(2), None, map[], map[0 := Parte(FinDeRafaga.Syscall(CREA), Atendida)], x.llamadas)
  {
    hide SeAlcanza, KsDesalojo.Urgente, Cinco, Dos, ConRegistros;
    var a := ConHijo();
    RegistrosCero(En(0), [], En(0), [], BYTES, [Interval(0, 5)], En(2));
    Deposita(a, 0, 0);
    assert a.cpus - {0} == map[];
    x := a.(km := Nueva(2), cpus := map[]);
  }

  /** It comes back and is dispatched again. */
  lemma Vuelto() returns (x: Sistema)
    ensures Quieta(x, KsDesalojo.Urgente(), Nueva(2))
  {
    hide SeAlcanza, KsDesalojo.Urgente, KsDesalojo.DeVuelta, KsDesalojo.Saca, KsHallazgos.Despachable, KsEstado.Despachar, Nueva;
    var a := Respondido();
    KsDesalojo.Vuelta();
    Oye(a, KsPasos.Vuelve(0), KsDesalojo.DeVuelta(), 0);
    assert a.partes - {0} == map[];
    var b := a.(ks := KsDesalojo.DeVuelta(), partes := map[]);
    KsDesalojo.UrgenteOtraVez();
    Despacha(b, 0, 0, KsDesalojo.Urgente());
    x := b.(ks := KsDesalojo.Urgente());
  }

  const DUERME := Instruccion(SLEEP, [Texto(9)])

  lemma Durmiendo() returns (x: Sistema)
    ensures SeAlcanza(x) && x == Sistema(KsDesalojo.Urgente(), Nueva(3), None, map[], map[0 := Parte(FinDeRafaga.Syscall(DUERME), SinAtender)], x.llamadas)
  {
    hide SeAlcanza, Progs;
    var a := Vuelto();
    Programa(0, 2);
    RegistrosCero(En(2), [], En(0), [], BYTES, [Interval(0, 5)], En(3));
    x := Turno(a, 0, 0, DUERME);
  }

  /** PID 0 sleeps and PID 1 runs. */
  lemma Dormido() returns (x: Sistema)
    ensures Quieta(x, KsDesalojo.UnoCorriendo(), Nueva(3))
  {
    hide SeAlcanza, KsDesalojo.Urgente, KsDesalojo.Dormido, KsDesalojo.UnoCorriendo, KsDesalojo.Saca, KsHallazgos.Despachable, KsEstado.Despachar, Nueva;
    var a := Durmiendo();
    KsDesalojo.Duerme();
    Oye(a, KsPasos.Bloquea(0, KsPasos.Iniciada), KsDesalojo.Dormido(), 0);
    assert a.partes - {0} == map[];
    var b := a.(ks := KsDesalojo.Dormido(), partes := map[]);
    KsDesalojo.UnoCorriendoEs();
    Despacha(b, 1, 0, KsDesalojo.UnoCorriendo());
    x := b.(ks := KsDesalojo.UnoCorriendo());
  }

  // ---------------------------------------------------------------- PID 1 takes and gives memory

  /** Kernel Memory while PID 0 sleeps: where PID 1 stands, and what it has. */
  function Durante(pc: U32, segs: seq<Segmento>, mem: seq<Byte>, huecos: seq<Interval>): Km {
    Cinco(Dos(En(3), [], En(pc), segs), mem, huecos, None)
  }

  predicate UnoSolo(s: KsEstado.Ks) {
    KsDesalojo.CorreSola(s, 1) && KsEstado.Formado(PLAN, s) && !s.fase.Marcada? && !s.fase.FinEnviado?
  }

  lemma Agranda(x: Sistema, s: KsEstado.Ks, pc: U32, segs: seq<Segmento>, h: nat, id: U32, n: U32) returns (y: Sistema)
    requires h < 5 && Quieta(x, s, Durante(pc, segs, BYTES, [Interval(h, 5 - h)])) && UnoSolo(s) && pc < 5
    requires h + n < 5 && 0 < n <= 4 && Hijo(pc) == Instruccion(MEM_ALLOC, [Texto(id), Texto(n)]) && BuscarSegmento(segs, id).None?
    ensures Quieta(y, s, Durante(pc + 1, segs + [Segmento(id, 0, h, n)], BYTES, [Interval(h + n, 5 - h - n)]))
  {
    hide SeAlcanza, Progs, Paso, Hijo;
    Programa(1, pc);
    ParsearTexto(id);
    ParsearTexto(n);
    var hs := [Interval(h, 5 - h)];
    RegistrosUno(En(3), [], En(pc), segs, BYTES, hs, En(pc + 1));
    RegistrosUno(En(3), [], En(pc + 1), segs, BYTES, hs, En(pc + 1));
    var a, b := Durante(pc + 1, segs, BYTES, hs), Durante(pc + 1, segs + [Segmento(id, 0, h, n)], BYTES, [Interval(h + n, 5 - h - n)]);
    var p := Pedido(1, id, n);
    Asigna(a, b, 1, p, h);
    y := Syscall(x, 1, 1, true, Hijo(pc), PedirSegmento(p, Some(true)), b);
  }

  lemma Achica(x: Sistema, s: KsEstado.Ks, pc: U32, g: Segmento, resto: seq<Segmento>, mem: seq<Byte>, h: Interval) returns (y: Sistema)
    requires Quieta(x, s, Durante(pc, [g] + resto, mem, [h])) && UnoSolo(s) && pc < 5
    requires Hijo(pc) == Instruccion(MEM_FREE, [Texto(g.id)]) && g.limite > 0 && h.size > 0 && !Adjacent(Span(g), h) && !Adjacent(h, Span(g))
    ensures Quieta(y, s, Durante(pc + 1, resto, mem, [Span(g), h]))
  {
    hide SeAlcanza, Progs, Paso, Hijo, Adjacent;
    Programa(1, pc);
    ParsearTexto(g.id);
    RegistrosUno(En(3), [], En(pc), [g] + resto, mem, [h], En(pc + 1));
    RegistrosUno(En(3), [], En(pc + 1), [g] + resto, mem, [h], En(pc + 1));
    var a, b := Durante(pc + 1, [g] + resto, mem, [h]), Durante(pc + 1, resto, mem, [Span(g), h]);
    Elimina(a, b, g, resto);
    y := Syscall(x, 1, 1, false, Hijo(pc), EliminarSegmento(1, g.id), b);
  }

  const UNO := Segmento(1, 0, 0, 2)
  const DOS := Segmento(2, 0, 2, 1)

  /** Two holes, with one segment between them. */
  lemma Fragmentada() returns (x: Sistema)
    ensures Quieta(x, KsDesalojo.UnoCorriendo(), Durante(3, [DOS], BYTES, [Interval(0, 2), Interval(3, 2)]))
  {
    hide SeAlcanza;
    var s := KsDesalojo.UnoCorriendo();
    var a := Dormido();
    var b := Agranda(a, s, 0, [], 0, 1, 2);
    assert [] + [UNO] == [UNO];
    var d := Agranda(b, s, 1, [UNO], 2, 2, 1);
    x := Achica(d, s, 2, UNO, [DOS], BYTES, Interval(3, 2));
  }

  // ---------------------------------------------------------------- the first compaction

  const HUECOS := [Interval(0, 2), Interval(3, 2)]
  const PRIMERO := Pedido(1, 0, 3)
  const CORRIDO := Segmento(2, 0, 0, 1)
  const CERO := Segmento(0, 0, 1, 3)

  /** Three bytes are asked for, and there is no such hole. */
  lemma PideTres() returns (x: Sistema)
    ensures SeAlcanza(x)
    ensures x == Sistema(KsDesalojo.EnPedido(KsDesalojo.UnoCorriendo(), KsEstado.Alloc(1)).(canal := Some(KsEstado.Alloc(1))),
                         Durante(4, [DOS], BYTES, HUECOS).(pendiente := Some(PRIMERO)), Some(PedirSegmento(PRIMERO, None)), map[], map[], x.llamadas)
  {
    hide SeAlcanza, Progs, Paso, KsHallazgos.Da, Segun, Llamo, KsDesalojo.EnPedido, KsEstado.Formado;
    var s, ins := KsDesalojo.UnoCorriendo(), Instruccion(MEM_ALLOC, [Texto(0), Texto(3)]);
    var a := Fragmentada();
    Programa(1, 3);
    RegistrosUno(En(3), [], En(3), [DOS], BYTES, HUECOS, En(4));
    RegistrosUno(En(3), [], En(4), [DOS], BYTES, HUECOS, En(4));
    var b := Turno(a, 1, 1, ins);
    SegunTres();
    Pedida(b, 1, En(4), ins, PedirSegmento(PRIMERO, None));
    Difiere(b.km, 1, PRIMERO);
    KsDesalojo.Ciclo(s, 1, true);
    PideMemoria(b, 1, true, KsDesalojo.EnPedido(s, KsEstado.Alloc(1)), PedirSegmento(PRIMERO, None), b.km.(pendiente := Some(PRIMERO)));
    assert b.partes - {1} == map[];
    x := b.(ks := KsDesalojo.EnPedido(s, KsEstado.Alloc(1)).(canal := Some(KsEstado.Alloc(1))), km := b.km.(pendiente := Some(PRIMERO)),
            atendido := Some(PedirSegmento(PRIMERO, None)), partes := map[]);
  }

  lemma SegunTres()
    ensures var ins := Instruccion(MEM_ALLOC, [Texto(0), Texto(3)]);
            Segun(map[1 := Llamada(En(4), ins)], PedirSegmento(PRIMERO, None))
  {
    ParsearTexto(0);
    ParsearTexto(3);
  }

  lemma PrimerFin()
    ensures Paso(CHICA, Durante(4, [DOS], BYTES, HUECOS).(pendiente := Some(PRIMERO)), FinCompactacion(Some(PRIMERO), true),
                 Durante(4, [CORRIDO, CERO], [3, 2, 3, 4, 5], [Interval(4, 1)]))
  {
    hide Paso;
    var s := Durante(4, [DOS], BYTES, HUECOS).(pendiente := Some(PRIMERO));
    var t := Durante(4, [CORRIDO, CERO], [3, 2, 3, 4, 5], [Interval(4, 1)]);
    var u := Bajada(s, En(3), En(4), DOS);
    assert u == Durante(4, [CORRIDO], [3, 2, 3, 4, 5], [Interval(1, 4)]) by {
      assert Splice(BYTES, 0, [3]) == [3, 2, 3, 4, 5];
    }
    Posiciones(En(3), [], En(4), [CORRIDO]);
    assert [CORRIDO] + [CERO] == [CORRIDO, CERO];
    Asigna(u, t, 1, PRIMERO, 1);
    Fin(s, t, En(3), En(4), DOS, PRIMERO);
  }

  /** Nobody else runs: the compaction is done at once and the request answered. */
  lemma Compactado() returns (x: Sistema)
    ensures Quieta(x, KsDesalojo.Contestada(), Durante(4, [CORRIDO, CERO], [3, 2, 3, 4, 5], [Interval(4, 1)]))
  {
    hide SeAlcanza, Paso, KsHallazgos.Da, Progs, Durante;
    var s := KsDesalojo.UnoCorriendo();
    var a := PideTres();
    var s1 := a.ks;
    KsDesalojo.Pedida(s1, 1);
    Lleva(a, KsPasos.Compactar(1), s1.(pedida := Some(1)));
    var b := a.(ks := s1.(pedida := Some(1)));
    KsDesalojo.MarcaNadie(s1, 1);
    var s2 := s1.(fase := KsEstado.Marcada(1, 0, 0, 0));
    Lleva(b, KsPasos.Marca, s2);
    var d := b.(ks := s2);
    KsDesalojo.Enviada(s2, 1, 0, 0);
    var s3 := s2.(fase := KsEstado.FinEnviado(1, 0));
    Lleva(d, KsPasos.EnviaFin, s3);
    var e := d.(ks := s3);
    PrimerFin();
    var km := Durante(4, [CORRIDO, CERO], [3, 2, 3, 4, 5], [Interval(4, 1)]);
    var f := e.(km := km, atendido := Some(FinCompactacion(Some(PRIMERO), true)));
    Sigue(e, Atiende(FinCompactacion(Some(PRIMERO), true)), f);
    KsDesalojo.Contestacion(s, 1);
    Contesta(f, KsPasos.AllocFin(1, true), KsDesalojo.Contestada());
    x := f.(ks := KsDesalojo.Contestada(), atendido := None);
  }

  /** PID 1 gives the first segment back, and the other is between two holes. */
  lemma OtraVezFragmentada() returns (x: Sistema)
    ensures Quieta(x, KsDesalojo.Contestada(), Durante(5, [CERO], [3, 2, 3, 4, 5], [Interval(0, 1), Interval(4, 1)]))
  {
    hide SeAlcanza;
    var a := Compactado();
    assert [CORRIDO] + [CERO] == [CORRIDO, CERO];
    x := Achica(a, KsDesalojo.Contestada(), 4, CORRIDO, [CERO], [3, 2, 3, 4, 5], Interval(4, 1));
  }

  // ---------------------------------------------------------------- a return is left over

  /** Kernel Memory from here on, but for the registers of PID 1. */
  function Partida(pc: U32): Km {
    Durante(pc, [CERO], [3, 2, 3, 4, 5], [Interval(0, 1), Interval(4, 1)])
  }

  /** PID 0 wakes up before the compaction is over, and PID 1 is marked. */
  lemma Marcado() returns (x: Sistema)
    ensures Quieta(x, KsDesalojo.Marcado(), Partida(5))
  {
    hide SeAlcanza, KsHallazgos.Da, KsDesalojo.Marcado, KsDesalojo.Contestada, Durante;
    var a := OtraVezFragmentada();
    KsDesalojo.Despierta();
    Lleva(a, KsPasos.IoFin(0, false), KsDesalojo.Marcado());
    x := a.(ks := KsDesalojo.Marcado());
  }

  lemma RetomaUno(x: Sistema, pc: U32, segs: seq<Segmento>, mem: seq<Byte>, huecos: seq<Interval>) returns (y: Sistema)
    requires SeAlcanza(x) && x == Sistema(x.ks, Durante(pc, segs, mem, huecos), None, map[], map[], x.llamadas) && 1 in x.ks.exec
    ensures SeAlcanza(y) && y == x.(cpus := map[1 := Copia(segs, En(pc))])
  {
    hide SeAlcanza, Progs;
    RegistrosUno(En(3), [], En(pc), segs, mem, huecos, En(pc));
    Retoma(x, 1, 1);
    y := x.(cpus := map[1 := Copia(segs, En(pc))]);
  }

  /** On its CPU it executes one more instruction ... */
  lemma UnaMas() returns (x: Sistema)
    ensures SeAlcanza(x) && x == Sistema(KsDesalojo.Marcado(), Partida(5), None, map[1 := Copia([CERO], En(6))], map[], x.llamadas)
  {
    hide SeAlcanza, Progs, Transcurre, Durante;
    var a := Marcado();
    var b := RetomaUno(a, 5, [CERO], [3, 2, 3, 4, 5], [Interval(0, 1), Interval(4, 1)]);
    Programa(1, 5);
    x := b.(cpus := map[1 := Copia([CERO], En(6))]);
    Pasa(b, 1);
    assert b.cpus[1 := x.cpus[1]] == x.cpus;
    Sigue(b, Ejecuta(1), x);
  }

  /** ... and stops, with its context stored. */
  lemma Obedece() returns (x: Sistema)
    ensures SeAlcanza(x) && x == Sistema(KsDesalojo.Marcado(), Partida(6), None, map[], map[1 := Parte(Interrupcion, SinAtender)], x.llamadas)
  {
    hide SeAlcanza, Progs, ConRegistros, Cinco, Dos;
    var a := UnaMas();
    var b := a.(partes := map[1 := Parte(Interrupcion, SinAtender)]);
    Sigue(a, Corta(1, Interrupcion), b);
    RegistrosUno(En(3), [], En(5), [CERO], [3, 2, 3, 4, 5], [Interval(0, 1), Interval(4, 1)], En(6));
    Deposita(b, 1, 1);
    assert b.cpus - {1} == map[];
    x := b.(km := Partida(6), cpus := map[]);
  }

  /** Its return counts, and nobody waits for it. */
  lemma Sobra() returns (x: Sistema)
    ensures Quieta(x, KsDesalojo.Sobrante().(fase := KsEstado.Normal, tokens := 5), Partida(6))
  {
    hide SeAlcanza, KsHallazgos.Da, KsDesalojo.Saca, Partida;
    var a := Obedece();
    KsDesalojo.Para();
    Oye(a, KsPasos.Interrumpe(1), KsDesalojo.Sobrante(), 1);
    assert a.partes - {1} == map[];
    var b := a.(ks := KsDesalojo.Sobrante(), partes := map[]);
    x := b.(ks := KsDesalojo.Sobrante().(fase := KsEstado.Normal, tokens := 5));
    Lleva(b, KsPasos.Reanuda, x.ks);
  }

  /** Both run. */
  lemma Corren() returns (x: Sistema)
    ensures Quieta(x, KsDesalojo.DosCorriendo(), Partida(6))
  {
    hide SeAlcanza, KsHallazgos.Da, KsHallazgos.Despachable, KsDesalojo.DosCorriendo, KsEstado.Despachar, Partida;
    var a := Sobra();
    KsDesalojo.DosCorriendoEs();
    var s1 := KsEstado.Despachar(a.ks.(tokens := 4), 0, 0);
    Despacha(a, 0, 0, s1);
    var b := a.(ks := s1);
    var s2 := s1.(cpus := [KsEstado.CpuEntry(7, true), KsEstado.CpuEntry(8, false)], tokens := 5);
    Lleva(b, KsPasos.ConectarCpu(8), s2);
    var d := b.(ks := s2);
    Despacha(d, 1, 1, KsDesalojo.DosCorriendo());
    x := d.(ks := KsDesalojo.DosCorriendo());
  }

  // ---------------------------------------------------------------- the second compaction

  const SEGUNDO := Pedido(0, 7, 2)
  const PIDE := Instruccion(MEM_ALLOC, [Texto(7), Texto(2)])

  function EnRestos(): Km {
    Cinco(Dos(En(4), [], En(6), [CERO]), [3, 2, 3, 4, 5], [Interval(0, 1), Interval(4, 1)], None)
  }

  /** PID 1 is on its CPU ... */
  lemma Retomado() returns (x: Sistema)
    ensures SeAlcanza(x) && x == Sistema(KsDesalojo.DosCorriendo(), Partida(6), None, map[1 := Copia([CERO], En(6))], map[], x.llamadas)
  {
    hide SeAlcanza, Progs, Durante;
    var a := Corren();
    x := RetomaUno(a, 6, [CERO], [3, 2, 3, 4, 5], [Interval(0, 1), Interval(4, 1)]);
  }

  /** ... and PID 0 asks for two bytes. */
  lemma PideDos() returns (x: Sistema)
    ensures SeAlcanza(x) && x == Sistema(KsDesalojo.DosCorriendo(), EnRestos(), None, map[1 := Copia([CERO], En(6))],
                                         map[0 := Parte(FinDeRafaga.Syscall(PIDE), SinAtender)], x.llamadas)
    ensures 0 in x.llamadas && x.llamadas[0] == Llamada(En(4), PIDE)
  {
    hide SeAlcanza, Progs;
    var a := Retomado();
    RegistrosCero(En(3), [], En(6), [CERO], [3, 2, 3, 4, 5], [Interval(0, 1), Interval(4, 1)], En(4));
    Programa(0, 3);
    x := Turno(a, 0, 0, PIDE);
  }

  function EnEspera(): KsEstado.Ks {
    KsDesalojo.DosCorriendo().(exec := [1], mano := multiset{0}, tareas := [KsEstado.Alloc(0)], canal := Some(KsEstado.Alloc(0)))
  }

  lemma SegunDos()
    ensures Segun(map[0 := Llamada(En(4), PIDE)], PedirSegmento(SEGUNDO, None))
  {
    ParsearTexto(7);
    ParsearTexto(2);
  }

  lemma Aguarda() returns (x: Sistema)
    ensures SeAlcanza(x) && x == Sistema(EnEspera(), EnRestos().(pendiente := Some(SEGUNDO)), Some(PedirSegmento(SEGUNDO, None)),
                                         map[1 := Copia([CERO], En(6))], map[], x.llamadas)
  {
    hide SeAlcanza, Progs, Paso, KsHallazgos.Da, Segun, Llamo;
    var a := PideDos();
    SegunDos();
    Pedida(a, 0, En(4), PIDE, PedirSegmento(SEGUNDO, None));
    RegistrosCero(En(4), [], En(6), [CERO], [3, 2, 3, 4, 5], [Interval(0, 1), Interval(4, 1)], En(4));
    Difiere(a.km, 0, SEGUNDO);
    KsDesalojo.OtraPide();
    PideMemoria(a, 0, true, EnEspera().(canal := None), PedirSegmento(SEGUNDO, None), a.km.(pendiente := Some(SEGUNDO)));
    assert a.partes - {0} == map[];
    x := a.(ks := EnEspera(), km := a.km.(pendiente := Some(SEGUNDO)), atendido := Some(PedirSegmento(SEGUNDO, None)), partes := map[]);
  }

  /** The return left over is taken for the one of PID 1. */
  lemma Adelantado() returns (x: Sistema)
    ensures SeAlcanza(x) && x == Sistema(KsDesalojo.FinAntesDeTiempo(), EnRestos().(pendiente := Some(SEGUNDO)), Some(PedirSegmento(SEGUNDO, None)),
                                         map[1 := Copia([CERO], En(6))], map[], x.llamadas)
  {
    hide SeAlcanza, KsHallazgos.Da, EnRestos;
    var a := Aguarda();
    KsDesalojo.Pedida(a.ks, 0);
    Lleva(a, KsPasos.Compactar(0), KsDesalojo.OtraPedida());
    var b := a.(ks := KsDesalojo.OtraPedida());
    KsDesalojo.OtraMarca();
    var s := KsDesalojo.FinAntesDeTiempo();
    var s1, s2 := s.(fase := KsEstado.Marcada(0, 1, 1, 1), devueltas := 1), s.(fase := KsEstado.Marcada(0, 0, 1, 1));
    Lleva(b, KsPasos.Marca, s1);
    KsDesalojo.Recogida(s1, 0, 1, 1);
    Lleva(b.(ks := s1), KsPasos.Recoge, s2);
    KsDesalojo.Enviada(s2, 0, 1, 1);
    Lleva(b.(ks := s2), KsPasos.EnviaFin, s);
    x := b.(ks := s);
  }

  lemma DelPlanificador(x: Sistema)
    requires SeAlcanza(x)
    ensures KsHallazgos.SeAlcanza(PLAN, x.ks)
  {
    hide Progs, Transcurre, Inicio;
    var xs: seq<Sistema>, ms: seq<Movimiento> :| Marcha(CHICA, PLAN, Progs(), xs, ms) && xs[|ms|] == x;
    MarchaKs(CHICA, PLAN, Progs(), xs, ms, |ms|);
  }

  /**
   * With queue preemption FIN_COMPACTACION can be sent while a process still runs: a
   * process marked by one that wakes up and stopped between Kernel Memory's answer and
   * the end of a compaction leaves a return behind, and the next compaction takes it
   * for the one it waits for.
   */
  lemma FinConAlguienCorriendo() returns (x: Sistema)
    ensures SeAlcanza(x) && KsHallazgos.SeAlcanza(PLAN, x.ks) && x.ks.fase.FinEnviado? && x.ks.exec != []
  {
    hide SeAlcanza, KsHallazgos.SeAlcanza, EnRestos;
    x := Adelantado();
    DelPlanificador(x);
  }

  /** Kernel Memory has moved the segment of PID 1 and put that of PID 0 after it. */
  function Movida(mem: seq<Byte>): Km {
    Cinco(Dos(En(4), [Segmento(7, 0, 3, 2)], En(6), [Abajo(CERO)]), mem, [], None)
  }

  lemma BajaCero()
    ensures Bajada(EnRestos().(pendiente := Some(SEGUNDO)), En(4), En(6), CERO)
         == Cinco(Dos(En(4), [], En(6), [Abajo(CERO)]), [2, 3, 4, 4, 5], [Interval(3, 2)], None)
  {
    var mem: seq<Byte> := [3, 2, 3, 4, 5];
    assert mem[1..4] == [2, 3, 4];
    assert Splice(mem, 0, [2, 3, 4]) == [2, 3, 4, 4, 5];
  }

  lemma SegundoFin()
    ensures Paso(CHICA, EnRestos().(pendiente := Some(SEGUNDO)), FinCompactacion(Some(SEGUNDO), true), Movida([2, 3, 4, 4, 5]))
  {
    hide Paso, Bajada;
    BajaCero();
    var u := Cinco(Dos(En(4), [], En(6), [Abajo(CERO)]), [2, 3, 4, 4, 5], [Interval(3, 2)], None);
    Posiciones(En(4), [], En(6), [Abajo(CERO)]);
    assert [] + [Segmento(7, 0, 3, 2)] == [Segmento(7, 0, 3, 2)];
    Asigna(u, Movida([2, 3, 4, 4, 5]), 0, SEGUNDO, 3);
    Fin(EnRestos().(pendiente := Some(SEGUNDO)), Movida([2, 3, 4, 4, 5]), En(4), En(6), CERO, SEGUNDO);
  }

  /** PID 1 runs on with the table of before the compaction. */
  function Atrasado(mem: seq<Byte>, pc: U32, llamadas: map<Pid, Llamada>): Sistema {
    Sistema(KsDesalojo.FinAntesDeTiempo(), Movida(mem), Some(FinCompactacion(Some(SEGUNDO), true)), map[1 := Copia([CERO], En(pc))], map[], llamadas)
  }

  lemma AtrasadoSeAlcanza() returns (x: Sistema)
    ensures SeAlcanza(x) && x == Atrasado([2, 3, 4, 4, 5], 6, x.llamadas)
  {
    hide SeAlcanza, Paso, EnRestos, Movida, Progs;
    var a := Adelantado();
    SegundoFin();
    x := Atrasado([2, 3, 4, 4, 5], 6, a.llamadas);
    Sigue(a, Atiende(FinCompactacion(Some(SEGUNDO), true)), x);
  }

  // ---------------------------------------------------------------- the lost byte

  const ANTES: Pieza := Pieza(0, [2, 3, 4])

  /** Running alone, the byte is stored. */
  lemma SoloGuarda()
    ensures UnPaso(4, Progs()(1), Solo(En(6), multiset{ANTES})) == Solo(En(7), multiset{Pieza(0, [0, 3, 4])})
  {
    Programa(1, 6);
    var v := multiset{ANTES};
    assert ANTES in v;
    assert PiezaCon(v, 0) == Some(ANTES);
    assert Splice(ANTES.bytes, 0, [0]) == [0, 3, 4];
    assert EscribirEn(v, 0, 0, [0]) == multiset{Pieza(0, [0, 3, 4])};
  }

  /** On the CPU it lands where the segment was. */
  lemma GuardaMal()
    ensures var mem: seq<Byte> := [2, 0, 4, 4, 5];
            PasoCpu(Fisica([CERO], 4), [2, 3, 4, 4, 5], En(6), Instruccion(MOV_OUT, ["AX"])) == Salida(CpuOk, mem, En(7))
  {
    var mem: seq<Byte> := [2, 3, 4, 4, 5];
    assert BuscarSegmento([CERO], 0) == Some(0);
    assert Traducir([CERO], 4, 0, 1) == MmuOk(Traduccion(0, 0, 0, 1, 3));
    assert Splice(mem, 1, [0]) == [2, 0, 4, 4, 5];
    assert EscribirFisica([CERO], 4, mem, 0, [0]) == [2, 0, 4, 4, 5];
  }

  lemma EjecutaMal(llamadas: map<Pid, Llamada>)
    ensures Transcurre(CHICA, PLAN, Progs(), Atrasado([2, 3, 4, 4, 5], 6, llamadas), Ejecuta(1), Atrasado([2, 0, 4, 4, 5], 7, llamadas))
  {
    hide Progs, PasoCpu, Fisica;
    Programa(1, 6);
    GuardaMal();
    var x, y := Atrasado([2, 3, 4, 4, 5], 6, llamadas), Atrasado([2, 0, 4, 4, 5], 7, llamadas);
    assert x.cpus[1 := y.cpus[1]] == y.cpus;
  }

  lemma LoQueHay(mem: seq<Byte>, pc: U32, llamadas: map<Pid, Llamada>, datos: seq<Byte>)
    requires |mem| == 5 && mem[0..3] == datos
    ensures Es(Atrasado(mem, pc, llamadas), 1) == Some(Solo(En(pc), multiset{Pieza(0, datos)}))
  {
    LoDeUno(Movida(mem), En(4), [Segmento(7, 0, 3, 2)], En(6), Abajo(CERO), datos);
  }

  /**
   * From the start of the program the system can reach a state in which the next
   * instruction of a process is not what it would be alone: it stores a byte, and the
   * byte is not in its memory. Its CPU is still there and nothing is amiss with the
   * configuration; the only hypothesis of SistemaSolo the run does not meet is that no
   * marking finds a return left over.
   */
  lemma EscrituraPerdida() returns (x: Sistema, y: Sistema)
    ensures SeAlcanza(x) && Transcurre(CHICA, PLAN, Progs(), x, Ejecuta(1), y) && !SeCae(x, Ejecuta(1), 1)
    ensures !SoloPaso(CHICA, Progs()(1), Ejecuta(1), 1, Es(x, 1), Es(y, 1))
  {
    hide SeAlcanza, Transcurre, Progs, Atrasado, UnPaso, Es;
    x := AtrasadoSeAlcanza();
    y := Atrasado([2, 0, 4, 4, 5], 7, x.llamadas);
    EjecutaMal(x.llamadas);
    LoQueHay([2, 3, 4, 4, 5], 6, x.llamadas, [2, 3, 4]);
    LoQueHay([2, 0, 4, 4, 5], 7, x.llamadas, [2, 0, 4]);
    SoloGuarda();
    assert [2, 0, 4] != [0, 3, 4] by {
      assert [2, 0, 4][0] != [0, 3, 4][0];
    }
    assert Pieza(0, [2, 0, 4]) !in multiset{Pieza(0, [0, 3, 4])};
  }
}
