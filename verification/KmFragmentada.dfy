/** Five bytes of memory and two processes: allocations, deletions and two compactions of Kernel Memory, state by state. */
module KmFragmentada {
  import opened Basics
  import opened Intervals
  import opened Sticks
  import opened Contexto
  import opened KmEstado
  import opened KmAsignacion
  import opened KmCompactacion
  import opened KmOperaciones
  import opened KmCorridas

  const CHICA := Config(4, false)
  const BYTES: seq<Byte> := [1, 2, 3, 4, 5]

  function Cinco(contextos: seq<Contexto>, mem: seq<Byte>, huecos: seq<Interval>, pendiente: Option<Pedido>): Km {
    Km([StickInfo(0, 0, 5)], mem, contextos, huecos, [], [], [], 0, false, pendiente)
  }

  function Vacia(contextos: seq<Contexto>): Km {
    Cinco(contextos, BYTES, [Interval(0, 5)], None)
  }

  lemma PrimerStick()
    ensures Paso(CHICA, INICIAL, RegistrarStick(BYTES, true), Vacia([]))
  {
    assert [] + [StickInfo(0, 0, 5)] == [StickInfo(0, 0, 5)];
    assert [] + [Interval(0, 5)] == [Interval(0, 5)];
  }

  /** The contexts of PID 0 and PID 1. */
  function Dos(r0: Registros, g0: seq<Segmento>, r1: Registros, g1: seq<Segmento>): seq<Contexto> {
    [Contexto(0, r0, g0), Contexto(1, r1, g1)]
  }

  lemma Posiciones(r0: Registros, g0: seq<Segmento>, r1: Registros, g1: seq<Segmento>)
    ensures Buscar(Dos(r0, g0, r1, g1), 0) == Some(0) && Buscar(Dos(r0, g0, r1, g1), 1) == Some(1)
  {
  }

  // ---------------------------------------------------------------- allocations

  /** The first bytes of the hole that fits go to the process. */
  lemma Asigna(s: Km, t: Km, k: nat, p: Pedido, h: nat)
    requires s.sticks == [StickInfo(0, 0, 5)] && Buscar(s.contextos, p.pid) == Some(k) && h < 5
    requires BuscarSegmento(s.contextos[k].segmentos, p.id).None? && 0 < p.tamanio <= 4
    requires s.huecos == [Interval(h, 5 - h)] && p.tamanio <= 5 - h
    requires t == s.(huecos := if p.tamanio == 5 - h then [] else [Interval(h + p.tamanio, 5 - h - p.tamanio)],
                     contextos := s.contextos[k := s.contextos[k].(segmentos := s.contextos[k].segmentos + [Segmento(p.id, 0, h, p.tamanio)])])
    ensures CrearStep(s, t, 4, false, p.pid, p.id, p.tamanio, Ok) && Paso(CHICA, s, PedirSegmento(p, Some(true)), t)
  {
    assert StickAt(s.sticks, h) == Some(0);
    assert s.huecos[0].size >= p.tamanio;
    assert RemoveAt(s.huecos, 0) == [];
    assert Tomable(s, 0, p.tamanio) && Elegido(false, s.huecos, p.tamanio, 0);
    assert t == ConSegmento(s, k, 0, p.id, p.tamanio);
    assert CrearStep(s, t, 4, false, p.pid, p.id, p.tamanio, Ok);
    assert PedirSegmentoStep(s, t, 4, false, p, Some(true));
  }

  /** Enough bytes in two holes, and neither is large enough: the request waits. */
  lemma Difiere(s: Km, k: nat, p: Pedido)
    requires Buscar(s.contextos, p.pid) == Some(k) && BuscarSegmento(s.contextos[k].segmentos, p.id).None?
    requires |s.huecos| == 2 && s.huecos[0].size < p.tamanio && s.huecos[1].size < p.tamanio
    requires 0 < p.tamanio <= 4 && p.tamanio <= s.huecos[0].size + s.huecos[1].size
    ensures Paso(CHICA, s, PedirSegmento(p, None), s.(pendiente := Some(p)))
  {
    assert s.huecos[1..] == [s.huecos[1]];
    assert Sum([s.huecos[1]]) == s.huecos[1].size;
    assert CrearStep(s, s, 4, false, p.pid, p.id, p.tamanio, Resultado.Compactar);
  }

  // ---------------------------------------------------------------- deletions

  lemma Cubre(a: Interval, b: Interval, x: int)
    ensures Cover([a], x) == Bit(Holds(a, x)) && Cover([a, b], x) == Bit(Holds(a, x)) + Bit(Holds(b, x))
  {
    assert [a, b][1..] == [b];
    assert Cover([b], x) == Bit(Holds(b, x));
  }

  /** The first segment of PID 1 goes; what it held does not touch the other hole. */
  lemma Elimina(s: Km, t: Km, g: Segmento, resto: seq<Segmento>)
    requires Buscar(s.contextos, 1) == Some(1) && s.contextos[1].segmentos == [g] + resto
    requires |s.huecos| == 1 && g.limite > 0 && s.huecos[0].size > 0
    requires !Adjacent(Span(g), s.huecos[0]) && !Adjacent(s.huecos[0], Span(g))
    requires t == s.(huecos := [Span(g), s.huecos[0]], contextos := s.contextos[1 := s.contextos[1].(segmentos := resto)])
    ensures Paso(CHICA, s, EliminarSegmento(1, g.id), t)
  {
    assert BuscarSegmento(s.contextos[1].segmentos, g.id) == Some(0);
    assert RemoveAt([g] + resto, 0) == resto;
    assert s.huecos + [Span(g)] == [s.huecos[0], Span(g)];
    forall x
      ensures Cover(t.huecos, x) == Cover(s.huecos + [Span(g)], x)
    {
      Cubre(Span(g), s.huecos[0], x);
      Cubre(s.huecos[0], Span(g), x);
    }
    assert Eliminado(s, t, 1, 0);
  }

  // ---------------------------------------------------------------- compactions

  function Abajo(g: Segmento): Segmento {
    g.(base := 0)
  }

  lemma Baja(s: Km, r0: Registros, r1: Registros, g: Segmento)
    requires s.sticks == [StickInfo(0, 0, 5)] && |s.mem| == 5 && s.contextos == Dos(r0, [], r1, [g])
    requires 0 < g.base && 0 < g.limite && g.base + g.limite <= 5 && g.stick == 0
    ensures Mover(s, Ref(1, 0, Span(g)), 0)
         == s.(mem := Splice(s.mem, 0, s.mem[g.base..g.base + g.limite]), contextos := Dos(r0, [], r1, [Abajo(g)]))
  {
    assert InStick(s.sticks[0], 0);
    assert StickAt(s.sticks, 0) == Some(0);
    assert [g][0 := Abajo(g)] == [Abajo(g)];
    assert ConBase(s.sticks, s.contextos, Ref(1, 0, Span(g)), 0) == Dos(r0, [], r1, [Abajo(g)]);
  }

  /** The only segment in memory goes to address 0, and the rest is one hole. */
  lemma Compactada(s: Km, r0: Registros, r1: Registros, g: Segmento)
    requires s.sticks == [StickInfo(0, 0, 5)] && |s.mem| == 5 && s.contextos == Dos(r0, [], r1, [g])
    requires 0 < g.base && 0 < g.limite && g.base + g.limite <= 5 && g.stick == 0
    ensures Compactado(s) == s.(mem := Splice(s.mem, 0, s.mem[g.base..g.base + g.limite]), contextos := Dos(r0, [], r1, [Abajo(g)]),
                                huecos := [Interval(g.limite, 5 - g.limite)])
  {
    var r := Ref(1, 0, Span(g));
    assert RefsDe(1, [g]) == [r] && RefsDe(0, []) == [];
    assert Refs(s.contextos, 2) == [];
    assert Refs(s.contextos, 1) == [r];
    assert Refs(s.contextos, 0) == [r];
    assert [r][1..] == [];
    assert RefsOrdenadas(s.contextos) == [r];
    Baja(s, r0, r1, g);
    assert RefSum([r]) == g.limite;
    var m := Mover(s, r, 0);
    assert MoverTodos(m, [], g.limite) == m;
    assert MoverTodos(s, [r], 0) == m;
  }

  /** Memory once the segment has gone down and nothing waits. */
  function Bajada(s: Km, r0: Registros, r1: Registros, g: Segmento): Km
    requires |s.mem| == 5 && 0 < g.limite && g.base + g.limite <= 5
  {
    s.(mem := Splice(s.mem, 0, s.mem[g.base..g.base + g.limite]), contextos := Dos(r0, [], r1, [Abajo(g)]),
       huecos := [Interval(g.limite, 5 - g.limite)], pendiente := None)
  }

  /** FIN_COMPACTACION: the segment goes down, and the waiting request is tried again. */
  lemma Fin(s: Km, t: Km, r0: Registros, r1: Registros, g: Segmento, p: Pedido)
    requires s.sticks == [StickInfo(0, 0, 5)] && |s.mem| == 5 && s.contextos == Dos(r0, [], r1, [g])
    requires 0 < g.base && 0 < g.limite && g.base + g.limite <= 5 && g.stick == 0 && s.pendiente == Some(p)
    requires CrearStep(Bajada(s, r0, r1, g), t, 4, false, p.pid, p.id, p.tamanio, Ok)
    ensures Paso(CHICA, s, FinCompactacion(Some(p), true), t)
  {
    hide CrearStep, Compactado;
    Compactada(s, r0, r1, g);
    assert ReintentoStep(Bajada(s, r0, r1, g), t, 4, false, p, Some(true));
  }

  // ---------------------------------------------------------------- what PID 1 has

  lemma LoDeUno(s: Km, r0: Registros, g0: seq<Segmento>, r1: Registros, g: Segmento, datos: seq<Byte>)
    requires s.contextos == Dos(r0, g0, r1, [g]) && s.metas == []
    requires g.base + g.limite <= |s.mem| && s.mem[g.base..g.base + g.limite] == datos
    ensures Buscar(s.contextos, 1) == Some(1) && Vista(s, 1) == Some(multiset{Pieza(g.id, datos)})
  {
    Posiciones(r0, g0, r1, [g]);
    assert Residentes(s.mem, [g]) == [Pieza(g.id, datos)];
    assert EnSwap(s.disco, s.metas, 1) == [];
    assert Contenido(s, 1) == multiset{Pieza(g.id, datos)};
  }
}
