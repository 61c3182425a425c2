/** Segment ids over whole runs: exactly when they stay unique, and a run in which they do not. */
module KmIdentidades {
  import opened Basics
  import opened Intervals
  import opened Sticks
  import opened Contexto
  import opened KmEstado
  import opened KmAsignacion
  import opened KmCompactacion
  import opened KmSwap
  import opened KmOperaciones
  import opened KmCorridas

  ghost predicate TodosUnicos(s: Km) {
    forall q: U32 {:trigger Vista(s, q)} :: Vista(s, q).Some? ==> IdsUnicos(Vista(s, q).value)
  }

  /** The allocation an event carries out. */
  function Asignada(e: Evento): Option<Pedido> {
    match e
    case PedirSegmento(p, r) => if r == Some(true) then Some(p) else None
    case FinCompactacion(p, ok) => if ok then p else None
    case _ => None
  }

  /** The process it is for has no segment with that id in swap. */
  ghost predicate SinRepetir(s: Km, e: Evento) {
    match Asignada(e)
    case None => true
    case Some(p) => SinId(multiset(EnSwap(s.disco, s.metas, p.pid)), p.id)
  }

  // ---------------------------------------------------------------- one step

  lemma {:induction false} MoverTodosSwap(s: Km, refs: seq<Ref>, cursor: int)
    ensures MoverTodos(s, refs, cursor).metas == s.metas && MoverTodos(s, refs, cursor).disco == s.disco
    decreases |refs|
  {
    if refs != [] {
      MoverTodosSwap(Mover(s, refs[0], cursor), refs[1..], cursor + refs[0].span.size);
    }
  }

  lemma CompactadoSwap(s: Km)
    ensures Compactado(s).metas == s.metas && Compactado(s).disco == s.disco
  {
    MoverTodosSwap(s, RefsOrdenadas(s.contextos), 0);
  }

  /** An allocation that succeeds, seen from its process. */
  lemma CrearUnicos(c: Config, s: Km, t: Km, p: Pedido)
    requires Inv(s) && c.segMax <= I32_MAX && CrearStep(s, t, c.segMax, c.peor, p.pid, p.id, p.tamanio, Ok)
    requires TodosUnicos(s)
    ensures Vista(t, p.pid).Some?
    ensures IdsUnicos(Vista(t, p.pid).value) <==> SinId(multiset(EnSwap(s.disco, s.metas, p.pid)), p.id)
  {
    hide Inv, IdsUnicos, SinId, EnSwap;
    var k := Buscar(s.contextos, p.pid).value;
    assert Vista(s, p.pid) == Some(Contenido(s, k));
    CrearIds(c, s, t, p, k);
  }

  lemma PendienteUnicos(s: Km)
    requires Inv(s) && TodosUnicos(s)
    ensures var u := Compactado(s).(pendiente := None); Inv(u) && TodosUnicos(u)
  {
    hide Inv, IdsUnicos;
    CompactadoPendiente(s);
    forall q: U32
      ensures Vista(Compactado(s).(pendiente := None), q) == Vista(s, q)
    {
    }
  }

  lemma AsignaUnicos(c: Config, s: Km, e: Evento, t: Km, p: Pedido)
    requires Inv(s) && c.segMax <= I32_MAX && Paso(c, s, e, t) && TodosUnicos(s) && Asignada(e) == Some(p)
    ensures Vista(t, p.pid).Some?
    ensures IdsUnicos(Vista(t, p.pid).value) <==> SinRepetir(s, e)
  {
    hide Inv, IdsUnicos, SinId, EnSwap, TodosUnicos;
    match e
    case PedirSegmento(_, r) =>
      var u, res :| CrearStep(s, u, c.segMax, c.peor, p.pid, p.id, p.tamanio, res)
        && t == (if res == Compactar then u.(pendiente := Some(p)) else u)
        && r == (if res == Compactar then None else Some(res == Ok));
      CrearUnicos(c, s, t, p);
    case FinCompactacion(_, _) =>
      var u := Compactado(s).(pendiente := None);
      PendienteUnicos(s);
      CompactadoSwap(s);
      CrearUnicos(c, u, t, p);
  }

  /** Deleting, writing and creating cannot duplicate an id. */
  lemma SimpleUnicos(c: Config, e: Evento, q: U32, v: Deposito, w: Deposito)
    requires PasoSimple(c, e, q, v, w) && (v.Some? ==> IdsUnicos(v.value))
    requires Asignada(e).Some? ==> q != Asignada(e).value.pid
    ensures w.Some? ==> IdsUnicos(w.value)
  {
    if w != v {
      match e
      case CrearProceso(_, _) =>
      case EliminarSegmento(pid, id) =>
        var z: Pieza :| z in v.value && z.id == id && w == Some(v.value - multiset{z});
        IdsMenos(v.value, z);
      case EscribirDatos(pid, dir, datos, ok) =>
        EscribeUnicos(v, w, dir / c.segMax, dir % c.segMax, datos);
      case _ =>
    }
  }

  lemma IdsMenos(v: multiset<Pieza>, z: Pieza)
    requires IdsUnicos(v)
    ensures IdsUnicos(v - multiset{z})
  {
  }

  lemma EscribeUnicos(v: Deposito, w: Deposito, id: int, desp: nat, datos: seq<Byte>)
    requires Escribe(v, w, id, desp, datos) && IdsUnicos(v.value)
    ensures w.Some? && IdsUnicos(w.value)
  {
    var z: Pieza :| z in v.value && z.id == id && desp + |datos| <= |z.bytes|
      && w == Some(v.value - multiset{z} + multiset{z.(bytes := Splice(z.bytes, desp, datos))});
    IdsTrasEscribir(v.value, z, Splice(z.bytes, desp, datos));
  }

  /** A step keeps all ids unique if and only if it does not allocate an id its process has in swap. */
  lemma PasoUnicos(c: Config, s: Km, e: Evento, t: Km)
    requires Inv(s) && c.segMax <= I32_MAX && Paso(c, s, e, t) && TodosUnicos(s)
    ensures TodosUnicos(t) <==> SinRepetir(s, e)
  {
    hide Inv, IdsUnicos, SinId, Paso, PasoSimple, EnSwap;
    PasoRefina(c, s, e, t);
    forall q: U32 | Asignada(e).Some? ==> q != Asignada(e).value.pid
      ensures Vista(t, q).Some? ==> IdsUnicos(Vista(t, q).value)
    {
      SimpleUnicos(c, e, q, Vista(s, q), Vista(t, q));
    }
    if Asignada(e).Some? {
      AsignaUnicos(c, s, e, t, Asignada(e).value);
    }
  }

  // ---------------------------------------------------------------- whole runs

  lemma InicialUnicos()
    ensures TodosUnicos(INICIAL)
  {
    InicialInv();
  }

  /** Ids stay unique throughout a run from the start if and only if no allocation in it repeats an id its process has in swap. */
  lemma {:induction false} CorridaUnicos(c: Config, ss: seq<Km>, es: seq<Evento>, n: nat)
    requires Corrida(c, ss, es) && ss[0] == INICIAL && c.segMax <= I32_MAX && n <= |es|
    ensures (forall i :: 0 <= i <= n ==> TodosUnicos(ss[i])) <==> (forall i :: 0 <= i < n ==> SinRepetir(ss[i], es[i]))
  {
    hide Inv, Paso, TodosUnicos, SinRepetir;
    if n == 0 {
      InicialUnicos();
    } else {
      CorridaUnicos(c, ss, es, n - 1);
      if forall i :: 0 <= i <= n - 1 ==> TodosUnicos(ss[i]) {
        InicialInv();
        CorridaInv(c, ss, es, n - 1);
        PasoUnicos(c, ss[n - 1], es[n - 1], ss[n]);
        assert TodosUnicos(ss[n]) <==> SinRepetir(ss[n - 1], es[n - 1]);
      }
    }
  }

  // ---------------------------------------------------------------- reachable states

  ghost predicate SeAlcanza(c: Config, s: Km) {
    exists ss: seq<Km>, es: seq<Evento> :: Corrida(c, ss, es) && ss[0] == INICIAL && ss[|es|] == s
  }

  lemma SeAlcanzaInicial(c: Config)
    ensures SeAlcanza(c, INICIAL)
  {
    assert Corrida(c, [INICIAL], []);
  }

  lemma SeAlcanzaPaso(c: Config, s: Km, e: Evento, t: Km)
    requires SeAlcanza(c, s) && Paso(c, s, e, t)
    ensures SeAlcanza(c, t)
  {
    hide Paso;
    var ss: seq<Km>, es: seq<Evento> :| Corrida(c, ss, es) && ss[0] == INICIAL && ss[|es|] == s;
    var ss2, es2 := ss + [t], es + [e];
    forall i | 0 <= i < |es2|
      ensures Paso(c, ss2[i], es2[i], ss2[i + 1])
    {
      if i < |es| {
        assert ss2[i] == ss[i] && ss2[i + 1] == ss[i + 1] && es2[i] == es[i];
      }
    }
    assert Corrida(c, ss2, es2);
  }

  // ---------------------------------------------------------------- an id can be duplicated

  const CHICA := Config(1, false)

  function ConMemoria(): Km {
    Km([StickInfo(0, 0, 1)], [0], [], [Interval(0, 1)], [], [], [], 0, false, None)
  }

  function ConSwap(): Km {
    ConMemoria().(bitmap := [false], disco := [[7]], blockSize := 1, swapActivo := true)
  }

  function ConProceso(): Km {
    ConSwap().(contextos := [Contexto(0, REGISTROS_CERO, [])])
  }

  function Asignado(): Km {
    ConProceso().(contextos := [Contexto(0, REGISTROS_CERO, [Segmento(0, 0, 0, 1)])], huecos := [])
  }

  function EnDisco(): Km {
    ConProceso().(metas := [SwapMeta(0, 0, 1, [0])], bitmap := [true], disco := [[0]])
  }

  function Duplicado(): Km {
    EnDisco().(contextos := [Contexto(0, REGISTROS_CERO, [Segmento(0, 0, 0, 1)])], huecos := [])
  }

  lemma MemoriaSeAlcanza()
    ensures SeAlcanza(CHICA, ConSwap())
  {
    SeAlcanzaInicial(CHICA);
    MemoriaPaso();
    SeAlcanzaPaso(CHICA, INICIAL, RegistrarStick([0], true), ConMemoria());
    SeAlcanzaPaso(CHICA, ConMemoria(), IdentificarSwap(1, 1, false, true), ConSwap());
  }

  lemma MemoriaPaso()
    ensures Paso(CHICA, INICIAL, RegistrarStick([0], true), ConMemoria())
  {
    assert [] + [StickInfo(0, 0, 1)] == [StickInfo(0, 0, 1)];
    assert [] + [Interval(0, 1)] == [Interval(0, 1)];
  }

  lemma PrimeroPaso(s: Km, t: Km)
    requires (s == ConProceso() && t == Asignado()) || (s == EnDisco() && t == Duplicado())
    ensures Paso(CHICA, s, PedirSegmento(Pedido(0, 0, 1), Some(true)), t)
  {
    var p := Pedido(0, 0, 1);
    var ctx := s.contextos[0];
    assert Buscar(s.contextos, 0) == Some(0);
    assert s.huecos[0].size >= 1;
    assert RemoveAt(s.huecos, 0) == [];
    assert ctx.segmentos + [Segmento(0, 0, 0, 1)] == [Segmento(0, 0, 0, 1)];
    assert s.contextos[0 := ctx.(segmentos := [Segmento(0, 0, 0, 1)])] == t.contextos;
    assert Tomable(s, 0, 1) && Elegido(false, s.huecos, 1, 0) && t == ConSegmento(s, 0, 0, 0, 1);
    assert CrearStep(s, t, 1, false, 0, 0, 1, Ok);
    assert PedirSegmentoStep(s, t, 1, false, p, Some(true));
  }

  const TRAMO := Segmento(0, 0, 0, 1)
  const ENTRADA := SwapMeta(0, 0, 1, [0])

  lemma BloqueEscrito()
    ensures Escrito(EnDisco().disco, [0], [0], 1, 0)
  {
    assert Trozo([0], 1, 0) == [0];
  }

  lemma EntradaEs()
    ensures EsMeta(1, 1, 0, TRAMO, ENTRADA)
  {
    hide Bloques;
    UnBloque(1);
  }

  lemma UnBloque(n: nat)
    requires n == 1
    ensures Bloques(n, n) == 1
  {
  }

  lemma SuspendeBytes()
    ensures Copiado(Asignado(), EnDisco().disco, 0, TRAMO, ENTRADA)
  {
    hide EsMeta, Escrito;
    EntradaEs();
    BloqueEscrito();
    assert Bytes(Asignado().mem, 0, 1) == [0];
    assert Asignado().blockSize == 1 && |Asignado().bitmap| == 1;
  }

  lemma SuspendeBits()
    ensures Reservado([false], [true], [ENTRADA])
    ensures Necesarios([TRAMO], 1) == 1 && Libres([false]) == 1
  {
    assert [TRAMO][1..] == [] && [false][1..] == [] && [ENTRADA][1..] == [];
    assert multiset([0 as U32])[0] == 1;
  }

  lemma SuspendeEstado()
    ensures Suspendido(Asignado(), EnDisco(), 0, [ENTRADA])
  {
    hide Copiado, Reservado;
    SuspendeBytes();
    SuspendeBits();
    assert Spans([TRAMO]) == [Interval(0, 1)];
    assert [] + Spans([TRAMO]) == [Interval(0, 1)];
    assert [] + [ENTRADA] == [ENTRADA];
  }

  lemma SuspendePaso()
    ensures Paso(CHICA, Asignado(), Suspender(0, false, true), EnDisco())
  {
    hide Suspendido;
    SuspendeEstado();
    SuspendeBits();
    assert Buscar(Asignado().contextos, 0) == Some(0);
  }

  /**
   * A process in swap asks for an id it already has: crear_segmento, which looks only at
   * the resident table, gives it a second segment with that id.
   */
  lemma IdDuplicado() returns (s: Km)
    ensures SeAlcanza(CHICA, s) && Vista(s, 0).Some? && !IdsUnicos(Vista(s, 0).value)
  {
    hide SeAlcanza, Paso;
    MemoriaSeAlcanza();
    ProcesoPaso();
    SeAlcanzaPaso(CHICA, ConSwap(), CrearProceso(0, true), ConProceso());
    PrimeroPaso(ConProceso(), Asignado());
    SeAlcanzaPaso(CHICA, ConProceso(), PedirSegmento(Pedido(0, 0, 1), Some(true)), Asignado());
    SuspendePaso();
    SeAlcanzaPaso(CHICA, Asignado(), Suspender(0, false, true), EnDisco());
    PrimeroPaso(EnDisco(), Duplicado());
    SeAlcanzaPaso(CHICA, EnDisco(), PedirSegmento(Pedido(0, 0, 1), Some(true)), Duplicado());
    s := Duplicado();
    DosIguales();
  }

  lemma ProcesoPaso()
    ensures Paso(CHICA, ConSwap(), CrearProceso(0, true), ConProceso())
  {
    assert [] + [Contexto(0, REGISTROS_CERO, [])] == [Contexto(0, REGISTROS_CERO, [])];
  }

  lemma DosIguales()
    ensures Vista(Duplicado(), 0).Some? && !IdsUnicos(Vista(Duplicado(), 0).value)
  {
    var s := Duplicado();
    var z := Pieza(0, [0]);
    assert Buscar(s.contextos, 0) == Some(0);
    assert Bytes(s.mem, 0, 1) == [0];
    assert Residentes(s.mem, s.contextos[0].segmentos) == [z];
    assert Juntar(s.disco, [0]) == [0] by {
      assert [0 as U32][1..] == [];
    }
    assert s.metas[1..] == [];
    assert EnSwap(s.disco, s.metas, 0) == [z];
    assert Contenido(s, 0)[z] == 2;
    assert z in Contenido(s, 0);
  }
}
