/**
 * The one connection between the Kernel Scheduler and Kernel Memory: requests and
 * FIN_COMPACTACION one way, answers and notices the other, and the slot in which the
 * listener leaves an answer for km_request. Answers carry no number on the wire; the
 * model remembers for which request Kernel Memory made each of them.
 */
module KmChannel {
  import opened Basics
  import KmEstado
  import KmCorridas

  datatype AKm = Pedido(id: nat, alloc: bool) | FinCompactacion
  datatype AKs = Respuesta(id: nat) | Compactar | MasMemoria | Bsod

  datatype Enlace = Enlace(
    proximo: nat,                 // requests made so far
    enVuelo: Option<nat>,         // km_request in progress, under mutex_km_req
    haciaKm: seq<AKm>,
    haciaKs: seq<AKs>,
    pendiente: Option<nat>,       // compact_pend_*: the CREAR_SEGMENTO not answered yet
    hilos: nat,                   // handle_compactar threads that have not sent FIN_COMPACTACION
    slot: Option<nat>,            // ultimo_resp_km
    servidos: seq<(nat, nat)>,    // each request with the answer it took
    pisados: nat)                 // answers lost because the slot was full

  const LIBRE := Enlace(0, None, [], [], None, 0, None, [], 0)

  datatype Suceso =
    | Pide(alloc: bool)           // km_request sends
    | Atiende(difiere: bool)      // Kernel Memory takes a message; a CREAR_SEGMENTO may need a compaction
    | Avisa(bsod: bool)           // MAS_MEMORIA or BSOD, at any time
    | Escucha                     // thread_km_listener takes a message
    | EnviaFin                    // handle_compactar sends FIN_COMPACTACION
    | Consume                     // km_request takes the answer

  predicate Puede(x: Enlace, e: Suceso) {
    match e
    case Pide(_) => x.enVuelo == None
    case Atiende(_) => x.haciaKm != []
    case Avisa(_) => true
    case Escucha => x.haciaKs != []
    case EnviaFin => x.hilos > 0
    case Consume => x.enVuelo.Some? && x.slot.Some?
  }

  function Despues(x: Enlace, e: Suceso): Enlace
    requires Puede(x, e)
  {
    match e
    case Pide(alloc) =>
      x.(proximo := x.proximo + 1, enVuelo := Some(x.proximo), haciaKm := x.haciaKm + [Pedido(x.proximo, alloc)])
    case Atiende(difiere) =>
      var y := x.(haciaKm := x.haciaKm[1..]);
      (match x.haciaKm[0]
       case Pedido(id, alloc) =>
         if alloc && difiere then y.(pendiente := Some(id), haciaKs := x.haciaKs + [Compactar])
         else y.(haciaKs := x.haciaKs + [Respuesta(id)])
       case FinCompactacion =>
         if x.pendiente.Some? then y.(pendiente := None, haciaKs := x.haciaKs + [Respuesta(x.pendiente.value)]) else y)
    case Avisa(bsod) => x.(haciaKs := x.haciaKs + [if bsod then Bsod else MasMemoria])
    case Escucha =>
      var y := x.(haciaKs := x.haciaKs[1..]);
      (match x.haciaKs[0]
       case Respuesta(id) => y.(slot := Some(id), pisados := x.pisados + Bit(x.slot.Some?))
       case Compactar => y.(hilos := x.hilos + 1)
       case _ => y)
    case EnviaFin => x.(hilos := x.hilos - 1, haciaKm := x.haciaKm + [FinCompactacion])
    case Consume => x.(enVuelo := None, slot := None, servidos := x.servidos + [(x.enVuelo.value, x.slot.value)])
  }

  // ---------------------------------------------------------------- the invariant

  /** The messages to the scheduler that are not notices. */
  function Filtro(ms: seq<AKs>): seq<AKs> {
    if ms == [] then []
    else if ms[0].MasMemoria? || ms[0].Bsod? then Filtro(ms[1..])
    else [ms[0]] + Filtro(ms[1..])
  }

  lemma {:induction false} FiltroAlFinal(ms: seq<AKs>, m: AKs)
    ensures Filtro(ms + [m]) == Filtro(ms) + (if m.MasMemoria? || m.Bsod? then [] else [m])
  {
    if ms == [] {
      assert [m][1..] == [] && Filtro([m][1..]) == [];
    } else {
      assert (ms + [m])[1..] == ms[1..] + [m];
      FiltroAlFinal(ms[1..], m);
    }
  }

  /** Where the request in progress is: it is in exactly one place. */
  predicate Fase(x: Enlace, id: nat) {
    var f := Filtro(x.haciaKs);
    || (x.haciaKm == [Pedido(id, true)] && f == [] && x.pendiente == None && x.hilos == 0 && x.slot == None)
    || (x.haciaKm == [Pedido(id, false)] && f == [] && x.pendiente == None && x.hilos == 0 && x.slot == None)
    || (x.haciaKm == [] && f == [Compactar] && x.pendiente == Some(id) && x.hilos == 0 && x.slot == None)
    || (x.haciaKm == [] && f == [] && x.pendiente == Some(id) && x.hilos == 1 && x.slot == None)
    || (x.haciaKm == [FinCompactacion] && f == [] && x.pendiente == Some(id) && x.hilos == 0 && x.slot == None)
    || (x.haciaKm == [] && f == [Respuesta(id)] && x.pendiente == None && x.hilos == 0 && x.slot == None)
    || (x.haciaKm == [] && f == [] && x.pendiente == None && x.hilos == 0 && x.slot == Some(id))
  }

  predicate Quieto(x: Enlace) {
    x.haciaKm == [] && Filtro(x.haciaKs) == [] && x.pendiente == None && x.hilos == 0 && x.slot == None
  }

  /** Requests 0, 1, 2, ... each with its own answer. */
  function Pares(n: nat): (r: seq<(nat, nat)>)
    ensures |r| == n
  {
    if n == 0 then [] else Pares(n - 1) + [(n - 1, n - 1)]
  }

  predicate Sano(x: Enlace) {
    && x.pisados == 0
    && match x.enVuelo
       case None => Quieto(x) && x.servidos == Pares(x.proximo)
       case Some(id) => x.proximo == id + 1 && Fase(x, id) && x.servidos == Pares(id)
  }

  lemma PasoSano(x: Enlace, e: Suceso)
    requires Sano(x) && Puede(x, e)
    ensures Sano(Despues(x, e))
  {
    match e
    case Pide(alloc) =>
    case Atiende(difiere) =>
      FiltroAlFinal(x.haciaKs, Compactar);
      if x.haciaKm[0].Pedido? {
        FiltroAlFinal(x.haciaKs, Respuesta(x.haciaKm[0].id));
      } else if x.pendiente.Some? {
        FiltroAlFinal(x.haciaKs, Respuesta(x.pendiente.value));
      }
    case Avisa(bsod) => FiltroAlFinal(x.haciaKs, if bsod then Bsod else MasMemoria);
    case Escucha => EscuchaSano(x);
    case EnviaFin =>
    case Consume =>
  }

  lemma EscuchaSano(x: Enlace)
    requires Sano(x) && x.haciaKs != []
    ensures Sano(Despues(x, Escucha))
  {
    var m := x.haciaKs[0];
    if m.Respuesta? || m.Compactar? {
      assert Filtro(x.haciaKs) == [m] + Filtro(x.haciaKs[1..]);
      assert Filtro(x.haciaKs)[0] == m;
      assert Filtro(x.haciaKs[1..]) == Filtro(x.haciaKs)[1..];
    }
  }

  // ---------------------------------------------------------------- runs

  ghost predicate Corrida(xs: seq<Enlace>, es: seq<Suceso>) {
    && |xs| == |es| + 1 && xs[0] == LIBRE
    && forall i :: 0 <= i < |es| ==> Puede(xs[i], es[i]) && xs[i + 1] == Despues(xs[i], es[i])
  }

  lemma {:induction false} CorridaSana(xs: seq<Enlace>, es: seq<Suceso>, i: nat)
    requires Corrida(xs, es) && i < |xs|
    ensures Sano(xs[i])
  {
    if i > 0 {
      CorridaSana(xs, es, i - 1);
      PasoSano(xs[i - 1], es[i - 1]);
    }
  }

  lemma {:induction false} ParesEs(n: nat, k: nat)
    requires k < n
    ensures Pares(n)[k] == (k, k)
  {
    if k < n - 1 {
      ParesEs(n - 1, k);
    }
  }

  /**
   * Every km_request takes the answer Kernel Memory made for it, requests are served
   * in the order they were made, none is skipped, and no answer is ever lost: the
   * slot is empty whenever the listener fills it. Notices and deferred answers in
   * between make no difference.
   */
  lemma CadaUnoLaSuya(xs: seq<Enlace>, es: seq<Suceso>, i: nat, k: nat)
    requires Corrida(xs, es) && i < |xs|
    ensures xs[i].pisados == 0
    ensures |xs[i].servidos| + Bit(xs[i].enVuelo.Some?) == xs[i].proximo
    ensures k < |xs[i].servidos| ==> xs[i].servidos[k] == (k, k)
  {
    CorridaSana(xs, es, i);
    if k < |xs[i].servidos| {
      ParesEs(|xs[i].servidos|, k);
    }
  }

  /**
   * While an allocation is deferred the scheduler's connection carries nothing to
   * Kernel Memory but FIN_COMPACTACION, and it is sent once.
   */
  lemma SoloFin(xs: seq<Enlace>, es: seq<Suceso>, i: nat)
    requires Corrida(xs, es) && i < |xs| && xs[i].pendiente.Some?
    ensures xs[i].haciaKm == [] || xs[i].haciaKm == [FinCompactacion]
    ensures |xs[i].haciaKm| + xs[i].hilos + |Filtro(xs[i].haciaKs)| == 1
  {
    CorridaSana(xs, es, i);
  }

  /** handle_compactar waits in vain for nobody: no answer is on its way before FIN_COMPACTACION has been sent. */
  lemma SinRespuestaAntesDelFin(xs: seq<Enlace>, es: seq<Suceso>, i: nat, id: nat)
    requires Corrida(xs, es) && i < |xs| && (xs[i].hilos > 0 || Compactar in Filtro(xs[i].haciaKs))
    ensures xs[i].slot == None && Respuesta(id) !in Filtro(xs[i].haciaKs) && xs[i].hilos <= 1
  {
    CorridaSana(xs, es, i);
  }

  /** Events of Kernel Memory that come over this connection as requests. */
  predicate DeKs(e: KmCorridas.Evento) {
    e.CrearProceso? || e.PedirSegmento? || e.EliminarSegmento? || e.LeerDatos? || e.EscribirDatos?
    || e.Suspender? || e.Desuspender? || e.Finalizar?
  }

  /** The head of the connection is FIN_COMPACTACION exactly while an allocation waits. */
  lemma CabezaEs(x: Enlace)
    requires Sano(x) && x.haciaKm != []
    ensures x.haciaKm[0] == FinCompactacion <==> x.pendiente.Some?
  {
  }

  /** The discipline that the answer to a deferred allocation relies on is the one this connection enforces. */
  lemma Disciplina(x: Enlace, s: KmEstado.Km, e: KmCorridas.Evento)
    requires Sano(x) && (s.pendiente.Some? <==> x.pendiente.Some?)
    requires DeKs(e) ==> x.haciaKm != [] && x.haciaKm[0].Pedido?
    ensures KmCorridas.Ordenado(s, e)
  {
  }
}
