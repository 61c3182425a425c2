/** Kernel Memory at the end of the scheduler's connection: what it serves is what the connection delivers, and a request is deferred exactly when it needs a compaction. */
module KmJunto {
  import opened Basics
  import opened KmEstado
  import opened KmOperaciones
  import opened KmAsignacion
  import opened KmCorridas
  import KmChannel

  datatype Junto = Junto(km: Km, enlace: KmChannel.Enlace)

  datatype Accion =
    | Conexion(suceso: KmChannel.Suceso)   // the scheduler's side, and notices
    | Sirve(evento: Evento)                // Kernel Memory takes the next message of this connection
    | Aparte(evento: Evento)               // Kernel Memory serves a CPU, a stick or a swap device

  /** The request on the connection and the event of Kernel Memory are of the same kind. */
  predicate Corresponde(m: KmChannel.AKm, e: Evento) {
    match m
    case Pedido(_, alloc) => KmChannel.DeKs(e) && (alloc <==> e.PedirSegmento?)
    case FinCompactacion => e.FinCompactacion?
  }

  predicate Difiere(e: Evento) {
    e.PedirSegmento? && e.respuesta == None
  }

  ghost predicate Avanza(c: Config, x: Junto, a: Accion, y: Junto) {
    match a
    case Conexion(s) => !s.Atiende? && KmChannel.Puede(x.enlace, s) && y == x.(enlace := KmChannel.Despues(x.enlace, s))
    case Sirve(e) =>
      && x.enlace.haciaKm != [] && Corresponde(x.enlace.haciaKm[0], e)
      && Paso(c, x.km, e, y.km) && y.enlace == KmChannel.Despues(x.enlace, KmChannel.Atiende(Difiere(e)))
    case Aparte(e) =>
      && (e.GuardarContexto? || e.RegistrarStick? || e.IdentificarSwap?)
      && Paso(c, x.km, e, y.km) && y.enlace == x.enlace
  }

  /** Both ends agree on whether an allocation is waiting, and if one is it can be served. */
  ghost predicate Acorde(c: Config, x: Junto) {
    && Inv(x.km) && PendienteOk(x.km, c.segMax) && KmChannel.Sano(x.enlace)
    && (x.km.pendiente.Some? <==> x.enlace.pendiente.Some?)
  }

  lemma CrearMismoPendiente(s: Km, t: Km, c: Config, p: Pedido, r: Resultado)
    requires CrearStep(s, t, c.segMax, c.peor, p.pid, p.id, p.tamanio, r)
    ensures t.pendiente == s.pendiente
  {
  }

  /** Kernel Memory has a request waiting exactly after it has deferred one. */
  lemma PendienteTras(c: Config, s: Km, e: Evento, t: Km)
    requires Inv(s) && PendienteOk(s, c.segMax) && Paso(c, s, e, t) && s.pendiente == None
    ensures t.pendiente.Some? <==> Difiere(e)
  {
    hide Inv;
    match e
    case PedirSegmento(p, r) =>
      var u, res :| CrearStep(s, u, c.segMax, c.peor, p.pid, p.id, p.tamanio, res)
        && t == (if res == Compactar then u.(pendiente := Some(p)) else u)
        && r == (if res == Compactar then None else Some(res == Ok));
      CrearMismoPendiente(s, u, c, p, res);
    case FinCompactacion(p, ok) => FinCompactacionResponde(s, t, c.segMax, c.peor, if p.None? then None else Some(ok));
    case Suspender(_, _, _) =>
    case _ =>
  }

  lemma AparteMismo(c: Config, s: Km, e: Evento, t: Km)
    requires Paso(c, s, e, t) && (e.GuardarContexto? || e.RegistrarStick? || e.IdentificarSwap?)
    ensures t.pendiente == s.pendiente
  {
    hide Inv;
  }

  lemma EnOrden(c: Config, x: Junto, e: Evento)
    requires Acorde(c, x) && x.enlace.haciaKm != [] && Corresponde(x.enlace.haciaKm[0], e)
    ensures Ordenado(x.km, e)
    ensures e.FinCompactacion? <==> x.km.pendiente.Some?
  {
    hide Inv, PendienteOk, KmChannel.Sano;
    KmChannel.Disciplina(x.enlace, x.km, e);
    KmChannel.CabezaEs(x.enlace);
  }

  lemma SirveAcorde(c: Config, x: Junto, e: Evento, y: Junto)
    requires Acorde(c, x) && Avanza(c, x, Sirve(e), y) && c.segMax <= I32_MAX
    ensures Acorde(c, y)
  {
    hide Inv, Paso, KmChannel.Sano, PendienteOk;
    EnOrden(c, x, e);
    PasoRefina(c, x.km, e, y.km);
    PasoPendienteOk(c, x.km, e, y.km);
    KmChannel.PasoSano(x.enlace, KmChannel.Atiende(Difiere(e)));
    AmbosPendientes(c, x, e, y);
  }

  lemma AmbosPendientes(c: Config, x: Junto, e: Evento, y: Junto)
    requires Acorde(c, x) && Avanza(c, x, Sirve(e), y)
    ensures y.km.pendiente.Some? <==> y.enlace.pendiente.Some?
  {
    hide Inv, Paso, PendienteOk;
    EnOrden(c, x, e);
    if e.FinCompactacion? {
      FinSinPendiente(c, x.km, e, y.km);
    } else {
      PendienteTras(c, x.km, e, y.km);
    }
  }

  lemma FinSinPendiente(c: Config, s: Km, e: Evento, t: Km)
    requires Inv(s) && PendienteOk(s, c.segMax) && e.FinCompactacion? && Paso(c, s, e, t)
    ensures t.pendiente == None && (s.pendiente.Some? ==> e.pendiente == s.pendiente && e.ok)
  {
    hide Inv;
    FinCompactacionResponde(s, t, c.segMax, c.peor, if e.pendiente.None? then None else Some(e.ok));
  }

  lemma AvanzaAcorde(c: Config, x: Junto, a: Accion, y: Junto)
    requires Acorde(c, x) && Avanza(c, x, a, y) && c.segMax <= I32_MAX
    ensures Acorde(c, y)
  {
    match a
    case Conexion(s) =>
      hide Inv, PendienteOk;
      KmChannel.PasoSano(x.enlace, s);
    case Sirve(e) => SirveAcorde(c, x, e, y);
    case Aparte(e) =>
      hide Inv, Paso, PendienteOk;
      PasoRefina(c, x.km, e, y.km);
      PasoPendienteOk(c, x.km, e, y.km);
      AparteMismo(c, x.km, e, y.km);
  }

  ghost predicate CorridaJunta(c: Config, xs: seq<Junto>, acciones: seq<Accion>) {
    && |xs| == |acciones| + 1 && xs[0] == Junto(INICIAL, KmChannel.LIBRE)
    && forall i :: 0 <= i < |acciones| ==> Avanza(c, xs[i], acciones[i], xs[i + 1])
  }

  lemma InicioAcorde(c: Config)
    ensures Acorde(c, Junto(INICIAL, KmChannel.LIBRE))
  {
    InicialInv();
  }

  lemma {:induction false} CorridaAcorde(c: Config, xs: seq<Junto>, acciones: seq<Accion>, i: nat)
    requires CorridaJunta(c, xs, acciones) && c.segMax <= I32_MAX && i < |xs|
    ensures Acorde(c, xs[i])
  {
    hide Acorde, Avanza;
    if i == 0 {
      InicioAcorde(c);
    } else {
      CorridaAcorde(c, xs, acciones, i - 1);
      AvanzaAcorde(c, xs[i - 1], acciones[i - 1], xs[i]);
    }
  }

  /**
   * In every run of both ends from the start: FIN_COMPACTACION reaches Kernel Memory
   * only when an allocation waits, its process then gets the piece it asked for, and
   * the answer that goes out is the one for the request that was deferred.
   */
  lemma SiempreAtendido(c: Config, xs: seq<Junto>, acciones: seq<Accion>, i: nat, e: Evento)
    requires CorridaJunta(c, xs, acciones) && c.segMax <= I32_MAX && i < |acciones|
    requires acciones[i] == Sirve(e) && xs[i].enlace.haciaKm != [] && xs[i].enlace.haciaKm[0] == KmChannel.FinCompactacion
    ensures e.FinCompactacion? && e.pendiente == xs[i].km.pendiente && e.pendiente.Some? && e.ok
    ensures Agrega(Vista(xs[i].km, e.pendiente.value.pid), Vista(xs[i + 1].km, e.pendiente.value.pid), e.pendiente.value.id, e.pendiente.value.tamanio)
    ensures xs[i].enlace.pendiente.Some? && xs[i + 1].enlace.pendiente == None
    ensures xs[i + 1].enlace.haciaKs == xs[i].enlace.haciaKs + [KmChannel.Respuesta(xs[i].enlace.pendiente.value)]
  {
    hide Inv, Paso, PendienteOk, PasoSimple, Agrega, Vista;
    CorridaAcorde(c, xs, acciones, i);
    assert Avanza(c, xs[i], acciones[i], xs[i + 1]);
    EnOrden(c, xs[i], e);
    FinSinPendiente(c, xs[i].km, e, xs[i + 1].km);
    Agregado(c, xs[i].km, e, xs[i + 1].km);
  }

  lemma Agregado(c: Config, s: Km, e: Evento, t: Km)
    requires Inv(s) && c.segMax <= I32_MAX && Paso(c, s, e, t) && e.FinCompactacion? && e.pendiente.Some? && e.ok
    ensures Agrega(Vista(s, e.pendiente.value.pid), Vista(t, e.pendiente.value.pid), e.pendiente.value.id, e.pendiente.value.tamanio)
  {
    hide Inv, Agrega;
    PasoRefina(c, s, e, t);
    assert PasoSimple(c, e, e.pendiente.value.pid, Vista(s, e.pendiente.value.pid), Vista(t, e.pendiente.value.pid));
  }
}
