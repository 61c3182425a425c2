/** What a step of Kernel Memory can do to the entries in swap and to the deferred request. */
module KmRastro {
  import opened Basics
  import opened Intervals
  import opened Contexto
  import opened KmEstado
  import opened KmAsignacion
  import opened KmCompactacion
  import opened KmSwap
  import opened KmReanudar
  import opened KmOperaciones
  import opened KmCorridas
  import opened KmIdentidades

  /** An entry appears only by suspending its process, and a process that has been brought back has none. */
  lemma MetasTras(c: Config, s: Km, e: Evento, t: Km, m: SwapMeta)
    requires Paso(c, s, e, t) && m in t.metas
    ensures m in s.metas || (e.Suspender? && e.ok && m.pid == e.pid)
    ensures e.Desuspender? && e.resultado == Restaurado ==> m.pid != e.pid
  {
    hide SameCover, DiscoOk, Reservado, Liberado, FueraDe, Cargados, SegmentoDe, Colocar;
    match e
    case Suspender(pid, averia, ok) =>
      if ok && t.metas != s.metas {
        SuspendeMetas(s, t, pid, m);
      }
    case Desuspender(pid, averia, r) =>
      DesuspendeMetas(s, t, c.peor, pid, averia, r, m);
    case Finalizar(pid) =>
      if t != s {
        MenosMetas(s.metas, pid, m);
      }
    case PedirSegmento(p, r) =>
      PideMetas(c, s, p, r, t);
    case FinCompactacion(p, ok) =>
      CompactaMetas(c, s, t, if p.None? then None else Some(ok));
    case _ =>
  }

  lemma MenosMetas(metas: seq<SwapMeta>, pid: U32, m: SwapMeta)
    requires m in MetasSin(metas, pid)
    ensures m.pid != pid && m in metas
  {
    var i :| 0 <= i < |MetasSin(metas, pid)| && MetasSin(metas, pid)[i] == m;
  }

  lemma SuspendeMetas(s: Km, t: Km, pid: U32, m: SwapMeta)
    requires SuspenderStep(s, t, pid, false, true) && t.metas != s.metas && m in t.metas
    ensures m in s.metas || m.pid == pid
  {
    hide SameCover, DiscoOk, Reservado;
    var k := Buscar(s.contextos, pid).value;
    var nuevas :| Suspendido(s, t, k, nuevas);
    if m !in s.metas {
      var i :| 0 <= i < |nuevas| && nuevas[i] == m;
      assert Copiado(s, t.disco, s.contextos[k].pid, s.contextos[k].segmentos[i], nuevas[i]);
    }
  }

  lemma DesuspendeMetas(s: Km, t: Km, peor: bool, pid: U32, averia: bool, r: Reanudacion, m: SwapMeta)
    requires DesuspenderStep(s, t, peor, pid, averia, r) && m in t.metas
    ensures m in s.metas && (r == Restaurado ==> m.pid != pid)
  {
    hide SameCover, Liberado, FueraDe, Cargados, SegmentoDe, Colocar;
    if r == Restaurado && t != s {
      MenosMetas(s.metas, pid, m);
    } else if r == Restaurado && m.pid == pid {
      SinMetas(s.metas, pid, m);
    }
  }

  lemma {:induction false} SinMetas(metas: seq<SwapMeta>, pid: U32, m: SwapMeta)
    requires m in metas && m.pid == pid
    ensures MetasDe(metas, pid) != []
  {
    if metas[0] != m {
      SinMetas(metas[1..], pid, m);
    }
  }

  lemma {:induction false} NingunaMeta(metas: seq<SwapMeta>, pid: U32)
    requires forall m :: m in metas ==> m.pid != pid
    ensures MetasDe(metas, pid) == []
  {
    if metas != [] {
      NingunaMeta(metas[1..], pid);
    }
  }

  lemma CreaMetas(c: Config, s: Km, p: Pedido, r: Resultado, t: Km)
    requires CrearStep(s, t, c.segMax, c.peor, p.pid, p.id, p.tamanio, r)
    ensures t.metas == s.metas && t.pendiente == s.pendiente
  {
  }

  lemma PideMetas(c: Config, s: Km, p: Pedido, r: Option<bool>, t: Km)
    requires PedirSegmentoStep(s, t, c.segMax, c.peor, p, r)
    ensures t.metas == s.metas && t.pendiente == if r == None then Some(p) else s.pendiente
  {
    var u, res :| CrearStep(s, u, c.segMax, c.peor, p.pid, p.id, p.tamanio, res)
      && t == (if res == Resultado.Compactar then u.(pendiente := Some(p)) else u)
      && r == (if res == Resultado.Compactar then None else Some(res == Ok));
    CreaMetas(c, s, p, res, u);
  }

  lemma CompactaMetas(c: Config, s: Km, t: Km, r: Option<bool>)
    requires FinCompactacionStep(s, t, c.segMax, c.peor, r)
    ensures t.metas == s.metas && t.pendiente == None
  {
    CompactadoSwap(s);
    if s.pendiente.Some? {
      var u, p := Compactado(s).(pendiente := None), s.pendiente.value;
      var res :| CrearStep(u, t, c.segMax, c.peor, p.pid, p.id, p.tamanio, res);
      CreaMetas(c, u, p, res, t);
    }
  }

  lemma PendienteTras(c: Config, s: Km, e: Evento, t: Km)
    requires Paso(c, s, e, t) && t.pendiente.Some?
    ensures !e.FinCompactacion? && if e.PedirSegmento? && e.respuesta == None then t.pendiente == Some(e.pedido) else t.pendiente == s.pendiente
  {
    hide SameCover, DiscoOk, Reservado, Liberado, FueraDe, Cargados, SegmentoDe, Colocar;
    match e
    case PedirSegmento(p, r) => PideMetas(c, s, p, r, t);
    case FinCompactacion(p, ok) => CompactaMetas(c, s, t, if p.None? then None else Some(ok));
    case _ =>
  }
}
