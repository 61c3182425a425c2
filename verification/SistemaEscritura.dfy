/** STDIN over whole runs of the system: a process wakes up with the bytes it waited for already in its memory. */
module SistemaEscritura {
  import opened Basics
  import opened KmEstado
  import opened KmOperaciones
  import opened KmCorridas
  import opened Sistema
  import KsEstado
  import KsInvariantes
  import KsPasos
  import KsCorridas
  import KsTraslados

  /** What Kernel Memory has done is for the request on the channel. */
  predicate AtendidoOk(x: Sistema) {
    x.atendido.Some? ==> x.ks.canal.Some? && (x.atendido.value.FinCompactacion? || Pide(x.ks.canal.value, x.atendido.value))
  }

  lemma PlanificaAtendido(cfg: KsEstado.Cfg, x: Sistema, s: KsPasos.Suceso, y: Sistema)
    requires KsInvariantes.Inv(cfg, x.ks, None, 0) && AtendidoOk(x) && PlanificaPaso(cfg, x, s, y)
    ensures KsInvariantes.Inv(cfg, y.ks, None, 0) && AtendidoOk(y)
  {
    hide KsInvariantes.Inv, KsPasos.Despues, KsPasos.Puede, Dicho, Escuchadas, Caidos;
    KsPasos.PasoInv(cfg, x.ks, s);
    KsTraslados.TareasDe(cfg, x.ks, s);
    if s.TomarCanal? {
      ToCanal(cfg, x.ks, s);
    }
  }

  lemma PasoAtendido(c: Config, cfg: KsEstado.Cfg, progs: Programas, x: Sistema, m: Movimiento, y: Sistema)
    requires KsInvariantes.Inv(cfg, x.ks, None, 0) && AtendidoOk(x) && Transcurre(c, cfg, progs, x, m, y)
    ensures KsInvariantes.Inv(cfg, y.ks, None, 0) && AtendidoOk(y)
  {
    hide KsInvariantes.Inv, Paso;
    if m.Planifica? {
      hide PlanificaPaso;
      PlanificaAtendido(cfg, x, m.suceso, y);
    } else {
      MismoKs(c, cfg, progs, x, m, y);
    }
  }

  /** Only the scheduler moves the scheduler, and only Kernel Memory serves it. */
  lemma MismoKs(c: Config, cfg: KsEstado.Cfg, progs: Programas, x: Sistema, m: Movimiento, y: Sistema)
    requires Transcurre(c, cfg, progs, x, m, y) && !m.Planifica?
    ensures y.ks == x.ks && y.atendido == if m.Atiende? then Some(m.evento) else x.atendido
    ensures m.Atiende? ==> if m.evento.FinCompactacion? then x.atendido.Some? else x.ks.canal.Some? && Pide(x.ks.canal.value, m.evento)
  {
    hide Paso, Corte, Pide, Segun, GuardarContextoStep;
  }

  lemma {:induction false} MarchaAtendido(c: Config, cfg: KsEstado.Cfg, progs: Programas, xs: seq<Sistema>, ms: seq<Movimiento>, n: nat)
    requires Marcha(c, cfg, progs, xs, ms) && n <= |ms|
    ensures KsInvariantes.Inv(cfg, xs[n].ks, None, 0) && AtendidoOk(xs[n])
  {
    hide KsInvariantes.Inv, Transcurre, AtendidoOk;
    if n == 0 {
      KsCorridas.InicialInv(cfg);
      assert AtendidoOk(Inicio(cfg)) by {
        InicioAtendido(cfg);
      }
    } else {
      MarchaAtendido(c, cfg, progs, xs, ms, n - 1);
      PasoAtendido(c, cfg, progs, xs[n - 1], ms[n - 1], xs[n]);
    }
  }

  lemma InicioAtendido(cfg: KsEstado.Cfg)
    requires cfg.n > 0
    ensures AtendidoOk(Inicio(cfg))
  {
  }

  // ---------------------------------------------------------------- bytes to be written

  /** Kernel Memory has written STDIN bytes for `p`. */
  predicate Escritura(e: Evento, p: Pid) {
    e.EscribirDatos? && e.pid == p && e.ok
  }

  /** The bytes of `p` have still to be written, and it waits for that, or it has ended. */
  predicate PorEscribir(x: Sistema, p: Pid) {
    || (p in x.ks.procs && x.ks.procs[p].estado == KsEstado.EXIT)
    || (KsTraslados.Escribe(x.ks, p) && !(x.atendido.Some? && Escritura(x.atendido.value, p)))
  }

  lemma LlegaPorEscribir(cfg: KsEstado.Cfg, x: Sistema, e: KsPasos.Suceso, y: Sistema, p: Pid)
    requires KsInvariantes.Inv(cfg, x.ks, None, 0) && AtendidoOk(x) && PlanificaPaso(cfg, x, e, y) && KsTraslados.Ordena(x.ks, e, p)
    ensures PorEscribir(y, p)
  {
    hide KsInvariantes.Inv, KsPasos.Despues, KsPasos.Puede, Dicho, Escuchadas, Caidos, Concuerda;
    KsTraslados.EmpiezaAEscribir(cfg, x.ks, e, p);
    if x.atendido.Some? && Escritura(x.atendido.value, p) && e.StdinDatos? {
      CanalPendiente(cfg, x.ks);
      KsTraslados.EscribeSi(cfg, x.ks, p);
      assert false;
    }
  }

  lemma PlanificaPorEscribir(cfg: KsEstado.Cfg, x: Sistema, s: KsPasos.Suceso, y: Sistema, p: Pid)
    requires KsInvariantes.Inv(cfg, x.ks, None, 0) && PlanificaPaso(cfg, x, s, y) && PorEscribir(x, p)
    ensures PorEscribir(y, p)
  {
    hide KsInvariantes.Inv, KsPasos.Despues, KsPasos.Puede, Dicho, Escuchadas, Caidos;
    if p in x.ks.procs && x.ks.procs[p].estado == KsEstado.EXIT {
      SigueEnterrado(cfg, x.ks, s, p);
    } else if s.StdinFin? && s.pid == p {
      KsTraslados.AcabaDeEscribir(cfg, x.ks, p, s.ok);
    } else {
      KsTraslados.SigueEscribiendo(cfg, x.ks, s, p);
    }
  }

  lemma {:induction false} MarchaPorEscribir(c: Config, cfg: KsEstado.Cfg, progs: Programas, xs: seq<Sistema>, ms: seq<Movimiento>,
                                             i: nat, j: nat, p: Pid)
    requires Marcha(c, cfg, progs, xs, ms) && i < j <= |ms| && ms[i].Planifica? && KsTraslados.Ordena(xs[i].ks, ms[i].suceso, p)
    requires forall k :: i < k < j ==> !(ms[k].Atiende? && Escritura(ms[k].evento, p))
    ensures PorEscribir(xs[j], p)
  {
    hide KsInvariantes.Inv, Transcurre, AtendidoOk, PorEscribir, KsTraslados.Ordena, Escritura;
    MarchaAtendido(c, cfg, progs, xs, ms, j - 1);
    if j == i + 1 {
      Primero(c, cfg, progs, xs[i], ms[i], xs[j], p);
    } else {
      MarchaPorEscribir(c, cfg, progs, xs, ms, i, j - 1, p);
      Siguiente(c, cfg, progs, xs[j - 1], ms[j - 1], xs[j], p);
    }
  }

  lemma Primero(c: Config, cfg: KsEstado.Cfg, progs: Programas, x: Sistema, m: Movimiento, y: Sistema, p: Pid)
    requires KsInvariantes.Inv(cfg, x.ks, None, 0) && AtendidoOk(x) && Transcurre(c, cfg, progs, x, m, y)
    requires m.Planifica? && KsTraslados.Ordena(x.ks, m.suceso, p)
    ensures PorEscribir(y, p)
  {
    hide KsInvariantes.Inv, PlanificaPaso, PorEscribir;
    LlegaPorEscribir(cfg, x, m.suceso, y, p);
  }

  lemma Siguiente(c: Config, cfg: KsEstado.Cfg, progs: Programas, x: Sistema, m: Movimiento, y: Sistema, p: Pid)
    requires KsInvariantes.Inv(cfg, x.ks, None, 0) && Transcurre(c, cfg, progs, x, m, y) && PorEscribir(x, p)
    requires !(m.Atiende? && Escritura(m.evento, p))
    ensures PorEscribir(y, p)
  {
    if m.Planifica? {
      hide KsInvariantes.Inv, PlanificaPaso, PorEscribir;
      PlanificaPorEscribir(cfg, x, m.suceso, y, p);
    } else {
      hide KsInvariantes.Inv, Transcurre, KsTraslados.Escribe;
      MismoKs(c, cfg, progs, x, m, y);
    }
  }

  /**
   * In every run: once STDIN bytes have come for a process that waits in memory, or one
   * that has them comes back to memory, it is READY only after Kernel Memory has written
   * them where its syscall asked.
   */
  lemma EscritoAntesDeListo(c: Config, cfg: KsEstado.Cfg, progs: Programas, xs: seq<Sistema>, ms: seq<Movimiento>,
                            i: nat, j: nat, p: Pid) returns (k: nat)
    requires Marcha(c, cfg, progs, xs, ms) && i < j <= |ms| && ms[i].Planifica? && KsTraslados.Ordena(xs[i].ks, ms[i].suceso, p)
    requires p in xs[j].ks.procs && xs[j].ks.procs[p].estado == KsEstado.READY
    ensures i < k < j && ms[k].Atiende? && Escritura(ms[k].evento, p)
    ensures EscribirDatosStep(xs[k].km, xs[k + 1].km, c.segMax, p, ms[k].evento.dir, ms[k].evento.datos, true)
    ensures p in xs[k].llamadas && xs[k].llamadas[p].ins.opcode.STDIN? && Consola(xs[k].llamadas[p], ms[k].evento.dir, |ms[k].evento.datos|)
  {
    if forall k :: i < k < j ==> !(ms[k].Atiende? && Escritura(ms[k].evento, p)) {
      hide KsInvariantes.Inv, Transcurre, KsTraslados.Ordena, Escritura;
      MarchaPorEscribir(c, cfg, progs, xs, ms, i, j, p);
      assert false;
    }
    k :| i < k < j && ms[k].Atiende? && Escritura(ms[k].evento, p);
    assert Transcurre(c, cfg, progs, xs[k], ms[k], xs[k + 1]);
  }
}
