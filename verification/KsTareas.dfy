/** The requests the scheduler's handlers have pending with Kernel Memory: which step opens one, and what the channel carries. */
module KsTareas {
  import opened Basics
  import opened KsMutex
  import opened KsEstado
  import opened KsInvariantes
  import opened KsPasos
  import opened KsCorridas
  import opened KsCiclo
  import opened KsEfectos
  import opened KsTraslados

  /** What a pending request says about its process: one that tells of an end is for a buried process. */
  predicate AvisosOk(s: Ks) {
    forall t :: t in s.tareas && t.Avisando? ==> t.pid in s.exit
  }

  lemma {:induction false} QuitarTareaMenos(ts: seq<Tarea>, t: Tarea)
    ensures forall x :: x in QuitarTarea(ts, t) ==> x in ts
  {
    if ts != [] {
      QuitarTareaMenos(ts[1..], t);
    }
  }

  /** A notice of an end is opened for the process that is buried. */
  lemma AbreAvisos(s: Ks, e: Suceso)
    ensures forall x :: x in Tabla(s, e).abre && x.Avisando? ==> Tabla(s, e).quien == Va(x.pid, EXIT, false)
    ensures forall p :: Escribiendo(p) in Tabla(s, e).abre ==> Ordena(s, e, p)
  {
  }

  /**
   * The channel changes hands only by being taken and by an answer; notices of an end are
   * for the buried; and bytes are left to be written exactly by the two steps that receive
   * them or bring their process back, until the answer.
   */
  lemma Tareas(cfg: Cfg, s: Ks, e: Suceso)
    requires Inv(cfg, s, None, 0) && Puede(cfg, s, e) && AvisosOk(s)
    ensures var t := Despues(cfg, s, e);
            && AvisosOk(t) && s.exit <= t.exit
            && t.canal == (if DeMemoria(e) then None else if e.TomarCanal? then Some(e.tarea) else s.canal)
            && forall p :: Escribiendo(p) in t.tareas <==> Ordena(s, e, p) || (Escribiendo(p) in s.tareas && !(e.StdinFin? && e.pid == p))
  {
    hide Inv, Puede, Despues, Tabla, Ordena;
    var t := Despues(cfg, s, e);
    TareasDe(cfg, s, e);
    PasoPersiste(cfg, s, e, 0);
    AbreAvisos(s, e);
    if s.canal.Some? {
      QuitarTareaMenos(s.tareas, s.canal.value);
    }
    forall x | x in t.tareas && x.Avisando?
      ensures x.pid in t.exit
    {
      if x in Tabla(s, e).abre {
        EnExit(cfg, s, e, x.pid);
      } else {
        assert x.pid in s.exit;
      }
    }
    forall p | Escribiendo(p) in t.tareas || Ordena(s, e, p) || Escribiendo(p) in s.tareas
      ensures Escribiendo(p) in t.tareas <==> Ordena(s, e, p) || (Escribiendo(p) in s.tareas && !(e.StdinFin? && e.pid == p))
    {
      QuienEscribe(cfg, s, e, p);
    }
  }

  lemma EnExit(cfg: Cfg, s: Ks, e: Suceso, p: Pid)
    requires Inv(cfg, s, None, 0) && Puede(cfg, s, e) && Tabla(s, e).quien == Va(p, EXIT, false)
    ensures p in Despues(cfg, s, e).exit
  {
    hide Inv, Puede, Despues, Tabla, EnSuFicha, Orden, EnLosPapeles, Recalcula, Papeles;
    Efectos(cfg, s, e);
  }

  lemma QuienEscribe(cfg: Cfg, s: Ks, e: Suceso, p: Pid)
    requires Inv(cfg, s, None, 0) && Puede(cfg, s, e)
    ensures Escribiendo(p) in Despues(cfg, s, e).tareas <==> Ordena(s, e, p) || (Escribiendo(p) in s.tareas && !(e.StdinFin? && e.pid == p))
  {
    hide Inv, Puede, Despues, Tabla, Ordena, Ajeno;
    var t := Despues(cfg, s, e);
    if Ordena(s, e, p) {
      EmpiezaAEscribir(cfg, s, e, p);
    } else if e.StdinFin? && e.pid == p {
      AcabaDeEscribir(cfg, s, p, e.ok);
      PasoInv(cfg, s, e);
      if Escribiendo(p) in t.tareas {
        EscribeSi(cfg, t, p);
      }
    } else if Escribiendo(p) in s.tareas {
      SigueEscribiendo(cfg, s, e, p);
    } else {
      TareasDe(cfg, s, e);
      AbreAvisos(s, e);
      if s.canal.Some? {
        QuitarTareaMenos(s.tareas, s.canal.value);
      }
    }
  }

  // ---------------------------------------------------------------- the process a handler holds

  lemma {:induction false} UnaEnMano(ts: seq<Tarea>, t: Tarea)
    requires t in ts && Titular(t).Some?
    ensures EnManos(ts, t.pid) >= 1
  {
    if ts[0] != t {
      UnaEnMano(ts[1..], t);
    }
  }

  lemma {:induction false} DosEnMano(ts: seq<Tarea>, t: Tarea, u: Tarea)
    requires t in ts && u in ts && t != u && Titular(t).Some? && Titular(u) == Titular(t)
    ensures EnManos(ts, t.pid) >= 2
  {
    if ts[0] == t {
      UnaEnMano(ts[1..], u);
    } else if ts[0] == u {
      UnaEnMano(ts[1..], t);
    } else {
      DosEnMano(ts[1..], t, u);
    }
  }

  /** A process a handler holds is in no queue, in the state of that handler, and no other handler holds it. */
  lemma Retenido(cfg: Cfg, s: Ks, t: Tarea)
    requires Inv(cfg, s, None, 0) && t in s.tareas && Titular(t).Some?
    ensures t.pid in s.procs && EstadoDeTarea(t, s.procs[t.pid].estado)
    ensures forall e :: t.pid !in Cola(s, e)
    ensures forall u :: u in s.tareas && Titular(u) == Titular(t) ==> u == t
  {
    hide Inv, EnColas, EstadoDeTarea;
    Lugar(cfg, s, t.pid);
    UnaEnMano(s.tareas, t);
    forall e
      ensures t.pid !in Cola(s, e)
    {
      ColasSuman(s, t.pid);
      VecesMiembro(Cola(s, e), t.pid);
    }
    forall u | u in s.tareas && Titular(u) == Titular(t)
      ensures u == t
    {
      if u != t {
        DosEnMano(s.tareas, t, u);
      }
    }
  }
}
