/** The Kernel Scheduler's mutexes: FIFO hand-off and inherited priority. */
module KsMutex {
  import opened Basics

  const INT_MAX: int := 0x7FFF_FFFF

  datatype Waiter = Waiter(pid: U32, prioridad: int)

  /** owner -1 means free. */
  datatype MutexKs = MutexKs(nombre: string, owner: int, ownerPrioridad: int, cola: seq<Waiter>)

  /** The cast of a pid to int. */
  function AInt(pid: U32): int {
    if pid <= INT_MAX then pid else pid - 0x1_0000_0000
  }

  function BuscarMutex(lista: seq<MutexKs>, nombre: string): (r: Option<nat>)
    ensures r.Some? ==> r.value < |lista| && lista[r.value].nombre == nombre
    ensures r.Some? ==> forall k :: 0 <= k < r.value ==> lista[k].nombre != nombre
    ensures r.None? ==> forall k :: 0 <= k < |lista| ==> lista[k].nombre != nombre
  {
    if lista == [] then None
    else if lista[0].nombre == nombre then Some(0)
    else match BuscarMutex(lista[1..], nombre)
      case Some(k) =>
        assert forall j :: 0 < j < |lista| ==> lista[j] == lista[1..][j - 1];
        Some(k + 1)
      case None =>
        assert forall k :: 0 < k < |lista| ==> lista[k] == lista[1..][k - 1];
        None
  }

  // ---------------------------------------------------------------- the operations on the list

  function CrearEn(lista: seq<MutexKs>, nombre: string): seq<MutexKs> {
    if BuscarMutex(lista, nombre).Some? then lista else lista + [MutexKs(nombre, -1, -1, [])]
  }

  /** 0: taken, 1: queued, -1: no such mutex. */
  datatype ResultadoLock = ResultadoLock(lista: seq<MutexKs>, codigo: int, ownerAElevar: int)

  function LockEn(lista: seq<MutexKs>, pid: U32, prioridad: int, nombre: string): ResultadoLock {
    match BuscarMutex(lista, nombre)
    case None => ResultadoLock(lista, -1, -1)
    case Some(i) =>
      var m := lista[i];
      if m.owner == -1 then ResultadoLock(lista[i := m.(owner := AInt(pid), ownerPrioridad := prioridad)], 0, -1)
      else ResultadoLock(lista[i := m.(cola := m.cola + [Waiter(pid, prioridad)])], 1, m.owner)
  }

  /** The pid that takes the mutex over, or -1. */
  datatype ResultadoUnlock = ResultadoUnlock(lista: seq<MutexKs>, sucesor: int)

  function UnlockEn(lista: seq<MutexKs>, pid: U32, nombre: string): ResultadoUnlock {
    match BuscarMutex(lista, nombre)
    case None => ResultadoUnlock(lista, -1)
    case Some(i) =>
      var m := lista[i];
      if m.owner != AInt(pid) then ResultadoUnlock(lista, -1)
      else if m.cola != [] then
        ResultadoUnlock(lista[i := m.(owner := AInt(m.cola[0].pid), ownerPrioridad := m.cola[0].prioridad, cola := m.cola[1..])],
                        AInt(m.cola[0].pid))
      else ResultadoUnlock(lista[i := m.(owner := -1, ownerPrioridad := -1)], -1)
  }

  /** The least priority number recorded by the waiters of all mutexes a process owns, INT_MAX if there is none. */
  ghost predicate EsHeredada(lista: seq<MutexKs>, pid: U32, r: int) {
    && r <= INT_MAX
    && (forall i, j :: 0 <= i < |lista| && lista[i].owner == AInt(pid) && 0 <= j < |lista[i].cola| ==> r <= lista[i].cola[j].prioridad)
    && (r == INT_MAX || exists i, j ::
          0 <= i < |lista| && lista[i].owner == AInt(pid) && 0 <= j < |lista[i].cola| && lista[i].cola[j].prioridad == r)
  }

  function MinCola(cola: seq<Waiter>, mejor: int): int {
    if cola == [] then mejor else MinCola(cola[1..], Min(mejor, cola[0].prioridad))
  }

  function Heredada(lista: seq<MutexKs>, pid: U32, mejor: int): int {
    if lista == [] then mejor
    else Heredada(lista[1..], pid, if lista[0].owner == AInt(pid) then MinCola(lista[0].cola, mejor) else mejor)
  }

  lemma {:induction false} MinColaEs(cola: seq<Waiter>, mejor: int)
    ensures MinCola(cola, mejor) <= mejor
    ensures forall j :: 0 <= j < |cola| ==> MinCola(cola, mejor) <= cola[j].prioridad
    ensures MinCola(cola, mejor) == mejor || exists j :: 0 <= j < |cola| && cola[j].prioridad == MinCola(cola, mejor)
  {
    if cola != [] {
      var m := Min(mejor, cola[0].prioridad);
      MinColaEs(cola[1..], m);
      var r := MinCola(cola, mejor);
      assert forall j :: 0 < j < |cola| ==> cola[j] == cola[1..][j - 1];
      if r != mejor && r != cola[0].prioridad {
        var j :| 0 <= j < |cola[1..]| && cola[1..][j].prioridad == r;
        assert cola[j + 1].prioridad == r;
      }
    }
  }

  lemma {:induction false} HeredadaEs(lista: seq<MutexKs>, pid: U32, mejor: int)
    ensures var r := Heredada(lista, pid, mejor);
      && r <= mejor
      && (forall i, j :: 0 <= i < |lista| && lista[i].owner == AInt(pid) && 0 <= j < |lista[i].cola| ==> r <= lista[i].cola[j].prioridad)
      && (r == mejor || exists i, j ::
            0 <= i < |lista| && lista[i].owner == AInt(pid) && 0 <= j < |lista[i].cola| && lista[i].cola[j].prioridad == r)
  {
    if lista != [] {
      var m := if lista[0].owner == AInt(pid) then MinCola(lista[0].cola, mejor) else mejor;
      MinColaEs(lista[0].cola, mejor);
      HeredadaEs(lista[1..], pid, m);
      var r := Heredada(lista, pid, mejor);
      assert forall i :: 0 < i < |lista| ==> lista[i] == lista[1..][i - 1];
      if r != m {
        var i, j :| 0 <= i < |lista[1..]| && lista[1..][i].owner == AInt(pid) && 0 <= j < |lista[1..][i].cola| && lista[1..][i].cola[j].prioridad == r;
        assert lista[i + 1].cola[j].prioridad == r;
      }
    }
  }

  // ---------------------------------------------------------------- the class

  class MutexesKs {
    var lista: seq<MutexKs>

    constructor ()
      ensures lista == []
    {
      lista := [];
    }

    method Buscar(nombre: string) returns (r: Option<nat>)
      ensures r == BuscarMutex(lista, nombre)
    {
      var i := 0;
      while i < |lista|
        invariant 0 <= i <= |lista|
        invariant forall k :: 0 <= k < i ==> lista[k].nombre != nombre
      {
        if lista[i].nombre == nombre {
          return Some(i);
        }
        i := i + 1;
      }
      r := None;
    }

    method Create(nombre: string) returns (r: int)
      modifies this
      ensures lista == CrearEn(old(lista), nombre)
      ensures r == if BuscarMutex(old(lista), nombre).Some? then -1 else 0
      ensures if exists k :: 0 <= k < |old(lista)| && old(lista)[k].nombre == nombre then r == -1 && lista == old(lista)
              else r == 0 && lista == old(lista) + [MutexKs(nombre, -1, -1, [])]
    {
      var m := Buscar(nombre);
      if m.Some? {
        return -1;
      }
      lista := lista + [MutexKs(nombre, -1, -1, [])];
      r := 0;
    }

    /** Takes a free mutex or queues; the owner is always reported, whether or not it has to be raised. */
    method Lock(pid: U32, prioridad: int, nombre: string) returns (codigo: int, ownerAElevar: int, nuevaPrioridad: int)
      modifies this
      ensures ResultadoLock(lista, codigo, ownerAElevar) == LockEn(old(lista), pid, prioridad, nombre)
      ensures nuevaPrioridad == if codigo == 1 then prioridad else -1
      ensures match BuscarMutex(old(lista), nombre)
        case None => codigo == -1 && lista == old(lista)
        case Some(i) =>
          var m := old(lista)[i];
          && |lista| == |old(lista)|
          && (codigo == if m.owner == -1 then 0 else 1)
          && (lista[i].owner == if m.owner == -1 then AInt(pid) else m.owner)
          && (lista[i].cola == if m.owner == -1 then m.cola else m.cola + [Waiter(pid, prioridad)])
    {
      ownerAElevar, nuevaPrioridad := -1, -1;
      var b := Buscar(nombre);
      if b.None? {
        return -1, -1, -1;
      }
      var m := lista[b.value];
      if m.owner == -1 {
        lista := lista[b.value := m.(owner := AInt(pid), ownerPrioridad := prioridad)];
        return 0, -1, -1;
      }
      lista := lista[b.value := m.(cola := m.cola + [Waiter(pid, prioridad)])];
      codigo, ownerAElevar, nuevaPrioridad := 1, m.owner, prioridad;
    }

    /** Hands the mutex to the first waiter, if any. */
    method Unlock(pid: U32, nombre: string) returns (sucesor: int, prioridadRestaurar: int)
      modifies this
      ensures ResultadoUnlock(lista, sucesor) == UnlockEn(old(lista), pid, nombre)
      ensures match BuscarMutex(old(lista), nombre)
        case None => sucesor == -1 && lista == old(lista)
        case Some(i) =>
          var m := old(lista)[i];
          && (m.owner != AInt(pid) ==> sucesor == -1 && lista == old(lista))
          && (m.owner == AInt(pid) ==>
                && |lista| == |old(lista)| && lista[i].owner == sucesor
                && (m.cola == [] ==> sucesor == -1 && lista[i].cola == [])
                && (m.cola != [] ==> sucesor == AInt(m.cola[0].pid) && lista[i].cola == m.cola[1..]))
    {
      prioridadRestaurar := -1;
      var b := Buscar(nombre);
      if b.None? || lista[b.value].owner != AInt(pid) {
        return -1, -1;
      }
      var m := lista[b.value];
      prioridadRestaurar := m.ownerPrioridad;
      if |m.cola| > 0 {
        var siguiente := m.cola[0];
        lista := lista[b.value := m.(owner := AInt(siguiente.pid), ownerPrioridad := siguiente.prioridad, cola := m.cola[1..])];
        sucesor := AInt(siguiente.pid);
      } else {
        lista := lista[b.value := m.(owner := -1, ownerPrioridad := -1)];
        sucesor := -1;
      }
    }

    /** Minimum over all waiters of all mutexes the process owns. */
    method PrioridadHeredada(pid: U32) returns (mejor: int)
      ensures mejor == Heredada(lista, pid, INT_MAX)
      ensures EsHeredada(lista, pid, mejor)
    {
      HeredadaEs(lista, pid, INT_MAX);
      mejor := INT_MAX;
      var i := 0;
      while i < |lista|
        invariant 0 <= i <= |lista|
        invariant Heredada(lista[i..], pid, mejor) == Heredada(lista, pid, INT_MAX)
      {
        var m := lista[i];
        assert lista[i..][1..] == lista[i + 1..];
        if m.owner == AInt(pid) {
          ghost var antes := mejor;
          var j := 0;
          while j < |m.cola|
            invariant 0 <= j <= |m.cola|
            invariant MinCola(m.cola[j..], mejor) == MinCola(m.cola, antes)
          {
            assert m.cola[j..][1..] == m.cola[j + 1..];
            if m.cola[j].prioridad < mejor {
              mejor := m.cola[j].prioridad;
            }
            j := j + 1;
          }
          assert m.cola[j..] == [];
        }
        i := i + 1;
      }
      assert lista[i..] == [];
    }
  }

  // ---------------------------------------------------------------- whole runs

  datatype Evento = Create(nombre: string) | Lock(pid: U32, prioridad: int, nombre: string) | Unlock(pid: U32, nombre: string)

  function Tras(lista: seq<MutexKs>, e: Evento): seq<MutexKs> {
    match e
    case Create(nombre) => CrearEn(lista, nombre)
    case Lock(pid, prioridad, nombre) => LockEn(lista, pid, prioridad, nombre).lista
    case Unlock(pid, nombre) => UnlockEn(lista, pid, nombre).lista
  }

  /** The list after a run from an empty one. */
  function Lista(es: seq<Evento>, n: nat): seq<MutexKs>
    requires n <= |es|
  {
    if n == 0 then [] else Tras(Lista(es, n - 1), es[n - 1])
  }

  function Pids(cola: seq<Waiter>): (r: seq<int>)
    ensures |r| == |cola|
    ensures forall i :: 0 <= i < |r| ==> r[i] == AInt(cola[i].pid)
  {
    seq(|cola|, i requires 0 <= i < |cola| => AInt(cola[i].pid))
  }

  /** The request an event makes on a mutex, if the mutex exists. */
  function Pedido(lista: seq<MutexKs>, e: Evento, nombre: string): seq<int> {
    if e.Lock? && e.nombre == nombre && BuscarMutex(lista, nombre).Some? then [AInt(e.pid)] else []
  }

  /** The grant of a mutex an event brings about: at once, or by hand-off. */
  function Concesion(lista: seq<MutexKs>, e: Evento, nombre: string): seq<int> {
    if e.Create? || e.nombre != nombre then []
    else if e.Lock? then (if LockEn(lista, e.pid, e.prioridad, nombre).codigo == 0 then [AInt(e.pid)] else [])
    else
      var u := UnlockEn(lista, e.pid, nombre);
      if u.sucesor != -1 then [u.sucesor] else []
  }

  function Pedidos(es: seq<Evento>, n: nat, nombre: string): seq<int>
    requires n <= |es|
  {
    if n == 0 then [] else Pedidos(es, n - 1, nombre) + Pedido(Lista(es, n - 1), es[n - 1], nombre)
  }

  function Concesiones(es: seq<Evento>, n: nat, nombre: string): seq<int>
    requires n <= |es|
  {
    if n == 0 then [] else Concesiones(es, n - 1, nombre) + Concesion(Lista(es, n - 1), es[n - 1], nombre)
  }

  /** Pids come from the scheduler's counter and stay below 2^31. */
  predicate PidsChicos(es: seq<Evento>) {
    forall i :: 0 <= i < |es| ==> (es[i].Create? || es[i].pid <= INT_MAX)
  }

  /** Names are unique, every waiter and owner is a pid, and a free mutex has no waiters. */
  predicate Sana(lista: seq<MutexKs>) {
    && (forall i, j :: 0 <= i < |lista| && 0 <= j < |lista| && lista[i].nombre == lista[j].nombre ==> i == j)
    && (forall i :: 0 <= i < |lista| ==> lista[i].owner >= -1)
    && (forall i, j :: 0 <= i < |lista| && 0 <= j < |lista[i].cola| ==> lista[i].cola[j].pid <= INT_MAX)
    && (forall i :: 0 <= i < |lista| && lista[i].owner == -1 ==> lista[i].cola == [])
  }

  lemma TrasSana(lista: seq<MutexKs>, e: Evento)
    requires Sana(lista) && (e.Create? || e.pid <= INT_MAX)
    ensures Sana(Tras(lista, e))
  {
    match e
    case Create(nombre) =>
    case Lock(pid, prioridad, nombre) => LockSana(lista, pid, prioridad, nombre);
    case Unlock(pid, nombre) => UnlockSana(lista, pid, nombre);
  }

  lemma LockSana(lista: seq<MutexKs>, pid: U32, prioridad: int, nombre: string)
    requires Sana(lista) && pid <= INT_MAX
    ensures Sana(LockEn(lista, pid, prioridad, nombre).lista)
  {
  }

  lemma UnlockSana(lista: seq<MutexKs>, pid: U32, nombre: string)
    requires Sana(lista)
    ensures Sana(UnlockEn(lista, pid, nombre).lista)
  {
  }

  lemma {:induction false} CorridaSana(es: seq<Evento>, n: nat)
    requires PidsChicos(es) && n <= |es|
    ensures Sana(Lista(es, n))
  {
    if n > 0 {
      CorridaSana(es, n - 1);
      TrasSana(Lista(es, n - 1), es[n - 1]);
    }
  }

  function ColaDe(lista: seq<MutexKs>, nombre: string): seq<int> {
    match BuscarMutex(lista, nombre)
    case None => []
    case Some(i) => Pids(lista[i].cola)
  }

  function OwnerDe(lista: seq<MutexKs>, nombre: string): int {
    match BuscarMutex(lista, nombre)
    case None => -1
    case Some(i) => lista[i].owner
  }

  /** Other mutexes keep their place in the list. */
  lemma BuscarTrasCambio(lista: seq<MutexKs>, i: nat, m: MutexKs, nombre: string)
    requires i < |lista| && m.nombre == lista[i].nombre
    ensures BuscarMutex(lista[i := m], nombre) == BuscarMutex(lista, nombre)
  {
    var a, b := BuscarMutex(lista[i := m], nombre), BuscarMutex(lista, nombre);
    if a.Some? {
      assert lista[a.value].nombre == nombre;
    }
    if b.Some? {
      assert lista[i := m][b.value].nombre == nombre;
    }
  }

  lemma ColaTrasCambio(lista: seq<MutexKs>, i: nat, m: MutexKs, nombre: string)
    requires i < |lista| && m.nombre == lista[i].nombre
    ensures ColaDe(lista[i := m], nombre) == if BuscarMutex(lista, nombre) == Some(i) then Pids(m.cola) else ColaDe(lista, nombre)
    ensures OwnerDe(lista[i := m], nombre) == if BuscarMutex(lista, nombre) == Some(i) then m.owner else OwnerDe(lista, nombre)
  {
    BuscarTrasCambio(lista, i, m, nombre);
  }

  /** The new requests go to the back, the new grants come from the front, and the last grant names the owner. */
  predicate EnOrden(cola: seq<int>, owner: int, pedido: seq<int>, concesion: seq<int>, cola2: seq<int>, owner2: int) {
    && cola + pedido == concesion + cola2
    && (if concesion == [] then owner2 == owner || owner2 == -1 else concesion == [owner2])
  }

  lemma LockCola(cola: seq<Waiter>, pid: U32, prioridad: int)
    ensures Pids(cola + [Waiter(pid, prioridad)]) == Pids(cola) + [AInt(pid)]
  {
  }

  lemma LockFifo(lista: seq<MutexKs>, pid: U32, prioridad: int, otro: string, nombre: string)
    requires Sana(lista)
    ensures var e := Lock(pid, prioridad, otro); var t := Tras(lista, e);
            EnOrden(ColaDe(lista, nombre), OwnerDe(lista, nombre), Pedido(lista, e, nombre), Concesion(lista, e, nombre), ColaDe(t, nombre), OwnerDe(t, nombre))
  {
    var b := BuscarMutex(lista, otro);
    if b.Some? {
      var m := LockEn(lista, pid, prioridad, otro).lista[b.value];
      ColaTrasCambio(lista, b.value, m, nombre);
      if otro == nombre {
        LockCola(lista[b.value].cola, pid, prioridad);
      }
    }
  }

  lemma UnlockCola(cola: seq<Waiter>)
    requires cola != []
    ensures Pids(cola) == [AInt(cola[0].pid)] + Pids(cola[1..])
  {
  }

  lemma UnlockFifo(lista: seq<MutexKs>, pid: U32, otro: string, nombre: string)
    requires Sana(lista)
    ensures var e := Unlock(pid, otro); var t := Tras(lista, e);
            EnOrden(ColaDe(lista, nombre), OwnerDe(lista, nombre), Pedido(lista, e, nombre), Concesion(lista, e, nombre), ColaDe(t, nombre), OwnerDe(t, nombre))
  {
    var b := BuscarMutex(lista, otro);
    if b.Some? {
      var m := UnlockEn(lista, pid, otro).lista[b.value];
      ColaTrasCambio(lista, b.value, m, nombre);
      if otro == nombre && lista[b.value].cola != [] {
        UnlockCola(lista[b.value].cola);
        assert lista[b.value].cola[0].pid <= INT_MAX;
      }
    }
  }

  lemma PasoFifo(lista: seq<MutexKs>, e: Evento, nombre: string)
    requires Sana(lista)
    ensures var t := Tras(lista, e);
            EnOrden(ColaDe(lista, nombre), OwnerDe(lista, nombre), Pedido(lista, e, nombre), Concesion(lista, e, nombre), ColaDe(t, nombre), OwnerDe(t, nombre))
  {
    match e
    case Create(otro) =>
      if BuscarMutex(lista, otro).None? {
        BuscarNuevo(lista, MutexKs(otro, -1, -1, []), nombre);
      }
    case Lock(pid, prioridad, otro) => LockFifo(lista, pid, prioridad, otro, nombre);
    case Unlock(pid, otro) => UnlockFifo(lista, pid, otro, nombre);
  }

  lemma BuscarNuevo(lista: seq<MutexKs>, m: MutexKs, nombre: string)
    requires BuscarMutex(lista, m.nombre).None?
    ensures BuscarMutex(lista + [m], nombre) == if nombre == m.nombre then Some(|lista|) else BuscarMutex(lista, nombre)
  {
    var todos := lista + [m];
    var a, b := BuscarMutex(todos, nombre), BuscarMutex(lista, nombre);
    assert todos[|lista|] == m;
    if b.Some? {
      assert todos[b.value] == lista[b.value];
    }
  }

  predicate Cuadra(pedidos: seq<int>, concesiones: seq<int>, cola: seq<int>, owner: int) {
    && pedidos == concesiones + cola
    && (owner == -1 || (concesiones != [] && owner == concesiones[|concesiones| - 1]))
  }

  lemma Encadenar(ps: seq<int>, cs: seq<int>, cola: seq<int>, owner: int, p: seq<int>, c: seq<int>, cola2: seq<int>, owner2: int)
    requires Cuadra(ps, cs, cola, owner) && EnOrden(cola, owner, p, c, cola2, owner2)
    ensures Cuadra(ps + p, cs + c, cola2, owner2)
  {
    assert cs + cola + p == cs + (cola + p);
    assert cs + c + cola2 == cs + (c + cola2);
  }

  lemma FifoPaso(es: seq<Evento>, n: nat, nombre: string)
    requires 0 < n <= |es| && Sana(Lista(es, n - 1))
    requires Cuadra(Pedidos(es, n - 1, nombre), Concesiones(es, n - 1, nombre), ColaDe(Lista(es, n - 1), nombre), OwnerDe(Lista(es, n - 1), nombre))
    ensures Cuadra(Pedidos(es, n, nombre), Concesiones(es, n, nombre), ColaDe(Lista(es, n), nombre), OwnerDe(Lista(es, n), nombre))
  {
    var l, e := Lista(es, n - 1), es[n - 1];
    PasoFifo(l, e, nombre);
    Encadenar(Pedidos(es, n - 1, nombre), Concesiones(es, n - 1, nombre), ColaDe(l, nombre), OwnerDe(l, nombre),
              Pedido(l, e, nombre), Concesion(l, e, nombre), ColaDe(Tras(l, e), nombre), OwnerDe(Tras(l, e), nombre));
  }

  /**
   * FIFO over whole runs: for every mutex, the processes that asked for it are, in
   * order, those it was granted to followed by those still waiting, and the owner is
   * the last one it was granted to.
   */
  lemma {:induction false} Fifo(es: seq<Evento>, n: nat, nombre: string)
    requires PidsChicos(es) && n <= |es|
    ensures Cuadra(Pedidos(es, n, nombre), Concesiones(es, n, nombre), ColaDe(Lista(es, n), nombre), OwnerDe(Lista(es, n), nombre))
  {
    if n > 0 {
      Fifo(es, n - 1, nombre);
      CorridaSana(es, n - 1);
      FifoPaso(es, n, nombre);
    }
  }

  /** A free mutex has nobody waiting, in every state of every run. */
  lemma LibreSinEspera(es: seq<Evento>, n: nat, nombre: string)
    requires PidsChicos(es) && n <= |es| && OwnerDe(Lista(es, n), nombre) == -1
    ensures ColaDe(Lista(es, n), nombre) == []
  {
    CorridaSana(es, n);
  }
}
