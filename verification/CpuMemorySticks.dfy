/** The CPU's cache of stick ranges, and the fragmented accesses that go through it. */
module CpuMemorySticks {
  import opened Basics
  import opened Sticks
  import opened PhysicalMemory

  const CPU_MEMORY_STICK_ID_MAX: U32 := 4096
  const SIZE_MAX: int := 0xFFFF_FFFF_FFFF_FFFF

  /** Everything between a CPU and the rest: each request may go unanswered. */
  class Red {
    var destinos: seq<Destino>   // decided by the environment, one for each coming request
    var sockets: seq<nat>        // and the descriptors the coming connections get
    var averias: nat             // requests that were not served

    constructor (destinos: seq<Destino>, sockets: seq<nat>)
      ensures this.destinos == destinos && this.sockets == sockets && averias == 0
    {
      this.destinos, this.sockets, averias := destinos, sockets, 0;
    }

    method Pedir() returns (d: Destino)
      modifies this
      ensures averias == old(averias) + Bit(d != Atendido)
    {
      if destinos == [] {
        d := Atendido;
      } else {
        d, destinos := destinos[0], destinos[1..];
        averias := averias + Bit(d != Atendido);
      }
    }

    method Responde() returns (ok: bool)
      modifies this
      ensures averias == old(averias) + Bit(!ok)
    {
      var d := Pedir();
      ok := d == Atendido;
    }

    /** A connected and identified socket, or -1. */
    method Conectar() returns (socket: int)
      modifies this
      ensures socket >= -1 && averias == old(averias) + Bit(socket < 0)
    {
      var ok := Responde();
      if !ok {
        return -1;
      }
      socket := 0;
      if sockets != [] {
        socket, sockets := sockets[0], sockets[1..];
      }
    }
  }

  /** One cache entry, with -1 for no socket; a socket of entry `i` reaches stick `i`. */
  datatype Entrada = Entrada(socket: int, base: U32, tamanio: U32, rangoConocido: bool)

  const VACIA := Entrada(-1, 0, 0, false)

  datatype Resuelto = Resuelto(id: U32, base: U32, tamanio: U32, socket: int, rangoConocido: bool)

  /** What a cached or resolved range must be: the range Kernel Memory has for that stick. */
  predicate RangoFiel(sticks: seq<StickInfo>, id: nat, base: U32, tamanio: U32) {
    id < |sticks| && base == sticks[id].offset && tamanio == sticks[id].size
  }

  predicate EntradaFiel(sticks: seq<StickInfo>, i: nat, e: Entrada) {
    && e.socket >= -1 && (e.socket >= 0 || e.rangoConocido ==> i < |sticks| && i <= CPU_MEMORY_STICK_ID_MAX)
    && (e.rangoConocido ==> RangoFiel(sticks, i, e.base, e.tamanio))
  }

  predicate ResueltoFiel(sticks: seq<StickInfo>, r: Resuelto) {
    r.id < |sticks| && r.id <= CPU_MEMORY_STICK_ID_MAX && r.socket >= 0 && (r.rangoConocido ==> RangoFiel(sticks, r.id, r.base, r.tamanio))
  }

  predicate Alcanzable(sticks: seq<StickInfo>, dir: U32) {
    match StickAt(sticks, dir)
    case None => false
    case Some(k) => k <= CPU_MEMORY_STICK_ID_MAX
  }

  /** A non-empty range inside one stick. */
  predicate Contenido(s: StickInfo, dir: int, n: nat) {
    0 < n && s.offset <= dir && dir + n <= End(s)
  }

  /** An access the cache can serve: all its addresses exist, and none lies in a stick beyond the id limit. */
  ghost predicate Servible(sticks: seq<StickInfo>, id: U32, dir: U32, n: U32) {
    && id < |sticks| && id <= CPU_MEMORY_STICK_ID_MAX
    && 0 < n && dir + n <= Total(sticks) <= U32_MAX
    && TodasAlcanzables(sticks, dir, n)
  }

  ghost predicate TodasAlcanzables(sticks: seq<StickInfo>, dir: int, n: nat) {
    forall a: U32 :: dir <= a < dir + n ==> Alcanzable(sticks, a)
  }

  lemma FragmentoAlcanzable(sticks: seq<StickInfo>, k: nat, dir: int, n: nat)
    requires Contiguous(sticks) && k < |sticks| && k <= CPU_MEMORY_STICK_ID_MAX
    requires sticks[k].offset <= dir && dir + n <= End(sticks[k])
    ensures TodasAlcanzables(sticks, dir, n)
  {
    forall a: U32 | dir <= a < dir + n
      ensures Alcanzable(sticks, a)
    {
      StickAtUnique(sticks, a, k);
    }
  }

  class CpuMemorySticks {
    const fisica: PhysicalMemory
    const red: Red
    var entradas: array<Entrada>

    ghost predicate Valid()
      reads this, fisica, fisica.Repr, entradas
    {
      && fisica.Valid()
      && this !in fisica.Repr && red !in fisica.Repr && entradas !in fisica.Repr
      && Fiel() && entradas.Length <= 2 * CPU_MEMORY_STICK_ID_MAX
    }

    /** Every cached range is Kernel Memory's range for that stick. */
    ghost predicate Fiel()
      reads this, fisica`sticks, entradas
    {
      forall i :: 0 <= i < entradas.Length ==> EntradaFiel(fisica.sticks, i, entradas[i])
    }

    constructor (fisica: PhysicalMemory, red: Red)
      requires fisica.Valid() && red !in fisica.Repr
      ensures Valid() && this.fisica == fisica && this.red == red && entradas.Length == 0 && fresh(entradas)
    {
      this.fisica, this.red := fisica, red;
      entradas := new Entrada[0];
    }

    /** Doubles the capacity until it covers the id; old entries are kept, new ones are empty. */
    method AsegurarCapacidad(id: U32) returns (ok: bool)
      requires entradas.Length <= 2 * CPU_MEMORY_STICK_ID_MAX
      modifies this`entradas
      ensures entradas.Length <= 2 * CPU_MEMORY_STICK_ID_MAX
      ensures ok <==> id <= CPU_MEMORY_STICK_ID_MAX
      ensures ok ==> id < entradas.Length
      ensures old(entradas.Length) <= entradas.Length && (entradas == old(entradas) || fresh(entradas))
      ensures forall i :: 0 <= i < entradas.Length ==> entradas[i] == if i < old(entradas.Length) then old(entradas[i]) else VACIA
    {
      if id > CPU_MEMORY_STICK_ID_MAX {
        return false;
      }
      if id < entradas.Length {
        return true;
      }
      var nueva := if entradas.Length == 0 then 4 else entradas.Length;
      while nueva <= id
        invariant entradas.Length <= nueva <= 2 * CPU_MEMORY_STICK_ID_MAX && 0 < nueva
        decreases id - nueva
      {
        if nueva > SIZE_MAX / 2 {
          return false;
        }
        nueva := nueva * 2;
      }
      var viejas := entradas;
      var nuevas := new Entrada[nueva](_ => VACIA);
      forall i | 0 <= i < viejas.Length {
        nuevas[i] := viejas[i];
      }
      entradas := nuevas;
      ok := true;
    }

    /** A socket connected beforehand: its range stays unknown until Kernel Memory is asked. */
    method RegistrarSocket(id: U32, socket: int) returns (ok: bool)
      requires Valid() && id < |fisica.sticks|
      modifies this, entradas
      ensures Valid() && (entradas == old(entradas) || fresh(entradas))
      ensures ok <==> socket >= 0 && id <= CPU_MEMORY_STICK_ID_MAX
      ensures ok ==> id < entradas.Length && entradas[id].socket == socket
      ensures forall i :: 0 <= i < old(entradas.Length) ==> i < entradas.Length && (i == id || entradas[i] == old(entradas[i]))
    {
      if socket < 0 {
        return false;
      }
      ok := AsegurarCapacidad(id);
      if ok {
        entradas[id] := entradas[id].(socket := socket);
      }
    }

    /** Only the connection of that entry is dropped, and only if it is still that socket; its range is kept. */
    method InvalidarSocket(id: U32, socket: int)
      requires Valid()
      modifies entradas
      ensures Valid()
      ensures forall i :: 0 <= i < entradas.Length ==>
        entradas[i] == if i == id && old(entradas[i]).socket == socket then old(entradas[i]).(socket := -1) else old(entradas[i])
    {
      if id < entradas.Length && entradas[id].socket == socket {
        entradas[id] := entradas[id].(socket := -1);
      }
    }

    static predicate EndpointValido(e: StickInfo) {
      e.id <= CPU_MEMORY_STICK_ID_MAX && e.size > 0 && e.offset + e.size <= U32_MAX + 1
    }

    method SolicitarPorId(id: U32) returns (r: Option<StickInfo>)
      requires Valid()
      modifies red
      ensures Valid() && red.averias >= old(red.averias)
      ensures r.Some? ==> id < |fisica.sticks| && r.value == fisica.sticks[id] && id <= CPU_MEMORY_STICK_ID_MAX
      ensures red.averias == old(red.averias) ==> (r.Some? <==> id < |fisica.sticks| && id <= CPU_MEMORY_STICK_ID_MAX)
    {
      var responde := red.Responde();
      if !responde {
        return None;
      }
      r := fisica.EndpointPorId(id);
      if r.Some? {
        StickEnd(fisica.sticks, id);
        if !EndpointValido(r.value) || r.value.id != id {
          r := None;
        }
      }
    }

    method SolicitarPorDireccion(dir: U32) returns (r: Option<StickInfo>)
      requires Valid()
      modifies red
      ensures Valid() && red.averias >= old(red.averias)
      ensures r.Some? ==> Alcanzable(fisica.sticks, dir) && r.value == fisica.sticks[StickAt(fisica.sticks, dir).value]
      ensures red.averias == old(red.averias) ==> (r.Some? <==> Alcanzable(fisica.sticks, dir))
    {
      var responde := red.Responde();
      if !responde {
        return None;
      }
      r := fisica.EndpointPorDireccion(dir);
      if r.Some? {
        StickEnd(fisica.sticks, StickAt(fisica.sticks, dir).value);
        if !EndpointValido(r.value) || !(dir >= r.value.offset && dir < r.value.offset + r.value.size) {
          r := None;
        }
      }
    }

    /** Stores the published range and connects if necessary. */
    method CachearEndpoint(e: StickInfo) returns (r: Option<Resuelto>)
      requires Valid() && e.id < |fisica.sticks| && fisica.sticks[e.id] == e && e.id <= CPU_MEMORY_STICK_ID_MAX
      modifies this, entradas, red
      ensures Valid() && (entradas == old(entradas) || fresh(entradas)) && red.averias >= old(red.averias)
      ensures r.Some? ==> e.id < entradas.Length && entradas[e.id].socket >= 0 && r.value == Resuelto(e.id, e.offset, e.size, entradas[e.id].socket, true)
      ensures red.averias == old(red.averias) ==> r.Some?
    {
      var ok := AsegurarCapacidad(e.id);
      if !ok {
        return None;
      }
      entradas[e.id] := Entrada(entradas[e.id].socket, e.offset, e.size, true);
      ok := Conectar(e.id);
      r := if ok then Some(DeCache(e.id)) else None;
    }

    /** A socket that is open is used again. */
    method Conectar(id: U32) returns (ok: bool)
      requires Valid() && id < entradas.Length && id < |fisica.sticks| && id <= CPU_MEMORY_STICK_ID_MAX
      modifies entradas, red
      ensures Valid() && red.averias >= old(red.averias)
      ensures entradas[id] == old(entradas[id]).(socket := entradas[id].socket) && (ok <==> entradas[id].socket >= 0)
      ensures old(entradas[id]).socket >= 0 ==> entradas[id] == old(entradas[id])
      ensures red.averias == old(red.averias) ==> ok
    {
      if entradas[id].socket < 0 {
        var socket := red.Conectar();
        entradas[id] := entradas[id].(socket := socket);
      }
      ok := entradas[id].socket >= 0;
    }

    /** Cache first, then Kernel Memory, then whatever socket there is. */
    method ResolverId(id: U32) returns (r: Option<Resuelto>)
      requires Valid()
      modifies this, entradas, red
      ensures Valid() && (entradas == old(entradas) || fresh(entradas)) && red.averias >= old(red.averias)
      ensures r.Some? ==> r.value.id == id && ResueltoFiel(fisica.sticks, r.value)
      ensures red.averias == old(red.averias) ==> (r.Some? <==> id < |fisica.sticks| && id <= CPU_MEMORY_STICK_ID_MAX)
      ensures red.averias == old(red.averias) && r.Some? ==> r.value.rangoConocido
    {
      if id > CPU_MEMORY_STICK_ID_MAX {
        return None;
      }
      if id < entradas.Length && entradas[id].socket >= 0 && entradas[id].rangoConocido {
        return Some(DeCache(id));
      }
      var e := SolicitarPorId(id);
      if e.Some? {
        r := CachearEndpoint(e.value);
        return;
      }
      if id < entradas.Length && entradas[id].socket >= 0 {
        return Some(DeCache(id));
      }
      r := None;
    }

    function DeCache(id: U32): Resuelto
      requires id < entradas.Length
      reads this, entradas
    {
      Resuelto(id, entradas[id].base, entradas[id].tamanio, entradas[id].socket, entradas[id].rangoConocido)
    }

    /** The stick that holds an address, from the cache or from Kernel Memory. */
    method ResolverDireccion(dir: U32) returns (r: Option<Resuelto>)
      requires Valid()
      modifies this, entradas, red
      ensures Valid() && (entradas == old(entradas) || fresh(entradas)) && red.averias >= old(red.averias)
      ensures r.Some? ==> r.value.rangoConocido && StickAt(fisica.sticks, dir) == Some(r.value.id) && ResueltoFiel(fisica.sticks, r.value)
      ensures r.Some? ==> Alcanzable(fisica.sticks, dir)
      ensures red.averias == old(red.averias) ==> (r.Some? <==> Alcanzable(fisica.sticks, dir))
    {
      var i := 0;
      while i < entradas.Length
        invariant 0 <= i <= entradas.Length
      {
        var e := entradas[i];
        if e.socket >= 0 && e.rangoConocido && dir >= e.base && dir < e.base + e.tamanio {
          assert EntradaFiel(fisica.sticks, i, e);
          StickAtUnique(fisica.sticks, dir, i);
          return Some(DeCache(i));
        }
        i := i + 1;
      }
      var e := SolicitarPorDireccion(dir);
      if e.None? {
        return None;
      }
      r := CachearEndpoint(e.value);
    }

    // -------------------------------------------------------------- fragmented accesses

    function TamanioFragmento(stick: Resuelto, direccion: U32, pendiente: U32): (r: U32)
      ensures r <= pendiente
      ensures stick.rangoConocido && pendiente > 0 ==> (r > 0 <==> direccion < stick.base + stick.tamanio)
      ensures stick.rangoConocido && r > 0 ==> direccion + r <= stick.base + stick.tamanio
    {
      if !stick.rangoConocido then pendiente
      else if direccion >= stick.base + stick.tamanio then 0
      else Min(stick.base + stick.tamanio - direccion, pendiente)
    }

    predicate Fuera(stick: Resuelto, direccion: U32) {
      stick.rangoConocido && (direccion < stick.base || direccion >= stick.base + stick.tamanio)
    }

    /** The stick to start with: the one the segment table names, unless the address lies beyond its range. */
    method ResolverInicio(id: U32, dir: U32) returns (r: Option<Resuelto>)
      requires Valid()
      modifies this, entradas, red
      ensures Valid() && (entradas == old(entradas) || fresh(entradas)) && red.averias >= old(red.averias)
      ensures r.Some? ==> ResueltoFiel(fisica.sticks, r.value) && !Fuera(r.value, dir)
      ensures red.averias == old(red.averias) && r.Some? ==> r.value.rangoConocido
      ensures r.Some? ==> id < |fisica.sticks| && id <= CPU_MEMORY_STICK_ID_MAX
      ensures red.averias == old(red.averias) && id < |fisica.sticks| && id <= CPU_MEMORY_STICK_ID_MAX && Alcanzable(fisica.sticks, dir) ==> r.Some?
    {
      r := ResolverId(id);
      if r.None? || !Fuera(r.value, dir) {
        return;
      }
      r := ResolverDireccion(dir);
    }

    method MemoriaRead(stick: Resuelto, dir: U32, n: U32) returns (r: Option<seq<Byte>>)
      requires Valid() && ResueltoFiel(fisica.sticks, stick)
      modifies red
      ensures Valid() && red.averias >= old(red.averias)
      ensures r.Some? ==> Contenido(fisica.sticks[stick.id], dir, n) && dir + n <= |fisica.flat| && r.value == fisica.flat[dir..dir + n]
      ensures red.averias == old(red.averias) && Contenido(fisica.sticks[stick.id], dir, n) ==> r.Some?
    {
      if n == 0 {
        return None;
      }
      var responde := red.Responde();
      if !responde {
        return None;
      }
      r := fisica.LeerGlobal(stick.id, dir, n);
    }

    /** Reads a range that may span any number of sticks. */
    method MemoriaReadFragmentada(id: U32, dir: U32, n: U32) returns (r: Option<seq<Byte>>)
      requires Valid()
      modifies this, entradas, red
      ensures Valid() && (entradas == old(entradas) || fresh(entradas)) && red.averias >= old(red.averias)
      ensures r.Some? ==> Servible(fisica.sticks, id, dir, n) && r.value == fisica.flat[dir..dir + n]
      ensures red.averias == old(red.averias) && Servible(fisica.sticks, id, dir, n) ==> r.Some?
    {
      if n == 0 || dir > U32_MAX - (n - 1) {
        return None;
      }
      var inicio := ResolverInicio(id, dir);
      if inicio.None? {
        return None;
      }
      r := LeerDesde(inicio.value, dir, n);
    }

    method LeerDesde(inicial: Resuelto, dir: U32, n: U32) returns (r: Option<seq<Byte>>)
      requires Valid() && ResueltoFiel(fisica.sticks, inicial) && 0 < n && dir + n <= U32_MAX + 1
      modifies this, entradas, red
      ensures Valid() && (entradas == old(entradas) || fresh(entradas)) && red.averias >= old(red.averias)
      ensures r.Some? ==> dir + n <= |fisica.flat| && r.value == fisica.flat[dir..dir + n] && TodasAlcanzables(fisica.sticks, dir, n)
      ensures red.averias == old(red.averias) && inicial.rangoConocido
        ==> (r.Some? <==> dir + n <= |fisica.flat| && TodasAlcanzables(fisica.sticks, dir, n))
    {
      var stick := inicial;
      var datos: seq<Byte> := [];
      while |datos| < n
        invariant |datos| <= n && Valid() && (entradas == old(entradas) || fresh(entradas)) && red.averias >= old(red.averias)
        invariant ResueltoFiel(fisica.sticks, stick)
        invariant |datos| > 0 ==> dir + |datos| <= |fisica.flat| && datos == fisica.flat[dir..dir + |datos|]
        invariant TodasAlcanzables(fisica.sticks, dir, |datos|)
        invariant inicial.rangoConocido ==> stick.rangoConocido
      {
        var tramo;
        stick, tramo := LeerTramo(stick, dir + |datos|, n - |datos|);
        if tramo.None? {
          return None;
        }
        datos := datos + tramo.value;
      }
      r := Some(datos);
    }

    /** The stick that serves an address: the current one while it can. */
    method Situar(actual: Resuelto, dir: U32) returns (r: Option<Resuelto>)
      requires Valid() && ResueltoFiel(fisica.sticks, actual)
      modifies this, entradas, red
      ensures Valid() && (entradas == old(entradas) || fresh(entradas)) && red.averias >= old(red.averias)
      ensures r.Some? ==> ResueltoFiel(fisica.sticks, r.value) && !Fuera(r.value, dir) && (actual.rangoConocido ==> r.value.rangoConocido)
      ensures red.averias == old(red.averias) && Alcanzable(fisica.sticks, dir) ==> r.Some?
    {
      if !Fuera(actual, dir) {
        return Some(actual);
      }
      r := ResolverDireccion(dir);
    }

    /** One round of the loop: move to the stick that holds the address and read what it has. */
    method LeerTramo(inicial: Resuelto, actual: U32, pendiente: U32) returns (stick: Resuelto, r: Option<seq<Byte>>)
      requires Valid() && ResueltoFiel(fisica.sticks, inicial) && pendiente > 0
      modifies this, entradas, red
      ensures Valid() && (entradas == old(entradas) || fresh(entradas)) && red.averias >= old(red.averias)
      ensures ResueltoFiel(fisica.sticks, stick)
      ensures r.Some? ==> 0 < |r.value| <= pendiente && actual + |r.value| <= |fisica.flat| && r.value == fisica.flat[actual..actual + |r.value|]
      ensures r.Some? ==> TodasAlcanzables(fisica.sticks, actual, |r.value|)
      ensures inicial.rangoConocido ==> stick.rangoConocido
      ensures red.averias == old(red.averias) && inicial.rangoConocido && Alcanzable(fisica.sticks, actual) ==> r.Some?
    {
      var otro := Situar(inicial, actual);
      if otro.None? {
        return inicial, None;
      }
      stick := otro.value;
      r := LeerFragmento(stick, actual, TamanioFragmento(stick, actual, pendiente));
    }

    method LeerFragmento(stick: Resuelto, dir: U32, n: U32) returns (r: Option<seq<Byte>>)
      requires Valid() && ResueltoFiel(fisica.sticks, stick)
      modifies red, entradas
      ensures Valid() && red.averias >= old(red.averias)
      ensures r.Some? ==> |r.value| == n > 0 && dir + n <= |fisica.flat| && r.value == fisica.flat[dir..dir + n]
      ensures r.Some? ==> TodasAlcanzables(fisica.sticks, dir, n)
      ensures red.averias == old(red.averias) && Contenido(fisica.sticks[stick.id], dir, n) ==> r.Some?
    {
      r := MemoriaRead(stick, dir, n);
      if r.None? {
        InvalidarSocket(stick.id, stick.socket);
      } else {
        FragmentoAlcanzable(fisica.sticks, stick.id, dir, n);
      }
    }

    /** Some first part of the data has been written at `dir`, and nothing else. */
    static ghost predicate Parcial(before: seq<Byte>, after: seq<Byte>, dir: int, datos: seq<Byte>) {
      exists n: nat :: n <= |datos| && PhysicalMemory.Written(before, after, dir, datos, n)
    }

    method MemoriaWrite(stick: Resuelto, dir: U32, datos: seq<Byte>) returns (ok: bool)
      requires Valid() && ResueltoFiel(fisica.sticks, stick) && |datos| <= U32_MAX
      modifies red, fisica.Repr
      ensures Valid() && fisica.Repr == old(fisica.Repr) && fisica.sticks == old(fisica.sticks) && red.averias >= old(red.averias)
      ensures Parcial(old(fisica.flat), fisica.flat, dir, datos)
      ensures ok ==> PhysicalMemory.Written(old(fisica.flat), fisica.flat, dir, datos, |datos|)
      ensures ok ==> Contenido(fisica.sticks[stick.id], dir, |datos|)
      ensures red.averias == old(red.averias) && |datos| <= U32_MAX - 8 && Contenido(fisica.sticks[stick.id], dir, |datos|) ==> ok
    {
      assert PhysicalMemory.Written(fisica.flat, fisica.flat, dir, datos, 0);
      if |datos| == 0 || |datos| > U32_MAX - 8 {
        return false;
      }
      var d := red.Pedir();
      ok := false;
      if d == Atendido || d == SinRespuesta(true) {
        ok := fisica.EscribirGlobal(stick.id, dir, datos);
        ok := ok && d == Atendido;
      }
    }

    /** Writes a range that may span any number of sticks; a failure has written at most a first part of it. */
    method MemoriaWriteFragmentada(id: U32, dir: U32, datos: seq<Byte>) returns (ok: bool)
      requires Valid() && |datos| <= U32_MAX
      modifies this, entradas, red, fisica.Repr
      ensures Valid() && (entradas == old(entradas) || fresh(entradas)) && red.averias >= old(red.averias)
      ensures fisica.Repr == old(fisica.Repr) && fisica.sticks == old(fisica.sticks) && |fisica.flat| == |old(fisica.flat)|
      ensures Parcial(old(fisica.flat), fisica.flat, dir, datos)
      ensures ok ==> Servible(fisica.sticks, id, dir, |datos|) && fisica.flat == Splice(old(fisica.flat), dir, datos)
      ensures red.averias == old(red.averias) && |datos| <= U32_MAX - 8 && Servible(fisica.sticks, id, dir, |datos|) ==> ok
    {
      var n := |datos|;
      ghost var antes := fisica.flat;
      assert PhysicalMemory.Written(antes, fisica.flat, dir, datos, 0);
      if n == 0 || dir > U32_MAX - (n - 1) {
        return false;
      }
      var inicio := ResolverInicio(id, dir);
      if inicio.None? {
        return false;
      }
      ok := EscribirDesde(inicio.value, dir, datos);
    }

    method EscribirDesde(inicial: Resuelto, dir: U32, datos: seq<Byte>) returns (ok: bool)
      requires Valid() && ResueltoFiel(fisica.sticks, inicial) && 0 < |datos| <= U32_MAX && dir + |datos| <= U32_MAX + 1
      modifies this, entradas, red, fisica.Repr
      ensures Valid() && (entradas == old(entradas) || fresh(entradas)) && red.averias >= old(red.averias)
      ensures fisica.Repr == old(fisica.Repr) && fisica.sticks == old(fisica.sticks)
      ensures Parcial(old(fisica.flat), fisica.flat, dir, datos)
      ensures ok ==> PhysicalMemory.Written(old(fisica.flat), fisica.flat, dir, datos, |datos|)
      ensures ok ==> dir + |datos| <= |fisica.flat| && TodasAlcanzables(fisica.sticks, dir, |datos|)
      ensures red.averias == old(red.averias) && inicial.rangoConocido && |datos| <= U32_MAX - 8
        ==> (ok <==> dir + |datos| <= |fisica.flat| && TodasAlcanzables(fisica.sticks, dir, |datos|))
    {
      var n := |datos|;
      var stick := inicial;
      ghost var antes := fisica.flat;
      var procesado := 0;
      while procesado < n
        invariant 0 <= procesado <= n && Valid() && (entradas == old(entradas) || fresh(entradas)) && red.averias >= old(red.averias)
        invariant fisica.Repr == old(fisica.Repr) && fisica.sticks == old(fisica.sticks) && ResueltoFiel(fisica.sticks, stick)
        invariant procesado > 0 ==> dir + procesado <= |fisica.flat|
        invariant PhysicalMemory.Written(antes, fisica.flat, dir, datos, procesado)
        invariant TodasAlcanzables(fisica.sticks, dir, procesado)
        invariant inicial.rangoConocido ==> stick.rangoConocido
      {
        ghost var medio := fisica.flat;
        var escrito;
        stick, escrito := EscribirTramo(stick, dir + procesado, datos[procesado..]);
        if escrito == 0 {
          ParcialSigue(antes, medio, fisica.flat, dir, datos, procesado);
          return false;
        }
        procesado := procesado + escrito;
      }
      ok := true;
    }

    static lemma ParcialSigue(antes: seq<Byte>, medio: seq<Byte>, despues: seq<Byte>, dir: int, datos: seq<Byte>, p: nat)
      requires p <= |datos| && PhysicalMemory.Written(antes, medio, dir, datos, p)
      requires Parcial(medio, despues, dir + p, datos[p..])
      ensures Parcial(antes, despues, dir, datos)
    {
      var n: nat :| n <= |datos[p..]| && PhysicalMemory.Written(medio, despues, dir + p, datos[p..], n);
      assert PhysicalMemory.Written(antes, despues, dir, datos, p + n);
    }

    /** One round of the loop; 0 bytes mean failure. */
    method EscribirTramo(inicial: Resuelto, actual: U32, datos: seq<Byte>) returns (stick: Resuelto, escrito: nat)
      requires Valid() && ResueltoFiel(fisica.sticks, inicial) && 0 < |datos| <= U32_MAX
      modifies this, entradas, red, fisica.Repr
      ensures Valid() && (entradas == old(entradas) || fresh(entradas)) && red.averias >= old(red.averias)
      ensures fisica.Repr == old(fisica.Repr) && fisica.sticks == old(fisica.sticks)
      ensures ResueltoFiel(fisica.sticks, stick) && (inicial.rangoConocido ==> stick.rangoConocido)
      ensures escrito <= |datos| && Parcial(old(fisica.flat), fisica.flat, actual, datos)
      ensures escrito > 0 ==> actual + escrito <= |fisica.flat| && TodasAlcanzables(fisica.sticks, actual, escrito)
      ensures escrito > 0 ==> PhysicalMemory.Written(old(fisica.flat), fisica.flat, actual, datos, escrito)
      ensures red.averias == old(red.averias) && inicial.rangoConocido && |datos| <= U32_MAX - 8 && Alcanzable(fisica.sticks, actual) ==> escrito > 0
    {
      assert PhysicalMemory.Written(fisica.flat, fisica.flat, actual, datos, 0);
      var otro := Situar(inicial, actual);
      if otro.None? {
        return inicial, 0;
      }
      stick := otro.value;
      var fragmento := TamanioFragmento(stick, actual, |datos|);
      var ok := EscribirFragmento(stick, actual, datos[..fragmento]);
      escrito := if ok then fragmento else 0;
      ParcialMas(old(fisica.flat), fisica.flat, actual, datos, fragmento);
    }

    static lemma ParcialMas(antes: seq<Byte>, despues: seq<Byte>, dir: int, datos: seq<Byte>, f: nat)
      requires f <= |datos| && Parcial(antes, despues, dir, datos[..f])
      ensures Parcial(antes, despues, dir, datos)
    {
      var n: nat :| n <= |datos[..f]| && PhysicalMemory.Written(antes, despues, dir, datos[..f], n);
      assert PhysicalMemory.Written(antes, despues, dir, datos, n);
    }

    method EscribirFragmento(stick: Resuelto, dir: U32, datos: seq<Byte>) returns (ok: bool)
      requires Valid() && ResueltoFiel(fisica.sticks, stick) && |datos| <= U32_MAX
      modifies red, entradas, fisica.Repr
      ensures Valid() && fisica.Repr == old(fisica.Repr) && fisica.sticks == old(fisica.sticks) && red.averias >= old(red.averias)
      ensures Parcial(old(fisica.flat), fisica.flat, dir, datos)
      ensures ok ==> 0 < |datos| && dir + |datos| <= |fisica.flat| && TodasAlcanzables(fisica.sticks, dir, |datos|)
      ensures ok ==> PhysicalMemory.Written(old(fisica.flat), fisica.flat, dir, datos, |datos|)
      ensures red.averias == old(red.averias) && |datos| <= U32_MAX - 8 && Contenido(fisica.sticks[stick.id], dir, |datos|) ==> ok
    {
      ok := MemoriaWrite(stick, dir, datos);
      if !ok {
        InvalidarSocket(stick.id, stick.socket);
      } else {
        StickEnd(fisica.sticks, stick.id);
        FragmentoAlcanzable(fisica.sticks, stick.id, dir, |datos|);
      }
    }
  }
}
