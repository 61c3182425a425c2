/** One Memory Stick process: a fixed buffer and the place of its range in the global address space. */
module MemoryStick {
  import opened Basics
  import opened Sticks

  class MemoryStick {
    const info: StickInfo
    const buffer: array<Byte>

    constructor (info: StickInfo, buffer: array<Byte>)
      requires buffer.Length == info.size
      ensures this.info == info && this.buffer == buffer
    {
      this.info := info;
      this.buffer := buffer;
    }

    predicate Valid() {
      buffer.Length == info.size
    }

    /** CPUs send global addresses, Kernel Memory local ones; both end in an index into the own buffer. */
    function ResolverRango(direccion: U32, tamanio: U32, esGlobal: bool): (r: Option<U32>)
      ensures r.Some? <==>
        && tamanio > 0
        && (esGlobal ==> info.offset <= direccion)
        && direccion - (if esGlobal then info.offset else 0) + tamanio <= info.size
      ensures r.Some? ==> r.value == direccion - (if esGlobal then info.offset else 0)
    {
      if tamanio == 0 then None
      else if esGlobal && direccion < info.offset then None
      else
        var local := if esGlobal then direccion - info.offset else direccion;
        if local > info.size then None
        else if tamanio > info.size - local then None
        else Some(local)
    }

    /** The declared size must match the bytes that came with the request. */
    method ManejarWrite(direccion: U32, tamanio: U32, datos: seq<Byte>, esGlobal: bool) returns (ok: bool)
      requires Valid()
      modifies buffer
      ensures ok <==> tamanio <= U32_MAX - 8 && |datos| == tamanio && ResolverRango(direccion, tamanio, esGlobal).Some?
      ensures ok ==>
        var local := ResolverRango(direccion, tamanio, esGlobal).value;
        forall i :: 0 <= i < buffer.Length ==>
          buffer[i] == if local <= i < local + tamanio then datos[i - local] else old(buffer[i])
      ensures !ok ==> unchanged(buffer)
    {
      if tamanio > U32_MAX - 8 || |datos| != tamanio {
        return false;
      }
      var local := ResolverRango(direccion, tamanio, esGlobal);
      if local.None? {
        return false;
      }
      forall i | 0 <= i < tamanio {
        buffer[local.value + i] := datos[i];
      }
      ok := true;
    }

    method ManejarRead(direccion: U32, tamanio: U32, esGlobal: bool) returns (r: Option<seq<Byte>>)
      requires Valid()
      ensures r.Some? <==> ResolverRango(direccion, tamanio, esGlobal).Some?
      ensures r.Some? ==>
        var local := ResolverRango(direccion, tamanio, esGlobal).value;
        && |r.value| == tamanio
        && forall i :: 0 <= i < tamanio ==> r.value[i] == buffer[local + i]
    {
      var local := ResolverRango(direccion, tamanio, esGlobal);
      if local.None? {
        return None;
      }
      r := Some(buffer[local.value..local.value + tamanio]);
    }
  }
}

/** Kernel Memory's view of the connected sticks as one flat array of bytes. */
module PhysicalMemory {
  import opened Basics
  import opened Sticks
  import opened MemoryStick

  class PhysicalMemory {
    var sticks: seq<StickInfo>    // the records Kernel Memory keeps
    var ms: seq<MemoryStick>      // the processes at the other end of each connection
    var nextId: U32
    ghost var flat: seq<Byte>
    ghost var Repr: set<object>

    ghost predicate Valid()
      reads this, Repr
      ensures Valid() ==> this in Repr
    {
      Shape() && Mirrored()
    }

    /** The part of the invariant that no write to a stick can touch. */
    ghost predicate Shape()
      reads this`sticks, this`ms, this`nextId, this`Repr
    {
      && this in Repr
      && Contiguous(sticks)
      && |ms| == |sticks| == nextId
      && (forall k :: 0 <= k < |ms| ==> ms[k].buffer in Repr && ms[k].Valid() && ms[k].info == sticks[k])
      && (forall j, k :: 0 <= j < k < |ms| ==> ms[j].buffer != ms[k].buffer)
    }

    ghost predicate Mirrored()
      reads this, Repr
    {
      && |flat| == Total(sticks)
      && (forall k :: 0 <= k < |ms| && ms[k].buffer in Repr ==> Mirrors(ms[k]))
    }

    /** The range of a stick in the flat memory holds that stick's buffer. */
    ghost predicate Mirrors(m: MemoryStick)
      reads this`flat, m.buffer
    {
      && m.info.offset + m.buffer.Length <= |flat|
      && forall i {:trigger m.buffer[i]} :: 0 <= i < m.buffer.Length ==> flat[m.info.offset + i] == m.buffer[i]
    }

    constructor ()
      ensures Valid() && fresh(Repr) && flat == [] && sticks == []
    {
      sticks, ms, nextId, flat := [], [], 0, [];
      Repr := {this};
    }

    /** Linear search for the stick that holds a global address. */
    method MsParaDireccion(dir: U32) returns (r: Option<nat>)
      requires Contiguous(sticks)
      ensures r == StickAt(sticks, dir)
      ensures r.Some? <==> dir < Total(sticks)
    {
      StickAtTotal(sticks, dir);
      var i := 0;
      while i < |sticks|
        invariant 0 <= i <= |sticks|
        invariant StickAt(sticks, dir) == FirstStick(sticks, dir, i)
      {
        if dir >= sticks[i].offset && dir - sticks[i].offset < sticks[i].size {
          return Some(i);
        }
        i := i + 1;
      }
      r := None;
    }

    method MemoriaTotal() returns (total: U32)
      requires Contiguous(sticks)
      ensures total == Total(sticks)
    {
      total := 0;
      var i := 0;
      while i < |sticks|
        invariant 0 <= i <= |sticks|
        invariant total == (if i == 0 then 0 else End(sticks[i - 1]))
      {
        StickEnd(sticks, i);
        total := total + sticks[i].size;
        i := i + 1;
      }
    }

    /** `after` is `before` with the first `n` bytes of `datos` written at `dir`. */
    static ghost predicate Written(before: seq<Byte>, after: seq<Byte>, dir: int, datos: seq<Byte>, n: nat)
      requires n <= |datos|
    {
      && |after| == |before|
      && forall a {:trigger after[a]} :: 0 <= a < |after| ==> after[a] == if dir <= a < dir + n then datos[a - dir] else before[a]
    }

    method MsEscribir(k: nat, local: U32, datos: seq<Byte>) returns (ok: bool)
      requires Valid() && k < |sticks| && 0 < |datos| && local + |datos| <= sticks[k].size
      modifies ms[k].buffer, this`flat
      ensures Valid() && End(sticks[k]) <= |flat|
      ensures ok <==> |datos| <= U32_MAX - 8
      ensures Written(old(flat), flat, sticks[k].offset + local, datos, if ok then |datos| else 0)
    {
      StickEnd(sticks, k);
      if |datos| > U32_MAX - 8 {
        return false;
      }
      var m := ms[k];
      assert Mirrors(m);
      ghost var before := flat;
      ok := m.ManejarWrite(local, |datos|, datos, false);
      flat := Splice(flat, m.info.offset + local, datos);
      assert Written(before, flat, m.info.offset + local, datos, |datos|);
      forall j | 0 <= j < |ms|
        ensures Mirrors(ms[j])
      {
        if j != k {
          SticksApart(sticks, j, k);
          assert old(Mirrors(ms[j]));
        }
      }
    }

    /** Reads what the stick holding `dir` can give of the `pendiente` bytes that follow. */
    method LeerTramo(dir: U32, pendiente: U32) returns (r: Option<seq<Byte>>)
      requires Valid() && pendiente > 0
      ensures r.Some? <==> dir < |flat|
      ensures r.Some? ==> 0 < |r.value| <= pendiente && dir + |r.value| <= |flat| && r.value == flat[dir..dir + |r.value|]
    {
      var k := MsParaDireccion(dir);
      if k.None? {
        return None;
      }
      var m := ms[k.value];
      assert Mirrors(m);
      var local := dir - sticks[k.value].offset;
      var disponible := sticks[k.value].size - local;
      var aLeer := Min(pendiente, disponible);
      r := m.ManejarRead(local, aLeer, false);
    }

    /** Reads a range that may span any number of sticks. */
    method LeerFisico(dir: U32, tamanio: U32) returns (r: Option<seq<Byte>>)
      requires Valid()
      ensures r.Some? <==> tamanio > 0 && dir + tamanio <= |flat|
      ensures r.Some? ==> r.value == flat[dir..dir + tamanio]
    {
      if tamanio == 0 || dir > U32_MAX - (tamanio - 1) {
        return None;
      }
      var resultado: seq<Byte> := [];
      var leido := 0;
      while leido < tamanio
        invariant 0 <= leido <= tamanio && |resultado| == leido
        invariant leido > 0 ==> dir + leido <= |flat| && resultado == flat[dir..dir + leido]
      {
        var chunk := LeerTramo(dir + leido, tamanio - leido);
        if chunk.None? {
          return None;
        }
        resultado := resultado + chunk.value;
        leido := leido + |chunk.value|;
      }
      r := Some(resultado);
    }

    /** Writes what the stick holding `dir` can take of `datos`. */
    method EscribirTramo(dir: U32, datos: seq<Byte>) returns (n: nat)
      requires Valid() && 0 < |datos| <= U32_MAX
      modifies Repr
      ensures Valid() && Repr == old(Repr) && sticks == old(sticks) && ms == old(ms)
      ensures n <= |datos| && (n > 0 ==> dir + n <= |flat|)
      ensures Written(old(flat), flat, dir, datos, n)
      ensures |datos| <= U32_MAX - 8 && dir < |flat| ==> n > 0
    {
      var k := MsParaDireccion(dir);
      if k.None? {
        return 0;
      }
      var local := dir - sticks[k.value].offset;
      var disponible := sticks[k.value].size - local;
      n := Min(|datos|, disponible);
      var ok := MsEscribir(k.value, local, datos[..n]);
      if !ok {
        n := 0;
      }
    }

    /** Writes a range that may span any number of sticks; a failure has written a prefix of it. */
    method EscribirFisico(dir: U32, datos: seq<Byte>) returns (ok: bool)
      requires Valid() && |datos| <= U32_MAX
      modifies Repr
      ensures Valid() && Repr == old(Repr) && sticks == old(sticks) && ms == old(ms) && |flat| == |old(flat)|
      ensures ok ==> 0 < |datos| && dir + |datos| <= |flat| && flat == Splice(old(flat), dir, datos)
      ensures 0 < |datos| <= U32_MAX - 8 && dir + |datos| <= |flat| ==> ok
      ensures exists n :: 0 <= n <= |datos| && Written(old(flat), flat, dir, datos, n)
    {
      var tamanio := |datos|;
      assert Written(old(flat), flat, dir, datos, 0);
      if tamanio == 0 || dir > U32_MAX - (tamanio - 1) {
        return false;
      }
      var escrito := 0;
      while escrito < tamanio
        invariant 0 <= escrito <= tamanio
        invariant Valid() && Repr == old(Repr) && sticks == old(sticks) && ms == old(ms) && |flat| == |old(flat)|
        invariant escrito > 0 ==> dir + escrito <= |flat|
        invariant Written(old(flat), flat, dir, datos, escrito)
      {
        var n := EscribirTramo(dir + escrito, datos[escrito..]);
        if n == 0 {
          assert Written(old(flat), flat, dir, datos, escrito);
          return false;
        }
        escrito := escrito + n;
      }
      ok := true;
    }

    /** A stick that identifies itself is placed after the last one, unless the total would leave 32 bits. */
    method RegistrarStick(buffer: array<Byte>) returns (ok: bool)
      requires Valid() && buffer !in Repr && buffer.Length <= U32_MAX
      modifies this
      ensures Valid() && old(Repr) <= Repr <= old(Repr) + {buffer}
      ensures ok <==> 0 < buffer.Length && |old(flat)| + buffer.Length <= U32_MAX
      ensures !ok ==> flat == old(flat) && sticks == old(sticks)
      ensures ok ==> flat == old(flat) + buffer[..]
      ensures ok ==> sticks == old(sticks) + [StickInfo(|old(sticks)|, |old(flat)|, buffer.Length)]
    {
      if buffer.Length == 0 {
        return false;
      }
      var offset := MemoriaTotal();
      if offset > U32_MAX - buffer.Length {
        return false;
      }
      CountBound(sticks);
      var info := StickInfo(nextId, offset, buffer.Length);
      ContiguousAppend(sticks, info);
      var nuevo := new MemoryStick(info, buffer);
      Agregar(nuevo);
      ok := true;
    }

    method Agregar(nuevo: MemoryStick)
      requires Valid() && nuevo.Valid() && nuevo.buffer !in Repr
      requires nuevo.info.id == nextId < U32_MAX && nuevo.info.offset == |flat| && Contiguous(sticks + [nuevo.info])
      modifies this
      ensures Valid() && Repr == old(Repr) + {nuevo.buffer}
      ensures flat == old(flat) + nuevo.buffer[..] && sticks == old(sticks) + [nuevo.info]
    {
      nextId := nextId + 1;
      sticks, ms := sticks + [nuevo.info], ms + [nuevo];
      flat := flat + nuevo.buffer[..];
      Repr := Repr + {nuevo.buffer};
      assert Shape();
      forall k | 0 <= k < |ms|
        ensures Mirrors(ms[k])
      {
        if k < |ms| - 1 {
          assert old(Mirrors(ms[k]));
        }
      }
    }

    // -------------------------------------------------------------- what the CPUs see

    /** The record published for a stick id. */
    method EndpointPorId(id: U32) returns (r: Option<StickInfo>)
      requires Contiguous(sticks)
      ensures r == if id < |sticks| then Some(sticks[id]) else None
    {
      var i := 0;
      while i < |sticks|
        invariant 0 <= i <= |sticks| && i <= id
      {
        if sticks[i].id == id {
          return Some(sticks[i]);
        }
        i := i + 1;
      }
      r := None;
    }

    /** The record published for the stick that holds an address. */
    method EndpointPorDireccion(dir: U32) returns (r: Option<StickInfo>)
      requires Contiguous(sticks)
      ensures match StickAt(sticks, dir) case None => r == None case Some(k) => r == Some(sticks[k])
    {
      var k := MsParaDireccion(dir);
      r := if k.Some? then Some(sticks[k.value]) else None;
    }

    /** A CPU reads from stick `k` by global address, over its own connection. */
    method LeerGlobal(k: nat, dir: U32, n: U32) returns (r: Option<seq<Byte>>)
      requires Valid() && k < |sticks|
      ensures r.Some? <==> 0 < n && sticks[k].offset <= dir && dir + n <= End(sticks[k])
      ensures r.Some? ==> dir + n <= |flat| && r.value == flat[dir..dir + n]
    {
      StickEnd(sticks, k);
      var m := ms[k];
      assert Mirrors(m);
      r := m.ManejarRead(dir, n, true);
      if r.Some? {
        forall i | 0 <= i < n
          ensures r.value[i] == flat[dir + i]
        {
          assert flat[m.info.offset + (dir - m.info.offset + i)] == m.buffer[dir - m.info.offset + i];
        }
      }
    }

    /** A CPU writes to stick `k` by global address. */
    method EscribirGlobal(k: nat, dir: U32, datos: seq<Byte>) returns (ok: bool)
      requires Valid() && k < |sticks|
      modifies Repr
      ensures Valid() && Repr == old(Repr) && sticks == old(sticks) && ms == old(ms) && nextId == old(nextId)
      ensures ok <==> 0 < |datos| <= U32_MAX - 8 && sticks[k].offset <= dir && dir + |datos| <= End(sticks[k])
      ensures ok ==> dir + |datos| <= |flat|
      ensures Written(old(flat), flat, dir, datos, if ok then |datos| else 0)
    {
      if |datos| == 0 || |datos| > U32_MAX - 8 || ms[k].ResolverRango(dir, |datos|, true).None? {
        return false;
      }
      ok := MsEscribirGlobal(k, dir, datos);
    }

    method MsEscribirGlobal(k: nat, dir: U32, datos: seq<Byte>) returns (ok: bool)
      requires Valid() && k < |sticks| && 0 < |datos| <= U32_MAX - 8
      requires sticks[k].offset <= dir && dir + |datos| <= End(sticks[k])
      modifies ms[k].buffer, this`flat
      ensures Valid() && ok && dir + |datos| <= |flat|
      ensures Written(old(flat), flat, dir, datos, |datos|)
    {
      StickEnd(sticks, k);
      var m := ms[k];
      assert Mirrors(m);
      ghost var before := flat;
      ok := m.ManejarWrite(dir, |datos|, datos, true);
      flat := Splice(flat, dir, datos);
      assert Written(before, flat, dir, datos, |datos|);
      forall j | 0 <= j < |ms|
        ensures Mirrors(ms[j])
      {
        if j != k {
          SticksApart(sticks, j, k);
          assert old(Mirrors(ms[j]));
        }
      }
    }

    /** The flat memory is nothing but the sticks' buffers: every address belongs to one stick, and holds that stick's byte. */
    lemma FlatIsTheSticks(a: nat)
      requires Valid() && a < |flat|
      ensures StickAt(sticks, a).Some?
      ensures var k := StickAt(sticks, a).value; flat[a] == ms[k].buffer[a - sticks[k].offset]
    {
      StickAtTotal(sticks, a);
      var k := StickAt(sticks, a).value;
      assert Mirrors(ms[k]);
      assert flat[ms[k].info.offset + (a - sticks[k].offset)] == ms[k].buffer[a - sticks[k].offset];
    }
  }
}
