/** A CPU's cache while sticks register, and the memory it can and cannot reach. */
module CpuAlcance {
  import opened Basics
  import opened Intervals
  import opened Sticks
  import opened KmEstado
  import opened KmOperaciones
  import opened KmCorridas
  import opened KmIdentidades
  import opened CpuMemorySticks
  import KernelMemory

  /** A stick that registers later, through Kernel Memory, leaves every cached range right. */
  method StickNuevo(km: KernelMemory.KernelMemory, cpu: CpuMemorySticks, buffer: array<Byte>) returns (ok: bool)
    requires km.Valid() && cpu.Valid() && cpu.fisica == km.fisica && cpu.entradas as object !in km.Repr() && cpu !in km.Repr()
    requires buffer !in km.Repr() && buffer as object !in {cpu, cpu.red, cpu.entradas} && buffer.Length <= U32_MAX
    modifies km`huecos, km.fisica
    ensures km.Valid() && cpu.Valid() && Paso(km.cfg, old(km.Estado()), RegistrarStick(buffer[..], ok), km.Estado())
    ensures cpu.entradas == old(cpu.entradas) && cpu.entradas[..] == old(cpu.entradas[..])
    ensures cpu.fisica.sticks == old(cpu.fisica.sticks) + if ok then [StickInfo(|old(cpu.fisica.sticks)|, |old(cpu.fisica.flat)|, buffer.Length)] else []
  {
    ok := km.AtenderMemoryStick(buffer);
  }

  /** A CPU can reach all of memory if and only if no more sticks have registered than the ids its cache admits. */
  lemma TodaAlcanzable(sticks: seq<StickInfo>)
    requires Contiguous(sticks)
    ensures (forall dir: U32 :: dir < Total(sticks) ==> Alcanzable(sticks, dir)) <==> |sticks| <= CPU_MEMORY_STICK_ID_MAX + 1
  {
    if |sticks| <= CPU_MEMORY_STICK_ID_MAX + 1 {
      forall dir: U32 | dir < Total(sticks)
        ensures Alcanzable(sticks, dir)
      {
        StickAtTotal(sticks, dir);
      }
    } else {
      var k := CPU_MEMORY_STICK_ID_MAX + 1;
      StickEnd(sticks, k);
      StickAtUnique(sticks, sticks[k].offset, k);
      assert !Alcanzable(sticks, sticks[k].offset);
    }
  }

  function Palitos(n: nat): (r: seq<StickInfo>)
    requires n <= U32_MAX
    ensures |r| == n
  {
    seq(n, i requires 0 <= i < n => StickInfo(i, i, 1))
  }

  /** Kernel Memory after `n` sticks of one byte have registered. */
  function ConSticks(n: nat): Km
    requires 0 < n <= U32_MAX
  {
    INICIAL.(sticks := Palitos(n), mem := seq(n, _ => 0), huecos := [Interval(0, n)])
  }

  lemma OtroHueco(n: nat)
    requires 0 < n < U32_MAX
    ensures SameCover([Interval(0, n + 1)], [Interval(0, n)] + [Interval(n, 1)])
  {
    forall a
      ensures Cover([Interval(0, n + 1)], a) == Cover([Interval(0, n)] + [Interval(n, 1)], a)
    {
      CoverAppend([Interval(0, n)], [Interval(n, 1)], a);
      Solo(Interval(0, n + 1), a);
      Solo(Interval(0, n), a);
      Solo(Interval(n, 1), a);
    }
  }

  lemma Solo(iv: Interval, a: int)
    ensures Cover([iv], a) == Bit(Holds(iv, a))
  {
    assert [iv][1..] == [];
  }

  lemma OtroStick(c: Config, n: nat)
    requires 0 < n < U32_MAX
    ensures Paso(c, ConSticks(n), RegistrarStick([0], true), ConSticks(n + 1))
  {
    var s, t := ConSticks(n), ConSticks(n + 1);
    assert Total(s.sticks) == n;
    assert t.sticks == s.sticks + [StickInfo(n, n, 1)];
    assert t.mem == s.mem + [0];
    OtroHueco(n);
    assert RegistrarStickStep(s, t, [0], true);
  }

  lemma PrimerStick(c: Config)
    ensures Paso(c, INICIAL, RegistrarStick([0], true), ConSticks(1))
  {
    var t := ConSticks(1);
    assert t.sticks == [] + [StickInfo(0, 0, 1)];
    assert t.mem == [] + [0];
    assert [] + [Interval(0, 1)] == [Interval(0, 1)];
    assert RegistrarStickStep(INICIAL, t, [0], true);
  }

  lemma {:induction false} SticksSeAlcanzan(c: Config, n: nat)
    requires 0 < n <= U32_MAX
    ensures SeAlcanza(c, ConSticks(n))
  {
    hide SeAlcanza, Paso;
    if n == 1 {
      SeAlcanzaInicial(c);
      PrimerStick(c);
      SeAlcanzaPaso(c, INICIAL, RegistrarStick([0], true), ConSticks(1));
    } else {
      SticksSeAlcanzan(c, n - 1);
      OtroStick(c, n - 1);
      SeAlcanzaPaso(c, ConSticks(n - 1), RegistrarStick([0], true), ConSticks(n));
    }
  }

  /** With one stick more than the cache admits, the last byte of memory cannot be reached through any id. */
  lemma ByteInalcanzable(c: Config) returns (s: Km, dir: U32)
    ensures SeAlcanza(c, s) && dir < |s.mem| && Cover(s.huecos, dir) == 1
    ensures !Alcanzable(s.sticks, dir) && forall id: U32, n: U32 :: !Servible(s.sticks, id, dir, n)
  {
    hide SeAlcanza;
    var n := CPU_MEMORY_STICK_ID_MAX + 2;
    s, dir := ConSticks(n), n - 1;
    SticksSeAlcanzan(c, n);
    Solo(Interval(0, n), dir);
    assert InStick(s.sticks[dir], dir);
    Ultimo(s.sticks, dir);
  }

  lemma Ultimo(sticks: seq<StickInfo>, dir: U32)
    requires forall i :: 0 <= i < |sticks| ==> InStick(sticks[i], dir) ==> i > CPU_MEMORY_STICK_ID_MAX
    ensures !Alcanzable(sticks, dir) && forall id: U32, n: U32 :: !Servible(sticks, id, dir, n)
  {
    forall id: U32, n: U32
      ensures !Servible(sticks, id, dir, n)
    {
      assert !Alcanzable(sticks, dir);
    }
  }
}
