/** The execution context of a process, shared by Kernel Memory, the CPU and the wire format. */
module Contexto {
  import opened Basics
  import opened Intervals

  datatype Registros = Registros(
    pc: U32,
    ax: Byte, bx: Byte, cx: Byte, dx: Byte,
    eax: U32, ebx: U32, ecx: U32, edx: U32,
    si: U32, di: U32)

  datatype Segmento = Segmento(id: U32, stick: U32, base: U32, limite: U32)

  datatype Contexto = Contexto(pid: U32, registros: Registros, segmentos: seq<Segmento>)

  const REGISTROS_CERO := Registros(0, 0, 0, 0, 0, 0, 0, 0, 0, 0, 0)

  function Span(s: Segmento): Interval {
    Interval(s.base, s.limite)
  }

  function Spans(segs: seq<Segmento>): (r: seq<Interval>)
    ensures |r| == |segs|
    ensures forall i :: 0 <= i < |r| ==> r[i] == Span(segs[i])
  {
    seq(|segs|, i requires 0 <= i < |segs| => Span(segs[i]))
  }

  /** Position of the first context of a process: buscar_contexto. */
  function Buscar(ctxs: seq<Contexto>, pid: U32): (r: Option<nat>)
    ensures r.Some? ==> r.value < |ctxs| && ctxs[r.value].pid == pid
    ensures r.Some? ==> forall k :: 0 <= k < r.value ==> ctxs[k].pid != pid
    ensures r.None? ==> forall k :: 0 <= k < |ctxs| ==> ctxs[k].pid != pid
  {
    if ctxs == [] then None
    else if ctxs[0].pid == pid then Some(0)
    else match Buscar(ctxs[1..], pid)
      case Some(k) =>
        assert forall j :: 0 < j < |ctxs| ==> ctxs[j] == ctxs[1..][j - 1];
        Some(k + 1)
      case None =>
        assert forall k :: 0 < k < |ctxs| ==> ctxs[k] == ctxs[1..][k - 1];
        None
  }

  /** Position of the first segment with a given id. */
  function BuscarSegmento(segs: seq<Segmento>, id: U32): (r: Option<nat>)
    ensures r.Some? ==> r.value < |segs| && segs[r.value].id == id
    ensures r.Some? ==> forall k :: 0 <= k < r.value ==> segs[k].id != id
    ensures r.None? ==> forall k :: 0 <= k < |segs| ==> segs[k].id != id
  {
    if segs == [] then None
    else if segs[0].id == id then Some(0)
    else match BuscarSegmento(segs[1..], id)
      case Some(k) =>
        assert forall j :: 0 < j < |segs| ==> segs[j] == segs[1..][j - 1];
        Some(k + 1)
      case None =>
        assert forall k :: 0 < k < |segs| ==> segs[k] == segs[1..][k - 1];
        None
  }

  /** The ranges of all resident segments of all processes. */
  function Todos(ctxs: seq<Contexto>): seq<Interval> {
    if ctxs == [] then [] else Spans(ctxs[0].segmentos) + Todos(ctxs[1..])
  }

  lemma {:induction false} CoverTodosConcat(xs: seq<Contexto>, ys: seq<Contexto>, a: int)
    ensures Cover(Todos(xs + ys), a) == Cover(Todos(xs), a) + Cover(Todos(ys), a)
  {
    if xs == [] {
      assert xs + ys == ys;
    } else {
      assert (xs + ys)[1..] == xs[1..] + ys;
      CoverTodosConcat(xs[1..], ys, a);
      CoverAppend(Spans(xs[0].segmentos), Todos(xs[1..]), a);
      CoverAppend(Spans(xs[0].segmentos), Todos(xs[1..] + ys), a);
    }
  }

  lemma CoverTodosSplit(ctxs: seq<Contexto>, k: nat, a: int)
    requires k < |ctxs|
    ensures Cover(Todos(ctxs), a) == Cover(Todos(ctxs[..k]), a) + Cover(Spans(ctxs[k].segmentos), a) + Cover(Todos(ctxs[k + 1..]), a)
  {
    assert ctxs == ctxs[..k] + ctxs[k..] && ctxs[k..][1..] == ctxs[k + 1..];
    CoverTodosConcat(ctxs[..k], ctxs[k..], a);
    CoverAppend(Spans(ctxs[k].segmentos), Todos(ctxs[k + 1..]), a);
  }

  /** Replacing one context changes the coverage by exactly that context's share. */
  lemma CoverTodosUpdate(ctxs: seq<Contexto>, k: nat, c: Contexto, a: int)
    requires k < |ctxs|
    ensures Cover(Todos(ctxs[k := c]), a) + Cover(Spans(ctxs[k].segmentos), a) == Cover(Todos(ctxs), a) + Cover(Spans(c.segmentos), a)
  {
    CoverTodosSplit(ctxs, k, a);
    CoverTodosSplit(ctxs[k := c], k, a);
    assert ctxs[k := c][..k] == ctxs[..k] && ctxs[k := c][k + 1..] == ctxs[k + 1..];
  }

  lemma CoverTodosRemove(ctxs: seq<Contexto>, k: nat, a: int)
    requires k < |ctxs|
    ensures Cover(Todos(RemoveAt(ctxs, k)), a) + Cover(Spans(ctxs[k].segmentos), a) == Cover(Todos(ctxs), a)
  {
    CoverTodosSplit(ctxs, k, a);
    CoverTodosConcat(ctxs[..k], ctxs[k + 1..], a);
  }

  lemma CoverTodosAppend(ctxs: seq<Contexto>, c: Contexto, a: int)
    ensures Cover(Todos(ctxs + [c]), a) == Cover(Todos(ctxs), a) + Cover(Spans(c.segmentos), a)
  {
    CoverTodosConcat(ctxs, [c], a);
    assert Todos([c]) == Spans(c.segmentos);
  }

  /** A segment's address counts in the coverage of all segments ... */
  lemma CoverTodosOne(ctxs: seq<Contexto>, k: nat, i: nat, a: int)
    requires k < |ctxs| && i < |ctxs[k].segmentos| && Holds(Span(ctxs[k].segmentos[i]), a)
    ensures Cover(Todos(ctxs), a) >= 1
  {
    CoverTodosSplit(ctxs, k, a);
    CoverOne(Spans(ctxs[k].segmentos), i, a);
  }

  /** ... and two different segments that share an address count twice. */
  lemma CoverTodosTwo(ctxs: seq<Contexto>, k: nat, i: nat, l: nat, j: nat, a: int)
    requires k < |ctxs| && i < |ctxs[k].segmentos| && Holds(Span(ctxs[k].segmentos[i]), a)
    requires l < |ctxs| && j < |ctxs[l].segmentos| && Holds(Span(ctxs[l].segmentos[j]), a)
    requires k != l || i != j
    ensures Cover(Todos(ctxs), a) >= 2
  {
    CoverTodosSplit(ctxs, k, a);
    if k == l {
      CoverTwo(Spans(ctxs[k].segmentos), i, j, a);
    } else {
      CoverOne(Spans(ctxs[k].segmentos), i, a);
      var rest := RemoveAt(ctxs, k);
      CoverTodosRemove(ctxs, k, a);
      var m := if l < k then l else l - 1;
      assert rest[m] == ctxs[l];
      CoverTodosOne(rest, m, j, a);
    }
  }
}
