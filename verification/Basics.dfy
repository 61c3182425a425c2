/** Machine integers, bytes and the option type shared by every component. */
module Basics {
  const U32_MAX: int := 0xFFFF_FFFF

  type U32 = x: int | 0 <= x <= 0xFFFF_FFFF
  type Byte = x: int | 0 <= x < 256

  datatype Option<+T> = None | Some(value: T)

  /** What becomes of a request to another process: served, refused with an error, or no answer at all, done or not. */
  datatype Destino = Atendido | Rechazado | SinRespuesta(hecho: bool)

  function Min(x: int, y: int): int {
    if x <= y then x else y
  }

  function Bit(b: bool): nat {
    if b then 1 else 0
  }

  /** `s` with the bytes from position `at` on replaced by `t`. */
  function Splice<T>(s: seq<T>, at: int, t: seq<T>): (r: seq<T>)
    requires 0 <= at && at + |t| <= |s|
    ensures |r| == |s|
    ensures forall i :: 0 <= i < |s| ==> r[i] == if at <= i < at + |t| then t[i - at] else s[i]
  {
    seq(|s|, i requires 0 <= i < |s| => if at <= i < at + |t| then t[i - at] else s[i])
  }

  function RemoveAt<T>(s: seq<T>, i: nat): (r: seq<T>)
    requires i < |s|
    ensures |r| == |s| - 1
  {
    s[..i] + s[i + 1..]
  }
}
