/** Scalar types shared by the whole model: the CLR's 32-bit integer with its
    unchecked wrap-around, GUIDs, timestamps, nullable references, and the
    exceptions that domain code throws. */
module Primitives {

  const TwoTo31: int := 0x8000_0000
  const TwoTo32: int := 0x1_0000_0000

  /** System.Int32 */
  newtype Int32 = x: int | -0x8000_0000 <= x < 0x8000_0000

  predicate FitsInt32(x: int) {
    -TwoTo31 <= x < TwoTo31
  }

  /** The value an unchecked C# `int` expression yields for the exact integer
      result `x`: the unique Int32 congruent to `x` modulo 2^32. */
  function Wrap32(x: int): (r: Int32)
    ensures (r as int - x) % TwoTo32 == 0
    ensures FitsInt32(x) ==> r as int == x
  {
    ((x + TwoTo31) % TwoTo32 - TwoTo31) as Int32
  }

  /** Wrapping is insensitive to a summand already wrapped. */
  lemma WrapAbsorbs(x: int, y: int)
    ensures Wrap32(Wrap32(x) as int + y) == Wrap32(x + y)
  {
    var k := (x + TwoTo31) / TwoTo32;
    assert Wrap32(x) as int == x - k * TwoTo32;
    WrapShift(x + y, -k);
  }

  /** Unchecked addition is associative. */
  lemma WrapAssociative(x: int, y: int, z: int)
    ensures Wrap32(Wrap32(x + y) as int + z) == Wrap32(x + Wrap32(y + z) as int)
  {
    var yz := Wrap32(y + z) as int;
    WrapAbsorbs(x + y, z);
    WrapAbsorbs(y + z, x);
    assert (x + y) + z == (y + z) + x && yz + x == x + yz;
  }

  lemma WrapShift(x: int, k: int)
    ensures Wrap32(x + k * TwoTo32) == Wrap32(x)
  {
    var a := x + TwoTo31;
    assert (a + k * TwoTo32) % TwoTo32 == a % TwoTo32;
  }

  /** System.Guid, as the 128-bit number it encodes. */
  newtype Guid = x: int | 0 <= x < 0x1_0000_0000_0000_0000_0000_0000_0000_0000

  /** Guid.Empty */
  const EmptyGuid: Guid := 0

  /** A System.DateTime value, as its tick count. */
  type Instant = nat

  /** A nullable reference (`T?`). */
  datatype Option<+T> = None | Some(value: T)

  /** C#'s null-coalescing operator `x ?? fallback`. */
  function Coalesce<T>(x: Option<T>, fallback: T): (r: T)
    ensures x.Some? ==> r == x.value
    ensures x.None? ==> r == fallback
  {
    match x
    case Some(v) => v
    case None => fallback
  }

  /** The exceptions thrown by the domain layer, with their messages. */
  datatype Exception =
    | ApplicationException(message: string)
    | InvalidOperationException(message: string)

  /** The outcome of an expression that may throw. */
  datatype Fallible<+T> = Value(value: T) | Throw(exception: Exception)

  /** `s.Contains(sub)`: `sub` occurs in `s` at some offset. */
  predicate Contains(s: string, sub: string) {
    exists i :: 0 <= i <= |s| && sub <= s[i..]
  }
}
