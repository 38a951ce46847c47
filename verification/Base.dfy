/** Types shared by every part of the model. */
module Base {

  datatype Option<+T> = None | Some(value: T)

  /** A client-written integer parameter (epicsInt32). */
  type Int32 = x: int | -0x8000_0000 <= x < 0x8000_0000

  /** `static_cast<epicsUInt32>` of a parameter. */
  function U32(x: Int32): (r: nat)
    ensures r < 0x1_0000_0000
    ensures r == x <==> 0 <= x
  {
    if x < 0 then x + 0x1_0000_0000 else x
  }

  /** Conversion of a parameter to `size_t`. */
  function SizeT(x: Int32): (r: nat)
    ensures r < 0x1_0000_0000_0000_0000
    ensures r == x <==> 0 <= x
  {
    if x < 0 then x + 0x1_0000_0000_0000_0000 else x
  }

  /** Result of int arithmetic stored back in a parameter. */
  function Wrap32(x: int): (r: Int32)
    ensures -0x8000_0000 <= x < 0x8000_0000 ==> r == x
  {
    (x + 0x8000_0000) % 0x1_0000_0000 - 0x8000_0000
  }

  /** The cast to unsigned keeps the parameter. */
  lemma WrapU32(x: Int32)
    ensures Wrap32(U32(x)) == x
  {
  }

  function Min(a: int, b: int): int {
    if a < b then a else b
  }

  function Max(a: int, b: int): int {
    if a > b then a else b
  }

  function Abs(a: int): nat {
    if a < 0 then -a else a
  }
}
