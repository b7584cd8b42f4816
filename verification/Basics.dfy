/** What several parts of the model share: optional values, bytes and the C type int. */
module Basics {

  datatype Option<+T> = None | Some(value: T)

  type Byte = x: int | 0 <= x < 256

  /** The conversion of a size to int */
  function Int32(d: int): (i: int)
    ensures -0x8000_0000 <= i < 0x8000_0000
  {
    (d + 0x8000_0000) % 0x1_0000_0000 - 0x8000_0000
  }

  lemma Int32Least(d: nat)
    ensures Int32(d) <= d
    ensures d < 0x8000_0000 ==> Int32(d) == d
  {
  }
}
