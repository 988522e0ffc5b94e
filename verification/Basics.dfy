/** What several modules share: an optional value and the range of 64-bit unsigned integers. */
module Basics {

  datatype Option<+T> = None | Some(value: T)

  const MAX_UINT64 := 0xFFFF_FFFF_FFFF_FFFF
  const TWO_TO_THE_64 := 0x1_0000_0000_0000_0000
}
