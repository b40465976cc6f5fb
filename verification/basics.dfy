/** What several modules share. */
module Basics {

  datatype Option<T> = None | Some(value: T)

  /** A machine word is 64 bits wide. */
  const WORD_LIMIT: nat := 0x1_0000_0000_0000_0000
  const USIZE_MAX: nat := WORD_LIMIT - 1
  const U32_MAX: nat := 0xffff_ffff
}
