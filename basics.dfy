/** Small value wrappers shared by the other modules. */
module Basics {

  /** An optional value. */
  datatype Option<+T> = None | Some(value: T)

  /** A value or an error. */
  datatype Result<+T, +E> = Ok(value: T) | Err(error: E)

  /** What a network exchange handed back: the decoded value, or a failure of
      the transport or of decoding (both abort the caller the same way). */
  datatype Fetched<+T> = Got(value: T) | NetError

  /** A byte of a downloaded body. */
  newtype byte = x: int | 0 <= x < 0x100

  /** Rust's `u32`, the width of the statistics counters. */
  newtype u32 = x: int | 0 <= x < 0x1_0000_0000

  /** `w` occurs in `s` starting at position `i`. */
  predicate HasPrefixAt(s: string, i: nat, w: string)
  {
    i + |w| <= |s| && s[i..i + |w|] == w
  }
}
