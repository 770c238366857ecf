/** Machine words shared by every part of the emulator: Rust's u8 and u16, whose
    wrapping arithmetic is exactly bit-vector arithmetic. */
module Prelude {

  type Byte = bv8
  type Word = bv16

  datatype Option<+T> = None | Some(value: T)

  datatype Result<+T, +E> = Ok(value: T) | Err(error: E)

  /** Low byte of a word: `(w & 0xff) as u8`. */
  function Lo(w: Word): Byte {
    (w & 0xFF) as Byte
  }

  /** High byte of a word: `(w >> 8) as u8`. */
  function Hi(w: Word): Byte {
    (w >> 8) as Byte
  }

  /** Little-endian join: `(high << 8) | low`. */
  function Join(lo: Byte, hi: Byte): (w: Word)
    ensures Lo(w) == lo && Hi(w) == hi
  {
    (hi as Word << 8) | lo as Word
  }

  lemma JoinOfHalves(w: Word)
    ensures Join(Lo(w), Hi(w)) == w
  {
  }
}
