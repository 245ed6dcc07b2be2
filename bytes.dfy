/** Fixed-width values shared by every module.

    The C sources compute on uint8_t and uint16_t. They are modelled as bv8
    and bv16, so that the wrap-around of C's unsigned arithmetic is the type's
    own arithmetic and the bit masks are the native bit-vector operators. */
module Bytes {

  type byte = bv8
  type word = bv16

  /** A bus address. The memory bus only compares and offsets addresses, so
      they are integers there; the CPU's 16-bit registers are words. */
  type Address = a: int | 0 <= a < 0x10000

  /** Option, for the places where C returns NULL or a failure code. */
  datatype Option<T> = None | Some(value: T)

  /** The high byte of a 16-bit value (`w >> 8`). */
  function Hi(w: word): (r: byte)
  {
    (w >> 8) as byte
  }

  /** The low byte of a 16-bit value (`w & 0xFF`, or the uint8_t truncation). */
  function Lo(w: word): (r: byte)
  {
    (w & 0xFF) as byte
  }

  /** U8_TO_U16(h, l) of the emulator: `(h << 8) | l`; its inverse is Hi/Lo. */
  function Word(h: byte, l: byte): (w: word)
    ensures Hi(w) == h && Lo(w) == l
  {
    ((h as word) << 8) | (l as word)
  }

  /** Hi and Lo lose nothing: recombining them gives the value back. */
  lemma WordOfHalves(w: word)
    ensures Word(Hi(w), Lo(w)) == w
  {
  }

  /** Adding the shifted high byte to the low byte, as `(h << 8) + l` does,
      is the same as or-ing them. */
  lemma SumIsWord(h: byte, l: byte)
    ensures ((h as word) << 8) + l as word == Word(h, l)
  {
  }

  /** The value of `(int8_t) b`, as a mathematical integer. */
  function Signed(b: byte): (e: int)
    ensures -128 <= e < 128
    ensures (e + 256) % 256 == b as int
  {
    if b < 0x80 then b as int else b as int - 256
  }

  /** `(int8_t) b` widened to 16 bits: the low byte is b, the high byte
      repeats its sign bit. Adding it to a uint16_t and truncating is adding
      it in bv16. */
  function SignExtend(b: byte): (w: word)
    ensures Lo(w) == b
    ensures Hi(w) == if b & 0x80 == 0 then 0x00 else 0xFF
  {
    if b < 0x80 then b as word else (b as word) | 0xFF00
  }
}
