/** Machine integers: 64-bit words with wrap-around, and 32-bit indices. */
module Bits {

  const WORD: int := 0x1_0000_0000_0000_0000
  const HALF: int := 0x1_0000_0000

  type usize = x: int | 0 <= x < WORD
  type u32 = x: int | 0 <= x < HALF

  datatype Option<+T> = None | Some(value: T)

  /** Two's-complement addition: also adds a signed byte offset. */
  function WrapAdd(a: usize, b: usize): usize {
    if a + b < WORD then a + b else a + b - WORD
  }

  lemma WrapsModulo(a: usize, b: usize)
    ensures WrapAdd(a, b) == (a + b) % 0x1_0000_0000_0000_0000
  {
    if a + b >= WORD { assert (a + b) % WORD == (a + b - WORD) % WORD; }
  }

  /** What has to be added to `b` to give `a`. */
  function WrapSub(a: usize, b: usize): (d: usize)
    ensures WrapAdd(b, d) == a
  {
    if b <= a then a - b else a - b + WORD
  }

  /** The 32-bit view of a register: its upper half carries no meaning. */
  function Low32(a: usize): u32
    decreases a
  {
    if a < HALF then a else Low32(a - HALF)
  }

  const PAGE: int := 4096

  /** The low twelve bits of an address, which `:lo12:` adds back to its page. */
  function PageOffset(a: usize): (r: usize)
    ensures r < PAGE && r <= a
    decreases a
  {
    if a < PAGE then a else PageOffset(a - PAGE)
  }
}
