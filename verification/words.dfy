/** Machine words. */
module Words {

  const WORD: int := 0x1_0000_0000

  type u32 = x: int | 0 <= x < WORD

  type byte = x: int | 0 <= x < 256

  type u16 = x: int | 0 <= x < 0x1_0000

  /** uint32_t addition. */
  function Add32(a: u32, b: u32): u32 {
    if a + b < WORD then a + b else a + b - WORD
  }

  /** uint32_t subtraction, which wraps below zero. */
  function Sub32(a: u32, b: u32): u32 {
    if a >= b then a - b else a - b + WORD
  }
}
