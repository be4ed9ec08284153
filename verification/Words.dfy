/** Hardware integers.

    Every register of the engine has a fixed width and wraps. A register of width N is modelled
    by an integer below 2^N, and every assignment that can overflow or truncate goes through
    the conversion `ToN`, which keeps the low N bits.
 */
module Words {

  const MAX_SESSIONS: nat := 128
  const MSS: nat := 1460
  const BUFFER_SIZE: int := 0x4_0000

  const WORD_16: nat := 0x1_0000
  const WORD_32: nat := 0x1_0000_0000

  type byte = x: int | 0 <= x < 0x100
  type u16 = x: int | 0 <= x < 0x1_0000
  type u18 = x: int | 0 <= x < 0x4_0000
  type u19 = x: int | 0 <= x < 0x8_0000
  type u32 = x: int | 0 <= x < 0x1_0000_0000
  type SessionId = x: int | 0 <= x < 128

  datatype Option<+T> = None | Some(value: T)

  function To16(x: int): u16 { x % 0x1_0000 }
  function To18(x: int): u18 { x % 0x4_0000 }
  function To19(x: int): u19 { x % 0x8_0000 }
  function To32(x: int): u32 { x % 0x1_0000_0000 }

  function Min(a: int, b: int): int { if a <= b then a else b }
  function Max(a: int, b: int): int { if a <= b then b else a }

  /** Subtracting two 18-bit copies of unbounded positions gives their true distance, as long
      as that distance is below the buffer size. */
  lemma Distance18(high: int, low: int)
    requires low <= high < low + BUFFER_SIZE
    ensures To18(To18(high) - To18(low)) == high - low
  {
  }

  lemma To32Add(a: int, b: int)
    ensures To32(To32(a) + b) == To32(a + b)
  {
  }

  lemma To18To32(a: int)
    ensures To18(To32(a)) == To18(a)
  {
  }

  /** Two positions less than a buffer apart never share a buffer slot. */
  lemma DistinctSlots(p: int, q: int)
    requires p != q
    requires p - q < BUFFER_SIZE && q - p < BUFFER_SIZE
    ensures To18(p) != To18(q)
  {
  }
}
