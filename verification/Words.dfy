/** A 64-bit counter with a closed flag in bit 63, as written in the HTTP client (`operations`)
    and in the HTTP source (`readers`). */
module Words {
  const BIT63: nat := 0x8000_0000_0000_0000
  const WORDS: nat := 0x1_0000_0000_0000_0000

  type Word = w: nat | w < WORDS

  predicate HasBit(w: Word) { w / BIT63 % 2 == 1 }

  function SetBit(w: Word): Word { if HasBit(w) then w else w + BIT63 }

  function Increment(w: Word): Word { (w + 1) % WORDS }

  function Decrement(w: Word): Word { (w + WORDS - 1) % WORDS }

  function CountOf(w: Word): nat { w % BIT63 }

  /** `enter` / `Operation::Operation`: refused exactly when the bit is set. */
  function EnterWord(w: Word): (Word, bool) {
    if HasBit(w) then (w, false) else (Increment(w), true)
  }

  /** `leave` / `~Operation`: the second component is the notify decision. */
  function LeaveWord(w: Word): (Word, bool) {
    (Decrement(w), w == BIT63 + 1)
  }

  /** `retire` / `BeginStop`: the second component is the word before. */
  function CloseWord(w: Word): (Word, Word) {
    (SetBit(w), w)
  }
}
