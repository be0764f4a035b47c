/** Decimal numbers as the output streams print them. */
module Decimals {
  function Digit(d: nat): char
    requires d < 10
  {
    '0' + d as char
  }

  function DigitValue(c: char): nat { if '0' <= c <= '9' then (c - '0') as nat else 0 }

  predicate IsDigits(s: string) { forall i :: 0 <= i < |s| ==> '0' <= s[i] <= '9' }

  /** `std::to_string` of a number that is not negative. */
  function Decimal(n: nat): (s: string)
    ensures s != [] && IsDigits(s)
  {
    if n < 10 then [Digit(n)] else Decimal(n / 10) + [Digit(n % 10)]
  }

  function Value(s: string): nat {
    if s == [] then 0 else 10 * Value(s[..|s| - 1]) + DigitValue(s[|s| - 1])
  }

  lemma ValueSnoc(s: string, c: char)
    ensures Value(s + [c]) == 10 * Value(s) + DigitValue(c)
  {
    assert (s + [c])[..|s + [c]| - 1] == s;
  }

  /** Reading back what was printed. */
  lemma {:induction false} ValueOfDecimal(n: nat)
    ensures Value(Decimal(n)) == n
  {
    if n >= 10 {
      ValueOfDecimal(n / 10);
      ValueSnoc(Decimal(n / 10), Digit(n % 10));
    } else {
      ValueSnoc([], Digit(n));
      assert [] + [Digit(n)] == [Digit(n)];
    }
  }

  /** `setw(w)` with fill `'0'`. */
  function PadLeft(s: string, w: nat): string
    decreases w - |s|
  {
    if |s| >= w then s else PadLeft(['0'] + s, w)
  }

  lemma {:induction false} PadLeftValue(s: string, w: nat)
    requires IsDigits(s)
    ensures |PadLeft(s, w)| == (if |s| >= w then |s| else w)
    ensures Value(PadLeft(s, w)) == Value(s) && IsDigits(PadLeft(s, w))
    decreases w - |s|
  {
    if |s| < w {
      ValueLeadingZero(s);
      PadLeftValue(['0'] + s, w);
    }
  }

  lemma {:induction false} ValueLeadingZero(s: string)
    ensures Value(['0'] + s) == Value(s)
  {
    if s == [] {
      assert ['0'] + s == [] + ['0'];
      ValueSnoc([], '0');
    } else {
      var init, c := s[..|s| - 1], s[|s| - 1];
      ValueLeadingZero(init);
      assert ['0'] + s == (['0'] + init) + [c];
      ValueSnoc(['0'] + init, c);
    }
  }

  function Pow10(k: nat): nat { if k == 0 then 1 else 10 * Pow10(k - 1) }

  lemma {:induction false} DecimalLength(n: nat, k: nat)
    requires k >= 1 && n < Pow10(k)
    ensures |Decimal(n)| <= k
  {
    assert Pow10(1) == 10;
    if n >= 10 {
      DecimalLength(n / 10, k - 1);
    }
  }

  /** A number of at most `w` digits fills exactly `w` places and reads back. */
  lemma Padded(n: nat, w: nat)
    requires w >= 1 && n < Pow10(w)
    ensures var s := PadLeft(Decimal(n), w); |s| == w && IsDigits(s) && Value(s) == n
  {
    DecimalLength(n, w);
    PadLeftValue(Decimal(n), w);
    ValueOfDecimal(n);
  }

  lemma Pow10s()
    ensures Pow10(2) == 100 && Pow10(4) == 10000 && Pow10(9) == 1000000000
  {
    assert Pow10(3) == 1000;
    assert Pow10(6) == 1000000;
  }

  // ---- Trailing zeros ----

  /** What is left when the zeros at the end are dropped. */
  function Trimmed(s: string): string {
    if s == [] || s[|s| - 1] != '0' then s else Trimmed(s[..|s| - 1])
  }

  function PadRight(s: string, w: nat): string
    decreases w - |s|
  {
    if |s| >= w then s else PadRight(s + ['0'], w)
  }

  /** The loop that pops zeros; it needs a digit that is not zero to stop at. */
  method TrimZeros(digits: string) returns (r: string)
    requires exists i :: 0 <= i < |digits| && digits[i] != '0'
    ensures r == Trimmed(digits) && r != [] && r[|r| - 1] != '0'
  {
    r := digits;
    while r[|r| - 1] == '0'
      invariant r <= digits && Trimmed(r) == Trimmed(digits)
      invariant exists i :: 0 <= i < |r| && r[i] != '0'
      decreases |r|
    {
      ghost var i :| 0 <= i < |r| && r[i] != '0';
      assert r[..|r| - 1][i] != '0';
      r := r[..|r| - 1];
    }
  }

  lemma {:induction false} TrimPad(s: string, w: nat)
    requires |s| == w
    ensures |Trimmed(s)| <= w && Trimmed(s) <= s && PadRight(Trimmed(s), w) == s
  {
    TrimPadFrom(s, s, w);
  }

  lemma {:induction false} TrimPadFrom(s: string, t: string, w: nat)
    requires t <= s && |s| == w && PadRight(t, w) == s
    ensures Trimmed(t) <= s && PadRight(Trimmed(t), w) == s
    decreases |t|
  {
    if t != [] && t[|t| - 1] == '0' {
      var u := t[..|t| - 1];
      assert u + ['0'] == t;
      TrimPadFrom(s, u, w);
    }
  }

  lemma {:induction false} TrimmedEnds(s: string)
    ensures Trimmed(s) == [] || Trimmed(s)[|Trimmed(s)| - 1] != '0'
  {
    if s != [] {
      TrimmedEnds(s[..|s| - 1]);
    }
  }

  lemma {:induction false} TrimmedKeepsNonZero(s: string)
    requires IsDigits(s) && Value(s) > 0
    ensures Trimmed(s) != [] && IsDigits(Trimmed(s))
    ensures exists i :: 0 <= i < |s| && s[i] != '0'
  {
    if s[|s| - 1] == '0' {
      TrimmedKeepsNonZero(s[..|s| - 1]);
      var i :| 0 <= i < |s| - 1 && s[..|s| - 1][i] != '0';
      assert s[i] != '0';
    }
  }
}
