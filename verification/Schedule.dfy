/** The schedule timestamp and the string that identifies a trigger. */
module Schedules {
  import opened Options
  import opened Calendar
  import opened Decimals

  const GIGA: int := 1_000_000_000
  const DAY: int := 86_400

  /** An instant counts nanoseconds from the epoch; these are the years 0000 to 9999, which include every
      instant a 64-bit nanosecond clock can show. */
  predicate InYears(t: int) { -EPOCH * DAY * GIGA <= t < (LIMIT - EPOCH) * DAY * GIGA }

  /** The date and time fields of an instant. */
  datatype Fields = Fields(date: Date, hours: nat, minutes: nat, seconds: nat, nanos: nat)

  predicate ValidFields(f: Fields) {
    && ValidDate(f.date) && f.date.year <= 9999
    && f.hours < 24 && f.minutes < 60 && f.seconds < 60 && f.nanos < GIGA
  }

  function Split(t: int): (f: Fields)
    requires InYears(t)
    ensures f.nanos < GIGA && ValidDate(f.date) && f.hours < 24 && f.minutes < 60 && f.seconds < 60
  {
    var whole := t / GIGA;
    DayInRange(t);
    var time := whole % DAY;
    Fields(DateOf(whole / DAY + EPOCH), time / 3600, time / 60 % 60, time % 60, t % GIGA)
  }

  lemma DayInRange(t: int)
    requires InYears(t)
    ensures 0 <= t / GIGA / DAY + EPOCH < LIMIT
  {
    assert t == t / GIGA * GIGA + t % GIGA;
  }

  lemma TimeParts(time: nat)
    ensures time == time / 3600 * 3600 + time / 60 % 60 * 60 + time % 60
  {
    assert time / 60 / 60 == time / 3600;
  }

  /** The fields of an instant are in range and determine it. */
  lemma SplitThenJoin(t: int)
    requires InYears(t)
    ensures ValidFields(Split(t)) && Join(Split(t)) == t
  {
    DayInRange(t);
    var whole := t / GIGA;
    LastYearIs9999(whole / DAY + EPOCH);
    TimeParts(whole % DAY);
    assert whole == whole / DAY * DAY + whole % DAY;
  }

  function Join(f: Fields): int
    requires ValidDate(f.date)
  {
    ((DayNumber(f.date) - EPOCH) * DAY + f.hours * 3600 + f.minutes * 60 + f.seconds) * GIGA + f.nanos
  }

  function Two(n: nat): string { PadLeft(Decimal(n), 2) }

  function Fraction(nanos: nat): string {
    if nanos == 0 then "" else "." + Trimmed(PadLeft(Decimal(nanos), 9))
  }

  function Print(f: Fields): string {
    PadLeft(Decimal(f.date.year), 4) + "-" + Two(f.date.month) + "-" + Two(f.date.day) + "T"
    + Two(f.hours) + ":" + Two(f.minutes) + ":" + Two(f.seconds) + Fraction(f.nanos) + "Z"
  }

  function Format(t: int): string
    requires InYears(t)
  {
    Print(Split(t))
  }

  /** The same string with the fraction trimmed by the loop. */
  method FormatTimestamp(t: int) returns (s: string)
    requires InYears(t)
    ensures s == Format(t)
  {
    var f := Split(t);
    s := PadLeft(Decimal(f.date.year), 4) + "-" + Two(f.date.month) + "-" + Two(f.date.day) + "T"
         + Two(f.hours) + ":" + Two(f.minutes) + ":" + Two(f.seconds);
    if f.nanos != 0 {
      var digits := PadLeft(Decimal(f.nanos), 9);
      FractionDigits(f.nanos);
      digits := TrimZeros(digits);
      s := s + ("." + digits);
    } else {
      assert s + "" == s;
    }
    s := s + "Z";
  }

  lemma FractionDigits(nanos: nat)
    requires 0 < nanos < GIGA
    ensures var d := PadLeft(Decimal(nanos), 9);
            && |d| == 9 && IsDigits(d) && Value(d) == nanos
            && (exists i :: 0 <= i < |d| && d[i] != '0')
            && Trimmed(d) != [] && IsDigits(Trimmed(d)) && PadRight(Trimmed(d), 9) == d
  {
    Pow10s();
    Padded(nanos, 9);
    TrimmedKeepsNonZero(PadLeft(Decimal(nanos), 9));
    TrimPad(PadLeft(Decimal(nanos), 9), 9);
  }

  // ---- Reading a timestamp back ----

  function ParseNanos(tail: string): nat {
    if |tail| < 2 then 0 else Value(PadRight(tail[1..|tail| - 1], 9))
  }

  function ParseDate(s: string): Date
    requires |s| >= 20
  {
    Date(Value(s[0..4]), Value(s[5..7]), Value(s[8..10]))
  }

  function Parse(s: string): Option<int> {
    if |s| < 20 || !ValidDate(ParseDate(s)) then None
    else Some(Join(Fields(ParseDate(s), Value(s[11..13]), Value(s[14..16]), Value(s[17..19]), ParseNanos(s[19..]))))
  }

  lemma DatePart(y: string, m: string, d: string)
    requires |y| == 4 && |m| == |d| == 2
    ensures var s := y + "-" + m + "-" + d;
            |s| == 10 && s[0..4] == y && s[4] == '-' && s[5..7] == m && s[7] == '-' && s[8..10] == d
  {}

  lemma TimePart(h: string, n: string, c: string)
    requires |h| == |n| == |c| == 2
    ensures var s := h + ":" + n + ":" + c;
            |s| == 8 && s[0..2] == h && s[2] == ':' && s[3..5] == n && s[5] == ':' && s[6..8] == c
  {}

  /** Where the fields of a printed timestamp stand. */
  lemma Layout(y: string, m: string, d: string, h: string, n: string, c: string, tail: string)
    requires |y| == 4 && |m| == |d| == |h| == |n| == |c| == 2
    ensures var s := y + "-" + m + "-" + d + "T" + h + ":" + n + ":" + c + tail;
            && |s| == 19 + |tail|
            && s[0..4] == y && s[5..7] == m && s[8..10] == d
            && s[11..13] == h && s[14..16] == n && s[17..19] == c && s[19..] == tail
            && s[4] == s[7] == '-' && s[10] == 'T' && s[13] == s[16] == ':'
  {
    var s := y + "-" + m + "-" + d + "T" + h + ":" + n + ":" + c + tail;
    var date, time := y + "-" + m + "-" + d, h + ":" + n + ":" + c;
    DatePart(y, m, d);
    TimePart(h, n, c);
    assert s == date + "T" + time + tail;
    Halves(s, date, time, tail);
  }

  lemma Halves(s: string, date: string, time: string, tail: string)
    requires s == date + "T" + time + tail && |date| == 10 && |time| == 8
    ensures s[0..4] == date[0..4] && s[5..7] == date[5..7] && s[8..10] == date[8..10]
    ensures s[11..13] == time[0..2] && s[14..16] == time[3..5] && s[17..19] == time[6..8] && s[19..] == tail
    ensures s[4] == date[4] && s[7] == date[7] && s[10] == 'T' && s[13] == time[2] && s[16] == time[5]
  {
    assert s[..10] == date && s[11..19] == time;
    assert s[11..13] == s[11..19][0..2] && s[14..16] == s[11..19][3..5] && s[17..19] == s[11..19][6..8];
  }

  lemma TwoReads(n: nat)
    requires n < 100
    ensures |Two(n)| == 2 && IsDigits(Two(n)) && Value(Two(n)) == n
  {
    Pow10s();
    Padded(n, 2);
  }

  lemma TailReads(nanos: nat)
    requires nanos < GIGA
    ensures ParseNanos(Fraction(nanos) + "Z") == nanos
    ensures '\n' !in Fraction(nanos) + "Z"
  {
    if nanos > 0 {
      FractionDigits(nanos);
      var digits := Trimmed(PadLeft(Decimal(nanos), 9));
      var tail := Fraction(nanos) + "Z";
      assert tail == "." + digits + "Z";
      assert tail[1..|tail| - 1] == digits;
    }
  }

  lemma PrintShape(f: Fields)
    requires ValidFields(f)
    ensures var y := PadLeft(Decimal(f.date.year), 4);
            && |y| == 4 && IsDigits(y) && Value(y) == f.date.year
            && Print(f) == y + "-" + Two(f.date.month) + "-" + Two(f.date.day) + "T" + Two(f.hours) + ":"
                           + Two(f.minutes) + ":" + Two(f.seconds) + (Fraction(f.nanos) + "Z")
  {
    Pow10s();
    Padded(f.date.year, 4);
  }

  /** The timestamp has a left inverse: every instant of the years 0000 to 9999 is read back from its string. */
  lemma ParseInvertsFormat(t: int)
    requires InYears(t)
    ensures Parse(Format(t)) == Some(t)
  {
    var f := Split(t);
    SplitThenJoin(t);
    PrintShape(f);
    TwoReads(f.date.month);
    TwoReads(f.date.day);
    TwoReads(f.hours);
    TwoReads(f.minutes);
    TwoReads(f.seconds);
    TailReads(f.nanos);
    Layout(PadLeft(Decimal(f.date.year), 4), Two(f.date.month), Two(f.date.day), Two(f.hours), Two(f.minutes),
           Two(f.seconds), Fraction(f.nanos) + "Z");
    assert ParseDate(Print(f)) == f.date;
  }

  /** The date-time form of section 5.6 of RFC 3339 in UTC: fixed separators, digits elsewhere, and a fraction of
      at most nine digits only when it is not zero, without trailing zeros. */
  lemma FormatShape(t: int)
    requires InYears(t)
    ensures var s := Format(t);
            && |s| >= 20 && s[4] == s[7] == '-' && s[10] == 'T' && s[13] == s[16] == ':' && s[|s| - 1] == 'Z'
            && IsDigits(s[0..4]) && IsDigits(s[5..7]) && IsDigits(s[8..10])
            && IsDigits(s[11..13]) && IsDigits(s[14..16]) && IsDigits(s[17..19])
            && (t % GIGA == 0 <==> |s| == 20)
            && (t % GIGA != 0 ==>
                 s[19] == '.' && 22 <= |s| <= 30 && IsDigits(s[20..|s| - 1]) && s[|s| - 2] != '0')
  {
    var f := Split(t);
    SplitThenJoin(t);
    PrintShape(f);
    TwoReads(f.date.month);
    TwoReads(f.date.day);
    TwoReads(f.hours);
    TwoReads(f.minutes);
    TwoReads(f.seconds);
    var tail := Fraction(f.nanos) + "Z";
    Layout(PadLeft(Decimal(f.date.year), 4), Two(f.date.month), Two(f.date.day), Two(f.hours), Two(f.minutes),
           Two(f.seconds), tail);
    TailShape(f.nanos);
    TailOf(Format(t), tail);
  }

  lemma TailShape(nanos: nat)
    requires nanos < GIGA
    ensures var tail := Fraction(nanos) + "Z";
            && tail != [] && tail[|tail| - 1] == 'Z' && (nanos == 0 <==> |tail| == 1)
            && (nanos != 0 ==>
                 tail[0] == '.' && 3 <= |tail| <= 11 && IsDigits(tail[1..|tail| - 1]) && tail[|tail| - 2] != '0')
  {
    if nanos > 0 {
      FractionDigits(nanos);
      var digits := Trimmed(PadLeft(Decimal(nanos), 9));
      TrimPad(PadLeft(Decimal(nanos), 9), 9);
      TrimmedEnds(PadLeft(Decimal(nanos), 9));
      var tail := Fraction(nanos) + "Z";
      assert tail == "." + digits + "Z";
      assert tail[1..|tail| - 1] == digits;
    }
  }

  lemma TailOf(s: string, tail: string)
    requires |s| == 19 + |tail| && |tail| >= 1 && s[19..] == tail
    ensures s[|s| - 1] == tail[|tail| - 1] && s[19] == tail[0]
    ensures |tail| >= 2 ==> s[|s| - 2] == tail[|tail| - 2] && s[20..|s| - 1] == tail[1..|tail| - 1]
  {
    assert forall i :: 0 <= i < |tail| ==> s[19 + i] == tail[i] by {
      assert forall i :: 0 <= i < |tail| ==> s[19..][i] == s[19 + i];
    }
  }

  // ---- The identity string ----

  datatype Failure = BadEndpoint | EmptySchedule

  datatype Identity = Valid(text: string) | Invalid(why: Failure)

  const PREFIX := "servicegen:schedule-trigger:v1\n"

  function IdentityOf(endpointId: int, scheduleId: string, at: int): Identity
    requires InYears(at)
  {
    if endpointId < 1 then Invalid(BadEndpoint)
    else if scheduleId == [] then Invalid(EmptySchedule)
    else Valid(PREFIX + Decimal(endpointId) + "\n" + scheduleId + "\n" + Format(at))
  }

  lemma NoNewlines(t: int)
    requires InYears(t)
    ensures '\n' !in Format(t)
  {
    var f := Split(t);
    SplitThenJoin(t);
    PrintShape(f);
    TwoReads(f.date.month);
    TwoReads(f.date.day);
    TwoReads(f.hours);
    TwoReads(f.minutes);
    TwoReads(f.seconds);
    TailReads(f.nanos);
    DigitsNoNewline(PadLeft(Decimal(f.date.year), 4));
    DigitsNoNewline(Two(f.date.month));
    DigitsNoNewline(Two(f.date.day));
    DigitsNoNewline(Two(f.hours));
    DigitsNoNewline(Two(f.minutes));
    DigitsNoNewline(Two(f.seconds));
  }

  lemma DigitsNoNewline(s: string)
    requires IsDigits(s)
    ensures '\n' !in s
  {}

  // ---- Reading an identity back ----

  datatype Trigger = Trigger(endpointId: int, scheduleId: string, at: int)

  function UpToNewline(s: string): string {
    if s == [] || s[0] == '\n' then [] else [s[0]] + UpToNewline(s[1..])
  }

  function AfterNewlines(s: string): string {
    if s == [] || s[|s| - 1] == '\n' then [] else AfterNewlines(s[..|s| - 1]) + [s[|s| - 1]]
  }

  datatype Parts = Parts(endpoint: string, schedule: string, timestamp: string)

  /** The endpoint stands before the first newline, the timestamp after the last one, the schedule id between. */
  function Cut(rest: string): Option<Parts> {
    var n, f := UpToNewline(rest), AfterNewlines(rest);
    if |n| + |f| + 2 > |rest| then None else Some(Parts(n, rest[|n| + 1..|rest| - |f| - 1], f))
  }

  function ReadParts(parts: Option<Parts>): Option<Trigger> {
    if parts.None? || Parse(parts.value.timestamp).None? then None
    else Some(Trigger(Value(parts.value.endpoint), parts.value.schedule, Parse(parts.value.timestamp).value))
  }

  function ReadAfter(prefix: string, text: string): Option<Trigger> {
    if prefix <= text then ReadParts(Cut(text[|prefix|..])) else None
  }

  function ReadIdentity(text: string): Option<Trigger> { ReadAfter(PREFIX, text) }

  lemma {:induction false} UpToNewlineIs(a: string, x: string)
    requires '\n' !in a
    ensures UpToNewline(a + "\n" + x) == a
  {
    var s := a + "\n" + x;
    if a != [] {
      assert s[0] == a[0] && s[1..] == a[1..] + "\n" + x;
      UpToNewlineIs(a[1..], x);
    }
  }

  lemma {:induction false} AfterNewlinesIs(x: string, a: string)
    requires '\n' !in a
    ensures AfterNewlines(x + "\n" + a) == a
  {
    var s := x + "\n" + a;
    if a != [] {
      var init := a[..|a| - 1];
      assert s[|s| - 1] == a[|a| - 1] && s[..|s| - 1] == x + "\n" + init;
      AfterNewlinesIs(x, init);
      assert a == init + [a[|a| - 1]];
    }
  }

  lemma Between(n: string, id: string, f: string)
    ensures var rest := n + "\n" + (id + "\n" + f);
            rest == n + "\n" + id + "\n" + f && rest[|n| + 1..|rest| - |f| - 1] == id
  {}

  lemma CutFindsParts(n: string, id: string, f: string)
    requires '\n' !in n && '\n' !in f
    ensures Cut(n + "\n" + (id + "\n" + f)) == Some(Parts(n, id, f))
  {
    Between(n, id, f);
    UpToNewlineIs(n, id + "\n" + f);
    AfterNewlinesIs(n + "\n" + id, f);
  }

  lemma AfterPrefix(prefix: string, n: string, id: string, f: string)
    ensures ReadAfter(prefix, prefix + n + "\n" + id + "\n" + f) == ReadParts(Cut(n + "\n" + (id + "\n" + f)))
  {
    var rest := n + "\n" + (id + "\n" + f);
    assert prefix + n + "\n" + id + "\n" + f == prefix + rest && (prefix + rest)[|prefix|..] == rest;
  }

  /** A trigger is refused for an endpoint below one, then for an empty schedule id; every other trigger is read
      back from its identity string, although the schedule id may itself contain newlines. */
  lemma IdentityReadsBack(endpointId: int, scheduleId: string, at: int)
    requires InYears(at)
    ensures var identity := IdentityOf(endpointId, scheduleId, at);
            && (identity == Invalid(BadEndpoint) <==> endpointId < 1)
            && (identity == Invalid(EmptySchedule) <==> endpointId >= 1 && scheduleId == "")
            && (identity.Valid? ==> ReadIdentity(identity.text) == Some(Trigger(endpointId, scheduleId, at)))
  {
    if endpointId >= 1 && scheduleId != "" {
      var n, f := Decimal(endpointId), Format(at);
      DigitsNoNewline(n);
      NoNewlines(at);
      ValueOfDecimal(endpointId);
      ParseInvertsFormat(at);
      CutFindsParts(n, scheduleId, f);
      AfterPrefix(PREFIX, n, scheduleId, f);
    }
  }

  /** Hence two triggers share an identity string only if endpoint, schedule and instant agree. */
  lemma IdentityIsInjective(e1: int, s1: string, t1: int, e2: int, s2: string, t2: int)
    requires InYears(t1) && InYears(t2)
    requires IdentityOf(e1, s1, t1).Valid? && IdentityOf(e1, s1, t1) == IdentityOf(e2, s2, t2)
    ensures e1 == e2 && s1 == s2 && t1 == t2
  {
    IdentityReadsBack(e1, s1, t1);
    IdentityReadsBack(e2, s2, t2);
  }
}
