/** The player's clock: whole seconds shown as `[h:]mm:ss`. */
module TimeFormat {
  import opened Wrappers

  function DigitChar(d: nat): char
    requires d < 10
  {
    ('0' as int + d) as char
  }

  predicate IsDigit(c: char) {
    '0' <= c <= '9'
  }

  predicate AllDigits(s: string) {
    forall i :: 0 <= i < |s| ==> IsDigit(s[i])
  }

  function DigitValue(c: char): nat
    requires IsDigit(c)
  {
    (c as int - '0' as int) as nat
  }

  /** The decimal text of `n`, as `String(n)` writes a non-negative integer. */
  function Decimal(n: nat): (r: string)
    ensures |r| >= 1 && AllDigits(r)
    ensures n < 10 <==> |r| == 1
    ensures |r| > 1 ==> r[0] != '0'
  {
    if n < 10 then [DigitChar(n)] else Decimal(n / 10) + [DigitChar(n % 10)]
  }

  /** The number a string of decimal digits stands for. */
  function ParseDecimal(s: string): nat
    requires AllDigits(s)
  {
    if s == [] then 0 else ParseDecimal(s[..|s| - 1]) * 10 + DigitValue(s[|s| - 1])
  }

  lemma DigitRoundTrip(d: nat)
    requires d < 10
    ensures DigitValue(DigitChar(d)) == d
  {
  }

  /** Reading the decimal text of `n` gives `n` back. */
  lemma {:induction false} DecimalRoundTrip(n: nat)
    ensures ParseDecimal(Decimal(n)) == n
  {
    var r := Decimal(n);
    DigitRoundTrip(n % 10);
    if n >= 10 {
      DecimalRoundTrip(n / 10);
      assert r[..|r| - 1] == Decimal(n / 10);
    }
  }

  /** `s.padStart(n, c)`: `s` preceded by enough copies of `c` to make `n` characters. */
  function PadStart(s: string, n: nat, c: char): (r: string)
    ensures |r| == if |s| >= n then |s| else n
    ensures r[|r| - |s|..] == s
    ensures r[..|r| - |s|] == seq(|r| - |s|, _ => c)
  {
    if |s| >= n then s else seq(n - |s|, _ => c) + s
  }

  /** The clock's three fields; the minutes and seconds are below 60 and
      the fields add back up to the time. */
  function Fields(t: nat): (r: (nat, nat, nat))
    ensures r.1 < 60 && r.2 < 60
    ensures r.0 * 3600 + r.1 * 60 + r.2 == t
    ensures r.0 > 0 <==> t >= 3600
  {
    (t / 3600, (t % 3600) / 60, t % 60)
  }

  /** The clock as `format` builds it from the time's fields. */
  function Format(t: nat): string {
    var (hrs, mins, secs) := Fields(t);
    Clock(hrs, mins, secs)
  }

  /** The text `format` builds from its fields: the minutes are padded to two
      digits, and after an hours field a further `'0'` precedes minutes below
      ten. */
  function Clock(hrs: nat, mins: nat, secs: nat): string {
    var ret := if hrs > 0 then Decimal(hrs) + ":" + (if mins < 10 then "0" else "") else "";
    ret + PadStart(Decimal(mins), 2, '0') + ":" + (if secs < 10 then "0" else "") + Decimal(secs)
  }

  /** The two-digit text of a number below 100. */
  function TwoDigits(n: nat): (r: string)
    requires n < 100
    ensures |r| == 2 && AllDigits(r)
  {
    [DigitChar(n / 10), DigitChar(n % 10)]
  }

  /** Reading a two-digit field gives its number back. */
  lemma TwoDigitsRoundTrip(n: nat)
    requires n < 100
    ensures ParseDecimal(TwoDigits(n)) == n
  {
    var r := TwoDigits(n);
    DigitRoundTrip(n / 10);
    DigitRoundTrip(n % 10);
    assert r[..1][..0] == [];
    assert ParseDecimal(r[..1]) == n / 10;
    assert n == n / 10 * 10 + n % 10;
  }

  /** Padding a number below 100 to two characters with `'0'` gives its two digits. */
  lemma PaddedIsTwoDigits(n: nat)
    requires n < 100
    ensures PadStart(Decimal(n), 2, '0') == TwoDigits(n)
  {
    if n >= 10 {
      assert Decimal(n / 10) == [DigitChar(n / 10)];
    }
  }

  /** A `'0'` before seconds below ten, then the seconds, is the two-digit field. */
  lemma SecondsIsTwoDigits(n: nat)
    requires n < 60
    ensures (if n < 10 then "0" else "") + Decimal(n) == TwoDigits(n)
  {
    if n >= 10 {
      assert Decimal(n / 10) == [DigitChar(n / 10)];
    }
  }

  lemma Associate(a: string, b: string, c: string)
    ensures a + b + c == a + (b + c)
  {
  }

  /** What `format` puts before the minutes. */
  function HoursPart(hrs: nat, mins: nat): string {
    if hrs > 0 then Decimal(hrs) + ":" + (if mins < 10 then "0" else "") else ""
  }

  /** The `mm:ss` part of a clock. */
  function MinSec(mins: nat, secs: nat): (r: string)
    requires mins < 60 && secs < 60
    ensures |r| == 5 && r[2] == ':' && r[..2] == TwoDigits(mins) && r[3..] == TwoDigits(secs)
  {
    TwoDigits(mins) + ":" + TwoDigits(secs)
  }

  /** `format` writes the hours part, then two minute digits, `':'` and two
      second digits. */
  lemma ClockShape(hrs: nat, mins: nat, secs: nat)
    requires mins < 60 && secs < 60
    ensures Clock(hrs, mins, secs) == HoursPart(hrs, mins) + MinSec(mins, secs)
  {
    var h := HoursPart(hrs, mins);
    var m := PadStart(Decimal(mins), 2, '0');
    var z := if secs < 10 then "0" else "";
    var d := Decimal(secs);
    assert Clock(hrs, mins, secs) == h + m + ":" + z + d;
    PaddedIsTwoDigits(mins);
    SecondsIsTwoDigits(secs);
    Associate(h + m + ":", z, d);
    Associate(h, m, ":");
    Associate(h, m + ":", TwoDigits(secs));
  }

  lemma FormatShape(t: nat)
    ensures var f := Fields(t); Format(t) == HoursPart(f.0, f.1) + MinSec(f.1, f.2)
  {
    var f := Fields(t);
    ClockShape(f.0, f.1, f.2);
  }

  /** The two halves of a concatenation. */
  lemma SplitAt(a: string, b: string)
    ensures |a + b| == |a| + |b| && (a + b)[..|a|] == a && (a + b)[|a|..] == b
  {
  }

  lemma ClockSeconds(hrs: nat, mins: nat, secs: nat)
    requires mins < 60 && secs < 60
    ensures var r := Clock(hrs, mins, secs);
      |r| >= 5 && r[|r| - 3] == ':' && r[|r| - 2..] == TwoDigits(secs)
  {
    var h := HoursPart(hrs, mins);
    var ms := MinSec(mins, secs);
    ClockShape(hrs, mins, secs);
    SplitAt(h, ms);
    var r := h + ms;
    assert r[|r| - 3] == ms[2];
    assert r[|r| - 2..] == r[|h|..][3..];
  }

  /** The clock ends in `:ss`, the seconds as two digits. */
  lemma SecondsField(t: nat)
    ensures var r := Format(t);
      |r| >= 5 && r[|r| - 3] == ':' && r[|r| - 2..] == TwoDigits(Fields(t).2)
  {
    var f := Fields(t);
    ClockSeconds(f.0, f.1, f.2);
  }

  lemma ClockNoHours(mins: nat, secs: nat)
    requires mins < 60 && secs < 60
    ensures Clock(0, mins, secs) == MinSec(mins, secs)
  {
    ClockShape(0, mins, secs);
    assert HoursPart(0, mins) + MinSec(mins, secs) == MinSec(mins, secs);
  }

  /** Under an hour the clock is exactly `mm:ss`: five characters, two digits
      of minutes, `':'`, two digits of seconds. */
  lemma UnderAnHour(t: nat)
    requires t < 3600
    ensures Format(t) == MinSec(Fields(t).1, Fields(t).2)
    ensures |Format(t)| == 5 && Format(t)[2] == ':'
  {
    var f := Fields(t);
    ClockNoHours(f.1, f.2);
  }

  lemma ClockHours(hrs: nat, mins: nat, secs: nat)
    requires mins < 60 && secs < 60
    ensures hrs > 0 <==> |Clock(hrs, mins, secs)| > 5
    ensures hrs > 0 ==> Clock(hrs, mins, secs)[..|Decimal(hrs)| + 1] == Decimal(hrs) + ":"
  {
    var h := HoursPart(hrs, mins);
    ClockShape(hrs, mins, secs);
    SplitAt(h, MinSec(mins, secs));
    if hrs > 0 {
      var r := h + MinSec(mins, secs);
      var k := |Decimal(hrs)| + 1;
      SplitAt(Decimal(hrs) + ":", if mins < 10 then "0" else "");
      assert r[..k] == r[..|h|][..k];
    }
  }

  /** The hours field and its `':'` lead the clock exactly when the time is an
      hour or more; the clock is then longer than five characters. */
  lemma HoursPrefix(t: nat)
    ensures t >= 3600 <==> |Format(t)| > 5
    ensures t >= 3600 ==> Format(t)[..|Decimal(Fields(t).0)| + 1] == Decimal(Fields(t).0) + ":"
  {
    var f := Fields(t);
    ClockHours(f.0, f.1, f.2);
  }

  /** From an hour on, minutes of ten or more give `h:mm:ss`, while minutes
      below ten get a three-digit field `0mm`. */
  lemma FormatAsWritten(t: nat)
    requires t >= 3600
    ensures var f := Fields(t);
      Format(t) == Decimal(f.0) + ":" + (if f.1 < 10 then "0" else "") + MinSec(f.1, f.2)
  {
    FormatShape(t);
  }

  /** The doubled padding on a concrete time: one hour, two minutes and five
      seconds show as `1:002:05`, with three minute digits. */
  lemma DoubledMinutePadding()
    ensures Format(3725) == "1:002:05"
  {
    assert Fields(3725) == (1, 2, 5);
    FormatAsWritten(3725);
    assert Decimal(1) == "1";
    assert MinSec(2, 5) == "02:05";
  }

  /** Reads `mm:ss` back into seconds. */
  function ParseMinSec(x: string): Option<nat> {
    if |x| == 5 && x[2] == ':' && AllDigits(x[..2]) && AllDigits(x[3..])
    then Some(ParseDecimal(x[..2]) * 60 + ParseDecimal(x[3..]))
    else None
  }

  /** Reads the part before `mm:ss`: nothing, or digits and a `':'`. */
  function ParseHours(x: string): Option<nat> {
    if x == [] then Some(0)
    else if |x| >= 2 && x[|x| - 1] == ':' && AllDigits(x[..|x| - 1]) then Some(ParseDecimal(x[..|x| - 1]))
    else None
  }

  /** Reads a clock `[h:]mm:ss` back into seconds; `None` when the text is
      not of that form. */
  function ParseClock(s: string): Option<nat> {
    if |s| < 5 then None
    else match (ParseHours(s[..|s| - 5]), ParseMinSec(s[|s| - 5..]))
      case (Some(h), Some(ms)) => Some(h * 3600 + ms)
      case _ => None
  }

  lemma ParseJoined(h: string, tail: string)
    requires |tail| == 5
    ensures ParseClock(h + tail) ==
      match (ParseHours(h), ParseMinSec(tail))
      case (Some(x), Some(ms)) => Some(x * 3600 + ms)
      case _ => None
  {
    SplitAt(h, tail);
  }

  lemma MinSecRoundTrip(mins: nat, secs: nat)
    requires mins < 60 && secs < 60
    ensures ParseMinSec(MinSec(mins, secs)) == Some(mins * 60 + secs)
  {
    TwoDigitsRoundTrip(mins);
    TwoDigitsRoundTrip(secs);
  }

  /** The hours part of a clock with the minutes padded once. */
  function HoursField(hrs: nat): string {
    if hrs > 0 then Decimal(hrs) + ":" else ""
  }

  lemma HoursFieldRoundTrip(hrs: nat)
    ensures ParseHours(HoursField(hrs)) == Some(hrs)
  {
    if hrs > 0 {
      var x := HoursField(hrs);
      SplitAt(Decimal(hrs), ":");
      DecimalRoundTrip(hrs);
    }
  }

  /** An hours part that ends in the doubled `'0'` does not read back. */
  lemma DoubledZeroRejected(hrs: nat)
    ensures ParseHours(Decimal(hrs) + ":" + "0") == None
  {
  }

  /** The clock with the minutes padded once: `[h:]mm:ss`. */
  function FormatClock(t: nat): string {
    var (hrs, mins, secs) := Fields(t);
    HoursField(hrs) + MinSec(mins, secs)
  }

  /** A clock from fields, with the minutes padded once, reads back to them. */
  lemma FieldsRoundTrip(hrs: nat, mins: nat, secs: nat)
    requires mins < 60 && secs < 60
    ensures ParseClock(HoursField(hrs) + MinSec(mins, secs)) == Some(hrs * 3600 + mins * 60 + secs)
  {
    HoursFieldRoundTrip(hrs);
    MinSecRoundTrip(mins, secs);
    JoinRoundTrip(HoursField(hrs), MinSec(mins, secs), hrs, mins * 60 + secs);
  }

  /** A readable hours part followed by a readable `mm:ss` reads as their sum. */
  lemma JoinRoundTrip(x: string, y: string, a: nat, b: nat)
    requires |y| == 5 && ParseHours(x) == Some(a) && ParseMinSec(y) == Some(b)
    ensures ParseClock(x + y) == Some(a * 3600 + b)
  {
    ParseJoined(x, y);
  }

  /** The padded-once clock always reads back to the time. */
  lemma FormatClockRoundTrip(t: nat)
    ensures ParseClock(FormatClock(t)) == Some(t)
  {
    var f := Fields(t);
    FieldsRoundTrip(f.0, f.1, f.2);
  }

  /** A clock built as `format` builds it reads back to its fields, except
      where an hours field meets minutes below ten. */
  lemma ClockRoundTrip(hrs: nat, mins: nat, secs: nat)
    requires mins < 60 && secs < 60
    ensures ParseClock(Clock(hrs, mins, secs)) == if hrs > 0 && mins < 10 then None else Some(hrs * 3600 + mins * 60 + secs)
  {
    ClockShape(hrs, mins, secs);
    if hrs > 0 && mins < 10 {
      DoubledRejected(hrs, mins, secs);
    } else {
      SameHours(hrs, mins);
      FieldsRoundTrip(hrs, mins, secs);
    }
  }

  /** `format` reads back to the time except where an hours field meets
      minutes below ten: the doubled `'0'` makes the hours part unreadable. */
  lemma FormatRoundTrip(t: nat)
    ensures ParseClock(Format(t)) == if t >= 3600 && Fields(t).1 < 10 then None else Some(t)
  {
    var f := Fields(t);
    ClockRoundTrip(f.0, f.1, f.2);
  }

  /** Without the doubled `'0'` the two hours parts agree. */
  lemma SameHours(hrs: nat, mins: nat)
    requires !(hrs > 0 && mins < 10)
    ensures HoursPart(hrs, mins) == HoursField(hrs)
  {
    if hrs > 0 {
      var d := Decimal(hrs) + ":";
      assert d + "" == d;
    }
  }

  lemma DoubledRejected(hrs: nat, mins: nat, secs: nat)
    requires hrs > 0 && mins < 10 && secs < 60
    ensures ParseClock(HoursPart(hrs, mins) + MinSec(mins, secs)) == None
  {
    ParseJoined(HoursPart(hrs, mins), MinSec(mins, secs));
    DoubledZeroRejected(hrs);
  }

  lemma ClockAgrees(hrs: nat, mins: nat, secs: nat)
    requires mins < 60 && secs < 60
    ensures Clock(hrs, mins, secs) == HoursField(hrs) + MinSec(mins, secs) <==> !(hrs > 0 && mins < 10)
  {
    ClockShape(hrs, mins, secs);
    if hrs > 0 && mins < 10 {
      SplitAt(HoursPart(hrs, mins), MinSec(mins, secs));
      SplitAt(HoursField(hrs), MinSec(mins, secs));
    } else {
      SameHours(hrs, mins);
    }
  }

  /** The padded-once clock agrees with `format` except where an hours field
      meets minutes below ten. */
  lemma FormatClockAgrees(t: nat)
    ensures Format(t) == FormatClock(t) <==> !(t >= 3600 && Fields(t).1 < 10)
  {
    var f := Fields(t);
    ClockAgrees(f.0, f.1, f.2);
  }
}
