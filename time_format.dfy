/** `formatTime`: seconds shown as minutes, a colon and the remaining whole
    seconds padded to two digits with leading zeros. */
module TimeFormat {

  /** Rounding toward zero, as JavaScript's `%` uses for its quotient. */
  function Truncate(x: real): (r: int)
    ensures x >= 0.0 ==> 0 <= r && r as real <= x < r as real + 1.0
    ensures x < 0.0 ==> r <= 0 && r as real - 1.0 < x <= r as real
  {
    if x >= 0.0 then x.Floor else -((-x).Floor)
  }

  /** `x % 60` in JavaScript: the remainder after truncating division, so it
      takes the dividend's sign. */
  function Remainder60(x: real): (r: real)
    ensures x >= 0.0 ==> 0.0 <= r < 60.0
    ensures x < 0.0 ==> -60.0 < r <= 0.0
    ensures (x - r) / 60.0 == Truncate(x / 60.0) as real
  {
    x - 60.0 * (Truncate(x / 60.0) as real)
  }

  lemma FloorAddInt(x: real, n: int)
    ensures (x + n as real).Floor == x.Floor + n
  {
  }

  /** The minutes and remaining seconds `formatTime` computes: for a
      non-negative time they split its whole seconds into minutes and 0..59
      seconds. */
  function Clock(seconds: real): (r: (int, int))
    ensures seconds >= 0.0 ==> 0 <= r.0 && 0 <= r.1 < 60 && r.0 * 60 + r.1 == seconds.Floor
  {
    var minutes := (seconds / 60.0).Floor;
    var remaining := Remainder60(seconds).Floor;
    if seconds >= 0.0 then
      FloorAddInt(seconds - 60.0 * (minutes as real), 60 * minutes);
      (minutes, remaining)
    else (minutes, remaining)
  }

  function DigitChar(d: int): (c: char)
    requires 0 <= d < 10
    ensures '0' <= c <= '9'
  {
    ('0' as int + d) as char
  }

  function DigitValue(c: char): int
  {
    c as int - '0' as int
  }

  predicate IsDigits(s: string)
  {
    forall i :: 0 <= i < |s| ==> '0' <= s[i] <= '9'
  }

  /** `n.toString()` for a natural number: its decimal digits, without
      leading zeros. */
  function Decimal(n: nat): (r: string)
    ensures |r| >= 1 && IsDigits(r)
    ensures n < 10 <==> |r| == 1
    ensures |r| > 1 ==> r[0] != '0'
    decreases n
  {
    if n < 10 then [DigitChar(n)] else Decimal(n / 10) + [DigitChar(n % 10)]
  }

  /** `n.toString()` for any integer: the digits of its magnitude, after a
      minus sign when it is negative. */
  function IntString(n: int): (r: string)
    ensures n >= 0 ==> IsDigits(r) && ParseDecimal(r) == n
    ensures n < 0 ==> |r| >= 2 && r[0] == '-' && IsDigits(r[1..]) && ParseDecimal(r[1..]) == -n
  {
    if n < 0 then
      ParseDecimalOf(-n);
      "-" + Decimal(-n)
    else
      ParseDecimalOf(n);
      Decimal(n)
  }

  /** The value of a string of decimal digits. */
  function ParseDecimal(s: string): nat
    decreases |s|
  {
    if |s| == 0 || !('0' <= s[|s| - 1] <= '9') then 0
    else ParseDecimal(s[..|s| - 1]) * 10 + DigitValue(s[|s| - 1])
  }

  /** Reading the digits back gives the number. */
  lemma {:induction false} ParseDecimalOf(n: nat)
    ensures ParseDecimal(Decimal(n)) == n
    decreases n
  {
    if n >= 10 {
      ParseDecimalOf(n / 10);
      var d := Decimal(n / 10);
      assert (d + [DigitChar(n % 10)])[..|d|] == d;
    }
  }

  /** `s.padStart(width, fill)`: `s` preceded by as many `fill` characters as
      make it `width` long; a string already that long is left as it is. */
  function PadStart(s: string, width: nat, fill: char): (r: string)
    ensures |r| == if |s| >= width then |s| else width
    ensures r[|r| - |s|..] == s
    ensures forall i :: 0 <= i < |r| - |s| ==> r[i] == fill
  {
    if |s| >= width then s else seq(width - |s|, _ => fill) + s
  }

  /** A number below 60 padded to two digits reads back as itself. */
  lemma PaddedSeconds(n: nat)
    requires n < 60
    ensures var p := PadStart(Decimal(n), 2, '0');
      |p| == 2 && IsDigits(p) && ParseDecimal(p) == n
  {
    ParseDecimalOf(n);
    var p := PadStart(Decimal(n), 2, '0');
    if n < 10 {
      assert p == ['0', DigitChar(n)];
      assert p[..1] == ['0'];
    } else {
    }
  }

  /** `r` is digits, a colon and two digits that read back as `minutes` and
      `remaining`. */
  predicate ReadsBack(r: string, minutes: int, remaining: int)
  {
    |r| >= 4 && r[|r| - 3] == ':' && IsDigits(r[..|r| - 3]) && IsDigits(r[|r| - 2..]) &&
    ParseDecimal(r[..|r| - 3]) == minutes && ParseDecimal(r[|r| - 2..]) == remaining
  }

  /** Minutes and two seconds digits around a colon read back as themselves. */
  lemma Colon(m: string, p: string, minutes: nat, remaining: nat)
    requires |m| >= 1 && |p| == 2 && IsDigits(m) && IsDigits(p)
    requires ParseDecimal(m) == minutes && ParseDecimal(p) == remaining
    ensures ReadsBack(m + ":" + p, minutes, remaining)
  {
    var r := m + ":" + p;
    assert r[..|r| - 3] == m;
    assert r[|r| - 2..] == p;
  }

  lemma ReadBackPieces(minutes: nat, remaining: nat)
    requires remaining < 60
    ensures ParseDecimal(Decimal(minutes)) == minutes
    ensures var p := PadStart(Decimal(remaining), 2, '0'); ParseDecimal(p) == remaining && |p| == 2 && IsDigits(p)
  {
    PaddedSeconds(remaining);
    ParseDecimalOf(minutes);
  }

  /** The text `formatTime` builds from minutes and remaining seconds: for
      non-negative minutes and seconds below 60 it reads back as those two
      numbers, the seconds always in two digits. */
  function ClockText(minutes: int, remaining: int): (r: string)
    ensures minutes >= 0 && 0 <= remaining < 60 ==> ReadsBack(r, minutes, remaining)
  {
    if minutes >= 0 && 0 <= remaining < 60 then
      ReadBackPieces(minutes, remaining);
      Colon(Decimal(minutes), PadStart(Decimal(remaining), 2, '0'), minutes, remaining);
      IntString(minutes) + ":" + PadStart(IntString(remaining), 2, '0')
    else
      IntString(minutes) + ":" + PadStart(IntString(remaining), 2, '0')
  }

  /** `r` is digits, a colon and two digits below 60 whose minutes and seconds
      add up to `total` seconds. */
  predicate ReadsTotal(r: string, total: int)
  {
    |r| >= 4 && r[|r| - 3] == ':' && IsDigits(r[..|r| - 3]) && IsDigits(r[|r| - 2..]) &&
    ParseDecimal(r[|r| - 2..]) < 60 &&
    ParseDecimal(r[..|r| - 3]) * 60 + ParseDecimal(r[|r| - 2..]) == total
  }

  /** Text that reads back as minutes and seconds reads back as their total. */
  lemma ReadsBackAsTotal(r: string, minutes: int, remaining: int, total: int)
    requires ReadsBack(r, minutes, remaining)
    requires remaining < 60 && minutes * 60 + remaining == total
    ensures ReadsTotal(r, total)
  {
  }

  /** `formatTime`: minutes, ":", then the remaining seconds padded to two
      digits. For a non-negative time the text reads back as minutes and
      two-digit seconds below 60 that add up to its whole seconds. */
  function FormatTime(seconds: real): (r: string)
    ensures seconds >= 0.0 ==> ReadsTotal(r, seconds.Floor)
  {
    var c := Clock(seconds);
    if seconds >= 0.0 then
      ReadsBackAsTotal(ClockText(c.0, c.1), c.0, c.1, seconds.Floor);
      ClockText(c.0, c.1)
    else
      ClockText(c.0, c.1)
  }

  /** 65.5 seconds show as "1:05", and 754.9 as "12:34". */
  lemma FormatTimeExamples()
    ensures FormatTime(65.5) == "1:05"
    ensures FormatTime(754.9) == "12:34"
  {
    assert Clock(65.5) == (1, 5);
    assert Clock(754.9) == (12, 34);
    assert Decimal(12) == "12" by {
      assert Decimal(1) == "1";
    }
    assert Decimal(34) == "34" by {
      assert Decimal(3) == "3";
    }
  }
}
