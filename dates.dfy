/** Calendar days as the engine sees them: `new Date(s)` comparisons on YYYY-MM-DD strings,
    and the month selectors `date.substring(0, 7)` and `date.startsWith(month)`. */
module Dates {
  import opened Types

  predicate IsDigit(c: char) { '0' <= c <= '9' }

  function DigitValue(c: char): nat
    requires IsDigit(c)
  {
    c as int - '0' as int
  }

  /** The shape YYYY-MM-DD, all positions but the two dashes being decimal digits. */
  predicate HasDateShape(s: string) {
    && |s| == 10
    && s[4] == '-' && s[7] == '-'
    && IsDigit(s[0]) && IsDigit(s[1]) && IsDigit(s[2]) && IsDigit(s[3])
    && IsDigit(s[5]) && IsDigit(s[6])
    && IsDigit(s[8]) && IsDigit(s[9])
  }

  function Year(s: string): nat
    requires HasDateShape(s)
  {
    1000 * DigitValue(s[0]) + 100 * DigitValue(s[1]) + 10 * DigitValue(s[2]) + DigitValue(s[3])
  }

  function MonthNumber(s: string): nat
    requires HasDateShape(s)
  {
    10 * DigitValue(s[5]) + DigitValue(s[6])
  }

  function Day(s: string): nat
    requires HasDateShape(s)
  {
    10 * DigitValue(s[8]) + DigitValue(s[9])
  }

  /** A date string that `new Date` turns into a valid time value. */
  predicate IsWellFormed(s: string) {
    HasDateShape(s) && 1 <= MonthNumber(s) <= 12 && 1 <= Day(s) <= 31
  }

  /** The time value of `new Date(s)`, up to a monotone rescaling: `None` stands for NaN. */
  function DateKey(s: string): (k: Option<nat>)
    ensures k.Some? <==> IsWellFormed(s)
    ensures k.Some? ==> k.value / 10000 == Year(s) && k.value / 100 % 100 == MonthNumber(s) && k.value % 100 == Day(s)
  {
    if IsWellFormed(s) then
      KeyDecodes(Year(s), MonthNumber(s), Day(s));
      Some(Year(s) * 10000 + MonthNumber(s) * 100 + Day(s))
    else None
  }

  /** The packed key gives back the year, the month and the day. */
  lemma KeyDecodes(y: nat, m: nat, d: nat)
    requires m < 100 && d < 100
    ensures (y * 10000 + m * 100 + d) / 10000 == y
    ensures (y * 10000 + m * 100 + d) / 100 % 100 == m
    ensures (y * 10000 + m * 100 + d) % 100 == d
  {
    var k := y * 10000 + m * 100 + d;
    assert k == (y * 100 + m) * 100 + d;
    assert k / 100 == y * 100 + m;
    assert (y * 100 + m) % 100 == m;
    assert k == y * 10000 + (m * 100 + d) && m * 100 + d < 10000;
  }

  /** `new Date(a) < new Date(b)`: false whenever either side is NaN. */
  predicate DateBefore(a: string, b: string)
    ensures DateBefore(a, b) ==> IsWellFormed(a) && IsWellFormed(b)
  {
    DateKey(a).Some? && DateKey(b).Some? && DateKey(a).value < DateKey(b).value
  }

  /** The order `new Date(...).getTime()` imposes on well-formed days is the calendar order:
      year first, then month, then day. */
  lemma DateBeforeIsCalendarOrder(a: string, b: string)
    requires IsWellFormed(a) && IsWellFormed(b)
    ensures DateBefore(a, b) <==>
      || Year(a) < Year(b)
      || (Year(a) == Year(b) && MonthNumber(a) < MonthNumber(b))
      || (Year(a) == Year(b) && MonthNumber(a) == MonthNumber(b) && Day(a) < Day(b))
  {
    var ya, ma, da := Year(a), MonthNumber(a), Day(a);
    var yb, mb, db := Year(b), MonthNumber(b), Day(b);
    var ka, kb := ya * 10000 + ma * 100 + da, yb * 10000 + mb * 100 + db;
    assert DateKey(a).value == ka && DateKey(b).value == kb;
    // month * 100 + day stays below 10000, and day below 100
    assert 101 <= ma * 100 + da <= 1231 && 101 <= mb * 100 + db <= 1231;
    if ya < yb {
      assert ya * 10000 + 10000 <= yb * 10000;
    } else if ya > yb {
      assert yb * 10000 + 10000 <= ya * 10000;
    } else if ma < mb {
      assert ma * 100 + 100 <= mb * 100;
    } else if ma > mb {
      assert mb * 100 + 100 <= ma * 100;
    }
  }

  lemma DateBeforeTransitive(a: string, b: string, c: string)
    requires DateBefore(a, b) && DateBefore(b, c)
    ensures DateBefore(a, c)
  {
  }

  lemma DateBeforeIrreflexive(a: string)
    ensures !DateBefore(a, a)
  {
  }

  /** `date.substring(0, 7)`: the first seven characters, or the whole string if shorter. */
  function MonthOf(date: string): (m: string)
    ensures |m| == if |date| < 7 then |date| else 7
    ensures StartsWith(date, m)
  {
    if |date| < 7 then date else date[..7]
  }

  /** `s.startsWith(p)`. */
  predicate StartsWith(s: string, p: string)
    ensures StartsWith(s, p) <==> |p| <= |s| && forall i :: 0 <= i < |p| ==> s[i] == p[i]
  {
    |p| <= |s| && s[..|p|] == p
  }

  /** Two different month selectors of the same length never select the same date. */
  lemma DistinctMonthsDisjoint(s: string, m1: string, m2: string)
    requires |m1| == |m2| && m1 != m2
    ensures !(StartsWith(s, m1) && StartsWith(s, m2))
  {
  }
}
