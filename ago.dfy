// The "time ago" wording of the legacy web pages (`ago` in server.go and,
// identically, in common.go): an elapsed time becomes "N units ago" in the
// largest unit that counts at least one, the singular for exactly one, and
// "just now" under a second. The elapsed time is a parameter in nanoseconds
// (Go's time.Duration); each count truncates toward zero as Go's int()
// conversion and integer division do.

module Ago {
  import opened Common

  datatype Unit = Second | Minute | Hour | Day | Week | Year

  /** Units from smallest to largest. */
  function Rank(u: Unit): nat
  {
    match u
    case Second => 0
    case Minute => 1
    case Hour => 2
    case Day => 3
    case Week => 4
    case Year => 5
  }

  /** The wording for exactly one of the unit. */
  function Singular(u: Unit): string
  {
    match u
    case Second => "1 second ago"
    case Minute => "1 minute ago"
    case Hour => "1 hour ago"
    case Day => "1 day ago"
    case Week => "1 week ago"
    case Year => "1 year ago"
  }

  /** What follows the number for several of the unit. */
  function PluralSuffix(u: Unit): string
  {
    match u
    case Second => " seconds ago"
    case Minute => " minutes ago"
    case Hour => " hours ago"
    case Day => " days ago"
    case Week => " weeks ago"
    case Year => " years ago"
  }

  const NanosPerSecond := 1_000_000_000

  /** seconds, minutes and hours from the duration; days = hours/24,
    * weeks = days/7, years = days/365. */
  function Hours(d: int): int
  {
    GoDiv(d, 3600 * NanosPerSecond)
  }

  function Days(d: int): int
  {
    GoDiv(Hours(d), 24)
  }

  /** The six counts ago computes. */
  datatype Counts = Counts(seconds: int, minutes: int, hours: int, days: int, weeks: int, years: int)

  function CountsOf(d: int): Counts
  {
    var days := Days(d);
    Counts(GoDiv(d, NanosPerSecond), GoDiv(d, 60 * NanosPerSecond), Hours(d), days, GoDiv(days, 7), GoDiv(days, 365))
  }

  function CountOf(c: Counts, u: Unit): int
  {
    match u
    case Second => c.seconds
    case Minute => c.minutes
    case Hour => c.hours
    case Day => c.days
    case Week => c.weeks
    case Year => c.years
  }

  function Count(u: Unit, d: int): int
  {
    CountOf(CountsOf(d), u)
  }

  /** "N units ago", or "1 unit ago" for exactly one. */
  function Phrase(n: int, u: Unit): string
  {
    if n == 1 then Singular(u) else IntString(n) + PluralSuffix(u)
  }

  /** The if-chain from years down to seconds. */
  function Wording(c: Counts): string
  {
    if c.years > 1 then IntString(c.years) + " years ago"
    else if c.years == 1 then "1 year ago"
    else if c.weeks > 1 then IntString(c.weeks) + " weeks ago"
    else if c.weeks == 1 then "1 week ago"
    else if c.days > 1 then IntString(c.days) + " days ago"
    else if c.days == 1 then "1 day ago"
    else if c.hours > 1 then IntString(c.hours) + " hours ago"
    else if c.hours == 1 then "1 hour ago"
    else if c.minutes > 1 then IntString(c.minutes) + " minutes ago"
    else if c.minutes == 1 then "1 minute ago"
    else if c.seconds > 1 then IntString(c.seconds) + " seconds ago"
    else if c.seconds == 1 then "1 second ago"
    else "just now"
  }

  /** ago */
  function AgoText(d: int): string
  {
    Wording(CountsOf(d))
  }

  /** The wording names the largest unit whose count is at least one. */
  lemma WordingLargest(c: Counts) returns (u: Unit)
    requires c.seconds >= 1
    ensures CountOf(c, u) >= 1
    ensures forall v :: Rank(v) > Rank(u) ==> CountOf(c, v) < 1
    ensures Wording(c) == Phrase(CountOf(c, u), u)
  {
    if c.years >= 1 { return Year; }
    if c.weeks >= 1 { return Week; }
    if c.days >= 1 { return Day; }
    if c.hours >= 1 { return Hour; }
    if c.minutes >= 1 { return Minute; }
    return Second;
  }

  /** With no count reaching one the wording is "just now"; otherwise it is
    * a phrase ending in "ago". */
  lemma WordingJustNow(c: Counts)
    ensures Wording(c) == "just now" <==> c.seconds < 1 && c.minutes < 1 && c.hours < 1
                                          && c.days < 1 && c.weeks < 1 && c.years < 1
  {
    var w := Wording(c);
    if w != "just now" {
      assert w[|w| - 1] == 'o';
      assert "just now"[7] == 'w';
    }
  }

  /** A truncated quotient reaches one exactly when the dividend reaches
    * the divisor. */
  lemma GoDivAtLeastOne(a: int, b: nat)
    requires b > 0
    ensures GoDiv(a, b) >= 1 <==> a >= b
  {
    if a >= b {
      assert a / b >= 1 by {
        assert a == b * (a / b) + a % b;
        assert a % b < b;
      }
    } else if a >= 0 {
      assert a / b == 0;
    }
  }

  /** A product grows with its second factor. */
  lemma MulMonotone(b: nat, x: int, y: int)
    ensures x >= y ==> b * x >= b * y
  {
    assert b * x - b * y == b * (x - y);
  }

  lemma MulSucc(b: int, x: int)
    ensures b * (x + 1) == b * x + b
  {
  }

  /** Truncating twice is truncating by the product, as far as reaching one
    * goes. */
  lemma GoDivTwice(a: int, b: nat, c: nat)
    requires b > 0 && c > 0
    ensures GoDiv(GoDiv(a, b), c) >= 1 <==> a >= b * c
  {
    GoDivAtLeastOne(GoDiv(a, b), c);
    if a >= 0 {
      var q, r := a / b, a % b;
      assert a == b * q + r && 0 <= r < b;
      if q >= c {
        MulMonotone(b, q, c);
      } else {
        MulMonotone(b, c - 1, q);
        MulSucc(b, c - 1);
      }
    } else {
      MulMonotone(b, c, 1);
    }
  }

  /** Dividing by a larger number never gives more. */
  lemma DivAntitone(x: nat, b: nat, c: nat)
    requires 0 < b <= c
    ensures x / c <= x / b
  {
    var q := x / c;
    assert x == c * q + x % c;
    MulMonotone(q, c, b);
    assert b * q <= x;
    var p := x / b;
    assert x == b * p + x % b;
    MulMonotone(b, q, p + 1);
    MulSucc(b, p);
    if p < q {
      assert false;
    }
  }

  /** Dividing by the seconds in a minute, then again, is dividing by the
    * seconds in an hour. */
  lemma DivDiv(a: nat, b: nat, c: nat)
    requires b > 0 && c > 0
    ensures a / b / c == a / (b * c)
  {
    var q, r := a / b, a % b;
    var q2, r2 := q / c, q % c;
    assert a == b * q + r && q == c * q2 + r2;
    assert a == (b * c) * q2 + (b * r2 + r) by {
      assert b * q == b * (c * q2 + r2) == (b * c) * q2 + b * r2;
    }
    assert 0 <= b * r2 + r < b * c by {
      MulMonotone(b, c - 1, r2);
      MulSucc(b, c - 1);
    }
    DivUnique(a, b * c, q2, b * r2 + r);
  }

  /** The quotient is the one q with a == d * q + r and 0 <= r < d. */
  lemma DivUnique(a: nat, d: nat, q: int, r: int)
    requires d > 0 && a == d * q + r && 0 <= r < d
    ensures a / d == q
  {
    var q0, r0 := a / d, a % d;
    assert a == d * q0 + r0;
    MulMonotone(d, q0, q + 1);
    MulSucc(d, q);
    MulMonotone(d, q, q0 + 1);
    MulSucc(d, q0);
    if q0 != q {
      assert false;
    }
  }

  /** For a non-negative duration, the counts shrink from seconds to years. */
  lemma CountsShrink(d: int)
    requires d >= 0
    ensures Count(Second, d) >= Count(Minute, d) >= Count(Hour, d) >= Count(Day, d)
      >= Count(Week, d) >= Count(Year, d)
  {
    var n := NanosPerSecond;
    var s := d / n;
    DivDiv(d, n, 60);
    DivShrinks(s, 60);
    DivDiv(d, 60 * n, 60);
    assert 60 * n * 60 == 3600 * n;
    DivShrinks(d / (60 * n), 60);
    var days := Hours(d) / 24;
    DivShrinks(Hours(d), 24);
    DivShrinks(days, 7);
    DivAntitone(days, 7, 365);
  }

  lemma DivShrinks(x: nat, k: nat)
    requires k >= 1
    ensures x / k <= x
  {
    DivAntitone(x, 1, k);
  }

  /** The counts are the truncated quotients: at least one exactly when the
    * duration reaches the unit's length. */
  lemma CountPositive(d: int)
    ensures Count(Second, d) >= 1 <==> d >= NanosPerSecond
    ensures Count(Minute, d) >= 1 <==> d >= 60 * NanosPerSecond
    ensures Count(Hour, d) >= 1 <==> d >= 3600 * NanosPerSecond
    ensures Count(Day, d) >= 1 <==> d >= 24 * 3600 * NanosPerSecond
    ensures Count(Week, d) >= 1 <==> d >= 7 * 24 * 3600 * NanosPerSecond
    ensures Count(Year, d) >= 1 <==> d >= 365 * 24 * 3600 * NanosPerSecond
  {
    var h := 3600 * NanosPerSecond;
    GoDivAtLeastOne(d, NanosPerSecond);
    GoDivAtLeastOne(d, 60 * NanosPerSecond);
    GoDivAtLeastOne(d, h);
    GoDivTwice(d, h, 24);
    assert Days(d) >= 1 <==> d >= 24 * 3600 * NanosPerSecond;
    GoDivTwice(Hours(d), 24, 7);
    GoDivTwice(Hours(d), 24, 365);
    assert Hours(d) >= 24 * 7 <==> d >= 7 * 24 * 3600 * NanosPerSecond by {
      GoDivTwice(d, h, 24 * 7);
    }
    assert Hours(d) >= 24 * 365 <==> d >= 365 * 24 * 3600 * NanosPerSecond by {
      GoDivTwice(d, h, 24 * 365);
    }
  }

  /** A larger unit never counts more than a smaller one. */
  lemma CountsNest(d: int, u: Unit, v: Unit)
    requires Rank(u) <= Rank(v)
    requires Count(v, d) >= 1
    ensures Count(u, d) >= Count(v, d)
  {
    if d < 0 {
      GoDivAtLeastOne(d, NanosPerSecond);
      CountPositive(d);
    } else {
      CountsShrink(d);
    }
  }

  /** The text names the largest unit whose count is at least one, with
    * that count. */
  lemma LargestUnit(d: int) returns (u: Unit)
    requires d >= NanosPerSecond
    ensures Count(u, d) >= 1
    ensures forall v :: Rank(v) > Rank(u) ==> Count(v, d) < 1
    ensures AgoText(d) == Phrase(Count(u, d), u)
  {
    u := WordingLargest(CountsOf(d));
  }

  /** "just now" is said exactly under one second, negative durations
    * included. */
  lemma JustNowUnderOneSecond(d: int)
    ensures AgoText(d) == "just now" <==> d < NanosPerSecond
  {
    WordingJustNow(CountsOf(d));
    CountPositive(d);
  }
}
