/** Timestamp texts: the fixed-width UTC form that repositories store and compare
    (RFC 3339 sections 5.1 and 5.6), and the clock's own form that one lease check
    compares against it. */
module TimeText {
  import opened Domain
  import opened TextOrder

  // A UTC civil time of the proleptic Gregorian calendar.
  datatype Stamp = Stamp(year: nat, month: nat, day: nat, hour: nat, minute: nat, second: nat,
                         micro: nat)

  predicate IsLeap(y: nat) { y % 4 == 0 && (y % 100 != 0 || y % 400 == 0) }

  function YearLength(y: nat): nat { if IsLeap(y) then 366 else 365 }

  function MonthLength(y: nat, m: nat): nat
    requires 1 <= m <= 12
  {
    if m == 2 then (if IsLeap(y) then 29 else 28)
    else if m == 4 || m == 6 || m == 9 || m == 11 then 30
    else 31
  }

  predicate Valid(s: Stamp) {
    && 1 <= s.year <= 9999 && 1 <= s.month <= 12 && 1 <= s.day <= MonthLength(s.year, s.month)
    && s.hour < 24 && s.minute < 60 && s.second < 60 && s.micro < 1_000_000
  }

  // ---------- the instant of a civil time ----------

  function DaysBeforeYear(y: nat): int
    requires y >= 1
  {
    (y - 1) * 365 + (y - 1) / 4 - (y - 1) / 100 + (y - 1) / 400
  }

  function DaysBeforeMonth(y: nat, m: nat): nat
    requires 1 <= m <= 13
  {
    if m == 1 then 0 else DaysBeforeMonth(y, m - 1) + MonthLength(y, m - 1)
  }

  function Ordinal(s: Stamp): int
    requires Valid(s)
  {
    DaysBeforeYear(s.year) + DaysBeforeMonth(s.year, s.month) + s.day
  }

  function Seconds(s: Stamp): int
    requires Valid(s)
  {
    ((Ordinal(s) * 24 + s.hour) * 60 + s.minute) * 60 + s.second
  }

  function Instant(s: Stamp): Time
    requires Valid(s)
  {
    Seconds(s) * 1_000_000 + s.micro
  }

  lemma NextYear(y: nat)
    requires y >= 1
    ensures DaysBeforeYear(y + 1) == DaysBeforeYear(y) + YearLength(y)
  {
    assert y % 400 == 0 ==> y % 100 == 0;
    assert y % 100 == 0 ==> y % 4 == 0;
    assert y / 4 - (y - 1) / 4 == if y % 4 == 0 then 1 else 0;
    assert y / 100 - (y - 1) / 100 == if y % 100 == 0 then 1 else 0;
    assert y / 400 - (y - 1) / 400 == if y % 400 == 0 then 1 else 0;
  }

  lemma {:induction false} LaterYear(y: nat, z: nat)
    requires 1 <= y < z
    ensures DaysBeforeYear(z) >= DaysBeforeYear(y) + YearLength(y)
    decreases z
  {
    NextYear(y);
    if z > y + 1 {
      LaterYear(y, z - 1);
      NextYear(z - 1);
    }
  }

  lemma {:induction false} LaterMonth(y: nat, m: nat, n: nat)
    requires 1 <= m < n <= 13
    ensures DaysBeforeMonth(y, n) >= DaysBeforeMonth(y, m) + MonthLength(y, m)
    decreases n
  {
    if n > m + 1 { LaterMonth(y, m, n - 1); }
  }

  lemma WholeYear(y: nat)
    ensures DaysBeforeMonth(y, 13) == YearLength(y)
  {
    assert DaysBeforeMonth(y, 2) == 31;
    assert DaysBeforeMonth(y, 4) == DaysBeforeMonth(y, 3) + 31;
    assert DaysBeforeMonth(y, 6) == DaysBeforeMonth(y, 5) + 31;
    assert DaysBeforeMonth(y, 8) == DaysBeforeMonth(y, 7) + 31;
    assert DaysBeforeMonth(y, 10) == DaysBeforeMonth(y, 9) + 30;
    assert DaysBeforeMonth(y, 12) == DaysBeforeMonth(y, 11) + 30;
  }

  predicate DateBefore(a: Stamp, b: Stamp) {
    || a.year < b.year
    || (a.year == b.year && (a.month < b.month || (a.month == b.month && a.day < b.day)))
  }

  // Calendar order is ordinal order.
  lemma DateOrder(a: Stamp, b: Stamp)
    requires Valid(a) && Valid(b) && DateBefore(a, b)
    ensures Ordinal(a) < Ordinal(b)
  {
    if a.year < b.year {
      LaterYear(a.year, b.year);
      WholeYear(a.year);
      LaterMonth(a.year, a.month, 13);
    } else if a.month < b.month {
      LaterMonth(a.year, a.month, b.month);
    }
  }

  predicate SameDate(a: Stamp, b: Stamp) { a.year == b.year && a.month == b.month && a.day == b.day }

  predicate ClockBefore(a: Stamp, b: Stamp) {
    || a.hour < b.hour
    || (a.hour == b.hour && (a.minute < b.minute || (a.minute == b.minute && a.second < b.second)))
  }

  predicate SecondBefore(a: Stamp, b: Stamp) { DateBefore(a, b) || (SameDate(a, b) && ClockBefore(a, b)) }

  predicate SameSecond(a: Stamp, b: Stamp) {
    SameDate(a, b) && a.hour == b.hour && a.minute == b.minute && a.second == b.second
  }

  lemma SecondsOrder(a: Stamp, b: Stamp)
    requires Valid(a) && Valid(b)
    ensures SecondBefore(a, b) ==> Seconds(a) < Seconds(b)
    ensures SameSecond(a, b) ==> Seconds(a) == Seconds(b)
    ensures SecondBefore(a, b) || SameSecond(a, b) || SecondBefore(b, a)
  {
    if DateBefore(a, b) { DateOrder(a, b); }
  }

  // ---------- texts ----------

  function Digit(n: nat): char
    requires n < 10
  {
    '0' + n as char
  }

  // n in exactly w decimal digits.
  function Pad(n: nat, w: nat): (r: string)
    ensures |r| == w
  {
    if w == 0 then [] else Pad(n / 10, w - 1) + [Digit(n % 10)]
  }

  function SecondText(s: Stamp): (r: string)
    ensures |r| == 19
  {
    Pad(s.year, 4) + (['-'] + (Pad(s.month, 2) + (['-'] + (Pad(s.day, 2) + (['T'] +
    (Pad(s.hour, 2) + ([':'] + (Pad(s.minute, 2) + ([':'] + Pad(s.second, 2))))))))))
  }

  // isoformat(timespec="microseconds") with "+00:00" replaced by "Z"
  function Text(s: Stamp): string {
    SecondText(s) + (['.'] + (Pad(s.micro, 6) + ['Z']))
  }

  // isoformat() of the clock: no fraction at all on a whole second
  function ClockText(s: Stamp): string {
    SecondText(s) + (if s.micro == 0 then "+00:00" else ['.'] + (Pad(s.micro, 6) + "+00:00"))
  }

  // Comparing two texts whose first blocks have one length.
  lemma {:induction false} BlockOrder(p: string, q: string, x: string, y: string)
    requires |p| == |q|
    ensures Leq(p + x, q + y) <==> (p != q && Leq(p, q)) || (p == q && Leq(x, y))
    decreases p
  {
    if p == [] {
      assert p + x == x && q + y == y;
    } else {
      assert (p + x)[1..] == p[1..] + x && (q + y)[1..] == q[1..] + y;
      assert p == [p[0]] + p[1..] && q == [q[0]] + q[1..];
      BlockOrder(p[1..], q[1..], x, y);
    }
  }

  lemma {:induction false} PadOrder(a: nat, b: nat, w: nat)
    requires a < Pow10(w) && b < Pow10(w)
    ensures Leq(Pad(a, w), Pad(b, w)) <==> a <= b
    ensures Pad(a, w) == Pad(b, w) <==> a == b
    decreases w
  {
    if w > 0 {
      PadOrder(a / 10, b / 10, w - 1);
      BlockOrder(Pad(a / 10, w - 1), Pad(b / 10, w - 1), [Digit(a % 10)], [Digit(b % 10)]);
      DigitOrder(a % 10, b % 10);
      assert a == 10 * (a / 10) + a % 10 && b == 10 * (b / 10) + b % 10;
      if Pad(a, w) == Pad(b, w) {
        assert Pad(a, w)[..w - 1] == Pad(a / 10, w - 1) && Pad(b, w)[..w - 1] == Pad(b / 10, w - 1);
        assert Pad(a, w)[w - 1] == Digit(a % 10) && Pad(b, w)[w - 1] == Digit(b % 10);
      }
    }
  }

  lemma DigitOrder(a: nat, b: nat)
    requires a < 10 && b < 10
    ensures Leq([Digit(a)], [Digit(b)]) <==> a <= b
    ensures Digit(a) == Digit(b) <==> a == b
  {
  }

  function Pow10(w: nat): nat { if w == 0 then 1 else 10 * Pow10(w - 1) }

  // A number block followed by anything.
  lemma NumberBlock(a: nat, b: nat, w: nat, x: string, y: string)
    requires a < Pow10(w) && b < Pow10(w)
    ensures Leq(Pad(a, w) + x, Pad(b, w) + y) <==> a < b || (a == b && Leq(x, y))
  {
    PadOrder(a, b, w);
    BlockOrder(Pad(a, w), Pad(b, w), x, y);
  }

  lemma Powers()
    ensures Pow10(2) == 100 && Pow10(4) == 10_000 && Pow10(6) == 1_000_000
  {
    assert Pow10(1) == 10 && Pow10(3) == 1000 && Pow10(5) == 100_000;
  }

  function ClockPart(s: Stamp): string {
    Pad(s.hour, 2) + ([':'] + (Pad(s.minute, 2) + ([':'] + Pad(s.second, 2))))
  }

  lemma ClockOrder(a: Stamp, b: Stamp)
    requires Valid(a) && Valid(b)
    ensures Leq(ClockPart(a), ClockPart(b)) <==>
            ClockBefore(a, b) || (a.hour == b.hour && a.minute == b.minute && a.second == b.second)
  {
    Powers();
    PadOrder(a.second, b.second, 2);
    LeqPrefix([':'], Pad(a.second, 2), Pad(b.second, 2));
    NumberBlock(a.minute, b.minute, 2, [':'] + Pad(a.second, 2), [':'] + Pad(b.second, 2));
    var x := [':'] + (Pad(a.minute, 2) + ([':'] + Pad(a.second, 2)));
    var y := [':'] + (Pad(b.minute, 2) + ([':'] + Pad(b.second, 2)));
    LeqPrefix([':'], Pad(a.minute, 2) + ([':'] + Pad(a.second, 2)), Pad(b.minute, 2) + ([':'] + Pad(b.second, 2)));
    NumberBlock(a.hour, b.hour, 2, x, y);
  }

  lemma SecondTextOrder(a: Stamp, b: Stamp)
    requires Valid(a) && Valid(b)
    ensures Leq(SecondText(a), SecondText(b)) <==> SecondBefore(a, b) || SameSecond(a, b)
  {
    Powers();
    ClockOrder(a, b);
    var da, db := Pad(a.day, 2) + (['T'] + ClockPart(a)), Pad(b.day, 2) + (['T'] + ClockPart(b));
    LeqPrefix(['T'], ClockPart(a), ClockPart(b));
    NumberBlock(a.day, b.day, 2, ['T'] + ClockPart(a), ['T'] + ClockPart(b));
    LeqPrefix(['-'], da, db);
    NumberBlock(a.month, b.month, 2, ['-'] + da, ['-'] + db);
    LeqPrefix(['-'], Pad(a.month, 2) + (['-'] + da), Pad(b.month, 2) + (['-'] + db));
    NumberBlock(a.year, b.year, 4, ['-'] + (Pad(a.month, 2) + (['-'] + da)),
                ['-'] + (Pad(b.month, 2) + (['-'] + db)));
  }

  // Anything after the seconds decides only within one second.
  lemma AfterSeconds(a: Stamp, b: Stamp, x: string, y: string)
    requires Valid(a) && Valid(b)
    ensures Leq(SecondText(a) + x, SecondText(b) + y) <==>
            Seconds(a) < Seconds(b) || (Seconds(a) == Seconds(b) && Leq(x, y))
  {
    SecondsOrder(a, b);
    SecondsOrder(b, a);
    SecondTextOrder(a, b);
    SecondTextOrder(b, a);
    BlockOrder(SecondText(a), SecondText(b), x, y);
    if SameSecond(a, b) {
      assert SecondText(a) == SecondText(b);
    } else if SecondText(a) == SecondText(b) {
      LeqTotal(SecondText(a), SecondText(b));
    }
  }

  /** Text order is time order: comparing two stored timestamps as text is comparing
      the instants they name, for every pair of civil times in years 1 to 9999. */
  lemma TextOrderIsTimeOrder(a: Stamp, b: Stamp)
    requires Valid(a) && Valid(b)
    ensures Leq(Text(a), Text(b)) <==> Instant(a) <= Instant(b)
    ensures Text(a) == Text(b) <==> Instant(a) == Instant(b)
  {
    TextCompare(a, b);
    TextCompare(b, a);
    if Text(a) == Text(b) {
      LeqTotal(Text(a), Text(b));
    } else if Instant(a) == Instant(b) {
      LeqAntisymmetric(Text(a), Text(b));
    }
  }

  lemma TextCompare(a: Stamp, b: Stamp)
    requires Valid(a) && Valid(b)
    ensures Leq(Text(a), Text(b)) <==> Instant(a) <= Instant(b)
  {
    Powers();
    LeqTotal(['Z'], ['Z']);
    NumberBlock(a.micro, b.micro, 6, ['Z'], ['Z']);
    LeqPrefix(['.'], Pad(a.micro, 6) + ['Z'], Pad(b.micro, 6) + ['Z']);
    AfterSeconds(a, b, ['.'] + (Pad(a.micro, 6) + ['Z']), ['.'] + (Pad(b.micro, 6) + ['Z']));
  }

  /** The mixed-format lease check: the clock's text is at or after the lease text
      exactly when now is strictly after the lease, never at equality. */
  lemma LeaseCheckIsStrict(now: Stamp, lease: Stamp)
    requires Valid(now) && Valid(lease)
    ensures Leq(Text(lease), ClockText(now)) <==> Instant(lease) < Instant(now)
  {
    Powers();
    var x := ['.'] + (Pad(lease.micro, 6) + ['Z']);
    if now.micro == 0 {
      AfterSeconds(lease, now, x, "+00:00");
      assert !Leq(x, "+00:00");
    } else {
      var y := ['.'] + (Pad(now.micro, 6) + "+00:00");
      NumberBlock(lease.micro, now.micro, 6, ['Z'], "+00:00");
      assert !Leq(['Z'], "+00:00");
      LeqPrefix(['.'], Pad(lease.micro, 6) + ['Z'], Pad(now.micro, 6) + "+00:00");
      AfterSeconds(lease, now, x, y);
    }
  }

  // ---------- instants that have a civil time ----------

  ghost predicate Representable(t: Time) { exists s :: Valid(s) && Instant(s) == t }

  ghost function StampOf(t: Time): (s: Stamp)
    requires Representable(t)
    ensures Valid(s) && Instant(s) == t
  {
    var s :| Valid(s) && Instant(s) == t; s
  }

  // _time_text
  ghost function TimeTextOf(t: Time): string
    requires Representable(t)
  {
    Text(StampOf(t))
  }

  /** The expiry test that approve, claim and expire_due share, made on texts, is the
      test on instants. */
  lemma ExpiryTestOnTexts(expiresAt: Time, now: Time)
    requires Representable(expiresAt) && Representable(now)
    ensures Leq(TimeTextOf(expiresAt), TimeTextOf(now)) <==> expiresAt <= now
  {
    TextOrderIsTimeOrder(StampOf(expiresAt), StampOf(now));
  }
}
