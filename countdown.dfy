/**
 * The welcome screen's countdown to the end of the fair: splitting the remaining
 * milliseconds into days, hours, minutes and seconds, the sticky "fair ended" flag,
 * the fair's progress bar, and the two-digit display of the clock parts.
 */
module Countdown {
  import opened Text
  import opened RealArith

  const MsPerSecond: int := 1000
  const MsPerMinute: int := 60 * MsPerSecond
  const MsPerHour: int := 60 * MsPerMinute
  const MsPerDay: int := 24 * MsPerHour

  /** `FAIR_END_DATE`, 2025-12-04T12:30:00Z, in milliseconds since the epoch. */
  const FairEndMs: int := 1764851400000
  /** The start of the fair that `progressPercentage` counts from, 2025-11-09T09:00:00Z. */
  const FairStartMs: int := 1762678800000

  datatype TimeLeft = TimeLeft(days: int, hours: int, minutes: int, seconds: int)

  const Zero: TimeLeft := TimeLeft(0, 0, 0, 0)

  /** The parts of `calculateTimeLeft()` for `difference = fairEnd - now` (integer milliseconds). */
  function TimeLeftOf(difference: int): (r: TimeLeft)
    ensures difference <= 0 ==> r == Zero
    ensures r.days >= 0 && 0 <= r.hours < 24 && 0 <= r.minutes < 60 && 0 <= r.seconds < 60
  {
    if difference > 0 then
      TimeLeft(difference / MsPerDay, (difference / MsPerHour) % 24,
               (difference / MsPerMinute) % 60, (difference / MsPerSecond) % 60)
    else Zero
  }

  /** The parts recompose into the whole seconds remaining. */
  lemma TimeLeftRecomposes(difference: int)
    requires difference > 0
    ensures var r := TimeLeftOf(difference);
      r.days * 86400 + r.hours * 3600 + r.minutes * 60 + r.seconds == difference / MsPerSecond
  {
    var s := difference / 1000;
    var m := s / 60;
    var h := m / 60;
    assert difference / 60000 == m;
    assert difference / 3600000 == h;
    assert difference / 86400000 == h / 24;
  }

  // JavaScript computes the parts with floating-point division and `%` on the quotient.
  // With exact reals, those expressions give the integer parts above.

  /** JavaScript's `x % m` for x >= 0 and m > 0. */
  function JsRem(x: real, m: real): real
    requires x >= 0.0 && m > 0.0
  {
    x - m * (x / m).Floor as real
  }

  /** `calculateTimeLeft()` as written, on exact reals. */
  function RealTimeLeft(difference: int): TimeLeft
    requires difference > 0
  {
    var d := difference as real;
    TimeLeft((d / (1000 * 60 * 60 * 24) as real).Floor,
             JsRem(d / (1000 * 60 * 60) as real, 24.0).Floor,
             JsRem(d / 1000.0 / 60.0, 60.0).Floor,
             JsRem(d / 1000.0, 60.0).Floor)
  }

  /** The integer parts are the floating-point expressions of the source, taken exactly. */
  lemma RealTimeLeftAgrees(difference: int)
    requires difference > 0
    ensures RealTimeLeft(difference) == TimeLeftOf(difference)
  {
    var d := difference as real;
    FloorOfQuotient(difference, MsPerDay);
    FloorOfQuotient(difference, MsPerHour);
    FloorOfQuotient(difference, MsPerSecond);
    assert d / 1000.0 / 60.0 == d / MsPerMinute as real;
    FloorOfQuotient(difference, MsPerMinute);
    FloorOfRem(d / MsPerHour as real, 24);
    FloorOfRem(d / MsPerMinute as real, 60);
    FloorOfRem(d / MsPerSecond as real, 60);
  }

  /** The floor of an exact quotient of integers is integer division. */
  lemma FloorOfQuotient(a: int, b: int)
    requires a >= 0 && b > 0
    ensures (a as real / b as real).Floor == a / b
  {
    var q := a / b;
    var r := a % b;
    assert a == b * q + r;
    assert a as real / b as real == q as real + r as real / b as real;
    assert 0.0 <= r as real / b as real < 1.0;
  }

  /** The floor of `x % m` is the remainder of the floor of x. */
  lemma FloorOfRem(x: real, m: int)
    requires x >= 0.0 && m > 0
    ensures JsRem(x, m as real).Floor == x.Floor % m
  {
    var f := x.Floor;
    var q := f / m;
    assert f == m * q + f % m;
    FloorOfScaled(x, m, q);
    assert JsRem(x, m as real) == x - (m * q) as real;
  }

  /** If m * q <= x < m * (q + 1) then the floor of x / m is q. */
  lemma FloorOfScaled(x: real, m: int, q: int)
    requires m > 0 && (m * q) as real <= x < (m * q + m) as real
    ensures (x / m as real).Floor == q
  {
    var y := x / m as real;
    DivideThenMultiply(x, m as real);
    CastProduct(q, m);
    assert m * q + m == (q + 1) * m;
    CastProduct(q + 1, m);
    CancelPositiveAtMost(q as real, y, m as real);
    CancelPositiveLess(y, q as real + 1.0, m as real);
  }

  /** The fair's progress bar in percent at time `now`. */
  function ProgressPercentage(now: int): (r: real)
    ensures 0.0 <= r <= 100.0
    ensures now <= FairStartMs ==> r == 0.0
    ensures now >= FairEndMs ==> r == 100.0
  {
    var totalDuration := FairEndMs - FairStartMs;
    var elapsed := now - FairStartMs;
    if elapsed < 0 then 0.0
    else if elapsed > totalDuration then 100.0
    else
      assert elapsed as real / totalDuration as real <= 1.0;
      elapsed as real / totalDuration as real * 100.0
  }

  /** The bar never moves backwards as time passes. */
  lemma ProgressMonotone(a: int, b: int)
    requires a <= b
    ensures ProgressPercentage(a) <= ProgressPercentage(b)
  {
    var t := (FairEndMs - FairStartMs) as real;
    var ea := (a - FairStartMs) as real;
    var eb := (b - FairStartMs) as real;
    if 0.0 <= ea && eb <= t {
      assert ea / t <= eb / t;
    }
  }

  /** What the screen's header shows. */
  datatype View = CountdownView(days: string, hours: string, minutes: string, seconds: string)
                | FairEndedBanner
                | RenderError

  /** The state the interval callback updates once a second. */
  datatype WelcomeState = WelcomeState(currentTime: int, timeLeft: TimeLeft, fairEnded: bool)

  /** The interval callback at time `now`: the clock, the remaining time and the sticky flag. */
  function Tick(s: WelcomeState, now: int): (r: WelcomeState)
    ensures r.currentTime == now && r.timeLeft == TimeLeftOf(FairEndMs - now)
    ensures r.fairEnded <==> s.fairEnded || now >= FairEndMs
  {
    WelcomeState(now, TimeLeftOf(FairEndMs - now), s.fairEnded || FairEndMs - now <= 0)
  }

  /** Once the fair has ended, no later tick clears the flag. */
  lemma {:induction false} FairEndedIsSticky(s: WelcomeState, ticks: seq<int>)
    requires s.fairEnded
    ensures Ticks(s, ticks).fairEnded
    decreases |ticks|
  {
    if ticks != [] {
      FairEndedIsSticky(Tick(s, ticks[0]), ticks[1..]);
    }
  }

  function Ticks(s: WelcomeState, ticks: seq<int>): WelcomeState
    decreases |ticks|
  {
    if ticks == [] then s else Ticks(Tick(s, ticks[0]), ticks[1..])
  }

  /** The header as the screen's markup intends it: the banner once the fair ended, otherwise the
      days and the two-digit hours, minutes and seconds. */
  function Render(s: WelcomeState): View {
    if s.fairEnded then FairEndedBanner else ClockView(s.timeLeft)
  }

  /** The four boxes of the countdown: `{days}`, then `String(part).padStart(2, '0')`. */
  function ClockView(t: TimeLeft): View {
    CountdownView(DecimalString(Clamp(t.days)), TwoDigits(Clamp(t.hours)),
                  TwoDigits(Clamp(t.minutes)), TwoDigits(Clamp(t.seconds)))
  }

  function Clamp(n: int): nat {
    if n < 0 then 0 else n
  }

  /** After a tick at or past the end the banner shows. */
  lemma BannerAfterEnd(s: WelcomeState, now: int)
    requires now >= FairEndMs
    ensures Render(Tick(s, now)) == FairEndedBanner
  {
  }

  /** Before the end every clock part shows as two digits that read back as the remaining time,
      and the days as their decimal digits. */
  lemma CountdownDigits(s: WelcomeState, now: int)
    requires !s.fairEnded && now < FairEndMs
    ensures Render(Tick(s, now)) == ClockView(TimeLeftOf(FairEndMs - now))
    ensures ShowsTimeLeft(ClockView(TimeLeftOf(FairEndMs - now)), TimeLeftOf(FairEndMs - now))
  {
    ClockViewShows(TimeLeftOf(FairEndMs - now));
  }

  /** v shows the parts of t, hours, minutes and seconds as exactly two digits. */
  predicate ShowsTimeLeft(v: View, t: TimeLeft) {
    && v.CountdownView?
    && Reads(v.days, t.days)
    && |v.hours| == 2 && Reads(v.hours, t.hours)
    && |v.minutes| == 2 && Reads(v.minutes, t.minutes)
    && |v.seconds| == 2 && Reads(v.seconds, t.seconds)
  }

  /** s is a string of decimal digits that reads back as n. */
  predicate Reads(s: string, n: int) {
    IsDecimal(s) && ParseDecimal(s) == n
  }

  lemma ClockViewShows(t: TimeLeft)
    requires t.days >= 0 && 0 <= t.hours < 24 && 0 <= t.minutes < 60 && 0 <= t.seconds < 60
    ensures ShowsTimeLeft(ClockView(t), t)
  {
    var v := ClockView(t);
    assert v.days == DecimalString(t.days);
    assert v.hours == TwoDigits(t.hours);
    assert v.minutes == TwoDigits(t.minutes);
    assert v.seconds == TwoDigits(t.seconds);
    DaysShow(t.days);
    PartShows(t.hours);
    PartShows(t.minutes);
    PartShows(t.seconds);
  }

  lemma PartShows(n: nat)
    requires n < 60
    ensures |TwoDigits(n)| == 2 && Reads(TwoDigits(n), n)
  {
    TwoDigitsShape(n);
  }

  lemma DaysShow(n: nat)
    ensures Reads(DecimalString(n), n)
  {
    DecimalRoundTrip(n);
  }

  /** One render as written: `useState(calculateTimeLeft())` is evaluated on every render before the
      next line binds `setFairEnded`, and once the fair is over `calculateTimeLeft` calls it. */
  function RenderAsWritten(s: WelcomeState, now: int): View {
    if FairEndMs - now > 0 then Render(s) else RenderError
  }

  /** As written, the first render at or after the end of the fair throws instead of showing the
      banner that the intended rendering shows. */
  lemma BannerNeverRendersAsWritten()
    ensures var s := Tick(WelcomeState(FairEndMs - 1, TimeLeftOf(1), false), FairEndMs);
      RenderAsWritten(s, FairEndMs) == RenderError && Render(s) == FairEndedBanner
  {
  }

  /** The welcome screen's state hooks, which its one-second interval updates in place. */
  class WelcomeScreen {
    var currentTime: int
    var timeLeft: TimeLeft
    var fairEnded: bool

    function State(): WelcomeState
      reads this
    {
      WelcomeState(currentTime, timeLeft, fairEnded)
    }

    /** The screen mounted at time `now`: the clock, the time left, and (as the markup intends)
        the ended flag already set when the fair is over. */
    constructor(now: int)
      ensures State() == WelcomeState(now, TimeLeftOf(FairEndMs - now), now >= FairEndMs)
    {
      currentTime := now;
      timeLeft := TimeLeftOf(FairEndMs - now);
      fairEnded := now >= FairEndMs;
    }

    /** One run of the interval callback at time `now`. */
    method IntervalTick(now: int)
      modifies this
      ensures State() == Tick(old(State()), now)
      ensures old(fairEnded) ==> fairEnded
    {
      currentTime := now;
      timeLeft := TimeLeftOf(FairEndMs - now);
      if FairEndMs - now <= 0 {
        fairEnded := true;
      }
    }
  }
}
