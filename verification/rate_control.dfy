/**
 * The frame-rate controller of the game loop (GameFrame.calcFPS and the
 * period computation in GameFrame.run): once per second of accumulated
 * frame periods it measures the real frame rate and nudges the current
 * target rate one step toward the configured one, within ten frames per
 * second of it.
 *
 * The measured rate is a Java double. Here it is the exact real quotient,
 * with division by a zero elapsed time giving the IEEE infinities or NaN
 * as Java does; double rounding is not modelled.
 */
module RateControl {

  import opened Numeric

  /** Nanoseconds per second. */
  const Second: int := 1_000_000_000
  /** How far the current rate may drift from the configured one. */
  const Band: int := 10

  /**
   * The frame period, in nanoseconds, that `(long) (1.0 / rate * 1000000000)`
   * gives: the quotient truncated toward zero, and Long.MAX_VALUE for a
   * rate of 0, where the double quotient is infinite.
   */
  function Period(rate: int): (p: int)
    ensures rate == 0 ==> p == LongMax
    ensures rate != 0 ==> p == JavaDiv(Second, rate)
    ensures rate > 0 ==> 0 <= p <= Second && p * rate <= Second < (p + 1) * rate
    ensures rate < 0 ==> -Second <= p <= 0
  {
    if rate == 0 then LongMax else JavaDiv(Second, rate)
  }

  /** A higher positive rate never has a longer period. */
  lemma {:induction false} PeriodAntitone(a: int, b: int)
    requires 0 < a <= b
    ensures Period(b) <= Period(a)
  {
    var pa, pb := Period(a), Period(b);
    MulMonotone(pb, a, b);
    assert pb * a < (pa + 1) * a;
    MulCancel(pb, pa + 1, a);
  }

  lemma MulMonotone(k: nat, a: int, b: int)
    requires a <= b
    ensures k * a <= k * b
  {
  }

  lemma MulCancel(x: int, y: int, a: int)
    requires 0 < a && x * a < y * a
    ensures x < y
  {
  }

  /** The measured frame rate as a Java double: finite, one of the infinities, or NaN. */
  datatype Reading = Finite(fps: real) | PosInfinity | NegInfinity | NaN

  /**
   * `((double) frames / elapsed) * 1000000000`: frames per second over an
   * elapsed time in nanoseconds, with Java's results for a zero divisor.
   */
  function Measure(frames: int, elapsed: int): (m: Reading)
    ensures elapsed != 0 ==> m.Finite? && m.fps * elapsed as real == (frames * Second) as real
    ensures elapsed == 0 ==> (m == PosInfinity <==> frames > 0) && (m == NegInfinity <==> frames < 0) && (m == NaN <==> frames == 0)
  {
    if elapsed != 0 then Finite((frames as real / elapsed as real) * Second as real)
    else if frames > 0 then PosInfinity
    else if frames < 0 then NegInfinity
    else NaN
  }

  /** The game ran slower than one frame per second below the configured rate (a NaN compares false). */
  predicate TooSlow(m: Reading, maxfps: int) {
    m.NegInfinity? || (m.Finite? && m.fps < (maxfps - 1) as real)
  }

  /** The game ran faster than one frame per second above the configured rate. */
  predicate TooFast(m: Reading, maxfps: int) {
    m.PosInfinity? || (m.Finite? && m.fps > (maxfps + 1) as real)
  }

  lemma NeverBothTooSlowAndTooFast(m: Reading, maxfps: int)
    ensures !(TooSlow(m, maxfps) && TooFast(m, maxfps))
  {
  }

  /** The current rate stays within ten of the configured rate and is never negative. */
  predicate InBand(maxfps: int, current: int) {
    Max(0, maxfps - Band) <= current <= maxfps + Band
  }

  /**
   * The new current rate after one measurement: up one when too slow, down
   * one when too fast, each clamped to the band (and to 0 from below); and
   * unchanged when the measurement is within one of the target.
   */
  function Nudge(maxfps: int, current: int, m: Reading): (c: int)
    ensures !TooSlow(m, maxfps) && !TooFast(m, maxfps) ==> c == current
    ensures TooSlow(m, maxfps) && current < maxfps + Band ==> c == current + 1
    ensures TooSlow(m, maxfps) && current >= maxfps + Band ==> c == maxfps + Band
    ensures TooFast(m, maxfps) && current > Max(0, maxfps - Band) ==> c == current - 1
    ensures TooFast(m, maxfps) && current <= Max(0, maxfps - Band) ==> c == Max(0, maxfps - Band)
    ensures InBand(maxfps, current) ==> InBand(maxfps, c)
  {
    if TooSlow(m, maxfps) then
      var up := current + 1;
      if up > maxfps + Band then maxfps + Band else up
    else if TooFast(m, maxfps) then
      var down := current - 1;
      var down' := if down < maxfps - Band then maxfps - Band else down;
      if down' < 0 then 0 else down'
    else current
  }

  /** The current rate after one nudge per measurement, in order. */
  function NudgeAll(maxfps: int, current: int, ms: seq<Reading>): (c: int)
    decreases |ms|
  {
    if |ms| == 0 then current else NudgeAll(maxfps, Nudge(maxfps, current, ms[0]), ms[1..])
  }

  /** Whatever the measurements, a rate that starts in the band stays in it and moves by at most one per window. */
  lemma {:induction false} NudgeAllStaysInBand(maxfps: int, current: int, ms: seq<Reading>)
    requires InBand(maxfps, current)
    ensures InBand(maxfps, NudgeAll(maxfps, current, ms))
    ensures Abs(NudgeAll(maxfps, current, ms) - current) <= |ms|
    decreases |ms|
  {
    if |ms| != 0 {
      NudgeAllStaysInBand(maxfps, Nudge(maxfps, current, ms[0]), ms[1..]);
    }
  }

  /** Persistently too-slow measurements raise the rate by one per window until it saturates at the top of the band. */
  lemma {:induction false} SlowRunSaturates(maxfps: int, current: int, ms: seq<Reading>)
    requires InBand(maxfps, current)
    requires forall i | 0 <= i < |ms| :: TooSlow(ms[i], maxfps)
    ensures NudgeAll(maxfps, current, ms) == Min(current + |ms|, maxfps + Band)
    decreases |ms|
  {
    if |ms| != 0 {
      SlowRunSaturates(maxfps, Nudge(maxfps, current, ms[0]), ms[1..]);
    }
  }

  /** The controller's state: the current target rate and the frame period derived from it. */
  datatype Rate = Rate(current: int, period: int)

  /** The period is the one the current rate gives. */
  predicate Fresh(r: Rate) {
    r.period == Period(r.current)
  }

  /** The rate the loop starts with: the configured one, and its period. */
  function StartRate(maxfps: int): (r: Rate)
    ensures Fresh(r) && r.current == maxfps
    ensures maxfps >= 0 ==> InBand(maxfps, r.current)
  {
    Rate(maxfps, Period(maxfps))
  }

  /** The measuring window: frames and period nanoseconds since the last measurement, and when that was. */
  datatype Window = Window(frameCount: int, calcInterval: int, prevCalcTime: int, actualFps: Reading)

  /** The window closes once the accumulated periods, summed as a long, reach one second. */
  predicate Closes(w: Window, r: Rate) {
    Long(w.calcInterval + r.period) >= Second
  }

  /**
   * One call of calcFPS(periodCurrent) at the end of a loop iteration. The
   * frame and its period join the window; when that reaches a second, the
   * real rate over the window is measured at timeNow, the window restarts
   * there, and, with a positive configured rate outside perfect-FPS mode, the
   * current rate is nudged and its period recomputed.
   *
   * The counters and the elapsed time are longs: `timeNow - prevCalcTime`
   * wraps, so two System.nanoTime readings taken across the wrap of the
   * clock still give the true elapsed time (ElapsedAcrossWrap).
   */
  function CalcFps(w: Window, r: Rate, maxfps: int, perfect: bool, timeNow: int): (res: (Window, Rate))
    ensures !Closes(w, r) ==>
              res == (w.(frameCount := Long(w.frameCount + 1), calcInterval := Long(w.calcInterval + r.period)), r)
    ensures Closes(w, r) ==>
              res.0 == Window(0, 0, timeNow, Measure(Long(w.frameCount + 1), Long(timeNow - w.prevCalcTime)))
    ensures !Closes(w, r) || maxfps <= 0 || perfect ==> res.1 == r
    ensures Closes(w, r) && maxfps > 0 && !perfect ==>
              res.1.current == Nudge(maxfps, r.current, res.0.actualFps)
    ensures Fresh(r) ==> Fresh(res.1)
  {
    var frames := Long(w.frameCount + 1);
    var interval := Long(w.calcInterval + r.period);
    if interval < Second then
      (w.(frameCount := frames, calcInterval := interval), r)
    else
      var m := Measure(frames, Long(timeNow - w.prevCalcTime));
      var w' := Window(0, 0, timeNow, m);
      if maxfps > 0 && !perfect && (TooSlow(m, maxfps) || TooFast(m, maxfps)) then
        var c := Nudge(maxfps, r.current, m);
        (w', Rate(c, Period(c)))
      else
        (w', r)
  }

  /**
   * The window never overflows a long: it stays below a second, and it is
   * empty whenever the period exceeds a second (a rate of 0 gives
   * Long.MAX_VALUE, and every call then closes the window at once).
   */
  predicate WindowOk(w: Window, r: Rate) {
    && InLong(w.frameCount) && 0 <= w.calcInterval < Second
    && 0 <= r.period <= LongMax
    && (r.period > Second ==> w.calcInterval == 0)
  }

  /** Under the window invariant the accumulation in calcFPS does not overflow. */
  lemma AccumulationFits(w: Window, r: Rate)
    requires WindowOk(w, r)
    ensures InLong(w.calcInterval + r.period)
  {
  }

  /**
   * The elapsed time calcFPS measures is the true one whenever the clock
   * advanced by at most Long.MAX_VALUE nanoseconds between the two
   * readings, even when the long reading wrapped in between.
   */
  lemma ElapsedAcrossWrap(prevCalcTime: int, timeNow: int, d: int)
    requires InLong(prevCalcTime) && InLong(timeNow)
    requires 0 <= d <= LongMax && SameLong(timeNow, prevCalcTime + d)
    ensures Long(timeNow - prevCalcTime) == d
  {
  }

  /**
   * A window that closes just after the clock wraps: the readings Long.MAX_VALUE - 5
   * and Long.MIN_VALUE + 5 are 11 ns apart, so one frame in them reads far too
   * fast and a rate of 60 drops to 59.
   */
  lemma WrapReadsTooFast()
    ensures var res := CalcFps(Window(0, Second - 1, LongMax - 5, NaN), Rate(60, Period(60)), 60, false, LongMin + 5);
            res.0.actualFps == Finite(Second as real / 11 as real) && res.1.current == 59
  {
  }

  /** calcFPS keeps the window invariant for a non-negative configured rate whose current rate is fresh and in the band. */
  lemma CalcFpsKeepsWindow(w: Window, r: Rate, maxfps: int, perfect: bool, timeNow: int)
    requires 0 <= maxfps && Fresh(r) && InBand(maxfps, r.current) && WindowOk(w, r)
    ensures var res := CalcFps(w, r, maxfps, perfect, timeNow);
            WindowOk(res.0, res.1) && Fresh(res.1) && InBand(maxfps, res.1.current)
  {
  }
}
