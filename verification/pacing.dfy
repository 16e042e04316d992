/**
 * The sleep bookkeeping at the end of each iteration of the game loop
 * (GameFrame.run). Each frame should last one period: the loop sleeps for
 * what is left of it after updating and rendering, minus how much the
 * previous sleep overran, and carries the new overrun to the next frame.
 * When nothing is left, it counts a frame without delay and yields the CPU
 * after every sixteen such frames, counted cumulatively: a sleeping frame
 * does not reset the count. In perfect-FPS mode it instead waits for a
 * deadline that advances by exactly one frame each time.
 *
 * The clock readings are inputs; the sleep, the wait and the yield are
 * returned as an action. Every `long` operation wraps modulo 2^64.
 */
module Pacing {

  import opened Numeric
  import RateControl

  /** Frames without sleep, counted cumulatively, after which the loop yields. */
  const StarveLimit := 16
  const NanosPerMilli := 1_000_000

  /** The loop's local pacing state. */
  datatype Pacer = Pacer(beforeTime: int, overSleep: int, noDelays: int, perfectDelay: int)

  /** The clock readings of one iteration: after update and rendering, after the sleep, and at the end of the iteration. */
  datatype Clock = Clock(afterUpdate: int, afterSleep: int, loopEnd: int)

  /** The pacing options read from the configuration when the loop starts. */
  datatype Settings = Settings(maxfps: int, perfect: bool, perfectYield: bool)

  /** What the loop does with the rest of the frame. */
  datatype PaceAction =
    | WaitUntil(deadline: int, yielding: bool)  // perfect-FPS mode: spin (yielding or not) until the deadline
    | Sleep(millis: int)                         // Thread.sleep for the remaining time
    | NoSleep                                    // time remains, but an unlimited rate does not sleep
    | Starved(yielded: bool)                     // no time remains; every 16th such frame, counted cumulatively, yields

  /**
   * The pacing state when the loop starts: the frame clock from the first
   * reading, the perfect-FPS deadline from a second one taken just before
   * the first iteration.
   */
  function StartPacer(now: int, perfectStart: int): (p: Pacer)
    ensures p.beforeTime == now && p.perfectDelay == perfectStart
    ensures p.overSleep == 0 && p.noDelays == 0
  {
    Pacer(now, 0, 0, perfectStart)
  }

  /** What is left of the frame: the period minus the time spent so far minus the previous overrun. */
  function SleepTime(p: Pacer, period: int, afterUpdate: int): (t: int)
    ensures InLong(t)
    ensures SameLong(t, period - (afterUpdate - p.beforeTime) - p.overSleep)
  {
    var timeDiff := Long(afterUpdate - p.beforeTime);
    var t := Long(Long(period - timeDiff) - p.overSleep);
    SameLongAdd(period, period, timeDiff, afterUpdate - p.beforeTime);
    SameLongAdd(Long(period - timeDiff), period - timeDiff, p.overSleep, p.overSleep);
    SameLongTrans(t, Long(period - timeDiff) - p.overSleep, period - timeDiff - p.overSleep);
    SameLongTrans(t, period - timeDiff - p.overSleep, period - (afterUpdate - p.beforeTime) - p.overSleep);
    t
  }

  /** Perfect-FPS mode's fixed step, `1000000000 / maxfps` in int arithmetic. */
  function PerfectStep(maxfps: int): int
    requires maxfps != 0
  {
    JavaDiv(RateControl.Second, maxfps)
  }

  /** The frame takes the sleeping branch (perfect-FPS mode aside). */
  predicate Sleeps(p: Pacer, period: int, cfg: Settings, c: Clock) {
    !cfg.perfect && SleepTime(p, period, c.afterUpdate) > 0
  }

  /** The frame finds no time left. */
  predicate Starves(p: Pacer, period: int, cfg: Settings, c: Clock) {
    !cfg.perfect && SleepTime(p, period, c.afterUpdate) <= 0
  }

  /**
   * One pass through the pacing code. Perfect-FPS mode divides by maxfps,
   * which throws for 0, so that combination is excluded.
   */
  function Pace(p: Pacer, period: int, cfg: Settings, c: Clock): (r: (Pacer, PaceAction))
    requires cfg.perfect ==> cfg.maxfps != 0
    ensures r.0.beforeTime == c.loopEnd
    ensures !cfg.perfect ==> r.0.perfectDelay == c.loopEnd
    ensures cfg.perfect ==>
              && r.0.perfectDelay == Long(p.perfectDelay + PerfectStep(cfg.maxfps))
              && r.1 == WaitUntil(r.0.perfectDelay, cfg.perfectYield)
              && r.0.overSleep == p.overSleep && r.0.noDelays == p.noDelays
    ensures Sleeps(p, period, cfg, c) ==>
              && SameLong(c.afterSleep - p.beforeTime, period - p.overSleep + r.0.overSleep)
              && r.0.noDelays == p.noDelays
              && (cfg.maxfps <= 0 ==> r.1 == NoSleep)
    ensures Sleeps(p, period, cfg, c) && cfg.maxfps > 0 ==>
              r.1.Sleep? && r.1.millis * NanosPerMilli <= SleepTime(p, period, c.afterUpdate) < (r.1.millis + 1) * NanosPerMilli
    ensures Starves(p, period, cfg, c) ==> r.0.overSleep == 0 && r.1.Starved?
    ensures Starves(p, period, cfg, c) && 0 <= p.noDelays < StarveLimit ==>
              && r.0.noDelays == (p.noDelays + 1) % StarveLimit
              && (r.1.yielded <==> p.noDelays + 1 == StarveLimit)
  {
    var sleepTime := SleepTime(p, period, c.afterUpdate);
    var step :=
      if cfg.perfect then
        var deadline := Long(p.perfectDelay + PerfectStep(cfg.maxfps));
        (p.(perfectDelay := deadline), WaitUntil(deadline, cfg.perfectYield))
      else if sleepTime > 0 then
        var overSleep := Long(Long(c.afterSleep - c.afterUpdate) - sleepTime);
        DriftCarried(p, period, c, sleepTime, overSleep);
        (p.(overSleep := overSleep), if cfg.maxfps > 0 then Sleep(sleepTime / NanosPerMilli) else NoSleep)
      else
        var n := p.noDelays + 1;
        if n >= StarveLimit then (p.(overSleep := 0, noDelays := 0), Starved(true))
        else (p.(overSleep := 0, noDelays := n), Starved(false));
    var before := c.loopEnd;
    (step.0.(beforeTime := before, perfectDelay := if cfg.perfect then step.0.perfectDelay else before), step.1)
  }

  /** The overrun carried out of a sleeping frame is the time to the end of its sleep beyond the period, corrected by the overrun carried in. */
  lemma DriftCarried(p: Pacer, period: int, c: Clock, sleepTime: int, overSleep: int)
    requires sleepTime == SleepTime(p, period, c.afterUpdate)
    requires overSleep == Long(Long(c.afterSleep - c.afterUpdate) - sleepTime)
    ensures SameLong(c.afterSleep - p.beforeTime, period - p.overSleep + overSleep)
  {
  }

  /** One iteration's inputs to the pacing code: the period in force and the clock readings. */
  datatype Frame = Frame(period: int, clock: Clock)

  /** Consecutive iterations: the final state, how many frames starved, and how many of those yielded. */
  datatype Run = Run(pacer: Pacer, starved: nat, yieldCount: nat)

  function PaceRun(p: Pacer, cfg: Settings, frames: seq<Frame>): (r: Run)
    requires cfg.perfect ==> cfg.maxfps != 0
    decreases |frames|
  {
    if |frames| == 0 then Run(p, 0, 0)
    else
      var step := Pace(p, frames[0].period, cfg, frames[0].clock);
      var rest := PaceRun(step.0, cfg, frames[1..]);
      var starved := if step.1.Starved? then 1 else 0;
      var yielded := if step.1.Starved? && step.1.yielded then 1 else 0;
      Run(rest.pacer, rest.starved + starved, rest.yieldCount + yielded)
  }

  /**
   * Frames without delay are counted cumulatively (sleeping frames do not
   * reset the count); the counter wraps around at sixteen, each wrap yielding once.
   */
  lemma {:induction false} StarvationCounts(p: Pacer, cfg: Settings, frames: seq<Frame>)
    requires cfg.perfect ==> cfg.maxfps != 0
    requires 0 <= p.noDelays < StarveLimit
    ensures var r := PaceRun(p, cfg, frames);
            && r.pacer.noDelays == (p.noDelays + r.starved) % StarveLimit
            && r.yieldCount == (p.noDelays + r.starved) / StarveLimit
    decreases |frames|
  {
    if |frames| != 0 {
      var step := Pace(p, frames[0].period, cfg, frames[0].clock);
      StarvationCounts(step.0, cfg, frames[1..]);
      var rest := PaceRun(step.0, cfg, frames[1..]);
      if step.1.Starved? {
        assert Starves(p, frames[0].period, cfg, frames[0].clock);
        CounterWraps(p.noDelays, rest.starved);
      }
    }
  }

  /** Counting one more frame on a counter that wraps at sixteen, then s more, is counting s + 1 from the start. */
  lemma CounterWraps(n: int, s: nat)
    requires 0 <= n < StarveLimit
    ensures ((n + 1) % StarveLimit + s) % StarveLimit == (n + 1 + s) % StarveLimit
    ensures ((n + 1) % StarveLimit + s) / StarveLimit + (if n + 1 == StarveLimit then 1 else 0) == (n + 1 + s) / StarveLimit
  {
  }

  function SumPeriods(frames: seq<Frame>): int
    decreases |frames|
  {
    if |frames| == 0 then 0 else frames[0].period + SumPeriods(frames[1..])
  }

  /** Each iteration ends when its sleep does. */
  predicate NoGaps(frames: seq<Frame>) {
    forall i | 0 <= i < |frames| :: frames[i].clock.loopEnd == frames[i].clock.afterSleep
  }

  /**
   * Drift compensation: over frames that all sleep and end as their sleep
   * ends, the elapsed time is the sum of the periods, corrected only by the
   * overrun carried in and the overrun carried out.
   */
  lemma {:induction false} DriftTelescopes(p: Pacer, cfg: Settings, frames: seq<Frame>)
    requires !cfg.perfect && NoGaps(frames)
    requires PaceRun(p, cfg, frames).starved == 0
    ensures var q := PaceRun(p, cfg, frames).pacer;
            SameLong(q.beforeTime - p.beforeTime, SumPeriods(frames) - p.overSleep + q.overSleep)
    decreases |frames|
  {
    if |frames| == 0 {
      assert SameLong(0, 0);
    } else {
      var f := frames[0];
      var step := Pace(p, f.period, cfg, f.clock);
      assert NoGaps(frames[1..]) by {
        forall i | 0 <= i < |frames[1..]| ensures frames[1..][i].clock.loopEnd == frames[1..][i].clock.afterSleep {
          assert frames[1..][i] == frames[i + 1];
        }
      }
      DriftTelescopes(step.0, cfg, frames[1..]);
      var q := PaceRun(p, cfg, frames).pacer;
      assert Sleeps(p, f.period, cfg, f.clock);
      SameLongAdd(step.0.beforeTime - p.beforeTime, f.period - p.overSleep + step.0.overSleep,
                  q.beforeTime - step.0.beforeTime, SumPeriods(frames[1..]) - step.0.overSleep + q.overSleep);
    }
  }

  /** In perfect-FPS mode the deadline advances by exactly one step per frame, whatever the clock says. */
  lemma {:induction false} PerfectDeadlineAdvances(p: Pacer, cfg: Settings, frames: seq<Frame>)
    requires cfg.perfect && cfg.maxfps != 0
    ensures SameLong(PaceRun(p, cfg, frames).pacer.perfectDelay, p.perfectDelay + |frames| * PerfectStep(cfg.maxfps))
    ensures PaceRun(p, cfg, frames).starved == 0
    decreases |frames|
  {
    if |frames| == 0 {
      assert SameLong(p.perfectDelay, p.perfectDelay);
    } else {
      var step := Pace(p, frames[0].period, cfg, frames[0].clock);
      var d := PerfectStep(cfg.maxfps);
      PerfectDeadlineAdvances(step.0, cfg, frames[1..]);
      SameLongAdd(step.0.perfectDelay, p.perfectDelay + d, (|frames| - 1) * d, (|frames| - 1) * d);
      SameLongAdd(PaceRun(p, cfg, frames).pacer.perfectDelay, step.0.perfectDelay + (|frames| - 1) * d, 0, 0);
      assert p.perfectDelay + d + (|frames| - 1) * d == p.perfectDelay + |frames| * d;
      SameLongTrans(PaceRun(p, cfg, frames).pacer.perfectDelay, step.0.perfectDelay + (|frames| - 1) * d,
                    p.perfectDelay + |frames| * d);
    }
  }

  /** A bound on the durations of the scenario below: about 18 minutes. */
  const Moment: int := 0x100_0000_0000

  /**
   * With an unlimited rate (period Long.MAX_VALUE) the first frame finds
   * time to spare and, never sleeping, carries an overrun of nearly
   * -Long.MAX_VALUE; subtracting that wraps the next frame's remaining time
   * negative, so that frame starves and resets the overrun. The loop
   * alternates between the two branches.
   */
  lemma UnlimitedRateAlternates(p: Pacer, cfg: Settings, c1: Clock, c2: Clock)
    requires cfg.maxfps == 0 && !cfg.perfect && p.overSleep == 0
    requires 0 <= c1.afterUpdate - p.beforeTime < Moment && 0 <= c1.afterSleep - c1.afterUpdate < Moment
    requires 0 <= c2.afterUpdate - c1.loopEnd < Moment
    ensures var first := Pace(p, RateControl.Period(0), cfg, c1);
            var second := Pace(first.0, RateControl.Period(0), cfg, c2);
            first.1 == NoSleep && second.1.Starved? && second.0.overSleep == 0
  {
  }
}
