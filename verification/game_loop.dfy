/**
 * The game thread (GameFrame.run): its start-up, and each iteration of the
 * `while (running)` loop — the update for network play, for a focused
 * local window, or clearing the trackers of an unfocused one; rendering,
 * as far as it consumes a pending screenshot; the sleep bookkeeping; and
 * the frame-rate measurement.
 */
module GameLoop {

  import Numeric
  import opened Session
  import RateControl
  import Pacing
  import NetPlay

  /** The options the thread reads at start-up, and whether this window plays over the network. */
  datatype Config = Config(pacing: Pacing.Settings, frameStep: bool, netPlay: bool)

  /** A configuration the loop can run without throwing: perfect-FPS mode divides by the rate. */
  predicate Runnable(cfg: Config) {
    cfg.pacing.perfect ==> cfg.pacing.maxfps != 0
  }

  /** The game thread's state between iterations. */
  datatype Loop = Loop(
    session: Session,
    field: NetPlay.JavaString,
    pacer: Pacing.Pacer,
    rate: RateControl.Rate,
    window: RateControl.Window)

  /**
   * What one iteration reads: whether the window is visible and active, what
   * either kind of update reads, whether rendering gets as far as saving a
   * screenshot (it gives up when no drawing buffer can be created), the
   * clock readings of the pacing code and the time calcFPS reads.
   */
  datatype IterationInput = IterationInput(
    focused: bool,
    local: LocalInput,
    net: NetPlay.NetInput,
    rendered: bool,
    clock: Pacing.Clock,
    calcTime: int)

  /** Which update the iteration ran, with the calls it made. */
  datatype Update =
    | NetUpdate(netFx: NetPlay.NetEffects)
    | LocalUpdate(fx: Effects)
    | Unfocused  // both trackers cleared, nothing else

  datatype Iteration = Iteration(loop: Loop, update: Update, action: Pacing.PaceAction)

  /** Rendering with a manager present saves a pending screenshot and clears the request, unless it gives up first. */
  function Render(s: Session, managerPresent: bool, rendered: bool): (r: Session)
    ensures managerPresent && rendered ==> !r.screenshotArmed
    ensures !(managerPresent && rendered) ==> r == s
    ensures r == s.(screenshotArmed := r.screenshotArmed)
  {
    if managerPresent && rendered then s.(screenshotArmed := false) else s
  }

  /**
   * The state when run() enters the loop. The rate and period restart from
   * the configured rate and the pacing state from the clock, but the frame
   * count and accumulated interval of the window, the grace counter and a
   * pending screenshot are fields that run() does not reset.
   */
  function StartLoop(cfg: Config, prev: Loop, replay: Replay, now: int, perfectStart: int): (l: Loop)
    requires Inv(prev.session)
    ensures l.session.running && Inv(l.session) && !l.session.paused
    ensures l.session.pauseFrame == prev.session.pauseFrame
    ensures l.rate == RateControl.StartRate(cfg.pacing.maxfps)
    ensures l.window == prev.window.(prevCalcTime := now)
    ensures l.pacer == Pacing.StartPacer(now, perfectStart)
    ensures l.field == prev.field
  {
    Loop(
      Start(cfg.frameStep, replay, prev.session.pauseFrame, prev.session.screenshotArmed),
      prev.field,
      Pacing.StartPacer(now, perfectStart),
      RateControl.StartRate(cfg.pacing.maxfps),
      prev.window.(prevCalcTime := now))
  }

  /** The update step: network play, a focused local window, or an unfocused one. */
  function UpdateStep(cfg: Config, l: Loop, input: IterationInput): (r: (Session, NetPlay.JavaString, Update))
    requires WellFormed(input.local)
    ensures cfg.netPlay ==>
              var u := NetPlay.GameUpdateNet(l.session, l.field, input.net.(focused := input.focused));
              r == (Render(u.0, input.net.managerPresent, input.rendered), u.1, NetUpdate(u.2))
    ensures !cfg.netPlay && input.focused ==>
              var u := GameUpdate(l.session, input.local);
              r == (Render(u.0, input.local.managerPresent, input.rendered), l.field, LocalUpdate(u.1))
    ensures !cfg.netPlay && !input.focused ==> r == (l.session, l.field, Unfocused)
    ensures r.0.running ==> l.session.running
    ensures Inv(l.session) ==> Inv(r.0)
  {
    if cfg.netPlay then
      var net := input.net.(focused := input.focused);
      var u := NetPlay.GameUpdateNet(l.session, l.field, net);
      (Render(u.0, net.managerPresent, input.rendered), u.1, NetUpdate(u.2))
    else if input.focused then
      var u := GameUpdate(l.session, input.local);
      (Render(u.0, input.local.managerPresent, input.rendered), l.field, LocalUpdate(u.1))
    else
      (l.session, l.field, Unfocused)
  }

  /** One iteration of the loop body. */
  function Iterate(cfg: Config, l: Loop, input: IterationInput): (r: Iteration)
    requires Runnable(cfg) && WellFormed(input.local)
    ensures r.loop.session.running ==> l.session.running
    ensures r.loop.pacer.beforeTime == input.clock.loopEnd
    ensures (r.loop.window, r.loop.rate) ==
              RateControl.CalcFps(l.window, l.rate, cfg.pacing.maxfps, cfg.pacing.perfect, input.calcTime)
    ensures Inv(l.session) ==> Inv(r.loop.session)
  {
    var u := UpdateStep(cfg, l, input);
    var paced := Pacing.Pace(l.pacer, l.rate.period, cfg.pacing, input.clock);
    var measured := RateControl.CalcFps(l.window, l.rate, cfg.pacing.maxfps, cfg.pacing.perfect, input.calcTime);
    Iteration(Loop(u.0, u.1, paced.0, measured.1, measured.0), u.2, paced.1)
  }

  /** What every iteration keeps, for a non-negative configured rate. */
  predicate LoopInv(cfg: Config, l: Loop) {
    && Inv(l.session)
    && RateControl.Fresh(l.rate)
    && RateControl.InBand(cfg.pacing.maxfps, l.rate.current)
    && RateControl.WindowOk(l.window, l.rate)
    && 0 <= l.pacer.noDelays < Pacing.StarveLimit
  }

  /** Start-up establishes the invariant, provided the carried window fits the new period (it is empty on a first run). */
  lemma StartLoopEstablishes(cfg: Config, prev: Loop, replay: Replay, now: int, perfectStart: int)
    requires Inv(prev.session) && 0 <= cfg.pacing.maxfps
    requires Numeric.InLong(prev.window.frameCount) && 0 <= prev.window.calcInterval < RateControl.Second
    requires cfg.pacing.maxfps == 0 ==> prev.window.calcInterval == 0
    ensures LoopInv(cfg, StartLoop(cfg, prev, replay, now, perfectStart))
  {
  }

  lemma IterateKeepsInv(cfg: Config, l: Loop, input: IterationInput)
    requires Runnable(cfg) && WellFormed(input.local) && 0 <= cfg.pacing.maxfps && LoopInv(cfg, l)
    ensures LoopInv(cfg, Iterate(cfg, l, input).loop)
  {
  }

  /**
   * The loop: it checks `running` before each iteration, so an iteration
   * that shuts the screen down is the last one. Returns the final state and
   * the number of iterations run.
   */
  function Run(cfg: Config, l: Loop, inputs: seq<IterationInput>): (r: (Loop, nat))
    requires Runnable(cfg)
    requires forall i | 0 <= i < |inputs| :: WellFormed(inputs[i].local)
    ensures r.1 <= |inputs|
    ensures r.1 < |inputs| ==> !r.0.session.running
    ensures !l.session.running ==> r == (l, 0)
    ensures 0 < |inputs| && l.session.running && !Iterate(cfg, l, inputs[0]).loop.session.running ==>
              r == (Iterate(cfg, l, inputs[0]).loop, 1)
    decreases |inputs|
  {
    if |inputs| == 0 || !l.session.running then (l, 0)
    else
      var rest := Run(cfg, Iterate(cfg, l, inputs[0]).loop, inputs[1..]);
      (rest.0, rest.1 + 1)
  }

  /** The invariant holds after any number of iterations. */
  lemma {:induction false} RunKeepsInv(cfg: Config, l: Loop, inputs: seq<IterationInput>)
    requires Runnable(cfg) && 0 <= cfg.pacing.maxfps && LoopInv(cfg, l)
    requires forall i | 0 <= i < |inputs| :: WellFormed(inputs[i].local)
    ensures LoopInv(cfg, Run(cfg, l, inputs).0)
    decreases |inputs|
  {
    if |inputs| != 0 && l.session.running {
      IterateKeepsInv(cfg, l, inputs[0]);
      RunKeepsInv(cfg, Iterate(cfg, l, inputs[0]).loop, inputs[1..]);
    }
  }


  /** A screenshot requested in a focused local tick is saved by the same iteration's rendering, if it gets that far. */
  lemma ScreenshotSavedSameIteration(cfg: Config, l: Loop, input: IterationInput)
    requires Runnable(cfg) && WellFormed(input.local) && !cfg.netPlay
    requires input.focused && input.local.managerPresent && input.rendered
    ensures !Iterate(cfg, l, input).loop.session.screenshotArmed
  {
  }
}
