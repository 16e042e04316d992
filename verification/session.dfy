/**
 * One tick of the local game screen's update logic (GameFrame.gameUpdate):
 * the per-player in-game flags, the pause toggle and its grace counter, the
 * pause menu, the replay controls, the gate that advances the game engine,
 * retry, and the three ways a tick can shut the screen down.
 *
 * Collaborators are reduced to values. A key tracker is the set of answers
 * its queries give after this tick's update(); the game manager is the few
 * flags the tick reads from it; every call into either becomes an entry of
 * Effects. A tracker cleared in the middle of a tick answers false to every
 * later query of that tick, since update() is not called again before them.
 */
module Session {

  import opened Numeric

  /** Ticks for which pausing (and cancelling the menu) is refused after a toggle. */
  const GraceFrames := 5
  /** Highest replay fast-forward level: the engine then advances 99 times per tick. */
  const MaxFastForward := 98

  /** Pause-menu entries. The last one is only offered in a replay that is not being re-recorded. */
  const MenuContinue := 0
  const MenuRetry := 1
  const MenuEnd := 2
  const MenuRerecord := 3

  /**
   * What one player's key tracker answers during a tick. `hideKey` is the held
   * query on button C; `up`, `down`, `left` and `right` are menu-repeat
   * queries; every other field is a push edge.
   */
  datatype Keys = Keys(
    pause: bool,
    up: bool,
    down: bool,
    confirm: bool,
    cancel: bool,
    hideKey: bool,
    left: bool,
    right: bool,
    rerecord: bool,
    showInvisible: bool,
    frameStep: bool,
    retry: bool,
    giveUp: bool,
    screenshot: bool,
    quit: bool)

  /** The answers of a tracker that has just been cleared. */
  const Released := Keys(false, false, false, false, false, false, false, false,
                         false, false, false, false, false, false, false)

  /** The two flags the tick reads from one engine of the game manager. */
  datatype Engine = Engine(isInGame: bool, gameActive: bool)

  /**
   * Everything one tick reads from its collaborators: whether a game manager
   * exists, its engines, its player count, isGameActive(), getQuitFlag(), and
   * the two players' key trackers.
   */
  datatype LocalInput = LocalInput(
    managerPresent: bool,
    engines: seq<Engine>,
    players: int,
    gameActive: bool,
    quitFlag: bool,
    keys0: Keys,
    keys1: Keys)

  /** The tick indexes engine 0 and every engine below min(players, 2). */
  predicate WellFormed(input: LocalInput) {
    input.managerPresent ==> 1 <= |input.engines| && Min(input.players, 2) <= |input.engines|
  }

  /** The replay flags of the game manager: `mode` is only read, the other two are also written. */
  datatype Replay = Replay(mode: bool, rerecord: bool, showInvisible: bool)

  datatype Session = Session(
    running: bool,
    frameStepEnabled: bool,
    paused: bool,
    hideMenu: bool,
    cursor: int,
    pauseFrame: int,
    fastForward: int,
    inGame0: bool,
    inGame1: bool,
    replay: Replay,
    screenshotArmed: bool)

  datatype Sound = PauseSound | CursorSound | DecideSound

  /**
   * The calls a tick makes into its collaborators: sounds played, trackers
   * cleared (by player slot, in order), trackers whose state is fed to their
   * engine, how many times the manager advances all engines, how many times
   * it is reset, and whether the owning window is asked to shut down too.
   */
  datatype Effects = Effects(
    sounds: seq<Sound>,
    cleared: seq<nat>,
    fed: seq<nat>,
    advances: nat,
    resets: nat,
    ownerShutdown: bool)

  const NoEffects := Effects([], [], [], 0, 0, false)

  /** A tick in progress: the state so far, the calls so far, player 0's live
      answers, and whether the tick has already returned. */
  datatype Tick = Tick(s: Session, fx: Effects, k0: Keys, done: bool)

  /** The menu entry `MenuRerecord` is offered, and replay speed can be changed, only here. */
  predicate RerecordOffered(replay: Replay) {
    replay.mode && !replay.rerecord
  }

  function MenuSize(offered: bool): nat {
    if offered then 4 else 3
  }

  /** The ranges every tick keeps. */
  predicate Inv(s: Session) {
    && 0 <= s.cursor <= MenuRerecord
    && (s.cursor == MenuRerecord ==> RerecordOffered(s.replay))
    && 0 <= s.pauseFrame <= GraceFrames
    && 0 <= s.fastForward <= MaxFastForward
  }

  /**
   * The state at the start of run(): running, unpaused with the menu shown,
   * cursor and speed at 0, nobody in game. The grace counter and a pending
   * screenshot are not reset there and carry over from a previous run.
   */
  function Start(frameStepEnabled: bool, replay: Replay, carriedPauseFrame: int, carriedScreenshot: bool): (s: Session)
    requires 0 <= carriedPauseFrame <= GraceFrames
    ensures Inv(s) && s.running
    ensures !s.paused && !s.hideMenu && s.cursor == MenuContinue && s.fastForward == 0
    ensures !s.inGame0 && !s.inGame1
    ensures s.frameStepEnabled == frameStepEnabled && s.replay == replay
    ensures s.pauseFrame == carriedPauseFrame && s.screenshotArmed == carriedScreenshot
  {
    Session(true, frameStepEnabled, false, false, 0, carriedPauseFrame, 0, false, false, replay, carriedScreenshot)
  }

  /** shutdown(): the loop stops at its next check; nothing else in the session changes. */
  function Shutdown(s: Session): (r: Session)
    ensures !r.running
    ensures r.(running := s.running) == s
    ensures Inv(r) <==> Inv(s)
  {
    s.(running := false)
  }

  lemma ShutdownIdempotent(s: Session)
    ensures Shutdown(Shutdown(s)) == Shutdown(s)
  {
  }

  // ---------------------------------------------------------------------------
  // Phase 1: in-game flags

  /** While the menu freezes the game, nobody counts as in game. */
  predicate Frozen(s: Session) {
    s.paused && !s.frameStepEnabled
  }

  /**
   * One slot's in-game flag after the recompute that opens a tick, and
   * whether that slot's tracker is cleared because the flag changed.
   */
  function InGameFlag(prev: bool, engines: seq<Engine>, slot: nat, frozen: bool): (r: (bool, bool))
    ensures frozen ==> !r.0
    ensures !frozen && slot < |engines| ==> r.0 == engines[slot].isInGame
    ensures !frozen && slot >= |engines| ==> r.0 == prev
    ensures r.1 <==> r.0 != prev
  {
    var flag := if slot < |engines| then engines[slot].isInGame else prev;
    var flag' := if frozen then false else flag;
    (flag', prev != flag')
  }

  /** Recomputing with the same inputs again changes nothing and clears nothing. */
  lemma InGameFlagSettles(prev: bool, engines: seq<Engine>, slot: nat, frozen: bool)
    ensures var r := InGameFlag(prev, engines, slot, frozen);
            InGameFlag(r.0, engines, slot, frozen) == (r.0, false)
  {
  }

  function RecomputeInGame(s: Session, engines: seq<Engine>): (r: Session)
    ensures r == s.(inGame0 := r.inGame0, inGame1 := r.inGame1)
    ensures Inv(s) ==> Inv(r)
    ensures r.inGame0 == InGameFlag(s.inGame0, engines, 0, Frozen(s)).0
    ensures r.inGame1 == InGameFlag(s.inGame1, engines, 1, Frozen(s)).0
  {
    s.(inGame0 := InGameFlag(s.inGame0, engines, 0, Frozen(s)).0,
       inGame1 := InGameFlag(s.inGame1, engines, 1, Frozen(s)).0)
  }

  /** The slots whose tracker the recompute clears, in slot order. */
  function RecomputeClears(s: Session, engines: seq<Engine>): (slots: seq<nat>)
    ensures 0 in slots <==> RecomputeInGame(s, engines).inGame0 != s.inGame0
    ensures 1 in slots <==> RecomputeInGame(s, engines).inGame1 != s.inGame1
    ensures forall i :: i in slots ==> i < 2
  {
    (if InGameFlag(s.inGame0, engines, 0, Frozen(s)).1 then [0] else [])
    + (if InGameFlag(s.inGame1, engines, 1, Frozen(s)).1 then [1] else [])
  }

  // ---------------------------------------------------------------------------
  // Phase 2: the pause key

  /** A pause edge takes effect: it always resumes, and pauses only an active game whose grace counter has expired. */
  predicate PauseAccepted(s: Session, pushed: bool, gameActive: bool) {
    pushed && (s.paused || (gameActive && s.pauseFrame <= 0))
  }

  /**
   * Either player's pause edge. Pausing arms the grace counter unless
   * frame-step is enabled and homes the cursor; resuming clears the counter.
   */
  function PauseToggle(s: Session, pushed: bool, gameActive: bool): (r: Session)
    ensures !PauseAccepted(s, pushed, gameActive) ==> r == s
    ensures PauseAccepted(s, pushed, gameActive) ==> r.paused == !s.paused
    ensures PauseAccepted(s, pushed, gameActive) && !s.paused ==>
              && r.cursor == MenuContinue
              && r.pauseFrame == (if s.frameStepEnabled then s.pauseFrame else GraceFrames)
    ensures PauseAccepted(s, pushed, gameActive) && s.paused ==> r.pauseFrame == 0 && r.cursor == s.cursor
    ensures r == s.(paused := r.paused, pauseFrame := r.pauseFrame, cursor := r.cursor)
    ensures Inv(s) ==> Inv(r)
  {
    if !PauseAccepted(s, pushed, gameActive) then s
    else if !s.paused then
      s.(paused := true, pauseFrame := if s.frameStepEnabled then s.pauseFrame else GraceFrames, cursor := MenuContinue)
    else
      s.(paused := false, pauseFrame := 0)
  }

  // ---------------------------------------------------------------------------
  // Phase 3: the pause menu

  /** The menu is live while paused, not in frame-step mode, and not hidden (as of the previous tick). */
  predicate MenuOpen(s: Session) {
    s.paused && !s.frameStepEnabled && !s.hideMenu
  }

  /**
   * The cursor after this tick's up and down repeats. Within the menu's own
   * entries it moves cyclically, up before down; from any entry it ends
   * inside the menu once it has moved.
   */
  function MoveCursor(cursor: int, up: bool, down: bool, offered: bool): (c: int)
    ensures 0 <= cursor <= MenuRerecord ==> 0 <= c <= MenuRerecord
    ensures 0 <= cursor <= MenuRerecord && (up || down) ==> c < MenuSize(offered)
    ensures !up && !down ==> c == cursor
    ensures 0 <= cursor < MenuSize(offered) && up && !down ==> c == (cursor - 1) % MenuSize(offered)
    ensures 0 <= cursor < MenuSize(offered) && down && !up ==> c == (cursor + 1) % MenuSize(offered)
    ensures 0 <= cursor < MenuSize(offered) && up && down ==> c == cursor
  {
    var afterUp :=
      if !up then cursor
      else if cursor - 1 < 0 then (if offered then MenuRerecord else MenuEnd)
      else cursor - 1;
    if !down then afterUp
    else
      var next := if afterUp + 1 > MenuRerecord then 0 else afterUp + 1;
      if !offered && next > MenuEnd then 0 else next
  }

  /** What player 0's confirm or cancel edge does in the open menu. */
  datatype MenuAction =
    | NoAction        // neither edge, or a cancel refused by the grace counter
    | Resume          // confirm on entry 0
    | Restart         // confirm on entry 1
    | EndGame         // confirm on entry 2
    | StartRerecord   // confirm on entry 3
    | Dismiss         // cancel
    | ConfirmOutside  // confirm with the cursor outside 0..3 (kept out by Inv)

  /**
   * Confirm takes precedence over cancel and dispatches on the cursor;
   * cancel is refused while the grace counter is positive.
   */
  function MenuChoice(cursor: int, pauseFrame: int, confirm: bool, cancel: bool): (a: MenuAction)
    ensures confirm ==>
              && (a == Resume <==> cursor == MenuContinue)
              && (a == Restart <==> cursor == MenuRetry)
              && (a == EndGame <==> cursor == MenuEnd)
              && (a == StartRerecord <==> cursor == MenuRerecord)
              && (a == ConfirmOutside <==> !(0 <= cursor <= MenuRerecord))
    ensures !confirm ==> (a == Dismiss <==> cancel && pauseFrame <= 0)
    ensures !confirm ==> (a == NoAction <==> !(cancel && pauseFrame <= 0))
  {
    if confirm then
      if cursor == MenuContinue then Resume
      else if cursor == MenuRetry then Restart
      else if cursor == MenuEnd then EndGame
      else if cursor == MenuRerecord then StartRerecord
      else ConfirmOutside
    else if cancel && pauseFrame <= 0 then Dismiss
    else NoAction
  }

  /** The fields the pause menu never writes. */
  predicate MenuKeeps(before: Session, after: Session) {
    && after.frameStepEnabled == before.frameStepEnabled && after.hideMenu == before.hideMenu
    && after.fastForward == before.fastForward && after.screenshotArmed == before.screenshotArmed
    && after.inGame0 == before.inGame0 && after.inGame1 == before.inGame1
    && after.replay.mode == before.replay.mode && after.replay.showInvisible == before.replay.showInvisible
  }

  /**
   * The session after a menu action: resume clears the grace counter;
   * restart resumes; end shuts down; re-record switches the replay to
   * re-recording and homes the cursor without resuming; cancel resumes and
   * re-arms the grace counter.
   */
  function ApplyMenu(s: Session, a: MenuAction): (r: Session)
    ensures a == Resume ==> r == s.(paused := false, pauseFrame := 0)
    ensures a == Restart ==> r == s.(paused := false)
    ensures a == EndGame ==> r == Shutdown(s)
    ensures a == StartRerecord ==> r == s.(cursor := MenuContinue, replay := s.replay.(rerecord := true))
    ensures a == Dismiss ==> r == s.(paused := false, pauseFrame := GraceFrames)
    ensures a == NoAction || a == ConfirmOutside ==> r == s
    ensures MenuKeeps(s, r)
    ensures r.running ==> s.running
    ensures r.paused ==> s.paused
  {
    match a
    case Resume => s.(paused := false, pauseFrame := 0)
    case Restart => s.(paused := false)
    case EndGame => Shutdown(s)
    case StartRerecord => s.(cursor := MenuContinue, replay := s.replay.(rerecord := true))
    case Dismiss => s.(paused := false, pauseFrame := GraceFrames)
    case NoAction => s
    case ConfirmOutside => s
  }

  /** Actions that clear player 0's tracker: every later player-0 query of the tick reads false. */
  predicate ClearsTracker(a: MenuAction) {
    a == Resume || a == Dismiss
  }

  function MenuSounds(k0: Keys, a: MenuAction): seq<Sound> {
    (if k0.up then [CursorSound] else [])
    + (if k0.down then [CursorSound] else [])
    + (if k0.confirm then [DecideSound] else if a == Dismiss then [PauseSound] else [])
  }

  /** The menu's cursor movement and action for this tick, given that the menu is open. */
  function MenuStep(s: Session, k0: Keys): (a: (int, MenuAction))
  {
    var c := MoveCursor(s.cursor, k0.up, k0.down, RerecordOffered(s.replay));
    (c, MenuChoice(c, s.pauseFrame, k0.confirm, k0.cancel))
  }

  /** The session after the menu phase of a tick. */
  function MenuSession(s: Session, k0: Keys): (r: Session)
    ensures !MenuOpen(s) ==> r == s
    ensures MenuKeeps(s, r)
    ensures r.running ==> s.running
    ensures r.paused ==> s.paused
    ensures r.replay.rerecord ==> s.replay.rerecord || k0.confirm
    ensures !k0.confirm ==> r.replay == s.replay && r.running == s.running
    ensures Inv(s) ==> Inv(r)
  {
    if !MenuOpen(s) then s
    else
      var step := MenuStep(s, k0);
      ApplyMenu(s.(cursor := step.0), step.1)
  }

  /** The open menu as one phase of the tick: state, calls, player 0's live answers, and the early return. */
  function PauseMenu(t: Tick): (r: Tick)
    ensures !MenuOpen(t.s) ==> r == t
    ensures r.s == MenuSession(t.s, t.k0)
    ensures r.fx.advances == t.fx.advances && r.fx.fed == t.fx.fed && r.fx.ownerShutdown == t.fx.ownerShutdown
    ensures r.done ==> t.done || !r.s.running
    ensures r.k0 == t.k0 || r.k0 == Released
    ensures MenuOpen(t.s) ==>
              (ClearsTracker(MenuStep(t.s, t.k0).1) <==> r.k0 == Released && r.fx.cleared == t.fx.cleared + [0])
    ensures !MenuOpen(t.s) || !ClearsTracker(MenuStep(t.s, t.k0).1) ==> r.k0 == t.k0 && r.fx.cleared == t.fx.cleared
    ensures MenuOpen(t.s) ==> r.fx.resets == t.fx.resets + (if MenuStep(t.s, t.k0).1 == Restart then 1 else 0)
    ensures !MenuOpen(t.s) ==> r.fx.resets == t.fx.resets
  {
    if !MenuOpen(t.s) then t
    else
      var step := MenuStep(t.s, t.k0);
      var a := step.1;
      Tick(
        MenuSession(t.s, t.k0),
        t.fx.(sounds := t.fx.sounds + MenuSounds(t.k0, a),
              cleared := t.fx.cleared + (if ClearsTracker(a) then [0] else []),
              resets := t.fx.resets + (if a == Restart then 1 else 0)),
        if ClearsTracker(a) then Released else t.k0,
        t.done || a == EndGame)
  }

  // ---------------------------------------------------------------------------
  // Phase 4: grace countdown and the hide key

  /** The grace counter drops by one while positive; the menu is hidden exactly while C is held. */
  function CountDownAndHide(s: Session, held: bool): (r: Session)
    ensures r.pauseFrame == (if s.pauseFrame > 0 then s.pauseFrame - 1 else s.pauseFrame)
    ensures 0 <= s.pauseFrame ==> 0 <= r.pauseFrame
    ensures r.hideMenu == held
    ensures r == s.(pauseFrame := r.pauseFrame, hideMenu := held)
    ensures Inv(s) ==> Inv(r)
  {
    var frames := if s.pauseFrame > 0 then s.pauseFrame - 1 else s.pauseFrame;
    s.(pauseFrame := frames, hideMenu := held)
  }

  // ---------------------------------------------------------------------------
  // Phase 5: replay controls

  /** Replay speed after this tick's left and right repeats (left first), kept within [0, 98]. */
  function FastForwardStep(level: int, slower: bool, faster: bool): (r: int)
    ensures 0 <= level <= MaxFastForward ==> 0 <= r <= MaxFastForward
    ensures !slower && !faster ==> r == level
    ensures 0 <= level && slower && !faster ==> r == Max(level - 1, 0)
    ensures level <= MaxFastForward && faster && !slower ==> r == Min(level + 1, MaxFastForward)
    ensures 0 <= level <= MaxFastForward && slower && faster ==> r == Max(level, 1)
  {
    var afterLeft := if slower && level > 0 then level - 1 else level;
    if faster && afterLeft < MaxFastForward then afterLeft + 1 else afterLeft
  }

  /** Replay playback is live: a replay not being re-recorded whose first engine is active. */
  predicate PlaybackLive(replay: Replay, engine0Active: bool) {
    RerecordOffered(replay) && engine0Active
  }

  /**
   * During live playback player 0 changes the speed, can switch to
   * re-recording and can toggle showing invisible blocks (both home the
   * cursor); in every other tick the speed is forced to 0.
   */
  function ReplayControls(s: Session, k0: Keys, engine0Active: bool): (r: Session)
    ensures !PlaybackLive(s.replay, engine0Active) ==> r == s.(fastForward := 0)
    ensures PlaybackLive(s.replay, engine0Active) ==>
              && r.fastForward == FastForwardStep(s.fastForward, k0.left, k0.right)
              && r.replay.rerecord == k0.rerecord
              && r.replay.showInvisible == (s.replay.showInvisible != k0.showInvisible)
              && r.cursor == (if k0.rerecord || k0.showInvisible then MenuContinue else s.cursor)
    ensures r.replay.mode == s.replay.mode
    ensures r == s.(fastForward := r.fastForward, replay := r.replay, cursor := r.cursor)
    ensures Inv(s) ==> Inv(r)
  {
    if PlaybackLive(s.replay, engine0Active) then
      var level := FastForwardStep(s.fastForward, k0.left, k0.right);
      var rerecord := s.replay.rerecord || k0.rerecord;
      var show := if k0.showInvisible then !s.replay.showInvisible else s.replay.showInvisible;
      var cursor := if k0.rerecord || k0.showInvisible then MenuContinue else s.cursor;
      s.(fastForward := level, replay := Replay(s.replay.mode, rerecord, show), cursor := cursor)
    else
      s.(fastForward := 0)
  }

  // ---------------------------------------------------------------------------
  // Phase 6: advancing the engine

  /** A player's tracker feeds its engine unless that engine is replaying recorded input. */
  predicate TakesInput(replay: Replay, engine: Engine) {
    !replay.mode || replay.rerecord || !engine.gameActive
  }

  function FedSlots(input: LocalInput, replay: Replay): (r: seq<nat>)
    requires Min(input.players, 2) <= |input.engines|
    ensures forall i: nat :: i in r <==> i < Min(input.players, 2) && TakesInput(replay, input.engines[i])
    ensures forall j | 0 <= j < |r| - 1 :: r[j] < r[j + 1]
  {
    var n := Min(input.players, 2);
    (if 0 < n && TakesInput(replay, input.engines[0]) then [0] else [])
    + (if 1 < n && TakesInput(replay, input.engines[1]) then [1] else [])
  }

  /** The engine moves only through this gate: unpaused, or a frame-step push when frame-step is enabled. */
  predicate AdvanceGate(s: Session, k0: Keys) {
    !s.paused || (k0.frameStep && s.frameStepEnabled)
  }

  /** How many times `for (i = 0; i <= fastforward; i++)` calls updateAll. */
  function AdvanceCount(level: int): nat {
    if level < 0 then 0 else level + 1
  }

  /** Through the gate the trackers feed their engines and the manager advances fastforward + 1 times; otherwise nothing moves. */
  function Advance(fx: Effects, s: Session, k0: Keys, input: LocalInput): (r: Effects)
    requires Min(input.players, 2) <= |input.engines|
    ensures AdvanceGate(s, k0) ==>
              r == fx.(fed := fx.fed + FedSlots(input, s.replay), advances := fx.advances + AdvanceCount(s.fastForward))
    ensures !AdvanceGate(s, k0) ==> r == fx
  {
    if AdvanceGate(s, k0) then
      fx.(fed := fx.fed + FedSlots(input, s.replay), advances := fx.advances + AdvanceCount(s.fastForward))
    else fx
  }

  // ---------------------------------------------------------------------------
  // Phases 7-10: retry, return to title, screenshot, quit

  /** Either player's retry edge resumes; the session is otherwise untouched (CloseTick records the reset of the game). */
  function Retry(s: Session, pushed: bool): (r: Session)
    ensures r.paused <==> s.paused && !pushed
    ensures r == s.(paused := r.paused)
    ensures Inv(s) ==> Inv(r)
  {
    if pushed then s.(paused := false) else s
  }

  // ---------------------------------------------------------------------------
  // The whole tick

  /** The session after phases 1-3: in-game flags, the pause key and the pause menu. */
  function OpenSession(s: Session, input: LocalInput): (r: Session)
    ensures Inv(s) ==> Inv(r)
    ensures r.running ==> s.running
    ensures r.frameStepEnabled == s.frameStepEnabled && r.replay.mode == s.replay.mode
    ensures r.fastForward == s.fastForward && r.screenshotArmed == s.screenshotArmed
    ensures !s.paused && s.pauseFrame > 0 ==> !r.paused && r.pauseFrame == s.pauseFrame
    ensures !input.keys0.confirm ==> r.replay == s.replay && r.running == s.running
  {
    var s0 := RecomputeInGame(s, input.engines);
    var s1 := PauseToggle(s0, input.keys0.pause || input.keys1.pause, input.gameActive);
    MenuSession(s1, input.keys0)
  }

  /** Phases 1-3 as a tick: the session above with the sounds, clears and early return they cause. */
  function OpenTick(s: Session, input: LocalInput): (t: Tick)
    ensures t.s == OpenSession(s, input)
    ensures t.done ==> !t.s.running
    ensures t.fx.advances == 0 && !t.fx.ownerShutdown
    ensures t.k0 == input.keys0 || t.k0 == Released
    ensures !input.keys0.confirm && !input.keys0.cancel ==> t.k0 == input.keys0 && !t.done
    ensures RecomputeClears(s, input.engines) <= t.fx.cleared
    ensures |t.fx.cleared| <= |RecomputeClears(s, input.engines)| + 1
    ensures t.fx.resets <= 1 && (t.fx.resets == 1 ==> input.keys0.confirm && !t.done)
  {
    var s0 := RecomputeInGame(s, input.engines);
    var pushed := input.keys0.pause || input.keys1.pause;
    var s1 := PauseToggle(s0, pushed, input.gameActive);
    var fx := NoEffects.(
      cleared := RecomputeClears(s, input.engines),
      sounds := if PauseAccepted(s0, pushed, input.gameActive) then [PauseSound] else []);
    PauseMenu(Tick(s1, fx, input.keys0, false))
  }

  /** Phases 4-6: the grace countdown, the hide flag, replay controls and the advance gate. */
  function MidTick(t: Tick, input: LocalInput): (r: Tick)
    requires WellFormed(input) && input.managerPresent
    ensures Inv(t.s) ==> Inv(r.s)
    ensures r.s.running == t.s.running && r.done == t.done && r.k0 == t.k0
    ensures r.s.frameStepEnabled == t.s.frameStepEnabled && r.s.replay.mode == t.s.replay.mode
    ensures r.s.screenshotArmed == t.s.screenshotArmed && r.s.paused == t.s.paused
    ensures r.s.pauseFrame == (if t.s.pauseFrame > 0 then t.s.pauseFrame - 1 else t.s.pauseFrame)
    ensures r.fx.advances == t.fx.advances || r.fx.advances == t.fx.advances + AdvanceCount(r.s.fastForward)
    ensures r.fx.ownerShutdown == t.fx.ownerShutdown && r.fx.resets == t.fx.resets
    ensures PlaybackLive(t.s.replay, input.engines[0].gameActive) ==>
              && r.s.fastForward == FastForwardStep(t.s.fastForward, t.k0.left, t.k0.right)
              && r.s.replay.rerecord == t.k0.rerecord
  {
    var s4 := CountDownAndHide(t.s, t.k0.hideKey);
    var s5 := ReplayControls(s4, t.k0, input.engines[0].gameActive);
    Tick(s5, Advance(t.fx, s5, t.k0, input), t.k0, t.done)
  }

  /** Either player's screenshot edge asks the next render to save the screen; the request stays until then. */
  function ArmScreenshot(s: Session, pushed: bool): (r: Session)
    ensures r.screenshotArmed <==> s.screenshotArmed || pushed
    ensures r == s.(screenshotArmed := r.screenshotArmed)
    ensures Inv(r) <==> Inv(s)
  {
    if pushed then s.(screenshotArmed := true) else s
  }

  /** Return to title: the mode's quit flag or either player's give-up edge. */
  predicate GivesUp(k0: Keys, input: LocalInput) {
    input.quitFlag || k0.giveUp || input.keys1.giveUp
  }

  /** Either player's quit edge, which also shuts the owning application down. */
  predicate Quits(k0: Keys, input: LocalInput) {
    k0.quit || input.keys1.quit
  }

  /** Everything but the running, paused and screenshot flags, which are all that phases 7-10 write. */
  predicate CloseKeeps(s: Session, r: Session) {
    && r.frameStepEnabled == s.frameStepEnabled && r.hideMenu == s.hideMenu && r.cursor == s.cursor
    && r.pauseFrame == s.pauseFrame && r.fastForward == s.fastForward
    && r.inGame0 == s.inGame0 && r.inGame1 == s.inGame1 && r.replay == s.replay
  }

  /** The session after phases 7-10: retry, return to title, screenshot and quit. */
  function CloseSession(s: Session, k0: Keys, input: LocalInput): (r: Session)
    ensures CloseKeeps(s, r)
    ensures r.running <==> s.running && !GivesUp(k0, input) && !Quits(k0, input)
    ensures r.paused ==> s.paused
    ensures r.screenshotArmed == (s.screenshotArmed || (!GivesUp(k0, input) && (k0.screenshot || input.keys1.screenshot)))
    ensures Inv(s) ==> Inv(r)
  {
    var retried := Retry(s, k0.retry || input.keys1.retry);
    var armed := !GivesUp(k0, input) && (k0.screenshot || input.keys1.screenshot);
    var running := s.running && !GivesUp(k0, input) && !Quits(k0, input);
    retried.(running := running, screenshotArmed := s.screenshotArmed || armed)
  }

  /** Phases 7-10 as a tick; the first shutdown ends the tick, and only the quit key shuts the owner down. */
  function CloseTick(t: Tick, input: LocalInput): (r: Tick)
    ensures r.s == CloseSession(t.s, t.k0, input)
    ensures r.fx.advances == t.fx.advances
    ensures r.fx.ownerShutdown <==> t.fx.ownerShutdown || (!GivesUp(t.k0, input) && Quits(t.k0, input))
    ensures r.fx.resets == t.fx.resets + (if t.k0.retry || input.keys1.retry then 1 else 0)
  {
    var retry := t.k0.retry || input.keys1.retry;
    var fx := t.fx.(resets := t.fx.resets + (if retry then 1 else 0));
    var quitsOwner := !GivesUp(t.k0, input) && Quits(t.k0, input);
    Tick(CloseSession(t.s, t.k0, input),
         fx.(ownerShutdown := t.fx.ownerShutdown || quitsOwner),
         t.k0,
         t.done || GivesUp(t.k0, input) || Quits(t.k0, input))
  }

  /**
   * One call of gameUpdate. Without a game manager the tick does nothing.
   * Otherwise it runs the phases in the source's order and stops at the
   * first one that shuts the screen down.
   */
  function GameUpdate(s: Session, input: LocalInput): (r: (Session, Effects))
    requires WellFormed(input)
    ensures !input.managerPresent ==> r == (s, NoEffects)
    ensures Inv(s) ==> Inv(r.0)
    ensures r.0.running ==> s.running
    ensures r.0.frameStepEnabled == s.frameStepEnabled && r.0.replay.mode == s.replay.mode
    ensures r.1.advances == 0 || r.1.advances == AdvanceCount(r.0.fastForward)
    ensures r.1.ownerShutdown ==> !r.0.running
    ensures s.screenshotArmed ==> r.0.screenshotArmed
    ensures input.managerPresent && !s.paused && s.pauseFrame > 0 ==>
              !r.0.paused && r.0.pauseFrame == s.pauseFrame - 1
  {
    if !input.managerPresent then (s, NoEffects)
    else
      var t3 := OpenTick(s, input);
      if t3.done then (t3.s, t3.fx)
      else
        var t10 := CloseTick(MidTick(t3, input), input);
        (t10.s, t10.fx)
  }

  // ---------------------------------------------------------------------------
  // Consecutive ticks

  /** Ticks in order while the screen keeps running. */
  function Steps(s: Session, inputs: seq<LocalInput>): (r: Session)
    requires forall i | 0 <= i < |inputs| :: WellFormed(inputs[i])
    ensures Inv(s) ==> Inv(r)
    ensures r.running ==> s.running
    ensures r.replay.mode == s.replay.mode
    decreases |inputs|
  {
    if |inputs| == 0 || !s.running then s
    else Steps(GameUpdate(s, inputs[0]).0, inputs[1..])
  }

  // ---------------------------------------------------------------------------
  // Properties across ticks

  /** After an unpause with grace frames left, n further ticks (n at most the grace count) cannot pause the game. */
  lemma {:induction false} GraceBlocksPause(s: Session, inputs: seq<LocalInput>)
    requires forall i | 0 <= i < |inputs| :: WellFormed(inputs[i])
    requires !s.paused && s.pauseFrame >= |inputs|
    ensures !Steps(s, inputs).paused
    decreases |inputs|
  {
    if |inputs| == 0 || !s.running {
    } else {
      var s' := GameUpdate(s, inputs[0]).0;
      GraceBlocksPause(s', inputs[1..]);
    }
  }

  /** Live replay playback with player 0 holding the faster key and nothing that would leave playback or end the screen. */
  predicate HoldsFaster(input: LocalInput) {
    && input.managerPresent && 1 <= |input.engines| && input.engines[0].gameActive
    && input.keys0.right && !input.keys0.left && !input.keys0.rerecord
    && !input.keys0.confirm && !input.keys0.cancel
    && !GivesUp(input.keys0, input) && !Quits(input.keys0, input)
  }

  /** One such tick raises the replay speed by one step up to the ceiling, and the screen keeps playing. */
  lemma FasterTick(s: Session, input: LocalInput)
    requires WellFormed(input) && HoldsFaster(input)
    requires s.running && RerecordOffered(s.replay) && 0 <= s.fastForward <= MaxFastForward
    ensures var r := GameUpdate(s, input).0;
            r.running && RerecordOffered(r.replay) && r.fastForward == Min(s.fastForward + 1, MaxFastForward)
  {
  }

  /** Holding the faster key through n ticks of playback saturates the speed at 98. */
  lemma {:induction false} FastForwardSaturates(s: Session, inputs: seq<LocalInput>)
    requires forall i | 0 <= i < |inputs| :: WellFormed(inputs[i]) && HoldsFaster(inputs[i])
    requires s.running && RerecordOffered(s.replay) && 0 <= s.fastForward <= MaxFastForward
    ensures Steps(s, inputs).running
    ensures Steps(s, inputs).fastForward == Min(s.fastForward + |inputs|, MaxFastForward)
    decreases |inputs|
  {
    if |inputs| != 0 {
      FasterTick(s, inputs[0]);
      FastForwardSaturates(GameUpdate(s, inputs[0]).0, inputs[1..]);
    }
  }

  /** Confirming the End entry of the open menu shuts the screen down before the engine can move. */
  lemma EndEntryShutsDown(s: Session, input: LocalInput)
    requires WellFormed(input) && input.managerPresent && s.running
    requires MenuOpen(s) && !input.keys0.pause && !input.keys1.pause
    requires input.keys0.confirm && MoveCursor(s.cursor, input.keys0.up, input.keys0.down, RerecordOffered(s.replay)) == MenuEnd
    ensures !GameUpdate(s, input).0.running
    ensures GameUpdate(s, input).1.advances == 0
    ensures !GameUpdate(s, input).1.ownerShutdown
  {
  }

  /** An unpaused tick with no pause edge advances the engine fastforward + 1 times. */
  lemma UnpausedTickAdvances(s: Session, input: LocalInput)
    requires WellFormed(input) && input.managerPresent
    requires !s.paused && !input.keys0.pause && !input.keys1.pause
    ensures GameUpdate(s, input).1.advances == AdvanceCount(GameUpdate(s, input).0.fastForward)
  {
  }

  /** While the menu holds the game paused and nothing resumes it, the engine does not move. */
  lemma PausedTickHolds(s: Session, input: LocalInput)
    requires WellFormed(input) && input.managerPresent
    requires s.paused && !s.frameStepEnabled
    requires !input.keys0.pause && !input.keys1.pause && !input.keys0.confirm && !input.keys0.cancel
    ensures GameUpdate(s, input).1.advances == 0
  {
  }

  /** Outside the menu, a retry edge of either player resets the game exactly once and leaves it unpaused. */
  lemma RetryKeyResets(s: Session, input: LocalInput)
    requires WellFormed(input) && input.managerPresent
    requires !s.paused && !input.keys0.pause && !input.keys1.pause
    requires input.keys0.retry || input.keys1.retry
    ensures GameUpdate(s, input).1.resets == 1
    ensures !GameUpdate(s, input).0.paused
  {
  }

  /** Confirming the Retry entry of the open menu resumes and resets the game once (no retry key held as well). */
  lemma RetryEntryResets(s: Session, input: LocalInput)
    requires WellFormed(input) && input.managerPresent
    requires MenuOpen(s) && !input.keys0.pause && !input.keys1.pause
    requires input.keys0.confirm && MoveCursor(s.cursor, input.keys0.up, input.keys0.down, RerecordOffered(s.replay)) == MenuRetry
    requires !input.keys0.retry && !input.keys1.retry
    ensures GameUpdate(s, input).1.resets == 1
    ensures !GameUpdate(s, input).0.paused
  {
  }

  /** Moving up and then down returns the cursor to the entry it left. */
  lemma CursorUpDownReturns(cursor: int, offered: bool)
    requires 0 <= cursor < MenuSize(offered)
    ensures MoveCursor(MoveCursor(cursor, true, false, offered), false, true, offered) == cursor
  {
  }

  /** Below the ceiling, a faster step undone by a slower step restores the speed. */
  lemma FasterSlowerReturns(level: int)
    requires 0 <= level < MaxFastForward
    ensures FastForwardStep(FastForwardStep(level, false, true), true, false) == level
  {
  }

  /** Pausing and then resuming with the pause key leaves the game unpaused with no grace window. */
  lemma PauseResumeRoundTrip(s: Session, gameActive: bool)
    requires !s.paused && gameActive && s.pauseFrame <= 0
    ensures var p := PauseToggle(s, true, gameActive);
            p.paused && PauseToggle(p, true, gameActive) == s.(pauseFrame := 0, cursor := MenuContinue)
  {
  }
}
