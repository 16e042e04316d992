/**
 * One tick of the network game screen's update logic
 * (GameFrame.gameUpdateNet). Only player 0 plays from this window: its key
 * tracker is read while the window has focus and cleared otherwise; the
 * manager advances once per tick while a mode is loaded; the mode's quit
 * flag shuts the screen down; and a mode change requested by the lobby
 * through the strModeToEnter field is handed to the owner once.
 */
module NetPlay {

  import opened Session

  /** A Java String reference. */
  datatype JavaString = Null | Str(chars: string)

  /**
   * What the lobby asks for through strModeToEnter: null means leave to the
   * title, the empty string means nothing, and a name means enter that mode.
   */
  datatype ModeRequest = ExitToTitle | NoRequest | EnterMode(name: string)

  /** A request that the field can carry: a mode to enter has a non-empty name. */
  predicate Expressible(r: ModeRequest) {
    r.EnterMode? ==> |r.name| > 0
  }

  function Encode(r: ModeRequest): (f: JavaString)
    requires Expressible(r)
    ensures f.Str? ==> (|f.chars| == 0 <==> r == NoRequest)
    ensures f == Null <==> r == ExitToTitle
  {
    match r
    case ExitToTitle => Null
    case NoRequest => Str("")
    case EnterMode(name) => Str(name)
  }

  function Decode(f: JavaString): (r: ModeRequest)
    ensures Expressible(r)
    ensures r.EnterMode? ==> f == Str(r.name)
    ensures r == NoRequest <==> f == Str("")
  {
    match f
    case Null => ExitToTitle
    case Str(chars) => if |chars| > 0 then EnterMode(chars) else NoRequest
  }

  lemma DecodeEncode(r: ModeRequest)
    requires Expressible(r)
    ensures Decode(Encode(r)) == r
  {
  }

  lemma EncodeDecode(f: JavaString)
    ensures Encode(Decode(f)) == f
  {
  }

  /** The owner's enterNewMode call a tick makes, if any, with its argument. */
  datatype ModeCall = NoCall | EnterNewMode(arg: JavaString)

  /**
   * The hand-off at the end of the tick: a pending request, exit included,
   * is passed to the owner as the field holds it, and the field is emptied.
   */
  function HandOff(field: JavaString): (r: (ModeCall, JavaString))
    ensures r.0 == NoCall <==> Decode(field) == NoRequest
    ensures r.0.EnterNewMode? ==> r.0.arg == field
    ensures Decode(r.1) == NoRequest
  {
    match field
    case Null => (EnterNewMode(Null), Str(""))
    case Str(chars) => if |chars| > 0 then (EnterNewMode(field), Str("")) else (NoCall, field)
  }

  /** A request is delivered once: the next hand-off, with no new request, calls nothing and keeps the field empty. */
  lemma HandOffDeliversOnce(field: JavaString)
    ensures var first := HandOff(field);
            HandOff(first.1) == (NoCall, first.1)
  {
  }

  /** Everything the network tick reads: the manager, window focus, the loaded mode, its quit flag, the trackers. */
  datatype NetInput = NetInput(
    managerPresent: bool,
    focused: bool,
    modePresent: bool,
    quitFlag: bool,
    keys0: Keys,
    keys1: Keys)

  /**
   * The calls a network tick makes: clearing player 0's tracker (for lack
   * of focus), feeding engine 0 and advancing the manager once, the mode's
   * netplay retry hook, and the owner's mode change.
   */
  datatype NetEffects = NetEffects(cleared0: bool, advanced: bool, retryHook: bool, call: ModeCall)

  const NoNetEffects := NetEffects(false, false, false, NoCall)

  /** The mode's quit flag ends this tick before the screenshot and the hand-off. */
  predicate QuitsNet(input: NetInput) {
    input.managerPresent && input.modePresent && input.quitFlag
  }

  /** One call of gameUpdateNet, with the session and the strModeToEnter field. */
  function GameUpdateNet(s: Session, field: JavaString, input: NetInput): (r: (Session, JavaString, NetEffects))
    ensures !input.managerPresent ==> r == (s, field, NoNetEffects)
    ensures r.0.running <==> s.running && !QuitsNet(input)
    ensures r.0 == s.(running := r.0.running, screenshotArmed := r.0.screenshotArmed)
    ensures r.0.screenshotArmed <==>
              s.screenshotArmed || (input.managerPresent && !QuitsNet(input) && ((input.focused && input.keys0.screenshot) || input.keys1.screenshot))
    ensures r.2.advanced <==> input.managerPresent && input.modePresent
    ensures r.2.cleared0 <==> input.managerPresent && !input.focused
    ensures r.2.retryHook <==> input.managerPresent && input.modePresent && !input.quitFlag && input.focused && input.keys0.retry
    ensures input.managerPresent && !QuitsNet(input) ==> (r.2.call, r.1) == HandOff(field)
    ensures QuitsNet(input) ==> r.2.call == NoCall && r.1 == field
    ensures Inv(s) ==> Inv(r.0)
  {
    if !input.managerPresent then (s, field, NoNetEffects)
    else
      var k0 := if input.focused then input.keys0 else Released;
      var fx := NoNetEffects.(cleared0 := !input.focused, advanced := input.modePresent);
      if input.modePresent && input.quitFlag then (Shutdown(s), field, fx)
      else
        var fx' := fx.(retryHook := input.modePresent && k0.retry);
        var s' := ArmScreenshot(s, k0.screenshot || input.keys1.screenshot);
        var handOff := HandOff(field);
        (s', handOff.1, fx'.(call := handOff.0))
  }

  /** A request that arrives while the screen keeps running reaches the owner in the next tick, exactly once. */
  lemma RequestReachesOwner(s: Session, r: ModeRequest, input: NetInput, next: NetInput)
    requires Expressible(r) && r != NoRequest
    requires input.managerPresent && !QuitsNet(input) && next.managerPresent && !QuitsNet(next)
    ensures var first := GameUpdateNet(s, Encode(r), input);
            && first.2.call == EnterNewMode(Encode(r))
            && GameUpdateNet(first.0, first.1, next).2.call == NoCall
  {
  }
}
