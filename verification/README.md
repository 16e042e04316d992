# NullpoMino game screen: update, pacing and frame-rate control

A Dafny model of the control logic of NullpoMino's Swing game window,
`GameFrame`. The model covers these parts:

- **One local update tick** (`gameUpdate`): the per-player in-game flags, the pause key and its five-frame grace counter, the pause menu (continue / retry / end / re-record), hiding the menu, the replay controls (speed from 0 to 98, re-record, show invisible blocks), the gate that feeds the key trackers to the engines and advances the game `fastforward + 1` times, retry, return to title, the screenshot request and quit.
- **One network update tick** (`gameUpdateNet`), including the hand-off of a mode change that the lobby posts in `strModeToEnter`.
- **The game thread** (`run`): start-up, then each iteration of `while (running)`. An iteration runs the update, the render as far as it consumes a screenshot request, the sleep bookkeeping with its oversleep carry and its yield after 16 frames without delay (or the fixed deadline of perfect-FPS mode), and `calcFPS`. `calcFPS` measures the real frame rate once per second of periods and nudges the current target rate within ten of the configured one.
- **`shutdown`**, which stops the loop.

The modules are:

- `Numeric`: Java `long` wrap-around and truncating division.
- `Session`: `gameUpdate`.
- `NetPlay`: `gameUpdateNet`.
- `RateControl`: `calcFPS` and the period.
- `Pacing`: the sleep code of `run`.
- `GameLoop`: `run`.

Collaborators become values:

- A key tracker is the answers its queries give after this tick's `update()`. A tracker cleared in the middle of a tick answers false for the rest of that tick.
- The game manager is the flags the tick reads. Calls into it (sounds, clears, input feeds, `updateAll`, `reset`, the owner's `shutdown` and `enterNewMode`) are returned as effects.
- Clock readings are inputs. Sleeping, waiting and yielding are returned as an action.

## Model

| member | source | states |
|---|---|---|
| Session.Start | src/mu/nu/nullpo/gui/swing/GameFrame.java:225-236 | run() starts running, unpaused, with the menu shown, the cursor and speed at 0 and nobody in game. The grace counter and a pending screenshot are not reset and carry over. |
| Session.Shutdown | src/mu/nu/nullpo/gui/swing/GameFrame.java:209 | shutdown() clears `running` and leaves every other session field as it was. |
| Session.ShutdownIdempotent | src/mu/nu/nullpo/gui/swing/GameFrame.java:209 | Shutting down twice is the same as once. |
| Session.InGameFlag | src/mu/nu/nullpo/gui/swing/GameFrame.java:322-335 | A slot's flag is false while the menu freezes the game. Otherwise it copies the engine's flag when that engine exists and is kept when it does not. The tracker is cleared exactly when the flag changes. |
| Session.InGameFlagSettles | src/mu/nu/nullpo/gui/swing/GameFrame.java:322-335 | A second recompute from the same inputs changes no flag and clears no tracker. |
| Session.RecomputeInGame | src/mu/nu/nullpo/gui/swing/GameFrame.java:322-331 | Only the two in-game flags change, each as InGameFlag gives it, and the session ranges are kept. |
| Session.RecomputeClears | src/mu/nu/nullpo/gui/swing/GameFrame.java:332-334 | Slot 0 or slot 1 is cleared exactly when its in-game flag changed, and no other slot is cleared. |
| Session.PauseToggle | src/mu/nu/nullpo/gui/swing/GameFrame.java:341-354 | A pause edge always resumes. It pauses only an active game whose grace counter has expired. Pausing homes the cursor and arms 5 grace frames unless frame-step is enabled. Resuming zeroes the counter. An edge that is not accepted changes nothing. |
| Session.PauseResumeRoundTrip | src/mu/nu/nullpo/gui/swing/GameFrame.java:341-354 | Pausing and then resuming returns the original session with the grace counter at 0 and the cursor on Continue. |
| Session.MoveCursor | src/mu/nu/nullpo/gui/swing/GameFrame.java:358-376 | Up and down move the cursor cyclically through 3 entries, or 4 when re-record is offered. Up is applied before down, so both together leave the cursor in place. A moved cursor always lands inside the menu. |
| Session.CursorUpDownReturns | src/mu/nu/nullpo/gui/swing/GameFrame.java:358-376 | Up followed by down returns the cursor to the entry it left. |
| Session.MenuChoice | src/mu/nu/nullpo/gui/swing/GameFrame.java:379-406 | Confirm takes precedence over cancel and selects the entry under the cursor. Cancel dismisses the menu only when the grace counter has expired. |
| Session.ApplyMenu | src/mu/nu/nullpo/gui/swing/GameFrame.java:379-406 | Continue resumes with no grace. Retry resumes. End shuts down. Re-record switches the replay to re-recording and homes the cursor while staying paused. Cancel resumes with 5 grace frames. |
| Session.MenuSession | src/mu/nu/nullpo/gui/swing/GameFrame.java:356-407 | The menu acts only while it is open. It never un-stops the loop or pauses the game, and it writes no field outside its own. Without a confirm it leaves the replay flags alone. It keeps the session ranges. |
| Session.PauseMenu | src/mu/nu/nullpo/gui/swing/GameFrame.java:356-407 | The menu phase adds no advance or input feed. It ends the tick only by shutting down. Player 0's tracker is cleared (listed once, and read as released afterwards) exactly when the menu resumes or is cancelled; otherwise its answers and the clear list are unchanged. The game is reset exactly when the Retry entry is confirmed (:389). |
| Session.CountDownAndHide | src/mu/nu/nullpo/gui/swing/GameFrame.java:408-411 | A positive grace counter drops by one, and the menu is hidden exactly while C is held. |
| Session.FastForwardStep | src/mu/nu/nullpo/gui/swing/GameFrame.java:415-424 | Left lowers the speed by one, stopping at 0. Right raises it by one, stopping at 98. Both together give max(level, 1). |
| Session.FasterSlowerReturns | src/mu/nu/nullpo/gui/swing/GameFrame.java:415-424 | Below 98, a faster step followed by a slower step restores the speed. |
| Session.ReplayControls | src/mu/nu/nullpo/gui/swing/GameFrame.java:413-438 | During live playback the speed steps, D starts re-recording and E toggles invisible blocks, and both D and E home the cursor. In every other tick the speed is forced to 0. |
| Session.FedSlots | src/mu/nu/nullpo/gui/swing/GameFrame.java:443-449 | Slot i is fed exactly when i < min(players, 2) and its engine is not replaying recorded input. Slots are fed in increasing order. |
| Session.Advance | src/mu/nu/nullpo/gui/swing/GameFrame.java:441-453 | Through the gate (unpaused, or a frame-step push with frame-step enabled) the trackers feed their engines and the manager advances fastforward + 1 times. Otherwise nothing moves. |
| Session.Retry | src/mu/nu/nullpo/gui/swing/GameFrame.java:457-460 | A retry edge resumes the game and changes nothing else in the session. The reset call is recorded by CloseTick. |
| Session.ArmScreenshot | src/mu/nu/nullpo/gui/swing/GameFrame.java:473-475 | A screenshot edge sets the request. An existing request stays. |
| Session.OpenSession | src/mu/nu/nullpo/gui/swing/GameFrame.java:322-407 | The first phases keep the ranges, never restart the loop and leave speed and screenshot alone. During grace an unpaused game stays unpaused with its counter intact. Without a confirm the replay flags and `running` are untouched. |
| Session.OpenTick | src/mu/nu/nullpo/gui/swing/GameFrame.java:322-407 | If the first phases end the tick, the screen has been shut down. They cause no advance and no owner shutdown. Without confirm or cancel, player 0's answers are unchanged for the rest of the tick. The clear list starts with the in-game recompute's slots and adds at most the menu's clear. At most one reset happens, and only on a confirm that does not end the tick. |
| Session.MidTick | src/mu/nu/nullpo/gui/swing/GameFrame.java:408-453 | The grace counter drops by one while positive, and the pause state is kept. In live playback the speed steps as FastForwardStep gives it and re-record follows the D key. The advance count grows by fastforward + 1 or not at all. |
| Session.CloseSession | src/mu/nu/nullpo/gui/swing/GameFrame.java:455-484 | The screen keeps running exactly when neither give-up, the quit flag nor quit fires. A screenshot is requested only if the tick did not give up first. Only `running`, `paused` and the screenshot flag change. |
| Session.CloseTick | src/mu/nu/nullpo/gui/swing/GameFrame.java:455-484 | The owner is shut down exactly when quit fires and give-up did not end the tick first. The game is reset once exactly when either player's retry edge fires (:459). |
| Session.GameUpdate | src/mu/nu/nullpo/gui/swing/GameFrame.java:318-485 | Without a manager nothing happens. A tick keeps the ranges and never restarts the loop. It advances either not at all or exactly fastforward + 1 times. An owner shutdown implies the screen stopped. A screenshot request is never dropped. During grace an unpaused game cannot be paused, and the counter drops by one. |
| Session.Steps | src/mu/nu/nullpo/gui/swing/GameFrame.java:252-258 | Consecutive local ticks keep the ranges, never restart the loop and never change the replay mode. |
| Session.GraceBlocksPause | src/mu/nu/nullpo/gui/swing/GameFrame.java:341-408 | After an unpause that leaves n grace frames, the next n ticks cannot pause the game, whatever keys are pressed. |
| Session.FasterTick | src/mu/nu/nullpo/gui/swing/GameFrame.java:413-424 | One playback tick holding right (with no key that leaves playback or ends the screen) raises the speed by one up to 98 and keeps playing. |
| Session.FastForwardSaturates | src/mu/nu/nullpo/gui/swing/GameFrame.java:413-424 | Holding right through n such ticks gives speed min(speed + n, 98). |
| Session.EndEntryShutsDown | src/mu/nu/nullpo/gui/swing/GameFrame.java:390-393 | Confirming End in the open menu shuts the screen down before the engine moves, and does not shut the owner down. |
| Session.UnpausedTickAdvances | src/mu/nu/nullpo/gui/swing/GameFrame.java:441-451 | An unpaused tick with no pause edge advances the engine exactly fastforward + 1 times. |
| Session.RetryKeyResets | src/mu/nu/nullpo/gui/swing/GameFrame.java:457-460 | Outside the menu, a retry edge of either player resets the game exactly once and leaves it unpaused. |
| Session.RetryEntryResets | src/mu/nu/nullpo/gui/swing/GameFrame.java:386-389 | Confirming the Retry entry of the open menu resumes and resets the game once. |
| Session.PausedTickHolds | src/mu/nu/nullpo/gui/swing/GameFrame.java:441-451 | While the menu holds the game paused and nothing resumes it, the engine does not advance. |
| NetPlay.Encode | src/mu/nu/nullpo/gui/swing/GameFrame.java:149-150 | Null encodes leaving to the title, the empty string encodes no request, and a name encodes entering that mode. |
| NetPlay.Decode | src/mu/nu/nullpo/gui/swing/GameFrame.java:523-529 | Reads the field the way the hand-off branches on it. A mode name read back is the field's own text. |
| NetPlay.DecodeEncode | src/mu/nu/nullpo/gui/swing/GameFrame.java:149-150 | Reading back an encoded request gives the request. |
| NetPlay.EncodeDecode | src/mu/nu/nullpo/gui/swing/GameFrame.java:523-529 | Every field value is the encoding of the request it is read as. |
| NetPlay.HandOff | src/mu/nu/nullpo/gui/swing/GameFrame.java:523-529 | A pending request (an exit or a mode name) is passed to enterNewMode as the field holds it. No call is made exactly when there is no request. The field is left empty. |
| NetPlay.HandOffDeliversOnce | src/mu/nu/nullpo/gui/swing/GameFrame.java:523-529 | After a hand-off, the next one calls nothing. |
| NetPlay.GameUpdateNet | src/mu/nu/nullpo/gui/swing/GameFrame.java:490-535 | Without a manager nothing happens. Without focus player 0's tracker is cleared. A loaded mode gets one advance. The quit flag stops the screen and skips the screenshot and the hand-off. Retry calls the mode's hook only when focused. Only `running` and the screenshot flag change. |
| NetPlay.RequestReachesOwner | src/mu/nu/nullpo/gui/swing/GameFrame.java:523-529 | A posted request reaches the owner on the next tick that does not quit, and is not delivered again on the tick after. |
| RateControl.Period | src/mu/nu/nullpo/gui/swing/GameFrame.java:227 | The period of a positive rate is the whole number of nanoseconds p with p * rate <= 1e9 < (p + 1) * rate. A rate of 0 gives Long.MAX_VALUE. Negative rates give the truncated negative quotient. |
| RateControl.PeriodAntitone | src/mu/nu/nullpo/gui/swing/GameFrame.java:227 | A higher positive rate never has a longer period. |
| RateControl.Measure | src/mu/nu/nullpo/gui/swing/GameFrame.java:706-708 | With a nonzero elapsed time the reading times the elapsed time equals frames times 1e9. A zero elapsed time gives +Infinity, -Infinity or NaN by the sign of the frame count. |
| RateControl.NeverBothTooSlowAndTooFast | src/mu/nu/nullpo/gui/swing/GameFrame.java:715-722 | No reading is both below maxfps - 1 and above maxfps + 1. |
| RateControl.Nudge | src/mu/nu/nullpo/gui/swing/GameFrame.java:715-727 | Too slow raises the current rate by one, up to maxfps + 10. Too fast lowers it by one, down to max(0, maxfps - 10). A reading within one of the target leaves it alone. A rate in that band stays in it. |
| RateControl.NudgeAllStaysInBand | src/mu/nu/nullpo/gui/swing/GameFrame.java:715-727 | Over any sequence of measurements the current rate stays in the band and moves by at most one per window. |
| RateControl.SlowRunSaturates | src/mu/nu/nullpo/gui/swing/GameFrame.java:716-720 | n too-slow windows give rate min(rate + n, maxfps + 10). |
| RateControl.StartRate | src/mu/nu/nullpo/gui/swing/GameFrame.java:226-227 | The loop starts at the configured rate with its period. |
| RateControl.CalcFps | src/mu/nu/nullpo/gui/swing/GameFrame.java:695-730 | The window closes exactly when the accumulated periods, summed as a long, reach a second. On closing it is measured at timeNow over the long-wrapped elapsed time `timeNow - prevCalcTime` and restarted there. Otherwise it gains one frame and one period, both as longs. The rate changes only on closing, with a positive configured rate and outside perfect mode, and then it follows Nudge. The period stays the current rate's. |
| RateControl.ElapsedAcrossWrap | src/mu/nu/nullpo/gui/swing/GameFrame.java:701-704 | When the clock advanced by d nanoseconds, 0 <= d <= Long.MAX_VALUE, the wrapped difference of the two readings is d, even if the reading wrapped in between. |
| RateControl.WrapReadsTooFast | src/mu/nu/nullpo/gui/swing/GameFrame.java:701-726 | One frame closing a window between the readings Long.MAX_VALUE - 5 and Long.MIN_VALUE + 5 reads 1e9 / 11 fps, and a rate of 60 drops to 59. |
| RateControl.AccumulationFits | src/mu/nu/nullpo/gui/swing/GameFrame.java:697 | Under the window invariant, adding the period does not overflow a long. |
| RateControl.CalcFpsKeepsWindow | src/mu/nu/nullpo/gui/swing/GameFrame.java:695-730 | For a non-negative configured rate, calcFPS keeps the window invariant, the period fresh and the rate in the band. |
| Pacing.StartPacer | src/mu/nu/nullpo/gui/swing/GameFrame.java:222-251 | Pacing starts with no carried oversleep, no frames without delay, and the given clock readings. |
| Pacing.SleepTime | src/mu/nu/nullpo/gui/swing/GameFrame.java:265-268 | The time left is the period minus the time since the frame began minus the previous oversleep, in long arithmetic. |
| Pacing.Pace | src/mu/nu/nullpo/gui/swing/GameFrame.java:264-301 | Perfect mode advances the deadline by 1e9 / maxfps and leaves the oversleep and the counter alone. A frame with time left sleeps its whole milliseconds (only with a positive rate) and carries its overrun. A frame without time left zeroes the oversleep and counts modulo 16, yielding when the count reaches 16. Sleeping frames leave the count alone, so it is cumulative. The next frame starts at the loop-end reading. |
| Pacing.DriftCarried | src/mu/nu/nullpo/gui/swing/GameFrame.java:285-287 | For a sleeping frame, the time from its start to the end of its sleep is the period minus the carried-in overrun plus the carried-out overrun. |
| Pacing.StarvationCounts | src/mu/nu/nullpo/gui/swing/GameFrame.java:288-296 | Over any frames, the counter is (start + starved frames) mod 16 and the number of yields is (start + starved frames) / 16. |
| Pacing.DriftTelescopes | src/mu/nu/nullpo/gui/swing/GameFrame.java:264-299 | Over frames that all sleep and end when their sleep ends, the elapsed time is the sum of the periods corrected only by the first and last oversleep. |
| Pacing.PerfectDeadlineAdvances | src/mu/nu/nullpo/gui/swing/GameFrame.java:271-278 | In perfect mode n frames move the deadline by exactly n * (1e9 / maxfps), whatever the clock says, and no frame counts as starved. |
| Pacing.UnlimitedRateAlternates | src/mu/nu/nullpo/gui/swing/GameFrame.java:266-296 | At rate 0 (period Long.MAX_VALUE) a frame with time to spare carries an oversleep near -Long.MAX_VALUE. The next frame's remaining time then wraps negative, so it starves. |
| GameLoop.Render | src/mu/nu/nullpo/gui/swing/GameFrame.java:612-622 | Rendering with a manager that gets as far as drawing saves a pending screenshot and clears the request. Otherwise it changes nothing. |
| GameLoop.StartLoop | src/mu/nu/nullpo/gui/swing/GameFrame.java:220-251 | run() restarts the session, the rate and the pacing state. It keeps the grace counter, the frame count and accumulated interval, and the mode field, and it restarts the measuring window at the start time. |
| GameLoop.StartLoopEstablishes | src/mu/nu/nullpo/gui/swing/GameFrame.java:225-251 | For a non-negative rate and a carried window that fits the new period, start-up establishes the loop invariant. |
| GameLoop.UpdateStep | src/mu/nu/nullpo/gui/swing/GameFrame.java:253-263 | Network play runs the network update on the iteration's focus and then Render on its session. A focused local window runs GameUpdate and then Render, and keeps the mode field. An unfocused one changes nothing but the trackers. No update restarts the loop. |
| GameLoop.Iterate | src/mu/nu/nullpo/gui/swing/GameFrame.java:252-305 | An iteration never restarts the loop. The next frame starts at the loop-end reading. Window and rate follow calcFPS with the period in force at the start of the iteration. |
| GameLoop.IterateKeepsInv | src/mu/nu/nullpo/gui/swing/GameFrame.java:252-305 | An iteration keeps the loop invariant: session ranges, fresh period, rate in band, no window overflow, counter below 16. |
| GameLoop.Run | src/mu/nu/nullpo/gui/swing/GameFrame.java:252-305 | The loop runs at most one iteration per input. It stops early only when the screen is no longer running, and it runs none once stopped. An iteration that shuts the screen down is the last one. |
| GameLoop.RunKeepsInv | src/mu/nu/nullpo/gui/swing/GameFrame.java:252-305 | The loop invariant holds after any number of iterations. |
| GameLoop.ScreenshotSavedSameIteration | src/mu/nu/nullpo/gui/swing/GameFrame.java:473-475 | A screenshot requested in a focused local tick is saved by the same iteration's render when that gets as far as drawing. |

## Left out

- Drawing (`gameRender`, `gameRenderNet`) is left out except for consuming the screenshot request. This includes the pause menu, the FPS display and the observer line, saving the image, and buffer strategy. A render that gives up early is an input.
- Key trackers (`GameKeySwing`) are left out. Their answers after `update()` are inputs. A tracker cleared mid-tick is assumed to answer false for the rest of the tick. That class is not part of this model.
- Game manager internals (`updateAll`, `reset`, `inputStatusUpdate`, `netplayOnRetryKey`, `enterNewMode`) are left out. They appear only as counted or recorded calls. `reset` is assumed not to touch the replay flags.
- Sounds are recorded by name but not played.
- Threads and the clock are not modelled. `System.nanoTime` readings are inputs, and `Thread.sleep`, `Thread.yield` and the busy wait are returned actions. `running` is volatile and can be cleared from another thread; only the loop's own check is modelled.
- The body of `shutdown()` is left out apart from clearing `running`: image flush, lobby shutdown, window visibility, `System.gc`. So are the manager shutdown and the observer start and stop around the loop, and the logging.
- Exceptions caught in `gameUpdateNet` are not modelled. An exception there skips the rest of the tick.
- In perfect-FPS mode a configured rate of 0 divides by zero and ends the thread. `Pacing.Pace`, `GameLoop.Iterate` and `GameLoop.Run` require that this does not happen (`GameLoop.Runnable`).
- RateControl.Period: uses exact truncated division for `(long) (1.0 / rate * 1e9)`. The double computation can round to a value one nanosecond lower.
- RateControl.Measure: uses exact real division instead of double arithmetic.
- RateControl.Nudge: does not model 32-bit overflow of `maxfps + 10`, `maxfps - 1` and `maxfps + 1` for configured rates near Integer.MAX_VALUE.
- GameLoop.StartLoopEstablishes: needs the window carried from an earlier run to fit the new period. run() does not reset `calcInterval`, so a re-run with rate 0 after a partial window would overflow the accumulation. The lemmas do not cover negative configured rates.
- Session.GameUpdate: requires `WellFormed`: a present manager has engine 0 and at least min(players, 2) engines. The source reads `engine[0]` unguarded at GameFrame.java:413 (in replay mode without re-record) and `engine[i]` at :445, so a null or short engine array throws out of `gameUpdate` whenever the tick reaches one of those reads, and the loop thread then ends without the manager shutdown. That outcome is not modelled. The requires also excludes ticks that never reach those reads, for example a paused tick outside replay with frame-step off. `Session.FedSlots`, `Session.Advance`, `Session.MidTick`, `Session.Steps` and the `GameLoop` members carry the same requires.
- Reading the configuration (`propConfig`) is left out. Its values are the `Config` input; `showfps`, `syncDisplay` and the observer client only affect drawing and I/O.
- `gameUpdateNet` reads player 1's screenshot key without updating that tracker. Its answers are an input like player 0's.
