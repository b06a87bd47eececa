# Nativo Prebid Android SDK: viewability engine and bid rules, in Dafny

This project models the core of the Nativo extension to the Prebid Mobile Android SDK and
proves properties of the model.

**Viewability engine**
- `PausableCountDownTimer` is a single-shot countdown that can be paused and resumed.
  - Module `PausableTimer` gives it as a pure transition system: `Step` for one operation, `Run` for a sequence.
  - The class `PausableCountDownTimer` is proved to follow `Step` one operation at a time.
  - The Android clock is an explicit `now` argument. The inner `android.os.CountDownTimer` is a handle object, and its `onFinish` is the explicit `Fire` step.
- `NativoUtils.debounceAction` is a time gate.
  - Module `Debounce` models it as a `Debouncer` class with its `lastCall` field.
  - Ghost logs record every call and every call that ran the action.
- `NativoCreativeVisibilityTracker` is the per-view state machine (module `Exposure`).
  - A pure model covers one check of one checker (`CheckChecker`) and one check of the whole checker list (`CheckAll`).
  - The class is proved to follow it.
  - Android supplies several inputs, which arrive as a `Host` value:
    - the clock;
    - whether the weakly held view still exists;
    - which `ViewTreeObserver`s are alive and the topmost view's observer;
    - each checker's visibility verdict.

**Bid rules**
- `NativoBidResponse` (module `Bids`):
  - picks the first highest-priced bid over all seatbids;
  - writes the eight targeting keys and the renderer meta into that bid.
- `NativoBidExt.isOwnedOperated` (module `BidExt`) reads `ext.nativo.oo` from an abstract JSON value.
- `NativoServerProxy` (module `ServerProxy`) stores the Nativo response and decides the winner against a Prebid response.
- `NativoStandaloneBannerHandler` (module `BannerHandler`) tells its listener which SDK won.
- `NativoParameterBuilder` (module `ParameterBuilder`) patches the outgoing bid request in place.

Prices are Kotlin `Double`s and are modelled as `real`s, with no NaN and no infinities.

## Behaviour the code has that its names and comments do not suggest

The model follows the code in each of these cases:

- **`cancel()` keeps `timeLeftMillis` and `isFinished`.**
  - The KDoc of `cancel` (PausableCountDownTimer.kt:70) says it "clears the state". The code calls `cancelInternal(resetTime = false)`, which clears the running and paused flags and the inner timer and zeroes `startTimeMillis`, but keeps `timeLeftMillis` and `isFinished`.
  - See `PausableTimer.PausableCountDownTimer.Cancel` and `PausableTimer.CancelNeverFinishes`.
- **`isFinished` is never cleared.**
  - This holds even across `start()`, whose KDoc (line 31) calls it a restart from the full duration.
  - See `PausableTimer.FinishedIsMonotone`.
- **Stopping cancels no timer.**
  - `stopVisibilityCheck` (NativoCreativeVisibilityTracker.kt:102-117) only removes the listeners and clears the observer reference, despite the "fully stop" comment at line 189.
  - See `Exposure.StopIsIdempotent`.
- **Stopping does not end tracking.**
  - After an auto-stop (lines 189-192), checks still run and still notify the listener:
    - `restartVisibilityCheck` (lines 98-100) still sends a check through the gate;
    - a timer that is still running calls `runViewabilityCheck` itself when it completes (lines 164-166);
    - `startVisibilityCheck` registers the scroll and layout listeners again on a live root observer and calls the gate (lines 84-93).
  - See `Exposure.CheckAfterStopStillNotifies` and `Exposure.NativoCreativeVisibilityTracker.StartVisibilityCheck`.
- **Timer completion bypasses the debounce gate.**
  - The 150 ms interval is commented as the throttle for visibility checks (line 212). A timer's completion calls `runViewabilityCheck` directly (lines 164-166).
  - See `Exposure.NativoCreativeVisibilityTracker.OnTimerFinish`.
- **A paused timer is never resumed.**
  - The timer class supports resume (its KDoc, lines 6-14). No branch of the check calls `resume()`, so a timer paused before it finished stays paused, and that option never reports an impression.
  - See `Exposure.PausedTimerBlocksImpression`.
- **The gate is leading-edge only.**
  - Any number of triggers in one 150 ms window run at most one check, and none after a call inside that window has already run. No trailing call is run later.
  - See `Debounce.OneWindowRunsAtMostOnce` and `Debounce.NothingAdmittedAfterWindowStart`.

## Model

| member | source | states |
|---|---|---|
| `PausableTimer.StepKeepsInv` | PrebidMobile/PrebidMobile-core/src/main/java/com/nativo/prebidsdk/utils/PausableCountDownTimer.kt:33-116 | every operation keeps the timer never both running and paused, with time left whenever it is running or paused |
| `PausableTimer.RunKeepsInv` | PrebidMobile/PrebidMobile-core/src/main/java/com/nativo/prebidsdk/utils/PausableCountDownTimer.kt:33-116 | the same invariant holds after any sequence of operations |
| `PausableTimer.FinishedIsMonotone` | PrebidMobile/PrebidMobile-core/src/main/java/com/nativo/prebidsdk/utils/PausableCountDownTimer.kt:96-116 | once `isFinished` is set, no sequence of operations (start and cancel included) clears it |
| `PausableTimer.IdleTimerStaysQuiet` | PrebidMobile/PrebidMobile-core/src/main/java/com/nativo/prebidsdk/utils/PausableCountDownTimer.kt:41-68 | a timer neither running nor paused stays so, and never invokes onFinish, until a new start |
| `PausableTimer.FinishesBoundedByStarts` | PrebidMobile/PrebidMobile-core/src/main/java/com/nativo/prebidsdk/utils/PausableCountDownTimer.kt:76-104 | onFinish runs at most once per start, plus once for a countdown already in progress |
| `PausableTimer.StartThenFinish` | PrebidMobile/PrebidMobile-core/src/test/java/com/nativo/prebidsdk/utils/PausableCountDownTimerTest.kt:32-45 | start and then the inner timer's finish: onFinish exactly once, not running, not paused, no time left |
| `PausableTimer.PauseResumeFinishOnce` | PrebidMobile/PrebidMobile-core/src/test/java/com/nativo/prebidsdk/utils/PausableCountDownTimerTest.kt:48-92 | a pause before the deadline keeps `total - elapsed` (between 1 and total) without finishing; resuming and finishing then invokes onFinish exactly once |
| `PausableTimer.LatePauseFinishes` | PrebidMobile/PrebidMobile-core/src/main/java/com/nativo/prebidsdk/utils/PausableCountDownTimer.kt:44-54 | a pause at or after the deadline finishes the timer there, with onFinish once |
| `PausableTimer.CancelNeverFinishes` | PrebidMobile/PrebidMobile-core/src/test/java/com/nativo/prebidsdk/utils/PausableCountDownTimerTest.kt:95-106 | after cancel no operation short of a new start invokes onFinish, and cancel leaves the time left as it was |
| `PausableTimer.PausableCountDownTimer.constructor` | PrebidMobile/PrebidMobile-core/src/main/java/com/nativo/prebidsdk/utils/PausableCountDownTimer.kt:15-29 | a new timer has the whole duration left, no inner timer, and no flag set |
| `PausableTimer.PausableCountDownTimer.Start` | PrebidMobile/PrebidMobile-core/src/main/java/com/nativo/prebidsdk/utils/PausableCountDownTimer.kt:33-37 | a positive duration: full time left, running from `now`, not paused, a fresh inner timer; a non-positive one: finished at once with onFinish invoked |
| `PausableTimer.PausableCountDownTimer.Pause` | PrebidMobile/PrebidMobile-core/src/main/java/com/nativo/prebidsdk/utils/PausableCountDownTimer.kt:41-55 | no change unless running; otherwise time left drops by the elapsed time, the inner timer goes, and the timer finishes if no time is left, else is paused |
| `PausableTimer.PausableCountDownTimer.Resume` | PrebidMobile/PrebidMobile-core/src/main/java/com/nativo/prebidsdk/utils/PausableCountDownTimer.kt:59-68 | no change unless paused, not running and with time left; otherwise running from `now` on a fresh inner timer with the saved time left |
| `PausableTimer.PausableCountDownTimer.Cancel` | PrebidMobile/PrebidMobile-core/src/main/java/com/nativo/prebidsdk/utils/PausableCountDownTimer.kt:72-74 | not running, not paused, no inner timer, start time 0, time left and `isFinished` unchanged, no onFinish |
| `PausableTimer.PausableCountDownTimer.Fire` | PrebidMobile/PrebidMobile-core/src/main/java/com/nativo/prebidsdk/utils/PausableCountDownTimer.kt:85-92 | the inner timer's onFinish finishes the wrapper and invokes onFinish once |
| `PausableTimer.PausableCountDownTimer.CreateAndStartTimer` | PrebidMobile/PrebidMobile-core/src/main/java/com/nativo/prebidsdk/utils/PausableCountDownTimer.kt:76-93 | a non-positive duration finishes at once; otherwise a fresh inner timer of that duration, running from `now` |
| `PausableTimer.PausableCountDownTimer.FinishInternal` | PrebidMobile/PrebidMobile-core/src/main/java/com/nativo/prebidsdk/utils/PausableCountDownTimer.kt:96-104 | no inner timer, no time left, not running, not paused, finished, onFinish invoked once |
| `PausableTimer.PausableCountDownTimer.CancelInternal` | PrebidMobile/PrebidMobile-core/src/main/java/com/nativo/prebidsdk/utils/PausableCountDownTimer.kt:107-116 | no inner timer, flags cleared, start time 0, full time restored only when asked |
| `Debounce.Admitted` | PrebidMobile/PrebidMobile-core/src/main/java/com/nativo/prebidsdk/utils/NativoUtils.kt:10-16 | the calls that run the action are among the calls made, never more of them |
| `Debounce.AdmittedSnoc` | PrebidMobile/PrebidMobile-core/src/main/java/com/nativo/prebidsdk/utils/NativoUtils.kt:12-14 | one more call runs the action exactly when it comes at least the interval after the last call that ran it |
| `Debounce.AdmittedIsSpaced` | PrebidMobile/PrebidMobile-core/src/main/java/com/nativo/prebidsdk/utils/NativoUtils.kt:11-14 | consecutive calls that ran the action are at least the interval apart, the first at least the interval after the initial `lastCall` |
| `Debounce.SpacedPairwise` | PrebidMobile/PrebidMobile-core/src/main/java/com/nativo/prebidsdk/utils/NativoUtils.kt:11-14 | with a non-negative interval, any two calls that ran the action are at least the interval apart |
| `Debounce.NothingAdmittedAfterWindowStart` | PrebidMobile/PrebidMobile-core/src/main/java/com/nativo/prebidsdk/utils/NativoUtils.kt:12-16 | after a call inside a window has run, no later call inside that window runs; they are dropped |
| `Debounce.OneWindowRunsAtMostOnce` | PrebidMobile/PrebidMobile-core/src/main/java/com/nativo/prebidsdk/utils/NativoUtils.kt:11-14 | any number of calls inside one window of the interval's length run the action at most once |
| `Debounce.Debouncer.constructor` | PrebidMobile/PrebidMobile-core/src/main/java/com/nativo/prebidsdk/utils/NativoUtils.kt:7-8 | a new gate has `lastCall` 0 and its own state, so the first call runs iff `now >= intervalMs` |
| `Debounce.Debouncer.Call` | PrebidMobile/PrebidMobile-core/src/main/java/com/nativo/prebidsdk/utils/NativoUtils.kt:9-16 | runs iff `now - lastCall >= intervalMs`; a run sets `lastCall := now`, a dropped call leaves it; only this gate changes |
| `Exposure.CheckChecker` | PrebidMobile/PrebidMobile-core/src/main/java/com/nativo/prebidsdk/exposure/NativoCreativeVisibilityTracker.kt:153-187 | reports iff visible, timer finished and option not yet tracked, and then sets the flag; the first visible check creates a timer of `minimumVisibleMillis` started at `now` (finishing at once for a non-positive minimum); later visible checks leave it alone, invisible ones pause it, and each case's onFinish count is stated |
| `Exposure.ImpressionAtMostOnce` | PrebidMobile/PrebidMobile-core/src/main/java/com/nativo/prebidsdk/exposure/NativoCreativeVisibilityTracker.kt:172-175 | over any sequence of checks and timer completions an option reports at most once (never if already tracked), and its flag stays set |
| `Exposure.NeverVisibleNeverFires` | PrebidMobile/PrebidMobile-core/src/main/java/com/nativo/prebidsdk/exposure/NativoCreativeVisibilityTracker.kt:161-178 | a view that is never visible gets no timer and reports no impression |
| `Exposure.PausedTimerBlocksImpression` | PrebidMobile/PrebidMobile-core/src/main/java/com/nativo/prebidsdk/exposure/NativoCreativeVisibilityTracker.kt:161-178 | a timer paused before it finished stays paused whatever later checks see, and its option never reports |
| `Exposure.VisibleUntilTimerFinishesReportsOnce` | PrebidMobile/PrebidMobile-core/src/main/java/com/nativo/prebidsdk/exposure/NativoCreativeVisibilityTracker.kt:160-175 | visible, timer finishes, visible again twice: exactly one impression |
| `Exposure.StopIsIdempotent` | PrebidMobile/PrebidMobile-core/src/main/java/com/nativo/prebidsdk/exposure/NativoCreativeVisibilityTracker.kt:102-117 | stopping twice is stopping once, and stopping leaves every checker and timer as it was |
| `Exposure.CheckReportsOncePerChecker` | PrebidMobile/PrebidMobile-core/src/main/java/com/nativo/prebidsdk/exposure/NativoCreativeVisibilityTracker.kt:146-187 | a gone view stops and notifies nobody; a live one yields one result per checker, in list order, each that checker's own step; the listener, and no one else, receives exactly those results in that order |
| `Exposure.CheckAfterStopStillNotifies` | PrebidMobile/PrebidMobile-core/src/main/java/com/nativo/prebidsdk/exposure/NativoCreativeVisibilityTracker.kt:146-193 | a check of a live view whose observer reference was cleared by a stop still yields one result per checker and notifies the listener of each |
| `Exposure.ObserverSetIsIdempotent` | PrebidMobile/PrebidMobile-core/src/main/java/com/nativo/prebidsdk/exposure/NativoCreativeVisibilityTracker.kt:119-144 | setting up the observer twice against the same host is setting it up once, and it never touches checkers or notifications |
| `Exposure.CheckStopsWhenAllTracked` | PrebidMobile/PrebidMobile-core/src/main/java/com/nativo/prebidsdk/exposure/NativoCreativeVisibilityTracker.kt:189-192 | after a live check, tracking stops iff every option is tracked and `proceedAfterImpTracking` is false; tracked options stay tracked |
| `Exposure.NativoCreativeVisibilityTracker.constructor` | PrebidMobile/PrebidMobile-core/src/main/java/com/nativo/prebidsdk/exposure/NativoCreativeVisibilityTracker.kt:59-78 | one checker per option, in order; a fresh 150 ms gate; no observer, no listener, no timer |
| `Exposure.NativoCreativeVisibilityTracker.SetVisibilityTrackerListener` | PrebidMobile/PrebidMobile-core/src/main/java/com/nativo/prebidsdk/exposure/NativoCreativeVisibilityTracker.kt:80-82 | replaces the listener |
| `Exposure.NativoCreativeVisibilityTracker.StopVisibilityCheck` | PrebidMobile/PrebidMobile-core/src/main/java/com/nativo/prebidsdk/exposure/NativoCreativeVisibilityTracker.kt:102-117 | removes the listeners from a still-live observer, then always clears the reference |
| `Exposure.NativoCreativeVisibilityTracker.SetViewTreeObserver` | PrebidMobile/PrebidMobile-core/src/main/java/com/nativo/prebidsdk/exposure/NativoCreativeVisibilityTracker.kt:119-144 | no change while the stored observer is alive; otherwise registers on the root observer only if it exists and is alive |
| `Exposure.NativoCreativeVisibilityTracker.AllImpressionsFired` | PrebidMobile/PrebidMobile-core/src/main/java/com/nativo/prebidsdk/exposure/NativoCreativeVisibilityTracker.kt:199-207 | true iff every option's flag is set (vacuously for none) |
| `Exposure.NativoCreativeVisibilityTracker.NotifyListener` | PrebidMobile/PrebidMobile-core/src/main/java/com/nativo/prebidsdk/exposure/NativoCreativeVisibilityTracker.kt:195-197 | one callback to the listener if there is one, none otherwise |
| `Exposure.NativoCreativeVisibilityTracker.CheckVisible` | PrebidMobile/PrebidMobile-core/src/main/java/com/nativo/prebidsdk/exposure/NativoCreativeVisibilityTracker.kt:161-175 | the visible branch moves checker i exactly as `CheckChecker` does and changes no other checker |
| `Exposure.NativoCreativeVisibilityTracker.CheckHidden` | PrebidMobile/PrebidMobile-core/src/main/java/com/nativo/prebidsdk/exposure/NativoCreativeVisibilityTracker.kt:176-178 | the invisible branch pauses checker i's timer, if any, exactly as `CheckChecker` does |
| `Exposure.NativoCreativeVisibilityTracker.CheckOne` | PrebidMobile/PrebidMobile-core/src/main/java/com/nativo/prebidsdk/exposure/NativoCreativeVisibilityTracker.kt:153-187 | one loop iteration: checker i's step, its result, and one notification of that result |
| `Exposure.NativoCreativeVisibilityTracker.CheckEach` | PrebidMobile/PrebidMobile-core/src/main/java/com/nativo/prebidsdk/exposure/NativoCreativeVisibilityTracker.kt:153-187 | the loop leaves every checker in its `CheckChecker` state and notifies the results in list order |
| `Exposure.NativoCreativeVisibilityTracker.RunViewabilityCheck` | PrebidMobile/PrebidMobile-core/src/main/java/com/nativo/prebidsdk/exposure/NativoCreativeVisibilityTracker.kt:146-193 | the new tracker state and the results are those of `CheckAll` |
| `Exposure.NativoCreativeVisibilityTracker.RestartVisibilityCheck` | PrebidMobile/PrebidMobile-core/src/main/java/com/nativo/prebidsdk/exposure/NativoCreativeVisibilityTracker.kt:98-100 | a check runs iff the shared 150 ms gate lets the call through; otherwise nothing changes |
| `Exposure.NativoCreativeVisibilityTracker.StartVisibilityCheck` | PrebidMobile/PrebidMobile-core/src/main/java/com/nativo/prebidsdk/exposure/NativoCreativeVisibilityTracker.kt:84-93 | a gone view changes nothing, not even the gate; otherwise the observer is set up and the gated check is attempted |
| `Exposure.NativoCreativeVisibilityTracker.OnTimerFinish` | PrebidMobile/PrebidMobile-core/src/main/java/com/nativo/prebidsdk/exposure/NativoCreativeVisibilityTracker.kt:165-167 | a running timer's completion finishes it and runs a check directly, without the gate |
| `Bids.WinnerIndex` | PrebidMobile/PrebidMobile-core/src/main/java/com/nativo/prebidsdk/bid/NativoBidResponse.kt:28-40 | -1 iff there are no prices; otherwise an index whose price is at least every price, with every earlier price strictly lower |
| `Bids.FirstMaximumIsWinnerIndex` | PrebidMobile/PrebidMobile-core/src/main/java/com/nativo/prebidsdk/bid/NativoBidResponse.kt:33-36 | the first maximum is the only index the scan can return: ties go to the earlier bid |
| `Bids.Winner` | PrebidMobile/PrebidMobile-core/src/main/java/com/nativo/prebidsdk/bid/NativoBidResponse.kt:29-39 | no winner iff there are no bids |
| `Bids.WinnerIsFirstMaximum` | PrebidMobile/PrebidMobile-core/src/main/java/com/nativo/prebidsdk/bid/NativoBidResponse.kt:28-40 | the winner is a highest-priced bid, and every bid before it is strictly cheaper |
| `Bids.AllBidsMembers` | PrebidMobile/PrebidMobile-core/src/main/java/com/nativo/prebidsdk/bid/NativoBidResponse.kt:31-32 | the seatbid-by-seatbid scan visits every bid of every seatbid and nothing else |
| `Bids.SelectWinningBid` | PrebidMobile/PrebidMobile-core/src/main/java/com/nativo/prebidsdk/bid/NativoBidResponse.kt:28-40 | the nested loop with strict `>` returns the first highest-priced bid over all seatbids |
| `Bids.WinnerOfSeatbids` | PrebidMobile/PrebidMobile-core/src/main/java/com/nativo/prebidsdk/bid/NativoBidResponse.kt:28-40 | the winner is null iff every seatbid is empty; otherwise it is a bid of some seatbid priced at least every bid of every seatbid |
| `Bids.IntToStringRoundTrip` | PrebidMobile/PrebidMobile-core/src/main/java/com/nativo/prebidsdk/bid/NativoBidResponse.kt:43-45 | the decimal text of a width or height reads back as that number |
| `Bids.SizeText` | PrebidMobile/PrebidMobile-core/src/main/java/com/nativo/prebidsdk/bid/NativoBidResponse.kt:45 | the size string is the width's text, `x`, then the height's text |
| `Bids.NativoTargeting` | PrebidMobile/PrebidMobile-core/src/main/java/com/nativo/prebidsdk/bid/NativoBidResponse.kt:48-56 | exactly the eight keys, each plain key equal to its `_nativo` twin: `mobile-app`, the size, `nativo`, the price text |
| `Bids.TargetingWrites` | PrebidMobile/PrebidMobile-core/src/main/java/com/nativo/prebidsdk/bid/NativoBidResponse.kt:49-56 | the eight writes in source order amount to merging the eight entries into the map |
| `Bids.TargetingTouchesOnlyItsKeys` | PrebidMobile/PrebidMobile-core/src/main/java/com/nativo/prebidsdk/bid/NativoBidResponse.kt:42-57 | after the writes the keys are the old ones plus the eight; every other key keeps its value |
| `Bids.ApplyTargeting` | PrebidMobile/PrebidMobile-core/src/main/java/com/nativo/prebidsdk/bid/NativoBidResponse.kt:42-57 | the bid's targeting map becomes the old map with the eight entries written; nothing else changes |
| `Bids.ApplyRendererMeta` | PrebidMobile/PrebidMobile-core/src/main/java/com/nativo/prebidsdk/bid/NativoBidResponse.kt:59-63 | the meta map gets the renderer name `NativoRenderer` and version `1.0.0` under the renderer keys |
| `Bids.BidResponse.constructor` | PrebidMobile/PrebidMobile-core/src/main/java/com/nativo/prebidsdk/bid/NativoBidResponse.kt:16-22 | the selected winner, and only it, gets the targeting and meta writes; with no winner no map changes |
| `Bids.BidResponse.GetWinningBid` | PrebidMobile/PrebidMobile-core/src/main/java/com/nativo/prebidsdk/bid/NativoBidResponse.kt:24-26 | the Nativo-selected bid when present, otherwise the superclass's winning bid |
| `BidExt.LongToInt` | PrebidMobile/PrebidMobile-core/src/main/java/com/nativo/prebidsdk/bid/NativoBidExt.kt:23 | a whole number's `toInt` is a 32-bit value congruent to it modulo 2^32 |
| `BidExt.DoubleToInt` | PrebidMobile/PrebidMobile-core/src/main/java/com/nativo/prebidsdk/bid/NativoBidExt.kt:23 | a decimal's `toInt` is `Int.MAX_VALUE` at or above it, `Int.MIN_VALUE` at or below that, and the value truncated toward zero in between |
| `BidExt.LongToIntNonZero` | PrebidMobile/PrebidMobile-core/src/main/java/com/nativo/prebidsdk/bid/NativoBidExt.kt:23 | a whole-number flag is true iff it is not a multiple of 2^32 |
| `BidExt.DoubleToIntNonZero` | PrebidMobile/PrebidMobile-core/src/main/java/com/nativo/prebidsdk/bid/NativoBidExt.kt:23 | a decimal flag is true iff its magnitude is at least 1 |
| `BidExt.IsOwnedOperated` | PrebidMobile/PrebidMobile-core/src/main/java/com/nativo/prebidsdk/bid/NativoBidExt.kt:12-29 | true iff there is a bid with JSON text that parses, and the value at path `ext`/`nativo`/`oo` is `true`, a whole number beyond the Long range (read as a Double, which saturates) or within it and not a multiple of 2^32, or a decimal of magnitude at least 1; false in every other case, parse failure included |
| `BidExt.MissingNativoObjectIsNotOwned` | PrebidMobile/PrebidMobile-core/src/main/java/com/nativo/prebidsdk/bid/NativoBidExt.kt:18-20 | a root that is not an object, a missing `ext` object or a missing `ext.nativo` object gives false |
| `ServerProxy.GetBidFromResponse` | PrebidMobile/PrebidMobile-core/src/main/java/com/nativo/prebidsdk/server/NativoServerProxy.kt:58-60 | null for a null response, else the response's winning bid |
| `ServerProxy.GetBidPrice` | PrebidMobile/PrebidMobile-core/src/main/java/com/nativo/prebidsdk/server/NativoServerProxy.kt:62-65 | 0.0 when the response or its winning bid is missing, else that bid's price |
| `ServerProxy.NativoServerProxy.constructor` | PrebidMobile/PrebidMobile-core/src/main/java/com/nativo/prebidsdk/server/NativoServerProxy.kt:13-17 | no stored response and no callback yet |
| `ServerProxy.NativoServerProxy.RequestNativoBid` | PrebidMobile/PrebidMobile-core/src/main/java/com/nativo/prebidsdk/server/NativoServerProxy.kt:19-24 | the stored response is cleared before the request goes out |
| `ServerProxy.NativoServerProxy.OnBidsResponse` | PrebidMobile/PrebidMobile-core/src/main/java/com/nativo/prebidsdk/server/NativoServerProxy.kt:26-36 | the response (or null) is stored; the callback runs once, with (null, false) when there is no response |
| `ServerProxy.NativoServerProxy.DecideWinner` | PrebidMobile/PrebidMobile-core/src/main/java/com/nativo/prebidsdk/server/NativoServerProxy.kt:40-56 | always one of the two candidates; no Prebid response gives the stored one; no stored one gives the Prebid one; with both, the Nativo response iff its price is at least the Prebid price |
| `ServerProxy.WinnerPriceIsMaximal` | PrebidMobile/PrebidMobile-core/src/main/java/com/nativo/prebidsdk/server/NativoServerProxy.kt:49-55 | with both present, the winner's price is at least each candidate's price |
| `BannerHandler.BannerWinner` | PrebidMobile/PrebidMobile-core/src/main/java/com/nativo/prebidsdk/handlers/NativoStandaloneBannerHandler.kt:25-27 | Nativo wins iff its price is at least the Prebid price, a missing response or bid counting as 0.0 |
| `BannerHandler.Reported` | PrebidMobile/PrebidMobile-core/src/main/java/com/nativo/prebidsdk/handlers/NativoStandaloneBannerHandler.kt:27-31 | exactly one callback with a listener, none without |
| `BannerHandler.NativoStandaloneBannerHandler.constructor` | PrebidMobile/PrebidMobile-core/src/main/java/com/nativo/prebidsdk/handlers/NativoStandaloneBannerHandler.kt:10 | no listener and no callback yet |
| `BannerHandler.NativoStandaloneBannerHandler.SetBannerEventListener` | PrebidMobile/PrebidMobile-core/src/main/java/com/nativo/prebidsdk/handlers/NativoStandaloneBannerHandler.kt:16-18 | replaces any previous listener |
| `BannerHandler.NativoStandaloneBannerHandler.RequestAdWithBid` | PrebidMobile/PrebidMobile-core/src/main/java/com/nativo/prebidsdk/handlers/NativoStandaloneBannerHandler.kt:20-22 | always reports a Prebid win, to the listener if there is one |
| `BannerHandler.NativoStandaloneBannerHandler.RequestAdWithBidResponses` | PrebidMobile/PrebidMobile-core/src/main/java/com/nativo/prebidsdk/handlers/NativoStandaloneBannerHandler.kt:24-32 | reports exactly one of the two wins, as `BannerWinner` decides, and nothing without a listener |
| `BannerHandler.NoResponsesNativoWins` | PrebidMobile/PrebidMobile-core/src/main/java/com/nativo/prebidsdk/handlers/NativoStandaloneBannerHandler.kt:25-27 | with both responses missing, Nativo wins |
| `BannerHandler.HandlerAgreesWithDecideWinner` | PrebidMobile/PrebidMobile-core/src/main/java/com/nativo/prebidsdk/handlers/NativoStandaloneBannerHandler.kt:24-32 | with both responses present, the handler reports a Nativo win iff the proxy's decideWinner picks the Nativo response |
| `ParameterBuilder.NativoParameterBuilder.AppendBuilderParameters` | PrebidMobile/PrebidMobile-core/src/main/java/com/nativo/prebidsdk/networking/NativoParameterBuilder.kt:11-21 | device IP becomes `108.214.18.218` and every imp's tagid becomes the config id; the imp list and every other field are left as they were |

## Left out

- `Host.viewAlive` is a fresh input on every operation, so the model lets a gone view come back.
  - In the code the view is held by a `WeakReference` (NativoCreativeVisibilityTracker.kt:31). Once the collector clears it, it stays null, and every later check takes the stop branch (lines 147-151).
  - The model over-approximates here. No lemma relies on a view coming back.
- Concurrency (`@Synchronized`, `AtomicLong`): every public operation is one atomic step.
- 64-bit `Long` arithmetic on times and durations: times are unbounded integers, so overflow of the clock difference is not modelled.
- Android classes are replaced by inputs:
  - `SystemClock` becomes the `now` argument.
  - `CountDownTimer` becomes a handle whose completion is the `Fire` step. Its empty `onTick` is not modelled.
  - The `ViewTreeObserver` becomes an id plus a set of live observers.
  - `Views.getTopmostView` becomes the host's root observer.
  - `ViewExposureChecker` and `VisibilityChecker.isVisible` become one visibility verdict per checker.
  - The `ViewExposure` carried in each `VisibilityTrackerResult` is dropped.
- Exposure.NativoCreativeVisibilityTracker.RunViewabilityCheck: runs no nested check.
  - In the code, a timer that finishes inside a check (a non-positive `minimumVisibleMillis`, or a pause past the deadline) calls `runViewabilityCheck` re-entrantly. Here that call is counted in `recheckRequests` and not run.
  - With a non-positive minimum, the code's nested check reports the impression and the outer check then sees the flag set. In the model, the outer check reports it. Either way it is reported once.
- The tracker keeps each checker's timer as the timer's state, advanced with the same `Step` that `PausableCountDownTimer` is proved to follow, rather than as a timer object. Each timer is created by the tracker and referenced from nowhere else, so no sharing is lost.
- The tracker's two single-option constructors only wrap the option in a one-element set. They are not separate members.
- The Kotlin constructor takes a `Set` of options; the model takes a sequence of distinct options in iteration order.
- Logging (`LogUtil`) throughout, including the proxy's error log on a failed request.
- `NativoBidRequester` (network I/O) is not part of this model:
  - the request is a separate call from its completion;
  - the requester's `shouldRenderImmediately` answer is an input of the completion.
- `NativoPrebidRenderer`, `NativoDisplayView`, `NativoPathBuilder` and the two requester interfaces are not part of this model. They are UI construction, a constant URL, and interfaces without logic.
- The Prebid superclass `BidResponse` is not modelled:
  - its JSON parsing into seatbids and its own `getWinningBid` are inputs of the response;
  - the renderer meta key names (`KEY_RENDERER_NAME`, `KEY_RENDERER_VERSION`) belong to that library and are inputs of `ApplyRendererMeta`.
- `Double` prices: no NaN or infinities. `Double.toString` of the price is an abstract function passed to the response.
- The `org.json` parser is an input function:
  - a `JSONException` is `None`;
  - numbers are whole-number literals (Integer or Long inside the Long range, Double beyond it) and decimals. A decimal's `JDouble` holds the value of the Double org.json parsed, not the literal as written (`0.99999999999999999` is 1.0);
  - a whole number beyond the Long range is converted from its exact value, not from its nearest Double. This does not change the flag, since both saturate;
  - `BigInteger` and `BigDecimal` values are not modelled.
- The banner handler's `getAdSizeArray`, `trackImpression` and `destroy` have no logic (an empty array and empty bodies).
- Only the request fields the parameter builder touches (`device.ip`, each imp's `tagid`) are modelled, plus one untouched field per object to show that it is left as it was.
