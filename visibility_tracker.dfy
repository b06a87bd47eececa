/**
 * NativoCreativeVisibilityTracker: per-view viewability tracking.
 *
 * One VisibilityChecker per tracking option; each visible check starts (once) a
 * PausableCountDownTimer of the option's minimumVisibleMillis, each invisible check pauses it,
 * and an impression is reported when a visible check finds the timer finished and the option
 * not yet tracked.  What Android supplies to an operation (the clock, whether the weakly held
 * view is still there, which ViewTreeObservers are alive, the topmost view's observer, and the
 * exposure verdict of every checker) is the Host value passed in.
 *
 * The first half is a pure model of one check (CheckChecker for one checker, CheckAll for the
 * whole list); the class below is proved to follow it.
 */
module Exposure {
  import opened Wrappers
  import opened PausableTimer
  import opened Debounce

  /** Time interval used to throttle visibility checks. */
  const VisibilityDebounceMillis: int := 150

  /** The option's event type, identity of a ViewTreeObserver, identity of a listener. */
  type EventType = nat
  type ObserverId = nat
  type ListenerId = nat

  /** What one checker contributes to the tracker's state: its option's flag and its timer, if any. */
  datatype CheckerState = CheckerState(
    minimumVisibleMillis: int,
    impressionTracked: bool,
    timer: Option<TimerState>)

  /** The new state of one checker after a check, what it reports, and how many onFinish calls its timer made. */
  datatype CheckerStep = CheckerStep(next: CheckerState, shouldFireImpression: bool, timerFinishes: nat)

  /** A visible check's timer: a checker without one gets a new timer of its minimum duration, started at `now`. */
  function StartedOnce(s: CheckerState, now: int): Outcome
  {
    if s.timer.None?
    then Step(s.minimumVisibleMillis, Initial(s.minimumVisibleMillis), TimerOp.Start(now))
    else Outcome(s.timer.value, 0)
  }

  /** The body of the checker loop of runViewabilityCheck for one checker. */
  function CheckChecker(s: CheckerState, visible: bool, now: int): (r: CheckerStep)
    ensures r.next.minimumVisibleMillis == s.minimumVisibleMillis
    ensures r.shouldFireImpression <==>
      visible && !s.impressionTracked && r.next.timer.Some? && r.next.timer.value.finished
    ensures r.next.impressionTracked == (s.impressionTracked || r.shouldFireImpression)
    ensures s.timer.Some? ==> r.next.timer.Some?
    ensures s.timer.None? && r.next.timer.Some? ==> visible
    ensures visible ==> r.next.timer.Some?
    ensures visible && s.timer.Some? ==> r.next.timer == s.timer && r.timerFinishes == 0
    ensures visible && s.timer.None? ==>
      var started := Step(s.minimumVisibleMillis, Initial(s.minimumVisibleMillis), TimerOp.Start(now));
      r.next.timer == Some(started.state) && r.timerFinishes == started.finishes
    ensures !visible && s.timer.Some? ==>
      var paused := Step(s.minimumVisibleMillis, s.timer.value, TimerOp.Pause(now));
      r.next.timer == Some(paused.state) && r.timerFinishes == paused.finishes
    ensures !visible && s.timer.None? ==> r.next == s && r.timerFinishes == 0
  {
    var min := s.minimumVisibleMillis;
    if visible then
      var o := StartedOnce(s, now);
      var fire := o.state.finished && !s.impressionTracked;
      CheckerStep(CheckerState(min, s.impressionTracked || fire, Some(o.state)), fire, o.finishes)
    else if s.timer.None? then
      CheckerStep(s, false, 0)
    else
      var o := Step(min, s.timer.value, TimerOp.Pause(now));
      CheckerStep(s.(timer := Some(o.state)), false, o.finishes)
  }

  /** The checker's timer delivers its onFinish (only a running timer has an inner timer to do so). */
  function FireTimer(s: CheckerState): CheckerState
  {
    if s.timer.Some? && s.timer.value.running
    then s.(timer := Some(Step(s.minimumVisibleMillis, s.timer.value, TimerOp.Fire).state))
    else s
  }

  /** What happens to one checker over time: checks with its visibility, and its timer finishing. */
  datatype CheckerEvent = Checked(visible: bool, now: int) | TimerFinished

  datatype Replayed = Replayed(final: CheckerState, impressions: nat)

  /** One checker's state after a sequence of events, and how many impressions it reported. */
  function Replay(s: CheckerState, events: seq<CheckerEvent>): Replayed
    decreases |events|
  {
    if events == [] then Replayed(s, 0)
    else match events[0]
      case TimerFinished => Replay(FireTimer(s), events[1..])
      case Checked(visible, now) =>
        var step := CheckChecker(s, visible, now);
        var rest := Replay(step.next, events[1..]);
        Replayed(rest.final, rest.impressions + (if step.shouldFireImpression then 1 else 0))
  }

  /** Each option reports its impression at most once, and its flag is never cleared. */
  lemma {:induction false} ImpressionAtMostOnce(s: CheckerState, events: seq<CheckerEvent>)
    ensures Replay(s, events).impressions <= (if s.impressionTracked then 0 else 1)
    ensures s.impressionTracked ==> Replay(s, events).final.impressionTracked
    ensures Replay(s, events).impressions == 1 ==> Replay(s, events).final.impressionTracked
    decreases |events|
  {
    if events != [] {
      match events[0]
      case TimerFinished =>
        ImpressionAtMostOnce(FireTimer(s), events[1..]);
      case Checked(visible, now) =>
        ImpressionAtMostOnce(CheckChecker(s, visible, now).next, events[1..]);
    }
  }

  /** A view that is never visible gets no timer and reports no impression. */
  lemma {:induction false} NeverVisibleNeverFires(s: CheckerState, events: seq<CheckerEvent>)
    requires s.timer.None?
    requires forall k :: 0 <= k < |events| ==> events[k].Checked? ==> !events[k].visible
    ensures Replay(s, events) == Replayed(s, 0)
    decreases |events|
  {
    if events != [] {
      NeverVisibleNeverFires(s, events[1..]);
    }
  }

  /**
   * No branch of the check resumes a timer: once a checker's timer is paused before it
   * finishes, it stays paused whatever later checks see, and that option never reports.
   */
  lemma {:induction false} PausedTimerBlocksImpression(s: CheckerState, events: seq<CheckerEvent>)
    requires s.timer.Some? && s.timer.value.paused && !s.timer.value.running && !s.timer.value.finished
    ensures Replay(s, events).impressions == 0
    ensures Replay(s, events).final.timer == s.timer
    ensures Replay(s, events).final.impressionTracked == s.impressionTracked
    decreases |events|
  {
    if events != [] {
      match events[0]
      case TimerFinished =>
        PausedTimerBlocksImpression(s, events[1..]);
      case Checked(visible, now) =>
        PausedTimerBlocksImpression(CheckChecker(s, visible, now).next, events[1..]);
    }
  }

  /** Visible long enough: the first check starts the timer, it finishes, and the next visible check reports once. */
  lemma VisibleUntilTimerFinishesReportsOnce(min: int, t0: int, t1: int, t2: int)
    requires min > 0
    ensures var s := CheckerState(min, false, None);
      Replay(s, [Checked(true, t0), TimerFinished, Checked(true, t1), Checked(true, t2)]).impressions == 1
  {
    var s0 := CheckerState(min, false, None);
    var s1 := CheckChecker(s0, true, t0).next;
    var s2 := FireTimer(s1);
    var st3 := CheckChecker(s2, true, t1);
    assert st3.shouldFireImpression;
    var es := [Checked(true, t0), TimerFinished, Checked(true, t1), Checked(true, t2)];
    assert es[1..] == [TimerFinished, Checked(true, t1), Checked(true, t2)];
    assert es[1..][1..] == [Checked(true, t1), Checked(true, t2)];
    assert es[1..][1..][1..] == [Checked(true, t2)];
    assert Replay(st3.next, [Checked(true, t2)]).impressions == 0;
    assert Replay(s2, es[1..][1..]).impressions == 1;
    assert Replay(s1, es[1..]).impressions == 1;
    assert CheckChecker(s0, true, t0).shouldFireImpression == false;
  }

  /** One listener callback: the listener it went to and the result it carried. */
  datatype VisibilityTrackerResult = VisibilityTrackerResult(eventType: EventType, isVisible: bool, shouldFireImpression: bool)
  datatype Notification = Notification(listener: ListenerId, result: VisibilityTrackerResult)

  /** Listener (un)registrations on a ViewTreeObserver: both the scroll and the global-layout listener. */
  datatype ObserverEvent = ListenersAdded(observer: ObserverId) | ListenersRemoved(observer: ObserverId)

  /** What Android supplies to one tracker operation. */
  datatype Host = Host(
    now: int,
    viewAlive: bool,
    liveObservers: set<ObserverId>,
    rootObserver: Option<ObserverId>,
    visible: seq<bool>)

  /** The tracker's state as values: per-checker state, observer reference, listener and the logs. */
  datatype TrackerView = TrackerView(
    checkers: seq<CheckerState>,
    observer: Option<ObserverId>,
    listener: Option<ListenerId>,
    observerEvents: seq<ObserverEvent>,
    notifications: seq<Notification>,
    recheckRequests: nat)

  datatype CheckOutcome = CheckOutcome(view: TrackerView, results: seq<VisibilityTrackerResult>)

  /** The callbacks a listener (if any) receives for a list of results. */
  function Delivered(listener: Option<ListenerId>, results: seq<VisibilityTrackerResult>): seq<Notification>
  {
    if listener.None? then []
    else seq(|results|, k requires 0 <= k < |results| => Notification(listener.value, results[k]))
  }

  /** stopVisibilityCheck: listeners come off a still-live observer, and the reference is always cleared. */
  function Stopped(v: TrackerView, live: set<ObserverId>): (r: TrackerView)
  {
    v.(observer := None,
       observerEvents := v.observerEvents
         + (if v.observer.Some? && v.observer.value in live then [ListenersRemoved(v.observer.value)] else []))
  }

  /** setViewTreeObserver: keep a live stored observer, otherwise register on the live root observer if there is one. */
  function ObserverSet(v: TrackerView, host: Host): TrackerView
  {
    if v.observer.Some? && v.observer.value in host.liveObservers then v
    else if host.rootObserver.None? then v
    else if host.rootObserver.value !in host.liveObservers then v
    else v.(observer := host.rootObserver,
            observerEvents := v.observerEvents + [ListenersAdded(host.rootObserver.value)])
  }

  predicate AllTracked(states: seq<CheckerState>)
  {
    forall j :: 0 <= j < |states| ==> states[j].impressionTracked
  }

  function CheckSteps(states: seq<CheckerState>, visible: seq<bool>, now: int): (r: seq<CheckerStep>)
    requires |visible| == |states|
    ensures |r| == |states|
    ensures forall j :: 0 <= j < |r| ==> r[j] == CheckChecker(states[j], visible[j], now)
  {
    seq(|states|, j requires 0 <= j < |states| => CheckChecker(states[j], visible[j], now))
  }

  /** onFinish calls made by timers during a check, each a re-entrant request for another check. */
  function TotalFinishes(steps: seq<CheckerStep>): nat
  {
    if steps == [] then 0 else TotalFinishes(steps[..|steps| - 1]) + steps[|steps| - 1].timerFinishes
  }

  function NextStates(steps: seq<CheckerStep>): (r: seq<CheckerState>)
    ensures |r| == |steps| && forall j :: 0 <= j < |r| ==> r[j] == steps[j].next
  {
    seq(|steps|, j requires 0 <= j < |steps| => steps[j].next)
  }

  function StepResults(eventTypes: seq<EventType>, visible: seq<bool>, steps: seq<CheckerStep>): (r: seq<VisibilityTrackerResult>)
    requires |eventTypes| == |visible| == |steps|
    ensures |r| == |steps|
    ensures forall j :: 0 <= j < |r| ==>
      r[j] == VisibilityTrackerResult(eventTypes[j], visible[j], steps[j].shouldFireImpression)
  {
    seq(|steps|, j requires 0 <= j < |steps| =>
      VisibilityTrackerResult(eventTypes[j], visible[j], steps[j].shouldFireImpression))
  }

  /** runViewabilityCheck as a function of the tracker's state. */
  function CheckAll(v: TrackerView, eventTypes: seq<EventType>, proceedAfterImpTracking: bool, host: Host): CheckOutcome
    requires |eventTypes| == |v.checkers| == |host.visible|
  {
    if !host.viewAlive then CheckOutcome(Stopped(v, host.liveObservers), [])
    else
      var steps := CheckSteps(v.checkers, host.visible, host.now);
      var results := StepResults(eventTypes, host.visible, steps);
      var next := v.(checkers := NextStates(steps),
                     notifications := v.notifications + Delivered(v.listener, results),
                     recheckRequests := v.recheckRequests + TotalFinishes(steps));
      if AllTracked(next.checkers) && !proceedAfterImpTracking
      then CheckOutcome(Stopped(next, host.liveObservers), results)
      else CheckOutcome(next, results)
  }

  /** Checker i's timer delivered its onFinish. */
  function FiredAt(v: TrackerView, i: int): TrackerView
    requires 0 <= i < |v.checkers|
  {
    v.(checkers := v.checkers[i := FireTimer(v.checkers[i])])
  }

  /** A left-to-right pass replacing `b` by `a` one index at a time, after i and i + 1 indices. */
  lemma Splice<T>(a: seq<T>, b: seq<T>, i: nat)
    requires |a| == |b| && i <= |a|
    ensures a[..|a|] + b[|a|..] == a
    ensures b == a[..0] + b[0..]
    ensures i < |a| ==> (a[..i] + b[i..])[i := a[i]] == a[..i + 1] + b[i + 1..]
  {
    assert a[..|a|] + b[|a|..] == a;
    assert b == a[..0] + b[0..];
    if i < |a| {
      assert (a[..i] + b[i..])[i := a[i]] == a[..i + 1] + b[i + 1..];
    }
  }

  lemma PrefixSnoc<T>(s: seq<T>, i: nat)
    requires i <= |s|
    ensures s[..|s|] == s
    ensures i < |s| ==> s[..i + 1] == s[..i] + [s[i]] && s[..i + 1][..i] == s[..i]
  {
    assert s[..|s|] == s;
    if i < |s| {
      assert s[..i + 1] == s[..i] + [s[i]];
    }
  }

  lemma AppendAssoc<T>(a: seq<T>, b: seq<T>, c: seq<T>)
    ensures (a + b) + c == a + (b + c)
  {
  }

  lemma DeliveredAppend(listener: Option<ListenerId>, a: seq<VisibilityTrackerResult>, b: seq<VisibilityTrackerResult>)
    ensures Delivered(listener, a + b) == Delivered(listener, a) + Delivered(listener, b)
  {
    if listener.Some? {
      assert forall k :: 0 <= k < |a| + |b| ==> Delivered(listener, a + b)[k] == (Delivered(listener, a) + Delivered(listener, b))[k];
    }
  }

  /** Stopping twice is stopping once, and stopping never touches the checkers or their timers. */
  lemma StopIsIdempotent(v: TrackerView, live: set<ObserverId>)
    ensures Stopped(Stopped(v, live), live) == Stopped(v, live)
    ensures Stopped(v, live).checkers == v.checkers
  {
  }

  /**
   * A check of a live view reports once per checker, in list order, and to the listener only;
   * each report agrees with that checker's own step; a gone view stops tracking and reports nothing.
   */
  lemma CheckReportsOncePerChecker(v: TrackerView, eventTypes: seq<EventType>, proceed: bool, host: Host)
    requires |eventTypes| == |v.checkers| == |host.visible|
    ensures var o := CheckAll(v, eventTypes, proceed, host);
      && (!host.viewAlive ==> o.results == [] && o.view.notifications == v.notifications && o.view.observer.None?)
      && (host.viewAlive ==>
            && |o.results| == |v.checkers|
            && (forall j :: 0 <= j < |v.checkers| ==>
                  o.results[j].eventType == eventTypes[j] && o.results[j].isVisible == host.visible[j]
                  && o.view.checkers[j] == CheckChecker(v.checkers[j], host.visible[j], host.now).next
                  && o.results[j].shouldFireImpression == CheckChecker(v.checkers[j], host.visible[j], host.now).shouldFireImpression)
            && (v.listener.None? ==> o.view.notifications == v.notifications)
            && (v.listener.Some? ==> o.view.notifications == v.notifications + Delivered(v.listener, o.results)))
  {
  }

  /**
   * Stopping does not end tracking: a check of a live view whose observer reference was cleared
   * (by an auto-stop or an explicit stop) still runs every checker and still notifies the listener.
   */
  lemma CheckAfterStopStillNotifies(v: TrackerView, eventTypes: seq<EventType>, proceed: bool, host: Host)
    requires |eventTypes| == |v.checkers| == |host.visible|
    requires v.observer.None? && v.listener.Some? && host.viewAlive && |v.checkers| > 0
    ensures var o := CheckAll(v, eventTypes, proceed, host);
      |o.results| == |v.checkers| && |o.view.notifications| == |v.notifications| + |v.checkers|
  {
    CheckReportsOncePerChecker(v, eventTypes, proceed, host);
  }

  /** setViewTreeObserver twice against the same host is setViewTreeObserver once. */
  lemma ObserverSetIsIdempotent(v: TrackerView, host: Host)
    ensures ObserverSet(ObserverSet(v, host), host) == ObserverSet(v, host)
    ensures ObserverSet(v, host).checkers == v.checkers && ObserverSet(v, host).notifications == v.notifications
  {
  }

  /** Tracking stops after a check exactly when the view is gone, or every option is tracked and no further tracking was asked for. */
  lemma {:induction false} CheckStopsWhenAllTracked(v: TrackerView, eventTypes: seq<EventType>, proceed: bool, host: Host)
    requires |eventTypes| == |v.checkers| == |host.visible|
    ensures var o := CheckAll(v, eventTypes, proceed, host);
      host.viewAlive && AllTracked(o.view.checkers) && !proceed ==> o.view.observer.None?
    ensures var o := CheckAll(v, eventTypes, proceed, host);
      host.viewAlive && !(AllTracked(o.view.checkers) && !proceed) ==> o.view.observer == v.observer
    ensures AllTracked(v.checkers) ==> AllTracked(CheckAll(v, eventTypes, proceed, host).view.checkers)
  {
    if host.viewAlive && AllTracked(v.checkers) {
      var o := CheckAll(v, eventTypes, proceed, host);
      forall j | 0 <= j < |o.view.checkers| ensures o.view.checkers[j].impressionTracked {
        assert o.view.checkers[j] == CheckChecker(v.checkers[j], host.visible[j], host.now).next;
      }
    }
  }

  /** A VisibilityTrackerOption: immutable requirement plus the flag the tracker sets in place. */
  class TrackerOption {
    const eventType: EventType
    const minimumVisibleMillis: int
    var isImpressionTracked: bool

    constructor (eventType: EventType, minimumVisibleMillis: int, isImpressionTracked: bool)
      ensures this.eventType == eventType && this.minimumVisibleMillis == minimumVisibleMillis
      ensures this.isImpressionTracked == isImpressionTracked
    {
      this.eventType := eventType;
      this.minimumVisibleMillis := minimumVisibleMillis;
      this.isImpressionTracked := isImpressionTracked;
    }
  }

  /** A VisibilityChecker for one option; its exposure computation is the Host's verdict. */
  class VisibilityChecker {
    const option: TrackerOption

    constructor (option: TrackerOption)
      ensures this.option == option
    {
      this.option := option;
    }
  }

  class NativoCreativeVisibilityTracker {
    const checkers: seq<VisibilityChecker>
    const proceedAfterImpTracking: bool
    const debouncer: Debouncer
    /** The weakly held ViewTreeObserver; None once cleared. */
    var observer: Option<ObserverId>
    var listener: Option<ListenerId>
    /**
     * viewabilityTimerMap.  Each timer is created here and referenced from nowhere else, so it is
     * held as its state and advanced with Step, the transition function PausableCountDownTimer follows.
     */
    var timers: map<VisibilityChecker, TimerState>
    ghost var observerEvents: seq<ObserverEvent>
    ghost var notifications: seq<Notification>
    /** runViewabilityCheck calls made re-entrantly by timers finishing inside a check. */
    ghost var recheckRequests: nat
    /** The state of every checker, in list order: its option's flag and its timer. */
    ghost var checkerStates: seq<CheckerState>

    /** The options of all checkers: the objects whose flag a check may set. */
    ghost function Options(): set<TrackerOption>
    {
      set j | 0 <= j < |checkers| :: checkers[j].option
    }

    function EventTypes(): (r: seq<EventType>)
      ensures |r| == |checkers| && forall j :: 0 <= j < |checkers| ==> r[j] == checkers[j].option.eventType
    {
      seq(|checkers|, j requires 0 <= j < |checkers| => checkers[j].option.eventType)
    }

    ghost function CheckerAt(j: int): CheckerState
      requires 0 <= j < |checkers|
      reads this`timers, checkers[j].option
    {
      var c := checkers[j];
      CheckerState(c.option.minimumVisibleMillis, c.option.isImpressionTracked,
                   if c in timers then Some(timers[c]) else None)
    }

    ghost predicate Valid()
      reads this`timers, this`checkerStates, Options()
    {
      && (forall i, j :: 0 <= i < j < |checkers| ==> checkers[i] != checkers[j] && checkers[i].option != checkers[j].option)
      && (forall c :: c in timers ==> c in checkers && Inv(timers[c]))
      && |checkerStates| == |checkers|
      && (forall j :: 0 <= j < |checkers| ==> checkerStates[j] == CheckerAt(j))
    }

    ghost function View(): TrackerView
      reads this
    {
      TrackerView(checkerStates, observer, listener, observerEvents, notifications, recheckRequests)
    }

    /** init: one checker per option in iteration order, the shared 150 ms debouncer, no observer yet. */
    constructor (trackingOptions: seq<TrackerOption>, proceedAfterImpTracking: bool)
      requires forall i, j :: 0 <= i < j < |trackingOptions| ==> trackingOptions[i] != trackingOptions[j]
      ensures Valid() && fresh(debouncer) && debouncer.Valid()
      ensures debouncer.intervalMs == VisibilityDebounceMillis && debouncer.lastCall == 0
      ensures |checkers| == |trackingOptions|
      ensures forall j :: 0 <= j < |trackingOptions| ==> checkers[j].option == trackingOptions[j]
      ensures this.proceedAfterImpTracking == proceedAfterImpTracking
      ensures observer.None? && listener.None? && timers == map[]
      ensures observerEvents == [] && notifications == [] && recheckRequests == 0
    {
      var list: seq<VisibilityChecker> := [];
      ghost var states: seq<CheckerState> := [];
      for k := 0 to |trackingOptions|
        invariant |list| == k && |states| == k
        invariant forall j :: 0 <= j < k ==> list[j].option == trackingOptions[j]
        invariant forall j :: 0 <= j < k ==>
          states[j] == CheckerState(trackingOptions[j].minimumVisibleMillis, trackingOptions[j].isImpressionTracked, None)
        invariant forall i, j :: 0 <= i < j < k ==> list[i] != list[j]
      {
        var checker := new VisibilityChecker(trackingOptions[k]);
        list := list + [checker];
        states := states + [CheckerState(trackingOptions[k].minimumVisibleMillis, trackingOptions[k].isImpressionTracked, None)];
      }
      checkers := list;
      this.proceedAfterImpTracking := proceedAfterImpTracking;
      debouncer := new Debouncer(VisibilityDebounceMillis);
      observer, listener := None, None;
      timers := map[];
      observerEvents, notifications, recheckRequests := [], [], 0;
      checkerStates := states;
    }

    method SetVisibilityTrackerListener(l: Option<ListenerId>)
      modifies this`listener
      ensures listener == l
    {
      listener := l;
    }

    /** Takes the listeners off the stored observer if it is still alive, then always clears the reference. */
    method StopVisibilityCheck(live: set<ObserverId>)
      modifies this`observer, this`observerEvents
      ensures View() == Stopped(old(View()), live)
    {
      if observer.Some? && observer.value in live {
        observerEvents := observerEvents + [ListenersRemoved(observer.value)];
      }
      observer := None;
    }

    /** Registers the scroll and layout listeners on the live root observer, unless a live one is stored. */
    method SetViewTreeObserver(host: Host)
      modifies this`observer, this`observerEvents
      ensures View() == ObserverSet(old(View()), host)
    {
      if observer.Some? && observer.value in host.liveObservers {
        return;
      }
      if host.rootObserver.None? {
        return;
      }
      if host.rootObserver.value !in host.liveObservers {
        return;
      }
      observer := host.rootObserver;
      observerEvents := observerEvents + [ListenersAdded(host.rootObserver.value)];
    }

    /** True iff every option's impression has been tracked (vacuously true without options). */
    method AllImpressionsFired() returns (all: bool)
      ensures all <==> forall j :: 0 <= j < |checkers| ==> checkers[j].option.isImpressionTracked
      ensures Valid() ==> (all <==> AllTracked(checkerStates))
    {
      for k := 0 to |checkers|
        invariant forall j :: 0 <= j < k ==> checkers[j].option.isImpressionTracked
      {
        if !checkers[k].option.isImpressionTracked {
          assert Valid() ==> checkerStates[k] == CheckerAt(k);
          return false;
        }
      }
      return true;
    }

    method NotifyListener(result: VisibilityTrackerResult)
      modifies this`notifications
      ensures notifications == old(notifications) + Delivered(listener, [result])
    {
      if listener.Some? {
        notifications := notifications + [Notification(listener.value, result)];
      }
    }

    /** A visible checker: its timer is created and started once, then the impression is reported if due. */
    method CheckVisible(i: int, now: int) returns (shouldFireImpression: bool)
      requires Valid() && 0 <= i < |checkers|
      modifies this`timers, this`recheckRequests, this`checkerStates, checkers[i].option
      ensures Valid()
      ensures var step := CheckChecker(old(checkerStates[i]), true, now);
        && checkerStates == old(checkerStates)[i := step.next]
        && shouldFireImpression == step.shouldFireImpression
        && recheckRequests == old(recheckRequests) + step.timerFinishes
    {
      var checker := checkers[i];
      var option := checker.option;
      ghost var step := CheckChecker(checkerStates[i], true, now);
      if checker !in timers {
        var min := option.minimumVisibleMillis;
        var started := Step(min, Initial(min), TimerOp.Start(now := now));
        timers := timers[checker := started.state];
        recheckRequests := recheckRequests + started.finishes;
      }
      shouldFireImpression := false;
      if timers[checker].finished && !option.isImpressionTracked {
        shouldFireImpression := true;
        option.isImpressionTracked := true;
      }
      checkerStates := checkerStates[i := step.next];
      forall j | 0 <= j < |checkers| && j != i ensures checkerStates[j] == CheckerAt(j) {
        assert checkers[j] != checker && checkers[j].option != option;
      }
    }

    /** An invisible checker: its timer, if it has one, is paused. */
    method CheckHidden(i: int, now: int)
      requires Valid() && 0 <= i < |checkers|
      modifies this`timers, this`recheckRequests, this`checkerStates
      ensures Valid()
      ensures var step := CheckChecker(old(checkerStates[i]), false, now);
        && checkerStates == old(checkerStates)[i := step.next]
        && recheckRequests == old(recheckRequests) + step.timerFinishes
    {
      var checker := checkers[i];
      ghost var step := CheckChecker(checkerStates[i], false, now);
      if checker in timers {
        var paused := Step(checker.option.minimumVisibleMillis, timers[checker], TimerOp.Pause(now := now));
        timers := timers[checker := paused.state];
        recheckRequests := recheckRequests + paused.finishes;
        checkerStates := checkerStates[i := step.next];
        forall j | 0 <= j < |checkers| && j != i ensures checkerStates[j] == CheckerAt(j) {
          assert checkers[j] != checker;
        }
      }
    }

    /** The loop body of runViewabilityCheck for checker i, ending with the listener call. */
    method CheckOne(i: int, host: Host) returns (result: VisibilityTrackerResult)
      requires Valid() && 0 <= i < |checkers| && |host.visible| == |checkers|
      modifies this`timers, this`recheckRequests, this`notifications, this`checkerStates, checkers[i].option
      ensures Valid()
      ensures var step := CheckChecker(old(checkerStates[i]), host.visible[i], host.now);
        && checkerStates == old(checkerStates)[i := step.next]
        && result == VisibilityTrackerResult(checkers[i].option.eventType, host.visible[i], step.shouldFireImpression)
        && recheckRequests == old(recheckRequests) + step.timerFinishes
      ensures notifications == old(notifications) + Delivered(listener, [result])
    {
      var visible := host.visible[i];
      var shouldFireImpression := false;
      if visible {
        shouldFireImpression := CheckVisible(i, host.now);
      } else {
        CheckHidden(i, host.now);
      }
      result := VisibilityTrackerResult(checkers[i].option.eventType, visible, shouldFireImpression);
      NotifyListener(result);
    }

    /** The checker loop of runViewabilityCheck: every checker is checked and reported, in list order. */
    method CheckEach(host: Host) returns (results: seq<VisibilityTrackerResult>)
      requires Valid() && |host.visible| == |checkers|
      modifies this`timers, this`recheckRequests, this`notifications, this`checkerStates, Options()
      ensures Valid()
      ensures var steps := CheckSteps(old(checkerStates), host.visible, host.now);
        && checkerStates == NextStates(steps)
        && results == StepResults(EventTypes(), host.visible, steps)
        && notifications == old(notifications) + Delivered(listener, results)
        && recheckRequests == old(recheckRequests) + TotalFinishes(steps)
    {
      ghost var before := checkerStates;
      ghost var steps := CheckSteps(checkerStates, host.visible, host.now);
      ghost var after := NextStates(steps);
      ghost var expected := StepResults(EventTypes(), host.visible, steps);
      Splice(after, before, 0);
      results := [];
      var i := 0;
      while i < |checkers|
        invariant 0 <= i <= |checkers| && |results| == i
        invariant Valid()
        invariant checkerStates == after[..i] + before[i..]
        invariant results == expected[..i]
        invariant notifications == old(notifications) + Delivered(listener, results)
        invariant recheckRequests == old(recheckRequests) + TotalFinishes(steps[..i])
      {
        var result := CheckOne(i, host);
        Splice(after, before, i);
        assert result == expected[i];
        PrefixSnoc(steps, i);
        PrefixSnoc(expected, i);
        DeliveredAppend(listener, results, [result]);
        AppendAssoc(old(notifications), Delivered(listener, results), Delivered(listener, [result]));
        results := results + [result];
        i := i + 1;
      }
      PrefixSnoc(steps, |steps|);
      PrefixSnoc(expected, |expected|);
    }

    /** runViewabilityCheck, with the view's exposure per checker taken from the host. */
    method RunViewabilityCheck(host: Host) returns (results: seq<VisibilityTrackerResult>)
      requires Valid() && |host.visible| == |checkers|
      modifies this, Options()
      ensures Valid()
      ensures var o := CheckAll(old(View()), EventTypes(), proceedAfterImpTracking, host);
        View() == o.view && results == o.results
    {
      if !host.viewAlive {
        StopVisibilityCheck(host.liveObservers);
        results := [];
        return;
      }
      ghost var v := View();
      ghost var steps := CheckSteps(v.checkers, host.visible, host.now);
      results := CheckEach(host);
      ghost var next := v.(checkers := NextStates(steps),
                           notifications := v.notifications + Delivered(v.listener, results),
                           recheckRequests := v.recheckRequests + TotalFinishes(steps));
      assert View() == next;
      var all := AllImpressionsFired();
      if all && !proceedAfterImpTracking {
        StopVisibilityCheck(host.liveObservers);
      }
    }

    /**
     * An invocation of the debounced check: restartVisibilityCheck, the initial check of
     * startVisibilityCheck and the scroll and global-layout listeners all make this call.
     */
    method RestartVisibilityCheck(host: Host) returns (ran: bool, results: seq<VisibilityTrackerResult>)
      requires Valid() && |host.visible| == |checkers|
      requires debouncer.Valid() && debouncer.intervalMs == VisibilityDebounceMillis
      modifies this, debouncer, Options()
      ensures Valid() && debouncer.Valid()
      ensures ran <==> host.now - old(debouncer.lastCall) >= VisibilityDebounceMillis
      ensures debouncer.calls == old(debouncer.calls) + [host.now]
      ensures ran ==> var o := CheckAll(old(View()), EventTypes(), proceedAfterImpTracking, host);
        View() == o.view && results == o.results
      ensures !ran ==> View() == old(View()) && results == []
    {
      ran := debouncer.Call(host.now);
      results := [];
      if ran {
        results := RunViewabilityCheck(host);
      }
    }

    /** startVisibilityCheck: nothing without the view; otherwise set up the observer and run the debounced check. */
    method StartVisibilityCheck(host: Host) returns (ran: bool, results: seq<VisibilityTrackerResult>)
      requires Valid() && |host.visible| == |checkers|
      requires debouncer.Valid() && debouncer.intervalMs == VisibilityDebounceMillis
      modifies this, debouncer, Options()
      ensures Valid() && debouncer.Valid()
      ensures !host.viewAlive ==>
        !ran && results == [] && View() == old(View())
        && debouncer.calls == old(debouncer.calls) && debouncer.lastCall == old(debouncer.lastCall)
      ensures host.viewAlive ==>
        && (ran <==> host.now - old(debouncer.lastCall) >= VisibilityDebounceMillis)
        && debouncer.calls == old(debouncer.calls) + [host.now]
      ensures host.viewAlive && ran ==>
        var o := CheckAll(ObserverSet(old(View()), host), EventTypes(), proceedAfterImpTracking, host);
        View() == o.view && results == o.results
      ensures host.viewAlive && !ran ==> View() == ObserverSet(old(View()), host) && results == []
    {
      if !host.viewAlive {
        return false, [];
      }
      SetViewTreeObserver(host);
      ran, results := RestartVisibilityCheck(host);
    }

    /** The onFinish of checker i's running timer: the timer finishes, then a check runs without the debouncer. */
    method OnTimerFinish(i: int, host: Host) returns (results: seq<VisibilityTrackerResult>)
      requires Valid() && 0 <= i < |checkers| && |host.visible| == |checkers|
      requires checkers[i] in timers && timers[checkers[i]].running
      modifies this, Options()
      ensures Valid()
      ensures var o := CheckAll(FiredAt(old(View()), i), EventTypes(), proceedAfterImpTracking, host);
        View() == o.view && results == o.results
    {
      var checker := checkers[i];
      timers := timers[checker := Step(checker.option.minimumVisibleMillis, timers[checker], TimerOp.Fire).state];
      checkerStates := checkerStates[i := FireTimer(checkerStates[i])];
      forall j | 0 <= j < |checkers| && j != i ensures checkerStates[j] == CheckerAt(j) {
        assert checkers[j] != checker;
      }
      results := RunViewabilityCheck(host);
    }
  }
}
