/**
 Emitting updates with a leading and trailing throttle (src/controllers/eventEmitter/eventEmitter.ts).

 The log records every request for an update and every emission to the listeners, in order. A request
 is pending while no emission follows it. Timers fire at or after the time they were set for.
 */
module ThrottledEmitters {
  import opened Wrappers

  datatype Entry = Requested(at: int) | Emitted(at: int, forced: bool)

  datatype Window = Window(fireAt: int, throttleMs: int)

  /** `forced` holds, for every `forceEmitUpdate` still waiting, the time its wait ends. */
  datatype State = State(
    throttleTimeout: Option<Window>,
    hasTrailingUpdate: bool,
    forced: seq<int>,
    now: int,
    log: seq<Entry>)

  datatype Event =
    | EmitUpdate(throttleMs: int)
    | ForceEmitUpdate
    | PropagateUpdate(forceEmit: bool)
    | WindowFires
    | ForcedFires(index: nat)
    | Tick(to: int)

  function Initial(now: int): State {
    State(None, false, [], now, [])
  }

  function Emit(s: State, forceEmit: bool): State {
    s.(log := s.log + [Emitted(s.now, forceEmit)])
  }

  function Request(s: State): State {
    s.(log := s.log + [Requested(s.now)])
  }

  function ClearThrottle(s: State): State {
    s.(throttleTimeout := None, hasTrailingUpdate := false)
  }

  function OpenWindow(s: State, throttleMs: int): State {
    s.(throttleTimeout := Some(Window(s.now + throttleMs, throttleMs)))
  }

  function Update(s: State, throttleMs: int): State {
    var s1 := Request(s);
    if throttleMs <= 0 then Emit(ClearThrottle(s1), false)
    else if s.throttleTimeout.None? then OpenWindow(Emit(s1, false), throttleMs)
    else s1.(hasTrailingUpdate := true)
  }

  function Force(s: State): State {
    ClearThrottle(Request(s)).(forced := s.forced + [s.now + 1])
  }

  function FireWindow(s: State): State
    requires s.throttleTimeout.Some?
  {
    if s.hasTrailingUpdate then
      OpenWindow(Emit(s.(hasTrailingUpdate := false), false), s.throttleTimeout.value.throttleMs)
    else s.(throttleTimeout := None)
  }

  predicate Enabled(s: State, e: Event) {
    match e
    case WindowFires => s.throttleTimeout.Some? && s.throttleTimeout.value.fireAt <= s.now
    case ForcedFires(index) => index < |s.forced| && s.forced[index] <= s.now
    case Tick(to) => s.now <= to
    case _ => true
  }

  function Step(s: State, e: Event): State {
    if !Enabled(s, e) then s
    else
      match e
      case EmitUpdate(throttleMs) => Update(s, throttleMs)
      case ForceEmitUpdate => Force(s)
      case PropagateUpdate(forceEmit) => Emit(ClearThrottle(Request(s)), forceEmit)
      case WindowFires => FireWindow(s)
      case ForcedFires(index) => Emit(s.(forced := s.forced[..index] + s.forced[index + 1..]), true)
      case Tick(to) => s.(now := to)
  }

  function Run(s: State, events: seq<Event>): State
    decreases |events|
  {
    if events == [] then s else Run(Step(s, events[0]), events[1..])
  }

  // ----- The class of the source

  class EventEmitter {
    var throttleTimeout: Option<Window>
    var hasTrailingUpdate: bool
    var forced: seq<int>
    var now: int
    ghost var log: seq<Entry>

    ghost function View(): State
      reads this
    {
      State(throttleTimeout, hasTrailingUpdate, forced, now, log)
    }

    constructor (now: int)
      ensures View() == Initial(now)
    {
      throttleTimeout, hasTrailingUpdate, forced, this.now, log := None, false, [], now, [];
    }

    method DoEmit(forceEmit: bool)
      modifies this
      ensures View() == Emit(old(View()), forceEmit)
    {
      log := log + [Emitted(now, forceEmit)];
    }

    method ClearThrottleTimeout()
      modifies this
      ensures View() == ClearThrottle(old(View()))
    {
      throttleTimeout := None;
      hasTrailingUpdate := false;
    }

    method OpenThrottleWindow(throttleMs: int)
      modifies this
      ensures View() == OpenWindow(old(View()), throttleMs)
    {
      throttleTimeout := Some(Window(now + throttleMs, throttleMs));
    }

    method WindowCallback()
      requires Enabled(View(), WindowFires)
      modifies this
      ensures View() == Step(old(View()), WindowFires)
    {
      if hasTrailingUpdate {
        hasTrailingUpdate := false;
        DoEmit(false);
        OpenThrottleWindow(throttleTimeout.value.throttleMs);
      } else {
        throttleTimeout := None;
      }
    }

    method EmitThrottled(throttleMs: int)
      modifies this
      ensures View() == Step(old(View()), EmitUpdate(throttleMs))
    {
      log := log + [Requested(now)];
      if throttleMs <= 0 {
        ClearThrottleTimeout();
        DoEmit(false);
        return;
      }
      if throttleTimeout.None? {
        DoEmit(false);
        OpenThrottleWindow(throttleMs);
        return;
      }
      hasTrailingUpdate := true;
    }

    /** `forceEmitUpdate` up to its wait. */
    method BeginForceEmit()
      modifies this
      ensures View() == Step(old(View()), ForceEmitUpdate)
    {
      log := log + [Requested(now)];
      ClearThrottleTimeout();
      forced := forced + [now + 1];
    }

    /** `forceEmitUpdate` after its wait. */
    method EndForceEmit(index: nat)
      requires Enabled(View(), ForcedFires(index))
      modifies this
      ensures View() == Step(old(View()), ForcedFires(index))
    {
      forced := forced[..index] + forced[index + 1..];
      DoEmit(true);
    }

    method Propagate(forceEmit: bool)
      modifies this
      ensures View() == Step(old(View()), PropagateUpdate(forceEmit))
    {
      log := log + [Requested(now)];
      ClearThrottleTimeout();
      DoEmit(forceEmit);
    }
  }

  // ----- No update is lost

  /** The requests that no emission follows. */
  function Pending(log: seq<Entry>): (r: seq<Entry>)
    ensures forall x :: x in r ==> x.Requested? && x in log
  {
    if log == [] || log[|log| - 1].Emitted? then [] else Pending(log[..|log| - 1]) + [log[|log| - 1]]
  }

  lemma PendingAfter(log: seq<Entry>, e: Entry)
    ensures Pending(log + [e]) == if e.Emitted? then [] else Pending(log) + [e]
  {
    assert (log + [e])[..|log + [e]| - 1] == log;
  }

  /** A pending request is covered by a live window with a trailing update, or by a forced emission on its way. */
  ghost predicate NoneLost(s: State) {
    && (s.hasTrailingUpdate ==> s.throttleTimeout.Some?)
    && (Pending(s.log) != [] ==> s.hasTrailingUpdate || s.forced != [])
  }

  lemma StepLosesNothing(s: State, e: Event)
    requires NoneLost(s)
    ensures NoneLost(Step(s, e))
  {
    match e {
      case EmitUpdate(throttleMs) =>
        PendingAfter(s.log, Requested(s.now));
        PendingAfter(s.log + [Requested(s.now)], Emitted(s.now, false));
      case ForceEmitUpdate =>
        PendingAfter(s.log, Requested(s.now));
      case PropagateUpdate(forceEmit) =>
        PendingAfter(s.log + [Requested(s.now)], Emitted(s.now, forceEmit));
      case WindowFires =>
        PendingAfter(s.log, Emitted(s.now, false));
      case ForcedFires(index) =>
        PendingAfter(s.log, Emitted(s.now, true));
      case Tick(_) =>
    }
  }

  lemma {:induction false} RunLosesNothing(s: State, events: seq<Event>)
    requires NoneLost(s)
    ensures NoneLost(Run(s, events))
    decreases |events|
  {
    if events == [] {
    } else {
      StepLosesNothing(s, events[0]);
      RunLosesNothing(Step(s, events[0]), events[1..]);
    }
  }

  // ----- When timers are punctual, every request is delivered by the end of its window

  /** Throttled calls use windows of at most `longest`; forced emissions may add `slack`. */
  ghost predicate Within(e: Event, longest: nat, slack: nat) {
    && (e.EmitUpdate? ==> e.throttleMs <= longest)
    && (e.ForceEmitUpdate? ==> 1 <= slack)
  }

  /** Time does not pass a timer that is due. */
  ghost predicate Punctual(s: State, e: Event) {
    e.Tick? ==>
      && (s.throttleTimeout.Some? ==> e.to <= s.throttleTimeout.value.fireAt)
      && (forall due :: due in s.forced ==> e.to <= due)
  }

  ghost predicate Covered(s: State, r: Entry, longest: nat, slack: nat) {
    || (s.hasTrailingUpdate && s.throttleTimeout.Some? && s.throttleTimeout.value.fireAt <= r.at + longest)
    || (exists due :: due in s.forced && due <= r.at + longest + slack)
  }

  /** No emission came later than `bound` after a request it delivers. */
  ghost predicate Timely(log: seq<Entry>, bound: int) {
    log == []
    || (&& Timely(log[..|log| - 1], bound)
        && (log[|log| - 1].Emitted? ==>
              forall r :: r in Pending(log[..|log| - 1]) ==> log[|log| - 1].at <= r.at + bound))
  }

  lemma TimelyAfter(log: seq<Entry>, e: Entry, bound: int)
    requires Timely(log, bound)
    requires e.Emitted? ==> forall r :: r in Pending(log) ==> e.at <= r.at + bound
    ensures Timely(log + [e], bound)
  {
    assert (log + [e])[..|log + [e]| - 1] == log;
  }

  ghost predicate TimelyInv(s: State, longest: nat, slack: nat) {
    && Timely(s.log, longest + slack)
    && (s.throttleTimeout.Some? ==>
          s.now <= s.throttleTimeout.value.fireAt <= s.now + s.throttleTimeout.value.throttleMs
          && 0 < s.throttleTimeout.value.throttleMs <= longest)
    && (forall due :: due in s.forced ==> s.now <= due <= s.now + 1)
    && (s.forced != [] ==> 1 <= slack)
    && (forall r :: r in Pending(s.log) ==> r.at <= s.now && Covered(s, r, longest, slack))
  }

  /** While the invariant holds, now is the latest moment at which any pending request may still be pending. */
  lemma PendingAreYoung(s: State, longest: nat, slack: nat)
    requires TimelyInv(s, longest, slack)
    ensures forall r :: r in Pending(s.log) ==> s.now <= r.at + longest + slack
  {
    forall r | r in Pending(s.log) ensures s.now <= r.at + longest + slack {
      assert Covered(s, r, longest, slack);
    }
  }

  lemma EmitKeeps(s: State, longest: nat, slack: nat, t: State)
    requires TimelyInv(s, longest, slack)
    requires t.now == s.now && Timely(t.log, longest + slack) && Pending(t.log) == []
    requires t.throttleTimeout == s.throttleTimeout || t.throttleTimeout.None?
             || (t.throttleTimeout.value.fireAt == s.now + t.throttleTimeout.value.throttleMs
                 && 0 < t.throttleTimeout.value.throttleMs <= longest)
    requires forall due :: due in t.forced ==> due in s.forced
    ensures TimelyInv(t, longest, slack)
  {
    if t.forced != [] {
      assert t.forced[0] in t.forced;
    }
  }

  lemma EmissionsKeepTimely(s: State, longest: nat, slack: nat, forced: bool)
    requires TimelyInv(s, longest, slack)
    ensures Timely(s.log + [Emitted(s.now, forced)], longest + slack) && Pending(s.log + [Emitted(s.now, forced)]) == []
    ensures var log := s.log + [Requested(s.now)] + [Emitted(s.now, forced)];
            Timely(log, longest + slack) && Pending(log) == []
  {
    PendingAreYoung(s, longest, slack);
    TimelyAfter(s.log, Emitted(s.now, forced), longest + slack);
    PendingAfter(s.log, Emitted(s.now, forced));
    var log1 := s.log + [Requested(s.now)];
    TimelyAfter(s.log, Requested(s.now), longest + slack);
    PendingAfter(s.log, Requested(s.now));
    TimelyAfter(log1, Emitted(s.now, forced), longest + slack);
    PendingAfter(log1, Emitted(s.now, forced));
  }

  lemma ForceKeepsTimely(s: State, longest: nat, slack: nat)
    requires TimelyInv(s, longest, slack) && 1 <= slack
    ensures TimelyInv(Force(s), longest, slack)
  {
    var t := Force(s);
    PendingAreYoung(s, longest, slack);
    TimelyAfter(s.log, Requested(s.now), longest + slack);
    PendingAfter(s.log, Requested(s.now));
    assert t.forced[|s.forced|] == s.now + 1;
    forall r | r in Pending(t.log) ensures Covered(t, r, longest, slack) {
      if r in Pending(s.log) {
        assert Covered(s, r, longest, slack);
        if exists due :: due in s.forced && due <= r.at + longest + slack {
          var due :| due in s.forced && due <= r.at + longest + slack;
          assert due in t.forced;
        }
      }
      assert s.now + 1 in t.forced;
    }
  }

  lemma TrailingKeepsTimely(s: State, longest: nat, slack: nat)
    requires TimelyInv(s, longest, slack) && s.throttleTimeout.Some?
    ensures TimelyInv(Request(s).(hasTrailingUpdate := true), longest, slack)
  {
    var t := Request(s).(hasTrailingUpdate := true);
    TimelyAfter(s.log, Requested(s.now), longest + slack);
    PendingAfter(s.log, Requested(s.now));
    forall r | r in Pending(t.log) ensures Covered(t, r, longest, slack) {
      if r in Pending(s.log) {
        assert Covered(s, r, longest, slack);
      }
    }
  }

  lemma UpdateKeepsTimely(s: State, throttleMs: int, longest: nat, slack: nat)
    requires TimelyInv(s, longest, slack) && throttleMs <= longest
    ensures TimelyInv(Update(s, throttleMs), longest, slack)
  {
    if 0 < throttleMs && s.throttleTimeout.Some? {
      TrailingKeepsTimely(s, longest, slack);
    } else {
      EmissionsKeepTimely(s, longest, slack, false);
      EmitKeeps(s, longest, slack, Update(s, throttleMs));
    }
  }

  lemma FireKeepsTimely(s: State, longest: nat, slack: nat)
    requires TimelyInv(s, longest, slack) && Enabled(s, WindowFires)
    ensures TimelyInv(FireWindow(s), longest, slack)
  {
    var t := FireWindow(s);
    if s.hasTrailingUpdate {
      EmissionsKeepTimely(s, longest, slack, false);
      EmitKeeps(s, longest, slack, t);
    } else {
      forall r | r in Pending(t.log) ensures Covered(t, r, longest, slack) {
        assert Covered(s, r, longest, slack);
      }
    }
  }

  lemma TickKeepsTimely(s: State, to: int, longest: nat, slack: nat)
    requires TimelyInv(s, longest, slack) && s.now <= to && Punctual(s, Tick(to))
    ensures TimelyInv(s.(now := to), longest, slack)
  {
    var t := s.(now := to);
    forall r | r in Pending(t.log) ensures Covered(t, r, longest, slack) {
      assert Covered(s, r, longest, slack);
    }
  }

  lemma StepKeepsTimely(s: State, e: Event, longest: nat, slack: nat)
    requires TimelyInv(s, longest, slack) && Within(e, longest, slack) && Punctual(s, e)
    ensures TimelyInv(Step(s, e), longest, slack)
  {
    if Enabled(s, e) {
      match e {
        case EmitUpdate(throttleMs) => UpdateKeepsTimely(s, throttleMs, longest, slack);
        case ForceEmitUpdate => ForceKeepsTimely(s, longest, slack);
        case PropagateUpdate(forceEmit) =>
          EmissionsKeepTimely(s, longest, slack, forceEmit);
          EmitKeeps(s, longest, slack, Emit(ClearThrottle(Request(s)), forceEmit));
        case WindowFires => FireKeepsTimely(s, longest, slack);
        case ForcedFires(index) =>
          EmissionsKeepTimely(s, longest, slack, true);
          EmitKeeps(s, longest, slack, Step(s, e));
        case Tick(to) => TickKeepsTimely(s, to, longest, slack);
      }
    }
  }

  ghost predicate PunctualRun(s: State, events: seq<Event>, longest: nat, slack: nat)
    decreases |events|
  {
    events == []
    || (Within(events[0], longest, slack) && Punctual(s, events[0])
        && PunctualRun(Step(s, events[0]), events[1..], longest, slack))
  }

  lemma {:induction false} PunctualRunKeepsTimely(s: State, events: seq<Event>, longest: nat, slack: nat)
    requires TimelyInv(s, longest, slack) && PunctualRun(s, events, longest, slack)
    ensures TimelyInv(Run(s, events), longest, slack)
    decreases |events|
  {
    if events == [] {
    } else {
      StepKeepsTimely(s, events[0], longest, slack);
      PunctualRunKeepsTimely(Step(s, events[0]), events[1..], longest, slack);
    }
  }

  /**
   With punctual timers a request is delivered at most one window after it was made; one millisecond
   more when forced emissions, which clear the window, are mixed in.
   */
  lemma EveryRequestIsDeliveredInTime(start: int, events: seq<Event>, longest: nat, slack: nat)
    requires PunctualRun(Initial(start), events, longest, slack)
    ensures var s := Run(Initial(start), events);
            && Timely(s.log, longest + slack)
            && forall r :: r in Pending(s.log) ==> s.now <= r.at + longest + slack
  {
    PunctualRunKeepsTimely(Initial(start), events, longest, slack);
    PendingAreYoung(Run(Initial(start), events), longest, slack);
  }

  // ----- Throttled emissions are spaced, however late the timers are

  function Emissions(log: seq<Entry>): seq<int> {
    if log == [] then []
    else
      var rest := Emissions(log[..|log| - 1]);
      if log[|log| - 1].Emitted? then rest + [log[|log| - 1].at] else rest
  }

  lemma EmissionsAfter(log: seq<Entry>, e: Entry)
    ensures Emissions(log + [e]) == Emissions(log) + (if e.Emitted? then [e.at] else [])
  {
    assert (log + [e])[..|log + [e]| - 1] == log;
  }

  ghost predicate Spaced(times: seq<int>, throttleMs: int) {
    forall i :: 0 < i < |times| ==> times[i - 1] + throttleMs <= times[i]
  }

  ghost predicate SpacedInv(s: State, throttleMs: int) {
    var times := Emissions(s.log);
    && Spaced(times, throttleMs)
    && (s.throttleTimeout.Some? ==>
          times != [] && s.throttleTimeout.value == Window(times[|times| - 1] + throttleMs, throttleMs))
    && (s.throttleTimeout.None? && times != [] ==> times[|times| - 1] + throttleMs <= s.now)
  }

  /** Only updates throttled by the one interval, their windows, and the passing of time. */
  ghost predicate ThrottledOnly(e: Event, throttleMs: int) {
    e == EmitUpdate(throttleMs) || e.WindowFires? || e.Tick?
  }

  lemma UpdateKeepsSpaced(s: State, throttleMs: int)
    requires SpacedInv(s, throttleMs) && 0 < throttleMs
    ensures SpacedInv(Update(s, throttleMs), throttleMs)
  {
    EmissionsAfter(s.log, Requested(s.now));
    if s.throttleTimeout.None? {
      EmissionsAfter(s.log + [Requested(s.now)], Emitted(s.now, false));
      EmissionKeepsSpaced(s, Update(s, throttleMs), throttleMs);
    }
  }

  lemma FireKeepsSpaced(s: State, throttleMs: int)
    requires SpacedInv(s, throttleMs) && 0 < throttleMs && Enabled(s, WindowFires)
    ensures SpacedInv(FireWindow(s), throttleMs)
  {
    if s.hasTrailingUpdate {
      EmissionsAfter(s.log, Emitted(s.now, false));
      EmissionKeepsSpaced(s, FireWindow(s), throttleMs);
    }
  }

  lemma StepKeepsSpaced(s: State, e: Event, throttleMs: int)
    requires SpacedInv(s, throttleMs) && ThrottledOnly(e, throttleMs) && 0 < throttleMs
    ensures SpacedInv(Step(s, e), throttleMs)
  {
    if Enabled(s, e) {
      match e {
        case EmitUpdate(_) => UpdateKeepsSpaced(s, throttleMs);
        case WindowFires => FireKeepsSpaced(s, throttleMs);
        case Tick(_) =>
      }
    }
  }

  lemma EmissionKeepsSpaced(s: State, t: State, throttleMs: int)
    requires SpacedInv(s, throttleMs) && 0 < throttleMs
    requires s.throttleTimeout.None? || s.throttleTimeout.value.fireAt <= s.now
    requires Emissions(t.log) == Emissions(s.log) + [s.now]
    requires t.throttleTimeout == Some(Window(s.now + throttleMs, throttleMs))
    ensures SpacedInv(t, throttleMs)
  {
    LaterKeepsSpaced(Emissions(s.log), s.now, throttleMs);
  }

  lemma LaterKeepsSpaced(times: seq<int>, t: int, throttleMs: int)
    requires Spaced(times, throttleMs)
    requires times != [] ==> times[|times| - 1] + throttleMs <= t
    ensures Spaced(times + [t], throttleMs)
  {
  }

  lemma {:induction false} RunKeepsSpaced(s: State, events: seq<Event>, throttleMs: int)
    requires SpacedInv(s, throttleMs) && 0 < throttleMs
    requires forall e :: e in events ==> ThrottledOnly(e, throttleMs)
    ensures SpacedInv(Run(s, events), throttleMs)
    decreases |events|
  {
    if events == [] {
    } else {
      assert events[0] in events;
      StepKeepsSpaced(s, events[0], throttleMs);
      RunKeepsSpaced(Step(s, events[0]), events[1..], throttleMs);
    }
  }

  lemma ThrottledEmissionsAreSpaced(start: int, events: seq<Event>, throttleMs: int)
    requires 0 < throttleMs && forall e :: e in events ==> ThrottledOnly(e, throttleMs)
    ensures Spaced(Emissions(Run(Initial(start), events).log), throttleMs)
  {
    RunKeepsSpaced(Initial(start), events, throttleMs);
  }

  // ----- A window coalesces

  ghost predicate RequestOrTick(e: Event) {
    e.Tick? || (e.EmitUpdate? && 0 < e.throttleMs)
  }

  lemma {:induction false} OpenWindowOnlyRemembers(s: State, events: seq<Event>)
    requires s.throttleTimeout.Some? && forall e :: e in events ==> RequestOrTick(e)
    ensures var t := Run(s, events);
            && t.throttleTimeout == s.throttleTimeout
            && t.forced == s.forced
            && Emissions(t.log) == Emissions(s.log)
            && (t.hasTrailingUpdate <==> s.hasTrailingUpdate || exists e :: e in events && e.EmitUpdate?)
    decreases |events|
  {
    if events == [] {
    } else {
      assert events[0] in events;
      EmissionsAfter(s.log, Requested(s.now));
      OpenWindowOnlyRemembers(Step(s, events[0]), events[1..]);
      assert forall e :: e in events ==> e == events[0] || e in events[1..];
    }
  }

  /** However many throttled requests come while a window is open, they cause one emission at its end; none, none. */
  lemma WindowCoalesces(s: State, events: seq<Event>)
    requires s.throttleTimeout.Some? && !s.hasTrailingUpdate && forall e :: e in events ==> RequestOrTick(e)
    requires Enabled(Run(s, events), WindowFires)
    ensures var t := Step(Run(s, events), WindowFires);
            var requested := exists e :: e in events && e.EmitUpdate?;
            && Emissions(t.log) == Emissions(s.log) + (if requested then [t.now] else [])
            && t.throttleTimeout.Some? == requested
  {
    OpenWindowOnlyRemembers(s, events);
    var u := Run(s, events);
    EmissionsAfter(u.log, Emitted(u.now, false));
  }
}
