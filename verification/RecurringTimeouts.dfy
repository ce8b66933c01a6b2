/**
 An interval that never overlaps itself (src/classes/recurringTimeout/recurringTimeout.ts).

 `State` holds the fields of the source's class together with what the JavaScript event loop
 holds on its behalf: the queued start microtasks, the live timers and the executions of `fn`
 whose promise has not settled. An execution is named by the value of `fnExecutionsCount` when it
 began, so its promise is named by the same number. An `Event` is one atomic step: a call from
 outside, a microtask, a timer, or a settled promise. The synchronous calls that `fn` makes on its
 own interval before returning its promise are part of the step that calls `fn`.
 */
module RecurringTimeouts {
  import opened Wrappers

  datatype StartOptions = StartOptions(timeout: Option<int>, runImmediately: bool, allowOverlap: bool)

  /** The public methods, callable from outside and from inside `fn`. */
  datatype Call = Start(opts: StartOptions) | Stop | Restart(opts: StartOptions) | UpdateTimeout(timeout: int)

  datatype Event =
    | Invoke(call: Call)
    | Microtask(index: nat, now: int, calls: seq<Call>)
    | TimerFires(id: nat, calls: seq<Call>)
    | FnSettles(execution: nat, rejected: bool)

  datatype State = State(
    running: bool,
    promise: Option<nat>,
    startScheduled: bool,
    pendingStart: Option<StartOptions>,
    timeoutId: Option<nat>,
    sessionId: nat,
    internalSessionId: nat,
    fnExecutionsCount: nat,
    startedRunningAt: int,
    currentTimeout: int,
    reportsErrors: bool,
    errors: nat,
    // held by the event loop
    microtasks: seq<nat>,
    timers: map<nat, int>,
    nextTimerId: nat,
    inFlight: map<nat, nat>
  )

  function Initial(timeout: int, reportsErrors: bool): State {
    State(false, None, false, None, None, 0, 0, 0, 0, timeout, reportsErrors, 0, [], map[], 0, map[])
  }

  // ----- The steps as functions on states

  function Reset(s: State): State {
    s.(running := false, startScheduled := false, promise := None, timeoutId := None,
       timers := if s.timeoutId.Some? then s.timers - {s.timeoutId.value} else s.timers)
  }

  function NewSession(s: State): State {
    s.(internalSessionId := s.internalSessionId + 1, sessionId := s.internalSessionId + 1)
  }

  function Merge(opts: StartOptions, pending: Option<StartOptions>): StartOptions {
    match pending
    case None => opts
    case Some(p) =>
      StartOptions(if opts.timeout.Some? then opts.timeout else p.timeout,
                   opts.runImmediately || p.runImmediately,
                   opts.allowOverlap || p.allowOverlap)
  }

  function ScheduleStart(s: State, opts: StartOptions): State {
    if s.running then s
    else
      var s1 := s.(pendingStart := Some(Merge(opts, s.pendingStart)));
      if s.startScheduled then s1
      else s1.(startScheduled := true, microtasks := s.microtasks + [s.internalSessionId])
  }

  function Perform(s: State, call: Call): State {
    match call
    case Start(opts) => ScheduleStart(s, opts)
    case Stop => Reset(NewSession(s))
    case Restart(opts) => ScheduleStart(Reset(NewSession(s)), opts)
    case UpdateTimeout(timeout) => s.(currentTimeout := timeout)
  }

  function PerformAll(s: State, calls: seq<Call>): State {
    if calls == [] then s else Perform(PerformAll(s, calls[..|calls| - 1]), calls[|calls| - 1])
  }

  function SetTimer(s: State): State {
    s.(timers := s.timers[s.nextTimerId := s.currentTimeout], timeoutId := Some(s.nextTimerId),
       nextTimerId := s.nextTimerId + 1)
  }

  /** `#loop` up to its `await`: `fn` runs, making `calls`, and its promise is stored afterwards. */
  function BeginLoop(s: State, calls: seq<Call>): State {
    PerformAll(CountExecution(s), calls).(promise := Some(s.fnExecutionsCount + 1))
  }

  function CountExecution(s: State): State {
    var count := s.fnExecutionsCount + 1;
    s.(fnExecutionsCount := count, inFlight := s.inFlight[count := s.internalSessionId])
  }

  function Dequeue(s: State, index: nat): State
    requires index < |s.microtasks|
  {
    s.(microtasks := s.microtasks[..index] + s.microtasks[index + 1..])
  }

  function RunMicrotask(s: State, index: nat, now: int, calls: seq<Call>): State
    requires index < |s.microtasks|
  {
    var s1 := Dequeue(s, index);
    if s.internalSessionId != s.microtasks[index] then s1
    else
      var p := PendingOptions(s);
      var s2 := Started(s1, now);
      if s.promise.Some? && !p.allowOverlap then s2
      else if p.runImmediately then BeginLoop(s2, calls)
      else SetTimer(s2)
  }

  function PendingOptions(s: State): StartOptions {
    s.pendingStart.GetOr(StartOptions(None, false, false))
  }

  /** What a matching start microtask does before it decides whether to loop. */
  function Started(s: State, now: int): State {
    var timeout := PendingOptions(s).timeout;
    s.(startScheduled := false, pendingStart := None, running := true, startedRunningAt := now,
       currentTimeout := if timeout.Some? && timeout.value != 0 then timeout.value else s.currentTimeout)
  }

  function FireTimer(s: State, id: nat, calls: seq<Call>): State
    requires id in s.timers
  {
    BeginLoop(s.(timers := s.timers - {id}), calls)
  }

  function Settle(s: State, execution: nat, rejected: bool): State
    requires execution in s.inFlight
  {
    var s1 := s.(inFlight := s.inFlight - {execution},
                 errors := if rejected && s.promise.Some? && s.reportsErrors then s.errors + 1 else s.errors);
    if s.promise.Some? && s.fnExecutionsCount == execution then
      (if s.running then SetTimer(s1) else s1).(promise := None)
    else s1
  }

  predicate Enabled(s: State, e: Event) {
    match e
    case Invoke(_) => true
    case Microtask(index, _, _) => index < |s.microtasks|
    case TimerFires(id, _) => id in s.timers
    case FnSettles(execution, _) => execution in s.inFlight
  }

  /** One step; an event that cannot happen now leaves the state alone. */
  function Step(s: State, e: Event): State {
    if !Enabled(s, e) then s
    else
      match e
      case Invoke(call) => Perform(s, call)
      case Microtask(index, now, calls) => RunMicrotask(s, index, now, calls)
      case TimerFires(id, calls) => FireTimer(s, id, calls)
      case FnSettles(execution, rejected) => Settle(s, execution, rejected)
  }

  function Run(s: State, events: seq<Event>): State
    decreases |events|
  {
    if events == [] then s else Run(Step(s, events[0]), events[1..])
  }

  // ----- The class of the source

  class RecurringTimeout {
    var running: bool
    var promise: Option<nat>
    var startScheduled: bool
    var pendingStart: Option<StartOptions>
    var timeoutId: Option<nat>
    var sessionId: nat
    var internalSessionId: nat
    var fnExecutionsCount: nat
    var startedRunningAt: int
    var currentTimeout: int
    const reportsErrors: bool
    var errors: nat
    // held by the event loop for this object
    var microtasks: seq<nat>
    var timers: map<nat, int>
    var nextTimerId: nat
    var inFlight: map<nat, nat>

    ghost function View(): State
      reads this
    {
      State(running, promise, startScheduled, pendingStart, timeoutId, sessionId, internalSessionId,
            fnExecutionsCount, startedRunningAt, currentTimeout, reportsErrors, errors,
            microtasks, timers, nextTimerId, inFlight)
    }

    constructor (timeout: int, reportsErrors: bool)
      ensures View() == Initial(timeout, reportsErrors)
    {
      running, promise, startScheduled, pendingStart, timeoutId := false, None, false, None, None;
      sessionId, internalSessionId, fnExecutionsCount, startedRunningAt := 0, 0, 0, 0;
      currentTimeout, this.reportsErrors, errors := timeout, reportsErrors, 0;
      microtasks, timers, nextTimerId, inFlight := [], map[], 0, map[];
    }

    method DoReset()
      modifies this
      ensures View() == Reset(old(View()))
    {
      running := false;
      startScheduled := false;
      promise := None;
      if timeoutId.Some? {
        timers := timers - {timeoutId.value};
        timeoutId := None;
      }
    }

    method DoScheduleStart(opts: StartOptions)
      modifies this
      ensures View() == ScheduleStart(old(View()), opts)
    {
      if running { return; }
      pendingStart := Some(Merge(opts, pendingStart));
      if startScheduled { return; }
      startScheduled := true;
      microtasks := microtasks + [internalSessionId];
    }

    method DoStart(opts: StartOptions)
      modifies this
      ensures View() == Perform(old(View()), Start(opts))
    {
      DoScheduleStart(opts);
    }

    method DoStop()
      modifies this
      ensures View() == Perform(old(View()), Stop)
    {
      internalSessionId := internalSessionId + 1;
      sessionId := internalSessionId;
      startScheduled := false;
      DoReset();
    }

    method DoRestart(opts: StartOptions)
      modifies this
      ensures View() == Perform(old(View()), Restart(opts))
    {
      internalSessionId := internalSessionId + 1;
      sessionId := internalSessionId;
      DoReset();
      DoScheduleStart(opts);
    }

    method SetTimeout()
      modifies this
      ensures View() == SetTimer(old(View()))
    {
      timers := timers[nextTimerId := currentTimeout];
      timeoutId := Some(nextTimerId);
      nextTimerId := nextTimerId + 1;
    }

    method Loop(calls: seq<Call>)
      modifies this
      ensures View() == BeginLoop(old(View()), calls)
    {
      var currentCount := CountUp();
      ghost var s1 := View();
      for i := 0 to |calls|
        invariant View() == PerformAll(s1, calls[..i])
      {
        DoCall(calls[i]);
        assert calls[..i + 1][..i] == calls[..i];
      }
      assert calls[..|calls|] == calls;
      promise := Some(currentCount);
    }

    method CountUp() returns (currentCount: nat)
      modifies this
      ensures View() == CountExecution(old(View())) && currentCount == old(fnExecutionsCount) + 1
    {
      fnExecutionsCount := fnExecutionsCount + 1;
      currentCount := fnExecutionsCount;
      inFlight := inFlight[currentCount := internalSessionId];
    }

    /** One of the calls `fn` makes before it returns its promise. */
    method DoCall(call: Call)
      modifies this
      ensures View() == Perform(old(View()), call)
    {
      match call {
        case Start(opts) => DoStart(opts);
        case Stop => DoStop();
        case Restart(opts) => DoRestart(opts);
        case UpdateTimeout(timeout) => currentTimeout := timeout;
      }
    }

    method DequeueMicrotask(index: nat) returns (capturedSessionId: nat)
      requires index < |microtasks|
      modifies this
      ensures View() == Dequeue(old(View()), index) && capturedSessionId == old(microtasks[index])
    {
      capturedSessionId := microtasks[index];
      microtasks := microtasks[..index] + microtasks[index + 1..];
    }

    method TakePendingStart(now: int) returns (p: StartOptions)
      modifies this
      ensures View() == Started(old(View()), now) && p == PendingOptions(old(View()))
    {
      startScheduled := false;
      p := pendingStart.GetOr(StartOptions(None, false, false));
      pendingStart := None;
      running := true;
      startedRunningAt := now;
      if p.timeout.Some? && p.timeout.value != 0 {
        currentTimeout := p.timeout.value;
      }
    }

    method StartMicrotask(index: nat, now: int, calls: seq<Call>)
      requires index < |microtasks|
      modifies this
      ensures View() == RunMicrotask(old(View()), index, now, calls)
    {
      var capturedSessionId := DequeueMicrotask(index);
      if internalSessionId != capturedSessionId { return; }
      var p := TakePendingStart(now);
      if promise.Some? && !p.allowOverlap { return; }
      if p.runImmediately {
        Loop(calls);
      } else {
        SetTimeout();
      }
    }

    method TimerCallback(id: nat, calls: seq<Call>)
      requires id in timers
      modifies this
      ensures View() == FireTimer(old(View()), id, calls)
    {
      timers := timers - {id};
      Loop(calls);
    }

    /** The part of `#loop` after its `await`: the `catch` and `finally` blocks. */
    method FinishLoop(currentCount: nat, rejected: bool)
      requires currentCount in inFlight
      modifies this
      ensures View() == Settle(old(View()), currentCount, rejected)
    {
      inFlight := inFlight - {currentCount};
      if rejected && promise.Some? && reportsErrors {
        errors := errors + 1;
      }
      if promise.Some? && fnExecutionsCount == currentCount {
        if running {
          SetTimeout();
        }
        promise := None;
      }
    }
  }

  // ----- The invariant

  /** At most one timer is live; it is the one in `#timeoutId` and exists only while running. */
  ghost predicate TimerInv(s: State) {
    && (forall t :: t in s.timers ==> s.timeoutId == Some(t))
    && (s.timers != map[] ==> s.running)
    && (s.timeoutId.Some? ==> s.timeoutId.value < s.nextTimerId)
  }

  /** Exactly one queued microtask carries the current session iff `startScheduled`, which excludes `running`. */
  ghost predicate QueueInv(s: State) {
    && s.sessionId == s.internalSessionId
    && (forall m :: m in s.microtasks ==> m <= s.internalSessionId)
    && multiset(s.microtasks)[s.internalSessionId] == (if s.startScheduled then 1 else 0)
    && (s.startScheduled ==> !s.running)
  }

  /**
   While running, exactly one of a live timer and an owning execution drives the loop. An owner is
   the latest execution. Executions in flight began in different sessions, and every one but a
   running owner began in an earlier session than the present one.
   */
  ghost predicate OwnerInv(s: State) {
    && (s.promise.Some? ==> s.promise.value == s.fnExecutionsCount && s.promise.value in s.inFlight)
    && (s.running ==> (s.timers != map[] <==> s.promise.None?))
    && (forall c :: c in s.inFlight ==> c <= s.fnExecutionsCount && s.inFlight[c] <= s.internalSessionId)
    && (forall c :: c in s.inFlight && (s.promise != Some(c) || !s.running) ==> s.inFlight[c] < s.internalSessionId)
    && (forall c, d :: c in s.inFlight && d in s.inFlight && c < d ==> s.inFlight[c] < s.inFlight[d])
  }

  ghost predicate Inv(s: State) {
    TimerInv(s) && QueueInv(s) && OwnerInv(s)
  }

  /**
   The one step that can give the loop a second driver: a start microtask that finds a promise, is
   told to allow overlap, and is not told to run immediately.
   */
  predicate Doubles(s: State, e: Event) {
    && e.Microtask?
    && e.index < |s.microtasks|
    && s.microtasks[e.index] == s.internalSessionId
    && s.promise.Some?
    && s.pendingStart.Some? && s.pendingStart.value.allowOverlap && !s.pendingStart.value.runImmediately
  }

  // ----- One step

  lemma ResetKeeps(s: State)
    requires TimerInv(s) && QueueInv(s)
    ensures var t := Reset(NewSession(s)); TimerInv(t) && QueueInv(t) && t.timers == map[]
  {
    var t := Reset(NewSession(s));
    assert t.internalSessionId !in s.microtasks;
    forall i | i in s.timers ensures s.timeoutId == Some(i) {}
    assert t.timers.Keys == {};
  }

  lemma ScheduleStartKeeps(s: State, opts: StartOptions)
    requires TimerInv(s) && QueueInv(s)
    ensures TimerInv(ScheduleStart(s, opts)) && QueueInv(ScheduleStart(s, opts))
  {
  }

  lemma PerformKeeps(s: State, call: Call)
    requires TimerInv(s) && QueueInv(s)
    ensures var t := Perform(s, call);
            && TimerInv(t) && QueueInv(t)
            && t.inFlight == s.inFlight && t.fnExecutionsCount == s.fnExecutionsCount
            && ((t.running == s.running && t.internalSessionId == s.internalSessionId
                 && t.timers == s.timers && t.promise == s.promise)
                || (!t.running && t.internalSessionId == s.internalSessionId + 1
                    && t.timers == map[] && t.promise.None?))
  {
    match call {
      case Start(opts) => ScheduleStartKeeps(s, opts);
      case Stop => ResetKeeps(s);
      case Restart(opts) => ResetKeeps(s); ScheduleStartKeeps(Reset(NewSession(s)), opts);
      case UpdateTimeout(_) =>
    }
  }

  lemma {:induction false} PerformAllKeeps(s: State, calls: seq<Call>)
    requires TimerInv(s) && QueueInv(s)
    ensures var t := PerformAll(s, calls);
            && TimerInv(t) && QueueInv(t)
            && t.inFlight == s.inFlight && t.fnExecutionsCount == s.fnExecutionsCount
            && s.internalSessionId <= t.internalSessionId
            && (t.running ==> s.running && t.internalSessionId == s.internalSessionId && t.timers == s.timers)
            && (!t.running ==> t.timers == map[] && (s.running ==> s.internalSessionId < t.internalSessionId))
  {
    if calls == [] {
    } else {
      PerformAllKeeps(s, calls[..|calls| - 1]);
      PerformKeeps(PerformAll(s, calls[..|calls| - 1]), calls[|calls| - 1]);
    }
  }

  lemma BeginLoopKeeps(s: State, calls: seq<Call>)
    requires TimerInv(s) && QueueInv(s) && s.running && s.timers == map[]
    requires forall c :: c in s.inFlight ==> c <= s.fnExecutionsCount && s.inFlight[c] < s.internalSessionId
    requires forall c, d :: c in s.inFlight && d in s.inFlight && c < d ==> s.inFlight[c] < s.inFlight[d]
    ensures Inv(BeginLoop(s, calls))
  {
    PerformAllKeeps(CountExecution(s), calls);
  }

  lemma TakeMicrotask(q: seq<nat>, index: nat)
    requires index < |q|
    ensures multiset(q[..index] + q[index + 1..]) == multiset(q) - multiset{q[index]}
    ensures forall m :: m in q[..index] + q[index + 1..] ==> m in q
  {
    assert q == q[..index] + [q[index]] + q[index + 1..];
  }

  lemma MicrotaskKeeps(s: State, index: nat, now: int, calls: seq<Call>)
    requires Inv(s) && index < |s.microtasks| && !Doubles(s, Microtask(index, now, calls))
    ensures Inv(RunMicrotask(s, index, now, calls))
  {
    TakeMicrotask(s.microtasks, index);
    assert forall m :: m in Dequeue(s, index).microtasks ==> m in s.microtasks;
    if s.internalSessionId == s.microtasks[index] {
      assert s.microtasks[index] in multiset(s.microtasks);
      var p := PendingOptions(s);
      if (s.promise.None? || p.allowOverlap) && p.runImmediately {
        BeginLoopKeeps(Started(Dequeue(s, index), now), calls);
      }
    }
  }

  lemma FireTimerKeeps(s: State, id: nat, calls: seq<Call>)
    requires Inv(s) && id in s.timers
    ensures Inv(FireTimer(s, id, calls))
  {
    assert (s.timers - {id}).Keys == {};
    BeginLoopKeeps(s.(timers := s.timers - {id}), calls);
  }

  lemma SettleKeeps(s: State, execution: nat, rejected: bool)
    requires Inv(s) && execution in s.inFlight
    ensures Inv(Settle(s, execution, rejected))
  {
    var t := Settle(s, execution, rejected);
    if s.promise.Some? && s.fnExecutionsCount == execution && s.running {
      assert s.nextTimerId in t.timers;
    }
  }

  lemma PerformKeepsInv(s: State, call: Call)
    requires Inv(s)
    ensures Inv(Perform(s, call))
  {
    PerformKeeps(s, call);
  }

  /**
   A step keeps the invariant exactly when it is not the doubling one; and after the doubling step
   the owning execution may settle, which leaves two live timers.
   */
  lemma StepKeepsInvIff(s: State, e: Event)
    requires Inv(s)
    ensures Inv(Step(s, e)) <==> !Doubles(s, e)
    ensures Doubles(s, e) ==> |Step(Step(s, e), FnSettles(s.promise.value, false)).timers| == 2
  {
    if Doubles(s, e) {
      assert s.timers == map[];
      var t := Step(s, e);
      assert t.timers == map[s.nextTimerId := t.currentTimeout];
      var u := Step(t, FnSettles(s.promise.value, false));
      assert u.timers.Keys == {s.nextTimerId, s.nextTimerId + 1};
    } else if Enabled(s, e) {
      match e {
        case Invoke(call) => PerformKeepsInv(s, call);
        case Microtask(index, now, calls) => MicrotaskKeeps(s, index, now, calls);
        case TimerFires(id, calls) => FireTimerKeeps(s, id, calls);
        case FnSettles(execution, rejected) => SettleKeeps(s, execution, rejected);
      }
    }
  }

  // ----- A run that doubles

  lemma RunTwo(s: State, a: Event, b: Event)
    ensures Run(s, [a, b]) == Step(Step(s, a), b)
  {
    assert [a, b][1..] == [b] && [b][1..] == [];
    assert Run(Step(s, a), [b]) == Step(Step(s, a), b);
  }

  /** `fn` is called at once, and stops its own interval before it returns its promise. */
  function StopsItself(now: int): seq<Event> {
    [Invoke(Start(StartOptions(None, true, false))), Microtask(0, now, [Stop])]
  }

  lemma StopsItselfResult(timeout: int, reportsErrors: bool, now: int)
    ensures var s := Run(Initial(timeout, reportsErrors), StopsItself(now));
            && Inv(s) && !s.running && s.promise == Some(1) && s.pendingStart == None && !s.startScheduled
            && s.microtasks == [] && s.timers == map[] && s.internalSessionId == 1 && s.inFlight == map[1 := 0]
  {
    var s0 := Initial(timeout, reportsErrors);
    var start := StartOptions(None, true, false);
    RunTwo(s0, Invoke(Start(start)), Microtask(0, now, [Stop]));
    var s1 := Perform(s0, Start(start));
    assert s1.microtasks == [0] && s1.pendingStart == Some(start);
    StepKeepsInvIff(s0, Invoke(Start(start)));
    StepKeepsInvIff(s1, Microtask(0, now, [Stop]));
    var s2 := Started(Dequeue(s1, 0), now);
    assert s2.microtasks == [];
    var s3 := CountExecution(s2);
    assert [Stop][..0] == [];
    assert PerformAll(s3, [Stop]) == Reset(NewSession(s3));
  }

  /**
   A run from a new interval to two live timers: after `fn` stopped its own interval and while it still
   runs, a start that allows overlap but does not run immediately is the doubling one, and when `fn` ends it sets a
   second timer.
   */
  lemma DoublingIsReached(timeout: int, reportsErrors: bool, now: int, later: int)
    ensures var s := Run(Initial(timeout, reportsErrors), StopsItself(now));
            var t := Step(s, Invoke(Start(StartOptions(None, false, true))));
            && Doubles(t, Microtask(0, later, []))
            && |Run(t, [Microtask(0, later, []), FnSettles(1, false)]).timers| == 2
  {
    StopsItselfResult(timeout, reportsErrors, now);
    var s := Run(Initial(timeout, reportsErrors), StopsItself(now));
    var start := StartOptions(None, false, true);
    var t := Step(s, Invoke(Start(start)));
    StepKeepsInvIff(s, Invoke(Start(start)));
    assert t.microtasks == [1] && t.pendingStart == Some(start);
    RunTwo(t, Microtask(0, later, []), FnSettles(1, false));
    StepKeepsInvIff(t, Microtask(0, later, []));
  }

  // ----- Whole runs

  /** No step of the run is the doubling one. */
  ghost predicate NeverDoubles(s: State, events: seq<Event>)
    decreases |events|
  {
    events == [] || (!Doubles(s, events[0]) && NeverDoubles(Step(s, events[0]), events[1..]))
  }

  lemma {:induction false} RunKeepsInv(s: State, events: seq<Event>)
    requires Inv(s) && NeverDoubles(s, events)
    ensures Inv(Run(s, events))
    decreases |events|
  {
    if events == [] {
    } else {
      StepKeepsInvIff(s, events[0]);
      RunKeepsInv(Step(s, events[0]), events[1..]);
    }
  }

  /** What every reachable state promises: one driver, one matching microtask, no overlap inside a session. */
  lemma LoopNeverDiesNorDoubles(timeout: int, reportsErrors: bool, events: seq<Event>)
    requires NeverDoubles(Initial(timeout, reportsErrors), events)
    ensures var s := Run(Initial(timeout, reportsErrors), events);
            && |s.timers| <= 1
            && (forall t :: t in s.timers ==> s.timeoutId == Some(t) && s.running)
            && (s.running ==> (|s.timers| == 1 <==> s.promise.None?))
            && (s.promise.Some? ==> s.promise.value in s.inFlight && s.promise.value == s.fnExecutionsCount)
            && (s.startScheduled <==> s.internalSessionId in s.microtasks)
            && multiset(s.microtasks)[s.internalSessionId] <= 1
            && !(s.startScheduled && s.running)
            && (forall c, d :: c in s.inFlight && d in s.inFlight && c != d ==> s.inFlight[c] != s.inFlight[d])
  {
    var s0 := Initial(timeout, reportsErrors);
    RunKeepsInv(s0, events);
    var s := Run(s0, events);
    if s.timers != map[] {
      var t :| t in s.timers;
      assert s.timers.Keys == {t};
    }
    assert s.startScheduled <==> s.internalSessionId in multiset(s.microtasks);
  }

  ghost predicate Disciplined(call: Call) {
    (call.Start? || call.Restart?) && call.opts.allowOverlap ==> call.opts.runImmediately
  }

  /** Every start and restart that allows overlap also runs immediately. */
  ghost predicate DisciplinedEvent(e: Event) {
    match e
    case Invoke(call) => Disciplined(call)
    case Microtask(_, _, calls) => forall c :: c in calls ==> Disciplined(c)
    case TimerFires(_, calls) => forall c :: c in calls ==> Disciplined(c)
    case FnSettles(_, _) => true
  }

  ghost predicate PendingDisciplined(s: State) {
    s.pendingStart.Some? && s.pendingStart.value.allowOverlap ==> s.pendingStart.value.runImmediately
  }

  lemma PerformDisciplined(s: State, call: Call)
    requires PendingDisciplined(s) && Disciplined(call)
    ensures PendingDisciplined(Perform(s, call))
  {
  }

  lemma {:induction false} PerformAllDisciplined(s: State, calls: seq<Call>)
    requires PendingDisciplined(s) && forall c :: c in calls ==> Disciplined(c)
    ensures PendingDisciplined(PerformAll(s, calls))
  {
    if calls == [] {
    } else {
      assert calls[|calls| - 1] in calls;
      PerformAllDisciplined(s, calls[..|calls| - 1]);
      PerformDisciplined(PerformAll(s, calls[..|calls| - 1]), calls[|calls| - 1]);
    }
  }

  lemma MicrotaskDisciplined(s: State, index: nat, now: int, calls: seq<Call>)
    requires PendingDisciplined(s) && (forall c :: c in calls ==> Disciplined(c)) && index < |s.microtasks|
    ensures PendingDisciplined(RunMicrotask(s, index, now, calls))
  {
    PerformAllDisciplined(CountExecution(Started(Dequeue(s, index), now)), calls);
  }

  lemma TimerDisciplined(s: State, id: nat, calls: seq<Call>)
    requires PendingDisciplined(s) && (forall c :: c in calls ==> Disciplined(c)) && id in s.timers
    ensures PendingDisciplined(FireTimer(s, id, calls))
  {
    PerformAllDisciplined(CountExecution(s.(timers := s.timers - {id})), calls);
  }

  lemma StepDisciplined(s: State, e: Event)
    requires PendingDisciplined(s) && DisciplinedEvent(e)
    ensures PendingDisciplined(Step(s, e)) && !Doubles(s, e)
  {
    if Enabled(s, e) {
      match e {
        case Invoke(call) => PerformDisciplined(s, call);
        case Microtask(index, now, calls) => MicrotaskDisciplined(s, index, now, calls);
        case TimerFires(id, calls) => TimerDisciplined(s, id, calls);
        case FnSettles(_, _) =>
      }
    }
  }

  /** Callers that pair `allowOverlap` with `runImmediately` never see the doubling step. */
  lemma {:induction false} DisciplinedRunsNeverDouble(s: State, events: seq<Event>)
    requires PendingDisciplined(s) && forall e :: e in events ==> DisciplinedEvent(e)
    ensures NeverDoubles(s, events)
    decreases |events|
  {
    if events == [] {
    } else {
      StepDisciplined(s, events[0]);
      DisciplinedRunsNeverDouble(Step(s, events[0]), events[1..]);
    }
  }

  // ----- Nothing begins after a stop

  ghost predicate Stopped(s: State) {
    !s.running && !s.startScheduled
  }

  ghost predicate Starts(e: Event) {
    e.Invoke? && (e.call.Start? || e.call.Restart?)
  }

  /** Between a stop and the next start or restart no execution of `fn` begins, whatever was queued or in flight. */
  lemma {:induction false} NoExecutionBeginsWhileStopped(s: State, events: seq<Event>)
    requires Inv(s) && Stopped(s)
    requires forall e :: e in events ==> !Starts(e)
    ensures var t := Run(s, events); Stopped(t) && t.fnExecutionsCount == s.fnExecutionsCount
    decreases |events|
  {
    if events == [] {
    } else {
      var e := events[0];
      if e.Microtask? && e.index < |s.microtasks| {
        assert s.microtasks[e.index] in multiset(s.microtasks);
      }
      StepKeepsInvIff(s, e);
      assert e in events;
      NoExecutionBeginsWhileStopped(Step(s, e), events[1..]);
    }
  }

  lemma StopLeavesStopped(s: State)
    requires Inv(s)
    ensures var t := Step(s, Invoke(Stop)); Inv(t) && Stopped(t) && t.promise.None? && t.timers == map[]
  {
    StepKeepsInvIff(s, Invoke(Stop));
  }

  // ----- Disowned executions

  /** An execution that no longer owns the promise changes nothing the loop depends on when it settles. */
  lemma DisownedSettlesSilently(s: State, execution: nat, rejected: bool)
    requires Inv(s) && execution in s.inFlight && s.promise != Some(execution)
    ensures var t := Settle(s, execution, rejected);
            t == s.(inFlight := s.inFlight - {execution}, errors := t.errors)
  {
  }

  /** Once disowned, an execution is disowned in every later state. */
  lemma {:induction false} DisownedForever(s: State, events: seq<Event>, execution: nat)
    requires Inv(s) && NeverDoubles(s, events)
    requires execution <= s.fnExecutionsCount && s.promise != Some(execution)
    ensures Run(s, events).promise != Some(execution)
    decreases |events|
  {
    if events == [] {
    } else {
      var e := events[0];
      StepKeepsInvIff(s, e);
      match e {
        case Invoke(call) => PerformKeeps(s, call);
        case Microtask(index, now, calls) => CountGrows(s, e);
        case TimerFires(id, calls) => CountGrows(s, e);
        case FnSettles(_, _) =>
      }
      DisownedForever(Step(s, e), events[1..], execution);
    }
  }

  lemma PerformCount(s: State, call: Call)
    ensures Perform(s, call).fnExecutionsCount == s.fnExecutionsCount
  {
  }

  lemma {:induction false} PerformAllCount(s: State, calls: seq<Call>)
    ensures PerformAll(s, calls).fnExecutionsCount == s.fnExecutionsCount
  {
    if calls == [] {
    } else {
      PerformAllCount(s, calls[..|calls| - 1]);
      PerformCount(PerformAll(s, calls[..|calls| - 1]), calls[|calls| - 1]);
    }
  }

  lemma CountGrows(s: State, e: Event)
    requires e.Microtask? || e.TimerFires?
    ensures var t := Step(s, e);
            && s.fnExecutionsCount <= t.fnExecutionsCount
            && (t.promise == s.promise
                || (t.fnExecutionsCount == s.fnExecutionsCount + 1 && t.promise == Some(t.fnExecutionsCount)))
  {
    if Enabled(s, e) {
      match e {
        case Microtask(index, now, calls) =>
          PerformAllCount(CountExecution(Started(Dequeue(s, index), now)), calls);
        case TimerFires(id, calls) =>
          PerformAllCount(CountExecution(s.(timers := s.timers - {id})), calls);
      }
    }
  }
}
