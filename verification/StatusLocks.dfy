/**
 The `withStatus` lock of every controller (src/controllers/eventEmitter/eventEmitter.ts).

 A call runs through the awaits of the source's method; `phase` names the await it is suspended at.
 Every assignment to a status is recorded, with the call that made it.
 */
module StatusLocks {
  import opened Wrappers

  datatype Status = INITIAL | LOADING | SUCCESS | ERROR

  datatype Phase = Waiting | Announcing | InBody | Finishing(ok: bool) | Closing

  datatype ActiveCall = ActiveCall(name: string, phase: Phase)

  datatype Write = Write(call: nat, name: string, status: Status)

  /** How the wrapped function ends. It throws an object, with or without a message to report, or a primitive. */
  datatype Ending = Returned | ThrewReported | ThrewSilently | ThrewPrimitive

  datatype State = State(
    statuses: map<string, Status>,
    calls: map<nat, ActiveCall>,
    nextCall: nat,
    errors: nat,
    writes: seq<Write>)

  datatype Event =
    | Call(name: string, allowConcurrentActions: bool)
    | Waited(call: nat)
    | Announced(call: nat)
    | BodyEnds(call: nat, ending: Ending)
    | Finished(call: nat)
    | Closed(call: nat)

  function Initial(names: set<string>): State {
    State(map n | n in names :: INITIAL, map[], 0, 0, [])
  }

  predicate SomeStatusIsLoading(s: State) {
    exists n :: n in s.statuses && s.statuses[n] != INITIAL
  }

  predicate Accepts(s: State, name: string, allowConcurrentActions: bool) {
    && (allowConcurrentActions || !SomeStatusIsLoading(s))
    && name in s.statuses && s.statuses[name] in {INITIAL, SUCCESS}
  }

  function SetStatus(s: State, call: nat, name: string, status: Status): State {
    s.(statuses := s.statuses[name := status], writes := s.writes + [Write(call, name, status)])
  }

  function SetPhase(s: State, call: nat, name: string, phase: Phase): State {
    s.(calls := s.calls[call := ActiveCall(name, phase)])
  }

  function Begin(s: State, name: string, allowConcurrentActions: bool): State {
    if !Accepts(s, name, allowConcurrentActions) then s.(errors := s.errors + 1)
    else
      var c := s.nextCall;
      var s1 := s.(nextCall := c + 1);
      if s.statuses[name] == SUCCESS then SetPhase(s1, c, name, Waiting)
      else SetPhase(SetStatus(s1, c, name, LOADING), c, name, Announcing)
  }

  function EndBody(s: State, c: nat, name: string, ending: Ending): State {
    match ending
    case Returned => SetPhase(SetStatus(s, c, name, SUCCESS), c, name, Finishing(true))
    case ThrewReported => SetPhase(SetStatus(s.(errors := s.errors + 1), c, name, ERROR), c, name, Finishing(false))
    case ThrewSilently => SetPhase(SetStatus(s, c, name, ERROR), c, name, Finishing(false))
    // the `in` operator on a primitive throws out of the catch block
    case ThrewPrimitive => SetStatus(s, c, name, ERROR).(calls := s.calls - {c})
  }

  predicate Enabled(s: State, e: Event) {
    match e
    case Call(_, _) => true
    case Waited(c) => c in s.calls && s.calls[c].phase.Waiting?
    case Announced(c) => c in s.calls && s.calls[c].phase.Announcing?
    case BodyEnds(c, _) => c in s.calls && s.calls[c].phase.InBody?
    case Finished(c) => c in s.calls && s.calls[c].phase.Finishing?
    case Closed(c) => c in s.calls && s.calls[c].phase.Closing?
  }

  function Step(s: State, e: Event): State {
    if !Enabled(s, e) then s
    else
      match e
      case Call(name, allowConcurrentActions) => Begin(s, name, allowConcurrentActions)
      case Waited(c) => SetPhase(SetStatus(s, c, s.calls[c].name, LOADING), c, s.calls[c].name, Announcing)
      case Announced(c) => SetPhase(s, c, s.calls[c].name, InBody)
      case BodyEnds(c, ending) => EndBody(s, c, s.calls[c].name, ending)
      case Finished(c) => SetPhase(SetStatus(s, c, s.calls[c].name, INITIAL), c, s.calls[c].name, Closing)
      case Closed(c) => s.(calls := s.calls - {c})
  }

  function Run(s: State, events: seq<Event>): State
    decreases |events|
  {
    if events == [] then s else Run(Step(s, events[0]), events[1..])
  }

  // ----- The class of the source

  class Controller {
    var statuses: map<string, Status>
    var errors: nat
    // the suspended calls
    var calls: map<nat, ActiveCall>
    var nextCall: nat
    ghost var writes: seq<Write>

    ghost function View(): State
      reads this
    {
      State(statuses, calls, nextCall, errors, writes)
    }

    constructor (names: set<string>)
      ensures View() == Initial(names)
    {
      statuses, errors := map n | n in names :: INITIAL, 0;
      calls, nextCall, writes := map[], 0, [];
    }

    method Assign(c: nat, name: string, status: Status)
      modifies this
      ensures View() == SetStatus(old(View()), c, name, status)
    {
      statuses := statuses[name := status];
      writes := writes + [Write(c, name, status)];
    }

    /** `withStatus` up to its first await. */
    method WithStatus(name: string, allowConcurrentActions: bool)
      modifies this
      ensures View() == Step(old(View()), Call(name, allowConcurrentActions))
    {
      var someStatusIsLoading := exists n :: n in statuses && statuses[n] != INITIAL;
      if (someStatusIsLoading && !allowConcurrentActions)
         || name !in statuses || statuses[name] !in {INITIAL, SUCCESS} {
        errors := errors + 1;
        return;
      }
      var c := nextCall;
      nextCall := nextCall + 1;
      if statuses[name] == SUCCESS {
        calls := calls[c := ActiveCall(name, Waiting)];
      } else {
        StartLoading(c, name);
      }
    }

    method StartLoading(c: nat, name: string)
      modifies this
      ensures View() == SetPhase(SetStatus(old(View()), c, name, LOADING), c, name, Announcing)
    {
      Assign(c, name, LOADING);
      calls := calls[c := ActiveCall(name, Announcing)];
    }

    method AfterWait(c: nat)
      requires Enabled(View(), Waited(c))
      modifies this
      ensures View() == Step(old(View()), Waited(c))
    {
      StartLoading(c, calls[c].name);
    }

    method CallBody(c: nat)
      requires Enabled(View(), Announced(c))
      modifies this
      ensures View() == Step(old(View()), Announced(c))
    {
      calls := calls[c := ActiveCall(calls[c].name, InBody)];
    }

    method AfterBody(c: nat, ending: Ending)
      requires Enabled(View(), BodyEnds(c, ending))
      modifies this
      ensures View() == Step(old(View()), BodyEnds(c, ending))
    {
      var name := calls[c].name;
      if ending.Returned? {
        Assign(c, name, SUCCESS);
        calls := calls[c := ActiveCall(name, Finishing(true))];
        return;
      }
      Assign(c, name, ERROR);
      if ending.ThrewPrimitive? {
        calls := calls - {c};
        return;
      }
      if ending.ThrewReported? {
        errors := errors + 1;
      }
      calls := calls[c := ActiveCall(name, Finishing(false))];
    }

    method BackToInitial(c: nat)
      requires Enabled(View(), Finished(c))
      modifies this
      ensures View() == Step(old(View()), Finished(c))
    {
      var name := calls[c].name;
      Assign(c, name, INITIAL);
      calls := calls[c := ActiveCall(name, Closing)];
    }

    method Close(c: nat)
      requires Enabled(View(), Closed(c))
      modifies this
      ensures View() == Step(old(View()), Closed(c))
    {
      calls := calls - {c};
    }
  }

  // ----- One call per name

  /** A call that holds its name: it has set the status and not yet set it back. */
  predicate Holds(s: State, c: nat) {
    c in s.calls && !s.calls[c].phase.Waiting? && !s.calls[c].phase.Closing?
  }

  function Shown(phase: Phase): Status {
    match phase
    case Waiting => INITIAL
    case Announcing => LOADING
    case InBody => LOADING
    case Finishing(ok) => if ok then SUCCESS else ERROR
    case Closing => INITIAL
  }

  /**
   No two calls hold one name, none waits for a name, and a status is what the call holding it shows. Only
   ERROR is shown without one: a body that throws a primitive leaves it.
   */
  ghost predicate OnePerName(s: State) {
    && (forall c :: c in s.calls ==> c < s.nextCall && s.calls[c].name in s.statuses && !s.calls[c].phase.Waiting?)
    && (forall c, d :: Holds(s, c) && Holds(s, d) && s.calls[c].name == s.calls[d].name ==> c == d)
    && (forall c :: Holds(s, c) ==> s.statuses[s.calls[c].name] == Shown(s.calls[c].phase))
    && (forall n :: n in s.statuses && s.statuses[n] in {LOADING, SUCCESS} ==> IsHeld(s, n))
  }

  ghost predicate IsHeld(s: State, name: string) {
    exists c :: Holds(s, c) && s.calls[c].name == name
  }

  /** A call accepted while the previous one of its name still shows SUCCESS. */
  ghost predicate AcceptedAtSuccess(s: State, e: Event) {
    e.Call? && Accepts(s, e.name, e.allowConcurrentActions) && s.statuses[e.name] == SUCCESS
  }

  /** One call moves on to a phase that shows the new status of its name, which no other call holds. */
  lemma MoveKeepsOnePerName(s: State, t: State, c: nat, name: string, phase: Phase)
    requires OnePerName(s) && name in s.statuses && !phase.Waiting?
    requires s.nextCall <= t.nextCall && c < t.nextCall && (c in s.calls ==> s.calls[c].name == name)
    requires forall d :: d != c && Holds(s, d) ==> s.calls[d].name != name
    requires t.calls == s.calls[c := ActiveCall(name, phase)]
    requires t.statuses == s.statuses[name := Shown(phase)]
    ensures OnePerName(t)
  {
    forall d | d != c ensures Holds(t, d) == Holds(s, d) {}
    forall n | n in t.statuses && t.statuses[n] in {LOADING, SUCCESS} ensures IsHeld(t, n) {
      if n == name {
        assert Holds(t, c);
      } else {
        assert IsHeld(s, n);
        var d :| Holds(s, d) && s.calls[d].name == n;
        assert Holds(t, d) && t.calls[d].name == n;
      }
    }
  }

  lemma BeginKeepsOnePerName(s: State, name: string, allow: bool)
    requires OnePerName(s) && !(Accepts(s, name, allow) && s.statuses[name] == SUCCESS)
    ensures OnePerName(Begin(s, name, allow))
  {
    if Accepts(s, name, allow) {
      MoveKeepsOnePerName(s, Begin(s, name, allow), s.nextCall, name, Announcing);
    }
  }

  lemma CloseKeepsOnePerName(s: State, c: nat)
    requires OnePerName(s) && c in s.calls && s.calls[c].phase.Closing?
    ensures OnePerName(s.(calls := s.calls - {c}))
  {
    var t := s.(calls := s.calls - {c});
    forall d ensures Holds(t, d) == Holds(s, d) {}
    forall n | n in t.statuses && t.statuses[n] in {LOADING, SUCCESS} ensures IsHeld(t, n) {
      assert IsHeld(s, n);
      var d :| Holds(s, d) && s.calls[d].name == n;
      assert Holds(t, d) && t.calls[d].name == n;
    }
  }

  lemma PrimitiveKeepsOnePerName(s: State, c: nat)
    requires OnePerName(s) && c in s.calls && s.calls[c].phase.InBody?
    ensures OnePerName(EndBody(s, c, s.calls[c].name, ThrewPrimitive))
  {
    var t, name := EndBody(s, c, s.calls[c].name, ThrewPrimitive), s.calls[c].name;
    assert Holds(s, c);
    forall d | d != c ensures Holds(t, d) == Holds(s, d) {}
    forall n | n in t.statuses && t.statuses[n] in {LOADING, SUCCESS} ensures IsHeld(t, n) {
      assert n != name && IsHeld(s, n);
      var d :| Holds(s, d) && s.calls[d].name == n;
      assert Holds(t, d) && t.calls[d].name == n;
    }
  }

  lemma StepKeepsOnePerName(s: State, e: Event)
    requires OnePerName(s) && !AcceptedAtSuccess(s, e)
    ensures OnePerName(Step(s, e))
  {
    var t := Step(s, e);
    if Enabled(s, e) {
      match e {
        case Call(name, allow) => BeginKeepsOnePerName(s, name, allow);
        case Closed(c) => CloseKeepsOnePerName(s, c);
        case Waited(c) =>
        case Announced(c) =>
          assert Holds(s, c) && t.statuses == s.statuses[s.calls[c].name := LOADING];
          MoveKeepsOnePerName(s, t, c, s.calls[c].name, InBody);
        case BodyEnds(c, ending) =>
          assert Holds(s, c);
          if ending.ThrewPrimitive? {
            PrimitiveKeepsOnePerName(s, c);
          } else {
            MoveKeepsOnePerName(s, t, c, s.calls[c].name, Finishing(ending.Returned?));
          }
        case Finished(c) =>
          assert Holds(s, c);
          MoveKeepsOnePerName(s, t, c, s.calls[c].name, Closing);
      }
    }
  }

  /** Exclusion by name survives a step, thrown primitives included, exactly when it accepts no call at SUCCESS. */
  lemma StepKeepsOnePerNameIff(s: State, e: Event)
    requires OnePerName(s)
    ensures OnePerName(Step(s, e)) <==> !AcceptedAtSuccess(s, e)
  {
    if AcceptedAtSuccess(s, e) {
      assert s.nextCall in Step(s, e).calls;
    } else {
      StepKeepsOnePerName(s, e);
    }
  }

  ghost predicate TwoBodies(s: State, name: string) {
    exists c, d :: c != d && c in s.calls && d in s.calls
      && s.calls[c] == ActiveCall(name, InBody) && s.calls[d] == ActiveCall(name, InBody)
  }

  /**
   Wherever a call is accepted at SUCCESS, the call that showed SUCCESS may end, another be accepted at
   INITIAL, and both go on to have their bodies in flight together.
   */
  lemma AcceptingAtSuccessAllowsTwoBodies(s: State, e: Event) returns (d: nat)
    requires OnePerName(s) && AcceptedAtSuccess(s, e)
    ensures var c := s.nextCall;
            var u := Step(Step(Step(s, e), Finished(d)), Call(e.name, true));
            TwoBodies(Step(Step(Step(u, Announced(c + 1)), Waited(c)), Announced(c)), e.name)
  {
    assert IsHeld(s, e.name);
    d :| Holds(s, d) && s.calls[d].name == e.name;
    var c := s.nextCall;
    var s2, s3 := BothBegin(s, e, d);
    BothEnter(s3, c, c + 1, e.name);
  }

  lemma BothBegin(s: State, e: Event, d: nat) returns (s2: State, s3: State)
    requires AcceptedAtSuccess(s, e) && d in s.calls && d < s.nextCall
    requires s.calls[d] == ActiveCall(e.name, Finishing(true))
    ensures s2 == Step(Step(s, e), Finished(d)) && s3 == Step(s2, Call(e.name, true))
    ensures s.nextCall in s3.calls && s3.calls[s.nextCall] == ActiveCall(e.name, Waiting)
    ensures s.nextCall + 1 in s3.calls && s3.calls[s.nextCall + 1] == ActiveCall(e.name, Announcing)
    ensures s2.statuses[e.name] == INITIAL
  {
    s2 := Step(Step(s, e), Finished(d));
    s3 := Step(s2, Call(e.name, true));
  }

  lemma BothEnter(s: State, c: nat, d: nat, name: string)
    requires c != d && c in s.calls && d in s.calls
    requires s.calls[c] == ActiveCall(name, Waiting) && s.calls[d] == ActiveCall(name, Announcing)
    ensures TwoBodies(Step(Step(Step(s, Announced(d)), Waited(c)), Announced(c)), name)
  {
    var t := Step(Step(Step(s, Announced(d)), Waited(c)), Announced(c));
    assert t.calls[c] == ActiveCall(name, InBody) && t.calls[d] == ActiveCall(name, InBody);
  }

  // ----- Concrete runs

  lemma {:induction false} RunConcat(s: State, first: seq<Event>, second: seq<Event>)
    ensures Run(s, first + second) == Run(Run(s, first), second)
    decreases |first|
  {
    if first == [] {
      assert first + second == second;
    } else {
      assert (first + second)[1..] == first[1..] + second;
      RunConcat(Step(s, first[0]), first[1..], second);
    }
  }

  lemma RunThree(s: State, a: Event, b: Event, c: Event)
    ensures Run(s, [a, b, c]) == Step(Step(Step(s, a), b), c)
  {
    assert [a, b, c][1..] == [b, c] && [b, c][1..] == [c] && [c][1..] == [];
    assert Run(Step(Step(s, a), b), [c]) == Step(Step(Step(s, a), b), c);
    assert Run(Step(s, a), [b, c]) == Run(Step(Step(s, a), b), [c]);
  }

  /** A first call, as far as its body. */
  lemma FirstBody(name: string, allow: bool)
    ensures Step(Step(Initial({name}), Call(name, allow)), Announced(0)) ==
            State(map[name := LOADING], map[0 := ActiveCall(name, InBody)], 1, 0, [Write(0, name, LOADING)])
  {
    var s1 := Step(Initial({name}), Call(name, allow));
    assert s1.statuses == map[name := LOADING] && s1.calls == map[0 := ActiveCall(name, Announcing)];
    assert s1.writes == [Write(0, name, LOADING)];
  }

  /** A call from the initial state, whose body returns. */
  function FirstCall(name: string): seq<Event> {
    [Call(name, true), Announced(0), BodyEnds(0, Returned)]
  }

  lemma FirstCallResult(name: string)
    ensures Run(Initial({name}), FirstCall(name)) ==
            State(map[name := SUCCESS], map[0 := ActiveCall(name, Finishing(true))], 1, 0,
                  [Write(0, name, LOADING), Write(0, name, SUCCESS)])
  {
    RunThree(Initial({name}), Call(name, true), Announced(0), BodyEnds(0, Returned));
    FirstBody(name, true);
    var s := Step(Step(Initial({name}), Call(name, true)), Announced(0));
    assert EndBody(s, 0, name, Returned).writes == [Write(0, name, LOADING), Write(0, name, SUCCESS)];
  }

  /** While it shows SUCCESS a second call is accepted, it ends, a third is accepted, and both enter their bodies. */
  function TwoMoreCalls(name: string): seq<Event> {
    [Call(name, true), Finished(0), Call(name, true)] + [Announced(2), Waited(1), Announced(1)]
  }

  /** So a run of three concurrent calls of one name has two bodies in flight. */
  lemma TwoBodiesAreReached(name: string)
    ensures TwoBodies(Run(Initial({name}), FirstCall(name) + TwoMoreCalls(name)), name)
  {
    RunConcat(Initial({name}), FirstCall(name), TwoMoreCalls(name));
    FirstCallResult(name);
    var s := Run(Initial({name}), FirstCall(name));
    RunConcat(s, [Call(name, true), Finished(0), Call(name, true)], [Announced(2), Waited(1), Announced(1)]);
    RunThree(s, Call(name, true), Finished(0), Call(name, true));
    var s2, s3 := BothBegin(s, Call(name, true), 0);
    RunThree(s3, Announced(2), Waited(1), Announced(1));
    BothEnter(s3, 1, 2, name);
  }

  // ----- Every run

  /** No call of the run is accepted at SUCCESS. */
  ghost predicate NoneAcceptedAtSuccess(s: State, events: seq<Event>)
    decreases |events|
  {
    events == [] || (!AcceptedAtSuccess(s, events[0]) && NoneAcceptedAtSuccess(Step(s, events[0]), events[1..]))
  }

  lemma {:induction false} RunKeepsOnePerName(s: State, events: seq<Event>)
    requires OnePerName(s) && NoneAcceptedAtSuccess(s, events)
    ensures OnePerName(Run(s, events))
    decreases |events|
  {
    if events == [] {
    } else {
      StepKeepsOnePerName(s, events[0]);
      RunKeepsOnePerName(Step(s, events[0]), events[1..]);
    }
  }

  lemma OneBody(s: State, name: string)
    requires OnePerName(s)
    ensures !TwoBodies(s, name)
  {
    assert forall c :: c in s.calls && s.calls[c].phase.InBody? ==> Holds(s, c);
  }

  /**
   In every run that accepts no call at SUCCESS, concurrent calls and thrown primitives included, no two
   bodies of one name are in flight.
   */
  lemma ConcurrentModeExcludes(names: set<string>, events: seq<Event>, name: string)
    requires NoneAcceptedAtSuccess(Initial(names), events)
    ensures !TwoBodies(Run(Initial(names), events), name)
  {
    NoTwoBodiesFollow(Initial(names), events);
  }

  lemma {:induction false} AcceptedConcat(s: State, first: seq<Event>, second: seq<Event>)
    ensures NoneAcceptedAtSuccess(s, first + second) <==>
            NoneAcceptedAtSuccess(s, first) && NoneAcceptedAtSuccess(Run(s, first), second)
    decreases |first|
  {
    if first == [] {
      assert first + second == second;
    } else {
      assert (first + second)[1..] == first[1..] + second;
      AcceptedConcat(Step(s, first[0]), first[1..], second);
    }
  }

  lemma {:induction false} OnlyCallsAreAccepted(s: State, events: seq<Event>)
    requires forall e :: e in events ==> !e.Call?
    ensures NoneAcceptedAtSuccess(s, events)
    decreases |events|
  {
    if events == [] {
    } else {
      assert events[0] in events;
      OnlyCallsAreAccepted(Step(s, events[0]), events[1..]);
    }
  }

  lemma RunTwo(s: State, a: Event, b: Event)
    ensures Run(s, [a, b]) == Step(Step(s, a), b)
    ensures NoneAcceptedAtSuccess(s, [a, b]) <==> !AcceptedAtSuccess(s, a) && !AcceptedAtSuccess(Step(s, a), b)
  {
    assert [a, b][1..] == [b] && [b][1..] == [];
    assert Run(Step(s, a), [b]) == Step(Step(s, a), b);
    assert NoneAcceptedAtSuccess(Step(s, a), [b]) <==> !AcceptedAtSuccess(Step(s, a), b);
  }

  /** The run goes on to two bodies of the name without accepting a call at SUCCESS. */
  ghost predicate LeadsToTwoBodies(s: State, more: seq<Event>, name: string) {
    NoneAcceptedAtSuccess(s, more) && TwoBodies(Run(s, more), name)
  }

  lemma BothEnterInARun(s: State, c: nat, d: nat, name: string)
    requires c != d && c in s.calls && d in s.calls
    requires s.calls[c] == ActiveCall(name, Waiting) && s.calls[d] == ActiveCall(name, Announcing)
    ensures LeadsToTwoBodies(s, [Announced(d), Waited(c), Announced(c)], name)
  {
    RunThree(s, Announced(d), Waited(c), Announced(c));
    BothEnter(s, c, d, name);
    OnlyCallsAreAccepted(s, [Announced(d), Waited(c), Announced(c)]);
  }

  lemma TwoBodiesFollow(s: State, e: Event) returns (more: seq<Event>)
    requires OnePerName(s) && AcceptedAtSuccess(s, e)
    ensures LeadsToTwoBodies(Step(s, e), more, e.name)
  {
    assert IsHeld(s, e.name);
    var c, d :| c == s.nextCall && Holds(s, d) && s.calls[d].name == e.name;
    var s2, s3 := BothBegin(s, e, d);
    var first, second := [Finished(d), Call(e.name, true)], [Announced(c + 1), Waited(c), Announced(c)];
    RunTwo(Step(s, e), Finished(d), Call(e.name, true));
    BothEnterInARun(s3, c, c + 1, e.name);
    RunConcat(Step(s, e), first, second);
    AcceptedConcat(Step(s, e), first, second);
    more := first + second;
  }

  lemma NoTwoBodiesFollow(s: State, more: seq<Event>)
    requires OnePerName(s) && NoneAcceptedAtSuccess(s, more)
    ensures forall name :: !TwoBodies(Run(s, more), name)
  {
    RunKeepsOnePerName(s, more);
    forall name ensures !TwoBodies(Run(s, more), name) {
      OneBody(Run(s, more), name);
    }
  }

  /**
   Accepting a call at SUCCESS is the one way in which exclusion by name is lost: in a run without it so
   far, a step accepts one if and only if from then on, without another such acceptance, two bodies
   of one name can be in flight.
   */
  lemma ExclusionLostIff(names: set<string>, events: seq<Event>, e: Event)
    requires NoneAcceptedAtSuccess(Initial(names), events)
    ensures var s := Run(Initial(names), events);
            AcceptedAtSuccess(s, e) <==> exists more, name :: LeadsToTwoBodies(Step(s, e), more, name)
  {
    var s := Run(Initial(names), events);
    RunKeepsOnePerName(Initial(names), events);
    var t := Step(s, e);
    if AcceptedAtSuccess(s, e) {
      var more := TwoBodiesFollow(s, e);
      assert LeadsToTwoBodies(t, more, e.name);
    } else {
      StepKeepsOnePerName(s, e);
      forall more, name ensures !LeadsToTwoBodies(t, more, name) {
        if NoneAcceptedAtSuccess(t, more) {
          NoTwoBodiesFollow(t, more);
        }
      }
    }
  }

  // ----- Exclusive mode

  /**
   The recorded writes are complete walks LOADING, then SUCCESS or ERROR, then INITIAL, and at most one
   unfinished walk.
   */
  ghost predicate Walks(w: seq<Write>) {
    forall i :: 0 <= i < |w| ==> WalkStep(w, i)
  }

  ghost predicate WalkStep(w: seq<Write>, i: nat)
    requires i < |w|
  {
    && (i % 3 == 0 ==> w[i].status == LOADING)
    && (i % 3 == 1 ==> w[i].status in {SUCCESS, ERROR})
    && (i % 3 == 2 ==> w[i].status == INITIAL)
    && (i % 3 != 0 ==> w[i].call == w[i - 1].call && w[i].name == w[i - 1].name)
  }

  lemma WalkOn(w: seq<Write>, x: Write)
    requires Walks(w)
    requires |w| % 3 == 0 ==> x.status == LOADING
    requires |w| % 3 == 1 ==> x.status in {SUCCESS, ERROR}
    requires |w| % 3 == 2 ==> x.status == INITIAL
    requires |w| % 3 != 0 ==> x.call == w[|w| - 1].call && x.name == w[|w| - 1].name
    ensures Walks(w + [x])
  {
    forall i | 0 <= i < |w + [x]| ensures WalkStep(w + [x], i) {
      if i < |w| {
        assert WalkStep(w, i);
      }
    }
  }

  /** The call in the middle of its walk, if the walks recorded so far leave one. */
  ghost predicate MidWalk(s: State, c: nat) {
    && Holds(s, c)
    && |s.writes| % 3 == (if s.calls[c].phase.Finishing? then 2 else 1)
    && s.writes[|s.writes| - 1].call == c && s.writes[|s.writes| - 1].name == s.calls[c].name
  }

  ghost predicate Exclusive(s: State) {
    && OnePerName(s) && OneStatus(s)
    && (forall c, d :: Holds(s, c) && Holds(s, d) ==> c == d)
    && Walks(s.writes)
    && (forall c :: Holds(s, c) ==> MidWalk(s, c))
    && (!SomeStatusIsLoading(s) ==> |s.writes| % 3 == 0)
  }

  /** At most one status is not INITIAL. */
  ghost predicate OneStatus(s: State) {
    forall m, n :: m in s.statuses && n in s.statuses && s.statuses[m] != INITIAL && s.statuses[n] != INITIAL ==> m == n
  }

  predicate ExclusiveEvent(e: Event) {
    e.Call? ==> !e.allowConcurrentActions
  }

  /** A step that writes a status extends the walks by the one write that comes next. */
  lemma WriteExtendsWalk(s: State, t: State, c: nat)
    requires Walks(s.writes) && |t.writes| == |s.writes| + 1
    requires t.writes == s.writes + [t.writes[|s.writes|]] && t.writes[|s.writes|].call == c
    requires if Holds(s, c) then
               MidWalk(s, c) && t.writes[|s.writes|].name == s.calls[c].name
               && (if s.calls[c].phase.Finishing? then t.writes[|s.writes|].status == INITIAL
                   else t.writes[|s.writes|].status in {SUCCESS, ERROR})
             else |s.writes| % 3 == 0 && t.writes[|s.writes|].status == LOADING
    requires Holds(t, c) ==>
               && t.calls[c].name == t.writes[|s.writes|].name
               && (t.calls[c].phase.Finishing? <==> Holds(s, c))
               && (Holds(s, c) ==> !s.calls[c].phase.Finishing?)
    requires !Holds(t, c) ==> Holds(s, c) && s.calls[c].phase.Finishing?
    ensures Walks(t.writes)
    ensures if Holds(t, c) then MidWalk(t, c) else |t.writes| % 3 == 0
  {
    WalkOn(s.writes, t.writes[|s.writes|]);
  }

  lemma ExclusiveAgain(t: State, c: nat)
    requires OnePerName(t) && OneStatus(t) && Walks(t.writes)
    requires forall d :: d != c ==> !Holds(t, d)
    requires if Holds(t, c) then MidWalk(t, c) && t.statuses[t.calls[c].name] != INITIAL else |t.writes| % 3 == 0
    ensures Exclusive(t)
  {
  }

  lemma NobodyHolds(s: State, name: string)
    requires OnePerName(s) && Accepts(s, name, false)
    ensures s.statuses[name] == INITIAL && forall d :: !Holds(s, d)
  {
    assert forall d :: Holds(s, d) ==> Shown(s.calls[d].phase) != INITIAL;
  }

  /** The first holder begins its walk. */
  lemma FirstHolder(s: State, t: State, c: nat, name: string)
    requires Exclusive(s) && OnePerName(t) && !SomeStatusIsLoading(s) && (forall d :: !Holds(s, d))
    requires t.statuses == s.statuses[name := LOADING]
    requires t.calls == s.calls[c := ActiveCall(name, Announcing)] && t.writes == s.writes + [Write(c, name, LOADING)]
    ensures Exclusive(t)
  {
    assert forall d :: d != c ==> !Holds(t, d);
    WriteExtendsWalk(s, t, c);
    ExclusiveAgain(t, c);
  }

  lemma BeginKeepsExclusive(s: State, name: string)
    requires Exclusive(s)
    ensures Exclusive(Begin(s, name, false))
  {
    if Accepts(s, name, false) {
      NobodyHolds(s, name);
      assert OnePerName(Begin(s, name, false)) by { BeginKeepsOnePerName(s, name, false); }
      FirstHolder(s, Begin(s, name, false), s.nextCall, name);
    } else {
      ErrorKeepsExclusive(s);
    }
  }

  lemma ErrorKeepsExclusive(s: State)
    requires Exclusive(s)
    ensures Exclusive(s.(errors := s.errors + 1))
  {
    var t := s.(errors := s.errors + 1);
    assert forall c :: Holds(t, c) == Holds(s, c);
    forall c | Holds(t, c) ensures MidWalk(t, c) {
      assert MidWalk(s, c);
    }
  }

  lemma EndBodyKeepsExclusive(s: State, e: Event)
    requires Exclusive(s) && (e.BodyEnds? || e.Finished?) && Enabled(s, e)
    requires e.BodyEnds? ==> !e.ending.ThrewPrimitive?
    ensures Exclusive(Step(s, e))
  {
    var t, c := Step(s, e), e.call;
    assert Holds(s, c) && MidWalk(s, c);
    StepKeepsOnePerName(s, e);
    assert forall d :: d != c ==> Holds(t, d) == Holds(s, d);
    WriteExtendsWalk(s, t, c);
    ExclusiveAgain(t, c);
  }

  /** A body that throws a primitive leaves its walk unfinished, and every later call is refused. */
  lemma PrimitiveKeepsExclusive(s: State, c: nat)
    requires Exclusive(s) && c in s.calls && s.calls[c].phase.InBody?
    ensures Exclusive(EndBody(s, c, s.calls[c].name, ThrewPrimitive))
  {
    var t, name := EndBody(s, c, s.calls[c].name, ThrewPrimitive), s.calls[c].name;
    assert Holds(s, c) && MidWalk(s, c);
    PrimitiveKeepsOnePerName(s, c);
    forall d ensures !Holds(t, d) {
      assert d != c && Holds(t, d) ==> Holds(s, d);
    }
    assert t.statuses[name] != INITIAL;
    WalkOn(s.writes, Write(c, name, ERROR));
  }

  lemma StepKeepsExclusive(s: State, e: Event)
    requires Exclusive(s) && ExclusiveEvent(e)
    ensures Exclusive(Step(s, e))
  {
    if Enabled(s, e) {
      match e {
        case Call(name, _) => BeginKeepsExclusive(s, name);
        case Waited(_) =>
        case Announced(c) =>
          var t := Step(s, e);
          assert Holds(s, c) && MidWalk(s, c);
          StepKeepsOnePerName(s, e);
          assert forall d :: d != c ==> Holds(t, d) == Holds(s, d);
          ExclusiveAgain(t, c);
        case BodyEnds(c, ending) =>
          if ending.ThrewPrimitive? {
            PrimitiveKeepsExclusive(s, c);
          } else {
            EndBodyKeepsExclusive(s, e);
          }
        case Finished(_) => EndBodyKeepsExclusive(s, e);
        case Closed(c) =>
          var t := Step(s, e);
          StepKeepsOnePerName(s, e);
          assert forall d :: Holds(t, d) == Holds(s, d);
          assert forall d :: Holds(t, d) ==> MidWalk(s, d) && MidWalk(t, d);
      }
    }
  }

  lemma {:induction false} RunKeepsExclusive(s: State, events: seq<Event>)
    requires Exclusive(s) && forall e :: e in events ==> ExclusiveEvent(e)
    ensures Exclusive(Run(s, events))
    decreases |events|
  {
    if events == [] {
    } else {
      assert events[0] in events;
      StepKeepsExclusive(s, events[0]);
      RunKeepsExclusive(Step(s, events[0]), events[1..]);
    }
  }

  /**
   In exclusive mode, whatever the bodies throw, at most one body is in flight and at most one status is
   not INITIAL, and the calls walk one after the other through LOADING, SUCCESS or ERROR, and INITIAL.
   */
  lemma ExclusiveModeExcludes(names: set<string>, events: seq<Event>)
    requires forall e :: e in events ==> ExclusiveEvent(e)
    ensures var s := Run(Initial(names), events);
            && (forall c, d :: c in s.calls && d in s.calls && s.calls[c].phase.InBody? && s.calls[d].phase.InBody? ==>
                 c == d)
            && OneStatus(s) && Walks(s.writes)
  {
    RunKeepsExclusive(Initial(names), events);
    var s := Run(Initial(names), events);
    assert forall c :: c in s.calls && s.calls[c].phase.InBody? ==> Holds(s, c);
  }

  // ----- A primitive thrown by the body wedges the lock

  ghost predicate Wedged(s: State, name: string) {
    && name in s.statuses && s.statuses[name] == ERROR
    && (forall c :: c in s.calls ==> c < s.nextCall && s.calls[c].phase.Closing?)
  }

  /** Once wedged, every later call in exclusive mode is refused: no run ever assigns a status again. */
  lemma {:induction false} WedgedForever(s: State, events: seq<Event>, name: string)
    requires Wedged(s, name)
    requires forall e :: e in events && e.Call? ==> !e.allowConcurrentActions
    ensures var t := Run(s, events); Wedged(t, name) && t.writes == s.writes
    decreases |events|
  {
    if events == [] {
    } else {
      assert events[0] in events;
      assert SomeStatusIsLoading(s);
      WedgedForever(Step(s, events[0]), events[1..], name);
    }
  }

  lemma PrimitiveWedges(s: State, c: nat)
    requires Exclusive(s) && c in s.calls && s.calls[c].phase.InBody?
    ensures Wedged(Step(s, BodyEnds(c, ThrewPrimitive)), s.calls[c].name)
  {
    assert Holds(s, c);
    forall d | d in s.calls && d != c ensures s.calls[d].phase.Closing? {
      if Holds(s, d) {
      }
    }
  }

  /** A run in exclusive mode whose body throws a primitive ends wedged, and stays so whatever follows. */
  lemma WedgedIsReached(name: string, after: seq<Event>)
    requires forall e :: e in after && e.Call? ==> !e.allowConcurrentActions
    ensures var s := Run(Initial({name}), [Call(name, false), Announced(0), BodyEnds(0, ThrewPrimitive)]);
            && Wedged(s, name) && Wedged(Run(s, after), name) && Run(s, after).writes == s.writes
  {
    RunThree(Initial({name}), Call(name, false), Announced(0), BodyEnds(0, ThrewPrimitive));
    FirstBody(name, false);
    var s := Run(Initial({name}), [Call(name, false), Announced(0), BodyEnds(0, ThrewPrimitive)]);
    assert s.calls == map[] && s.statuses == map[name := ERROR];
    WedgedForever(s, after, name);
  }
}
