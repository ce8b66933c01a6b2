/**
 Names of contracts (src/controllers/contractNames/contractNames.ts): requests gather in a pending
 list that a debounced timer sends to the relayer as one batch.

 Addresses are canonical. The empty string stands for a name that is not known and 0 for a missing
 time; the source treats each like its absent value. A timer fires at its due time or later.
 */
module ContractNames {
  import opened Wrappers
  import opened Sequences

  const PERSIST_NOT_FOUND_IN_MS := 1000 * 60 * 60
  const PERSIST_FAILED_IN_MS := 1000 * 60 * 2

  type Address = string

  datatype Entry = Entry(name: string, isLoading: bool, updatedAt: nat, retryAfter: nat)

  datatype Request = Request(address: Address, chainId: nat)

  /** `lost`: the relayer answered with JSON that is not an object, and nothing handles the batch any more. */
  datatype Batch = Batch(requests: seq<Request>, lost: bool)

  datatype Reply = RequestFailed | ErrorReply | NotAnObject | Contracts(found: map<Address, string>)

  datatype State = State(
    names: map<Address, Entry>,
    pending: seq<Request>,
    lastScheduled: nat,
    debounce: nat,
    now: nat,
    timers: map<nat, nat>,
    batches: map<nat, Batch>,
    nextId: nat)

  /** `raw` is None where the text is no address. */
  datatype Event =
    | GetName(raw: Option<Address>, chainId: nat)
    | TimerFires(timer: nat)
    | ReplyArrives(batch: nat, reply: Reply)
    | Tick(to: nat)

  function Initial(debounce: nat, now: nat): State {
    State(map[], [], 0, debounce, now, map[], map[], 0)
  }

  predicate InRetryWindow(e: Entry, now: nat) {
    e.updatedAt != 0 && e.retryAfter != 0 && now < e.updatedAt + e.retryAfter
  }

  predicate ShouldSkip(s: State, a: Address, chainId: nat) {
    && a in s.names
    && (s.names[a].name != "" || s.names[a].isLoading || Request(a, chainId) in s.pending
        || InRetryWindow(s.names[a], s.now))
  }

  function MarkLoading(names: map<Address, Entry>, a: Address): map<Address, Entry> {
    names[a := if a in names then names[a].(isLoading := true) else Entry("", true, 0, 0)]
  }

  function Enqueue(s: State, a: Address, chainId: nat): State {
    s.(names := MarkLoading(s.names, a), pending := s.pending + [Request(a, chainId)])
  }

  function Schedule(s: State): State {
    if s.now - s.lastScheduled < s.debounce then s
    else s.(lastScheduled := s.now, timers := s.timers[s.nextId := s.now + s.debounce], nextId := s.nextId + 1)
  }

  function Ask(s: State, raw: Option<Address>, chainId: nat): State {
    if raw.None? || ShouldSkip(s, raw.value, chainId) then s
    else Schedule(Enqueue(s, raw.value, chainId))
  }

  function Fire(s: State, t: nat): State {
    s.(timers := s.timers - {t}, pending := [],
       batches := s.batches[s.nextId := Batch(s.pending, false)], nextId := s.nextId + 1)
  }

  function Answer(a: Address, reply: Reply, now: nat): Entry
    requires !reply.NotAnObject?
  {
    match reply
    case RequestFailed => Entry("", false, now, PERSIST_FAILED_IN_MS)
    case ErrorReply => Entry("", false, now, PERSIST_FAILED_IN_MS)
    case Contracts(found) =>
      if a in found && found[a] != "" then Entry(found[a], false, now, 0)
      else Entry("", false, now, PERSIST_NOT_FOUND_IN_MS)
  }

  function AnswerAll(names: map<Address, Entry>, requests: seq<Request>, reply: Reply, now: nat): map<Address, Entry>
    requires !reply.NotAnObject?
  {
    if requests == [] then names
    else
      var a := requests[|requests| - 1].address;
      AnswerAll(names, requests[..|requests| - 1], reply, now)[a := Answer(a, reply, now)]
  }

  function Settle(s: State, b: nat, reply: Reply): State
    requires b in s.batches
  {
    if reply.NotAnObject? then s.(batches := s.batches[b := s.batches[b].(lost := true)])
    else s.(names := AnswerAll(s.names, s.batches[b].requests, reply, s.now), batches := s.batches - {b})
  }

  predicate Enabled(s: State, e: Event) {
    match e
    case TimerFires(t) => t in s.timers && s.timers[t] <= s.now
    case ReplyArrives(b, _) => b in s.batches && !s.batches[b].lost
    case Tick(to) => s.now <= to
    case GetName(_, _) => true
  }

  function Step(s: State, e: Event): State {
    if !Enabled(s, e) then s
    else
      match e
      case GetName(raw, chainId) => Ask(s, raw, chainId)
      case TimerFires(t) => Fire(s, t)
      case ReplyArrives(b, reply) => Settle(s, b, reply)
      case Tick(to) => s.(now := to)
  }

  function Run(s: State, events: seq<Event>): State
    decreases |events|
  {
    if events == [] then s else Run(Step(s, events[0]), events[1..])
  }

  // ----- The class of the source

  class ContractNamesController {
    var contractNames: map<Address, Entry>
    var contractsPendingToBeFetched: seq<Request>
    var lastTimeScheduledFetch: nat
    const debounceTime: nat
    // the event loop around the controller
    var now: nat
    var timers: map<nat, nat>
    var batches: map<nat, Batch>
    var nextId: nat

    ghost function View(): State
      reads this
    {
      State(contractNames, contractsPendingToBeFetched, lastTimeScheduledFetch, debounceTime, now, timers, batches,
            nextId)
    }

    constructor (debounceTime: nat, now: nat)
      ensures View() == Initial(debounceTime, now)
    {
      contractNames, contractsPendingToBeFetched, lastTimeScheduledFetch := map[], [], 0;
      this.debounceTime, this.now, timers, batches, nextId := debounceTime, now, map[], map[], 0;
    }

    method ShouldSkipGetName(address: Address, chainId: nat) returns (skip: bool)
      ensures skip == ShouldSkip(View(), address, chainId)
    {
      if address !in contractNames { return false; }
      var entry := contractNames[address];
      if entry.name != "" { return true; }
      if entry.isLoading { return true; }
      if Request(address, chainId) in contractsPendingToBeFetched { return true; }
      if entry.updatedAt != 0 && entry.retryAfter != 0 {
        var nextAllowedFetch := entry.updatedAt + entry.retryAfter;
        if now < nextAllowedFetch { return true; }
      }
      return false;
    }

    method AskForName(raw: Option<Address>, chainId: nat)
      modifies this
      ensures View() == Ask(old(View()), raw, chainId)
    {
      if raw.None? { return; }
      var address := raw.value;
      var skip := ShouldSkipGetName(address, chainId);
      if skip { return; }
      contractsPendingToBeFetched := contractsPendingToBeFetched + [Request(address, chainId)];
      if address in contractNames {
        contractNames := contractNames[address := contractNames[address].(isLoading := true)];
      } else {
        contractNames := contractNames[address := Entry("", true, 0, 0)];
      }
      if now - lastTimeScheduledFetch < debounceTime { return; }
      lastTimeScheduledFetch := now;
      timers := timers[nextId := now + debounceTime];
      nextId := nextId + 1;
    }

    /** `#batchFetchNames` up to its request. */
    method BeginBatch(timer: nat)
      requires Enabled(View(), TimerFires(timer))
      modifies this
      ensures View() == Fire(old(View()), timer)
    {
      timers := timers - {timer};
      var contractsToFetch := contractsPendingToBeFetched;
      contractsPendingToBeFetched := [];
      batches := batches[nextId := Batch(contractsToFetch, false)];
      nextId := nextId + 1;
    }

    /** `#batchFetchNames` once the request has ended. */
    method FinishBatch(batch: nat, reply: Reply)
      requires Enabled(View(), ReplyArrives(batch, reply))
      modifies this
      ensures View() == Settle(old(View()), batch, reply)
    {
      if reply.NotAnObject? {
        // looking for `error` in it throws
        batches := batches[batch := batches[batch].(lost := true)];
        return;
      }
      var contractsToFetch := batches[batch].requests;
      ghost var s := View();
      for i := 0 to |contractsToFetch|
        invariant View() == s.(names := AnswerAll(s.names, contractsToFetch[..i], reply, s.now))
      {
        assert contractsToFetch[..i + 1][..i] == contractsToFetch[..i];
        var address := contractsToFetch[i].address;
        var entry: Entry;
        if reply.Contracts? {
          var foundName := if address in reply.found then reply.found[address] else "";
          entry :=
            if foundName != "" then Entry(foundName, false, now, 0) else Entry("", false, now, PERSIST_NOT_FOUND_IN_MS);
        } else {
          entry := Entry("", false, now, PERSIST_FAILED_IN_MS);
        }
        contractNames := contractNames[address := entry];
      }
      assert contractsToFetch[..|contractsToFetch|] == contractsToFetch;
      batches := batches - {batch};
    }
  }

  // ----- The invariant

  predicate IsLoading(s: State, a: Address) {
    a in s.names && s.names[a].isLoading
  }

  predicate Requested(requests: seq<Request>, a: Address) {
    exists i :: 0 <= i < |requests| && requests[i].address == a
  }

  ghost predicate DistinctAddresses(requests: seq<Request>) {
    forall i, j :: 0 <= i < j < |requests| ==> requests[i].address != requests[j].address
  }

  /** Where a requested name can be: in the pending list, or in a batch that was sent. */
  datatype Place = Pending | Sent(batch: nat)

  ghost predicate IsAt(s: State, p: Place, a: Address) {
    match p
    case Pending => Requested(s.pending, a)
    case Sent(b) => b in s.batches && Requested(s.batches[b].requests, a)
  }

  ghost predicate Held(s: State, a: Address) {
    exists p :: IsAt(s, p, a)
  }

  ghost predicate PlacesInv(s: State) {
    && DistinctAddresses(s.pending)
    && (forall b :: b in s.batches ==> b < s.nextId && DistinctAddresses(s.batches[b].requests))
    && (forall p, q, a :: IsAt(s, p, a) && IsAt(s, q, a) ==> p == q)
  }

  /** A name is loading exactly while it is at some place, and then it is not known yet. */
  ghost predicate NamesInv(s: State) {
    forall a :: NameInv(s, a)
  }

  ghost predicate NameInv(s: State, a: Address) {
    && (IsLoading(s, a) <==> Held(s, a))
    && (IsLoading(s, a) ==> s.names[a].name == "")
  }

  /** The timer of the last scheduling. */
  ghost predicate IsLastTimer(s: State, t: nat) {
    t in s.timers && s.timers[t] == s.lastScheduled + s.debounce
  }

  /** Something will fetch what is pending. */
  ghost predicate Progress(s: State) {
    s.pending != [] ==> s.timers != map[]
  }

  ghost predicate TimersInv(s: State) {
    && Progress(s)
    && s.lastScheduled <= s.now
    && 0 < s.now
    && (s.now < s.lastScheduled + s.debounce ==> exists t :: IsLastTimer(s, t))
    && (forall t :: t in s.timers ==> t < s.nextId && s.timers[t] <= s.lastScheduled + s.debounce)
    && (forall t, u :: t in s.timers && u in s.timers && t < u ==> s.timers[t] + s.debounce <= s.timers[u])
  }

  ghost predicate Inv(s: State) {
    PlacesInv(s) && NamesInv(s) && TimersInv(s)
  }

  // ----- Asking for a name

  lemma RequestedAppend(requests: seq<Request>, r: Request, a: Address)
    ensures Requested(requests + [r], a) <==> Requested(requests, a) || a == r.address
  {
    if Requested(requests, a) {
      var i :| 0 <= i < |requests| && requests[i].address == a;
      assert (requests + [r])[i].address == a;
    }
    assert (requests + [r])[|requests|] == r;
  }

  lemma EnqueueKeepsPlaces(s: State, a: Address, chainId: nat)
    requires PlacesInv(s) && NamesInv(s) && !IsLoading(s, a)
    ensures PlacesInv(Enqueue(s, a, chainId))
    ensures forall p, x :: IsAt(Enqueue(s, a, chainId), p, x) <==> IsAt(s, p, x) || (p == Pending && x == a)
  {
    var t := Enqueue(s, a, chainId);
    assert NameInv(s, a) && !Held(s, a);
    forall p, x ensures IsAt(t, p, x) <==> IsAt(s, p, x) || (p == Pending && x == a) {
      RequestedAppend(s.pending, Request(a, chainId), x);
    }
    assert !IsAt(s, Pending, a);
    assert forall p :: !IsAt(s, p, a);
  }

  lemma EnqueueKeepsNames(s: State, a: Address, chainId: nat)
    requires PlacesInv(s) && NamesInv(s) && !IsLoading(s, a) && (a in s.names ==> s.names[a].name == "")
    ensures NamesInv(Enqueue(s, a, chainId))
  {
    var t := Enqueue(s, a, chainId);
    EnqueueKeepsPlaces(s, a, chainId);
    forall x ensures NameInv(t, x) {
      assert NameInv(s, x);
      if x == a {
        assert IsAt(t, Pending, a);
      } else {
        assert Held(t, x) <==> Held(s, x);
      }
    }
  }

  lemma PlacesCarryOver(s: State, t: State)
    requires PlacesInv(s) && NamesInv(s)
    requires t.names == s.names && t.pending == s.pending && t.batches == s.batches && s.nextId <= t.nextId
    ensures PlacesInv(t) && NamesInv(t)
  {
    assert forall p, a :: IsAt(t, p, a) <==> IsAt(s, p, a);
    forall a ensures NameInv(t, a) {
      assert NameInv(s, a);
      assert Held(t, a) <==> Held(s, a);
    }
  }

  lemma ScheduleKeepsTimers(s: State, a: Address, chainId: nat)
    requires TimersInv(s)
    ensures TimersInv(Schedule(Enqueue(s, a, chainId)))
  {
    var t := Schedule(Enqueue(s, a, chainId));
    if s.now - s.lastScheduled < s.debounce {
      var u :| IsLastTimer(s, u);
      assert IsLastTimer(t, u);
    } else {
      assert IsLastTimer(t, s.nextId);
    }
  }

  lemma AskKeepsInv(s: State, raw: Option<Address>, chainId: nat)
    requires Inv(s)
    ensures Inv(Ask(s, raw, chainId))
  {
    if raw.Some? && !ShouldSkip(s, raw.value, chainId) {
      EnqueueKeepsPlaces(s, raw.value, chainId);
      EnqueueKeepsNames(s, raw.value, chainId);
      ScheduleKeepsTimers(s, raw.value, chainId);
      PlacesCarryOver(Enqueue(s, raw.value, chainId), Schedule(Enqueue(s, raw.value, chainId)));
    }
  }

  // ----- Sending a batch

  /** The pending names move to the batch. */
  lemma FireMoves(s: State, t: nat, p: Place, a: Address)
    requires PlacesInv(s)
    ensures IsAt(Fire(s, t), p, a) <==>
            if p == Pending then false else if p == Sent(s.nextId) then IsAt(s, Pending, a) else IsAt(s, p, a)
  {
  }

  lemma FireKeepsPlaces(s: State, t: nat)
    requires PlacesInv(s)
    ensures PlacesInv(Fire(s, t))
  {
    forall p, q, a | IsAt(Fire(s, t), p, a) && IsAt(Fire(s, t), q, a) ensures p == q {
      FireMoves(s, t, p, a);
      FireMoves(s, t, q, a);
      assert IsAt(s, if p == Sent(s.nextId) then Pending else p, a);
      assert IsAt(s, if q == Sent(s.nextId) then Pending else q, a);
    }
  }

  lemma FireKeepsNames(s: State, t: nat)
    requires PlacesInv(s) && NamesInv(s)
    ensures NamesInv(Fire(s, t))
  {
    forall a ensures NameInv(Fire(s, t), a) {
      assert NameInv(s, a);
      if Held(s, a) {
        var p :| IsAt(s, p, a);
        var q := if p == Pending then Sent(s.nextId) else p;
        FireMoves(s, t, q, a);
        assert IsAt(Fire(s, t), q, a);
      }
      if Held(Fire(s, t), a) {
        var q :| IsAt(Fire(s, t), q, a);
        FireMoves(s, t, q, a);
        assert IsAt(s, if q == Sent(s.nextId) then Pending else q, a);
      }
    }
  }

  lemma FireKeepsTimers(s: State, t: nat)
    requires TimersInv(s) && t in s.timers && s.timers[t] <= s.now
    ensures TimersInv(Fire(s, t))
  {
    if s.now < s.lastScheduled + s.debounce {
      var u :| IsLastTimer(s, u);
      assert IsLastTimer(Fire(s, t), u);
    }
  }

  // ----- The end of a batch

  lemma {:induction false} AnswerAllAt(names: map<Address, Entry>, requests: seq<Request>, reply: Reply, now: nat,
                                       a: Address)
    requires !reply.NotAnObject?
    ensures var after := AnswerAll(names, requests, reply, now);
            && (Requested(requests, a) ==> a in after && after[a] == Answer(a, reply, now))
            && (!Requested(requests, a) ==> (a in after <==> a in names) && (a in names ==> after[a] == names[a]))
  {
    if requests != [] {
      var init, last := requests[..|requests| - 1], requests[|requests| - 1];
      AnswerAllAt(names, init, reply, now, a);
      RequestedAppend(init, last, a);
      assert init + [last] == requests;
    }
  }

  lemma SettleKeepsPlaces(s: State, b: nat, reply: Reply)
    requires PlacesInv(s) && b in s.batches
    ensures PlacesInv(Settle(s, b, reply))
    ensures forall p, a :: IsAt(Settle(s, b, reply), p, a) <==> IsAt(s, p, a) && (p == Sent(b) ==> reply.NotAnObject?)
  {
    var t := Settle(s, b, reply);
    assert forall p, a :: IsAt(t, p, a) <==> IsAt(s, p, a) && (p == Sent(b) ==> reply.NotAnObject?);
  }

  /** An answered name is at no place any more. */
  lemma AnsweredIsNotHeld(s: State, b: nat, reply: Reply, a: Address)
    requires PlacesInv(s) && b in s.batches && !reply.NotAnObject?
    ensures Held(Settle(s, b, reply), a) <==> Held(s, a) && !IsAt(s, Sent(b), a)
  {
    var t := Settle(s, b, reply);
    SettleKeepsPlaces(s, b, reply);
    if Held(s, a) && !IsAt(s, Sent(b), a) {
      var p :| IsAt(s, p, a);
      assert IsAt(t, p, a);
    }
    if Held(t, a) {
      var p :| IsAt(t, p, a);
      assert IsAt(s, p, a) && p != Sent(b);
    }
  }

  lemma SettleKeepsNames(s: State, b: nat, reply: Reply)
    requires PlacesInv(s) && NamesInv(s) && b in s.batches
    ensures NamesInv(Settle(s, b, reply))
  {
    var t := Settle(s, b, reply);
    SettleKeepsPlaces(s, b, reply);
    forall a ensures NameInv(t, a) {
      assert NameInv(s, a);
      if reply.NotAnObject? {
        assert Held(t, a) <==> Held(s, a);
      } else {
        AnsweredIsNotHeld(s, b, reply, a);
        AnswerAllAt(s.names, s.batches[b].requests, reply, s.now, a);
      }
    }
  }

  lemma TimersCarryOver(s: State, t: State)
    requires TimersInv(s) && t.timers == s.timers && t.lastScheduled == s.lastScheduled && t.debounce == s.debounce
    requires t.pending == s.pending && s.now <= t.now && s.nextId <= t.nextId
    ensures TimersInv(t)
  {
    if t.now < t.lastScheduled + t.debounce {
      var u :| IsLastTimer(s, u);
      assert IsLastTimer(t, u);
    }
  }

  // ----- Every run

  lemma StepKeepsInv(s: State, e: Event)
    requires Inv(s)
    ensures Inv(Step(s, e))
  {
    if Enabled(s, e) {
      match e
      case GetName(raw, chainId) => AskKeepsInv(s, raw, chainId);
      case TimerFires(t) =>
        FireKeepsPlaces(s, t);
        FireKeepsNames(s, t);
        FireKeepsTimers(s, t);
      case ReplyArrives(b, reply) =>
        SettleKeepsPlaces(s, b, reply);
        SettleKeepsNames(s, b, reply);
        TimersCarryOver(s, Settle(s, b, reply));
      case Tick(to) =>
        PlacesCarryOver(s, s.(now := to));
        TimersCarryOver(s, s.(now := to));
    }
  }

  lemma {:induction false} RunKeepsInv(s: State, events: seq<Event>)
    requires Inv(s)
    ensures Inv(Run(s, events))
    decreases |events|
  {
    if events == [] {
    } else {
      StepKeepsInv(s, events[0]);
      RunKeepsInv(Step(s, events[0]), events[1..]);
    }
  }

  lemma InitialInv(debounce: nat, now: nat)
    requires debounce <= now && 0 < now
    ensures Inv(Initial(debounce, now))
  {
    var s := Initial(debounce, now);
    assert forall a :: NameInv(s, a);
  }

  /**
   In every run: what is pending has an unfired timer, due within the debounce time; and a name is
   loading exactly while one request for it is pending or in a sent batch, at one place only.
   */
  lemma EveryRunMakesProgress(debounce: nat, now: nat, events: seq<Event>, a: Address)
    requires debounce <= now && 0 < now
    ensures var s := Run(Initial(debounce, now), events);
            && (s.pending != [] ==> exists t :: t in s.timers && s.timers[t] <= s.now + debounce)
            && (IsLoading(s, a) <==> exists p :: IsAt(s, p, a))
            && (forall p, q :: IsAt(s, p, a) && IsAt(s, q, a) ==> p == q)
            && DistinctAddresses(s.pending)
            && (forall b :: b in s.batches ==> DistinctAddresses(s.batches[b].requests))
  {
    InitialInv(debounce, now);
    RunKeepsInv(Initial(debounce, now), events);
    DebounceIsFixed(Initial(debounce, now), events);
    var s := Run(Initial(debounce, now), events);
    assert NameInv(s, a);
    if s.pending != [] {
      assert exists t :: t in s.timers;
    }
  }

  lemma {:induction false} DebounceIsFixed(s: State, events: seq<Event>)
    ensures Run(s, events).debounce == s.debounce
    decreases |events|
  {
    if events != [] {
      DebounceIsFixed(Step(s, events[0]), events[1..]);
    }
  }

  /** Exactly when a request leaves the pending list with something to fetch it. */
  lemma AskMakesProgressIff(s: State, a: Address, chainId: nat)
    requires Progress(s)
    ensures Progress(Ask(s, Some(a), chainId)) <==>
            ShouldSkip(s, a, chainId) || s.timers != map[] || s.now - s.lastScheduled >= s.debounce
  {
    var t := Ask(s, Some(a), chainId);
    if !ShouldSkip(s, a, chainId) {
      assert t.pending == s.pending + [Request(a, chainId)];
      if s.now - s.lastScheduled >= s.debounce {
        assert s.nextId in t.timers;
      } else {
        assert t.timers == s.timers;
      }
    }
  }

  /** A clock that is set back strands a request: its name is loading and nothing will fetch it. */
  lemma ClockSetBackStrands()
    ensures var s := Run(Initial(100, 1000), [GetName(Some("a"), 1), Tick(1100), TimerFires(0)]);
            var t := Ask(s.(now := 1050), Some("b"), 1);
            IsLoading(t, "b") && t.pending == [Request("b", 1)] && t.timers == map[]
  {
    var s0 := Initial(100, 1000);
    var s1 := Step(s0, GetName(Some("a"), 1));
    assert s1.timers == map[0 := 1100] && s1.lastScheduled == 1000 && s1.names.Keys == {"a"};
    var s2 := Step(s1, Tick(1100));
    var s3 := Step(s2, TimerFires(0));
    assert s3.timers == map[] && s3.pending == [] && s3.names.Keys == {"a"};
    var events := [GetName(Some("a"), 1), Tick(1100), TimerFires(0)];
    assert events[1..] == [Tick(1100), TimerFires(0)];
    assert events[1..][1..] == [TimerFires(0)];
    assert events[1..][1..][1..] == [];
    assert Run(s2, [TimerFires(0)]) == s3;
    assert Run(s1, [Tick(1100), TimerFires(0)]) == s3;
  }

  /** A reply ends the loading of every name of its batch, on all outcomes but one: JSON that is not an object. */
  lemma ReplyClearsIff(s: State, b: nat, reply: Reply)
    requires Inv(s) && b in s.batches && s.batches[b].requests != []
    ensures (forall r :: r in s.batches[b].requests ==> !IsLoading(Settle(s, b, reply), r.address)) <==>
            !reply.NotAnObject?
  {
    var requests := s.batches[b].requests;
    forall r | r in requests ensures IsLoading(Settle(s, b, reply), r.address) <==> reply.NotAnObject? {
      assert Requested(requests, r.address);
      assert IsAt(s, Sent(b), r.address);
      assert NameInv(s, r.address);
      if !reply.NotAnObject? {
        AnswerAllAt(s.names, requests, reply, s.now, r.address);
      }
    }
    assert requests[0] in requests;
  }

  lemma StepKeepsLost(s: State, e: Event, b: nat)
    requires b < s.nextId && b in s.batches && s.batches[b].lost
    ensures var t := Step(s, e); b < t.nextId && b in t.batches && t.batches[b] == s.batches[b]
  {
  }

  /** The names of a lost batch stay loading in every run, so nobody asks for them again. */
  lemma {:induction false} LostNamesLoadForever(s: State, b: nat, events: seq<Event>, a: Address)
    requires Inv(s) && b in s.batches && s.batches[b].lost && Requested(s.batches[b].requests, a)
    ensures IsLoading(Run(s, events), a)
    decreases |events|
  {
    if events == [] {
      assert NameInv(s, a) && IsAt(s, Sent(b), a);
    } else {
      StepKeepsInv(s, events[0]);
      StepKeepsLost(s, events[0], b);
      LostNamesLoadForever(Step(s, events[0]), b, events[1..], a);
    }
  }

  /** With nothing pending and no batch out, no name is loading. */
  lemma NothingLoadsWhenIdle(s: State, a: Address)
    requires Inv(s) && s.pending == [] && s.batches == map[]
    ensures !IsLoading(s, a)
  {
    assert NameInv(s, a);
    assert forall p :: !IsAt(s, p, a);
  }

  /** No step touches the entry of a name that is not loading, except to ask for it again. */
  lemma StepKeepsSettled(s: State, e: Event, a: Address)
    requires Inv(s) && a in s.names && !IsLoading(s, a)
    requires s.names[a].name != "" || InRetryWindow(s.names[a], s.now)
    ensures a in Step(s, e).names && Step(s, e).names[a] == s.names[a]
  {
    assert NameInv(s, a);
    if e.ReplyArrives? && Enabled(s, e) && !e.reply.NotAnObject? {
      assert !IsAt(s, Sent(e.batch), a);
      AnswerAllAt(s.names, s.batches[e.batch].requests, e.reply, s.now, a);
    }
  }

  /** A name that was found is never overwritten. */
  lemma {:induction false} FoundNamesStay(s: State, events: seq<Event>, a: Address)
    requires Inv(s) && a in s.names && s.names[a].name != ""
    ensures var t := Run(s, events); a in t.names && t.names[a] == s.names[a]
    decreases |events|
  {
    assert NameInv(s, a);
    if events != [] {
      StepKeepsInv(s, events[0]);
      StepKeepsSettled(s, events[0], a);
      FoundNamesStay(Step(s, events[0]), events[1..], a);
    }
  }

  lemma {:induction false} ClockMovesForward(s: State, events: seq<Event>)
    ensures s.now <= Run(s, events).now
    decreases |events|
  {
    if events != [] {
      ClockMovesForward(Step(s, events[0]), events[1..]);
    }
  }

  lemma {:induction false} QuietInWindow(s: State, events: seq<Event>, a: Address)
    requires Inv(s) && a in s.names && !IsLoading(s, a)
    requires InRetryWindow(s.names[a], Run(s, events).now)
    ensures var t := Run(s, events); a in t.names && t.names[a] == s.names[a]
    decreases |events|
  {
    ClockMovesForward(s, events);
    if events != [] {
      StepKeepsInv(s, events[0]);
      StepKeepsSettled(s, events[0], a);
      QuietInWindow(Step(s, events[0]), events[1..], a);
    }
  }

  /**
   After a batch ended without the name of `a`, no run asks for it again within two minutes of a
   failed request and within an hour of an answer that does not have it.
   */
  lemma NoRetryInsideItsWindow(s: State, b: nat, reply: Reply, events: seq<Event>, a: Address)
    requires Inv(s) && b in s.batches && Requested(s.batches[b].requests, a)
    requires !reply.NotAnObject? && (reply.Contracts? ==> a !in reply.found || reply.found[a] == "")
    requires Run(Settle(s, b, reply), events).now
             < s.now + if reply.Contracts? then PERSIST_NOT_FOUND_IN_MS else PERSIST_FAILED_IN_MS
    ensures !IsLoading(Run(Settle(s, b, reply), events), a)
  {
    var t := Settle(s, b, reply);
    SettleKeepsPlaces(s, b, reply);
    SettleKeepsNames(s, b, reply);
    TimersCarryOver(s, t);
    AnswerAllAt(s.names, s.batches[b].requests, reply, s.now, a);
    QuietInWindow(t, events, a);
  }

  /** Any two batches that are still to be sent are due at least the debounce time apart. */
  lemma FetchesAreSpaced(debounce: nat, now: nat, events: seq<Event>, t: nat, u: nat)
    requires debounce <= now && 0 < now
    ensures var s := Run(Initial(debounce, now), events);
            t in s.timers && u in s.timers && t != u ==>
              s.timers[t] + debounce <= s.timers[u] || s.timers[u] + debounce <= s.timers[t]
  {
    InitialInv(debounce, now);
    RunKeepsInv(Initial(debounce, now), events);
    DebounceIsFixed(Initial(debounce, now), events);
  }
}
