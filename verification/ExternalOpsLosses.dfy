/**
 Runs in which external operations keep or get back an id of an internal one: updates that fail, and
 copies that are read back (src/controllers/activity/activity.ts).
 */
module ExternalOpsLosses {
  import opened Wrappers
  import opened Sequences
  import opened ExternalOps
  import opened ExternalOpsReads
  import opened ExternalOpsRuns

  // ----- An update that fails

  /** No update that may complete looks at the operation or has finalized it. */
  ghost predicate Abandoned(s: State, id: OpId) {
    && id in s.ops && IsFinalized(s.ops[id].status)
    && forall u :: u in s.updates && !s.updates[u].failed ==> id !in s.updates[u].tasks && id !in s.updates[u].updated
  }

  /** What an update had finalized when it failed, no update looks at. */
  lemma FailureAbandons(s: State, u: nat, x: OpId, id: OpId)
    requires Inv(s) && u in s.updates && !s.updates[u].failed && id in s.updates[u].updated
    ensures Abandoned(Throw(s, u, x), id)
  {
    var t := Throw(s, u, x);
    assert UpdateInv(s.ops, s.updates[u]);
    forall o | o in t.updates && !t.updates[o].failed ensures id !in t.updates[o].tasks && id !in t.updates[o].updated {
      assert o != u && UpdateInv(s.ops, s.updates[o]);
      assert s.current[s.updates[u].account] == u && s.current[s.updates[o].account] == o;
    }
  }

  lemma BeginAbandons(s: State, account: string, chains: set<nat>, id: OpId)
    requires Abandoned(s, id)
    ensures Abandoned(Begin(s, account, chains), id)
  {
  }

  lemma ChangeAbandons(s: State, u: nat, x: OpId, txnId: TxnId, status: OpStatus, id: OpId)
    requires Abandoned(s, id) && u in s.updates && x in s.updates[u].tasks && x in s.ops && IsFinalized(status)
    ensures Abandoned(Learn(s, u, x, txnId), id) && Abandoned(Finalize(s, u, x, status), id)
  {
  }

  lemma TaskAbandons(s: State, u: nat, x: OpId, id: OpId)
    requires Abandoned(s, id) && u in s.updates
    ensures Abandoned(EndTask(s, u, x), id) && Abandoned(Throw(s, u, x), id) && Abandoned(End(s, u), id)
  {
  }

  lemma OtherAbandons(s: State, t: State, id: OpId)
    requires Abandoned(s, id) && t.updates == s.updates && id in t.ops && t.ops[id] == s.ops[id]
    ensures Abandoned(t, id)
  {
  }

  lemma TaskStepAbandons(s: State, e: Event, id: OpId)
    requires Abandoned(s, id) && Enabled(s, e)
    requires e.LearnTxnId? || e.FinalizeOp? || e.TaskEnds? || e.TaskThrows? || e.EndUpdate?
    ensures Abandoned(Step(s, e), id)
  {
    match e
    case LearnTxnId(u, x, txnId) => ChangeAbandons(s, u, x, txnId, Success, id);
    case FinalizeOp(u, x, status) => ChangeAbandons(s, u, x, "", status, id);
    case TaskEnds(u, x) => TaskAbandons(s, u, x, id);
    case TaskThrows(u, x) => TaskAbandons(s, u, x, id);
    case EndUpdate(u) => TaskAbandons(s, u, 0, id);
  }

  lemma RequestStepAbandons(s: State, e: Event, id: OpId)
    requires Abandoned(s, id) && (e.RequestExternal? || e.NextExternal? || e.FinishExternal?)
    ensures Abandoned(Step(s, e), id)
  {
    match e
    case RequestExternal(x) => OtherAbandons(s, s.(queue := s.queue + [x]), id);
    case NextExternal => OtherAbandons(s, TakeNext(s), id);
    case FinishExternal(abandoned) => OtherAbandons(s, FinishAdding(s, abandoned), id);
  }

  lemma StepAbandons(s: State, e: Event, id: OpId)
    requires Inv(s) && Abandoned(s, id)
    ensures Abandoned(Step(s, e), id)
  {
    if Enabled(s, e) {
      match e
      case AddAccountOp(op) => OtherAbandons(s, Unshift(s, op), id);
      case BeginUpdate(account, chains) => BeginAbandons(s, account, chains, id);
      case RemoveAccountData(account) => OtherAbandons(s, RemoveData(s, account), id);
      case RequestExternal(_) => RequestStepAbandons(s, e, id);
      case NextExternal => RequestStepAbandons(s, e, id);
      case FinishExternal(_) => RequestStepAbandons(s, e, id);
      case BeginRead => OtherAbandons(s, StartRead(s), id);
      case ReadArrives(r) => OtherAbandons(s, Arrive(s, r), id);
      case EndRead(r) => OtherAbandons(s, Reload(s, r), id);
      case WriteEnds(succeeds) => OtherAbandons(s, EndWrite(s, succeeds), id);
      case _ => TaskStepAbandons(s, e, id);
    }
  }

  /** Nor does any, in any run: so no clean-up ever removes a duplicate on its account. */
  lemma {:induction false} AbandonedForever(s: State, events: seq<Event>, id: OpId)
    requires Inv(s) && Abandoned(s, id)
    ensures Abandoned(Run(s, events), id)
    decreases |events|
  {
    if events == [] {
    } else {
      StepKeepsInv(s, events[0]);
      StepAbandons(s, events[0], id);
      AbandonedForever(Step(s, events[0]), events[1..], id);
    }
  }

  /**
   A duplicate of an operation that an update finalized outlives the update if and only if the update
   ends by a task that throws; and then no update ever looks at the operation again.
   */
  lemma DuplicateOutlivesUpdateIff(s: State, u: nat, e: Event, id: OpId, t: TxnId)
    requires Inv(s) && u in s.updates && !s.updates[u].failed && Enabled(s, e)
    requires e == EndUpdate(u) || (e.TaskThrows? && e.update == u)
    requires id in s.updates[u].updated && id in InternalAt(s, s.ops[id].key)
    requires t in ExternalAt(s, s.ops[id].key) && SharesId(s, id, t)
    ensures var w := Step(s, e);
            && u !in (set o | o in w.updates && !w.updates[o].failed)
            && (t in ExternalAt(w, s.ops[id].key) && SharesId(w, id, t) <==> e.TaskThrows?)
            && (e.TaskThrows? ==> forall after :: Abandoned(Run(w, after), id))
  {
    if e == EndUpdate(u) {
      EndSeparates(s, u, id);
      assert s.ops[id].key in s.internal && id in s.internal[s.ops[id].key];
    } else {
      FailureAbandons(s, u, e.id, id);
      StepKeepsInv(s, e);
      forall after ensures Abandoned(Run(Step(s, e), after), id) {
        AbandonedForever(Step(s, e), after, id);
      }
      assert ExternalAt(Step(s, e), s.ops[id].key) == ExternalAt(s, s.ops[id].key);
    }
  }

  // ----- Two operations, one of which cannot be looked up

  function Sent(): Op {
    Op(Key("a", 1), "", [], BroadcastedButNotConfirmed)
  }

  function Confirmed(): Op {
    Op(Key("a", 1), "x", [], Success)
  }

  function Duplicate(): External {
    External(Key("a", 1), "x")
  }

  /** The duplicate was added, and waits to be written. */
  function WithDuplicate(s: State): State {
    QueueWrite(s.(external := map[Key("a", 1) := ["x"]]))
  }

  /** Two operations are broadcast and an update of their status begins. */
  function TwoSent(): seq<Event> {
    [AddAccountOp(Sent())] + ([AddAccountOp(Sent())] + ([BeginUpdate("a", {1})] + []))
  }

  function TwoSentState(): State {
    State(map[0 := Sent(), 1 := Sent()], map[Key("a", 1) := [1, 0]], map[], EmptyStorage(), [], None,
          map[0 := Update("a", map[0 := Asking, 1 := Asking], [], false)], map["a" := 0], 1, 2)
  }

  lemma TwoSelected(s: State)
    requires s.ops == map[0 := Sent(), 1 := Sent()] && InternalAt(s, Key("a", 1)) == [1, 0]
    ensures (map id | id in s.ops && IsSelected(s, "a", {1}, id) :: Asking) == map[0 := Asking, 1 := Asking]
  {
    assert InternalAt(s, Key("a", 1))[0] == 1 && InternalAt(s, Key("a", 1))[1] == 0;
    assert IsSelected(s, "a", {1}, 0) && IsSelected(s, "a", {1}, 1);
  }

  lemma RunAddsBegin(s: State, a: Op, b: Op, account: string, chains: set<nat>)
    ensures Run(s, [AddAccountOp(a)] + ([AddAccountOp(b)] + ([BeginUpdate(account, chains)] + []))) ==
            Begin(Unshift(Unshift(s, a), b), account, chains)
  {
    RunAdd(s, a, [AddAccountOp(b)] + ([BeginUpdate(account, chains)] + []));
    RunAdd(Unshift(s, a), b, [BeginUpdate(account, chains)] + []);
    RunBegin(Unshift(Unshift(s, a), b), account, chains, []);
  }

  lemma TwoAdded()
    ensures Unshift(Unshift(Initial(), Sent()), Sent()) ==
            State(map[0 := Sent(), 1 := Sent()], map[Key("a", 1) := [1, 0]], map[], EmptyStorage(), [], None,
                  map[], map[], 0, 2)
  {
    var k := Key("a", 1);
    var s1 := Unshift(Initial(), Sent());
    assert [0] + [] == [0] && s1.internal == map[k := [0]] && s1.ops == map[0 := Sent()];
    var s2 := Unshift(s1, Sent());
    assert [1] + [0] == [1, 0] && s2.internal == map[k := [1, 0]] && s2.ops == map[0 := Sent(), 1 := Sent()];
  }

  lemma TwoSentResult()
    ensures Run(Initial(), TwoSent()) == TwoSentState()
  {
    RunAddsBegin(Initial(), Sent(), Sent(), "a", {1});
    TwoAdded();
    TwoSelected(Unshift(Unshift(Initial(), Sent()), Sent()));
  }

  lemma NotYetKnown(s: State)
    requires s == TwoSentState()
    ensures !HasExisting(s, Key("a", 1), "x")
  {
    FilterAppend(t => t != "", [], "");
    assert [Sent().txnId] + Sent().callTxnIds == [] + [""];
    assert TxnIds(Sent()) == [];
  }

  /** The first task finalizes its operation, and then the second throws. */
  function OneConfirmed(): seq<Event> {
    [LearnTxnId(0, 0, "x")] + ([FinalizeOp(0, 0, Success)] + ([TaskThrows(0, 1)] + []))
  }

  lemma RunConfirmThrow(s: State, u: nat, id: OpId, txnId: TxnId, status: OpStatus, x: OpId)
    requires Enabled(s, LearnTxnId(u, id, txnId)) && Enabled(Learn(s, u, id, txnId), FinalizeOp(u, id, status))
    requires Enabled(Finalize(Learn(s, u, id, txnId), u, id, status), TaskThrows(u, x))
    ensures Run(s, [LearnTxnId(u, id, txnId)] + ([FinalizeOp(u, id, status)] + ([TaskThrows(u, x)] + []))) ==
            Throw(Finalize(Learn(s, u, id, txnId), u, id, status), u, x)
  {
    RunLearn(s, u, id, txnId, [FinalizeOp(u, id, status)] + ([TaskThrows(u, x)] + []));
    RunFinalize(Learn(s, u, id, txnId), u, id, status, [TaskThrows(u, x)] + []);
    RunThrow(Finalize(Learn(s, u, id, txnId), u, id, status), u, x, []);
  }

  lemma OneLearned(s: State)
    requires s == WithDuplicate(TwoSentState())
    ensures Learn(s, 0, 0, "x") ==
            s.(ops := map[0 := Op(Key("a", 1), "x", [], BroadcastedButNotConfirmed), 1 := Sent()],
               updates := map[0 := Update("a", map[0 := Confirming, 1 := Asking], [], false)])
  {
    assert s.updates[0].tasks[0 := Confirming] == map[0 := Confirming, 1 := Asking];
  }

  lemma OneFinalized(s: State)
    requires s.ops == map[0 := Op(Key("a", 1), "x", [], BroadcastedButNotConfirmed), 1 := Sent()]
    requires s.updates == map[0 := Update("a", map[0 := Confirming, 1 := Asking], [], false)]
    ensures Finalize(s, 0, 0, Success) ==
            s.(ops := map[0 := Confirmed(), 1 := Sent()],
               updates := map[0 := Update("a", map[0 := Finalized, 1 := Asking], [0], false)])
  {
    assert s.updates[0].tasks[0 := Finalized] == map[0 := Finalized, 1 := Asking];
    assert [] + [0] == [0];
  }

  lemma OtherThrows(s: State)
    requires s.updates == map[0 := Update("a", map[0 := Finalized, 1 := Asking], [0], false)]
             && s.current == map["a" := 0]
    ensures Throw(s, 0, 1) == s.(updates := map[0 := Update("a", map[0 := Finalized], [0], true)], current := map[])
  {
    assert s.updates[0].tasks - {1} == map[0 := Finalized];
  }

  lemma OneConfirmedResult(s: State)
    requires s == WithDuplicate(TwoSentState())
    ensures Run(s, OneConfirmed()) ==
            s.(ops := map[0 := Confirmed(), 1 := Sent()], current := map[],
               updates := map[0 := Update("a", map[0 := Finalized], [0], true)])
  {
    OneLearned(s);
    OneFinalized(Learn(s, 0, 0, "x"));
    OtherThrows(Finalize(Learn(s, 0, 0, "x"), 0, 0, Success));
    RunConfirmThrow(s, 0, 0, "x", Success, 1);
  }

  /** Both, with the external operation found in between. */
  lemma DuplicateResult()
    ensures Run(Initial(), TwoSent() + AddEvents(Duplicate()) + OneConfirmed()) ==
            TwoSentState().(ops := map[0 := Confirmed(), 1 := Sent()], current := map[],
                            external := map[Key("a", 1) := ["x"]], storage := EmptyStorage().(writes := [0]),
                            updates := map[0 := Update("a", map[0 := Finalized], [0], true)])
  {
    RunConcat(Initial(), TwoSent() + AddEvents(Duplicate()), OneConfirmed());
    RunConcat(Initial(), TwoSent(), AddEvents(Duplicate()));
    TwoSentResult();
    NotYetKnown(TwoSentState());
    AddUnknown(TwoSentState(), Duplicate());
    assert ["x"] + ExternalAt(TwoSentState(), Key("a", 1)) == ["x"];
    OneConfirmedResult(WithDuplicate(TwoSentState()));
  }

  /**
   A run of two operations: the task of the one throws after that of the other has finalized its own. The
   update fails, and the duplicate of the finalized operation stays, whatever follows, as far as
   clean-ups on its account go.
   */
  lemma FailedUpdateLeavesDuplicate(after: seq<Event>)
    ensures var s := Run(Initial(), TwoSent() + AddEvents(Duplicate()) + OneConfirmed());
            && s.current == map[] && InternalAt(s, Key("a", 1)) == [1, 0]
            && ExternalAt(s, Key("a", 1)) == ["x"] && SharesId(s, 0, "x")
            && Abandoned(Run(s, after), 0)
  {
    var s := Run(Initial(), TwoSent() + AddEvents(Duplicate()) + OneConfirmed());
    RunKeepsInv(Initial(), TwoSent() + AddEvents(Duplicate()) + OneConfirmed());
    DuplicateResult();
    assert ([s.ops[0].txnId] + s.ops[0].callTxnIds)[0] == "x";
    assert "x" in TxnIds(s.ops[0]);
    AbandonedForever(s, after, 0);
  }

  /**
   The task of the one throws first. A second update then rejects the other operation, for which the task
   of the failed update still waits.
   */
  function SecondUpdate(): seq<Event> {
    [TaskThrows(0, 1)] +
      ([BeginUpdate("a", {1})] + ([FinalizeOp(1, 0, Rejected)] + ([TaskEnds(1, 0)] + ([TaskEnds(1, 1)] + []))))
  }

  lemma RunThrowBegin(s: State, u: nat, x: OpId, account: string, chains: set<nat>, rest: seq<Event>)
    requires Enabled(s, TaskThrows(u, x))
    ensures Run(s, [TaskThrows(u, x)] + ([BeginUpdate(account, chains)] + rest))
            == Run(Begin(Throw(s, u, x), account, chains), rest)
  {
    RunThrow(s, u, x, [BeginUpdate(account, chains)] + rest);
    RunBegin(Throw(s, u, x), account, chains, rest);
  }

  lemma RunFinalizeEnd(s: State, u: nat, id: OpId, status: OpStatus, x: OpId)
    requires Enabled(s, FinalizeOp(u, id, status)) && Enabled(Finalize(s, u, id, status), TaskEnds(u, id))
    requires Enabled(EndTask(Finalize(s, u, id, status), u, id), TaskEnds(u, x))
    ensures Run(s, [FinalizeOp(u, id, status)] + ([TaskEnds(u, id)] + ([TaskEnds(u, x)] + []))) ==
            EndTask(EndTask(Finalize(s, u, id, status), u, id), u, x)
  {
    RunFinalize(s, u, id, status, [TaskEnds(u, id)] + ([TaskEnds(u, x)] + []));
    RunEndTask(Finalize(s, u, id, status), u, id, [TaskEnds(u, x)] + []);
    RunEndTask(EndTask(Finalize(s, u, id, status), u, id), u, x, []);
  }

  lemma SecondBegun(s: State)
    requires s == TwoSentState()
    ensures var failed := Update("a", map[0 := Asking], [], true);
            Begin(Throw(s, 0, 1), "a", {1}) ==
            s.(updates := map[0 := failed, 1 := Update("a", map[0 := Asking, 1 := Asking], [], false)],
               current := map["a" := 1], nextUpdate := 2)
  {
    var failed := Update("a", map[0 := Asking], [], true);
    assert s.updates[0].tasks - {1} == failed.tasks;
    var s1 := s.(updates := map[0 := failed], current := map[]);
    assert Throw(s, 0, 1) == s1;
    TwoSelected(s1);
  }

  lemma OneRejected(s: State)
    requires s.ops == map[0 := Sent(), 1 := Sent()] && 1 in s.updates
    requires s.updates[1] == Update("a", map[0 := Asking, 1 := Asking], [], false)
    ensures Finalize(s, 1, 0, Rejected) ==
            s.(ops := map[0 := Sent().(status := Rejected), 1 := Sent()],
               updates := s.updates[1 := Update("a", map[0 := Finalized, 1 := Asking], [0], false)])
  {
    assert s.updates[1].tasks[0 := Finalized] == map[0 := Finalized, 1 := Asking];
    assert [] + [0] == [0];
  }

  lemma BothEnd(s: State)
    requires 1 in s.updates && s.updates[1] == Update("a", map[0 := Finalized, 1 := Asking], [0], false)
    ensures EndTask(s, 1, 0) == s.(updates := s.updates[1 := Update("a", map[1 := Asking], [0], false)])
    ensures EndTask(EndTask(s, 1, 0), 1, 1) == s.(updates := s.updates[1 := Update("a", map[], [0], false)])
  {
    assert s.updates[1].tasks - {0} == map[1 := Asking] && map[1 := Asking] - {1} == map[];
    assert EndTask(s, 1, 0) == s.(updates := s.updates[1 := Update("a", map[1 := Asking], [0], false)]);
  }

  lemma RejectedResult(s: State)
    requires s.ops == map[0 := Sent(), 1 := Sent()]
    requires s.updates == map[0 := Update("a", map[0 := Asking], [], true),
                              1 := Update("a", map[0 := Asking, 1 := Asking], [], false)]
    ensures Run(s, [FinalizeOp(1, 0, Rejected)] + ([TaskEnds(1, 0)] + ([TaskEnds(1, 1)] + []))) ==
            s.(ops := map[0 := Sent().(status := Rejected), 1 := Sent()],
               updates := map[0 := Update("a", map[0 := Asking], [], true), 1 := Update("a", map[], [0], false)])
  {
    OneRejected(s);
    BothEnd(Finalize(s, 1, 0, Rejected));
    RunFinalizeEnd(s, 1, 0, Rejected, 1);
  }

  lemma SecondUpdateResult(s: State)
    requires s == TwoSentState()
    ensures Run(s, SecondUpdate()) ==
            s.(ops := map[0 := Sent().(status := Rejected), 1 := Sent()], current := map["a" := 1], nextUpdate := 2,
               updates := map[0 := Update("a", map[0 := Asking], [], true), 1 := Update("a", map[], [0], false)])
  {
    SecondBegun(s);
    RunThrowBegin(s, 0, 1, "a", {1}, [FinalizeOp(1, 0, Rejected)] + ([TaskEnds(1, 0)] + ([TaskEnds(1, 1)] + [])));
    RejectedResult(Begin(Throw(s, 0, 1), "a", {1}));
  }

  /**
   A run in which an update completes while a task left over by a failed one can still change the id of
   the operation it finalized: by `FinalizedStaySeparateIff` it need not stay separate.
   */
  lemma LooseTaskIsReached()
    ensures var s := Run(Initial(), TwoSent() + SecondUpdate());
            && Enabled(s, EndUpdate(1)) && 0 in s.updates[1].updated && 0 in s.ops
            && 0 in InternalAt(s, s.ops[0].key) && IsLoose(s, 1, 0)
  {
    TwoSentResult();
    RunConcat(Initial(), TwoSent(), SecondUpdate());
    SecondUpdateResult(TwoSentState());
    var s := Run(Initial(), TwoSent() + SecondUpdate());
    assert CanLearn(s.updates[0], 0);
    assert InternalAt(s, Key("a", 1)) == [1, 0] && [1, 0][1] == 0;
  }

  // ----- A copy that is read back

  /** An external operation is stored and a read of it in flight while an update begins. */
  function OneSent(): seq<Event> {
    [AddAccountOp(Sent())] + ([BeginUpdate("a", {1})] + [])
  }

  function OneSentState(): State {
    State(map[0 := Sent()], map[Key("a", 1) := [0]], map[], EmptyStorage(), [], None,
          map[0 := Update("a", map[0 := Asking], [], false)], map["a" := 0], 1, 1)
  }

  lemma OneSentResult()
    ensures Run(Initial(), OneSent()) == OneSentState()
  {
    var s := Unshift(Initial(), Sent());
    RunAdd(Initial(), Sent(), [BeginUpdate("a", {1})] + []);
    RunBegin(s, "a", {1}, []);
    assert [0] + [] == [0] && s.internal == map[Key("a", 1) := [0]] && s.ops == map[0 := Sent()];
    assert InternalAt(s, Key("a", 1))[0] == 0;
    assert IsSelected(s, "a", {1}, 0);
    assert (map id | id in s.ops && IsSelected(s, "a", {1}, id) :: Asking) == map[0 := Asking];
  }

  lemma OneNotYetKnown()
    ensures !HasExisting(OneSentState(), Key("a", 1), "x")
  {
    FilterAppend(t => t != "", [], "");
    assert [Sent().txnId] + Sent().callTxnIds == [] + [""];
    assert TxnIds(Sent()) == [];
  }

  /** It is written, and read. */
  function WrittenAndRead(): seq<Event> {
    [WriteEnds(true)] + ([BeginRead] + ([ReadArrives(0)] + []))
  }

  function ReadStorage(records: Records): Storage {
    Storage(Some(records), [], map[0 := Arrived(1)], 1, 0, map[1 := records], 2)
  }

  lemma RunWriteAndRead(s: State, read: nat)
    requires s.storage.writes != [] && Enabled(StartRead(EndWrite(s, true)), ReadArrives(read))
    ensures Run(s, [WriteEnds(true)] + ([BeginRead] + ([ReadArrives(read)] + []))) ==
            Arrive(StartRead(EndWrite(s, true)), read)
  {
    RunWrite(s, true, [BeginRead] + ([ReadArrives(read)] + []));
    RunStartRead(EndWrite(s, true), [ReadArrives(read)] + []);
    RunArrive(StartRead(EndWrite(s, true)), read, []);
  }

  lemma OneWritten(s: State)
    requires s.storage == EmptyStorage().(writes := [0])
    ensures EndWrite(s, true) == s.(storage := EmptyStorage().(stored := Some(s.external)))
  {
  }

  lemma OneRead(s: State, records: Records)
    requires s.storage == EmptyStorage().(stored := Some(records))
    ensures StartRead(s) == s.(storage := s.storage.(pending := map[0 := Waiting(0, 0)], nextRead := 1))
    ensures Arrive(StartRead(s), 0) == s.(storage := ReadStorage(records))
  {
  }

  lemma WrittenAndReadResult(s: State)
    requires s.storage == EmptyStorage().(writes := [0])
    ensures Run(s, WrittenAndRead()) == s.(storage := ReadStorage(s.external))
  {
    OneWritten(s);
    OneRead(EndWrite(s, true), s.external);
    RunWriteAndRead(s, 0);
  }

  /** The task finds that id to be that of its operation. */
  function ItsOwn(): seq<Event> {
    [LearnTxnId(0, 0, "x")] + ([FinalizeOp(0, 0, Success)] + ([TaskEnds(0, 0)] + []))
  }

  lemma RunLearnAndEnd(s: State, u: nat, id: OpId, txnId: TxnId, status: OpStatus)
    requires Enabled(s, LearnTxnId(u, id, txnId)) && Enabled(Learn(s, u, id, txnId), FinalizeOp(u, id, status))
    requires Enabled(Finalize(Learn(s, u, id, txnId), u, id, status), TaskEnds(u, id))
    ensures Run(s, [LearnTxnId(u, id, txnId)] + ([FinalizeOp(u, id, status)] + ([TaskEnds(u, id)] + []))) ==
            EndTask(Finalize(Learn(s, u, id, txnId), u, id, status), u, id)
  {
    RunLearn(s, u, id, txnId, [FinalizeOp(u, id, status)] + ([TaskEnds(u, id)] + []));
    RunFinalize(Learn(s, u, id, txnId), u, id, status, [TaskEnds(u, id)] + []);
    RunEndTask(Finalize(Learn(s, u, id, txnId), u, id, status), u, id, []);
  }

  lemma ItsOwnStates(s: State)
    requires s.ops == map[0 := Sent()] && s.updates == map[0 := Update("a", map[0 := Asking], [], false)]
    ensures var s1 := s.(ops := map[0 := Op(Key("a", 1), "x", [], BroadcastedButNotConfirmed)],
                         updates := map[0 := Update("a", map[0 := Confirming], [], false)]);
            var s2 := s.(ops := map[0 := Confirmed()],
                         updates := map[0 := Update("a", map[0 := Finalized], [0], false)]);
            && Learn(s, 0, 0, "x") == s1 && Finalize(s1, 0, 0, Success) == s2
            && EndTask(s2, 0, 0) ==
               s.(ops := map[0 := Confirmed()], updates := map[0 := Update("a", map[], [0], false)])
  {
    assert s.updates[0].tasks[0 := Confirming] == map[0 := Confirming];
    assert (map[0 := Confirming])[0 := Finalized] == map[0 := Finalized] && [] + [0] == [0];
    assert map[0 := Finalized] - {0} == map[];
  }

  lemma ItsOwnResult(s: State)
    requires s.ops == map[0 := Sent()] && s.updates == map[0 := Update("a", map[0 := Asking], [], false)]
    ensures Run(s, ItsOwn()) == s.(ops := map[0 := Confirmed()], updates := map[0 := Update("a", map[], [0], false)])
  {
    ItsOwnStates(s);
    RunLearnAndEnd(s, 0, 0, "x", Success);
  }

  function StaleRun(): seq<Event> {
    OneSent() + AddEvents(Duplicate()) + WrittenAndRead() + ItsOwn()
  }

  function StaleState(): State {
    OneSentState().(ops := map[0 := Confirmed()], external := map[Key("a", 1) := ["x"]],
                    storage := ReadStorage(map[Key("a", 1) := ["x"]]),
                    updates := map[0 := Update("a", map[], [0], false)])
  }

  lemma StaleRunResult()
    ensures Run(Initial(), StaleRun()) == StaleState()
  {
    RunConcat(Initial(), OneSent() + AddEvents(Duplicate()) + WrittenAndRead(), ItsOwn());
    RunConcat(Initial(), OneSent() + AddEvents(Duplicate()), WrittenAndRead());
    RunConcat(Initial(), OneSent(), AddEvents(Duplicate()));
    OneSentResult();
    OneNotYetKnown();
    AddUnknown(OneSentState(), Duplicate());
    assert ["x"] + ExternalAt(OneSentState(), Key("a", 1)) == ["x"];
    var s := WithDuplicate(OneSentState());
    assert Run(OneSentState(), AddEvents(Duplicate())) == s;
    WrittenAndReadResult(s);
    ItsOwnResult(s.(storage := ReadStorage(s.external)));
  }

  lemma ConfirmedHasId()
    ensures HasTxnId(Confirmed(), "x")
  {
    assert ([Confirmed().txnId] + Confirmed().callTxnIds)[0] == "x";
    assert "x" in TxnIds(Confirmed());
  }

  /** What a read has when an update completes, the clean-up does not reach, and the read puts it back. */
  lemma ReadOutlivesCleanUp(s: State, u: nat, id: OpId, read: nat)
    requires Inv(s) && Enabled(s, EndUpdate(u)) && id in s.updates[u].updated
    requires Enabled(s, EndRead(read)) && s.storage.pending[read].copy != s.storage.live && ReadBrings(s, read, id)
    ensures var m := End(s, u);
            Separate(m, id) && ComesBack(m, id, false) && Enabled(m, EndRead(read)) && !Separate(Reload(m, read), id)
  {
    var m, c := End(s, u), s.storage.pending[read].copy;
    EndSeparates(s, u, id);
    assert Copy(m, c) == Copy(s, c);
    assert ReadBrings(m, read, id);
  }

  lemma StaleStateBrings(s: State)
    requires s == StaleState()
    ensures Enabled(s, EndUpdate(0)) && 0 in s.updates[0].updated && 0 in s.ops && 0 in InternalAt(s, s.ops[0].key)
    ensures !IsLoose(s, 0, 0) && Enabled(s, EndRead(0)) && ReadBrings(s, 0, 0)
    ensures s.storage.pending[0].copy != s.storage.live
  {
    var records := map[Key("a", 1) := ["x"]];
    ConfirmedHasId();
    assert Copy(s, 1) == records;
    var k := Key("a", 1);
    assert [0][0] == 0 && ["x"][0] == "x";
    assert k in s.internal && 0 in s.internal[k] && k in records && "x" in records[k];
    assert 0 in s.ops && s.ops[0] == Confirmed() && HasTxnId(s.ops[0], "x");
  }

  /**
   Such a run, with one operation, none of whose tasks throws: the read begins while the id is that of an
   external operation, the clean-up takes that away, and the read puts it back.
   */
  lemma StaleReadIsReached()
    ensures var s := StaleState();
            && Run(Initial(), StaleRun()) == s
            && Enabled(s, EndUpdate(0)) && 0 in s.updates[0].updated && 0 in s.ops && 0 in InternalAt(s, s.ops[0].key)
            && !IsLoose(s, 0, 0) && Separate(End(s, 0), 0) && ComesBack(End(s, 0), 0, false)
            && Enabled(End(s, 0), EndRead(0)) && !Separate(Reload(End(s, 0), 0), 0)
  {
    StaleRunResult();
    RunKeepsInv(Initial(), StaleRun());
    StaleStateBrings(StaleState());
    ReadOutlivesCleanUp(StaleState(), 0, 0, 0);
  }
}
