/**
 Runs of adding external operations beside status updates, and tasks left over by updates that failed
 (src/controllers/activity/activity.ts).
 */
module ExternalOpsRuns {
  import opened Wrappers
  import opened Sequences
  import opened ExternalOps

  // ----- Every run

  /** Under any interleaving no two external operations of an account and chain have the same transaction id. */
  lemma ExternalsAreDistinct(events: seq<Event>, k: Key, i: nat, j: nat)
    requires i < j < |ExternalAt(Run(Initial(), events), k)|
    ensures var list := ExternalAt(Run(Initial(), events), k); Lower(list[i]) != Lower(list[j])
  {
    RunKeepsInv(Initial(), events);
    assert DistinctIds(ExternalAt(Run(Initial(), events), k));
  }

  lemma {:induction false} RunConcat(s: State, first: seq<Event>, second: seq<Event>)
    ensures Run(s, first + second) == Run(Run(s, first), second)
    decreases |first|
  {
    if first == [] {
      assert first + second == second;
    } else {
      assert (first + second)[1..] == first[1..] + second;
      RunConcat(Step(s, first[0]), first[1..], second);
    }
  }

  lemma RunCons(s: State, e: Event, rest: seq<Event>)
    ensures Run(s, [e] + rest) == Run(Step(s, e), rest)
  {
    assert ([e] + rest)[1..] == rest;
  }

  lemma RunAdd(s: State, op: Op, rest: seq<Event>)
    ensures Run(s, [AddAccountOp(op)] + rest) == Run(Unshift(s, op), rest)
  {
    RunCons(s, AddAccountOp(op), rest);
  }

  lemma RunRequest(s: State, x: External, rest: seq<Event>)
    ensures Run(s, [RequestExternal(x)] + rest) == Run(s.(queue := s.queue + [x]), rest)
  {
    RunCons(s, RequestExternal(x), rest);
  }

  lemma RunNext(s: State, rest: seq<Event>)
    ensures Run(s, [NextExternal] + rest) == Run(TakeNext(s), rest)
  {
    RunCons(s, NextExternal, rest);
  }

  lemma RunFinish(s: State, abandoned: bool, rest: seq<Event>)
    ensures Run(s, [FinishExternal(abandoned)] + rest) == Run(FinishAdding(s, abandoned), rest)
  {
    RunCons(s, FinishExternal(abandoned), rest);
  }

  lemma RunBegin(s: State, account: string, chains: set<nat>, rest: seq<Event>)
    ensures Run(s, [BeginUpdate(account, chains)] + rest) == Run(Begin(s, account, chains), rest)
  {
    RunCons(s, BeginUpdate(account, chains), rest);
  }

  lemma RunLearn(s: State, u: nat, id: OpId, txnId: TxnId, rest: seq<Event>)
    requires Enabled(s, LearnTxnId(u, id, txnId))
    ensures Run(s, [LearnTxnId(u, id, txnId)] + rest) == Run(Learn(s, u, id, txnId), rest)
  {
    RunCons(s, LearnTxnId(u, id, txnId), rest);
  }

  lemma RunFinalize(s: State, u: nat, id: OpId, status: OpStatus, rest: seq<Event>)
    requires Enabled(s, FinalizeOp(u, id, status))
    ensures Run(s, [FinalizeOp(u, id, status)] + rest) == Run(Finalize(s, u, id, status), rest)
  {
    RunCons(s, FinalizeOp(u, id, status), rest);
  }

  lemma RunEndTask(s: State, u: nat, id: OpId, rest: seq<Event>)
    requires Enabled(s, TaskEnds(u, id))
    ensures Run(s, [TaskEnds(u, id)] + rest) == Run(EndTask(s, u, id), rest)
  {
    RunCons(s, TaskEnds(u, id), rest);
  }

  lemma RunThrow(s: State, u: nat, id: OpId, rest: seq<Event>)
    requires Enabled(s, TaskThrows(u, id))
    ensures Run(s, [TaskThrows(u, id)] + rest) == Run(Throw(s, u, id), rest)
  {
    RunCons(s, TaskThrows(u, id), rest);
  }

  // ----- A task left over by a failed update

  function IdsOf(s: State, ids: seq<OpId>): (r: seq<TxnId>)
    ensures forall id, t :: id in ids && id in s.ops && t in TxnIds(s.ops[id]) ==> t in r
  {
    if ids == [] then []
    else
      var id := ids[|ids| - 1];
      IdsOf(s, ids[..|ids| - 1]) + if id in s.ops then TxnIds(s.ops[id]) else []
  }

  function Longest(txns: seq<TxnId>): (r: nat)
    ensures forall t :: t in txns ==> |t| <= r
  {
    if txns == [] then 0
    else
      var r, last := Longest(txns[..|txns| - 1]), |txns[|txns| - 1]|;
      if r < last then last else r
  }

  /** A transaction id that no stored operation of the account and chain has. */
  function FreshId(s: State, k: Key): (t: TxnId)
    ensures t != "" && !HasExisting(s, k, t)
  {
    var known := IdsOf(s, InternalAt(s, k)) + ExternalAt(s, k);
    var t := seq(Longest(known) + 1, _ => 'x');
    assert forall y :: y in known ==> |Lower(y)| < |Lower(t)|;
    assert forall id :: id in InternalAt(s, k) && id in s.ops ==> !HasTxnId(s.ops[id], t);
    t
  }

  /** No write to storage fails. */
  predicate WritesSucceed(events: seq<Event>) {
    WriteEnds(false) !in events
  }

  function DrainEvents(n: nat): seq<Event> {
    if n == 0 then [FinishExternal(true)] else [FinishExternal(true)] + [NextExternal] + DrainEvents(n - 1)
  }

  lemma RunGiveUp(s: State, rest: seq<Event>)
    ensures Run(s, [FinishExternal(true)] + ([NextExternal] + rest)) == Run(TakeNext(FinishAdding(s, true)), rest)
  {
    RunFinish(s, true, [NextExternal] + rest);
    RunNext(FinishAdding(s, true), rest);
  }

  lemma TakeDropsOne(s: State)
    requires s.queue != [] && s.adding == None
    ensures TakeNext(s).queue == s.queue[1..]
            && TakeNext(s).(queue := [], adding := None) == s.(queue := [], adding := None)
  {
    if HasExisting(s, s.queue[0].key, s.queue[0].txnId) {
      assert TakeNext(s) == s.(queue := s.queue[1..]);
    } else {
      assert TakeNext(s) == s.(queue := s.queue[1..], adding := Some(s.queue[0]));
    }
  }

  lemma GiveUp(s: State)
    ensures FinishAdding(s, true) == s.(adding := None)
  {
  }

  /** Giving up the requests that wait changes nothing else. */
  lemma {:induction false} Drain(s: State, n: nat)
    requires n == |s.queue|
    ensures Run(s, DrainEvents(n)) == s.(queue := [], adding := None)
    decreases n
  {
    if n == 0 {
      RunFinish(s, true, []);
      assert [FinishExternal(true)] + [] == DrainEvents(0);
      GiveUp(s);
    } else {
      GiveUp(s);
      TakeDropsOne(s.(adding := None));
      RunGiveUp(s, DrainEvents(n - 1));
      Drain(TakeNext(FinishAdding(s, true)), n - 1);
      assert DrainEvents(n) == [FinishExternal(true)] + ([NextExternal] + DrainEvents(n - 1));
    }
  }

  lemma {:induction false} DrainWritesNothing(n: nat)
    ensures WritesSucceed(DrainEvents(n))
  {
    if n > 0 {
      DrainWritesNothing(n - 1);
    }
  }

  function AddEvents(x: External): seq<Event> {
    [RequestExternal(x)] + ([NextExternal] + ([FinishExternal(false)] + []))
  }

  lemma StaysUnknown(s: State, t: State, x: External)
    requires !HasExisting(s, x.key, x.txnId) && t.ops == s.ops && t.internal == s.internal && t.external == s.external
    ensures !HasExisting(t, x.key, x.txnId)
  {
    assert InternalAt(t, x.key) == InternalAt(s, x.key) && ExternalAt(t, x.key) == ExternalAt(s, x.key);
  }

  /** A request for an id that is not known, with none waiting, is recorded. */
  lemma AddUnknown(s: State, x: External)
    requires s.queue == [] && s.adding == None && !HasExisting(s, x.key, x.txnId)
    ensures Run(s, AddEvents(x)) ==
            QueueWrite(s.(external := s.external[x.key := Trim([x.txnId] + ExternalAt(s, x.key))]))
  {
    RunRequest(s, x, [NextExternal] + ([FinishExternal(false)] + []));
    var s1 := s.(queue := s.queue + [x]);
    StaysUnknown(s, s1, x);
    RunNext(s1, [FinishExternal(false)] + []);
    assert (s.queue + [x])[1..] == [];
    var s2 := s.(adding := Some(x));
    assert TakeNext(s1) == s2;
    StaysUnknown(s, s2, x);
    RunFinish(s2, false, []);
  }

  lemma LearnShares(s: State, o: nat, id: OpId, k: Key, t: TxnId)
    requires o in s.updates && CanLearn(s.updates[o], id) && id in s.ops && t != ""
    requires id in InternalAt(s, k) && t in ExternalAt(s, k)
    ensures !Separate(Learn(s, o, id, t), id)
  {
    var u := Learn(s, o, id, t);
    var op := u.ops[id];
    assert op.txnId == t && ([op.txnId] + op.callTxnIds)[0] == t;
    assert t in TxnIds(op);
    assert id in InternalAt(u, k) && t in ExternalAt(u, k) && SharesId(u, id, t);
  }

  lemma RunLoose(s: State, x: External, o: nat, id: OpId)
    requires var s1 := s.(queue := [], adding := None);
             !HasExisting(s1, x.key, x.txnId)
             && Enabled(s1, LearnTxnId(o, id, x.txnId))
    ensures var s1 := s.(queue := [], adding := None);
            var s2 := QueueWrite(s1.(external := s1.external[x.key := Trim([x.txnId] + ExternalAt(s1, x.key))]));
            Run(s, DrainEvents(|s.queue|) + AddEvents(x) + ([LearnTxnId(o, id, x.txnId)] + []))
              == Learn(s2, o, id, x.txnId)
  {
    var s1 := s.(queue := [], adding := None);
    var s2 := QueueWrite(s1.(external := s1.external[x.key := Trim([x.txnId] + ExternalAt(s1, x.key))]));
    RunConcat(s, DrainEvents(|s.queue|) + AddEvents(x), [LearnTxnId(o, id, x.txnId)] + []);
    RunConcat(s, DrainEvents(|s.queue|), AddEvents(x));
    Drain(s, |s.queue|);
    AddUnknown(s1, x);
    RunLearn(s2, o, id, x.txnId, []);
  }

  /**
   While a task can still change the id of a stored operation, some run lets it share one with an external
   operation.
   */
  lemma LooseTaskBreaks(s: State, o: nat, id: OpId, k: Key) returns (events: seq<Event>)
    requires o in s.updates && CanLearn(s.updates[o], id) && id in s.ops && id in InternalAt(s, k)
    ensures !Separate(Run(s, events), id) && WritesSucceed(events)
  {
    var s1 := s.(queue := [], adding := None);
    var t := FreshId(s1, k);
    var s2 := QueueWrite(s1.(external := s1.external[k := Trim([t] + ExternalAt(s1, k))]));
    RunLoose(s, External(k, t), o, id);
    assert ExternalAt(s2, k)[0] == t;
    assert t in ExternalAt(s2, k) && InternalAt(s2, k) == InternalAt(s, k);
    LearnShares(s2, o, id, k, t);
    events := DrainEvents(|s.queue|) + AddEvents(External(k, t)) + ([LearnTxnId(o, id, t)] + []);
    DrainWritesNothing(|s.queue|);
  }

  // ----- One step

  /** The clean-up takes away nothing but duplicates. */
  lemma CleanupRemovesOnlyDuplicates(s: State, u: nat, k: Key, t: TxnId)
    requires Inv(s) && u in s.updates && t in ExternalAt(s, k)
    ensures t !in ExternalAt(End(s, u), k) <==>
            exists id :: id in s.updates[u].updated && s.ops[id].key == k && SharesId(s, id, t)
  {
    var updated := s.updates[u].updated;
    assert UpdateInv(s.ops, s.updates[u]);
    CleanedAllAt(s.external, OpsOf(s.ops, updated), k);
    if t !in ExternalAt(End(s, u), k) {
      var op :| op in OpsOf(s.ops, updated) && op.key == k && HasTxnId(op, t);
      var id :| id in updated && id in s.ops && s.ops[id] == op;
      assert SharesId(s, id, t);
    }
    if id :| id in updated && s.ops[id].key == k && SharesId(s, id, t) {
      assert s.ops[id] in OpsOf(s.ops, updated);
    }
  }

  /** A request for an external operation that ends with the network known leaves its id in the records, once. */
  lemma RequestedIsRecorded(s: State)
    requires Inv(s) && s.adding.Some?
    ensures var x, t := s.adding.value, FinishAdding(s, false);
            HasExisting(t, x.key, x.txnId) && (HasExisting(s, x.key, x.txnId) ==> t.external == s.external)
  {
    var x, t := s.adding.value, FinishAdding(s, false);
    if HasExisting(s, x.key, x.txnId) {
      assert InternalAt(t, x.key) == InternalAt(s, x.key) && ExternalAt(t, x.key) == ExternalAt(s, x.key);
    } else {
      assert ExternalAt(t, x.key)[0] == x.txnId;
      assert x.txnId in ExternalAt(t, x.key);
    }
  }
}
