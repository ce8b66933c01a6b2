/**
 What reading the external operations back from storage may undo, and when what a completed update
 finalized stays apart from them (src/controllers/activity/activity.ts, src/controllers/storage/storage.ts).
 */
module ExternalOpsReads {
  import opened Wrappers
  import opened Sequences
  import opened ExternalOps
  import opened ExternalOpsRuns

  // ----- A copy that is brought back

  /** The copy that a read brings back shares an id with the operation. */
  ghost predicate ReadBrings(s: State, read: nat, id: OpId) {
    && read in s.storage.pending && s.storage.pending[read].Arrived?
    && !Apart(s.ops, s.internal, Copy(s, s.storage.pending[read].copy), id)
  }

  /** So does what a read that still waits finds after `k` of the waiting writes. */
  ghost predicate ReadMayFind(s: State, read: nat, k: nat, id: OpId, mayFail: bool) {
    && read in s.storage.pending && s.storage.pending[read].Waiting?
    && k <= |s.storage.writes| && (s.storage.pending[read].ahead <= k || mayFail)
    && !Apart(s.ops, s.internal, StoredAfter(s, k).GetOr(Copy(s, s.storage.pending[read].fallback)), id)
  }

  /** So does what is stored once the waiting writes have ended. */
  ghost predicate StaysStored(s: State, k: nat, id: OpId, mayFail: bool) {
    && k <= |s.storage.writes| && (k == |s.storage.writes| || mayFail)
    && StoredAfter(s, k).Some? && !Apart(s.ops, s.internal, StoredAfter(s, k).value, id)
  }

  /**
   A copy that shares an id with the operation can become the one in memory: a read has it, a read in
   flight may find it, or it is what will stay stored. `mayFail`: writes may fail.
   */
  ghost predicate ComesBack(s: State, id: OpId, mayFail: bool) {
    || (exists read :: ReadBrings(s, read, id))
    || (exists read, k :: ReadMayFind(s, read, k, id, mayFail))
    || (exists k :: StaysStored(s, k, id, mayFail))
  }

  /** The operation is finalized, and no task can change its id. */
  ghost predicate Final(s: State, id: OpId) {
    && id in s.ops && id < s.nextOp && IsFinalized(s.ops[id].status)
    && forall u :: u in s.updates ==> !CanLearn(s.updates[u], id)
  }

  ghost predicate SettledAt(s: State, id: OpId, mayFail: bool) {
    Final(s, id) && Separate(s, id) && !ComesBack(s, id, mayFail)
  }

  lemma ApartCarriesOver(s: State, t: State, records: Records, id: OpId)
    requires Apart(s.ops, s.internal, records, id)
    requires id in s.ops && id in t.ops && TxnIds(t.ops[id]) == TxnIds(s.ops[id])
    requires forall k :: id in InternalAt(t, k) ==> id in InternalAt(s, k)
    ensures Apart(t.ops, t.internal, records, id)
  {
    forall k, x | k in t.internal && id in t.internal[k] && k in records && x in records[k]
      ensures !HasTxnId(t.ops[id], x)
    {
      assert id in InternalAt(t, k) && id in InternalAt(s, k);
      assert HasTxnId(t.ops[id], x) == HasTxnId(s.ops[id], x);
    }
  }

  /** Steps that leave the external operations and storage alone. */
  lemma OtherKeepsAway(s: State, t: State, id: OpId, mayFail: bool)
    requires Separate(s, id) && !ComesBack(s, id, mayFail)
    requires t.external == s.external && t.storage == s.storage
    requires id in s.ops && id in t.ops && TxnIds(t.ops[id]) == TxnIds(s.ops[id])
    requires forall k :: id in InternalAt(t, k) ==> id in InternalAt(s, k)
    ensures Separate(t, id) && !ComesBack(t, id, mayFail)
  {
    assert forall c :: Copy(t, c) == Copy(s, c);
    ApartCarriesOver(s, t, s.external, id);
    forall read ensures !ReadBrings(t, read, id) {
      if ReadBrings(t, read, id) {
        var records := Copy(s, s.storage.pending[read].copy);
        assert Apart(s.ops, s.internal, records, id) by { assert !ReadBrings(s, read, id); }
        ApartCarriesOver(s, t, records, id);
      }
    }
    forall read, k ensures !ReadMayFind(t, read, k, id, mayFail) {
      if ReadMayFind(t, read, k, id, mayFail) {
        var records := StoredAfter(s, k).GetOr(Copy(s, s.storage.pending[read].fallback));
        assert Apart(s.ops, s.internal, records, id) by { assert !ReadMayFind(s, read, k, id, mayFail); }
        ApartCarriesOver(s, t, records, id);
      }
    }
    forall k ensures !StaysStored(t, k, id, mayFail) {
      if StaysStored(t, k, id, mayFail) {
        assert Apart(s.ops, s.internal, StoredAfter(s, k).value, id) by { assert !StaysStored(s, k, id, mayFail); }
        ApartCarriesOver(s, t, StoredAfter(s, k).value, id);
      }
    }
  }

  /** The copy in memory changes and stays apart. */
  lemma LiveKeepsAway(s: State, external: Records, id: OpId, mayFail: bool)
    requires Apart(s.ops, s.internal, external, id) && !ComesBack(s, id, mayFail)
    ensures var t := s.(external := external); Separate(t, id) && !ComesBack(t, id, mayFail)
  {
    var t := s.(external := external);
    forall c ensures Copy(t, c) == (if c == s.storage.live then external else Copy(s, c)) {}
    forall read ensures !ReadBrings(t, read, id) {
      assert !ReadBrings(s, read, id);
    }
    forall read, k ensures !ReadMayFind(t, read, k, id, mayFail) {
      assert !ReadMayFind(s, read, k, id, mayFail);
    }
    forall k ensures !StaysStored(t, k, id, mayFail) {
      assert !StaysStored(s, k, id, mayFail);
    }
  }

  lemma QueueWriteKeepsAway(s: State, id: OpId, mayFail: bool)
    requires Separate(s, id) && !ComesBack(s, id, mayFail)
    ensures Separate(QueueWrite(s), id) && !ComesBack(QueueWrite(s), id, mayFail)
  {
    var t, n := QueueWrite(s), |s.storage.writes|;
    assert forall c :: Copy(t, c) == Copy(s, c);
    assert StoredAfter(t, n + 1) == Some(s.external);
    forall k: nat | k <= n ensures StoredAfter(t, k) == StoredAfter(s, k) {}
    forall read ensures !ReadBrings(t, read, id) {
      assert !ReadBrings(s, read, id);
    }
    forall read, k ensures !ReadMayFind(t, read, k, id, mayFail) {
      assert !ReadMayFind(s, read, k, id, mayFail);
    }
    forall k ensures !StaysStored(t, k, id, mayFail) {
      assert !StaysStored(s, k, id, mayFail);
    }
  }

  lemma StartReadKeepsAway(s: State, id: OpId, mayFail: bool)
    requires StorageInv(s.storage) && Separate(s, id) && !ComesBack(s, id, mayFail)
    ensures Separate(StartRead(s), id) && !ComesBack(StartRead(s), id, mayFail)
  {
    var t := StartRead(s);
    assert forall c :: Copy(t, c) == Copy(s, c);
    forall k: nat | k <= |s.storage.writes| ensures StoredAfter(t, k) == StoredAfter(s, k) {}
    forall read ensures !ReadBrings(t, read, id) {
      assert !ReadBrings(s, read, id);
    }
    forall read, k ensures !ReadMayFind(t, read, k, id, mayFail) {
      assert !ReadMayFind(s, read, k, id, mayFail) && !StaysStored(s, k, id, mayFail);
    }
    forall k ensures !StaysStored(t, k, id, mayFail) {
      assert !StaysStored(s, k, id, mayFail);
    }
  }

  lemma NewCopyLeavesOthers(s: State, records: Records)
    requires StorageInv(s.storage)
    ensures var r := s.storage;
            var t := s.(storage := r.(copies := r.copies[r.nextCopy := records], nextCopy := r.nextCopy + 1));
            && Copy(t, r.nextCopy) == records && Copy(t, r.live) == s.external
            && (forall k: nat :: k <= |r.writes| ==> StoredAfter(t, k) == StoredAfter(s, k))
            && (forall read :: read in r.pending ==>
                  if r.pending[read].Waiting? then Copy(t, r.pending[read].fallback) == Copy(s, r.pending[read].fallback)
                  else Copy(t, r.pending[read].copy) == Copy(s, r.pending[read].copy))
  {
    var r := s.storage;
    forall read | read in r.pending ensures ReadInv(r.pending[read], |r.writes|, r.nextCopy) {}
  }

  /** Storage takes in one more copy, which nothing refers to yet. */
  lemma NewCopyKeepsAway(s: State, records: Records, id: OpId, mayFail: bool)
    requires StorageInv(s.storage) && Separate(s, id) && !ComesBack(s, id, mayFail)
    ensures var r := s.storage;
            var t := s.(storage := r.(copies := r.copies[r.nextCopy := records], nextCopy := r.nextCopy + 1));
            Separate(t, id) && !ComesBack(t, id, mayFail) && Copy(t, r.nextCopy) == records
  {
    var r := s.storage;
    var t := s.(storage := r.(copies := r.copies[r.nextCopy := records], nextCopy := r.nextCopy + 1));
    NewCopyLeavesOthers(s, records);
    forall read ensures !ReadBrings(t, read, id) {
      assert !ReadBrings(s, read, id);
    }
    forall read, k ensures !ReadMayFind(t, read, k, id, mayFail) {
      assert !ReadMayFind(s, read, k, id, mayFail);
    }
    forall k ensures !StaysStored(t, k, id, mayFail) {
      assert !StaysStored(s, k, id, mayFail);
    }
  }

  /** A read gets a copy that is apart. */
  lemma ArrivedKeepsAway(s: State, r: nat, c: nat, id: OpId, mayFail: bool)
    requires Separate(s, id) && !ComesBack(s, id, mayFail) && Apart(s.ops, s.internal, Copy(s, c), id)
    ensures var t := s.(storage := s.storage.(pending := s.storage.pending[r := Arrived(c)]));
            Separate(t, id) && !ComesBack(t, id, mayFail)
  {
    var t := s.(storage := s.storage.(pending := s.storage.pending[r := Arrived(c)]));
    assert forall x :: Copy(t, x) == Copy(s, x);
    forall k: nat | k <= |s.storage.writes| ensures StoredAfter(t, k) == StoredAfter(s, k) {}
    forall read ensures !ReadBrings(t, read, id) {
      assert !ReadBrings(s, read, id);
    }
    forall read, k ensures !ReadMayFind(t, read, k, id, mayFail) {
      assert !ReadMayFind(s, read, k, id, mayFail);
    }
    forall k ensures !StaysStored(t, k, id, mayFail) {
      assert !StaysStored(s, k, id, mayFail);
    }
  }

  lemma ArriveKeepsAway(s: State, r: nat, id: OpId, mayFail: bool)
    requires StorageInv(s.storage) && Enabled(s, ReadArrives(r)) && Separate(s, id) && !ComesBack(s, id, mayFail)
    ensures Separate(Arrive(s, r), id) && !ComesBack(Arrive(s, r), id, mayFail)
  {
    assert !ReadMayFind(s, r, 0, id, mayFail);
    match s.storage.stored
    case None => ArrivedKeepsAway(s, r, s.storage.pending[r].fallback, id, mayFail);
    case Some(records) =>
      var c := s.storage.nextCopy;
      NewCopyKeepsAway(s, records, id, mayFail);
      var t := s.(storage := s.storage.(copies := s.storage.copies[c := records], nextCopy := c + 1));
      ArrivedKeepsAway(t, r, c, id, mayFail);
      assert Arrive(s, r) == t.(storage := t.storage.(pending := t.storage.pending[r := Arrived(c)]));
  }

  lemma ReloadKeepsAway(s: State, r: nat, id: OpId, mayFail: bool)
    requires Enabled(s, EndRead(r)) && Separate(s, id) && !ComesBack(s, id, mayFail)
    ensures Separate(Reload(s, r), id) && !ComesBack(Reload(s, r), id, mayFail)
  {
    var t := Reload(s, r);
    assert forall c :: Copy(t, c) == Copy(s, c);
    forall k: nat | k <= |s.storage.writes| ensures StoredAfter(t, k) == StoredAfter(s, k) {}
    assert !ReadBrings(s, r, id);
    forall read ensures !ReadBrings(t, read, id) {
      assert !ReadBrings(s, read, id);
    }
    forall read, k ensures !ReadMayFind(t, read, k, id, mayFail) {
      assert !ReadMayFind(s, read, k, id, mayFail);
    }
    forall k ensures !StaysStored(t, k, id, mayFail) {
      assert !StaysStored(s, k, id, mayFail);
    }
  }

  lemma EndWriteKeepsAway(s: State, succeeds: bool, id: OpId, mayFail: bool)
    requires s.storage.writes != [] && (succeeds || mayFail) && Separate(s, id) && !ComesBack(s, id, mayFail)
    ensures Separate(EndWrite(s, succeeds), id) && !ComesBack(EndWrite(s, succeeds), id, mayFail)
  {
    var t := EndWrite(s, succeeds);
    assert forall c :: Copy(t, c) == Copy(s, c);
    forall k: nat | k < |s.storage.writes|
      ensures StoredAfter(t, k) == StoredAfter(s, if k == 0 && !succeeds then 0 else k + 1)
    {
    }
    forall read ensures !ReadBrings(t, read, id) {
      assert !ReadBrings(s, read, id);
    }
    forall read, k: nat ensures !ReadMayFind(t, read, k, id, mayFail) {
      assert !ReadMayFind(s, read, if k == 0 && !succeeds then 0 else k + 1, id, mayFail);
    }
    forall k: nat ensures !StaysStored(t, k, id, mayFail) {
      assert !StaysStored(s, if k == 0 && !succeeds then 0 else k + 1, id, mayFail);
    }
  }

  // ----- What is settled stays so

  lemma AddingStaysApart(s: State, x: External, id: OpId)
    requires InternalInv(s) && Separate(s, id) && !HasExisting(s, x.key, x.txnId)
    ensures Apart(s.ops, s.internal, s.external[x.key := Trim([x.txnId] + ExternalAt(s, x.key))], id)
  {
    var after := s.external[x.key := Trim([x.txnId] + ExternalAt(s, x.key))];
    forall k, t | id in InternalAt(s, k) && k in after && t in after[k] ensures !SharesId(s, id, t) {
      if k == x.key {
        assert t in [x.txnId] + ExternalAt(s, k);
        assert t in ExternalAt(s, k) ==> t in s.external[k];
      }
    }
  }

  lemma CleaningStaysApart(s: State, ops: seq<Op>, id: OpId)
    requires Separate(s, id)
    ensures Apart(s.ops, s.internal, CleanedAll(s.external, ops), id)
  {
    forall k ensures k in CleanedAll(s.external, ops) ==>
                       k in s.external && forall t :: t in CleanedAll(s.external, ops)[k] ==> t in s.external[k]
    {
      CleanedAllAt(s.external, ops, k);
    }
  }

  lemma FinishKeepsAway(s: State, abandoned: bool, id: OpId, mayFail: bool)
    requires InternalInv(s) && id in s.ops && Separate(s, id) && !ComesBack(s, id, mayFail)
    ensures var t := FinishAdding(s, abandoned); Separate(t, id) && !ComesBack(t, id, mayFail)
  {
    if s.adding.Some? {
      var x := s.adding.value;
      var mid := if abandoned then s else StoreExternal(s, x);
      if !abandoned && !HasExisting(s, x.key, x.txnId) {
        AddingStaysApart(s, x, id);
        LiveKeepsAway(s, s.external[x.key := Trim([x.txnId] + ExternalAt(s, x.key))], id, mayFail);
        QueueWriteKeepsAway(s.(external := s.external[x.key := Trim([x.txnId] + ExternalAt(s, x.key))]), id, mayFail);
      }
      assert forall k :: InternalAt(mid.(adding := None), k) == InternalAt(mid, k);
      OtherKeepsAway(mid, mid.(adding := None), id, mayFail);
    }
  }

  lemma EndKeepsAway(s: State, u: nat, id: OpId, mayFail: bool)
    requires u in s.updates && id in s.ops && Separate(s, id) && !ComesBack(s, id, mayFail)
    ensures Separate(End(s, u), id) && !ComesBack(End(s, u), id, mayFail)
  {
    var ops := OpsOf(s.ops, s.updates[u].updated);
    var mid := CleanUp(s, ops);
    CleaningStaysApart(s, ops, id);
    LiveKeepsAway(s, CleanedAll(s.external, ops), id, mayFail);
    if RemovesAny(s.external, ops) {
      QueueWriteKeepsAway(s.(external := CleanedAll(s.external, ops)), id, mayFail);
    }
    assert forall k :: InternalAt(End(s, u), k) == InternalAt(mid, k);
    OtherKeepsAway(mid, End(s, u), id, mayFail);
  }

  lemma StorageStepKeepsAway(s: State, e: Event, id: OpId, mayFail: bool)
    requires Inv(s) && Enabled(s, e) && Separate(s, id) && !ComesBack(s, id, mayFail)
    requires e.BeginRead? || e.ReadArrives? || e.EndRead? || (e.WriteEnds? && (e.succeeds || mayFail))
    ensures Separate(Step(s, e), id) && !ComesBack(Step(s, e), id, mayFail)
  {
    match e
    case BeginRead => StartReadKeepsAway(s, id, mayFail);
    case ReadArrives(r) => ArriveKeepsAway(s, r, id, mayFail);
    case EndRead(r) => ReloadKeepsAway(s, r, id, mayFail);
    case WriteEnds(succeeds) => EndWriteKeepsAway(s, succeeds, id, mayFail);
  }

  /** The operation stays final, keeps its ids, and no list gains it. */
  ghost predicate KeepsOp(s: State, t: State, id: OpId) {
    && Final(t, id) && id in s.ops && TxnIds(t.ops[id]) == TxnIds(s.ops[id])
    && forall k :: id in InternalAt(t, k) ==> id in InternalAt(s, k)
  }

  lemma UnshiftKeepsOp(s: State, op: Op, id: OpId)
    requires Final(s, id)
    ensures KeepsOp(s, Unshift(s, op), id)
  {
    forall k | id in InternalAt(Unshift(s, op), k) ensures id in InternalAt(s, k) {
      if k == op.key {
        assert id in [s.nextOp] + InternalAt(s, k);
      }
    }
  }

  lemma BeginKeepsOp(s: State, account: string, chains: set<nat>, id: OpId)
    requires Final(s, id)
    ensures KeepsOp(s, Begin(s, account, chains), id)
  {
    assert forall k :: InternalAt(Begin(s, account, chains), k) == InternalAt(s, k);
  }

  lemma LearnKeepsOp(s: State, u: nat, x: OpId, txnId: TxnId, id: OpId)
    requires Final(s, id) && Enabled(s, LearnTxnId(u, x, txnId))
    ensures KeepsOp(s, Learn(s, u, x, txnId), id)
  {
    assert x != id;
    assert forall k :: InternalAt(Learn(s, u, x, txnId), k) == InternalAt(s, k);
  }

  lemma FinalizeKeepsOp(s: State, u: nat, x: OpId, status: OpStatus, id: OpId)
    requires Final(s, id) && Enabled(s, FinalizeOp(u, x, status))
    ensures KeepsOp(s, Finalize(s, u, x, status), id)
  {
    assert forall k :: InternalAt(Finalize(s, u, x, status), k) == InternalAt(s, k);
  }

  lemma TaskKeepsOp(s: State, u: nat, x: OpId, id: OpId)
    requires Final(s, id) && u in s.updates
    ensures KeepsOp(s, EndTask(s, u, x), id) && KeepsOp(s, Throw(s, u, x), id)
  {
    assert forall k :: InternalAt(EndTask(s, u, x), k) == InternalAt(s, k);
    assert forall k :: InternalAt(Throw(s, u, x), k) == InternalAt(s, k);
  }

  lemma RestKeepsOp(s: State, t: State, id: OpId)
    requires Final(s, id) && t.ops == s.ops && t.nextOp == s.nextOp
    requires forall u :: u in t.updates ==> u in s.updates && t.updates[u] == s.updates[u]
    requires forall k :: k in t.internal ==> k in s.internal && t.internal[k] == s.internal[k]
    ensures KeepsOp(s, t, id)
  {
    forall k | id in InternalAt(t, k) ensures id in InternalAt(s, k) {}
  }

  predicate TouchesCopies(e: Event) {
    e.FinishExternal? || e.EndUpdate? || e.BeginRead? || e.ReadArrives? || e.EndRead? || e.WriteEnds?
  }

  lemma InternalStepKeepsOp(s: State, e: Event, id: OpId)
    requires Final(s, id) && Enabled(s, e) && !TouchesCopies(e)
    ensures KeepsOp(s, Step(s, e), id)
  {
    match e
    case AddAccountOp(op) => UnshiftKeepsOp(s, op, id);
    case BeginUpdate(account, chains) => BeginKeepsOp(s, account, chains, id);
    case LearnTxnId(u, x, txnId) => LearnKeepsOp(s, u, x, txnId, id);
    case FinalizeOp(u, x, status) => FinalizeKeepsOp(s, u, x, status, id);
    case TaskEnds(u, x) => TaskKeepsOp(s, u, x, id);
    case TaskThrows(u, x) => TaskKeepsOp(s, u, x, id);
    case RequestExternal(x) => RestKeepsOp(s, s.(queue := s.queue + [x]), id);
    case NextExternal => RestKeepsOp(s, TakeNext(s), id);
    case RemoveAccountData(account) => RestKeepsOp(s, RemoveData(s, account), id);
  }

  lemma AddingKeepsOp(s: State, abandoned: bool, id: OpId)
    requires Final(s, id)
    ensures KeepsOp(s, FinishAdding(s, abandoned), id)
  {
    RestKeepsOp(s, FinishAdding(s, abandoned), id);
  }

  lemma EndKeepsOp(s: State, u: nat, id: OpId)
    requires Final(s, id) && u in s.updates
    ensures KeepsOp(s, End(s, u), id)
  {
    RestKeepsOp(s, End(s, u), id);
  }

  lemma StorageStepKeepsOp(s: State, e: Event, id: OpId)
    requires Final(s, id) && Enabled(s, e) && (e.BeginRead? || e.ReadArrives? || e.EndRead? || e.WriteEnds?)
    ensures KeepsOp(s, Step(s, e), id)
  {
    match e
    case BeginRead => RestKeepsOp(s, StartRead(s), id);
    case ReadArrives(r) => RestKeepsOp(s, Arrive(s, r), id);
    case EndRead(r) => RestKeepsOp(s, Reload(s, r), id);
    case WriteEnds(succeeds) => RestKeepsOp(s, EndWrite(s, succeeds), id);
  }

  lemma StepKeepsOp(s: State, e: Event, id: OpId)
    requires Final(s, id) && Enabled(s, e)
    ensures KeepsOp(s, Step(s, e), id)
  {
    if !TouchesCopies(e) {
      InternalStepKeepsOp(s, e, id);
    } else if e.FinishExternal? {
      AddingKeepsOp(s, e.abandoned, id);
    } else if e.EndUpdate? {
      EndKeepsOp(s, e.update, id);
    } else {
      StorageStepKeepsOp(s, e, id);
    }
  }

  lemma OtherStepLeavesCopies(s: State, e: Event)
    requires !TouchesCopies(e) && Enabled(s, e)
    ensures Step(s, e).external == s.external && Step(s, e).storage == s.storage
  {
    match e
    case AddAccountOp(_) =>
    case BeginUpdate(_, _) =>
    case LearnTxnId(_, _, _) =>
    case FinalizeOp(_, _, _) =>
    case TaskEnds(_, _) =>
    case TaskThrows(_, _) =>
    case RequestExternal(_) =>
    case NextExternal =>
    case RemoveAccountData(_) =>
  }

  lemma StepKeepsSettled(s: State, e: Event, id: OpId, mayFail: bool)
    requires Inv(s) && SettledAt(s, id, mayFail) && (e == WriteEnds(false) ==> mayFail)
    ensures SettledAt(Step(s, e), id, mayFail)
  {
    if Enabled(s, e) {
      StepKeepsOp(s, e, id);
      if !TouchesCopies(e) {
        OtherStepLeavesCopies(s, e);
        OtherKeepsAway(s, Step(s, e), id, mayFail);
      } else if e.FinishExternal? {
        FinishKeepsAway(s, e.abandoned, id, mayFail);
      } else if e.EndUpdate? {
        EndKeepsAway(s, e.update, id, mayFail);
      } else {
        StorageStepKeepsAway(s, e, id, mayFail);
      }
    }
  }

  lemma {:induction false} StaysSettled(s: State, events: seq<Event>, id: OpId, mayFail: bool)
    requires Inv(s) && SettledAt(s, id, mayFail) && (mayFail || WritesSucceed(events))
    ensures SettledAt(Run(s, events), id, mayFail)
    decreases |events|
  {
    if events == [] {
    } else {
      StepKeepsSettled(s, events[0], id, mayFail);
      StepKeepsInv(s, events[0]);
      StaysSettled(Step(s, events[0]), events[1..], id, mayFail);
    }
  }

  // ----- What may come back does

  function Writes(n: nat, succeed: bool): seq<Event> {
    if n == 0 then [] else [WriteEnds(succeed)] + Writes(n - 1, succeed)
  }

  lemma {:induction false} WritesOnly(n: nat, succeed: bool)
    ensures forall e :: e in Writes(n, succeed) ==> e == WriteEnds(succeed)
  {
    if n > 0 {
      WritesOnly(n - 1, succeed);
    }
  }

  lemma EndWriteAt(s: State, succeed: bool, k: nat)
    requires k < |s.storage.writes|
    ensures var t := EndWrite(s, succeed);
            StoredAfter(t, k) == if k == 0 && !succeed then s.storage.stored else StoredAfter(s, k + 1)
  {
    var t := EndWrite(s, succeed);
    assert forall c :: Copy(t, c) == Copy(s, c);
  }

  /** The first `n` of the waiting writes end. */
  lemma {:induction false} RunWrites(s: State, n: nat, succeed: bool, read: nat)
    requires n <= |s.storage.writes| && read in s.storage.pending && s.storage.pending[read].Waiting?
    ensures var t, r := Run(s, Writes(n, succeed)), s.storage.pending[read];
            && t.(storage := s.storage) == s
            && t.storage.live == s.storage.live && t.storage.copies == s.storage.copies
            && t.storage.nextCopy == s.storage.nextCopy && t.storage.writes == s.storage.writes[n..]
            && t.storage.stored == (if succeed then StoredAfter(s, n) else s.storage.stored)
            && read in t.storage.pending
            && t.storage.pending[read] == Waiting(if r.ahead > n then r.ahead - n else 0, r.fallback)
    decreases n
  {
    if n > 0 {
      var s1 := EndWrite(s, succeed);
      RunCons(s, WriteEnds(succeed), Writes(n - 1, succeed));
      assert Step(s, WriteEnds(succeed)) == s1;
      RunWrites(s1, n - 1, succeed, read);
      EndWriteAt(s, succeed, n - 1);
      assert s.storage.writes[1..][n - 1..] == s.storage.writes[n..];
    }
  }

  function ReadEvents(k: nat, fails: nat, read: nat): seq<Event> {
    Writes(k, true) + Writes(fails, false) + ([ReadArrives(read)] + ([EndRead(read)] + []))
  }

  lemma {:induction false} WritesKeepStorage(s: State, n: nat, succeed: bool)
    requires CopiesInv(s) && n <= |s.storage.writes|
    ensures CopiesInv(Run(s, Writes(n, succeed)))
    decreases n
  {
    if n > 0 {
      EndWriteKeeps(s, succeed);
      RunCons(s, WriteEnds(succeed), Writes(n - 1, succeed));
      WritesKeepStorage(EndWrite(s, succeed), n - 1, succeed);
    }
  }

  lemma RunReload(s: State, read: nat)
    requires Enabled(s, EndRead(read))
    ensures Run(s, [EndRead(read)] + []) == Reload(s, read)
  {
    RunCons(s, EndRead(read), []);
  }

  lemma RunWrite(s: State, succeeds: bool, rest: seq<Event>)
    requires s.storage.writes != []
    ensures Run(s, [WriteEnds(succeeds)] + rest) == Run(EndWrite(s, succeeds), rest)
  {
    RunCons(s, WriteEnds(succeeds), rest);
  }

  lemma RunArrive(s: State, read: nat, rest: seq<Event>)
    requires Enabled(s, ReadArrives(read))
    ensures Run(s, [ReadArrives(read)] + rest) == Run(Arrive(s, read), rest)
  {
    RunCons(s, ReadArrives(read), rest);
  }

  lemma ReloadBrings(s: State, read: nat)
    requires Enabled(s, EndRead(read))
    ensures var t := Reload(s, read);
            t.ops == s.ops && t.internal == s.internal && t.external == Copy(s, s.storage.pending[read].copy)
  {
  }

  lemma ArriveThenReload(s: State, read: nat)
    requires StorageInv(s.storage) && Enabled(s, ReadArrives(read))
    ensures Enabled(Arrive(s, read), EndRead(read))
    ensures var t := Reload(Arrive(s, read), read);
            && t.ops == s.ops && t.internal == s.internal
            && t.external == s.storage.stored.GetOr(Copy(s, s.storage.pending[read].fallback))
  {
    var t := Arrive(s, read);
    ReloadBrings(t, read);
    match s.storage.stored
    case None => assert Copy(t, t.storage.pending[read].copy) == Copy(s, s.storage.pending[read].fallback);
    case Some(records) => assert Copy(t, s.storage.nextCopy) == records;
  }

  /** `k` writes succeed, `fails` more fail. */
  lemma RunWritesOfBothKinds(s: State, read: nat, k: nat, fails: nat) returns (t: State)
    requires CopiesInv(s) && read in s.storage.pending && s.storage.pending[read].Waiting?
    requires k + fails <= |s.storage.writes| && s.storage.pending[read].ahead <= k + fails
    ensures t == Run(s, Writes(k, true) + Writes(fails, false)) && t.(storage := s.storage) == s
    ensures StorageInv(t.storage) && t.storage.stored == StoredAfter(s, k) && Enabled(t, ReadArrives(read))
    ensures t.storage.pending[read].fallback == s.storage.pending[read].fallback
    ensures forall c :: Copy(t, c) == Copy(s, c)
  {
    RunConcat(s, Writes(k, true), Writes(fails, false));
    RunWrites(s, k, true, read);
    var s1 := Run(s, Writes(k, true));
    WritesKeepStorage(s, k, true);
    RunWrites(s1, fails, false, read);
    WritesKeepStorage(s1, fails, false);
    t := Run(s1, Writes(fails, false));
  }

  /** Then the read replaces what is in memory by what it finds. */
  lemma ReadFinds(s: State, read: nat, k: nat, fails: nat)
    requires CopiesInv(s) && read in s.storage.pending && s.storage.pending[read].Waiting?
    requires k + fails <= |s.storage.writes| && s.storage.pending[read].ahead <= k + fails
    ensures var t := Run(s, ReadEvents(k, fails, read));
            && t.ops == s.ops && t.internal == s.internal
            && t.external == StoredAfter(s, k).GetOr(Copy(s, s.storage.pending[read].fallback))
  {
    var last := [ReadArrives(read)] + ([EndRead(read)] + []);
    RunConcat(s, Writes(k, true) + Writes(fails, false), last);
    var t := RunWritesOfBothKinds(s, read, k, fails);
    ArriveThenReload(t, read);
    RunArrive(t, read, [EndRead(read)] + []);
    RunReload(Arrive(t, read), read);
  }

  lemma BringsBack(s: State, t: State, records: Records, id: OpId)
    requires !Apart(s.ops, s.internal, records, id)
    requires t.ops == s.ops && t.internal == s.internal && t.external == records
    ensures !Separate(t, id)
  {
  }

  lemma ReadMayBringBack(s: State, read: nat, k: nat, id: OpId, mayFail: bool) returns (events: seq<Event>)
    requires Inv(s) && ReadMayFind(s, read, k, id, mayFail)
    ensures !Separate(Run(s, events), id) && (mayFail || WritesSucceed(events))
  {
    var fails := if mayFail then |s.storage.writes| - k else 0;
    assert ReadInv(s.storage.pending[read], |s.storage.writes|, s.storage.nextCopy);
    events := ReadEvents(k, fails, read);
    ReadFinds(s, read, k, fails);
    BringsBack(s, Run(s, events), StoredAfter(s, k).GetOr(Copy(s, s.storage.pending[read].fallback)), id);
    WritesOnly(k, true);
  }

  lemma ReadBringsBack(s: State, read: nat, id: OpId)
    requires ReadBrings(s, read, id)
    ensures !Separate(Run(s, [EndRead(read)] + []), id) && WritesSucceed([EndRead(read)] + [])
  {
    RunReload(s, read);
    BringsBack(s, Reload(s, read), Copy(s, s.storage.pending[read].copy), id);
  }

  lemma NewReadMayFind(s: State, k: nat, id: OpId, mayFail: bool)
    requires Inv(s) && StaysStored(s, k, id, mayFail)
    ensures Inv(StartRead(s)) && ReadMayFind(StartRead(s), s.storage.nextRead, k, id, mayFail)
  {
    var t := StartRead(s);
    StartReadKeeps(s);
    CopiesCarryOver(s, t);
    assert StoredAfter(t, k) == StoredAfter(s, k);
  }

  lemma RunStartRead(s: State, rest: seq<Event>)
    ensures Run(s, [BeginRead] + rest) == Run(StartRead(s), rest)
  {
    RunCons(s, BeginRead, rest);
  }

  /** A copy that can come back does in some run. */
  lemma ComesBackInSomeRun(s: State, id: OpId, mayFail: bool) returns (events: seq<Event>)
    requires Inv(s) && ComesBack(s, id, mayFail)
    ensures !Separate(Run(s, events), id) && (mayFail || WritesSucceed(events))
  {
    if read :| ReadBrings(s, read, id) {
      ReadBringsBack(s, read, id);
      events := [EndRead(read)] + [];
    } else if read, k :| ReadMayFind(s, read, k, id, mayFail) {
      events := ReadMayBringBack(s, read, k, id, mayFail);
    } else {
      var k :| StaysStored(s, k, id, mayFail);
      NewReadMayFind(s, k, id, mayFail);
      var rest := ReadMayBringBack(StartRead(s), s.storage.nextRead, k, id, mayFail);
      RunStartRead(s, rest);
      events := [BeginRead] + rest;
    }
  }

  lemma EndSettles(s: State, u: nat, id: OpId, mayFail: bool)
    requires Inv(s) && Enabled(s, EndUpdate(u)) && id in s.updates[u].updated
    requires !IsLoose(s, u, id) && !ComesBack(End(s, u), id, mayFail)
    ensures SettledAt(End(s, u), id, mayFail)
  {
    assert UpdateInv(s.ops, s.updates[u]);
    EndSeparates(s, u, id);
  }

  lemma EndStaysSeparateIff(s: State, u: nat, id: OpId, mayFail: bool)
    requires Inv(s) && Enabled(s, EndUpdate(u))
    requires id in s.updates[u].updated && id in s.ops && id in InternalAt(s, s.ops[id].key)
    ensures var m := End(s, u);
            (forall after :: (mayFail || WritesSucceed(after)) ==> Separate(Run(m, after), id)) <==>
            !IsLoose(s, u, id) && !ComesBack(m, id, mayFail)
  {
    var m := End(s, u);
    EndKeepsInv(s, u);
    if IsLoose(s, u, id) {
      var o :| o in s.updates && o != u && CanLearn(s.updates[o], id);
      var after := LooseTaskBreaks(m, o, id, s.ops[id].key);
      assert !Separate(Run(m, after), id);
    } else if ComesBack(m, id, mayFail) {
      var after := ComesBackInSomeRun(m, id, mayFail);
      assert !Separate(Run(m, after), id);
    } else {
      EndSettles(s, u, id, mayFail);
      forall after | mayFail || WritesSucceed(after) ensures Separate(Run(m, after), id) {
        StaysSettled(m, after, id, mayFail);
      }
    }
  }

  /**
   Once an update completes, no external operation has an id of an operation it finalized; and in every
   run after it, it stays so while that operation is stored, if and only if no task of another update,
   one that failed, can still change its id, and no copy that shares an id with it can be read back. This
   holds of the runs in which writes may fail and of those in which they do not.
   */
  lemma FinalizedStaySeparateIff(before: seq<Event>, u: nat, id: OpId, mayFail: bool)
    requires var s := Run(Initial(), before);
             Enabled(s, EndUpdate(u)) && id in s.updates[u].updated && id in s.ops && id in InternalAt(s, s.ops[id].key)
    ensures var s := Run(Initial(), before);
            var m := End(s, u);
            && Separate(m, id)
            && ((forall after :: (mayFail || WritesSucceed(after)) ==> Separate(Run(m, after), id)) <==>
                !IsLoose(s, u, id) && !ComesBack(m, id, mayFail))
  {
    RunKeepsInv(Initial(), before);
    EndSeparates(Run(Initial(), before), u, id);
    EndStaysSeparateIff(Run(Initial(), before), u, id, mayFail);
  }

  /** With no read in flight and writes that succeed, a clean-up that removed something is for good. */
  lemma CleanedUpForGood(s: State, u: nat, id: OpId)
    requires Inv(s) && u in s.updates && id in s.updates[u].updated && s.storage.pending == map[]
    requires RemovesAny(s.external, OpsOf(s.ops, s.updates[u].updated))
    ensures !ComesBack(End(s, u), id, false)
  {
    var m := End(s, u);
    EndSeparates(s, u, id);
    assert StoredAfter(m, |m.storage.writes|) == Some(m.external);
  }

  /** The tasks that can change the id of an operation an update finalized belong to updates that failed. */
  lemma LooseTasksAreLeftOver(s: State, u: nat, o: nat, id: OpId)
    requires Inv(s) && u in s.updates && !s.updates[u].failed && id in s.updates[u].updated
    requires o in s.updates && o != u && CanLearn(s.updates[o], id)
    ensures s.updates[o].failed
  {
    assert UpdateInv(s.ops, s.updates[u]) && UpdateInv(s.ops, s.updates[o]);
    assert s.current[s.updates[u].account] == u;
  }
}
