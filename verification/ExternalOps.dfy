/**
 External against internal operations of the activity controller
 (src/controllers/activity/activity.ts): an operation found on chain is stored only if no stored one
 has its transaction id, and status updates, which learn the final ids of internal operations late,
 clean up behind themselves.

 Account keys are canonical. An internal operation is a reference (`OpId`) to an object that a running
 update may change although a list has dropped it; an external one is its transaction id, which never
 changes. The empty string stands for a missing id; the source treats the two alike.

 An update runs one task for each operation it looks at. When a task throws, the update fails at once,
 without cleaning up, but its other tasks go on.

 The external operations are also written to storage and read back from it each time they are shown. Both
 go by copies: a write stores what its copy holds when its turn comes, and a read, once it ends, replaces the copy
 in memory by a new one of what was stored when storage answered.
 */
module ExternalOps {
  import opened Wrappers
  import opened Sequences

  const MAX_OPS_TO_ITERATE_PER_CHAIN := 50

  type OpId = nat
  type TxnId = string

  datatype Key = Key(account: string, chain: nat)

  datatype OpStatus =
    | Pending
    | BroadcastedButNotConfirmed
    | Success
    | Failure
    | Rejected
    | UnknownButPastNonce
    | BroadcastButStuck

  datatype Op = Op(key: Key, txnId: TxnId, callTxnIds: seq<TxnId>, status: OpStatus)

  /** A task asks for the transaction id, then waits for its receipt. */
  datatype Stage = Asking | Confirming | Finalized

  datatype Update = Update(account: string, tasks: map<OpId, Stage>, updated: seq<OpId>, failed: bool)

  datatype External = External(key: Key, txnId: TxnId)

  type Records = map<Key, seq<TxnId>>

  /**
   A read waits for the writes that were ahead of it, then has a copy to bring back: a new one of what is
   stored, or `fallback`, the copy in memory when the read began, if nothing is stored.
   */
  datatype Read = Waiting(ahead: nat, fallback: nat) | Arrived(copy: nat)

  datatype Storage = Storage(
    stored: Option<Records>,
    // the copies that writes wait to store, the first one first
    writes: seq<nat>,
    pending: map<nat, Read>,
    nextRead: nat,
    // the copy in memory, what the others hold, and the number of the next one
    live: nat,
    copies: map<nat, Records>,
    nextCopy: nat)

  /** `external` is what the copy in memory holds. */
  datatype State = State(
    ops: map<OpId, Op>,
    internal: map<Key, seq<OpId>>,
    external: Records,
    storage: Storage,
    queue: seq<External>,
    adding: Option<External>,
    // every update whose tasks may still run, and the one each account waits for
    updates: map<nat, Update>,
    current: map<string, nat>,
    nextUpdate: nat,
    nextOp: OpId)

  datatype Event =
    | AddAccountOp(op: Op)
    | RequestExternal(external: External)
    | NextExternal
    | FinishExternal(abandoned: bool)
    | BeginUpdate(account: string, chains: set<nat>)
    | LearnTxnId(update: nat, id: OpId, txnId: TxnId)
    | FinalizeOp(update: nat, id: OpId, status: OpStatus)
    | TaskEnds(update: nat, id: OpId)
    | TaskThrows(update: nat, id: OpId)
    | EndUpdate(update: nat)
    | RemoveAccountData(account: string)
    | BeginRead
    | ReadArrives(read: nat)
    | EndRead(read: nat)
    | WriteEnds(succeeds: bool)

  function EmptyStorage(): Storage {
    Storage(None, [], map[], 0, 0, map[], 1)
  }

  function Initial(): State {
    State(map[], map[], map[], EmptyStorage(), [], None, map[], map[], 0, 0)
  }

  function Lower(s: string): string {
    Map(c => if 'A' <= c <= 'Z' then c - 'A' + 'a' else c, s)
  }

  predicate IsFinalized(status: OpStatus) {
    status != BroadcastedButNotConfirmed && status != Pending
  }

  function TxnIds(op: Op): seq<TxnId> {
    Filter(t => t != "", [op.txnId] + op.callTxnIds)
  }

  predicate HasTxnId(op: Op, txnId: TxnId) {
    exists t :: t in TxnIds(op) && Lower(t) == Lower(txnId)
  }

  function InternalAt(s: State, k: Key): seq<OpId> {
    if k in s.internal then s.internal[k] else []
  }

  function ExternalAt(s: State, k: Key): seq<TxnId> {
    if k in s.external then s.external[k] else []
  }

  /** The duplication guard. */
  predicate HasExisting(s: State, k: Key, txnId: TxnId) {
    || (exists id :: id in InternalAt(s, k) && id in s.ops && HasTxnId(s.ops[id], txnId))
    || (exists t :: t in ExternalAt(s, k) && Lower(t) == Lower(txnId))
  }

  function Unshift(s: State, op: Op): State {
    s.(ops := s.ops[s.nextOp := op],
       internal := s.internal[op.key := Trim([s.nextOp] + InternalAt(s, op.key))],
       nextOp := s.nextOp + 1)
  }

  function TakeNext(s: State): State {
    if s.adding.Some? || s.queue == [] then s
    else
      var x, t := s.queue[0], s.(queue := s.queue[1..]);
      if HasExisting(s, x.key, x.txnId) then t else t.(adding := Some(x))
  }

  /** `#storage.set` of the copy in memory. */
  function QueueWrite(s: State): State {
    s.(storage := s.storage.(writes := s.storage.writes + [s.storage.live]))
  }

  function StoreExternal(s: State, x: External): State {
    if HasExisting(s, x.key, x.txnId) then s
    else QueueWrite(s.(external := s.external[x.key := Trim([x.txnId] + ExternalAt(s, x.key))]))
  }

  /** `abandoned`: the network or its provider is not known. */
  function FinishAdding(s: State, abandoned: bool): State {
    if s.adding.None? then s
    else (if abandoned then s else StoreExternal(s, s.adding.value)).(adding := None)
  }

  predicate IsSelected(s: State, account: string, chains: set<nat>, id: OpId) {
    && id in s.ops && s.ops[id].key.account == account && s.ops[id].key.chain in chains
    && s.ops[id].status == BroadcastedButNotConfirmed
    && exists i :: 0 <= i < |InternalAt(s, s.ops[id].key)| && i < MAX_OPS_TO_ITERATE_PER_CHAIN
                   && InternalAt(s, s.ops[id].key)[i] == id
  }

  /** `chains`: those whose network and provider are known. */
  function Begin(s: State, account: string, chains: set<nat>): State {
    if account in s.current then s
    else
      var tasks := map id | id in s.ops && IsSelected(s, account, chains, id) :: Asking;
      s.(updates := s.updates[s.nextUpdate := Update(account, tasks, [], false)],
         current := s.current[account := s.nextUpdate],
         nextUpdate := s.nextUpdate + 1)
  }

  function Learn(s: State, u: nat, id: OpId, txnId: TxnId): State
    requires u in s.updates && id in s.ops
  {
    var update := s.updates[u];
    s.(ops := s.ops[id := s.ops[id].(txnId := txnId)],
       updates := s.updates[u := update.(tasks := update.tasks[id := Confirming])])
  }

  function Finalize(s: State, u: nat, id: OpId, status: OpStatus): State
    requires u in s.updates && id in s.ops
  {
    var update := s.updates[u];
    s.(ops := s.ops[id := s.ops[id].(status := status)],
       updates := s.updates[u := update.(tasks := update.tasks[id := Finalized], updated := update.updated + [id])])
  }

  function EndTask(s: State, u: nat, id: OpId): State
    requires u in s.updates
  {
    s.(updates := s.updates[u := s.updates[u].(tasks := s.updates[u].tasks - {id})])
  }

  /** The first task that throws makes its update fail. */
  function Throw(s: State, u: nat, id: OpId): State
    requires u in s.updates
  {
    var t := EndTask(s, u, id);
    if s.updates[u].failed then t
    else t.(updates := t.updates[u := t.updates[u].(failed := true)], current := s.current - {s.updates[u].account})
  }

  /** The external operations without those that have an id of the operation. */
  function Cleaned(external: Records, op: Op): Records {
    if op.key in external && IsFinalized(op.status)
    then external[op.key := Filter(t => !HasTxnId(op, t), external[op.key])]
    else external
  }

  function CleanedAll(external: Records, ops: seq<Op>): Records {
    if ops == [] then external else Cleaned(CleanedAll(external, ops[..|ops| - 1]), ops[|ops| - 1])
  }

  /** The clean-up removes an external operation. */
  predicate RemovesAny(external: Records, ops: seq<Op>) {
    && ops != []
    && var before := CleanedAll(external, ops[..|ops| - 1]);
       RemovesAny(external, ops[..|ops| - 1]) || Cleaned(before, ops[|ops| - 1]) != before
  }

  function CleanUp(s: State, ops: seq<Op>): State {
    var t := s.(external := CleanedAll(s.external, ops));
    if RemovesAny(s.external, ops) then QueueWrite(t) else t
  }

  function OpsOf(ops: map<OpId, Op>, ids: seq<OpId>): (r: seq<Op>)
    ensures forall op :: op in r <==> exists id :: id in ids && id in ops && ops[id] == op
  {
    if ids == [] then []
    else
      var rest := OpsOf(ops, ids[..|ids| - 1]);
      var id := ids[|ids| - 1];
      if id in ops then rest + [ops[id]] else rest
  }

  predicate CanLearn(u: Update, id: OpId) {
    id in u.tasks && u.tasks[id] != Finalized
  }

  /** A task of another update can still change the id of the operation. */
  predicate IsLoose(s: State, u: nat, id: OpId) {
    exists o :: o in s.updates && o != u && CanLearn(s.updates[o], id)
  }

  function End(s: State, u: nat): State
    requires u in s.updates
  {
    CleanUp(s, OpsOf(s.ops, s.updates[u].updated)).(updates := s.updates - {u},
                                                    current := s.current - {s.updates[u].account})
  }

  function RemoveData(s: State, account: string): State {
    s.(internal := map k | k in s.internal && k.account != account :: s.internal[k])
  }

  function Copy(s: State, c: nat): Records {
    if c == s.storage.live then s.external
    else if c in s.storage.copies then s.storage.copies[c]
    else map[]
  }

  /** What storage will hold after `k` of the waiting writes, if they succeed. */
  function StoredAfter(s: State, k: nat): Option<Records>
    requires k <= |s.storage.writes|
  {
    if k == 0 then s.storage.stored else Some(Copy(s, s.storage.writes[k - 1]))
  }

  /** `filterAccountsOps` up to the answer of storage. */
  function StartRead(s: State): State {
    var r := s.storage;
    s.(storage := r.(pending := r.pending[r.nextRead := Waiting(|r.writes|, r.live)], nextRead := r.nextRead + 1))
  }

  function Arrive(s: State, read: nat): State
    requires read in s.storage.pending && s.storage.pending[read].Waiting?
  {
    var r := s.storage;
    match r.stored
    case None => s.(storage := r.(pending := r.pending[read := Arrived(r.pending[read].fallback)]))
    case Some(records) =>
      s.(storage := r.(pending := r.pending[read := Arrived(r.nextCopy)],
                       copies := r.copies[r.nextCopy := records], nextCopy := r.nextCopy + 1))
  }

  /** The copy that was read becomes the one in memory. */
  function Reload(s: State, read: nat): State
    requires read in s.storage.pending && s.storage.pending[read].Arrived?
  {
    var r, c := s.storage, s.storage.pending[read].copy;
    s.(external := Copy(s, c),
       storage := r.(pending := r.pending - {read}, live := c, copies := r.copies[r.live := s.external]))
  }

  function Advance(r: Read): Read {
    if r.Waiting? && r.ahead > 0 then r.(ahead := r.ahead - 1) else r
  }

  /** A write that fails is only reported. */
  function EndWrite(s: State, succeeds: bool): State
    requires s.storage.writes != []
  {
    var r := s.storage;
    s.(storage := r.(stored := if succeeds then StoredAfter(s, 1) else r.stored, writes := r.writes[1..],
                     pending := map read | read in r.pending :: Advance(r.pending[read])))
  }

  predicate Enabled(s: State, e: Event) {
    match e
    case LearnTxnId(u, id, _) => u in s.updates && CanLearn(s.updates[u], id) && id in s.ops
    case FinalizeOp(u, id, status) => u in s.updates && id in s.updates[u].tasks && id in s.ops && IsFinalized(status)
    case TaskEnds(u, id) => u in s.updates && id in s.updates[u].tasks
    case TaskThrows(u, id) => u in s.updates && id in s.updates[u].tasks && s.updates[u].tasks[id] == Asking
    case EndUpdate(u) => u in s.updates && !s.updates[u].failed && s.updates[u].tasks == map[]
    case ReadArrives(r) => r in s.storage.pending && s.storage.pending[r].Waiting? && s.storage.pending[r].ahead == 0
    case EndRead(r) => r in s.storage.pending && s.storage.pending[r].Arrived?
    case WriteEnds(_) => s.storage.writes != []
    case _ => true
  }

  function Step(s: State, e: Event): State {
    if !Enabled(s, e) then s
    else
      match e
      case AddAccountOp(op) => Unshift(s, op)
      case RequestExternal(x) => s.(queue := s.queue + [x])
      case NextExternal => TakeNext(s)
      case FinishExternal(abandoned) => FinishAdding(s, abandoned)
      case BeginUpdate(account, chains) => Begin(s, account, chains)
      case LearnTxnId(u, id, txnId) => Learn(s, u, id, txnId)
      case FinalizeOp(u, id, status) => Finalize(s, u, id, status)
      case TaskEnds(u, id) => EndTask(s, u, id)
      case TaskThrows(u, id) => Throw(s, u, id)
      case EndUpdate(u) => End(s, u)
      case RemoveAccountData(account) => RemoveData(s, account)
      case BeginRead => StartRead(s)
      case ReadArrives(r) => Arrive(s, r)
      case EndRead(r) => Reload(s, r)
      case WriteEnds(succeeds) => EndWrite(s, succeeds)
  }

  function Run(s: State, events: seq<Event>): State
    decreases |events|
  {
    if events == [] then s else Run(Step(s, events[0]), events[1..])
  }

  // ----- The class of the source

  class ActivityController {
    var ops: map<OpId, Op>
    var accountsOps: map<Key, seq<OpId>>
    var externalAccountOps: Records
    // storage, its queue of writes and the reads in flight
    var storage: Storage
    var queue: seq<External>
    var adding: Option<External>
    var updates: map<nat, Update>
    var current: map<string, nat>
    var nextUpdate: nat
    var nextOp: OpId

    ghost function View(): State
      reads this
    {
      State(ops, accountsOps, externalAccountOps, storage, queue, adding, updates, current, nextUpdate, nextOp)
    }

    constructor ()
      ensures View() == Initial()
    {
      ops, accountsOps, externalAccountOps, queue, adding := map[], map[], map[], [], None;
      storage := EmptyStorage();
      updates, current, nextUpdate, nextOp := map[], map[], 0, 0;
    }

    method Add(op: Op)
      modifies this
      ensures View() == Unshift(old(View()), op)
    {
      if op.key !in accountsOps {
        accountsOps := accountsOps[op.key := []];
      }
      ops := ops[nextOp := op];
      var items := [nextOp] + accountsOps[op.key];
      if |items| > MAX_ITEMS {
        items := items[..|items| - 1];
      }
      accountsOps := accountsOps[op.key := items];
      nextOp := nextOp + 1;
    }

    method HasExistingAccountOpWithTxnId(k: Key, txnId: TxnId) returns (r: bool)
      ensures r == HasExisting(View(), k, txnId)
    {
      var internalOps := if k in accountsOps then accountsOps[k] else [];
      for i := 0 to |internalOps|
        invariant forall j :: 0 <= j < i ==> !(internalOps[j] in ops && HasTxnId(ops[internalOps[j]], txnId))
      {
        if internalOps[i] in ops && HasTxnId(ops[internalOps[i]], txnId) { return true; }
      }
      var externalOps := if k in externalAccountOps then externalAccountOps[k] else [];
      for i := 0 to |externalOps|
        invariant forall j :: 0 <= j < i ==> Lower(externalOps[j]) != Lower(txnId)
      {
        if Lower(externalOps[i]) == Lower(txnId) { return true; }
      }
      return false;
    }

    /** `#addExternalAccountOp` up to its first question to the network. */
    method BeginNext()
      modifies this
      ensures View() == TakeNext(old(View()))
    {
      if adding.Some? || queue == [] { return; }
      var x := queue[0];
      var existing := HasExistingAccountOpWithTxnId(x.key, x.txnId);
      queue := queue[1..];
      if existing { return; }
      adding := Some(x);
    }

    /** `#addExternalAccountOp` from its last answer on. */
    method Finish(abandoned: bool)
      modifies this
      ensures View() == FinishAdding(old(View()), abandoned)
    {
      if adding.None? { return; }
      var x := adding.value;
      if !abandoned {
        var existing := HasExistingAccountOpWithTxnId(x.key, x.txnId);
        if !existing {
          if x.key !in externalAccountOps {
            externalAccountOps := externalAccountOps[x.key := []];
          }
          externalAccountOps := externalAccountOps[x.key := Trim([x.txnId] + externalAccountOps[x.key])];
          StartWrite();
        }
      }
      adding := None;
    }

    /** `#storage.set` of the external operations, up to its turn. */
    method StartWrite()
      modifies this`storage
      ensures View() == QueueWrite(old(View()))
    {
      storage := storage.(writes := storage.writes + [storage.live]);
    }

    method RemoveExternalAccountOpsMatchingInternalOps(accountOps: seq<Op>)
      modifies this`externalAccountOps, this`storage
      ensures View() == CleanUp(old(View()), accountOps)
    {
      ghost var s := View();
      var hasRemoved := false;
      for i := 0 to |accountOps|
        invariant externalAccountOps == CleanedAll(s.external, accountOps[..i])
        invariant hasRemoved == RemovesAny(s.external, accountOps[..i])
        invariant storage == s.storage
      {
        assert accountOps[..i + 1][..i] == accountOps[..i];
        var op := accountOps[i];
        if IsFinalized(op.status) && op.key in externalAccountOps {
          var kept := Filter(t => !HasTxnId(op, t), externalAccountOps[op.key]);
          if |kept| != |externalAccountOps[op.key]| {
            externalAccountOps := externalAccountOps[op.key := kept];
            hasRemoved := true;
          } else {
            FilterKeepsAll(t => !HasTxnId(op, t), externalAccountOps[op.key]);
          }
        }
      }
      assert accountOps[..|accountOps|] == accountOps;
      if hasRemoved { StartWrite(); }
    }

    /** The end of `#updateAccountsOpsStatuses`, once all its tasks have ended. */
    method Complete(u: nat)
      requires Enabled(View(), EndUpdate(u))
      modifies this
      ensures View() == End(old(View()), u)
    {
      RemoveExternalAccountOpsMatchingInternalOps(OpsOf(ops, updates[u].updated));
      current := current - {updates[u].account};
      updates := updates - {u};
    }

    /** `filterAccountsOps` up to its first answer. */
    method FilterAccountsOps()
      modifies this`storage
      ensures View() == StartRead(old(View()))
    {
      var read := Waiting(|storage.writes|, storage.live);
      storage := storage.(pending := storage.pending[storage.nextRead := read], nextRead := storage.nextRead + 1);
    }

    /** `filterAccountsOps` from the answer of storage on. */
    method TakeAnswer(read: nat)
      requires Enabled(View(), EndRead(read))
      modifies this
      ensures View() == Reload(old(View()), read)
    {
      var c, held := storage.pending[read].copy, externalAccountOps;
      if c != storage.live {
        externalAccountOps := if c in storage.copies then storage.copies[c] else map[];
      }
      storage := storage.(pending := storage.pending - {read}, live := c,
                          copies := storage.copies[storage.live := held]);
    }
  }

  // ----- The invariant

  ghost predicate DistinctIds(txns: seq<TxnId>) {
    forall i, j :: 0 <= i < j < |txns| ==> Lower(txns[i]) != Lower(txns[j])
  }

  ghost predicate DistinctRecords(records: Records) {
    forall k :: k in records ==> DistinctIds(records[k])
  }

  /** In memory, in storage and in every copy. */
  ghost predicate ExternalInv(s: State) {
    && DistinctRecords(s.external)
    && (s.storage.stored.Some? ==> DistinctRecords(s.storage.stored.value))
    && (forall c :: c in s.storage.copies ==> DistinctRecords(s.storage.copies[c]))
  }

  ghost predicate ReadInv(read: Read, writes: nat, nextCopy: nat) {
    if read.Waiting? then read.ahead <= writes && read.fallback < nextCopy else read.copy < nextCopy
  }

  ghost predicate StorageInv(r: Storage) {
    && r.live < r.nextCopy
    && (forall c :: c in r.copies ==> c < r.nextCopy)
    && (forall i :: 0 <= i < |r.writes| ==> r.writes[i] < r.nextCopy)
    && (forall read :: read in r.pending ==> read < r.nextRead && ReadInv(r.pending[read], |r.writes|, r.nextCopy))
  }

  ghost predicate CopiesInv(s: State) {
    ExternalInv(s) && StorageInv(s.storage)
  }

  ghost predicate InternalInv(s: State) {
    && (forall id :: id in s.ops ==> id < s.nextOp)
    && (forall k, id :: id in InternalAt(s, k) ==> id in s.ops && s.ops[id].key == k)
  }

  ghost predicate UpdateInv(ops: map<OpId, Op>, u: Update) {
    && (forall id :: id in u.tasks ==> id in ops && ops[id].key.account == u.account)
    && (forall id :: id in u.updated ==> id in ops && ops[id].key.account == u.account && IsFinalized(ops[id].status))
  }

  /** An account waits for at most one update, which has not failed. */
  ghost predicate UpdatesInv(s: State) {
    && (forall u :: u in s.updates ==> u < s.nextUpdate && UpdateInv(s.ops, s.updates[u]))
    && (forall u :: u in s.updates && !s.updates[u].failed ==>
          s.updates[u].account in s.current && s.current[s.updates[u].account] == u)
  }

  predicate SharesId(s: State, id: OpId, t: TxnId) {
    id in s.ops && HasTxnId(s.ops[id], t)
  }

  /** No external operation among `records`, of its account and chain, has an id of the stored operation. */
  ghost predicate Apart(ops: map<OpId, Op>, internal: map<Key, seq<OpId>>, records: Records, id: OpId) {
    forall k, t :: k in internal && id in internal[k] && k in records && t in records[k] ==>
                   !(id in ops && HasTxnId(ops[id], t))
  }

  ghost predicate Separate(s: State, id: OpId) {
    Apart(s.ops, s.internal, s.external, id)
  }

  ghost predicate Inv(s: State) {
    CopiesInv(s) && InternalInv(s) && UpdatesInv(s)
  }

  // ----- Steps

  lemma UnshiftKeepsInv(s: State, op: Op)
    requires Inv(s)
    ensures Inv(Unshift(s, op))
  {
    var t := Unshift(s, op);
    forall k, id | id in InternalAt(t, k) ensures id in t.ops && t.ops[id].key == k {
      if k == op.key {
        assert id in [s.nextOp] + InternalAt(s, k);
      }
      if id in InternalAt(s, k) {
        assert s.ops[id].key == k;
      }
    }
    forall u | u in t.updates ensures u < t.nextUpdate && UpdateInv(t.ops, t.updates[u]) {
      assert UpdateInv(s.ops, s.updates[u]);
    }
  }

  /** The operations stay as they are, and no list gains one. */
  lemma InternalCarriesOver(s: State, t: State)
    requires InternalInv(s) && t.ops == s.ops && t.nextOp == s.nextOp
    requires forall k, id :: id in InternalAt(t, k) ==> id in InternalAt(s, k)
    ensures InternalInv(t)
  {
    forall k, id | id in InternalAt(t, k) ensures id in t.ops && t.ops[id].key == k {
      assert id in InternalAt(s, k);
    }
  }

  lemma StoreKeepsDistinct(s: State, x: External)
    requires DistinctRecords(s.external) && !HasExisting(s, x.key, x.txnId)
    ensures DistinctRecords(StoreExternal(s, x).external)
  {
    var before, after := ExternalAt(s, x.key), ExternalAt(StoreExternal(s, x), x.key);
    forall i, j | 0 <= i < j < |after| ensures Lower(after[i]) != Lower(after[j]) {
      assert after[j] == before[j - 1];
      if i > 0 {
        assert after[i] == before[i - 1];
      } else {
        assert before[j - 1] in before;
      }
    }
  }

  lemma QueueWriteKeepsStorage(s: State)
    requires StorageInv(s.storage)
    ensures StorageInv(QueueWrite(s).storage)
  {
  }

  lemma StoreKeepsInv(s: State, x: External)
    requires Inv(s)
    ensures Inv(StoreExternal(s, x))
  {
    if !HasExisting(s, x.key, x.txnId) {
      var t := StoreExternal(s, x);
      StoreKeepsDistinct(s, x);
      QueueWriteKeepsStorage(s);
      assert forall k :: InternalAt(t, k) == InternalAt(s, k);
      InternalCarriesOver(s, t);
    }
  }

  lemma BeginKeepsInv(s: State, account: string, chains: set<nat>)
    requires Inv(s)
    ensures Inv(Begin(s, account, chains))
  {
    if account !in s.current {
      var t := Begin(s, account, chains);
      assert forall k, id :: id in InternalAt(t, k) ==> id in InternalAt(s, k);
      forall u | u in t.updates ensures u < t.nextUpdate && UpdateInv(t.ops, t.updates[u]) {
        assert u in s.updates ==> UpdateInv(s.ops, s.updates[u]);
      }
      InternalCarriesOver(s, t);
    }
  }

  /** An operation changes its status or its id. */
  lemma ChangeKeepsInv(s: State, id: OpId, op: Op)
    requires Inv(s) && id in s.ops
    requires op.key == s.ops[id].key && (IsFinalized(s.ops[id].status) ==> IsFinalized(op.status))
    ensures Inv(s.(ops := s.ops[id := op]))
  {
    var t := s.(ops := s.ops[id := op]);
    forall u | u in t.updates ensures u < t.nextUpdate && UpdateInv(t.ops, t.updates[u]) {
      assert UpdateInv(s.ops, s.updates[u]);
    }
    assert forall k :: InternalAt(t, k) == InternalAt(s, k);
  }

  /** One update changes the stage of a task, drops it, notes a finalized operation or fails. */
  lemma UpdateChangeKeepsInv(s: State, u: nat, after: Update, current: map<string, nat>)
    requires Inv(s) && u in s.updates && UpdateInv(s.ops, after) && after.account == s.updates[u].account
    requires if after.failed && !s.updates[u].failed then current == s.current - {after.account}
             else after.failed == s.updates[u].failed && current == s.current
    ensures Inv(s.(updates := s.updates[u := after], current := current))
  {
    var t := s.(updates := s.updates[u := after], current := current);
    assert forall k, id :: id in InternalAt(t, k) ==> id in InternalAt(s, k);
    forall o | o in t.updates && !t.updates[o].failed
      ensures t.updates[o].account in t.current && t.current[t.updates[o].account] == o
    {
      assert o in s.updates && !s.updates[o].failed;
      assert s.current[s.updates[o].account] == o;
    }
    InternalCarriesOver(s, t);
  }

  lemma LearnKeepsInv(s: State, u: nat, id: OpId, txnId: TxnId)
    requires Inv(s) && Enabled(s, LearnTxnId(u, id, txnId))
    ensures Inv(Learn(s, u, id, txnId))
  {
    var mid := s.(ops := s.ops[id := s.ops[id].(txnId := txnId)]);
    ChangeKeepsInv(s, id, s.ops[id].(txnId := txnId));
    var before := mid.updates[u];
    var after := before.(tasks := before.tasks[id := Confirming]);
    assert UpdateInv(mid.ops, before);
    UpdateChangeKeepsInv(mid, u, after, mid.current);
    assert mid.(updates := mid.updates[u := after], current := mid.current) == Learn(s, u, id, txnId);
  }

  lemma FinalizeKeepsInv(s: State, u: nat, id: OpId, status: OpStatus)
    requires Inv(s) && Enabled(s, FinalizeOp(u, id, status))
    ensures Inv(Finalize(s, u, id, status))
  {
    var mid := s.(ops := s.ops[id := s.ops[id].(status := status)]);
    ChangeKeepsInv(s, id, s.ops[id].(status := status));
    var before := mid.updates[u];
    var after := before.(tasks := before.tasks[id := Finalized], updated := before.updated + [id]);
    assert UpdateInv(mid.ops, before);
    UpdateChangeKeepsInv(mid, u, after, mid.current);
    assert mid.(updates := mid.updates[u := after], current := mid.current) == Finalize(s, u, id, status);
  }

  lemma TaskEndKeepsInv(s: State, u: nat, id: OpId)
    requires Inv(s) && u in s.updates
    ensures Inv(EndTask(s, u, id)) && Inv(Throw(s, u, id))
  {
    var before := s.updates[u];
    assert UpdateInv(s.ops, before);
    var after := before.(tasks := before.tasks - {id});
    UpdateChangeKeepsInv(s, u, after, s.current);
    assert s.(updates := s.updates[u := after], current := s.current) == EndTask(s, u, id);
    if !before.failed {
      UpdateChangeKeepsInv(s, u, after.(failed := true), s.current - {before.account});
      assert s.(updates := s.updates[u := after.(failed := true)], current := s.current - {before.account})
             == Throw(s, u, id);
    }
  }

  // ----- The end of an update

  /** What the clean-up removes: exactly the external operations that have an id of a finalized one among `ops`. */
  lemma {:induction false} CleanedAllAt(external: Records, ops: seq<Op>, k: Key)
    ensures var after := CleanedAll(external, ops);
            && (k in after <==> k in external)
            && (k in external ==> forall t :: t in after[k] <==>
                  t in external[k] && forall op :: op in ops && op.key == k && IsFinalized(op.status) ==>
                    !HasTxnId(op, t))
            && (k in external && DistinctIds(external[k]) ==> DistinctIds(after[k]))
  {
    if ops != [] {
      var init, op := ops[..|ops| - 1], ops[|ops| - 1];
      CleanedAllAt(external, init, k);
      assert forall o :: o in ops <==> o in init || o == op;
      var mid := CleanedAll(external, init);
      if k in external && op.key == k && IsFinalized(op.status) && DistinctIds(mid[k]) {
        FilterPairwise(t => !HasTxnId(op, t), mid[k], (x, y) => Lower(x) != Lower(y));
      }
    }
  }

  lemma CleanedStaysDistinct(external: Records, ops: seq<Op>)
    requires DistinctRecords(external)
    ensures DistinctRecords(CleanedAll(external, ops))
  {
    forall k | k in CleanedAll(external, ops) ensures DistinctIds(CleanedAll(external, ops)[k]) {
      CleanedAllAt(external, ops, k);
    }
  }

  /** Only the external operations and what storage has of them change. */
  lemma CopiesCarryOver(s: State, t: State)
    requires Inv(s) && CopiesInv(t) && t.(external := s.external, storage := s.storage) == s
    ensures Inv(t)
  {
    assert forall k :: InternalAt(t, k) == InternalAt(s, k);
    InternalCarriesOver(s, t);
  }

  lemma CleanUpKeepsInv(s: State, ops: seq<Op>)
    requires Inv(s)
    ensures Inv(CleanUp(s, ops))
  {
    CleanedStaysDistinct(s.external, ops);
    QueueWriteKeepsStorage(s);
    CopiesCarryOver(s, CleanUp(s, ops));
  }

  /** After an update, no external operation has an id of an operation it finalized. */
  lemma EndSeparates(s: State, u: nat, id: OpId)
    requires Inv(s) && u in s.updates && id in s.updates[u].updated
    ensures Separate(End(s, u), id)
  {
    assert UpdateInv(s.ops, s.updates[u]);
    var ops := OpsOf(s.ops, s.updates[u].updated);
    assert s.ops[id] in ops;
    var after := CleanedAll(s.external, ops);
    forall k, t | k in s.internal && id in s.internal[k] && k in after && t in after[k]
      ensures !HasTxnId(s.ops[id], t)
    {
      assert id in InternalAt(s, k);
      CleanedAllAt(s.external, ops, k);
    }
    assert End(s, u).external == after;
  }

  lemma EndKeepsInv(s: State, u: nat)
    requires Inv(s) && u in s.updates && !s.updates[u].failed
    ensures Inv(End(s, u))
  {
    var m, t := CleanUp(s, OpsOf(s.ops, s.updates[u].updated)), End(s, u);
    CleanUpKeepsInv(s, OpsOf(s.ops, s.updates[u].updated));
    forall o | o in t.updates ensures o < t.nextUpdate && UpdateInv(t.ops, t.updates[o]) {
      assert UpdateInv(s.ops, s.updates[o]);
    }
    forall o | o in t.updates && !t.updates[o].failed
      ensures t.updates[o].account in t.current && t.current[t.updates[o].account] == o
    {
      assert s.current[s.updates[o].account] == o && s.current[s.updates[u].account] == u;
    }
    assert forall k :: InternalAt(t, k) == InternalAt(m, k);
    InternalCarriesOver(m, t);
  }

  lemma QueueKeepsInv(s: State, t: State)
    requires Inv(s) && t.(queue := s.queue, adding := s.adding) == s
    ensures Inv(t)
  {
    assert forall k, id :: id in InternalAt(t, k) ==> id in InternalAt(s, k);
    InternalCarriesOver(s, t);
  }

  lemma RemoveKeepsInv(s: State, account: string)
    requires Inv(s)
    ensures Inv(RemoveData(s, account))
  {
    assert forall k, id :: id in InternalAt(RemoveData(s, account), k) ==> id in InternalAt(s, k);
    InternalCarriesOver(s, RemoveData(s, account));
  }

  lemma FinishKeepsInv(s: State, abandoned: bool)
    requires Inv(s)
    ensures Inv(FinishAdding(s, abandoned))
  {
    if s.adding.Some? {
      StoreKeepsInv(s, s.adding.value);
      var mid := if abandoned then s else StoreExternal(s, s.adding.value);
      QueueKeepsInv(mid, mid.(adding := None));
    }
  }

  // ----- Reading back

  lemma StartReadKeeps(s: State)
    requires CopiesInv(s)
    ensures CopiesInv(StartRead(s))
  {
  }

  lemma PendingChangeKeeps(r: Storage, read: nat, after: Read)
    requires StorageInv(r) && read in r.pending && ReadInv(after, |r.writes|, r.nextCopy)
    ensures StorageInv(r.(pending := r.pending[read := after]))
  {
  }

  lemma NewCopyKeeps(r: Storage, records: Records)
    requires StorageInv(r)
    ensures StorageInv(r.(copies := r.copies[r.nextCopy := records], nextCopy := r.nextCopy + 1))
  {
  }

  lemma ArriveKeeps(s: State, read: nat)
    requires CopiesInv(s) && Enabled(s, ReadArrives(read))
    ensures CopiesInv(Arrive(s, read))
  {
    var r, t := s.storage, Arrive(s, read);
    assert ReadInv(r.pending[read], |r.writes|, r.nextCopy);
    if r.stored.None? {
      PendingChangeKeeps(r, read, Arrived(r.pending[read].fallback));
    } else {
      var q := r.(copies := r.copies[r.nextCopy := r.stored.value], nextCopy := r.nextCopy + 1);
      NewCopyKeeps(r, r.stored.value);
      PendingChangeKeeps(q, read, Arrived(r.nextCopy));
      assert t.storage == q.(pending := q.pending[read := Arrived(r.nextCopy)]);
    }
  }

  lemma ReloadKeeps(s: State, read: nat)
    requires CopiesInv(s) && Enabled(s, EndRead(read))
    ensures CopiesInv(Reload(s, read))
  {
  }

  lemma EndWriteKeeps(s: State, succeeds: bool)
    requires CopiesInv(s) && s.storage.writes != []
    ensures CopiesInv(EndWrite(s, succeeds))
  {
    assert DistinctRecords(Copy(s, s.storage.writes[0]));
  }

  lemma StorageStepKeepsInv(s: State, e: Event)
    requires Inv(s) && Enabled(s, e) && (e.BeginRead? || e.ReadArrives? || e.EndRead? || e.WriteEnds?)
    ensures Inv(Step(s, e))
  {
    match e
    case BeginRead =>
      StartReadKeeps(s);
      CopiesCarryOver(s, StartRead(s));
    case ReadArrives(r) =>
      ArriveKeeps(s, r);
      CopiesCarryOver(s, Arrive(s, r));
    case EndRead(r) =>
      ReloadKeeps(s, r);
      CopiesCarryOver(s, Reload(s, r));
    case WriteEnds(succeeds) =>
      EndWriteKeeps(s, succeeds);
      CopiesCarryOver(s, EndWrite(s, succeeds));
  }

  lemma StepKeepsInv(s: State, e: Event)
    requires Inv(s)
    ensures Inv(Step(s, e))
  {
    if Enabled(s, e) {
      match e
      case AddAccountOp(op) => UnshiftKeepsInv(s, op);
      case RequestExternal(x) => QueueKeepsInv(s, s.(queue := s.queue + [x]));
      case NextExternal => QueueKeepsInv(s, TakeNext(s));
      case FinishExternal(abandoned) => FinishKeepsInv(s, abandoned);
      case BeginUpdate(account, chains) => BeginKeepsInv(s, account, chains);
      case LearnTxnId(u, id, txnId) => LearnKeepsInv(s, u, id, txnId);
      case FinalizeOp(u, id, status) => FinalizeKeepsInv(s, u, id, status);
      case TaskEnds(u, id) => TaskEndKeepsInv(s, u, id);
      case TaskThrows(u, id) => TaskEndKeepsInv(s, u, id);
      case EndUpdate(u) => EndKeepsInv(s, u);
      case RemoveAccountData(account) => RemoveKeepsInv(s, account);
      case _ => StorageStepKeepsInv(s, e);
    }
  }

  lemma {:induction false} RunKeepsInv(s: State, events: seq<Event>)
    requires Inv(s)
    ensures Inv(Run(s, events))
    decreases |events|
  {
    if events == [] {
    } else {
      StepKeepsInv(s, events[0]);
      RunKeepsInv(Step(s, events[0]), events[1..]);
    }
  }
}
