/**
 The recipients an account has sent to (src/controllers/activity/activity.ts): an index by recipient
 answers what a scan of every stored operation would, and remembers what trimming has dropped.

 Addresses are canonical, so the checksum the index uses and the lower case the scan uses tell the
 same addresses apart. A time of 0 stands for a missing one; the source treats the two alike.
 */
module SentToHistory {
  import opened Wrappers
  import opened Sequences

  type Account = string
  type Address = string

  datatype Op = Op(recipients: seq<Address>, timestamp: nat)

  datatype Added = Added(account: Account, chain: nat, op: Op)

  datatype State = State(ops: map<Account, map<nat, seq<Op>>>, recipients: map<Account, map<Address, nat>>)

  datatype Answer = Answer(found: bool, last: nat)

  function ListAt(s: State, a: Account, c: nat): seq<Op> {
    if a in s.ops && c in s.ops[a] then s.ops[a][c] else []
  }

  function IndexAt(recipients: map<Account, map<Address, nat>>, a: Account, to: Address): nat {
    if a in recipients && to in recipients[a] then recipients[a][to] else 0
  }

  function Max(x: nat, y: nat): nat {
    if x < y then y else x
  }

  function Record(recipients: map<Account, map<Address, nat>>, a: Account, to: Address, timestamp: nat)
    : map<Account, map<Address, nat>>
  {
    recipients[a :=
      (if a in recipients then recipients[a] else map[])[to := Max(IndexAt(recipients, a, to), timestamp)]]
  }

  function RecordAll(recipients: map<Account, map<Address, nat>>, a: Account, tos: seq<Address>, timestamp: nat)
    : map<Account, map<Address, nat>>
  {
    if tos == [] then recipients
    else Record(RecordAll(recipients, a, tos[..|tos| - 1], timestamp), a, tos[|tos| - 1], timestamp)
  }

  function Unshift(ops: map<Account, map<nat, seq<Op>>>, a: Account, c: nat, op: Op): map<Account, map<nat, seq<Op>>> {
    var byChain := if a in ops then ops[a] else map[];
    ops[a := byChain[c := Trim([op] + if c in byChain then byChain[c] else [])]]
  }

  function Add(s: State, x: Added): State {
    State(Unshift(s.ops, x.account, x.chain, x.op), RecordAll(s.recipients, x.account, x.op.recipients, x.op.timestamp))
  }

  /** The state after operations were added in the order of `history`, from an empty one. */
  function AddAll(history: seq<Added>): State {
    if history == [] then State(map[], map[]) else Add(AddAll(history[..|history| - 1]), history[|history| - 1])
  }

  /** When the stored operations of the accounts sent to the address. */
  ghost function StoredTimes(ops: map<Account, map<nat, seq<Op>>>, accounts: set<Account>, to: Address): set<nat> {
    set a, c, op | a in accounts && a in ops && c in ops[a] && op in ops[a][c] && to in op.recipients :: op.timestamp
  }

  /** What a scan that met these times answers: whether there are any, and the latest. */
  ghost predicate Summarizes(r: Answer, times: set<nat>) {
    && (r.found <==> times != {})
    && (if r.found then r.last in times else r.last == 0)
    && forall t :: t in times ==> t <= r.last
  }

  function ScannedAccounts(s: State, account: Account): set<Account> {
    if account != "" then {account} else s.ops.Keys
  }

  /** What `hasAccountOpsSentTo` answers. `to` is None where the text is no address. */
  ghost predicate IsAnswer(s: State, to: Option<Address>, account: Account, r: Answer) {
    match to
    case None => r == Answer(false, 0)
    case Some(a) =>
      if IndexAt(s.recipients, account, a) != 0 then r == Answer(true, IndexAt(s.recipients, account, a))
      else Summarizes(r, StoredTimes(s.ops, ScannedAccounts(s, account), a))
  }

  // ----- The class of the source

  class ActivityController {
    var accountsOps: map<Account, map<nat, seq<Op>>>
    var recipients: map<Account, map<Address, nat>>

    ghost function View(): State
      reads this
    {
      State(accountsOps, recipients)
    }

    constructor ()
      ensures View() == AddAll([])
    {
      accountsOps, recipients := map[], map[];
    }

    method AddAccountOp(account: Account, chain: nat, op: Op)
      modifies this
      ensures View() == Add(old(View()), Added(account, chain, op))
    {
      UnshiftOp(account, chain, op);
      for i := 0 to |op.recipients|
        invariant recipients == RecordAll(old(recipients), account, op.recipients[..i], op.timestamp)
        invariant accountsOps == Unshift(old(accountsOps), account, chain, op)
      {
        assert op.recipients[..i + 1][..i] == op.recipients[..i];
        RecordRecipient(account, op.recipients[i], op.timestamp);
      }
      assert op.recipients[..|op.recipients|] == op.recipients;
    }

    method UnshiftOp(account: Account, chain: nat, op: Op)
      modifies this`accountsOps
      ensures accountsOps == Unshift(old(accountsOps), account, chain, op)
    {
      var byChain: map<nat, seq<Op>> := if account in accountsOps then accountsOps[account] else map[];
      var items := [op] + if chain in byChain then byChain[chain] else [];
      if |items| > MAX_ITEMS {
        items := items[..|items| - 1];
      }
      accountsOps := accountsOps[account := byChain[chain := items]];
    }

    method RecordRecipient(account: Account, to: Address, timestamp: nat)
      modifies this`recipients
      ensures recipients == Record(old(recipients), account, to, timestamp)
    {
      if account !in recipients {
        recipients := recipients[account := map[]];
      }
      var byAddress: map<Address, nat> := recipients[account];
      var existing := if to in byAddress then byAddress[to] else 0;
      byAddress := byAddress[to := Max(existing, timestamp)];
      recipients := recipients[account := byAddress];
      assert recipients == Record(old(recipients), account, to, timestamp);
    }

    method HasAccountOpsSentTo(to: Option<Address>, account: Account) returns (r: Answer)
      ensures IsAnswer(View(), to, account, r)
    {
      if to.None? { return Answer(false, 0); }
      var known := account in recipients && to.value in recipients[account];
      var lastSentAt := if known then recipients[account][to.value] else 0;
      if lastSentAt != 0 { return Answer(true, lastSentAt); }
      r := ScanAccounts(accountsOps, if account != "" then {account} else accountsOps.Keys, to.value);
    }

    static method ScanAccounts(ops: map<Account, map<nat, seq<Op>>>, accounts: set<Account>, to: Address)
      returns (r: Answer)
      ensures Summarizes(r, StoredTimes(ops, accounts, to))
    {
      r := Answer(false, 0);
      var left := accounts;
      ghost var scanned, times := {}, {};
      NoAccount(ops, to);
      while left != {}
        invariant scanned + left == accounts
        invariant times == StoredTimes(ops, scanned, to)
        invariant Summarizes(r, times)
        decreases |left|
      {
        var a :| a in left;
        left := left - {a};
        OneMoreAccount(ops, scanned, a, to);
        if a in ops {
          r := ScanNetworks(ops[a], to, r, times);
          times := times + ChainTimes(ops[a], ops[a].Keys, to);
        }
        scanned := scanned + {a};
      }
      assert scanned == accounts;
    }

    static method ScanNetworks(byChain: map<nat, seq<Op>>, to: Address, r0: Answer, ghost seen: set<nat>)
      returns (r: Answer)
      requires Summarizes(r0, seen)
      ensures Summarizes(r, seen + ChainTimes(byChain, byChain.Keys, to))
    {
      r := r0;
      var networks := byChain.Keys;
      ghost var scanned, times := {}, seen;
      NoChain(byChain, to);
      while networks != {}
        invariant scanned + networks == byChain.Keys
        invariant times == seen + ChainTimes(byChain, scanned, to)
        invariant Summarizes(r, times)
        decreases |networks|
      {
        var c :| c in networks;
        networks := networks - {c};
        r := ScanOps(byChain[c], to, r, times);
        OneMoreChain(byChain, scanned, c, seen, to);
        times := times + OpTimes(byChain[c], to);
        scanned := scanned + {c};
      }
      assert scanned == byChain.Keys;
    }

    static method ScanOps(ops: seq<Op>, to: Address, r0: Answer, ghost seen: set<nat>) returns (r: Answer)
      requires Summarizes(r0, seen)
      ensures Summarizes(r, seen + OpTimes(ops, to))
    {
      var found, lastTimestamp := r0.found, r0.last;
      ghost var times := seen;
      assert OpTimes(ops[..0], to) == {};
      for i := 0 to |ops|
        invariant times == seen + OpTimes(ops[..i], to)
        invariant Summarizes(Answer(found, lastTimestamp), times)
      {
        OneMoreOp(ops, i, seen, to);
        if to in ops[i].recipients {
          times := times + {ops[i].timestamp};
          found := true;
          if lastTimestamp == 0 || ops[i].timestamp > lastTimestamp {
            lastTimestamp := ops[i].timestamp;
          }
        }
      }
      assert ops[..|ops|] == ops;
      r := Answer(found, lastTimestamp);
    }
  }

  ghost function OpTimes(ops: seq<Op>, to: Address): set<nat> {
    set op | op in ops && to in op.recipients :: op.timestamp
  }

  ghost function ChainTimes(byChain: map<nat, seq<Op>>, chains: set<nat>, to: Address): set<nat> {
    set c, op | c in chains && c in byChain && op in byChain[c] && to in op.recipients :: op.timestamp
  }

  lemma OneMoreOp(ops: seq<Op>, i: nat, seen: set<nat>, to: Address)
    requires i < |ops|
    ensures seen + OpTimes(ops[..i + 1], to)
            == seen + OpTimes(ops[..i], to) + if to in ops[i].recipients then {ops[i].timestamp} else {}
  {
    assert ops[..i + 1] == ops[..i] + [ops[i]];
    assert OpTimes(ops[..i + 1], to)
           == OpTimes(ops[..i], to) + if to in ops[i].recipients then {ops[i].timestamp} else {};
  }

  lemma NoChain(byChain: map<nat, seq<Op>>, to: Address)
    ensures ChainTimes(byChain, {}, to) == {}
  {
  }

  lemma OneMoreChain(byChain: map<nat, seq<Op>>, chains: set<nat>, c: nat, seen: set<nat>, to: Address)
    requires c in byChain
    ensures seen + ChainTimes(byChain, chains + {c}, to)
            == seen + ChainTimes(byChain, chains, to) + OpTimes(byChain[c], to)
  {
    assert ChainTimes(byChain, chains + {c}, to) == ChainTimes(byChain, chains, to) + OpTimes(byChain[c], to);
  }

  lemma NoAccount(ops: map<Account, map<nat, seq<Op>>>, to: Address)
    ensures StoredTimes(ops, {}, to) == {}
  {
  }

  lemma OneMoreAccount(ops: map<Account, map<nat, seq<Op>>>, accounts: set<Account>, a: Account, to: Address)
    ensures StoredTimes(ops, accounts + {a}, to) ==
            StoredTimes(ops, accounts, to) + if a in ops then ChainTimes(ops[a], ops[a].Keys, to) else {}
  {
  }

  // ----- The history

  /** When the operations of the account that were ever added sent to the address. */
  ghost function HistoryTimes(history: seq<Added>, a: Account, to: Address): set<nat> {
    set x | x in history && x.account == a && to in x.op.recipients :: x.op.timestamp
  }

  /** The operations of an account and chain that were ever added, newest first. */
  function Newest(history: seq<Added>, a: Account, c: nat): seq<Op> {
    if history == [] then []
    else
      var rest, x := Newest(history[..|history| - 1], a, c), history[|history| - 1];
      if x.account == a && x.chain == c then [x.op] + rest else rest
  }

  function Take<T>(s: seq<T>, n: nat): seq<T> {
    if |s| <= n then s else s[..n]
  }

  /** Every list holds the newest 1000 of its history. */
  lemma {:induction false} ListsHoldTheNewest(history: seq<Added>, a: Account, c: nat)
    ensures ListAt(AddAll(history), a, c) == Take(Newest(history, a, c), MAX_ITEMS)
  {
    if history != [] {
      var init, x := history[..|history| - 1], history[|history| - 1];
      ListsHoldTheNewest(init, a, c);
      var before := Newest(init, a, c);
      if x.account == a && x.chain == c {
        assert ListAt(AddAll(history), a, c) == Trim([x.op] + ListAt(AddAll(init), a, c));
        if |before| >= MAX_ITEMS {
          assert ([x.op] + before)[..MAX_ITEMS] == [x.op] + before[..MAX_ITEMS - 1];
        }
      } else {
        assert ListAt(AddAll(history), a, c) == ListAt(AddAll(init), a, c);
      }
    }
  }

  lemma {:induction false} NewestAreThoseAdded(history: seq<Added>, a: Account, c: nat, op: Op)
    ensures op in Newest(history, a, c) <==> Added(a, c, op) in history
  {
    if history != [] {
      var init, x := history[..|history| - 1], history[|history| - 1];
      NewestAreThoseAdded(init, a, c, op);
      assert history == init + [x];
    }
  }

  lemma {:induction false} RecordAllAt(recipients: map<Account, map<Address, nat>>, a: Account, tos: seq<Address>,
                                       timestamp: nat, b: Account, to: Address)
    ensures IndexAt(RecordAll(recipients, a, tos, timestamp), b, to) ==
            if b == a && to in tos then Max(IndexAt(recipients, b, to), timestamp) else IndexAt(recipients, b, to)
  {
    if tos != [] {
      RecordAllAt(recipients, a, tos[..|tos| - 1], timestamp, b, to);
      assert tos == tos[..|tos| - 1] + [tos[|tos| - 1]];
    }
  }

  lemma HistoryGrows(init: seq<Added>, x: Added, a: Account, to: Address)
    ensures HistoryTimes(init + [x], a, to) ==
            HistoryTimes(init, a, to) + if x.account == a && to in x.op.recipients then {x.op.timestamp} else {}
  {
    assert forall y :: y in init + [x] <==> y in init || y == x;
  }

  /** The index entry of a recipient is the time of the latest operation ever added that sent to it. */
  lemma {:induction false} IndexIsTheLatest(history: seq<Added>, a: Account, to: Address)
    ensures Summarizes(Answer(HistoryTimes(history, a, to) != {}, IndexAt(AddAll(history).recipients, a, to)),
            HistoryTimes(history, a, to))
  {
    if history != [] {
      var init, x := history[..|history| - 1], history[|history| - 1];
      IndexIsTheLatest(init, a, to);
      RecordAllAt(AddAll(init).recipients, x.account, x.op.recipients, x.op.timestamp, a, to);
      HistoryGrows(init, x, a, to);
      assert history == init + [x];
    }
  }

  lemma StoredWereAdded(history: seq<Added>, a: Account, to: Address)
    ensures StoredTimes(AddAll(history).ops, {a}, to) <= HistoryTimes(history, a, to)
    ensures (forall c :: |Newest(history, a, c)| <= MAX_ITEMS) ==>
            StoredTimes(AddAll(history).ops, {a}, to) == HistoryTimes(history, a, to)
  {
    var s := AddAll(history);
    forall t | t in StoredTimes(s.ops, {a}, to) ensures t in HistoryTimes(history, a, to) {
      var c, op :| a in s.ops && c in s.ops[a] && op in s.ops[a][c] && to in op.recipients && op.timestamp == t;
      ListsHoldTheNewest(history, a, c);
      assert op in Newest(history, a, c);
      NewestAreThoseAdded(history, a, c, op);
      assert Added(a, c, op) in history;
    }
    if forall c :: |Newest(history, a, c)| <= MAX_ITEMS {
      forall t | t in HistoryTimes(history, a, to) ensures t in StoredTimes(s.ops, {a}, to) {
        var x :| x in history && x.account == a && to in x.op.recipients && x.op.timestamp == t;
        NewestAreThoseAdded(history, a, x.chain, x.op);
        assert x == Added(a, x.chain, x.op);
        ListsHoldTheNewest(history, a, x.chain);
        assert x.op in s.ops[a][x.chain];
      }
    }
  }

  /**
   The date of an answer is that of a scan over everything ever added, for every history. Whether the
   recipient is found at all agrees with that scan too, except where every operation that sent to it
   carries the time 0: then it is found exactly while one of them is still stored.
   */
  lemma AnswersScanTheHistory(history: seq<Added>, a: Account, to: Address, r: Answer)
    requires a != "" && IsAnswer(AddAll(history), Some(to), a, r)
    ensures forall t :: t in HistoryTimes(history, a, to) ==> t <= r.last
    ensures r.last == 0 || r.last in HistoryTimes(history, a, to)
    ensures r.found <==> (r.last != 0 || StoredTimes(AddAll(history).ops, {a}, to) != {})
  {
    IndexIsTheLatest(history, a, to);
    StoredWereAdded(history, a, to);
  }

  /** So with real times the fast answer is exactly that of the scan over the whole history. */
  lemma FastAnswerIsFullScan(history: seq<Added>, a: Account, to: Address, r: Answer)
    requires a != "" && forall x :: x in history ==> 0 < x.op.timestamp
    ensures IsAnswer(AddAll(history), Some(to), a, r) <==> Summarizes(r, HistoryTimes(history, a, to))
  {
    IndexIsTheLatest(history, a, to);
    StoredWereAdded(history, a, to);
    var s := AddAll(history);
    if IndexAt(s.recipients, a, to) != 0 {
      assert IndexAt(s.recipients, a, to) in HistoryTimes(history, a, to);
    } else {
      assert HistoryTimes(history, a, to) == {};
    }
  }

  /** While no list of the account was trimmed, the index answers what the scan of the stored operations does. */
  lemma FastAnswerIsStoredScan(history: seq<Added>, a: Account, to: Address, r: Answer)
    requires a != "" && forall c :: |Newest(history, a, c)| <= MAX_ITEMS
    ensures IsAnswer(AddAll(history), Some(to), a, r) <==> Summarizes(r, StoredTimes(AddAll(history).ops, {a}, to))
  {
    IndexIsTheLatest(history, a, to);
    StoredWereAdded(history, a, to);
    var s := AddAll(history);
    if IndexAt(s.recipients, a, to) != 0 {
      assert IndexAt(s.recipients, a, to) in HistoryTimes(history, a, to);
    }
  }

  /** A recipient that was found stays found, however many operations follow, and its date never goes back. */
  lemma {:induction false} NeverForgets(history: seq<Added>, more: seq<Added>, a: Account, to: Address, r: Answer,
                                        later: Answer)
    requires a != "" && IsAnswer(AddAll(history), Some(to), a, r)
             && IsAnswer(AddAll(history + more), Some(to), a, later)
    requires r.last != 0
    ensures later.found && r.last <= later.last
  {
    AnswersScanTheHistory(history, a, to, r);
    AnswersScanTheHistory(history + more, a, to, later);
    var x :| x in history && x.account == a && to in x.op.recipients && x.op.timestamp == r.last;
    assert x in history + more;
    assert r.last in HistoryTimes(history + more, a, to);
  }
}
