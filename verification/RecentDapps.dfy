/**
 The apps opened lately (src/controllers/dapps/dapps.ts): a list of at most 20, the last opened first.

 `history` remembers the apps of the catalog that were opened since the list was last cleared.
 */
module RecentDapps {
  import opened Sequences

  const MAX_RECENT_DAPPS := 20

  datatype Recent = Recent(id: string, openedAt: int)

  datatype State<Dapp> = State(dapps: map<string, Dapp>, recents: seq<Recent>, history: seq<string>)

  datatype Event<Dapp> =
    | Open(id: string, now: int)
    | Clear
    | CatalogChanges(dapps: map<string, Dapp>)

  function Take<T>(s: seq<T>): seq<T> {
    if |s| <= MAX_RECENT_DAPPS then s else s[..MAX_RECENT_DAPPS]
  }

  function AddRecent<Dapp>(s: State<Dapp>, id: string, now: int): State<Dapp> {
    if id !in s.dapps then s
    else s.(recents := Take([Recent(id, now)] + Filter((e: Recent) => e.id != id, s.recents)),
            history := s.history + [id])
  }

  function Step<Dapp>(s: State<Dapp>, e: Event<Dapp>): State<Dapp> {
    match e
    case Open(id, now) => AddRecent(s, id, now)
    case Clear => s.(recents := [], history := [])
    case CatalogChanges(dapps) => s.(dapps := dapps)
  }

  function Run<Dapp>(s: State<Dapp>, events: seq<Event<Dapp>>): State<Dapp>
    decreases |events|
  {
    if events == [] then s else Run(Step(s, events[0]), events[1..])
  }

  /** The getter: newest first, without those that have left the catalog. */
  function RecentDapps<Dapp>(s: State<Dapp>): seq<Dapp> {
    Found(s.dapps, SortDescending((e: Recent) => e.openedAt, s.recents))
  }

  function Found<Dapp>(dapps: map<string, Dapp>, recents: seq<Recent>): seq<Dapp> {
    if recents == [] then []
    else if recents[0].id in dapps then [dapps[recents[0].id]] + Found(dapps, recents[1..])
    else Found(dapps, recents[1..])
  }

  // ----- The class of the source

  class DappsController<Dapp(0)> {
    var dapps: map<string, Dapp>
    var recentDapps: seq<Recent>
    ghost var history: seq<string>

    ghost function View(): State<Dapp>
      reads this
    {
      State(dapps, recentDapps, history)
    }

    constructor (dapps: map<string, Dapp>)
      ensures View() == State(dapps, [], [])
    {
      this.dapps, recentDapps, history := dapps, [], [];
    }

    method AddToRecentDapps(id: string, now: int)
      modifies this
      ensures View() == AddRecent(old(View()), id, now)
    {
      if id !in dapps { return; }
      var entries := [Recent(id, now)] + Filter((e: Recent) => e.id != id, recentDapps);
      recentDapps := if |entries| > MAX_RECENT_DAPPS then entries[..MAX_RECENT_DAPPS] else entries;
      history := history + [id];
    }

    method ClearRecentDapps()
      modifies this
      ensures View() == Step(old(View()), Clear)
    {
      history := [];
      if |recentDapps| == 0 { return; }
      recentDapps := [];
    }
  }

  // ----- The specification

  function Reversed<T>(s: seq<T>): seq<T> {
    if s == [] then [] else [s[|s| - 1]] + Reversed(s[..|s| - 1])
  }

  /** The first 20 different apps of the history read backwards. */
  function LastOpened(history: seq<string>): seq<string> {
    Take(Dedup(Reversed(history)))
  }

  function Ids(recents: seq<Recent>): seq<string> {
    Map((e: Recent) => e.id, recents)
  }

  function Without<T(==,!new)>(x: T, s: seq<T>): seq<T> {
    Filter(y => y != x, s)
  }

  lemma {:induction false} WithoutAppend<T(!new)>(x: T, s: seq<T>, y: T)
    ensures Without(x, s + [y]) == Without(x, s) + if y != x then [y] else []
  {
    FilterAppend(z => z != x, s, y);
  }

  lemma {:induction false} DedupAppend<T(!new)>(s: seq<T>, x: T)
    ensures Dedup(s + [x]) == Dedup(s) + if x in s then [] else [x]
  {
    assert (s + [x])[..|s|] == s;
  }

  lemma {:induction false} DedupOfOneMore<T(!new)>(x: T, s: seq<T>, last: T)
    requires Dedup([x] + s) == [x] + Without(x, Dedup(s))
    ensures Dedup(([x] + s) + [last]) == [x] + Without(x, Dedup(s + [last]))
  {
    var d := Dedup(s);
    DedupAppend(s, last);
    DedupAppend([x] + s, last);
    if last in s {
      assert last in [x] + s && d + [] == d;
    } else {
      WithoutAppend(x, d, last);
      if last == x {
        assert last in [x] + s;
      } else {
        assert ([x] + Without(x, d)) + [last] == [x] + (Without(x, d) + [last]);
      }
    }
  }

  /** What a new first element does to the list without duplicates. */
  lemma {:induction false} DedupOfMore<T(!new)>(x: T, s: seq<T>)
    ensures Dedup([x] + s) == [x] + Without(x, Dedup(s))
  {
    if s == [] {
      DedupAppend([], x);
      assert [] + [x] == [x] + s;
    } else {
      var init, last := s[..|s| - 1], s[|s| - 1];
      DedupOfMore(x, init);
      DedupOfOneMore(x, init, last);
      assert s == init + [last];
      assert [x] + s == ([x] + init) + [last];
    }
  }

  lemma {:induction false} WithoutOfPrefix<T(!new)>(x: T, s: seq<T>, n: nat)
    requires n <= |s|
    ensures Without(x, s[..n]) <= Without(x, s)
  {
    if n < |s| {
      var init := s[..|s| - 1];
      WithoutOfPrefix(x, init, n);
      assert init[..n] == s[..n];
      assert s == init + [s[|s| - 1]];
      WithoutAppend(x, init, s[|s| - 1]);
    } else {
      assert s[..n] == s;
    }
  }

  lemma {:induction false} WithoutIsShorterByOne<T(!new)>(x: T, s: seq<T>)
    requires NoDuplicates(s)
    ensures |Without(x, s)| >= |s| - 1
  {
    FilterRemovesAtMostOne(y => y != x, s);
  }

  /** Dropping what is beyond 20 before or after moving an element to the front comes to the same. */
  lemma {:induction false} TakeThenMove(x: string, s: seq<string>)
    requires NoDuplicates(s)
    ensures Take([x] + Without(x, Take(s))) == Take([x] + Without(x, s))
  {
    if |s| > MAX_RECENT_DAPPS {
      WithoutOfPrefix(x, s, MAX_RECENT_DAPPS);
      WithoutIsShorterByOne(x, s[..MAX_RECENT_DAPPS]);
      TakeOfLonger(x, Without(x, s[..MAX_RECENT_DAPPS]), Without(x, s));
    }
  }

  lemma {:induction false} TakeOfLonger(x: string, short: seq<string>, long: seq<string>)
    requires short <= long && |short| >= MAX_RECENT_DAPPS - 1
    ensures Take([x] + short) == Take([x] + long)
  {
    assert ([x] + short)[..MAX_RECENT_DAPPS] == ([x] + long)[..MAX_RECENT_DAPPS];
  }

  lemma {:induction false} IdsOfWithout(id: string, recents: seq<Recent>)
    ensures Ids(Filter((e: Recent) => e.id != id, recents)) == Without(id, Ids(recents))
  {
    if recents != [] {
      var init, last := recents[..|recents| - 1], recents[|recents| - 1];
      IdsOfWithout(id, init);
      assert Ids(recents) == Ids(init) + [last.id];
      WithoutAppend(id, Ids(init), last.id);
    }
  }

  lemma IdsOfTaken(r: Recent, recents: seq<Recent>)
    ensures Ids(Take([r] + recents)) == Take([r.id] + Ids(recents))
  {
    var all := [r] + recents;
    assert Ids(all) == [r.id] + Ids(recents);
    assert |all| > MAX_RECENT_DAPPS ==> Ids(all[..MAX_RECENT_DAPPS]) == Ids(all)[..MAX_RECENT_DAPPS];
  }

  lemma {:induction false} HistoryReversed<T>(history: seq<T>, x: T)
    ensures Reversed(history + [x]) == [x] + Reversed(history)
  {
    assert (history + [x])[..|history|] == history;
  }

  lemma {:induction false} OpeningMovesToFront<Dapp>(s: State<Dapp>, id: string, now: int)
    requires Ids(s.recents) == LastOpened(s.history)
    ensures Ids(AddRecent(s, id, now).recents) == LastOpened(AddRecent(s, id, now).history)
  {
    if id in s.dapps {
      var rest := Filter((e: Recent) => e.id != id, s.recents);
      IdsOfWithout(id, s.recents);
      IdsOfTaken(Recent(id, now), rest);
      DedupDistinct(Reversed(s.history));
      TakeThenMove(id, Dedup(Reversed(s.history)));
      HistoryReversed(s.history, id);
      DedupOfMore(id, Reversed(s.history));
    }
  }

  /** In every run the list holds the first 20 of the distinct apps opened since the last clearing, the latest first. */
  lemma {:induction false} ListIsLastOpened<Dapp>(s: State<Dapp>, events: seq<Event<Dapp>>)
    requires Ids(s.recents) == LastOpened(s.history)
    ensures Ids(Run(s, events).recents) == LastOpened(Run(s, events).history)
    decreases |events|
  {
    if events == [] {
    } else {
      if events[0].Open? {
        OpeningMovesToFront(s, events[0].id, events[0].now);
      }
      ListIsLastOpened(Step(s, events[0]), events[1..]);
    }
  }

  // ----- The getter

  /** The clock of a run, which starts at `from`, is never set back. */
  predicate ClockRuns<Dapp>(events: seq<Event<Dapp>>, from: int) {
    if events == [] then true
    else if events[0].Open? then from <= events[0].now && ClockRuns(events[1..], events[0].now)
    else ClockRuns(events[1..], from)
  }

  lemma {:induction false} OpeningKeepsOrder<Dapp>(s: State<Dapp>, id: string, now: int)
    requires Descending((e: Recent) => e.openedAt, s.recents)
    requires forall e :: e in s.recents ==> e.openedAt <= now
    ensures Descending((e: Recent) => e.openedAt, AddRecent(s, id, now).recents)
    ensures forall e :: e in AddRecent(s, id, now).recents ==> e.openedAt <= now
  {
    if id in s.dapps {
      FilterPairwise((e: Recent) => e.id != id, s.recents, (x: Recent, y: Recent) => y.openedAt <= x.openedAt);
      var rest := Filter((e: Recent) => e.id != id, s.recents);
      forall i | 0 <= i < |rest| ensures rest[i].openedAt <= now {
        assert rest[i] in rest;
      }
    }
  }

  lemma {:induction false} ListIsInOrder<Dapp>(s: State<Dapp>, events: seq<Event<Dapp>>, from: int)
    requires Descending((e: Recent) => e.openedAt, s.recents) && ClockRuns(events, from)
    requires forall e :: e in s.recents ==> e.openedAt <= from
    ensures Descending((e: Recent) => e.openedAt, Run(s, events).recents)
    decreases |events|
  {
    if events == [] {
    } else {
      var now := if events[0].Open? then events[0].now else from;
      if events[0].Open? {
        OpeningKeepsOrder(s, events[0].id, now);
      }
      ListIsInOrder(Step(s, events[0]), events[1..], now);
    }
  }

  function FoundIds<Dapp>(dapps: map<string, Dapp>, ids: seq<string>): seq<Dapp> {
    if ids == [] then []
    else if ids[0] in dapps then [dapps[ids[0]]] + FoundIds(dapps, ids[1..])
    else FoundIds(dapps, ids[1..])
  }

  lemma {:induction false} FoundByIds<Dapp>(dapps: map<string, Dapp>, recents: seq<Recent>)
    ensures Found(dapps, recents) == FoundIds(dapps, Ids(recents))
  {
    if recents != [] {
      FoundByIds(dapps, recents[1..]);
      assert Ids(recents)[1..] == Ids(recents[1..]);
    }
  }

  /**
   While the clock is not set back, the getter's sort changes nothing: it shows the apps opened last
   that the catalog still has, the latest first.
   */
  lemma {:induction false} GetterShowsLastOpened<Dapp>(dapps: map<string, Dapp>, events: seq<Event<Dapp>>, from: int)
    requires ClockRuns(events, from)
    ensures var s := Run(State(dapps, [], []), events);
            RecentDapps(s) == FoundIds(s.dapps, LastOpened(s.history))
  {
    var init := State(dapps, [], []);
    var s := Run(init, events);
    ListIsLastOpened(init, events);
    ListIsInOrder(init, events, from);
    SortIsIdentityIff((e: Recent) => e.openedAt, s.recents);
    FoundByIds(s.dapps, s.recents);
  }

  lemma OpenedFirst<Dapp>(dapps: map<string, Dapp>, a: string, t: int)
    requires a in dapps
    ensures AddRecent(State(dapps, [], []), a, t) == State(dapps, [Recent(a, t)], [a])
  {
  }

  lemma {:induction false} OpenedNext<Dapp>(dapps: map<string, Dapp>, a: string, t: int, b: string, u: int)
    requires b in dapps && a != b
    ensures AddRecent(State(dapps, [Recent(a, t)], [a]), b, u) == State(dapps, [Recent(b, u), Recent(a, t)], [a, b])
  {
    FilterAppend((e: Recent) => e.id != b, [], Recent(a, t));
    assert [] + [Recent(a, t)] == [Recent(a, t)];
  }

  /** A clock that was set back makes the getter show the app opened earlier first. */
  lemma {:induction false} ClockSetBackReorders<Dapp>(dapps: map<string, Dapp>, a: string, t: int, b: string, u: int)
    requires a in dapps && b in dapps && a != b && u < t
    ensures var s := AddRecent(AddRecent(State(dapps, [], []), a, t), b, u);
            RecentDapps(s) == [dapps[a], dapps[b]] && FoundIds(dapps, LastOpened(s.history)) == [dapps[b], dapps[a]]
  {
    OpenedFirst(dapps, a, t);
    OpenedNext(dapps, a, t, b, u);
    OpeningMovesToFront(State(dapps, [], []), a, t);
    OpeningMovesToFront(State(dapps, [Recent(a, t)], [a]), b, u);
    assert Ids([Recent(b, u), Recent(a, t)]) == [b, a];
    SortOfTwo((e: Recent) => e.openedAt, Recent(b, u), Recent(a, t));
    FoundByIds(dapps, [Recent(a, t), Recent(b, u)]);
    assert Ids([Recent(a, t), Recent(b, u)]) == [a, b];
    FoundTwo(dapps, a, b);
    FoundTwo(dapps, b, a);
  }

  lemma SortOfTwo<T>(rank: T -> int, x: T, y: T)
    requires rank(x) < rank(y)
    ensures SortDescending(rank, [x, y]) == [y, x]
  {
    assert [x, y][1..] == [y] && [y][1..] == [];
    assert SortDescending(rank, []) == [];
    assert SortDescending(rank, [y]) == [y];
    assert Insert(rank, x, []) == [x];
    assert Insert(rank, x, [y]) == [y] + [x];
  }

  lemma FoundTwo<Dapp>(dapps: map<string, Dapp>, a: string, b: string)
    requires a in dapps && b in dapps
    ensures FoundIds(dapps, [a, b]) == [dapps[a], dapps[b]]
  {
    assert [a, b][1..] == [b] && [b][1..] == [];
    assert FoundIds(dapps, [b]) == [dapps[b]];
  }
}
