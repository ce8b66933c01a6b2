/**
 The assets the portfolio learns (src/controllers/hintsController/hintsController.ts): at most 20 of
 each kind are remembered once they are no longer owned, and tokens wait to be learned until they are
 seen with a balance or turn out to be no tokens.

 A record of learned assets keeps its entries in the order of insertion, as the source's objects do.
 `checksum` is the address library: the canonical text of an address, or None for other text.
 */
module Hints {
  import opened Wrappers
  import opened Sequences
  import HdPaths

  const LEARNED_UNOWNED_LIMIT := 20
  const ZERO_ADDRESS := "0x0000000000000000000000000000000000000000"

  type Address = string

  datatype Learned = Learned(id: string, at: nat)

  datatype State = State(
    erc20s: map<(nat, string), seq<Learned>>,
    erc721s: map<(nat, string), seq<Learned>>,
    toBeLearned: map<nat, seq<Address>>,
    listed: set<(nat, Address)>)

  /** `AddToBeLearned`, and the three parts of `learnAssetsFromLibResult`, between which others may run. */
  datatype Event =
    | AddToBeLearned(tokens: seq<string>, chain: nat)
    | LearnTokens(owned: seq<Address>, chain: nat, account: string, now: nat)
    | LearnNfts(ids: seq<string>, chain: nat, account: string, now: nat)
    | CleanUp(chain: nat, tokenErrors: seq<Address>)

  // ----- Learning

  function At(list: seq<Learned>, id: string): Option<nat> {
    match FindIndex((x: Learned) => x.id == id, list)
    case None => None
    case Some(i) => Some(list[i].at)
  }

  /** Assigning a property: in place if it is there, else at the end. */
  function Put(list: seq<Learned>, id: string, now: nat): seq<Learned> {
    match FindIndex((x: Learned) => x.id == id, list)
    case None => list + [Learned(id, now)]
    case Some(i) => list[i := Learned(id, now)]
  }

  function PutAll(list: seq<Learned>, ids: seq<string>, now: nat): seq<Learned> {
    if ids == [] then list
    else
      Put(PutAll(list, ids[..|ids| - 1], now), ids[|ids| - 1], now)
  }

  function NewestFirst(list: seq<Learned>): seq<Learned> {
    SortDescending((x: Learned) => x.at, list)
  }

  function Unowned(list: seq<Learned>, now: nat): seq<Learned> {
    Filter((x: Learned) => x.at != now, list)
  }

  function Ids(list: seq<Learned>): seq<string> {
    Map((x: Learned) => x.id, list)
  }

  /** Deletes the entries of `candidates` beyond the limit. */
  function Discard(list: seq<Learned>, candidates: seq<Learned>): seq<Learned> {
    if |candidates| <= LEARNED_UNOWNED_LIMIT then list
    else Filter((x: Learned) => x.id !in Ids(candidates[LEARNED_UNOWNED_LIMIT..]), list)
  }

  function WithoutZero(tokens: seq<Address>): seq<Address> {
    Filter(a => a != ZERO_ADDRESS, tokens)
  }

  /** The zero address stands for the native token, which is not learned. */
  function LearnedTokens(list: seq<Learned>, owned: seq<Address>, now: nat): seq<Learned> {
    var stamped := PutAll(list, WithoutZero(owned), now);
    Discard(stamped, NewestFirst(Unowned(stamped, now)))
  }

  /** Collectibles are not sorted before the entries beyond the limit are deleted. */
  function LearnedNfts(list: seq<Learned>, ids: seq<string>, now: nat): seq<Learned> {
    var stamped := PutAll(list, ids, now);
    Discard(stamped, Unowned(stamped, now))
  }

  function Get(m: map<(nat, string), seq<Learned>>, key: (nat, string)): seq<Learned> {
    if key in m then m[key] else []
  }

  // ----- To be learned

  function Waiting(s: State, chain: nat): seq<Address> {
    if chain in s.toBeLearned then s.toBeLearned[chain] else []
  }

  /** `listed`: the custom tokens and those with a preference. */
  predicate Accepts(checksum: string -> Option<Address>, s: State, chain: nat, token: string) {
    && token != ZERO_ADDRESS && checksum(token).Some?
    && (chain, checksum(token).value) !in s.listed
    && checksum(token).value !in Waiting(s, chain)
  }

  function Accepted(checksum: string -> Option<Address>, s: State, tokens: seq<string>, chain: nat): seq<string> {
    Filter(t => Accepts(checksum, s, chain, t), Dedup(tokens))
  }

  function Wait(checksum: string -> Option<Address>, s: State, tokens: seq<string>, chain: nat): State {
    if tokens == [] then s
    else s.(toBeLearned := s.toBeLearned[chain := Accepted(checksum, s, tokens, chain) + Waiting(s, chain)])
  }

  function Forget(waiting: seq<Address>, gone: seq<Address>): seq<Address> {
    Filter(a => a !in gone, waiting)
  }

  function Learn(s: State, owned: seq<Address>, chain: nat, account: string, now: nat): State {
    s.(erc20s := s.erc20s[(chain, account) := LearnedTokens(Get(s.erc20s, (chain, account)), owned, now)],
       toBeLearned := if chain in s.toBeLearned
                      then s.toBeLearned[chain := Forget(s.toBeLearned[chain], WithoutZero(owned))]
                      else s.toBeLearned)
  }

  function Step(checksum: string -> Option<Address>, s: State, e: Event): State {
    match e
    case AddToBeLearned(tokens, chain) => Wait(checksum, s, tokens, chain)
    case LearnTokens(owned, chain, account, now) => if owned == [] then s else Learn(s, owned, chain, account, now)
    case LearnNfts(ids, chain, account, now) =>
      if ids == [] then s
      else s.(erc721s := s.erc721s[(chain, account) := LearnedNfts(Get(s.erc721s, (chain, account)), ids, now)])
    case CleanUp(chain, tokenErrors) =>
      if tokenErrors == [] || Waiting(s, chain) == [] then s
      else s.(toBeLearned := s.toBeLearned[chain := Forget(s.toBeLearned[chain], tokenErrors)])
  }

  function Run(checksum: string -> Option<Address>, s: State, events: seq<Event>): State
    decreases |events|
  {
    if events == [] then s else Run(checksum, Step(checksum, s, events[0]), events[1..])
  }

  // ----- The class of the source

  class HintsController {
    var erc20s: map<(nat, string), seq<Learned>>
    var erc721s: map<(nat, string), seq<Learned>>
    var toBeLearned: map<nat, seq<Address>>
    var listed: set<(nat, Address)>

    ghost function View(): State
      reads this
    {
      State(erc20s, erc721s, toBeLearned, listed)
    }

    constructor (s: State)
      ensures View() == s
    {
      erc20s, erc721s, toBeLearned, listed := s.erc20s, s.erc721s, s.toBeLearned, s.listed;
    }

    method AddTokensToBeLearned(checksum: string -> Option<Address>, tokenAddresses: seq<string>, chain: nat)
      returns (added: bool)
      modifies this`toBeLearned
      ensures View() == Wait(checksum, old(View()), tokenAddresses, chain)
      ensures added <==> Accepted(checksum, old(View()), tokenAddresses, chain) != []
    {
      if tokenAddresses == [] { return false; }
      var tokensToLearn := TokensToLearn(checksum, Dedup(tokenAddresses), chain);
      if chain !in toBeLearned {
        toBeLearned := toBeLearned[chain := []];
      }
      if tokensToLearn == [] {
        assert [] + toBeLearned[chain] == toBeLearned[chain];
        return false;
      }
      toBeLearned := toBeLearned[chain := tokensToLearn + toBeLearned[chain]];
      return true;
    }

    method TokensToLearn(checksum: string -> Option<Address>, unique: seq<string>, chain: nat) returns (r: seq<string>)
      ensures var s := View(); r == Filter(t => Accepts(checksum, s, chain, t), unique)
    {
      ghost var s := View();
      r := [];
      for i := 0 to |unique|
        invariant r == Filter(t => Accepts(checksum, s, chain, t), unique[..i])
      {
        var address := unique[i];
        assert unique[..i + 1][..i] == unique[..i];
        var take := false;
        if address != ZERO_ADDRESS {
          var normalized := checksum(address);
          if normalized.Some? && (chain, normalized.value) !in listed {
            take := chain !in toBeLearned || normalized.value !in toBeLearned[chain];
          }
        }
        assert take == Accepts(checksum, s, chain, address);
        if take {
          r := r + [address];
        }
      }
      assert unique[..|unique|] == unique;
    }

    method Stamp(list: seq<Learned>, ids: seq<string>, now: nat) returns (learned: seq<Learned>)
      ensures learned == PutAll(list, ids, now)
    {
      learned := list;
      for i := 0 to |ids|
        invariant learned == PutAll(list, ids[..i], now)
      {
        assert ids[..i + 1][..i] == ids[..i];
        learned := Put(learned, ids[i], now);
      }
      assert ids[..|ids|] == ids;
    }

    method StampTokens(list: seq<Learned>, tokens: seq<Address>, now: nat) returns (learned: seq<Learned>)
      ensures learned == PutAll(list, WithoutZero(tokens), now)
    {
      learned := list;
      for i := 0 to |tokens|
        invariant learned == PutAll(list, WithoutZero(tokens[..i]), now)
      {
        assert tokens[..i + 1][..i] == tokens[..i];
        if tokens[i] == ZERO_ADDRESS { continue; }
        var done := WithoutZero(tokens[..i]);
        assert (done + [tokens[i]])[..|done|] == done;
        learned := Put(learned, tokens[i], now);
      }
      assert tokens[..|tokens|] == tokens;
    }

    method DoLearnTokens(tokensWithBalance: seq<Address>, chain: nat, account: string, now: nat)
      modifies this`erc20s, this`toBeLearned
      ensures View() == Learn(old(View()), tokensWithBalance, chain, account, now)
    {
      var key := (chain, account);
      var learnedTokens := StampTokens(Get(erc20s, key), tokensWithBalance, now);
      if chain in toBeLearned {
        toBeLearned := toBeLearned[chain := Forget(toBeLearned[chain], WithoutZero(tokensWithBalance))];
      }
      var noLongerOwned := NewestFirst(Filter((x: Learned) => x.at != now, learnedTokens));
      if |noLongerOwned| > LEARNED_UNOWNED_LIMIT {
        var discarded := Ids(noLongerOwned[LEARNED_UNOWNED_LIMIT..]);
        learnedTokens := Filter((x: Learned) => x.id !in discarded, learnedTokens);
      }
      erc20s := erc20s[key := learnedTokens];
    }

    method DoLearnNfts(ids: seq<string>, chain: nat, account: string, now: nat)
      requires ids != []
      modifies this`erc721s
      ensures erc721s == Step(_ => None, old(View()), LearnNfts(ids, chain, account, now)).erc721s
    {
      var key := (chain, account);
      var learnedNfts := Stamp(Get(erc721s, key), ids, now);
      var noLongerOwned := Filter((x: Learned) => x.at != now, learnedNfts);
      if |noLongerOwned| > LEARNED_UNOWNED_LIMIT {
        var discarded := Ids(noLongerOwned[LEARNED_UNOWNED_LIMIT..]);
        learnedNfts := Filter((x: Learned) => x.id !in discarded, learnedNfts);
      }
      erc721s := erc721s[key := learnedNfts];
    }
  }

  // ----- What is learned

  ghost predicate DistinctIds(list: seq<Learned>) {
    forall i, j :: 0 <= i < j < |list| ==> list[i].id != list[j].id
  }

  lemma SameId(list: seq<Learned>, x: Learned, y: Learned)
    requires DistinctIds(list) && x in list && y in list && x.id == y.id
    ensures x == y
  {
    var i :| 0 <= i < |list| && list[i] == x;
    var j :| 0 <= j < |list| && list[j] == y;
    assert i == j;
  }

  lemma PutAt(list: seq<Learned>, id: string, now: nat, x: Learned)
    requires DistinctIds(list)
    ensures DistinctIds(Put(list, id, now))
    ensures x in Put(list, id, now) <==> if x.id == id then x.at == now else x in list
  {
    var after := Put(list, id, now);
    match FindIndex((y: Learned) => y.id == id, list)
    case None =>
      forall i | 0 <= i < |list| ensures list[i].id != id {
        assert list[i] in list;
      }
    case Some(i) =>
      assert after[i] == Learned(id, now);
      if x.id != id && x in list {
        var j :| 0 <= j < |list| && list[j] == x;
        assert after[j] == x;
      }
      if x in after && x.id == id {
        var j :| 0 <= j < |after| && after[j] == x;
        assert j == i;
      }
  }

  /** Stamping sets the time of every id given, and of no other. */
  lemma {:induction false} PutAllAt(list: seq<Learned>, ids: seq<string>, now: nat, x: Learned)
    requires DistinctIds(list)
    ensures DistinctIds(PutAll(list, ids, now))
    ensures x in PutAll(list, ids, now) <==> if x.id in ids then x.at == now else x in list
  {
    if ids != [] {
      var init, id := ids[..|ids| - 1], ids[|ids| - 1];
      PutAllAt(list, init, now, x);
      assert ids == init + [id];
      PutAt(PutAll(list, init, now), id, now, x);
    }
  }

  lemma DiscardKeepsDistinct(list: seq<Learned>, candidates: seq<Learned>)
    requires DistinctIds(list)
    ensures DistinctIds(Discard(list, candidates))
  {
    if |candidates| > LEARNED_UNOWNED_LIMIT {
      FilterDistinct((x: Learned) => x.id !in Ids(candidates[LEARNED_UNOWNED_LIMIT..]), list, (x: Learned) => x.id);
    }
  }

  lemma DistinctFromCounts(list: seq<Learned>, other: seq<Learned>)
    requires DistinctIds(list) && multiset(other) == multiset(list)
    ensures DistinctIds(other)
  {
    forall i, j | 0 <= i < j < |other| ensures other[i].id != other[j].id {
      if other[i].id == other[j].id {
        assert other[i] in multiset(other) && other[j] in multiset(other);
        SameId(list, other[i], other[j]);
        assert other == other[..j] + [other[j]] + other[j + 1..];
        assert other[i] in other[..j];
        assert multiset(other)[other[j]] >= 2;
        CountsOnce(list, other[j]);
      }
    }
  }

  lemma {:induction false} CountsOnce(list: seq<Learned>, x: Learned)
    requires DistinctIds(list)
    ensures multiset(list)[x] <= 1
  {
    if list != [] {
      CountsOnce(list[1..], x);
      assert list == [list[0]] + list[1..];
      if x == list[0] {
        assert x !in list[1..];
      }
    }
  }

  /** Of the candidates, which are the unowned entries in some order, the first 20 stay and the others go. */
  lemma DiscardKeepsTheFirst(list: seq<Learned>, candidates: seq<Learned>, now: nat, x: Learned)
    requires DistinctIds(list) && multiset(candidates) == multiset(Unowned(list, now))
    ensures x in Discard(list, candidates) <==>
            && x in list
            && (x.at != now ==> exists i :: 0 <= i < |candidates| && i < LEARNED_UNOWNED_LIMIT && candidates[i] == x)
  {
    FilterDistinct((y: Learned) => y.at != now, list, (y: Learned) => y.id);
    DistinctFromCounts(Unowned(list, now), candidates);
    if x in list && x.at != now {
      assert x in Unowned(list, now) && x in multiset(candidates);
      var i :| 0 <= i < |candidates| && candidates[i] == x;
      if |candidates| > LEARNED_UNOWNED_LIMIT {
        IdsBeyond(candidates, x);
      }
    }
    if x in list && x.at == now && |candidates| > LEARNED_UNOWNED_LIMIT {
      IdsBeyond(candidates, x);
      forall j | LEARNED_UNOWNED_LIMIT <= j < |candidates| ensures candidates[j].id != x.id {
        assert candidates[j] in multiset(candidates) && candidates[j] in Unowned(list, now);
        if candidates[j].id == x.id {
          SameId(list, candidates[j], x);
        }
      }
    }
  }

  lemma IdsBeyond(candidates: seq<Learned>, x: Learned)
    requires |candidates| > LEARNED_UNOWNED_LIMIT
    ensures x.id in Ids(candidates[LEARNED_UNOWNED_LIMIT..]) <==>
            exists j :: LEARNED_UNOWNED_LIMIT <= j < |candidates| && candidates[j].id == x.id
  {
    var rest := candidates[LEARNED_UNOWNED_LIMIT..];
    if j :| LEARNED_UNOWNED_LIMIT <= j < |candidates| && candidates[j].id == x.id {
      assert Ids(rest)[j - LEARNED_UNOWNED_LIMIT] == x.id;
    }
    if x.id in Ids(rest) {
      var i :| 0 <= i < |rest| && Ids(rest)[i] == x.id;
      assert candidates[i + LEARNED_UNOWNED_LIMIT].id == x.id;
    }
  }

  /** The unowned entries that stay are as many as there were, up to 20. */
  lemma DiscardCounts(list: seq<Learned>, candidates: seq<Learned>, now: nat)
    requires DistinctIds(list) && multiset(candidates) == multiset(Unowned(list, now))
    ensures |Unowned(Discard(list, candidates), now)|
            == if |candidates| <= LEARNED_UNOWNED_LIMIT then |candidates| else LEARNED_UNOWNED_LIMIT
  {
    var unowned := Unowned(list, now);
    assert |multiset(candidates)| == |multiset(unowned)|;
    if |candidates| > LEARNED_UNOWNED_LIMIT {
      var p := (x: Learned) => x.id !in Ids(candidates[LEARNED_UNOWNED_LIMIT..]);
      var q := (x: Learned) => x.at != now;
      FilterDistinct(q, list, (y: Learned) => y.id);
      DistinctFromCounts(unowned, candidates);
      forall i | 0 <= i < |candidates| ensures p(candidates[i]) <==> i < LEARNED_UNOWNED_LIMIT {
        IdsBeyond(candidates, candidates[i]);
      }
      FilterSplits(p, candidates, LEARNED_UNOWNED_LIMIT);
      forall x ensures multiset(Filter(q, Filter(p, list)))[x] == multiset(Filter(p, candidates))[x] {
        FilterCounts(q, Filter(p, list), x);
        FilterCounts(p, list, x);
        FilterCounts(q, list, x);
        FilterCounts(p, candidates, x);
      }
      assert multiset(Filter(q, Filter(p, list))) == multiset(candidates[..LEARNED_UNOWNED_LIMIT]);
      assert |multiset(Filter(q, Filter(p, list)))| == |multiset(candidates[..LEARNED_UNOWNED_LIMIT])|;
    }
  }

  /** Learning tokens keeps an entry exactly if it was stamped now or is one of the 20 newest others. */
  lemma KeptTokens(list: seq<Learned>, owned: seq<Address>, now: nat, x: Learned)
    requires DistinctIds(list)
    ensures var stamped := PutAll(list, WithoutZero(owned), now);
            var sorted := NewestFirst(Unowned(stamped, now));
            && DistinctIds(stamped) && multiset(sorted) == multiset(Unowned(stamped, now))
            && Descending((y: Learned) => y.at, sorted)
            && (x in LearnedTokens(list, owned, now) <==>
                  && x in stamped
                  && (x.at != now ==> exists i :: 0 <= i < |sorted| && i < LEARNED_UNOWNED_LIMIT && sorted[i] == x))
  {
    var stamped := PutAll(list, WithoutZero(owned), now);
    PutAllAt(list, WithoutZero(owned), now, x);
    SortSorts((y: Learned) => y.at, Unowned(stamped, now));
    DiscardKeepsTheFirst(stamped, NewestFirst(Unowned(stamped, now)), now, x);
  }

  /** Learning tokens stamps the owned ones with the present, and changes no other time. */
  lemma TokensAreStamped(list: seq<Learned>, owned: seq<Address>, now: nat, x: Learned)
    requires DistinctIds(list)
    ensures var after := LearnedTokens(list, owned, now);
            && DistinctIds(after)
            && (x.id in owned && x.id != ZERO_ADDRESS ==> (x in after <==> x.at == now))
            && (x in after && x.at != now ==> x in list)
            && (x in list && x.at == now ==> x in after)
  {
    KeptTokens(list, owned, now, x);
    PutAllAt(list, WithoutZero(owned), now, x);
    DiscardKeepsDistinct(PutAll(list, WithoutZero(owned), now),
      NewestFirst(Unowned(PutAll(list, WithoutZero(owned), now), now)));
  }

  /**
   Of the tokens no longer owned, learning keeps as many as it may, and none that goes is newer than
   one that stays.
   */
  lemma TokensEvictTheOldest(list: seq<Learned>, owned: seq<Address>, now: nat, kept: Learned, gone: Learned)
    requires DistinctIds(list)
    ensures var after := LearnedTokens(list, owned, now);
            var unowned := Unowned(PutAll(list, WithoutZero(owned), now), now);
            && |Unowned(after, now)|
               == (if |unowned| <= LEARNED_UNOWNED_LIMIT then |unowned| else LEARNED_UNOWNED_LIMIT)
            && (kept in after && kept.at != now && gone in unowned && gone !in after ==> gone.at <= kept.at)
  {
    var stamped := PutAll(list, WithoutZero(owned), now);
    var unowned := Unowned(stamped, now);
    var sorted := NewestFirst(unowned);
    KeptTokens(list, owned, now, kept);
    KeptTokens(list, owned, now, gone);
    DiscardCounts(stamped, sorted, now);
    assert |multiset(sorted)| == |multiset(unowned)|;
    var after := LearnedTokens(list, owned, now);
    if kept in after && kept.at != now && gone in unowned && gone !in after {
      var i :| 0 <= i < |sorted| && i < LEARNED_UNOWNED_LIMIT && sorted[i] == kept;
      assert gone in multiset(sorted);
      var j :| 0 <= j < |sorted| && sorted[j] == gone;
      assert i < j;
    }
  }

  /** The entries a record will no longer own once `ids` are stamped, in the order of insertion. */
  function LeftBehind(list: seq<Learned>, ids: seq<string>, now: nat): seq<Learned> {
    Filter((x: Learned) => x.id !in ids, Unowned(list, now))
  }

  lemma PutLeavesBehind(list: seq<Learned>, id: string, now: nat)
    requires DistinctIds(list)
    ensures Unowned(Put(list, id, now), now) == Filter((x: Learned) => x.id != id, Unowned(list, now))
  {
    var p := (x: Learned) => x.at != now;
    var r := (x: Learned) => x.at != now && x.id != id;
    FilterTwice((x: Learned) => x.id != id, p, r, list);
    match FindIndex((y: Learned) => y.id == id, list) {
      case None =>
        FilterAppend(p, list, Learned(id, now));
        forall i | 0 <= i < |list| ensures p(list[i]) == r(list[i]) {
          assert list[i] in list;
        }
        SameFilter(p, r, list);
      case Some(i) =>
        FilterAround(p, list[i := Learned(id, now)], i);
        FilterAround(r, list, i);
        SameFilter(p, r, list[..i]);
        SameFilter(p, r, list[i + 1..]);
        assert list[i := Learned(id, now)][..i] == list[..i] && list[i := Learned(id, now)][i + 1..] == list[i + 1..];
    }
  }

  lemma InMore(ids: seq<string>)
    requires ids != []
    ensures forall id :: id in ids <==> id in ids[..|ids| - 1] || id == ids[|ids| - 1]
  {
  }

  lemma {:induction false} StampingLeavesBehind(list: seq<Learned>, ids: seq<string>, now: nat)
    requires DistinctIds(list)
    ensures Unowned(PutAll(list, ids, now), now) == LeftBehind(list, ids, now)
  {
    var unowned := Unowned(list, now);
    if ids == [] {
      FilterSplits((x: Learned) => x.id !in ids, unowned, |unowned|);
    } else {
      var init, id := ids[..|ids| - 1], ids[|ids| - 1];
      PutAllAt(list, init, now, Learned("", 0));
      StampingLeavesBehind(list, init, now);
      PutLeavesBehind(PutAll(list, init, now), id, now);
      InMore(ids);
      FilterTwice((x: Learned) => x.id != id, (x: Learned) => x.id !in init, (x: Learned) => x.id !in ids, unowned);
    }
  }

  /** Learning collectibles keeps the present ones, and of those left behind the first 20 that were put in. */
  lemma KeptNfts(list: seq<Learned>, ids: seq<string>, now: nat, x: Learned)
    requires DistinctIds(list)
    ensures var after, left := LearnedNfts(list, ids, now), LeftBehind(list, ids, now);
            && DistinctIds(after)
            && (x in after <==>
                  || (x.at == now && (x.id in ids || x in list))
                  || (exists i :: 0 <= i < |left| && i < LEARNED_UNOWNED_LIMIT && left[i] == x))
  {
    var stamped, left := PutAll(list, ids, now), LeftBehind(list, ids, now);
    PutAllAt(list, ids, now, x);
    StampingLeavesBehind(list, ids, now);
    DiscardKeepsDistinct(stamped, left);
    DiscardKeepsTheFirst(stamped, left, now, x);
    if i :| 0 <= i < |left| && left[i] == x {
      assert x in left && x in Unowned(stamped, now);
    }
  }

  /** And no more than 20 of them. */
  lemma NftsKeepTheBound(list: seq<Learned>, ids: seq<string>, now: nat)
    requires DistinctIds(list)
    ensures var left := LeftBehind(list, ids, now);
            |Unowned(LearnedNfts(list, ids, now), now)|
            == if |left| <= LEARNED_UNOWNED_LIMIT then |left| else LEARNED_UNOWNED_LIMIT
  {
    PutAllAt(list, ids, now, Learned("", 0));
    StampingLeavesBehind(list, ids, now);
    DiscardCounts(PutAll(list, ids, now), LeftBehind(list, ids, now), now);
  }

  /**
   No collectible that goes is newer than one that stays if and only if, of those left behind, each of the
   first 20 in the order of insertion is at least as new as every later one.
   */
  lemma NftsEvictTheOldestIff(list: seq<Learned>, ids: seq<string>, now: nat)
    requires DistinctIds(list)
    ensures var after, left := LearnedNfts(list, ids, now), LeftBehind(list, ids, now);
            (forall kept, gone :: kept in after && kept in left && gone in left && gone !in after ==>
               gone.at <= kept.at)
            <==>
            (forall i, j :: 0 <= i < LEARNED_UNOWNED_LIMIT <= j < |left| ==> left[j].at <= left[i].at)
  {
    var after, left := LearnedNfts(list, ids, now), LeftBehind(list, ids, now);
    LeftBehindIsDistinct(list, ids, now);
    forall i | 0 <= i < |left| ensures left[i] in after <==> i < LEARNED_UNOWNED_LIMIT {
      KeptNfts(list, ids, now, left[i]);
      assert left[i] in left && left[i].at != now;
    }
    if forall i, j :: 0 <= i < LEARNED_UNOWNED_LIMIT <= j < |left| ==> left[j].at <= left[i].at {
      forall kept, gone | kept in after && kept in left && gone in left && gone !in after ensures gone.at <= kept.at {
        var i :| 0 <= i < |left| && left[i] == kept;
        var j :| 0 <= j < |left| && left[j] == gone;
      }
    } else {
      var i, j :| 0 <= i < LEARNED_UNOWNED_LIMIT <= j < |left| && left[j].at > left[i].at;
      assert left[i] in left && left[j] in left;
    }
  }

  lemma LeftBehindIsDistinct(list: seq<Learned>, ids: seq<string>, now: nat)
    requires DistinctIds(list)
    ensures DistinctIds(LeftBehind(list, ids, now))
  {
    FilterDistinct((x: Learned) => x.at != now, list, (x: Learned) => x.id);
    FilterDistinct((x: Learned) => x.id !in ids, Unowned(list, now), (x: Learned) => x.id);
  }

  /** The key of a collectible: its collection and token id. */
  function NftKey(collection: Address, tokenId: nat): string {
    collection + ":" + HdPaths.Decimal(tokenId)
  }

  lemma NftKeysDiffer(collection: Address, m: nat, n: nat)
    requires NftKey(collection, m) == NftKey(collection, n)
    ensures m == n
  {
    assert NftKey(collection, m)[|collection| + 1..] == HdPaths.Decimal(m);
    assert NftKey(collection, n)[|collection| + 1..] == HdPaths.Decimal(n);
    HdPaths.NumberOfDecimal(m);
    HdPaths.NumberOfDecimal(n);
  }

  /** Collectibles 0 to 20 of a collection, each seen once, in their order. */
  function SeenInOrder(collection: Address): seq<Learned> {
    seq(21, (i: nat) => Learned(NftKey(collection, i), i + 1))
  }

  /** So when a further one is owned, the one seen last is forgotten and the one not seen for longest stays. */
  lemma NftsMayForgetTheNewest(collection: Address)
    ensures var after := LearnedNfts(SeenInOrder(collection), [NftKey(collection, 21)], 100);
            && DistinctIds(SeenInOrder(collection))
            && Learned(NftKey(collection, 0), 1) in after && Learned(NftKey(collection, 20), 21) !in after
  {
    var list, ids := SeenInOrder(collection), [NftKey(collection, 21)];
    SeenAreDistinct(collection);
    NothingStamped(list, ids, 100);
    KeptNfts(list, ids, 100, list[0]);
    KeptNfts(list, ids, 100, list[20]);
    assert list[20] == Learned(NftKey(collection, 20), 21) && list[0] == Learned(NftKey(collection, 0), 1);
    forall i | 0 <= i < 20 ensures list[i] != list[20] {
      assert list[i].at == i + 1;
    }
  }

  lemma SeenAreDistinct(collection: Address)
    ensures var list := SeenInOrder(collection);
            && DistinctIds(list)
            && forall i :: 0 <= i < |list| ==> list[i].at != 100 && list[i].id !in [NftKey(collection, 21)]
  {
    var list := SeenInOrder(collection);
    forall i, j | 0 <= i < j < |list| ensures list[i].id != list[j].id {
      if list[i].id == list[j].id { NftKeysDiffer(collection, i, j); }
    }
    forall i | 0 <= i < |list| ensures list[i].id !in [NftKey(collection, 21)] {
      if list[i].id == NftKey(collection, 21) { NftKeysDiffer(collection, i, 21); }
    }
  }

  lemma NothingStamped(list: seq<Learned>, ids: seq<string>, now: nat)
    requires forall i :: 0 <= i < |list| ==> list[i].at != now && list[i].id !in ids
    ensures LeftBehind(list, ids, now) == list
  {
    assert list[..|list|] == list;
    FilterSplits((x: Learned) => x.at != now, list, |list|);
    assert Unowned(list, now) == list;
    FilterSplits((x: Learned) => x.id !in ids, Unowned(list, now), |list|);
  }

  // ----- What waits to be learned

  predicate Removes(e: Event, chain: nat, a: Address) {
    match e
    case LearnTokens(owned, c, _, _) => c == chain && a in owned && a != ZERO_ADDRESS
    case CleanUp(c, errors) => c == chain && a in errors
    case _ => false
  }

  /** After a step a text waits exactly if it waited and was neither learned nor in error, or was just accepted. */
  lemma WaitingAfter(checksum: string -> Option<Address>, s: State, e: Event, chain: nat, a: Address)
    ensures a in Waiting(Step(checksum, s, e), chain) <==>
            || (a in Waiting(s, chain) && !Removes(e, chain, a))
            || (e.AddToBeLearned? && e.chain == chain && a in e.tokens && Accepts(checksum, s, chain, a))
  {
  }

  /** In every run a token that waits goes on waiting until it is learned or in error. */
  lemma {:induction false} WaitsUntilLearnedOrErrored(checksum: string -> Option<Address>, s: State,
                                                      events: seq<Event>, chain: nat, a: Address)
    requires a in Waiting(s, chain) && forall e :: e in events ==> !Removes(e, chain, a)
    ensures a in Waiting(Run(checksum, s, events), chain)
    decreases |events|
  {
    if events == [] {
    } else {
      WaitingAfter(checksum, s, events[0], chain, a);
      WaitsUntilLearnedOrErrored(checksum, Step(checksum, s, events[0]), events[1..], chain, a);
    }
  }

  predicate IsCanonical(checksum: string -> Option<Address>, a: string) {
    checksum(a) == Some(a)
  }

  predicate ReportsCanonical(checksum: string -> Option<Address>, e: Event) {
    match e
    case LearnTokens(owned, _, _, _) => forall a :: a in owned ==> IsCanonical(checksum, a)
    case CleanUp(_, errors) => forall a :: a in errors ==> IsCanonical(checksum, a)
    case _ => true
  }

  /** A text that is no canonical address waits for ever: the portfolio reports canonical addresses only. */
  lemma UncanonicalWaitsForever(checksum: string -> Option<Address>, s: State, events: seq<Event>, chain: nat,
                                a: Address)
    requires a in Waiting(s, chain) && !IsCanonical(checksum, a)
    requires forall e :: e in events ==> ReportsCanonical(checksum, e)
    ensures a in Waiting(Run(checksum, s, events), chain)
  {
    forall e | e in events ensures !Removes(e, chain, a) {
      assert ReportsCanonical(checksum, e);
    }
    WaitsUntilLearnedOrErrored(checksum, s, events, chain, a);
  }

  /**
   Adding keeps the list free of duplicates exactly if no accepted text is in it already. The guard
   looks for the canonical form while the text itself is stored, so only texts that are not canonical
   can be in it.
   */
  lemma AddingKeepsDistinctIff(checksum: string -> Option<Address>, s: State, tokens: seq<string>, chain: nat)
    requires NoDuplicates(Waiting(s, chain))
    ensures NoDuplicates(Waiting(Wait(checksum, s, tokens, chain), chain)) <==>
            forall t :: t in tokens && Accepts(checksum, s, chain, t) ==> t !in Waiting(s, chain)
    ensures forall t :: Accepts(checksum, s, chain, t) && t in Waiting(s, chain) ==> !IsCanonical(checksum, t)
  {
    var accepted := Accepted(checksum, s, tokens, chain);
    DedupDistinct(tokens);
    FilterDistinct(t => Accepts(checksum, s, chain, t), Dedup(tokens), t => t);
    ConcatDistinct(accepted, Waiting(s, chain));
  }

  /** Canonical additions keep the lists free of duplicates in every run. */
  lemma {:induction false} CanonicalRunsHaveNoDuplicates(checksum: string -> Option<Address>, s: State,
                                                         events: seq<Event>, chain: nat)
    requires NoDuplicates(Waiting(s, chain))
    requires forall e :: e in events && e.AddToBeLearned? ==> forall t :: t in e.tokens ==> IsCanonical(checksum, t)
    ensures NoDuplicates(Waiting(Run(checksum, s, events), chain))
    decreases |events|
  {
    if events == [] {
    } else {
      StepKeepsDistinct(checksum, s, events[0], chain);
      CanonicalRunsHaveNoDuplicates(checksum, Step(checksum, s, events[0]), events[1..], chain);
    }
  }

  lemma StepKeepsDistinct(checksum: string -> Option<Address>, s: State, e: Event, chain: nat)
    requires NoDuplicates(Waiting(s, chain))
    requires e.AddToBeLearned? ==> forall t :: t in e.tokens ==> IsCanonical(checksum, t)
    ensures NoDuplicates(Waiting(Step(checksum, s, e), chain))
  {
    match e
    case AddToBeLearned(tokens, c) =>
      if c == chain {
        AddingKeepsDistinctIff(checksum, s, tokens, chain);
      }
    case LearnTokens(owned, c, _, _) =>
      FilterDistinct(a => a !in WithoutZero(owned), Waiting(s, chain), a => a);
    case CleanUp(c, errors) =>
      FilterDistinct(a => a !in errors, Waiting(s, chain), a => a);
    case LearnNfts(_, _, _, _) =>
  }

  /** Adding a text in lower case twice stores it twice. */
  lemma LowerCaseIsStoredTwice()
    ensures var checksum := (t: string) => if t == "0xa" || t == "0xA" then Some("0xA") else None;
            var s := State(map[], map[], map[1 := []], {});
            Waiting(Run(checksum, s, [AddToBeLearned(["0xa"], 1), AddToBeLearned(["0xa"], 1)]), 1) == ["0xa", "0xa"]
  {
    var checksum := (t: string) => if t == "0xa" || t == "0xA" then Some("0xA") else None;
    var s := State(map[], map[], map[1 := []], {});
    var e := AddToBeLearned(["0xa"], 1);
    assert ["0xa"][..0] == [];
    assert Dedup(["0xa"]) == ["0xa"];
    var p := t => Accepts(checksum, s, 1, t);
    assert Filter(p, ["0xa"][..0]) == [];
    assert p("0xa");
    assert Accepted(checksum, s, ["0xa"], 1) == ["0xa"];
    var s1 := Step(checksum, s, e);
    assert Waiting(s1, 1) == ["0xa"];
    var q := t => Accepts(checksum, s1, 1, t);
    assert q("0xa");
    assert Accepted(checksum, s1, ["0xa"], 1) == ["0xa"];
    assert [e, e][1..] == [e] && [e][1..] == [];
    assert Run(checksum, s1, [e]) == Step(checksum, s1, e);
  }
}
