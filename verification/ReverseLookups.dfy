/**
 Reverse lookups of the domains controller (src/controllers/domains/domains.ts): one lookup in flight
 per address, across batches and single lookups, behind a cache with a time to live.

 Addresses are canonical. A timestamp of 0 stands for a missing one; the source treats the two alike.
 `succeeded` and `failed` remember when a lookup of an address last did so.
 */
module ReverseLookups {
  import opened Wrappers
  import opened Sequences

  const PERSIST_DOMAIN_FOR_IN_MS := 15 * 60 * 1000
  const PERSIST_DOMAIN_FOR_FAILED_LOOKUP_IN_MS := 5 * 60 * 1000

  type Address = string
  type Names = map<string, Option<string>>

  datatype Entry = Entry(names: Names, createdAt: nat, updatedAt: nat, updateFailedAt: nat)

  /** What one name service says of one address: a name, that there is none, or that the lookup failed. */
  datatype NameEntry = NameEntry(name: Option<string>, failed: bool)

  /** How the call of one name service ends for a batch: it throws or times out, or answers for some addresses. */
  datatype Reply = NoReply | Answered(entries: map<Address, NameEntry>)

  /** `threw`: something after the replies, such as the avatars, threw. */
  datatype Arrival = Arrival(replies: map<string, Reply>, threw: bool)

  /** What a batch makes of one address. */
  datatype Lookup = Resolved(names: Names) | Failed

  /**
   A batch asks the services that were active when it began, the one of highest priority first. It is
   loading until its names are known; then it waits for the domains to be persisted.
   */
  datatype Batch = Batch(addresses: seq<Address>, services: seq<string>, loading: bool)

  datatype State = State(
    domains: map<Address, Entry>,
    loadingAddresses: seq<Address>,
    promises: map<Address, nat>,
    now: nat,
    batches: map<nat, Batch>,
    nextBatch: nat,
    succeeded: map<Address, nat>,
    failed: map<Address, nat>)

  /** Addresses as given by the caller: None where the text is no address. */
  datatype Event =
    | BatchLookup(raw: seq<Option<Address>>, services: seq<string>)
    | SingleLookup(one: Option<Address>, never: bool, keepUpToDate: bool, services: seq<string>)
    | NamesArrive(batch: nat, arrival: Arrival)
    | BatchPersisted(batch: nat)
    | DomainResolved(address: Address, service: string, name: string)
    | Tick(to: nat)

  function Initial(domains: map<Address, Entry>, now: nat): State {
    State(domains, [], map[], now, map[], 0, map[], map[])
  }

  function ValidAddresses(raw: seq<Option<Address>>): (r: seq<Address>)
    ensures forall a :: a in r <==> Some(a) in raw
  {
    if raw == [] then []
    else
      var rest := ValidAddresses(raw[..|raw| - 1]);
      match raw[|raw| - 1]
      case None => rest
      case Some(a) => rest + [a]
  }

  function Normalize(raw: seq<Option<Address>>): seq<Address> {
    Dedup(ValidAddresses(raw))
  }

  predicate IsPastTtl(domains: map<Address, Entry>, a: Address, now: nat) {
    if a !in domains then true
    else if domains[a].updateFailedAt != 0 then now - domains[a].updateFailedAt > PERSIST_DOMAIN_FOR_FAILED_LOOKUP_IN_MS
    else now - domains[a].updatedAt > PERSIST_DOMAIN_FOR_IN_MS
  }

  predicate ShouldLookup(s: State, a: Address) {
    IsPastTtl(s.domains, a, s.now) && a !in s.loadingAddresses && a !in s.promises
  }

  function AddressesToLookup(s: State, addresses: seq<Address>): (r: seq<Address>)
    ensures forall a :: a in r <==> a in addresses && ShouldLookup(s, a)
  {
    Filter(a => ShouldLookup(s, a), addresses)
  }

  function StartLookup(s: State, addresses: seq<Address>, services: seq<string>): State {
    if addresses == [] then s
    else
      s.(loadingAddresses := s.loadingAddresses + addresses,
         promises := s.promises + (map a | a in addresses :: s.nextBatch),
         batches := s.batches[s.nextBatch := Batch(addresses, services, true)],
         nextBatch := s.nextBatch + 1)
  }

  function LookupBatch(s: State, raw: seq<Option<Address>>, services: seq<string>): State {
    StartLookup(s, AddressesToLookup(s, Normalize(raw)), services)
  }

  /** `never` is the caller's privacy mode; it yields to the feature flag. */
  function LookupOne(s: State, raw: Option<Address>, never: bool, keepUpToDate: bool, services: seq<string>): State {
    if raw.None? || raw.value in s.promises || (never && !keepUpToDate) || !ShouldLookup(s, raw.value) then s
    else StartLookup(s, [raw.value], services)
  }

  function FailedEntry(domains: map<Address, Entry>, a: Address, now: nat): Entry {
    if a in domains && domains[a].createdAt != 0 then domains[a].(updateFailedAt := now)
    else Entry(map[], 0, 0, now)
  }

  function ResolvedEntry(domains: map<Address, Entry>, a: Address, names: Names, now: nat): Entry {
    Entry(names, if a in domains && domains[a].createdAt != 0 then domains[a].createdAt else now, now, 0)
  }

  /** A service that does not reply counts as failed for every address. */
  function EntryOf(replies: map<string, Reply>, service: string, a: Address): Option<NameEntry> {
    if service !in replies || replies[service].NoReply? then Some(NameEntry(None, true))
    else if a in replies[service].entries then Some(replies[service].entries[a])
    else None
  }

  /** What is recorded for a service: its name, or null where it has none, says nothing or failed. */
  function RecordedName(replies: map<string, Reply>, service: string, a: Address): Option<string> {
    match EntryOf(replies, service, a)
    case None => None
    case Some(e) => if e.failed then None else e.name
  }

  /** The service of highest priority says nothing of the address, or failed. */
  predicate PrimaryFails(services: seq<string>, replies: map<string, Reply>, a: Address) {
    services == [] || EntryOf(replies, services[0], a).None? || EntryOf(replies, services[0], a).value.failed
  }

  function OutcomeOf(services: seq<string>, arrival: Arrival, a: Address): Lookup {
    if arrival.threw || PrimaryFails(services, arrival.replies, a) then Failed
    else Resolved(map service | service in services :: RecordedName(arrival.replies, service, a))
  }

  function EntryAfter(domains: map<Address, Entry>, a: Address, outcome: Lookup, now: nat): Entry {
    match outcome
    case Failed => FailedEntry(domains, a, now)
    case Resolved(names) => ResolvedEntry(domains, a, names, now)
  }

  /** The cache after the outcomes of the addresses were entered one after the other. */
  function EnterAll(domains: map<Address, Entry>, addresses: seq<Address>, services: seq<string>, arrival: Arrival,
                    now: nat)
    : map<Address, Entry>
  {
    if addresses == [] then domains
    else
      var a := addresses[|addresses| - 1];
      var d := EnterAll(domains, addresses[..|addresses| - 1], services, arrival, now);
      d[a := EntryAfter(d, a, OutcomeOf(services, arrival, a), now)]
  }

  function Arrive(s: State, b: nat, arrival: Arrival): State
    requires b in s.batches
  {
    var addresses, services := s.batches[b].addresses, s.batches[b].services;
    s.(domains := EnterAll(s.domains, addresses, services, arrival, s.now),
       loadingAddresses := Filter(a => a !in addresses, s.loadingAddresses),
       batches := s.batches[b := Batch(addresses, services, false)],
       succeeded := s.succeeded + (map a | a in addresses && OutcomeOf(services, arrival, a).Resolved? :: s.now),
       failed := s.failed + (map a | a in addresses && OutcomeOf(services, arrival, a).Failed? :: s.now))
  }

  function EndBatch(s: State, b: nat): State
    requires b in s.batches
  {
    s.(batches := s.batches - {b}, promises := s.promises - (set a | a in s.batches[b].addresses))
  }

  /** `#saveResolvedDomain`: a name resolved forwards is saved as well. */
  function SaveResolved(s: State, a: Address, service: string, name: string): State {
    var names := if a in s.domains then s.domains[a].names else map[];
    s.(domains := s.domains[a := ResolvedEntry(s.domains, a, names[service := Some(name)], s.now)])
  }

  predicate Enabled(s: State, e: Event) {
    match e
    case NamesArrive(b, _) => b in s.batches && s.batches[b].loading
    case BatchPersisted(b) => b in s.batches && !s.batches[b].loading
    case Tick(to) => s.now <= to
    case _ => true
  }

  function Step(s: State, e: Event): State {
    if !Enabled(s, e) then s
    else
      match e
      case BatchLookup(raw, services) => LookupBatch(s, raw, services)
      case SingleLookup(raw, never, keepUpToDate, services) => LookupOne(s, raw, never, keepUpToDate, services)
      case NamesArrive(b, arrival) => Arrive(s, b, arrival)
      case BatchPersisted(b) => EndBatch(s, b)
      case DomainResolved(a, service, name) => SaveResolved(s, a, service, name)
      case Tick(to) => s.(now := to)
  }

  function Run(s: State, events: seq<Event>): State
    decreases |events|
  {
    if events == [] then s else Run(Step(s, events[0]), events[1..])
  }

  // ----- The class of the source

  class DomainsController {
    var domains: map<Address, Entry>
    var loadingAddresses: seq<Address>
    var promises: map<Address, nat>
    var now: nat
    // the batches in flight
    var batches: map<nat, Batch>
    var nextBatch: nat
    ghost var succeeded: map<Address, nat>
    ghost var failed: map<Address, nat>

    ghost function View(): State
      reads this
    {
      State(domains, loadingAddresses, promises, now, batches, nextBatch, succeeded, failed)
    }

    constructor (domains: map<Address, Entry>, now: nat)
      ensures View() == Initial(domains, now)
    {
      this.domains, loadingAddresses, promises, this.now := domains, [], map[], now;
      batches, nextBatch, succeeded, failed := map[], 0, map[], map[];
    }

    method NeedLookup(addresses: seq<Address>) returns (r: seq<Address>)
      ensures r == AddressesToLookup(View(), addresses)
    {
      r := [];
      ghost var s := View();
      for i := 0 to |addresses|
        invariant r == AddressesToLookup(s, addresses[..i])
      {
        var a := addresses[i];
        assert addresses[..i + 1][..i] == addresses[..i];
        if IsPastTtl(domains, a, now) && a !in loadingAddresses && a !in promises {
          r := r + [a];
        }
      }
      assert addresses[..|addresses|] == addresses;
    }

    /** `#reverseLookup` up to its first await, and the registration of its promise. */
    method BeginLookup(addresses: seq<Address>, services: seq<string>)
      modifies this
      ensures View() == StartLookup(old(View()), addresses, services)
    {
      if addresses == [] { return; }
      loadingAddresses := loadingAddresses + addresses;
      var b := nextBatch;
      promises := promises + (map a | a in addresses :: b);
      batches := batches[b := Batch(addresses, services, true)];
      nextBatch := b + 1;
    }

    /** The lookups the caller waits for: those in flight for the addresses it asked about. */
    method BatchReverseLookup(raw: seq<Option<Address>>, services: seq<string>) returns (awaited: set<nat>)
      modifies this
      ensures View() == LookupBatch(old(View()), raw, services)
      ensures awaited == set a | a in Normalize(raw) && a in promises :: promises[a]
    {
      var normalized := Normalize(raw);
      var toLookup := NeedLookup(normalized);
      BeginLookup(toLookup, services);
      var known := promises;
      awaited := set a | a in normalized && a in known :: known[a];
    }

    method ReverseLookup(raw: Option<Address>, never: bool, keepUpToDate: bool, services: seq<string>)
      modifies this
      ensures View() == LookupOne(old(View()), raw, never, keepUpToDate, services)
    {
      if raw.None? || raw.value in promises { return; }
      if never && !keepUpToDate { return; }
      var toLookup := NeedLookup([raw.value]);
      assert [raw.value][..0] == [];
      if toLookup == [] { return; }
      BeginLookup([toLookup[0]], services);
    }

    method SetLookupFailure(a: Address)
      modifies this
      ensures View() == old(View()).(domains := old(domains)[a := FailedEntry(old(domains), a, now)])
    {
      var hasBeenResolvedOnce := a in domains && domains[a].createdAt != 0;
      if hasBeenResolvedOnce {
        domains := domains[a := domains[a].(updateFailedAt := now)];
      } else {
        domains := domains[a := Entry(map[], 0, 0, now)];
      }
    }

    method EnterOutcome(a: Address, outcome: Lookup)
      modifies this
      ensures View() == old(View()).(domains := old(domains)[a := EntryAfter(old(domains), a, outcome, now)])
    {
      match outcome
      case Failed => SetLookupFailure(a);
      case Resolved(names) =>
        var createdAt := if a in domains && domains[a].createdAt != 0 then domains[a].createdAt else now;
        domains := domains[a := Entry(names, createdAt, now, 0)];
    }

    /** The merge of the services' replies for one address. */
    method MergeReplies(a: Address, services: seq<string>, arrival: Arrival) returns (outcome: Lookup)
      ensures outcome == OutcomeOf(services, arrival, a)
    {
      if arrival.threw || services == [] { return Failed; }
      var primaryEntry := EntryOf(arrival.replies, services[0], a);
      if primaryEntry.None? || primaryEntry.value.failed { return Failed; }
      var names: Names := map[];
      for i := 0 to |services|
        invariant names == map service | service in services[..i] :: RecordedName(arrival.replies, service, a)
      {
        var entry := EntryOf(arrival.replies, services[i], a);
        var name := if entry.Some? && !entry.value.failed then entry.value.name else None;
        names := names[services[i] := name];
        assert services[..i + 1] == services[..i] + [services[i]];
      }
      assert services[..|services|] == services;
      outcome := Resolved(names);
    }

    /** `#reverseLookup` from the arrival of the names to the persisting of the domains. */
    method FinishLookup(b: nat, arrival: Arrival)
      requires Enabled(View(), NamesArrive(b, arrival))
      modifies this
      ensures View() == Arrive(old(View()), b, arrival)
    {
      var addresses, services := batches[b].addresses, batches[b].services;
      EnterOutcomes(addresses, services, arrival);
      loadingAddresses := Filter(a => a !in addresses, loadingAddresses);
      batches := batches[b := Batch(addresses, services, false)];
      succeeded := succeeded + (map a | a in addresses && OutcomeOf(services, arrival, a).Resolved? :: now);
      failed := failed + (map a | a in addresses && OutcomeOf(services, arrival, a).Failed? :: now);
    }

    method EnterOutcomes(addresses: seq<Address>, services: seq<string>, arrival: Arrival)
      modifies this
      ensures View() == old(View()).(domains := EnterAll(old(domains), addresses, services, arrival, now))
    {
      ghost var s := View();
      for i := 0 to |addresses|
        invariant View() == s.(domains := EnterAll(s.domains, addresses[..i], services, arrival, s.now))
      {
        assert addresses[..i + 1][..i] == addresses[..i];
        var outcome := MergeReplies(addresses[i], services, arrival);
        EnterOutcome(addresses[i], outcome);
      }
      assert addresses[..|addresses|] == addresses;
    }

    method BatchDone(b: nat)
      requires Enabled(View(), BatchPersisted(b))
      modifies this
      ensures View() == EndBatch(old(View()), b)
    {
      var addresses := batches[b].addresses;
      batches := batches - {b};
      promises := promises - (set a | a in addresses);
    }

    method SaveResolvedDomain(a: Address, service: string, name: string)
      modifies this
      ensures View() == SaveResolved(old(View()), a, service, name)
    {
      var names: Names := if a in domains then domains[a].names else map[];
      var createdAt := if a in domains && domains[a].createdAt != 0 then domains[a].createdAt else now;
      domains := domains[a := Entry(names[service := Some(name)], createdAt, now, 0)];
    }
  }

  // ----- The invariant

  /** Promises and batches describe the same lookups, so no address is in two batches. */
  ghost predicate PromisesInv(s: State) {
    && (forall a :: a in s.promises ==> s.promises[a] in s.batches && a in s.batches[s.promises[a]].addresses)
    && (forall b, a :: b in s.batches && a in s.batches[b].addresses ==> a in s.promises && s.promises[a] == b)
    && (forall b :: b in s.batches ==> b < s.nextBatch && NoDuplicates(s.batches[b].addresses))
  }

  /** The loading addresses are those of the batches still loading, each once. */
  ghost predicate LoadingInv(s: State) {
    && NoDuplicates(s.loadingAddresses)
    && (forall a :: a in s.loadingAddresses <==> IsLoading(s, a))
  }

  predicate IsLoading(s: State, a: Address) {
    a in s.promises && s.promises[a] in s.batches && s.batches[s.promises[a]].loading
  }

  ghost predicate RemembersSuccess(e: Entry, at: nat) {
    if e.updateFailedAt == 0 then at <= e.updatedAt else e.updateFailedAt > at + PERSIST_DOMAIN_FOR_IN_MS
  }

  ghost predicate RemembersFailure(e: Entry, at: nat) {
    if e.updateFailedAt == 0 then at <= e.updatedAt else at <= e.updateFailedAt
  }

  /** What the cache knows of one address: names come with a creation time, and lookups that ended are remembered. */
  ghost predicate CacheAt(s: State, a: Address) {
    && (a in s.domains && s.domains[a].names != map[] ==> s.domains[a].createdAt != 0)
    && (a in s.succeeded ==>
         s.succeeded[a] <= s.now && a in s.domains && RemembersSuccess(s.domains[a], s.succeeded[a]))
    && (a in s.failed ==> s.failed[a] <= s.now && a in s.domains && RemembersFailure(s.domains[a], s.failed[a]))
  }

  /** Outside the windows in which the last success and the last failure of a lookup are good. */
  ghost predicate OutsideWindows(s: State, a: Address) {
    && (a in s.succeeded ==> s.now > s.succeeded[a] + PERSIST_DOMAIN_FOR_IN_MS)
    && (a in s.failed ==> s.now > s.failed[a] + PERSIST_DOMAIN_FOR_FAILED_LOOKUP_IN_MS)
  }

  ghost predicate TimesInv(s: State) {
    && 0 < s.now
    && (forall a :: CacheAt(s, a))
    && (forall a :: a in s.loadingAddresses ==> OutsideWindows(s, a))
  }

  ghost predicate Inv(s: State) {
    PromisesInv(s) && LoadingInv(s) && TimesInv(s)
  }

  // ----- Steps

  lemma PastTtlIsOutsideWindows(s: State, a: Address)
    requires CacheAt(s, a) && IsPastTtl(s.domains, a, s.now)
    ensures OutsideWindows(s, a)
  {
    if a in s.succeeded {
      assert RemembersSuccess(s.domains[a], s.succeeded[a]);
    }
    if a in s.failed {
      assert RemembersFailure(s.domains[a], s.failed[a]);
    }
  }

  lemma FilterKeepsDistinct<T(!new)>(p: T -> bool, s: seq<T>)
    requires NoDuplicates(s)
    ensures NoDuplicates(Filter(p, s))
  {
    FilterDistinct(p, s, x => x);
  }

  lemma StartKeepsPromises(s: State, addresses: seq<Address>, services: seq<string>)
    requires PromisesInv(s) && NoDuplicates(addresses)
    requires forall a :: a in addresses ==> ShouldLookup(s, a)
    ensures PromisesInv(StartLookup(s, addresses, services))
  {
  }

  lemma StartKeepsLookups(s: State, addresses: seq<Address>, services: seq<string>)
    requires PromisesInv(s) && LoadingInv(s) && NoDuplicates(addresses)
    requires forall a :: a in addresses ==> ShouldLookup(s, a)
    ensures PromisesInv(StartLookup(s, addresses, services)) && LoadingInv(StartLookup(s, addresses, services))
  {
    StartKeepsPromises(s, addresses, services);
    StartKeepsLoading(s, addresses, services);
  }

  lemma StartKeepsLoading(s: State, addresses: seq<Address>, services: seq<string>)
    requires PromisesInv(s) && LoadingInv(s) && NoDuplicates(addresses)
    requires forall a :: a in addresses ==> ShouldLookup(s, a)
    ensures LoadingInv(StartLookup(s, addresses, services))
  {
    if addresses != [] {
      var t := StartLookup(s, addresses, services);
      ConcatDistinct(s.loadingAddresses, addresses);
      forall a ensures a in t.loadingAddresses <==> IsLoading(t, a) {
        assert a in t.loadingAddresses <==> a in s.loadingAddresses || a in addresses;
        if a !in addresses {
          assert IsLoading(t, a) <==> IsLoading(s, a);
        }
      }
    }
  }

  lemma StartKeepsTimes(s: State, addresses: seq<Address>, services: seq<string>)
    requires TimesInv(s)
    requires forall a :: a in addresses ==> ShouldLookup(s, a)
    ensures TimesInv(StartLookup(s, addresses, services))
  {
    var t := StartLookup(s, addresses, services);
    forall a ensures CacheAt(t, a) {
      assert CacheAt(s, a);
    }
    forall a | a in t.loadingAddresses ensures OutsideWindows(t, a) {
      assert CacheAt(s, a);
      if a in addresses {
        PastTtlIsOutsideWindows(s, a);
      }
      assert OutsideWindows(s, a);
    }
  }

  lemma {:induction false} EnteredAt(domains: map<Address, Entry>, addresses: seq<Address>, services: seq<string>,
                                     arrival: Arrival, now: nat, a: Address)
    requires NoDuplicates(addresses)
    ensures var d := EnterAll(domains, addresses, services, arrival, now);
            && (a in d <==> a in domains || a in addresses)
            && (a in d ==> d[a] == if a !in addresses then domains[a]
                                   else EntryAfter(domains, a, OutcomeOf(services, arrival, a), now))
  {
    if addresses != [] {
      EnteredAt(domains, addresses[..|addresses| - 1], services, arrival, now, a);
    }
  }

  lemma ArriveKeepsLookups(s: State, b: nat, arrival: Arrival)
    requires PromisesInv(s) && LoadingInv(s) && b in s.batches && s.batches[b].loading
    ensures PromisesInv(Arrive(s, b, arrival)) && LoadingInv(Arrive(s, b, arrival))
  {
    var t := Arrive(s, b, arrival);
    var addresses := s.batches[b].addresses;
    assert PromisesInv(t) by {
      assert t.promises == s.promises && t.batches == s.batches[b := s.batches[b].(loading := false)];
    }
    FilterKeepsDistinct(a => a !in addresses, s.loadingAddresses);
    forall a ensures a in t.loadingAddresses <==> IsLoading(t, a) {
      assert a in t.loadingAddresses <==> a in s.loadingAddresses && a !in addresses;
      assert IsLoading(t, a) <==> IsLoading(s, a) && s.promises[a] != b;
    }
  }

  lemma ArriveKeepsCacheAt(s: State, b: nat, arrival: Arrival, a: Address)
    requires b in s.batches && NoDuplicates(s.batches[b].addresses) && 0 < s.now
    requires CacheAt(s, a) && (a in s.batches[b].addresses ==> OutsideWindows(s, a))
    ensures CacheAt(Arrive(s, b, arrival), a)
  {
    EnteredAt(s.domains, s.batches[b].addresses, s.batches[b].services, arrival, s.now, a);
  }

  lemma ArriveKeepsTimes(s: State, b: nat, arrival: Arrival)
    requires Inv(s) && b in s.batches && s.batches[b].loading
    ensures TimesInv(Arrive(s, b, arrival))
  {
    var t := Arrive(s, b, arrival);
    var addresses := s.batches[b].addresses;
    forall a ensures CacheAt(t, a) {
      assert CacheAt(s, a);
      if a in addresses {
        assert IsLoading(s, a) && OutsideWindows(s, a);
      }
      ArriveKeepsCacheAt(s, b, arrival, a);
    }
    forall a | a in t.loadingAddresses ensures OutsideWindows(t, a) {
      assert a in s.loadingAddresses && a !in addresses && OutsideWindows(s, a);
    }
  }

  lemma EndBatchKeepsLookups(s: State, b: nat)
    requires PromisesInv(s) && LoadingInv(s) && b in s.batches && !s.batches[b].loading
    ensures PromisesInv(EndBatch(s, b)) && LoadingInv(EndBatch(s, b))
  {
    var t := EndBatch(s, b);
    assert forall a :: a in t.promises <==> a in s.promises && s.promises[a] != b;
    assert PromisesInv(t);
    forall a ensures a in t.loadingAddresses <==> IsLoading(t, a) {
      assert IsLoading(t, a) <==> IsLoading(s, a);
    }
  }

  /** Nothing the times depend on changes. */
  lemma TimesCarryOver(s: State, t: State)
    requires TimesInv(s)
    requires t.domains == s.domains && t.now == s.now && t.succeeded == s.succeeded && t.failed == s.failed
    requires t.loadingAddresses == s.loadingAddresses
    ensures TimesInv(t)
  {
    forall a ensures CacheAt(t, a) && (OutsideWindows(s, a) ==> OutsideWindows(t, a)) {
      assert CacheAt(s, a);
    }
  }

  lemma SaveKeepsInv(s: State, a: Address, service: string, name: string)
    requires Inv(s)
    ensures Inv(SaveResolved(s, a, service, name))
  {
    var t := SaveResolved(s, a, service, name);
    assert forall x :: IsLoading(t, x) <==> IsLoading(s, x);
    forall x ensures CacheAt(t, x) && (OutsideWindows(s, x) ==> OutsideWindows(t, x)) {
      assert CacheAt(s, x);
    }
  }

  lemma TickKeepsInv(s: State, to: nat)
    requires Inv(s) && s.now <= to
    ensures Inv(s.(now := to))
  {
    var t := s.(now := to);
    assert forall x :: IsLoading(t, x) <==> IsLoading(s, x);
    forall x ensures CacheAt(t, x) && (OutsideWindows(s, x) ==> OutsideWindows(t, x)) {
      assert CacheAt(s, x);
    }
  }

  lemma StartKeepsInv(s: State, addresses: seq<Address>, services: seq<string>)
    requires Inv(s) && NoDuplicates(addresses)
    requires forall a :: a in addresses ==> ShouldLookup(s, a)
    ensures Inv(StartLookup(s, addresses, services))
  {
    StartKeepsLookups(s, addresses, services);
    StartKeepsTimes(s, addresses, services);
  }

  lemma LookupBatchKeepsInv(s: State, raw: seq<Option<Address>>, services: seq<string>)
    requires Inv(s)
    ensures Inv(LookupBatch(s, raw, services))
  {
    DedupDistinct(ValidAddresses(raw));
    FilterKeepsDistinct(a => ShouldLookup(s, a), Normalize(raw));
    StartKeepsInv(s, AddressesToLookup(s, Normalize(raw)), services);
  }

  lemma StepKeepsInv(s: State, e: Event)
    requires Inv(s)
    ensures Inv(Step(s, e))
  {
    if Enabled(s, e) {
      match e
      case BatchLookup(raw, services) => LookupBatchKeepsInv(s, raw, services);
      case SingleLookup(raw, never, keepUpToDate, services) =>
        if LookupOne(s, raw, never, keepUpToDate, services) != s {
          StartKeepsInv(s, [raw.value], services);
        }
      case NamesArrive(b, arrival) =>
        ArriveKeepsLookups(s, b, arrival);
        ArriveKeepsTimes(s, b, arrival);
      case BatchPersisted(b) =>
        EndBatchKeepsLookups(s, b);
        TimesCarryOver(s, EndBatch(s, b));
      case DomainResolved(a, service, name) => SaveKeepsInv(s, a, service, name);
      case Tick(to) => TickKeepsInv(s, to);
    }
  }

  lemma {:induction false} RunKeepsInv(s: State, events: seq<Event>)
    requires Inv(s)
    ensures Inv(Run(s, events))
    decreases |events|
  {
    if events == [] {
    } else {
      StepKeepsInv(s, events[0]);
      RunKeepsInv(Step(s, events[0]), events[1..]);
    }
  }

  /** The cache a controller starts from: names only where a lookup has succeeded once. */
  ghost predicate WellFormedCache(domains: map<Address, Entry>) {
    forall a :: a in domains && domains[a].names != map[] ==> domains[a].createdAt != 0
  }

  ghost predicate InLoadingBatch(s: State, b: nat, a: Address) {
    b in s.batches && s.batches[b].loading && a in s.batches[b].addresses
  }

  lemma LoadingIsInABatch(s: State, a: Address)
    requires PromisesInv(s) && LoadingInv(s)
    ensures a in s.loadingAddresses <==> exists b :: InLoadingBatch(s, b, a)
  {
    if a in s.loadingAddresses {
      assert InLoadingBatch(s, s.promises[a], a);
    }
  }

  /**
   In every run no address is in two lookups, the loading addresses are without duplicates and are
   exactly those of the batches still loading.
   */
  lemma OneLookupPerAddress(domains: map<Address, Entry>, now: nat, events: seq<Event>)
    requires WellFormedCache(domains) && 0 < now
    ensures var s := Run(Initial(domains, now), events);
            && (forall b, d, a ::
                 b in s.batches && d in s.batches && a in s.batches[b].addresses && a in s.batches[d].addresses ==>
                 b == d)
            && (forall b :: b in s.batches ==> NoDuplicates(s.batches[b].addresses))
            && NoDuplicates(s.loadingAddresses)
            && (forall a :: a in s.loadingAddresses <==> exists b :: InLoadingBatch(s, b, a))
  {
    var init := Initial(domains, now);
    assert forall a :: CacheAt(init, a);
    RunKeepsInv(init, events);
    var s := Run(init, events);
    assert PromisesInv(s);
    forall b, d, a | b in s.batches && d in s.batches && a in s.batches[b].addresses && a in s.batches[d].addresses
      ensures b == d
    {
      assert s.promises[a] == b;
    }
    forall a ensures a in s.loadingAddresses <==> exists b :: InLoadingBatch(s, b, a) {
      LoadingIsInABatch(s, a);
    }
  }

  /** Only a lookup that starts makes an address loading, and it was not in flight. */
  lemma OnlyStartingLoads(s: State, e: Event, a: Address)
    requires a !in s.loadingAddresses && a in Step(s, e).loadingAddresses
    ensures ShouldLookup(s, a)
  {
  }

  /** No lookup of an address starts within 15 minutes of its last success or 5 of its last failure, in any run. */
  lemma NoLookupStartsInsideItsWindow(domains: map<Address, Entry>, now: nat, events: seq<Event>, e: Event, a: Address)
    requires WellFormedCache(domains) && 0 < now
    ensures var s := Run(Initial(domains, now), events);
            a !in s.loadingAddresses && a in Step(s, e).loadingAddresses ==> OutsideWindows(s, a) && a !in s.promises
  {
    var init := Initial(domains, now);
    assert forall x :: CacheAt(init, x);
    RunKeepsInv(init, events);
    var s := Run(init, events);
    if a !in s.loadingAddresses && a in Step(s, e).loadingAddresses {
      OnlyStartingLoads(s, e, a);
      assert CacheAt(s, a);
      PastTtlIsOutsideWindows(s, a);
    }
  }

  function NamesOf(domains: map<Address, Entry>, a: Address): Names {
    if a in domains then domains[a].names else map[]
  }

  /**
   Once replies arrive, an address for which the service of highest priority failed has the names it
   had, any other address of the batch has exactly what the services recorded, and the entries of all
   other addresses are untouched.
   */
  lemma NamesAfterArrival(s: State, b: nat, arrival: Arrival, a: Address)
    requires Inv(s) && b in s.batches
    ensures var t, batch := Arrive(s, b, arrival), s.batches[b];
            if a !in batch.addresses then
              (a in t.domains <==> a in s.domains) && (a in s.domains ==> t.domains[a] == s.domains[a])
            else if arrival.threw || PrimaryFails(batch.services, arrival.replies, a) then
              a in t.domains && NamesOf(t.domains, a) == NamesOf(s.domains, a) && t.domains[a].updateFailedAt == s.now
            else
              && a in t.domains && t.domains[a].updateFailedAt == 0 && t.domains[a].updatedAt == s.now
              && NamesOf(t.domains, a) == map r | r in batch.services :: RecordedName(arrival.replies, r, a)
  {
    assert CacheAt(s, a);
    EnteredAt(s.domains, s.batches[b].addresses, s.batches[b].services, arrival, s.now, a);
  }

  predicate HasName(domains: map<Address, Entry>, a: Address, service: string, name: string) {
    service in NamesOf(domains, a) && NamesOf(domains, a)[service] == Some(name)
  }

  /** The service was asked, did not fail, and gave the name. */
  predicate Answers(batch: Batch, arrival: Arrival, a: Address, service: string, name: string) {
    && service in batch.services
    && EntryOf(arrival.replies, service, a) == Some(NameEntry(Some(name), false))
  }

  /**
   A name known of a service survives an arrival if and only if the address is not in the batch, or its
   lookup failed as a whole, or that service answered the same name.
   */
  lemma NameSurvivesIff(s: State, b: nat, arrival: Arrival, a: Address, service: string, name: string)
    requires Inv(s) && b in s.batches && HasName(s.domains, a, service, name)
    ensures var batch := s.batches[b];
            HasName(Arrive(s, b, arrival).domains, a, service, name) <==>
            || a !in batch.addresses
            || arrival.threw
            || PrimaryFails(batch.services, arrival.replies, a)
            || Answers(batch, arrival, a, service, name)
  {
    NamesAfterArrival(s, b, arrival, a);
  }

  function Named(a: Address, name: string): Reply {
    Answered(map[a := NameEntry(Some(name), false)])
  }

  lemma OutcomeOfTwo(a: Address, primary: string, name: string, other: string, reply: Reply)
    requires primary != other && (reply == NoReply || exists n :: reply == Named(a, n))
    ensures OutcomeOf([primary, other], Arrival(map[primary := Named(a, name), other := reply], false), a) ==
            Resolved(map[primary := Some(name), other := if reply.NoReply? then None else reply.entries[a].name])
  {
    var replies := map[primary := Named(a, name), other := reply];
    var names := map r | r in [primary, other] :: RecordedName(replies, r, a);
    assert RecordedName(replies, primary, a) == Some(name);
    assert names.Keys == {primary, other};
  }

  /**
   So a service that fails beside one of higher priority that answers loses the name known of it, and no
   failure is noted: the address is not looked up again for 15 minutes.
   */
  lemma FailureOfOneServiceErases(s: State, b: nat, a: Address, primary: string, name: string, other: string,
                                  later: nat)
    requires Inv(s) && b in s.batches && primary != other && s.batches[b] == Batch([a], [primary, other], true)
    requires s.now <= later <= s.now + PERSIST_DOMAIN_FOR_IN_MS
    ensures var t := Arrive(s, b, Arrival(map[primary := Named(a, name), other := NoReply], false));
            && NamesOf(t.domains, a) == map[primary := Some(name), other := None]
            && t.domains[a].updateFailedAt == 0 && !IsPastTtl(t.domains, a, later)
  {
    var arrival := Arrival(map[primary := Named(a, name), other := NoReply], false);
    OutcomeOfTwo(a, primary, name, other, NoReply);
    assert CacheAt(s, a);
    EnteredAt(s.domains, [a], [primary, other], arrival, s.now, a);
  }

  /** The first lookup of an address, which both services answer. */
  lemma FirstLookup(s: State, a: Address, primary: string, name: string, other: string, known: string)
    requires s == Initial(map[], 1) && primary != other
    ensures var services := [primary, other];
            var t := EndBatch(Arrive(LookupBatch(s, [Some(a)], services), 0,
                                     Arrival(map[primary := Named(a, name), other := Named(a, known)], false)), 0);
            && Inv(t) && a !in t.loadingAddresses && a !in t.promises && t.now == 1 && t.nextBatch == 1
            && a in t.domains && t.domains[a] == Entry(map[primary := Some(name), other := Some(known)], 1, 1, 0)
  {
    var services := [primary, other];
    var arrival := Arrival(map[primary := Named(a, name), other := Named(a, known)], false);
    assert forall x :: CacheAt(s, x);
    StartOne(s, a, services);
    var s1 := LookupBatch(s, [Some(a)], services);
    LookupBatchKeepsInv(s, [Some(a)], services);
    OutcomeOfTwo(a, primary, name, other, Named(a, known));
    EnteredAt(s1.domains, [a], services, arrival, s1.now, a);
    ArriveKeepsLookups(s1, 0, arrival);
    ArriveKeepsTimes(s1, 0, arrival);
    var s2 := Arrive(s1, 0, arrival);
    EndBatchKeepsLookups(s2, 0);
    TimesCarryOver(s2, EndBatch(s2, 0));
  }

  lemma RunOfLookup(s: State, raw: seq<Option<Address>>, services: seq<string>, arrival: Arrival)
    requires var t := LookupBatch(s, raw, services); 0 in t.batches && t.batches[0].loading
    ensures Run(s, [BatchLookup(raw, services), NamesArrive(0, arrival), BatchPersisted(0)]) ==
            EndBatch(Arrive(LookupBatch(s, raw, services), 0, arrival), 0)
  {
    var a, b, c := BatchLookup(raw, services), NamesArrive(0, arrival), BatchPersisted(0);
    var s1 := LookupBatch(s, raw, services);
    var s2 := Arrive(s1, 0, arrival);
    assert [a, b, c][1..] == [b, c] && [b, c][1..] == [c] && [c][1..] == [];
    assert Step(s, a) == s1;
    assert Step(s1, b) == s2;
    assert Step(s2, c) == EndBatch(s2, 0);
    assert Run(s2, [c]) == EndBatch(s2, 0);
    assert Run(s1, [b, c]) == Run(s2, [c]);
  }

  /** The same as a run: ask, hear from both services, persist. */
  lemma FirstRun(a: Address, primary: string, name: string, other: string, known: string)
    requires primary != other
    ensures var both := Arrival(map[primary := Named(a, name), other := Named(a, known)], false);
            var t := Run(Initial(map[], 1),
              [BatchLookup([Some(a)], [primary, other]), NamesArrive(0, both), BatchPersisted(0)]);
            && Inv(t) && a !in t.loadingAddresses && a !in t.promises && t.now == 1 && t.nextBatch == 1
            && a in t.domains && t.domains[a] == Entry(map[primary := Some(name), other := Some(known)], 1, 1, 0)
  {
    var s0, services := Initial(map[], 1), [primary, other];
    var both := Arrival(map[primary := Named(a, name), other := Named(a, known)], false);
    StartOne(s0, a, services);
    assert LookupBatch(s0, [Some(a)], services).batches == map[0 := Batch([a], services, true)];
    RunOfLookup(s0, [Some(a)], services, both);
    FirstLookup(s0, a, primary, name, other, known);
  }

  /** More than 15 minutes later the address is looked up again. */
  lemma AskedAgain(s: State, a: Address, services: seq<string>)
    requires Inv(s) && a !in s.loadingAddresses && a !in s.promises && s.now == 1 && s.nextBatch == 1
    requires a in s.domains && s.domains[a].updatedAt == 1 && s.domains[a].updateFailedAt == 0
    ensures var t := LookupBatch(s.(now := 1000000), [Some(a)], services);
            && Inv(t) && t.domains == s.domains && t.now == 1000000
            && 1 in t.batches && t.batches[1] == Batch([a], services, true)
  {
    TickKeepsInv(s, 1000000);
    StartOne(s.(now := 1000000), a, services);
    LookupBatchKeepsInv(s.(now := 1000000), [Some(a)], services);
  }

  /** Such a loss is reached: both services answer, 15 minutes pass, and then only the first one answers. */
  lemma NameOfOneServiceIsLost(a: Address, primary: string, name: string, other: string, known: string)
    requires primary != other
    ensures var asked := BatchLookup([Some(a)], [primary, other]);
            var both := Arrival(map[primary := Named(a, name), other := Named(a, known)], false);
            var one := Arrival(map[primary := Named(a, name), other := NoReply], false);
            var s := Run(Initial(map[], 1), [asked, NamesArrive(0, both), BatchPersisted(0)]);
            var t := LookupBatch(s.(now := 1000000), [Some(a)], [primary, other]);
            && HasName(t.domains, a, other, known) && Enabled(t, NamesArrive(1, one))
            && NamesOf(Arrive(t, 1, one).domains, a) == map[primary := Some(name), other := None]
  {
    var both := Arrival(map[primary := Named(a, name), other := Named(a, known)], false);
    FirstRun(a, primary, name, other, known);
    var s := Run(Initial(map[], 1),
      [BatchLookup([Some(a)], [primary, other]), NamesArrive(0, both), BatchPersisted(0)]);
    AskedAgain(s, a, [primary, other]);
    var t := LookupBatch(s.(now := 1000000), [Some(a)], [primary, other]);
    FailureOfOneServiceErases(t, 1, a, primary, name, other, t.now);
  }

  lemma OneAddress(a: Address)
    ensures Normalize([Some(a)]) == [a]
  {
    assert [Some(a)][..0] == [];
    assert ValidAddresses([Some(a)]) == [a];
    assert [a][..0] == [];
  }

  lemma StartOne(s: State, a: Address, services: seq<string>)
    requires ShouldLookup(s, a)
    ensures LookupBatch(s, [Some(a)], services) == StartLookup(s, [a], services)
  {
    OneAddress(a);
    FilterAppend(x => ShouldLookup(s, x), [], a);
    assert [] + [a] == [a];
  }

  /** A batch request leaves every address that needs a lookup in a lookup in flight, so its caller can wait for it. */
  lemma NobodyReturnsEarly(s: State, raw: seq<Option<Address>>, services: seq<string>, a: Address)
    requires Inv(s) && Some(a) in raw && IsPastTtl(s.domains, a, s.now)
    ensures var t := LookupBatch(s, raw, services);
            a in t.promises && t.promises[a] in t.batches && a in t.batches[t.promises[a]].addresses
  {
    LookupBatchKeepsInv(s, raw, services);
    assert a in Normalize(raw);
    if a !in s.promises {
      assert a !in s.loadingAddresses by {
        assert !IsLoading(s, a);
      }
      assert a in AddressesToLookup(s, Normalize(raw));
    }
  }
}
