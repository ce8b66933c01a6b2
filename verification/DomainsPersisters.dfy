/**
 The coalescing persister of the domains controller (src/controllers/domains/domains.ts).

 The controller always stores its one `domains` object, so a state of it is named by the number of
 changes made so far. The storage layer keeps a reference and serialises it later: a write that
 succeeds may store any state the object had between the start of the write and its end.
 */
module DomainsPersisters {
  import opened Wrappers

  datatype State = State(
    hasStorage: bool,
    version: nat,
    persisting: bool,
    persistScheduled: bool,
    // what storage does and remembers
    inFlight: seq<nat>,
    started: nat,
    stored: nat,
    lastWriteOk: bool,
    // the state at the last persist request
    requested: nat)

  datatype Event = Change | Request | WriteEnds(index: nat, ok: bool, stores: nat)

  /** Storage starts with the state the controller loads. */
  function Initial(hasStorage: bool): State {
    State(hasStorage, 0, false, false, [], 0, 0, true, 0)
  }

  function Persist(s: State): State {
    if !s.hasStorage then s
    else if s.persisting then s.(persistScheduled := true)
    else s.(persisting := true, inFlight := s.inFlight + [s.version], started := s.started + 1)
  }

  predicate Enabled(s: State, e: Event) {
    e.WriteEnds? ==> e.index < |s.inFlight| && s.inFlight[e.index] <= e.stores <= s.version
  }

  function EndWrite(s: State, index: nat, ok: bool, stores: nat): State
    requires index < |s.inFlight|
  {
    var s1 := s.(inFlight := s.inFlight[..index] + s.inFlight[index + 1..],
                 stored := if ok then stores else s.stored, lastWriteOk := ok, persisting := false);
    if s.persistScheduled then Persist(s1.(persistScheduled := false)) else s1
  }

  function Step(s: State, e: Event): State {
    if !Enabled(s, e) then s
    else
      match e
      case Change => s.(version := s.version + 1)
      case Request => Persist(s.(requested := s.version))
      case WriteEnds(index, ok, stores) => EndWrite(s, index, ok, stores)
  }

  function Run(s: State, events: seq<Event>): State
    decreases |events|
  {
    if events == [] then s else Run(Step(s, events[0]), events[1..])
  }

  // ----- The class of the source

  class Persister {
    const hasStorage: bool
    var version: nat
    var persisting: bool
    var persistScheduled: bool
    var inFlight: seq<nat>
    var started: nat
    var stored: nat
    var lastWriteOk: bool
    ghost var requested: nat

    ghost function View(): State
      reads this
    {
      State(hasStorage, version, persisting, persistScheduled, inFlight, started, stored, lastWriteOk, requested)
    }

    constructor (hasStorage: bool)
      ensures View() == Initial(hasStorage)
    {
      this.hasStorage := hasStorage;
      version, persisting, persistScheduled, inFlight, started := 0, false, false, [], 0;
      stored, lastWriteOk, requested := 0, true, 0;
    }

    /** `#persistDomains` up to its await. */
    method PersistDomains()
      modifies this
      ensures View() == Persist(old(View()))
    {
      if !hasStorage { return; }
      if persisting {
        persistScheduled := true;
        return;
      }
      persisting := true;
      inFlight := inFlight + [version];
      started := started + 1;
    }

    method RequestPersist()
      modifies this
      ensures View() == Step(old(View()), Request)
    {
      requested := version;
      PersistDomains();
    }

    /** The `catch` and `finally` of `#persistDomains`, when a write has ended. */
    method AfterWrite(index: nat, ok: bool, stores: nat)
      requires Enabled(View(), WriteEnds(index, ok, stores))
      modifies this
      ensures View() == Step(old(View()), WriteEnds(index, ok, stores))
    {
      inFlight := inFlight[..index] + inFlight[index + 1..];
      if ok {
        stored := stores;
      }
      lastWriteOk := ok;
      persisting := false;
      if persistScheduled {
        persistScheduled := false;
        PersistDomains();
      }
    }
  }

  // ----- What every run keeps

  ghost predicate Inv(s: State) {
    && s.hasStorage
    && |s.inFlight| == (if s.persisting then 1 else 0)
    && (s.persistScheduled ==> s.persisting)
    && s.requested <= s.version && s.stored <= s.version
    && (s.persisting ==> s.inFlight[0] <= s.version)
    && (s.persisting && !s.persistScheduled ==> s.requested <= s.inFlight[0])
    && (!s.persisting && s.lastWriteOk ==> s.requested <= s.stored)
  }

  lemma StepKeepsInv(s: State, e: Event)
    requires Inv(s)
    ensures Inv(Step(s, e))
  {
  }

  lemma {:induction false} RunKeepsInv(s: State, events: seq<Event>)
    requires Inv(s)
    ensures Inv(Run(s, events))
    decreases |events|
  {
    if events == [] {
    } else {
      StepKeepsInv(s, events[0]);
      RunKeepsInv(Step(s, events[0]), events[1..]);
    }
  }

  /**
   In every run at most one write is in flight. Whenever none is and the last one succeeded, storage
   holds a state no older than the last request and no newer than now; so when nothing changed since
   the last request, storage holds exactly the present state.
   */
  lemma IdleStorageIsCurrent(events: seq<Event>)
    ensures var s := Run(Initial(true), events);
            && |s.inFlight| <= 1
            && (s.inFlight == [] && s.lastWriteOk ==>
                  s.requested <= s.stored <= s.version && (s.requested == s.version ==> s.stored == s.version))
  {
    RunKeepsInv(Initial(true), events);
  }

  /** However many requests come during a write, they cost one further write; none cost none. */
  lemma {:induction false} RequestsCoalesce(s: State, events: seq<Event>, ok: bool, stores: nat)
    requires Inv(s) && s.persisting
    requires forall e :: e in events ==> !e.WriteEnds?
    requires s.inFlight[0] <= stores <= Run(s, events).version
    ensures var t := Run(s, events);
            var u := Step(t, WriteEnds(0, ok, stores));
            var requested := s.persistScheduled || Request in events;
            && t.inFlight == s.inFlight && t.started == s.started
            && u.started == s.started + (if requested then 1 else 0)
            && u.inFlight == (if requested then [t.version] else [])
    decreases |events|
  {
    if events == [] {
    } else {
      assert events[0] in events;
      StepKeepsInv(s, events[0]);
      RequestsCoalesce(Step(s, events[0]), events[1..], ok, stores);
      assert Request in events <==> events[0] == Request || Request in events[1..];
    }
  }
}
