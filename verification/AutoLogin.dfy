/**
 Auto-login policies (src/controllers/autoLogin/autoLogin.ts): which sign-in messages (ERC-4361,
 section "Message Fields") may be signed again without asking (ERC-8019).

 A chain id of 0 stands for a missing one; the source treats the two alike. No default policies
 exist. `log` remembers what was signed with consent and what was revoked; no policy reads it.

 Revocations run one at a time, under the status lock of the controller: one that is asked for while
 another is in progress is refused.
 */
module AutoLogin {
  import opened Wrappers
  import opened Sequences

  type Address = string

  datatype Message = Message(address: Address, domain: string, uri: string, chainId: nat,
                             resources: Option<seq<string>>)

  datatype Policy = Policy(
    domain: string,
    uriPrefix: string,
    allowedChains: seq<nat>,
    allowedResources: seq<string>,
    supportsEIP6492: bool,
    expiresAt: nat,
    lastAuthenticated: nat)

  datatype KeyType = Internal | External

  datatype Status = NoPolicy | Expired | ValidPolicy | Unsupported

  datatype Deed =
    | Signed(message: Message, at: nat, duration: nat)
    | Revoked(account: Address, domain: string, uriPrefix: string)
    | RevokedForAll(domain: string, uriPrefix: string)

  datatype Revocation =
    | OfAccount(account: Address, domain: string, uriPrefix: string)
    | OfAll(domain: string, uriPrefix: string)

  /** A revocation is accepted, takes effect once its status was shown, and ends once it is stored. */
  datatype Lock = Free | Asked(revocation: Revocation) | Storing

  datatype State = State(policies: map<Address, seq<Policy>>, duration: nat, now: nat, log: seq<Deed>, lock: Lock)

  datatype Event =
    | MessageSigned(message: Message, optedIn: bool, duration: nat)
    | AskToRevoke(revocation: Revocation)
    | RevocationRuns
    | RevocationEnds
    | Tick(to: nat)

  function Policies(s: State, account: Address): seq<Policy> {
    if account in s.policies then s.policies[account] else []
  }

  predicate MatchesDomainAndUri(p: Policy, domain: string, uri: string) {
    p.domain == domain && p.uriPrefix <= uri
  }

  predicate IsExpired(p: Policy, now: nat) {
    p.expiresAt != 0 && now > p.expiresAt
  }

  function NewPolicy(m: Message, expiresAt: nat, now: nat): Policy {
    Policy(m.domain, m.uri, if m.chainId != 0 then [m.chainId] else [], m.resources.GetOr([]), false, expiresAt, now)
  }

  function UpdatedPolicy(p: Policy, m: Message, expiresAt: nat, now: nat): Policy {
    p.(expiresAt := expiresAt,
       lastAuthenticated := now,
       allowedChains := if m.chainId in p.allowedChains then p.allowedChains else p.allowedChains + [m.chainId],
       allowedResources :=
         if m.resources.Some? then Dedup(p.allowedResources + m.resources.value) else p.allowedResources)
  }

  /** The account's policies after a message was signed with consent. */
  function Record(list: seq<Policy>, m: Message, expiresAt: nat, now: nat): seq<Policy> {
    match FindIndex(p => MatchesDomainAndUri(p, m.domain, m.uri), list)
    case None => list + [NewPolicy(m, expiresAt, now)]
    case Some(i) => list[i := UpdatedPolicy(list[i], m, expiresAt, now)]
  }

  function EffectiveDuration(s: State, duration: nat): nat {
    if duration != 0 then duration else s.duration
  }

  function Sign(s: State, m: Message, optedIn: bool, duration: nat): State {
    if !optedIn then s
    else
      var d := EffectiveDuration(s, duration);
      s.(policies := s.policies[m.address := Record(Policies(s, m.address), m, s.now + d, s.now)],
         log := s.log + [Signed(m, s.now, d)])
  }

  function Without(list: seq<Policy>, domain: string, uriPrefix: string): seq<Policy> {
    Filter((p: Policy) => !(p.domain == domain && p.uriPrefix == uriPrefix), list)
  }

  function Revoke(s: State, account: Address, domain: string, uriPrefix: string): State {
    var t := s.(log := s.log + [Revoked(account, domain, uriPrefix)]);
    if Policies(s, account) == [] then t
    else t.(policies := s.policies[account := Without(Policies(s, account), domain, uriPrefix)])
  }

  function RevokeAll(s: State, domain: string, uriPrefix: string): State {
    s.(policies := map a | a in s.policies :: Without(s.policies[a], domain, uriPrefix),
       log := s.log + [RevokedForAll(domain, uriPrefix)])
  }

  function Apply(s: State, r: Revocation): State {
    match r
    case OfAccount(account, domain, uriPrefix) => Revoke(s, account, domain, uriPrefix)
    case OfAll(domain, uriPrefix) => RevokeAll(s, domain, uriPrefix)
  }

  function Step(s: State, e: Event): State {
    match e
    case MessageSigned(m, optedIn, duration) => Sign(s, m, optedIn, duration)
    case AskToRevoke(r) => if s.lock.Free? then s.(lock := Asked(r)) else s
    case RevocationRuns => if s.lock.Asked? then Apply(s, s.lock.revocation).(lock := Storing) else s
    case RevocationEnds => if s.lock.Storing? then s.(lock := Free) else s
    case Tick(to) => if s.now <= to then s.(now := to) else s
  }

  function Run(s: State, events: seq<Event>): State
    decreases |events|
  {
    if events == [] then s else Run(Step(s, events[0]), events[1..])
  }

  /** The strict match of a status query: the message asks for nothing that the policy does not allow. */
  predicate Allows(p: Policy, m: Message) {
    && MatchesDomainAndUri(p, m.domain, m.uri)
    && (m.chainId != 0 ==> m.chainId in p.allowedChains)
    && forall r :: r in m.resources.GetOr([]) ==> r in p.allowedResources
  }

  function PolicyStatus(s: State, m: Message, keys: seq<KeyType>, isSafe: bool): Status {
    if isSafe then Unsupported
    else
      var list := Policies(s, m.address);
      var i := FindIndex(p => Allows(p, m), list);
      if keys == [] || (External in keys && !(i.Some? && list[i.value].supportsEIP6492)) then Unsupported
      else if i.None? then NoPolicy
      else if IsExpired(list[i.value], s.now) then Expired
      else ValidPolicy
  }

  // ----- The class of the source

  class AutoLoginController {
    var policiesByAccount: map<Address, seq<Policy>>
    const duration: nat
    var now: nat
    var lock: Lock
    ghost var log: seq<Deed>

    ghost function View(): State
      reads this
    {
      State(policiesByAccount, duration, now, log, lock)
    }

    constructor (policies: map<Address, seq<Policy>>, duration: nat, now: nat)
      ensures View() == State(policies, duration, now, [], Free)
    {
      policiesByAccount, this.duration, this.now, log, lock := policies, duration, now, [], Free;
    }

    method OnSiweMessageSigned(m: Message, optedIn: bool, autoLoginDuration: nat) returns (r: Option<Policy>)
      modifies this
      ensures View() == Sign(old(View()), m, optedIn, autoLoginDuration)
      ensures r.Some? <==> optedIn
      ensures r.Some? ==> r.value in Policies(View(), m.address) && Allows(r.value, m)
    {
      if !optedIn { return None; }
      var policy := CreateOrUpdatePolicyFromSiwe(m, autoLoginDuration);
      log := log + [Signed(m, now, EffectiveDuration(View(), autoLoginDuration))];
      return Some(policy);
    }

    method CreateOrUpdatePolicyFromSiwe(m: Message, autoLoginDuration: nat) returns (policy: Policy)
      modifies this`policiesByAccount
      ensures policiesByAccount == old(policiesByAccount)[m.address :=
        Record(Policies(old(View()), m.address), m, now + EffectiveDuration(View(), autoLoginDuration), now)]
      ensures policy in policiesByAccount[m.address] && Allows(policy, m)
    {
      var d := if autoLoginDuration != 0 then autoLoginDuration else duration;
      var expirationTime := now + d;
      if m.address !in policiesByAccount {
        policiesByAccount := policiesByAccount[m.address := []];
      }
      var accountPolicies := policiesByAccount[m.address];
      var existing := FindIndex(p => MatchesDomainAndUri(p, m.domain, m.uri), accountPolicies);
      if existing.None? {
        var chains := if m.chainId != 0 then [m.chainId] else [];
        policy := Policy(m.domain, m.uri, chains, m.resources.GetOr([]), false, expirationTime, now);
        policiesByAccount := policiesByAccount[m.address := accountPolicies + [policy]];
        assert policy == policiesByAccount[m.address][|accountPolicies|];
        return;
      }
      policy := Refreshed(accountPolicies[existing.value], m, expirationTime);
      policiesByAccount := policiesByAccount[m.address := accountPolicies[existing.value := policy]];
      assert policy == policiesByAccount[m.address][existing.value];
    }

    /** The update of an existing policy. */
    method Refreshed(existing: Policy, m: Message, expirationTime: nat) returns (policy: Policy)
      ensures policy == UpdatedPolicy(existing, m, expirationTime, now)
    {
      policy := existing.(expiresAt := expirationTime, lastAuthenticated := now);
      if m.chainId !in policy.allowedChains {
        policy := policy.(allowedChains := policy.allowedChains + [m.chainId]);
      }
      if m.resources.Some? {
        policy := policy.(allowedResources := Dedup(policy.allowedResources + m.resources.value));
      }
    }

    /** `revokePolicy` and `revokeAllPoliciesForDomain` up to their bodies. */
    method Ask(r: Revocation)
      modifies this`lock
      ensures View() == Step(old(View()), AskToRevoke(r))
    {
      if lock.Free? { lock := Asked(r); }
    }

    /** The body of the one that was accepted, up to its write. */
    method RunRevocation()
      modifies this
      ensures View() == Step(old(View()), RevocationRuns)
    {
      match lock
      case Asked(OfAccount(account, domain, uriPrefix)) =>
        RevokeOne(account, domain, uriPrefix);
        lock := Storing;
      case Asked(OfAll(domain, uriPrefix)) =>
        RevokeAllPoliciesForDomain(domain, uriPrefix);
        lock := Storing;
      case _ =>
    }

    method RevokeOne(account: Address, domain: string, uriPrefix: string)
      modifies this
      ensures View() == Revoke(old(View()), account, domain, uriPrefix)
    {
      log := log + [Revoked(account, domain, uriPrefix)];
      var accountPolicies := if account in policiesByAccount then policiesByAccount[account] else [];
      if |accountPolicies| == 0 { return; }
      policiesByAccount := policiesByAccount[account :=
        Filter((p: Policy) => !(p.domain == domain && p.uriPrefix == uriPrefix), accountPolicies)];
    }

    method RevokeAllPoliciesForDomain(domain: string, uriPrefix: string)
      modifies this
      ensures View() == RevokeAll(old(View()), domain, uriPrefix)
    {
      log := log + [RevokedForAll(domain, uriPrefix)];
      ghost var was := policiesByAccount;
      var accounts := policiesByAccount.Keys;
      while accounts != {}
        invariant policiesByAccount.Keys == was.Keys && accounts <= was.Keys
        invariant forall a :: a in was ==>
          policiesByAccount[a] == if a in accounts then was[a] else Without(was[a], domain, uriPrefix)
        invariant log == old(log) + [RevokedForAll(domain, uriPrefix)] && now == old(now) && lock == old(lock)
        decreases |accounts|
      {
        var account :| account in accounts;
        accounts := accounts - {account};
        var accountPolicies := policiesByAccount[account];
        if |accountPolicies| != 0 {
          policiesByAccount := policiesByAccount[account :=
            Filter((p: Policy) => !(p.domain == domain && p.uriPrefix == uriPrefix), accountPolicies)];
        }
      }
      assert policiesByAccount == RevokeAll(old(View()), domain, uriPrefix).policies;
    }
  }

  // ----- No earlier policy covers a later one

  ghost predicate NothingCovered(list: seq<Policy>) {
    forall i, j :: 0 <= i < j < |list| ==> !MatchesDomainAndUri(list[i], list[j].domain, list[j].uriPrefix)
  }

  ghost predicate CoverInv(s: State) {
    forall a :: a in s.policies ==> NothingCovered(s.policies[a])
  }

  lemma RecordKeepsOrder(list: seq<Policy>, m: Message, expiresAt: nat, now: nat)
    requires NothingCovered(list)
    ensures NothingCovered(Record(list, m, expiresAt, now))
  {
    var after := Record(list, m, expiresAt, now);
    var i := FindIndex(p => MatchesDomainAndUri(p, m.domain, m.uri), list);
    forall j, k | 0 <= j < k < |after| ensures !MatchesDomainAndUri(after[j], after[k].domain, after[k].uriPrefix) {
      if i.None? && k == |list| {
        assert list[j] in list;
      } else {
        assert !MatchesDomainAndUri(list[j], list[k].domain, list[k].uriPrefix);
      }
    }
  }

  lemma WithoutKeepsOrder(list: seq<Policy>, domain: string, uriPrefix: string)
    requires NothingCovered(list)
    ensures NothingCovered(Without(list, domain, uriPrefix))
  {
    FilterPairwise((p: Policy) => !(p.domain == domain && p.uriPrefix == uriPrefix), list,
                   (p: Policy, q: Policy) => !MatchesDomainAndUri(p, q.domain, q.uriPrefix));
  }

  lemma ApplyKeepsCover(s: State, r: Revocation)
    requires CoverInv(s)
    ensures CoverInv(Apply(s, r))
  {
    match r
    case OfAccount(account, domain, uriPrefix) =>
      assert NothingCovered(Policies(s, account));
      WithoutKeepsOrder(Policies(s, account), domain, uriPrefix);
    case OfAll(domain, uriPrefix) =>
      forall a | a in s.policies ensures NothingCovered(Without(s.policies[a], domain, uriPrefix)) {
        WithoutKeepsOrder(s.policies[a], domain, uriPrefix);
      }
  }

  lemma StepKeepsCover(s: State, e: Event)
    requires CoverInv(s)
    ensures CoverInv(Step(s, e))
  {
    match e
    case MessageSigned(m, optedIn, duration) =>
      assert NothingCovered(Policies(s, m.address));
      RecordKeepsOrder(Policies(s, m.address), m, s.now + EffectiveDuration(s, duration), s.now);
    case RevocationRuns =>
      if s.lock.Asked? { ApplyKeepsCover(s, s.lock.revocation); }
    case _ =>
  }

  /** In every run no policy of an account covers a later one of the same domain. */
  lemma {:induction false} RunKeepsCover(s: State, events: seq<Event>)
    requires CoverInv(s)
    ensures CoverInv(Run(s, events))
    decreases |events|
  {
    if events == [] {
    } else {
      StepKeepsCover(s, events[0]);
      RunKeepsCover(Step(s, events[0]), events[1..]);
    }
  }

  /** So a revocation takes away at most one policy of an account: the one it names, if there. */
  lemma RevocationRemovesAtMostOne(s: State, events: seq<Event>, account: Address, domain: string, uriPrefix: string)
    requires CoverInv(s)
    ensures var t := Run(s, events);
            var before, after := Policies(t, account), Policies(Revoke(t, account, domain, uriPrefix), account);
            && |after| >= |before| - 1
            && (forall p :: p in after <==> p in before && !(p.domain == domain && p.uriPrefix == uriPrefix))
            && ((forall p :: p in before ==> !(p.domain == domain && p.uriPrefix == uriPrefix)) ==> after == before)
  {
    RunKeepsCover(s, events);
    var list := Policies(Run(s, events), account);
    assert NothingCovered(list);
    var keep := (p: Policy) => !(p.domain == domain && p.uriPrefix == uriPrefix);
    forall i, j | 0 <= i < j < |list| ensures keep(list[i]) || keep(list[j]) {
      assert !MatchesDomainAndUri(list[i], list[j].domain, list[j].uriPrefix);
    }
    FilterRemovesAtMostOne(keep, list);
  }

  // ----- Where permissions come from

  datatype Grant = Creation | Chain(chainId: nat) | Resource(name: string) | Until(time: nat)

  /** What a signed message permits. */
  predicate Grants(d: Deed, g: Grant)
    requires d.Signed?
  {
    match g
    case Creation => true
    case Chain(c) => d.message.chainId == c
    case Resource(r) => r in d.message.resources.GetOr([])
    case Until(time) => time == d.at + d.duration
  }

  predicate Revokes(d: Deed, account: Address, domain: string, uriPrefix: string) {
    match d
    case Signed(_, _, _) => false
    case Revoked(a, dom, prefix) => a == account && dom == domain && prefix == uriPrefix
    case RevokedForAll(dom, prefix) => dom == domain && prefix == uriPrefix
  }

  /**
   Deed `i` is a message of the account, for the domain and below the prefix, that permits `g` and was not
   revoked since.
   */
  ghost predicate IsSource(log: seq<Deed>, i: int, account: Address, domain: string, uriPrefix: string, g: Grant) {
    && 0 <= i < |log| && log[i].Signed?
    && log[i].message.address == account && log[i].message.domain == domain && uriPrefix <= log[i].message.uri
    && Grants(log[i], g)
    && forall j :: i < j < |log| ==> !Revokes(log[j], account, domain, uriPrefix)
  }

  ghost predicate HasSource(log: seq<Deed>, account: Address, domain: string, uriPrefix: string, g: Grant) {
    exists i :: IsSource(log, i, account, domain, uriPrefix, g)
  }

  predicate Holds(p: Policy, g: Grant) {
    match g
    case Creation => true
    case Chain(c) => c in p.allowedChains
    case Resource(r) => r in p.allowedResources
    case Until(time) => p.expiresAt == time
  }

  /** Everything a policy permits was permitted by a message. */
  ghost predicate PolicySourced(log: seq<Deed>, account: Address, p: Policy) {
    forall g :: Holds(p, g) ==> HasSource(log, account, p.domain, p.uriPrefix, g)
  }

  ghost predicate SourceInv(s: State) {
    forall a, p :: p in Policies(s, a) ==> PolicySourced(s.log, a, p)
  }

  lemma SourceStays(log: seq<Deed>, d: Deed, account: Address, domain: string, uriPrefix: string, g: Grant)
    requires HasSource(log, account, domain, uriPrefix, g) && !Revokes(d, account, domain, uriPrefix)
    ensures HasSource(log + [d], account, domain, uriPrefix, g)
  {
    var i :| IsSource(log, i, account, domain, uriPrefix, g);
    assert IsSource(log + [d], i, account, domain, uriPrefix, g);
  }

  lemma SourcesStay(log: seq<Deed>, d: Deed, account: Address, p: Policy)
    requires PolicySourced(log, account, p) && !Revokes(d, account, p.domain, p.uriPrefix)
    ensures PolicySourced(log + [d], account, p)
  {
    forall g | Holds(p, g) ensures HasSource(log + [d], account, p.domain, p.uriPrefix, g) {
      SourceStays(log, d, account, p.domain, p.uriPrefix, g);
    }
  }

  lemma NewPolicyIsSourced(log: seq<Deed>, m: Message, at: nat, duration: nat)
    ensures PolicySourced(log + [Signed(m, at, duration)], m.address, NewPolicy(m, at + duration, at))
  {
    var p, after := NewPolicy(m, at + duration, at), log + [Signed(m, at, duration)];
    forall g | Holds(p, g) ensures HasSource(after, m.address, p.domain, p.uriPrefix, g) {
      assert IsSource(after, |log|, m.address, p.domain, p.uriPrefix, g);
    }
  }

  lemma UpdatedPolicyIsSourced(log: seq<Deed>, p: Policy, m: Message, at: nat, duration: nat)
    requires PolicySourced(log, m.address, p) && MatchesDomainAndUri(p, m.domain, m.uri)
    ensures PolicySourced(log + [Signed(m, at, duration)], m.address, UpdatedPolicy(p, m, at + duration, at))
  {
    var q, d := UpdatedPolicy(p, m, at + duration, at), Signed(m, at, duration);
    forall g | Holds(q, g) ensures HasSource(log + [d], m.address, p.domain, p.uriPrefix, g) {
      if Grants(d, g) {
        assert IsSource(log + [d], |log|, m.address, p.domain, p.uriPrefix, g);
      } else {
        assert Holds(p, g);
        SourceStays(log, d, m.address, p.domain, p.uriPrefix, g);
      }
    }
  }

  lemma SignKeepsSources(s: State, m: Message, duration: nat)
    requires SourceInv(s)
    ensures SourceInv(Sign(s, m, true, duration))
  {
    var t, d := Sign(s, m, true, duration), EffectiveDuration(s, duration);
    var list := Policies(s, m.address);
    forall a, p | p in Policies(t, a) ensures PolicySourced(t.log, a, p) {
      if p in Policies(s, a) {
        SourcesStay(s.log, Signed(m, s.now, d), a, p);
      } else {
        assert a == m.address && p in Record(list, m, s.now + d, s.now);
        match FindIndex(p => MatchesDomainAndUri(p, m.domain, m.uri), list)
        case None => NewPolicyIsSourced(s.log, m, s.now, d);
        case Some(i) =>
          assert p == UpdatedPolicy(list[i], m, s.now + d, s.now);
          assert list[i] in list;
          UpdatedPolicyIsSourced(s.log, list[i], m, s.now, d);
      }
    }
  }

  lemma ApplyKeepsSources(s: State, r: Revocation)
    requires SourceInv(s)
    ensures SourceInv(Apply(s, r))
  {
    var t := Apply(s, r);
    match r
    case OfAccount(account, domain, uriPrefix) =>
      forall a, p | p in Policies(t, a) ensures PolicySourced(t.log, a, p) {
        assert p in Policies(s, a);
        SourcesStay(s.log, Revoked(account, domain, uriPrefix), a, p);
      }
    case OfAll(domain, uriPrefix) =>
      forall a, p | p in Policies(t, a) ensures PolicySourced(t.log, a, p) {
        assert p in Policies(s, a);
        SourcesStay(s.log, RevokedForAll(domain, uriPrefix), a, p);
      }
  }

  lemma StepKeepsSources(s: State, e: Event)
    requires SourceInv(s)
    ensures SourceInv(Step(s, e))
  {
    match e
    case MessageSigned(m, optedIn, duration) =>
      if optedIn { SignKeepsSources(s, m, duration); }
    case RevocationRuns =>
      if s.lock.Asked? { ApplyKeepsSources(s, s.lock.revocation); }
    case _ =>
  }

  lemma {:induction false} RunKeepsSources(s: State, events: seq<Event>)
    requires SourceInv(s)
    ensures SourceInv(Run(s, events))
    decreases |events|
  {
    if events == [] {
    } else {
      StepKeepsSources(s, events[0]);
      RunKeepsSources(Step(s, events[0]), events[1..]);
    }
  }

  /** One prefix under which every permission the message needs was given and not revoked, for a time not over. */
  ghost predicate Authorized(s: State, m: Message, uriPrefix: string) {
    && uriPrefix <= m.uri
    && (m.chainId != 0 ==> HasSource(s.log, m.address, m.domain, uriPrefix, Chain(m.chainId)))
    && (forall r :: r in m.resources.GetOr([]) ==> HasSource(s.log, m.address, m.domain, uriPrefix, Resource(r)))
    && (exists time :: (time == 0 || s.now <= time) && HasSource(s.log, m.address, m.domain, uriPrefix, Until(time)))
  }

  /**
   Safety over whole runs: where a message may be signed without asking, its chain and every resource
   occurred in messages the account signed with consent for the same domain, all below one prefix of
   the message's URI that was not revoked since, and one of them opened a time that is not over.
   */
  lemma ActiveWasAuthorized(duration: nat, now: nat, events: seq<Event>, m: Message, keys: seq<KeyType>, isSafe: bool)
    ensures var s := Run(State(map[], duration, now, [], Free), events);
            PolicyStatus(s, m, keys, isSafe) == ValidPolicy ==> exists uriPrefix :: Authorized(s, m, uriPrefix)
  {
    RunKeepsSources(State(map[], duration, now, [], Free), events);
    var s := Run(State(map[], duration, now, [], Free), events);
    if PolicyStatus(s, m, keys, isSafe) == ValidPolicy {
      var list := Policies(s, m.address);
      var p := list[FindIndex(p => Allows(p, m), list).value];
      assert p in list && PolicySourced(s.log, m.address, p);
      assert Holds(p, Until(p.expiresAt));
      forall r | r in m.resources.GetOr([]) ensures HasSource(s.log, m.address, m.domain, p.uriPrefix, Resource(r)) {
        assert Holds(p, Resource(r));
      }
      if m.chainId != 0 {
        assert Holds(p, Chain(m.chainId));
      }
      assert Authorized(s, m, p.uriPrefix);
    }
  }

  // ----- Signing, then checking

  predicate Grown(p: Policy, q: Policy) {
    && q.domain == p.domain && q.uriPrefix == p.uriPrefix
    && p.allowedChains <= q.allowedChains
    && forall r :: r in p.allowedResources ==> r in q.allowedResources
  }

  predicate HasGrown(list: seq<Policy>, p: Policy) {
    exists q :: q in list && Grown(p, q)
  }

  predicate Concerns(r: Revocation, account: Address, domain: string, uriPrefix: string) {
    r.domain == domain && r.uriPrefix == uriPrefix && (r.OfAccount? ==> r.account == account)
  }

  /** The step makes a revocation of the policy take effect. */
  predicate RevokesPolicy(s: State, e: Event, account: Address, domain: string, uriPrefix: string) {
    e == RevocationRuns && s.lock.Asked? && Concerns(s.lock.revocation, account, domain, uriPrefix)
  }

  /** No step of the run does. */
  predicate NeverRevoked(s: State, events: seq<Event>, account: Address, domain: string, uriPrefix: string)
    decreases |events|
  {
    events == []
    || (!RevokesPolicy(s, events[0], account, domain, uriPrefix)
        && NeverRevoked(Step(s, events[0]), events[1..], account, domain, uriPrefix))
  }

  /**
   A revocation that is asked for, when its turn comes, removes the policy if and only if no other one was in
   progress, or the one accepted before it concerns the policy as well.
   */
  lemma RevocationTakesEffectIff(s: State, account: Address, p: Policy)
    requires p in Policies(s, account)
    ensures var t := Step(Step(s, AskToRevoke(OfAccount(account, p.domain, p.uriPrefix))), RevocationRuns);
            (forall q :: q in Policies(t, account) ==> !(q.domain == p.domain && q.uriPrefix == p.uriPrefix)) <==>
            s.lock.Free? || (s.lock.Asked? && Concerns(s.lock.revocation, account, p.domain, p.uriPrefix))
  {
    var t := Step(Step(s, AskToRevoke(OfAccount(account, p.domain, p.uriPrefix))), RevocationRuns);
    if !s.lock.Free? && !(s.lock.Asked? && Concerns(s.lock.revocation, account, p.domain, p.uriPrefix)) {
      assert p in Policies(t, account);
    }
  }

  lemma StepGrows(s: State, e: Event, account: Address, p: Policy)
    requires p in Policies(s, account) && !RevokesPolicy(s, e, account, p.domain, p.uriPrefix)
    ensures HasGrown(Policies(Step(s, e), account), p)
  {
    if e.MessageSigned? && e.optedIn && e.message.address == account {
      var list, m := Policies(s, account), e.message;
      var after := Policies(Step(s, e), account);
      var i :| 0 <= i < |list| && list[i] == p;
      assert Grown(p, after[i]) && after[i] in after;
    } else {
      assert p in Policies(Step(s, e), account) && Grown(p, p);
    }
  }

  /** What a policy allows is only ever added to until it is revoked. */
  lemma {:induction false} PoliciesOnlyGrow(s: State, events: seq<Event>, account: Address, p: Policy)
    requires p in Policies(s, account) && NeverRevoked(s, events, account, p.domain, p.uriPrefix)
    ensures HasGrown(Policies(Run(s, events), account), p)
    decreases |events|
  {
    if events == [] {
      assert Grown(p, p);
    } else {
      StepGrows(s, events[0], account, p);
      var t := Step(s, events[0]);
      var q :| q in Policies(t, account) && Grown(p, q);
      PoliciesOnlyGrow(t, events[1..], account, q);
      var r :| r in Policies(Run(t, events[1..]), account) && Grown(q, r);
      assert Grown(p, r);
    }
  }

  /** The policy that a message is recorded in: the first that covers it. */
  function FirstCover(list: seq<Policy>, m: Message): Option<nat> {
    FindIndex(p => MatchesDomainAndUri(p, m.domain, m.uri), list)
  }

  function FirstAllowing(list: seq<Policy>, m: Message): Option<nat> {
    FindIndex(p => Allows(p, m), list)
  }

  /** The first policy that covers the message allows it. */
  ghost predicate Answers(list: seq<Policy>, m: Message, p: Policy) {
    FirstCover(list, m).Some? && list[FirstCover(list, m).value] == p && Allows(p, m)
  }

  lemma FirstCoverThatAllows(list: seq<Policy>, m: Message, p: Policy)
    requires Answers(list, m, p)
    ensures FirstAllowing(list, m) == FirstCover(list, m)
  {
    FirstIs(q => Allows(q, m), list, FirstCover(list, m).value);
  }

  /** After a message was signed with consent, it is answered by the policy just made or updated. */
  lemma RecordAnswers(list: seq<Policy>, m: Message, expiresAt: nat, now: nat)
    ensures var after := Record(list, m, expiresAt, now);
            FirstCover(after, m).Some? && Answers(after, m, after[FirstCover(after, m).value])
            && after[FirstCover(after, m).value].expiresAt == expiresAt
            && after[FirstCover(after, m).value].lastAuthenticated == now
  {
    var after := Record(list, m, expiresAt, now);
    match FirstCover(list, m)
    case None =>
      forall i | 0 <= i < |list| ensures !MatchesDomainAndUri(list[i], m.domain, m.uri) {
        assert list[i] in list;
      }
      FirstIs(p => MatchesDomainAndUri(p, m.domain, m.uri), after, |list|);
    case Some(i) =>
      FirstIs(p => MatchesDomainAndUri(p, m.domain, m.uri), after, i);
  }

  /** Recording another message keeps the first cover of this one where it is. */
  lemma RecordKeepsAnswer(list: seq<Policy>, m: Message, p: Policy, other: Message, expiresAt: nat, now: nat)
    requires Answers(list, m, p)
    ensures var after, i := Record(list, other, expiresAt, now), FirstCover(list, m).value;
            i < |after| && FirstCover(after, m) == Some(i) && Answers(after, m, after[i]) && Grown(p, after[i])
  {
    var after, i := Record(list, other, expiresAt, now), FirstCover(list, m).value;
    assert Grown(p, after[i]);
    FirstIs(q => MatchesDomainAndUri(q, m.domain, m.uri), after, i);
  }

  lemma WithoutKeepsAnswer(list: seq<Policy>, m: Message, p: Policy, domain: string, uriPrefix: string)
    requires Answers(list, m, p) && !(p.domain == domain && p.uriPrefix == uriPrefix)
    ensures Answers(Without(list, domain, uriPrefix), m, p)
  {
    FilterKeepsFirst((q: Policy) => !(q.domain == domain && q.uriPrefix == uriPrefix), list,
                     q => MatchesDomainAndUri(q, m.domain, m.uri));
  }

  /** The event is a consent of the account that is recorded in its policy of that domain and prefix. */
  predicate RecordedIn(s: State, e: Event, account: Address, domain: string, uriPrefix: string) {
    && e.MessageSigned? && e.optedIn && e.message.address == account
    && var list := Policies(s, account);
       var i := FirstCover(list, e.message);
       i.Some? && list[i.value].domain == domain && list[i.value].uriPrefix == uriPrefix
  }

  function NextExpiry(s: State, e: Event, account: Address, domain: string, uriPrefix: string, expiry: nat): nat {
    if RecordedIn(s, e, account, domain, uriPrefix) then s.now + EffectiveDuration(s, e.duration) else expiry
  }

  /** The time agreed in the last consent recorded in that policy, `expiry` where there is none. */
  function LastExpiry(s: State, events: seq<Event>, account: Address, domain: string, uriPrefix: string,
                      expiry: nat): nat
    decreases |events|
  {
    if events == [] then expiry
    else
      var next := NextExpiry(s, events[0], account, domain, uriPrefix, expiry);
      LastExpiry(Step(s, events[0]), events[1..], account, domain, uriPrefix, next)
  }

  ghost predicate AnsweredBy(s: State, m: Message, p: Policy, domain: string, uriPrefix: string, expiry: nat) {
    Answers(Policies(s, m.address), m, p) && p.domain == domain && p.uriPrefix == uriPrefix && p.expiresAt == expiry
  }

  lemma RecordKeepsExpiry(list: seq<Policy>, m: Message, p: Policy, other: Message, expiresAt: nat, now: nat)
    requires Answers(list, m, p)
    ensures var i, j := FirstCover(list, m).value, FirstCover(list, other);
            Record(list, other, expiresAt, now)[i].expiresAt
            == if j.Some? && list[j.value].domain == p.domain && list[j.value].uriPrefix == p.uriPrefix
               then expiresAt else p.expiresAt
  {
    var i, j := FirstCover(list, m).value, FirstCover(list, other);
    if j.Some? && j.value < i {
      assert !MatchesDomainAndUri(list[j.value], m.domain, m.uri);
    } else if j.Some? && i < j.value {
      assert !MatchesDomainAndUri(list[i], other.domain, other.uri);
    }
  }

  lemma StepKeepsAnswer(s: State, e: Event, m: Message, p: Policy) returns (q: Policy)
    requires Answers(Policies(s, m.address), m, p) && !RevokesPolicy(s, e, m.address, p.domain, p.uriPrefix)
    ensures AnsweredBy(Step(s, e), m, q, p.domain, p.uriPrefix,
                       NextExpiry(s, e, m.address, p.domain, p.uriPrefix, p.expiresAt))
  {
    var list, after := Policies(s, m.address), Policies(Step(s, e), m.address);
    q := p;
    match e
    case MessageSigned(other, optedIn, duration) =>
      if optedIn && other.address == m.address {
        var i, expiresAt := FirstCover(list, m).value, s.now + EffectiveDuration(s, duration);
        RecordKeepsAnswer(list, m, p, other, expiresAt, s.now);
        RecordKeepsExpiry(list, m, p, other, expiresAt, s.now);
        q := after[i];
      }
    case RevocationRuns =>
      if s.lock.Asked? && (s.lock.revocation.OfAll? || s.lock.revocation.account == m.address) {
        WithoutKeepsAnswer(list, m, p, s.lock.revocation.domain, s.lock.revocation.uriPrefix);
      }
    case _ =>
  }

  lemma {:induction false} RunKeepsAnswer(s: State, events: seq<Event>, m: Message, p: Policy) returns (q: Policy)
    requires Answers(Policies(s, m.address), m, p) && NeverRevoked(s, events, m.address, p.domain, p.uriPrefix)
    ensures AnsweredBy(Run(s, events), m, q, p.domain, p.uriPrefix,
                       LastExpiry(s, events, m.address, p.domain, p.uriPrefix, p.expiresAt))
    decreases |events|
  {
    if events == [] {
      q := p;
    } else {
      var r := StepKeepsAnswer(s, events[0], m, p);
      q := RunKeepsAnswer(Step(s, events[0]), events[1..], m, r);
    }
  }

  /** What a status query says of a message that is answered, for every account. */
  lemma StatusOfAnswered(s: State, m: Message, p: Policy, keys: seq<KeyType>, isSafe: bool)
    requires Answers(Policies(s, m.address), m, p)
    ensures PolicyStatus(s, m, keys, isSafe) ==
            if isSafe || keys == [] || (External in keys && !p.supportsEIP6492) then Unsupported
            else if p.expiresAt != 0 && p.expiresAt < s.now then Expired else ValidPolicy
  {
    FirstCoverThatAllows(Policies(s, m.address), m, p);
  }

  /**
   Signing then checking: a message signed with consent stays answered, for an account that is no Safe
   and has internal keys only, until its policy is revoked. It is valid exactly until the time agreed in
   the last consent recorded in that policy is over (a time of 0 never ends), whatever else was signed
   or revoked meanwhile.
   */
  lemma SignedIsValidUntilExpiry(s: State, m: Message, duration: nat, events: seq<Event>, keys: seq<KeyType>)
    requires keys != [] && External !in keys
    requires var t := Sign(s, m, true, duration);
             var p := Policies(t, m.address)[FirstCover(Policies(t, m.address), m).GetOr(0)];
             NeverRevoked(t, events, m.address, p.domain, p.uriPrefix)
    ensures var t := Sign(s, m, true, duration);
            var p := Policies(t, m.address)[FirstCover(Policies(t, m.address), m).GetOr(0)];
            var agreed := s.now + EffectiveDuration(s, duration);
            var expiry := LastExpiry(t, events, m.address, p.domain, p.uriPrefix, agreed);
            PolicyStatus(Run(t, events), m, keys, false)
            == if expiry == 0 || Run(t, events).now <= expiry then ValidPolicy else Expired
  {
    var t := Sign(s, m, true, duration);
    var list := Policies(t, m.address);
    RecordAnswers(Policies(s, m.address), m, s.now + EffectiveDuration(s, duration), s.now);
    var p := list[FirstCover(list, m).value];
    var q := RunKeepsAnswer(t, events, m, p);
    StatusOfAnswered(Run(t, events), m, q, keys, false);
  }

  /** Right after its policy was revoked, no earlier consent makes the message valid through that prefix. */
  lemma RevokedIsNotAuthorized(s: State, account: Address, domain: string, uriPrefix: string, g: Grant)
    ensures !HasSource(Revoke(s, account, domain, uriPrefix).log, account, domain, uriPrefix, g)
  {
    var log := Revoke(s, account, domain, uriPrefix).log;
    forall i ensures !IsSource(log, i, account, domain, uriPrefix, g) {
      if 0 <= i < |s.log| {
        assert Revokes(log[|s.log|], account, domain, uriPrefix);
      }
    }
  }
}
