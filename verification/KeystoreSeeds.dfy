/**
 Adding a seed to a keystore with any mixture of seeds in the old and the new format
 (src/controllers/keystore/keystore.ts).
 */
module KeystoreSeeds {
  import opened Wrappers
  import opened Sequences
  import opened Keystores
  import opened KeystoreVaults

  /**
   An old seed with a passphrase that has not been migrated yet: `getSavedSeed` restarts the counter
   for the passphrase, so it returns the right one exactly when the keystream repeats itself.
   */
  lemma OldPassphraseMisread(c: Crypto, mk: MainKey, e: StoredSeed, v: VaultSeed)
    requires Lawful(c) && SeedMatches(c, e, v, mk) && e.seed.CtrPayload? && e.passphrase.Some? && v.meaning.Phrase?
    ensures var r := ReadSeed(c, mk, e);
            && r.Value?
            && (r.value.passphrase == v.meaning.passphrase <==>
                KeystreamRepeats(c, mk, |e.seed.data|, |e.passphrase.value.data|))
    ensures var m := MigrateSeed(c, mk, {}, e);
            ReadSeed(c, mk, m) == Value(SavedSeed(c.phraseOf(v.meaning.entropy), v.meaning.passphrase))
  {
    ReadAtStartIff(c, mk, |e.seed.data|, e.passphrase.value.data);
  }

  // ----- When adding a seed appends it

  ghost predicate IsFirst(seeds: seq<StoredSeed>, i: int) {
    0 <= i < |seeds| && forall j :: 0 <= j < i ==> seeds[j].id != seeds[i].id
  }

  /** An old seed of the same words whose different passphrase is misread as the one given. */
  ghost predicate Mistaken(c: Crypto, mk: MainKey, e: StoredSeed, v: VaultSeed, entropy: Bytes, passphrase: Bytes) {
    && e.seed.CtrPayload? && Ctr(c, mk, 0, e.seed.data) == c.phraseOf(entropy)
    && e.passphrase.Some? && e.passphrase.value.CtrPayload?
    && Ctr(c, mk, 0, e.passphrase.value.data) == passphrase
    && v.meaning != Phrase(entropy, NonEmpty(passphrase))
  }

  /**
   The search for a seed stops at an entry that is no phrase, at the seed itself if it reads true, and at one
   mistaken for it.
   */
  ghost predicate FoundAt(c: Crypto, mk: MainKey, e: StoredSeed, v: VaultSeed, entropy: Bytes, passphrase: Bytes) {
    || v.meaning.Unusable?
    || (v.meaning == Phrase(entropy, NonEmpty(passphrase)) && ReadsTrue(c, mk, e))
    || Mistaken(c, mk, e, v, entropy, passphrase)
  }

  lemma EndsSearchIff(c: Crypto, mk: MainKey, e: StoredSeed, v: VaultSeed, entropy: Bytes, passphrase: Bytes)
    requires Lawful(c) && SeedMatches(c, e, v, mk) && c.entropyOf(c.phraseOf(entropy)) == Some(entropy)
    ensures EndsSearch(ReadSeed(c, mk, e), c.phraseOf(entropy), passphrase) <==>
            FoundAt(c, mk, e, v, entropy, passphrase)
  {
    if e.seed.CtrPayload? && e.passphrase.Some? && e.passphrase.value.CtrPayload? {
      ReadAtStartIff(c, mk, |e.seed.data|, e.passphrase.value.data);
    }
  }

  lemma StopsSearchIff(c: Crypto, s: State, v: Vault, mk: MainKey, i: nat, entropy: Bytes, passphrase: Bytes)
    requires Lawful(c) && Matches(c, s, v, mk) && v.unlocked && IsFirst(s.seeds, i)
    requires c.entropyOf(c.phraseOf(entropy)) == Some(entropy)
    ensures StopsSearch(c, s, c.phraseOf(entropy), passphrase, s.seeds[i]) <==>
            FoundAt(c, mk, s.seeds[i], v.seeds[i], entropy, passphrase)
  {
    var e := s.seeds[i];
    FirstIs((x: StoredSeed) => x.id == e.id, s.seeds, i);
    assert GetSavedSeed(c, s, e.id) == ReadSeed(c, mk, e);
    EndsSearchIff(c, mk, e, v.seeds[i], entropy, passphrase);
  }

  lemma FirstWithId(seeds: seq<StoredSeed>, k: nat) returns (i: nat)
    requires k < |seeds|
    ensures IsFirst(seeds, i) && seeds[i].id == seeds[k].id
  {
    var p := (x: StoredSeed) => x.id == seeds[k].id;
    assert seeds[k] in seeds && p(seeds[k]);
    i := FindIndex(p, seeds).value;
  }

  /** The vault's search stops at an entry that is no phrase and at the seed itself. */
  ghost predicate VaultFoundAt(v: VaultSeed, entropy: Bytes, passphrase: Bytes) {
    v.meaning.Unusable? || v.meaning == Phrase(entropy, NonEmpty(passphrase))
  }

  lemma StopsVaultSearchIff(c: Crypto, s: State, v: Vault, mk: MainKey, i: nat, entropy: Bytes, passphrase: Bytes)
    requires Matches(c, s, v, mk) && v.unlocked && IsFirst(s.seeds, i)
    requires Lawful(c) && c.entropyOf(c.phraseOf(entropy)) == Some(entropy)
    ensures StopsVaultSearch(c, v, c.phraseOf(entropy), passphrase, v.seeds[i]) <==>
            VaultFoundAt(v.seeds[i], entropy, passphrase)
  {
    SeedLookup(c, s.seeds, v.seeds, mk, s.seeds[i].id);
    FirstIs((x: StoredSeed) => x.id == s.seeds[i].id, s.seeds, i);
    assert SeedMatches(c, s.seeds[i], v.seeds[i], mk);
  }

  /**
   In any list of seeds, the search for a seed that is stored in the old format, in the usual spelling,
   misses it exactly if the keystream does not repeat at its passphrase.
   */
  lemma OldSeedMissedIff(c: Crypto, s: State, v: Vault, mk: MainKey, i: nat, entropy: Bytes, passphrase: Bytes)
    requires Lawful(c) && Matches(c, s, v, mk) && v.unlocked && IsFirst(s.seeds, i)
    requires v.seeds[i].meaning == Phrase(entropy, NonEmpty(passphrase))
    requires s.seeds[i].seed.CtrPayload? && s.seeds[i].passphrase.Some?
    requires Canonical(c, Ctr(c, mk, 0, s.seeds[i].seed.data))
    ensures !StopsSearch(c, s, c.phraseOf(entropy), passphrase, s.seeds[i]) <==>
            !KeystreamRepeats(c, mk, |s.seeds[i].seed.data|, |s.seeds[i].passphrase.value.data|)
  {
    assert SeedMatches(c, s.seeds[i], v.seeds[i], mk);
    StopsSearchIff(c, s, v, mk, i, entropy, passphrase);
  }

  // ----- How adding a seed ends

  datatype SearchEnd = NothingFound | SeedFound | NoPhraseFound

  /** `asMeant`: the search of the vault, else that of the keystore. */
  ghost predicate Finds(c: Crypto, mk: MainKey, e: StoredSeed, v: VaultSeed, entropy: Bytes, passphrase: Bytes,
                        asMeant: bool)
  {
    if asMeant then VaultFoundAt(v, entropy, passphrase) else FoundAt(c, mk, e, v, entropy, passphrase)
  }

  /** What the search from `i` on finds first; of entries with one id it looks at the first only. */
  ghost function EndOfSearch(c: Crypto, mk: MainKey, es: seq<StoredSeed>, vs: seq<VaultSeed>, entropy: Bytes,
                             passphrase: Bytes, asMeant: bool, i: nat): SearchEnd
    requires |es| == |vs| && i <= |es|
    decreases |es| - i
  {
    if i == |es| then NothingFound
    else if IsFirst(es, i) && Finds(c, mk, es[i], vs[i], entropy, passphrase, asMeant) then
      if vs[i].meaning.Unusable? then NoPhraseFound else SeedFound
    else EndOfSearch(c, mk, es, vs, entropy, passphrase, asMeant, i + 1)
  }

  lemma {:induction false} EndsAt(c: Crypto, mk: MainKey, es: seq<StoredSeed>, vs: seq<VaultSeed>, entropy: Bytes,
                                  passphrase: Bytes, asMeant: bool, i: nat, k: nat)
    requires |es| == |vs| && i <= k <= |es|
    requires forall j :: i <= j < k && IsFirst(es, j) ==> !Finds(c, mk, es[j], vs[j], entropy, passphrase, asMeant)
    requires k < |es| ==> IsFirst(es, k) && Finds(c, mk, es[k], vs[k], entropy, passphrase, asMeant)
    ensures EndOfSearch(c, mk, es, vs, entropy, passphrase, asMeant, i)
         == if k == |es| then NothingFound else if vs[k].meaning.Unusable? then NoPhraseFound else SeedFound
    decreases k - i
  {
    if i < k {
      EndsAt(c, mk, es, vs, entropy, passphrase, asMeant, i + 1, k);
    }
  }

  /** The outcome that goes with each end of the search. */
  function OutcomeOf(end: SearchEnd): Outcome {
    if end.NoPhraseFound? then InvalidSeed else Done
  }

  /** The first entry at which the search stops. */
  lemma FirstStop(c: Crypto, s: State, phrase: Bytes, passphrase: Bytes) returns (k: nat)
    ensures k <= |s.seeds|
    ensures k < |s.seeds| ==> IsFirst(s.seeds, k) && StopsSearch(c, s, phrase, passphrase, s.seeds[k])
    ensures forall j :: 0 <= j < k ==> !StopsSearch(c, s, phrase, passphrase, s.seeds[j])
  {
    var stops := e => StopsSearch(c, s, phrase, passphrase, e);
    match FindIndex(stops, s.seeds) {
      case Some(i) =>
        k := FirstWithId(s.seeds, i);
        assert stops(s.seeds[k]);
      case None =>
        k := |s.seeds|;
        forall j | 0 <= j < k ensures !stops(s.seeds[j]) {
          assert s.seeds[j] in s.seeds;
        }
    }
  }

  /** How the keystore adds a seed: it appends it, or reports or passes over the first entry its search finds. */
  lemma AddSeedEnds(c: Crypto, s: State, v: Vault, mk: MainKey, id: string, phrase: Bytes, passphrase: Bytes)
    requires Lawful(c) && Matches(c, s, v, mk) && v.unlocked && c.entropyOf(phrase).Some?
    ensures var (t, o) := AddSeed(c, s, id, phrase, passphrase);
            var end := EndOfSearch(c, mk, s.seeds, v.seeds, c.entropyOf(phrase).value, passphrase, false, 0);
            o == OutcomeOf(end) && |t.seeds| == |s.seeds| + (if end.NothingFound? then 1 else 0)
  {
    var entropy := c.entropyOf(phrase).value;
    var k := FirstStop(c, s, c.phraseOf(entropy), passphrase);
    FindSeedIs(c, s, c.phraseOf(entropy), passphrase, k);
    forall i | IsFirst(s.seeds, i)
      ensures StopsSearch(c, s, c.phraseOf(entropy), passphrase, s.seeds[i]) <==>
              FoundAt(c, mk, s.seeds[i], v.seeds[i], entropy, passphrase)
    {
      StopsSearchIff(c, s, v, mk, i, entropy, passphrase);
    }
    EndsAt(c, mk, s.seeds, v.seeds, entropy, passphrase, false, 0, k);
    if k < |s.seeds| {
      ReadOfFirst(c, s, v, mk, k);
    }
  }

  lemma ReadOfFirst(c: Crypto, s: State, v: Vault, mk: MainKey, k: nat)
    requires Matches(c, s, v, mk) && v.unlocked && IsFirst(s.seeds, k)
    ensures var r := GetSavedSeed(c, s, s.seeds[k].id);
            if v.seeds[k].meaning.Unusable? then r == Failed(InvalidSeed) else r.Value?
  {
    FirstIs((x: StoredSeed) => x.id == s.seeds[k].id, s.seeds, k);
    assert SeedMatches(c, s.seeds[k], v.seeds[k], mk);
  }

  /** And how it is meant to. */
  lemma VaultAddSeedEnds(c: Crypto, s: State, v: Vault, mk: MainKey, id: string, phrase: Bytes, passphrase: Bytes)
    requires Lawful(c) && Matches(c, s, v, mk) && v.unlocked && c.entropyOf(phrase).Some?
    ensures var (w, p) := VaultAddSeed(c, v, id, phrase, passphrase);
            var end := EndOfSearch(c, mk, s.seeds, v.seeds, c.entropyOf(phrase).value, passphrase, true, 0);
            && p == OutcomeOf(end)
            && w == (if end.NothingFound? then v.(seeds := v.seeds + [AddedSeed(c, id, phrase, passphrase)]) else v)
  {
    var entropy := c.entropyOf(phrase).value;
    var stops := e => StopsVaultSearch(c, v, c.phraseOf(entropy), passphrase, e);
    forall i | IsFirst(s.seeds, i)
      ensures stops(v.seeds[i]) <==> VaultFoundAt(v.seeds[i], entropy, passphrase)
    {
      StopsVaultSearchIff(c, s, v, mk, i, entropy, passphrase);
    }
    match FindIndex(stops, v.seeds) {
      case Some(k) =>
        var i := FirstWithId(s.seeds, k);
        assert SeedMatches(c, s.seeds[i], v.seeds[i], mk) && SeedMatches(c, s.seeds[k], v.seeds[k], mk);
        assert stops(v.seeds[i]) && i == k;
        EndsAt(c, mk, s.seeds, v.seeds, entropy, passphrase, true, 0, k);
        SeedLookup(c, s.seeds, v.seeds, mk, s.seeds[k].id);
        FirstIs((x: StoredSeed) => x.id == s.seeds[k].id, s.seeds, k);
      case None =>
        forall i | IsFirst(s.seeds, i) ensures !stops(v.seeds[i]) {
          assert v.seeds[i] in v.seeds;
        }
        EndsAt(c, mk, s.seeds, v.seeds, entropy, passphrase, true, 0, |s.seeds|);
    }
  }

  lemma {:induction false} NothingFoundIff(c: Crypto, mk: MainKey, es: seq<StoredSeed>, vs: seq<VaultSeed>,
                                           entropy: Bytes, passphrase: Bytes, asMeant: bool, i: nat)
    requires |es| == |vs| && i <= |es|
    ensures EndOfSearch(c, mk, es, vs, entropy, passphrase, asMeant, i) == NothingFound <==>
            forall j :: i <= j && IsFirst(es, j) ==> !Finds(c, mk, es[j], vs[j], entropy, passphrase, asMeant)
    decreases |es| - i
  {
    if i < |es| {
      NothingFoundIff(c, mk, es, vs, entropy, passphrase, asMeant, i + 1);
    }
  }

  /**
   For every list of stored seeds, adding one appends it exactly if no entry is found by the search. So
   a seed that is stored already is stored again exactly if every copy of it reads as something else,
   and nothing else stops the search.
   */
  lemma SeedAppendedIff(c: Crypto, s: State, v: Vault, mk: MainKey, id: string, phrase: Bytes, passphrase: Bytes)
    requires Lawful(c) && Matches(c, s, v, mk) && v.unlocked && c.entropyOf(phrase).Some?
    ensures |AddSeed(c, s, id, phrase, passphrase).0.seeds| == |s.seeds| + 1 <==>
            forall i :: IsFirst(s.seeds, i) ==>
              !FoundAt(c, mk, s.seeds[i], v.seeds[i], c.entropyOf(phrase).value, passphrase)
  {
    AddSeedEnds(c, s, v, mk, id, phrase, passphrase);
    NothingFoundIff(c, mk, s.seeds, v.seeds, c.entropyOf(phrase).value, passphrase, false, 0);
  }

  /** The vault, which the source means to be, stores no seed twice: it appends exactly what it does not hold. */
  lemma VaultSeedAppendedIff(c: Crypto, s: State, v: Vault, mk: MainKey, id: string, phrase: Bytes, passphrase: Bytes)
    requires Lawful(c) && Matches(c, s, v, mk) && v.unlocked && c.entropyOf(phrase).Some?
    ensures |VaultAddSeed(c, v, id, phrase, passphrase).0.seeds| == |v.seeds| + 1 <==>
            forall i :: IsFirst(s.seeds, i) ==> !VaultFoundAt(v.seeds[i], c.entropyOf(phrase).value, passphrase)
  {
    VaultAddSeedEnds(c, s, v, mk, id, phrase, passphrase);
    NothingFoundIff(c, mk, s.seeds, v.seeds, c.entropyOf(phrase).value, passphrase, true, 0);
  }

  /** Both searches find nothing, or both first find a seed, or both first find an entry that is no phrase. */
  ghost predicate SearchesAgree(c: Crypto, s: State, v: Vault, mk: MainKey, phrase: Bytes, passphrase: Bytes) {
    v.unlocked && c.entropyOf(phrase).Some? && |s.seeds| == |v.seeds| ==>
      EndOfSearch(c, mk, s.seeds, v.seeds, c.entropyOf(phrase).value, passphrase, false, 0) ==
      EndOfSearch(c, mk, s.seeds, v.seeds, c.entropyOf(phrase).value, passphrase, true, 0)
  }

  /** Adding a seed has the effect and the outcome that are meant if and only if the searches agree. */
  lemma AddSeedAgreesIff(c: Crypto, s: State, v: Vault, mk: MainKey, id: string, phrase: Bytes, passphrase: Bytes)
    requires Lawful(c) && Matches(c, s, v, mk)
    ensures var (t, o) := AddSeed(c, s, id, phrase, passphrase);
            var (w, p) := VaultAddSeed(c, v, id, phrase, passphrase);
            o == p && Matches(c, t, w, mk) <==> SearchesAgree(c, s, v, mk, phrase, passphrase)
  {
    if v.unlocked && c.entropyOf(phrase).Some? {
      AddSeedEnds(c, s, v, mk, id, phrase, passphrase);
      VaultAddSeedEnds(c, s, v, mk, id, phrase, passphrase);
      AddSeedKeeps(c, s, v, mk, id, phrase, passphrase);
    }
  }

  /** In particular where every entry reads as what it means. */
  lemma SearchesOfTrueSeedsAgree(c: Crypto, s: State, v: Vault, mk: MainKey, phrase: Bytes, passphrase: Bytes)
    requires Lawful(c) && Matches(c, s, v, mk) && forall e :: e in s.seeds ==> ReadsTrue(c, mk, e)
    ensures SearchesAgree(c, s, v, mk, phrase, passphrase)
  {
    if v.unlocked && c.entropyOf(phrase).Some? {
      TrueSeedsEndAlike(c, s, v, mk, c.entropyOf(phrase).value, passphrase, 0);
    }
  }

  lemma {:induction false} TrueSeedsEndAlike(c: Crypto, s: State, v: Vault, mk: MainKey, entropy: Bytes,
                                             passphrase: Bytes, i: nat)
    requires Lawful(c) && SeedsMatch(c, s.seeds, v.seeds, mk) && i <= |s.seeds|
    requires forall e :: e in s.seeds ==> ReadsTrue(c, mk, e)
    requires c.entropyOf(c.phraseOf(entropy)) == Some(entropy)
    ensures EndOfSearch(c, mk, s.seeds, v.seeds, entropy, passphrase, false, i) ==
            EndOfSearch(c, mk, s.seeds, v.seeds, entropy, passphrase, true, i)
    decreases |s.seeds| - i
  {
    if i < |s.seeds| {
      var e := s.seeds[i];
      assert e in s.seeds && SeedMatches(c, e, v.seeds[i], mk);
      TrueSeedFoundAsMeant(c, mk, e, v.seeds[i], entropy, passphrase);
      TrueSeedsEndAlike(c, s, v, mk, entropy, passphrase, i + 1);
    }
  }

  /** An entry that reads as what it means is not mistaken for another. */
  lemma TrueSeedFoundAsMeant(c: Crypto, mk: MainKey, e: StoredSeed, v: VaultSeed, entropy: Bytes, passphrase: Bytes)
    requires Lawful(c) && SeedMatches(c, e, v, mk) && ReadsTrue(c, mk, e)
    requires c.entropyOf(c.phraseOf(entropy)) == Some(entropy)
    ensures FoundAt(c, mk, e, v, entropy, passphrase) <==> VaultFoundAt(v, entropy, passphrase)
  {
    if e.seed.CtrPayload? && e.passphrase.Some? && e.passphrase.value.CtrPayload? {
      ReadAtStartIff(c, mk, |e.seed.data|, e.passphrase.value.data);
    }
  }
}
