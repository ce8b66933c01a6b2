/**
 Whole runs of the keystore beside the vault, and where the code falls short of it
 (src/controllers/keystore/keystore.ts).
 */
module KeystoreRuns {
  import opened Wrappers
  import opened Sequences
  import opened Keystores
  import opened KeystoreSeeds
  import opened KeystoreVaults

  // ----- A first secret

  lemma KeepsUnderOther(c: Crypto, s: State, v: Vault, mk: MainKey, generated: MainKey)
    requires Matches(c, s, v, mk) && s.mainKey.None? && s.secrets == [] && !Orphaned(c, s, mk, generated)
    ensures Matches(c, s, v, generated)
  {
    forall i | 0 <= i < |s.keys| ensures KeyMatches(c, s.keys[i], v.keys[i], generated) {
      assert s.keys[i] in s.keys && KeyMatches(c, s.keys[i], v.keys[i], mk);
      assert !KeyMoves(c, s.keys[i], mk, generated);
    }
    forall i | 0 <= i < |s.seeds| ensures SeedMatches(c, s.seeds[i], v.seeds[i], generated) {
      assert s.seeds[i] in s.seeds && SeedMatches(c, s.seeds[i], v.seeds[i], mk);
    }
  }

  lemma BecomeReadyKeepsStored(c: Crypto, s: State)
    ensures var t := BecomeReady(c, s); s.keys <= t.keys && t.seeds == s.seeds && t.uid == s.uid
  {
    var s1 := AddKeys(c, s.(ready := true), s.queued).0;
    assert s.keys <= s1.keys && s1.seeds == s.seeds && s1.uid == s.uid;
    var s2 := AddExternalKeys(s1, s.queuedExternal);
    assert s1.keys <= s2.keys && s2.seeds == s.seeds && s2.uid == s.uid;
  }

  lemma VaultBecomeReadyKeepsStored(c: Crypto, v: Vault)
    ensures var w := VaultBecomeReady(c, v); v.keys <= w.keys && w.seeds == v.seeds
  {
    var v1 := VaultAddKeys(c, v.(ready := true), v.queued).0;
    assert v.keys <= v1.keys && v1.seeds == v.seeds;
    var v2 := VaultAddExternalKeys(v1, v.queuedExternal);
    assert v1.keys <= v2.keys && v2.seeds == v.seeds;
  }

  lemma FirstSecretKeepsStored(c: Crypto, s: State, v: Vault, id: string, secret: Bytes, salt: Bytes,
                               leaveUnlocked: bool, generated: MainKey)
    requires s.mainKey.None? && s.secrets == [] && !v.unlocked && v.secrets == []
    ensures var t := AddSecret(c, s, id, secret, salt, leaveUnlocked, generated).0;
            s.keys <= t.keys && t.seeds == s.seeds && t.uid == Some(s.uid.GetOr(generated))
    ensures var w := VaultAddSecret(c, v, id, secret, leaveUnlocked).0;
            v.keys <= w.keys && w.seeds == v.seeds
  {
    var s1 := PersistSecrets(if leaveUnlocked then s.(mainKey := Some(generated)) else s,
                             s.secrets + [SecretEntry(id, salt, GcmSecret(Scrypt(secret, salt), generated))]);
    BecomeReadyKeepsStored(c, if s.uid.Some? then s1 else PersistUid(s1, generated));
    VaultBecomeReadyKeepsStored(c,
      v.(unlocked := v.unlocked || leaveUnlocked, secrets := v.secrets + [VaultSecret(id, secret)]));
  }

  lemma OrphanedIsLost(c: Crypto, s: State, v: Vault, mk: MainKey, t: State, w: Vault, generated: MainKey)
    requires Matches(c, s, v, mk) && Orphaned(c, s, mk, generated)
    requires s.keys <= t.keys && t.seeds == s.seeds && t.uid == Some(s.uid.GetOr(generated))
    requires v.keys <= w.keys && w.seeds == v.seeds
    ensures !Matches(c, t, w, generated)
  {
    if k :| k in s.keys && KeyMoves(c, k, mk, generated) {
      var i :| 0 <= i < |s.keys| && s.keys[i] == k;
      assert KeyMatches(c, s.keys[i], v.keys[i], mk) && t.keys[i] == s.keys[i] && w.keys[i] == v.keys[i];
      assert !KeyMatches(c, t.keys[i], w.keys[i], generated);
    } else if e :| e in s.seeds && SeedMeaning(c, e, generated) != SeedMeaning(c, e, mk) {
      var i :| 0 <= i < |s.seeds| && s.seeds[i] == e;
      assert SeedMatches(c, s.seeds[i], v.seeds[i], mk);
      assert !SeedMatches(c, t.seeds[i], w.seeds[i], generated);
    }
  }

  /** Adding a secret keeps what is stored, under the resulting main key, if and only if it does not orphan it. */
  lemma AddSecretKeepsIff(c: Crypto, s: State, v: Vault, mk: MainKey, id: string, secret: Bytes, salt: Bytes,
                          leaveUnlocked: bool, generated: MainKey)
    requires Matches(c, s, v, mk)
    ensures var (t, o) := AddSecret(c, s, id, secret, salt, leaveUnlocked, generated);
            var (w, p) := VaultAddSecret(c, v, id, secret, leaveUnlocked);
            && o == p
            && (Matches(c, t, w, if s.mainKey.None? && s.secrets == [] then generated else mk) <==>
                !Orphaned(c, s, mk, generated))
  {
    var t, w := AddSecret(c, s, id, secret, salt, leaveUnlocked, generated).0,
      VaultAddSecret(c, v, id, secret, leaveUnlocked).0;
    if s.mainKey.None? && s.secrets == [] {
      if Orphaned(c, s, mk, generated) {
        FirstSecretKeepsStored(c, s, v, id, secret, salt, leaveUnlocked, generated);
        OrphanedIsLost(c, s, v, mk, t, w, generated);
      } else {
        KeepsUnderOther(c, s, v, mk, generated);
        AddSecretRefines(c, s, v, generated, id, secret, salt, leaveUnlocked, generated);
      }
    } else {
      AddSecretRefines(c, s, v, mk, id, secret, salt, leaveUnlocked, generated);
    }
  }

  /**
   For a keystore with an identity, or with any payload in the new format, that condition is what it
   seems: locked, without secrets, and the generated main key is not the old one by chance.
   */
  lemma OrphanedIff(c: Crypto, s: State, v: Vault, mk: MainKey, generated: MainKey)
    requires Matches(c, s, v, mk)
    requires || s.uid.Some?
             || (exists k :: k in s.keys && k.privKey.Some? && k.privKey.value.GcmPayload?)
             || (exists e :: e in s.seeds && e.seed.GcmPayload?)
    ensures Orphaned(c, s, mk, generated) <==> s.mainKey.None? && s.secrets == [] && generated != mk
  {
    if generated != mk {
      if k :| k in s.keys && k.privKey.Some? && k.privKey.value.GcmPayload? {
        var i :| 0 <= i < |s.keys| && s.keys[i] == k;
        assert KeyMatches(c, s.keys[i], v.keys[i], mk);
        assert KeyMoves(c, k, mk, generated);
      } else if e :| e in s.seeds && e.seed.GcmPayload? {
        var i :| 0 <= i < |s.seeds| && s.seeds[i] == e;
        assert SeedMatches(c, s.seeds[i], v.seeds[i], mk);
        assert SeedMeaning(c, e, generated) != SeedMeaning(c, e, mk);
      }
    }
  }

  /** A private key in the old format is lost exactly if the two keystreams differ on it. */
  lemma OldKeyMovesIff(c: Crypto, k: StoredKey, mk: MainKey, other: MainKey)
    requires MaskLawful(c.mask) && k.privKey.Some? && k.privKey.value.CtrPayload?
    ensures KeyMoves(c, k, mk, other) <==>
            exists j :: 0 <= j < |k.privKey.value.data| && KeyByte(c, mk, j) != KeyByte(c, other, j)
  {
    var data := k.privKey.value.data;
    var a, b := Ctr(c, mk, 0, data), Ctr(c, other, 0, data);
    SameBytes(a, b);
    forall j | 0 <= j < |data| ensures a[j] == b[j] <==> KeyByte(c, mk, j) == KeyByte(c, other, j) {
      CtrAt(c, mk, 0, data, j);
      CtrAt(c, other, 0, data, j);
      assert MaskTells(c.mask, data[j], KeyByte(c, mk, j), KeyByte(c, other, j));
    }
  }

  // ----- Refinement

  /** The vault's step beside the keystore's: a seed is appended exactly if the keystore appends it. */
  ghost function VaultTake(c: Crypto, s: State, v: Vault, e: Event): Vault {
    if !e.DoAddSeed? then VaultStep(c, v, e).0
    else if c.entropyOf(e.phrase).Some? && |Step(c, s, e).0.seeds| > |s.seeds| then
      v.(seeds := v.seeds + [AddedSeed(c, e.id, e.phrase, e.passphrase)])
    else v
  }

  ghost function VaultAlong(c: Crypto, s: State, v: Vault, events: seq<Event>): Vault
    decreases |events|
  {
    if events == [] then v else VaultAlong(c, Step(c, s, events[0]).0, VaultTake(c, s, v, events[0]), events[1..])
  }

  lemma OtherStepRefines(c: Crypto, s: State, v: Vault, mk: MainKey, e: Event)
    requires Lawful(c) && Matches(c, s, v, mk) && !e.DoAddSeed? && !e.DoAddSecret?
    ensures Matches(c, Step(c, s, e).0, VaultStep(c, v, e).0, mk)
    ensures Step(c, s, e).1 == VaultStep(c, v, e).1
  {
    match e {
      case DoUnlock(id, secret, writes, failing) => UnlockRefines(c, s, v, mk, id, secret, writes, failing);
      case DoLock =>
      case DoRemoveSecret(id) => RemoveSecretRefines(c, s, v, mk, id);
      case DoChangePassword(newSecret, oldSecret, salt, writes, failing, generated) =>
        ChangePasswordRefines(c, s, v, mk, newSecret, oldSecret, salt, writes, failing, generated);
      case DoAddKeys(keys) => AddKeysRefines(c, s, v, mk, keys);
      case DoAddExternalKeys(keys) => AddExternalKeysRefines(c, s, v, mk, keys);
      case DoRemoveKey(addr, kind) => RemoveKeyRefines(c, s, v, mk, addr, kind);
      case DoDeleteSeed(id) => DeleteSeedRefines(c, s, v, mk, id);
      case DoRestart =>
    }
  }

  /**
   Every step refines if and only if it is not the one that orphans what is stored, where an added seed is
   appended in both or in neither. It does what the vault's own step does, with the same outcome, if and only if
   besides, where it adds a seed, the searches for it agree.
   */
  lemma StepRefinesIff(c: Crypto, s: State, v: Vault, mk: MainKey, e: Event)
    requires Lawful(c) && Matches(c, s, v, mk)
    ensures Matches(c, Step(c, s, e).0, VaultTake(c, s, v, e), NextKey(s, e, mk)) <==> !Orphans(c, s, e, mk)
    ensures Step(c, s, e).1 == VaultStep(c, v, e).1
            && Matches(c, Step(c, s, e).0, VaultStep(c, v, e).0, NextKey(s, e, mk)) <==>
            !Orphans(c, s, e, mk) && (e.DoAddSeed? ==> SearchesAgree(c, s, v, mk, e.phrase, e.passphrase))
  {
    if e.DoAddSeed? {
      AddSeedKeeps(c, s, v, mk, e.id, e.phrase, e.passphrase);
      AddSeedAgreesIff(c, s, v, mk, e.id, e.phrase, e.passphrase);
    } else if e.DoAddSecret? {
      AddSecretKeepsIff(c, s, v, mk, e.id, e.secret, e.salt, e.leaveUnlocked, e.generated);
    } else {
      OtherStepRefines(c, s, v, mk, e);
    }
  }

  /** No step of the run orphans what is stored. */
  ghost predicate NoneOrphans(c: Crypto, s: State, events: seq<Event>, mk: MainKey)
    decreases |events|
  {
    events == []
    || (!Orphans(c, s, events[0], mk)
        && NoneOrphans(c, Step(c, s, events[0]).0, events[1..], NextKey(s, events[0], mk)))
  }

  ghost function LastKey(c: Crypto, s: State, events: seq<Event>, mk: MainKey): MainKey
    decreases |events|
  {
    if events == [] then mk else LastKey(c, Step(c, s, events[0]).0, events[1..], NextKey(s, events[0], mk))
  }

  /**
   In every run that keeps its main key, memory and storage hold what the vault holds, where an added seed
   is appended in both or in neither.
   */
  lemma {:induction false} RunRefines(c: Crypto, s: State, v: Vault, mk: MainKey, events: seq<Event>)
    requires Lawful(c) && Matches(c, s, v, mk) && NoneOrphans(c, s, events, mk)
    ensures Matches(c, Run(c, s, events), VaultAlong(c, s, v, events), LastKey(c, s, events, mk))
    decreases |events|
  {
    if events == [] {
    } else {
      StepRefinesIff(c, s, v, mk, events[0]);
      RunRefines(c, Step(c, s, events[0]).0, VaultTake(c, s, v, events[0]), NextKey(s, events[0], mk), events[1..]);
    }
  }

  /** No step of the run orphans what is stored, and every search for a seed to add ends as it is meant to. */
  ghost predicate AsMeant(c: Crypto, s: State, v: Vault, mk: MainKey, events: seq<Event>)
    decreases |events|
  {
    events == []
    || (&& !Orphans(c, s, events[0], mk)
        && (events[0].DoAddSeed? ==> SearchesAgree(c, s, v, mk, events[0].phrase, events[0].passphrase))
        && AsMeant(c, Step(c, s, events[0]).0, VaultStep(c, v, events[0]).0, NextKey(s, events[0], mk), events[1..]))
  }

  function Outcomes(c: Crypto, s: State, events: seq<Event>): seq<Outcome>
    decreases |events|
  {
    if events == [] then [] else [Step(c, s, events[0]).1] + Outcomes(c, Step(c, s, events[0]).0, events[1..])
  }

  function VaultOutcomes(c: Crypto, v: Vault, events: seq<Event>): seq<Outcome>
    decreases |events|
  {
    if events == [] then []
    else [VaultStep(c, v, events[0]).1] + VaultOutcomes(c, VaultStep(c, v, events[0]).0, events[1..])
  }

  function VaultRun(c: Crypto, v: Vault, events: seq<Event>): Vault
    decreases |events|
  {
    if events == [] then v else VaultRun(c, VaultStep(c, v, events[0]).0, events[1..])
  }

  /** Such a run cannot be told from the vault's own: not by what it holds, nor by any of its outcomes. */
  lemma {:induction false} RunIsTheVaults(c: Crypto, s: State, v: Vault, mk: MainKey, events: seq<Event>)
    requires Lawful(c) && Matches(c, s, v, mk) && AsMeant(c, s, v, mk, events)
    ensures Matches(c, Run(c, s, events), VaultRun(c, v, events), LastKey(c, s, events, mk))
    ensures Outcomes(c, s, events) == VaultOutcomes(c, v, events)
    decreases |events|
  {
    if events == [] {
    } else {
      StepRefinesIff(c, s, v, mk, events[0]);
      RunIsTheVaults(c, Step(c, s, events[0]).0, VaultStep(c, v, events[0]).0, NextKey(s, events[0], mk), events[1..]);
    }
  }

  /**
   After any run, any stored secret opens every stored private key as the vault holds it: whichever
   secret is used next, in whatever format it and the payloads are, however far the migration gets.
   */
  lemma EverySecretOpensEveryKey(c: Crypto, s: State, v: Vault, mk: MainKey, events: seq<Event>, i: nat,
                                 writes: nat, failing: set<string>, addr: string)
    requires Lawful(c) && Matches(c, s, v, mk) && NoneOrphans(c, s, events, mk)
    requires i < |VaultAlong(c, s, v, events).secrets|
    ensures var v' := VaultAlong(c, s, v, events);
            var (t, o) := Unlock(c, Run(c, s, events), v'.secrets[i].id, v'.secrets[i].secret, writes, failing);
            && o == Done && t.mainKey == Some(LastKey(c, s, events, mk))
            && GetPrivateKey(c, t, addr) == VaultPrivateKey(v'.(unlocked := true), addr)
  {
    RunRefines(c, s, v, mk, events);
    var s', v', key := Run(c, s, events), VaultAlong(c, s, v, events), LastKey(c, s, events, mk);
    var id := v'.secrets[i].id;
    UnlockRefines(c, s', v', key, id, v'.secrets[i].secret, writes, failing);
    assert v'.secrets[i] in v'.secrets;
    var k := FindSecret(v', id);
    assert k.Some? && SecretMatches(s'.secrets[k.value], v'.secrets[k.value], key);
    assert SecretMatches(s'.secrets[i], v'.secrets[i], key);
    var t := Unlock(c, s', id, v'.secrets[i].secret, writes, failing).0;
    PrivateKeyAgrees(c, t, v'.(unlocked := true), key, addr);
  }

  /** Once all three writes of a migration succeed, the seeds in memory are the migrated ones. */
  lemma MigrateAllSeeds(c: Crypto, s: State, mk: MainKey, secrets: Option<seq<SecretEntry>>, writes: nat)
    requires 3 <= writes
    ensures MigrateAll(c, s, mk, secrets, writes, {}).seeds == MigrateSeeds(c, mk, {}, s.seeds)
  {
  }

  lemma UnlockedSeedsReadTrue(c: Crypto, s: State, v: Vault, mk: MainKey, id: string, secret: Bytes, writes: nat)
    requires Matches(c, s, v, mk) && 3 <= writes && Unlock(c, s, id, secret, writes, {}).1 == Done
    ensures forall x :: x in Unlock(c, s, id, secret, writes, {}).0.seeds ==> ReadsTrue(c, mk, x)
  {
    var t := Unlock(c, s, id, secret, writes, {}).0;
    assert t.seeds == MigrateSeeds(c, mk, {}, s.seeds) by {
      var e := s.secrets[FindIndex((e: SecretEntry) => e.id == id, s.secrets).value];
      SecretLookup(s.secrets, v, mk, id);
      assert SecretMatches(e, v.secrets[FindSecret(v, id).value], mk);
      assert mk[..16] + mk[16..32] == mk && mk[..32] == mk;
      var s1 := s.(mainKey := Some(mk), errorMessage := "");
      MigrateAllSeeds(c, s1, mk, None, writes);
      MigrateAllSeeds(c, s1, mk, Some(MigrateSecrets(s.secrets, e.id, GcmSecret(Scrypt(secret, e.salt), mk))), writes);
    }
    forall i | 0 <= i < |t.seeds| ensures ReadsTrue(c, mk, t.seeds[i]) {
      assert SeedMatches(c, s.seeds[i], v.seeds[i], mk);
      MigratedReadsTrue(c, mk, s.seeds[i], v.seeds[i]);
    }
  }

  /**
   After any run, an unlock whose migration and writes succeed leaves every stored seed, with its
   passphrase, readable as the vault holds it, whatever an earlier migration left undone.
   */
  lemma EverySecretReadsEverySeed(c: Crypto, s: State, v: Vault, mk: MainKey, events: seq<Event>, id: string,
                                  secret: Bytes, writes: nat, seedId: string)
    requires Lawful(c) && Matches(c, s, v, mk) && NoneOrphans(c, s, events, mk) && 3 <= writes
    requires Unlock(c, Run(c, s, events), id, secret, writes, {}).1 == Done
    ensures var t := Unlock(c, Run(c, s, events), id, secret, writes, {}).0;
            GetSavedSeed(c, t, seedId) == VaultSavedSeed(c, VaultAlong(c, s, v, events).(unlocked := true), seedId)
  {
    RunRefines(c, s, v, mk, events);
    var s', v', key := Run(c, s, events), VaultAlong(c, s, v, events), LastKey(c, s, events, mk);
    UnlockRefines(c, s', v', key, id, secret, writes, {});
    UnlockedSeedsReadTrue(c, s', v', key, id, secret, writes);
    assert VaultUnlock(v', id, secret).0 == v'.(unlocked := true);
    var t := Unlock(c, s', id, secret, writes, {}).0;
    SavedSeedAgreesIff(c, t, v'.(unlocked := true), key, seedId);
    var found := FindIndex((e: StoredSeed) => e.id == seedId, t.seeds);
    assert found.Some? ==> t.seeds[found.value] in t.seeds;
  }

  /** A wrong secret changes nothing but the message shown. */
  lemma WrongSecretChangesNothing(c: Crypto, s: State, v: Vault, mk: MainKey, i: nat, secret: Bytes, writes: nat,
                                  failing: set<string>)
    requires Matches(c, s, v, mk) && i < |v.secrets| && secret != v.secrets[i].secret
    ensures Unlock(c, s, v.secrets[i].id, secret, writes, failing)
         == (s.(errorMessage := INCORRECT_PASSWORD), IncorrectPassword)
  {
    SecretLookup(s.secrets, v, mk, v.secrets[i].id);
    assert SecretMatches(s.secrets[i], v.secrets[i], mk);
    assert v.secrets[i] in v.secrets;
    var k := FindSecret(v, v.secrets[i].id);
    assert k.Some? && SecretMatches(s.secrets[k.value], v.secrets[k.value], mk);
  }

  /** For any stored secret, a wrong one is told apart exactly if the entry is authenticated. */
  lemma WrongSecretRejectedIff(c: Crypto, s: State, i: nat, secret: Bytes, writes: nat, failing: set<string>)
    requires FindIndex((e: SecretEntry) => i < |s.secrets| && e.id == s.secrets[i].id, s.secrets) == Some(i)
    requires !s.secrets[i].aes.UnknownCipher? && s.secrets[i].aes.under != Scrypt(secret, s.secrets[i].salt)
    ensures Unlock(c, s, s.secrets[i].id, secret, writes, failing).1 == IncorrectPassword <==>
            !s.secrets[i].aes.UncheckedSecret?
  {
    FirstIs((e: SecretEntry) => e.id == s.secrets[i].id, s.secrets, i);
  }

  lemma VaultReplaced(c: Crypto, v: Vault, id: string, newSecret: Bytes)
    requires v.unlocked && FindSecret(v, id).Some?
    ensures var v' := VaultAddSecret(c, VaultRemoveSecret(v, id).0, id, newSecret, true).0;
            && v'.unlocked && |v'.secrets| > 0
            && v'.secrets[|v'.secrets| - 1] == VaultSecret(id, newSecret)
            && forall i :: 0 <= i < |v'.secrets| - 1 ==> v'.secrets[i].id != id
  {
    var v2 := VaultRemoveSecret(v, id).0;
    var v' := VaultAddSecret(c, v2, id, newSecret, true).0;
    forall x | x in v2.secrets ensures x.id != id {}
    assert v'.secrets == v2.secrets + [VaultSecret(id, newSecret)];
    forall i | 0 <= i < |v2.secrets| ensures v'.secrets[i].id != id {
      assert v'.secrets[i] in v2.secrets;
    }
  }

  lemma VaultPasswordChanged(c: Crypto, v: Vault, newSecret: Bytes, oldSecret: Bytes, secret: Bytes)
    requires VaultChangePassword(c, v, newSecret, oldSecret).1 == Done
    ensures var v' := VaultChangePassword(c, v, newSecret, oldSecret).0;
            && v'.unlocked
            && VaultUnlock(v'.(unlocked := false), PASSWORD, secret).1
            == (if secret == newSecret then Done else IncorrectPassword)
  {
    var v1 := VaultCheckOldPassword(v, oldSecret).0;
    var v' := VaultAddSecret(c, VaultRemoveSecret(v1, PASSWORD).0, PASSWORD, newSecret, true).0;
    assert VaultChangePassword(c, v, newSecret, oldSecret).0 == v';
    VaultReplaced(c, v1, PASSWORD, newSecret);
    LastPasswordUnlocks(v'.(unlocked := false), newSecret, secret);
  }

  lemma LastPasswordUnlocks(v: Vault, newSecret: Bytes, secret: Bytes)
    requires |v.secrets| > 0 && v.secrets[|v.secrets| - 1] == VaultSecret(PASSWORD, newSecret)
    requires forall i :: 0 <= i < |v.secrets| - 1 ==> v.secrets[i].id != PASSWORD
    ensures VaultUnlock(v, PASSWORD, secret).1 == (if secret == newSecret then Done else IncorrectPassword)
  {
    assert v.secrets[|v.secrets| - 1] in v.secrets;
  }

  /** After a password change the new password opens the keystore, to the same main key, and no other password does. */
  lemma PasswordChanged(c: Crypto, s: State, v: Vault, mk: MainKey, newSecret: Bytes, oldSecret: Bytes, salt: Bytes,
                        generated: MainKey, secret: Bytes, writes: nat, failing: set<string>)
    requires Lawful(c) && Matches(c, s, v, mk)
    requires ChangePassword(c, s, newSecret, oldSecret, salt, writes, failing, generated).1 == Done
    ensures var s' := ChangePassword(c, s, newSecret, oldSecret, salt, writes, failing, generated).0;
            var (t, o) := Unlock(c, Lock(s'), PASSWORD, secret, writes, failing);
            && o == (if secret == newSecret then Done else IncorrectPassword)
            && t.mainKey == (if secret == newSecret then Some(mk) else None)
  {
    var s' := ChangePassword(c, s, newSecret, oldSecret, salt, writes, failing, generated).0;
    var (v', p) := VaultChangePassword(c, v, newSecret, oldSecret);
    assert Matches(c, s', v', mk) && p == Done by {
      ChangePasswordRefines(c, s, v, mk, newSecret, oldSecret, salt, writes, failing, generated);
    }
    VaultPasswordChanged(c, v, newSecret, oldSecret, secret);
    UnlockOutcome(c, Lock(s'), v'.(unlocked := false), mk, secret, writes, failing);
  }

  lemma UnlockOutcome(c: Crypto, s: State, v: Vault, mk: MainKey, secret: Bytes, writes: nat, failing: set<string>)
    requires Lawful(c) && Matches(c, s, v, mk) && !v.unlocked
    ensures var (t, o) := Unlock(c, s, PASSWORD, secret, writes, failing);
            && o == VaultUnlock(v, PASSWORD, secret).1
            && t.mainKey == (if o == Done then Some(mk) else None)
  {
    UnlockRefines(c, s, v, mk, PASSWORD, secret, writes, failing);
  }

  // ----- Where the code falls short

  function Fresh(): State {
    State(None, [], [], [], None, false, [], [], "", Disk([], [], [], None))
  }

  function EmptyVault(): Vault {
    Vault(false, [], [], [], false, [], [])
  }

  /** A keystore loaded from empty storage holds the empty vault under any main key, and cannot be orphaned. */
  lemma FreshKeystoreMatches(c: Crypto, mk: MainKey, generated: MainKey)
    ensures Matches(c, Fresh(), EmptyVault(), mk) && !Orphaned(c, Fresh(), mk, generated)
  {
  }

  // ----- Every keystore with something to lose has an identity

  ghost predicate HoldsNothing(s: State) {
    s.mainKey.None? && s.secrets == [] && s.seeds == [] && forall k :: k in s.keys ==> k.privKey.None?
  }

  ghost predicate Identified(s: State) {
    s.disk == Disk(s.secrets, s.keys, s.seeds, s.uid) && (s.uid.Some? || HoldsNothing(s))
  }

  lemma BecomeReadyIdentifies(c: Crypto, s: State)
    requires Identified(s) && s.uid.Some?
    ensures Identified(BecomeReady(c, s))
  {
    var s1 := AddKeys(c, s.(ready := true), s.queued).0;
    assert Identified(s1) && s1.uid.Some?;
    assert Identified(AddExternalKeys(s1, s.queuedExternal));
  }

  lemma AddSecretIdentifies(c: Crypto, s: State, id: string, secret: Bytes, salt: Bytes, leaveUnlocked: bool,
                            generated: MainKey)
    requires Identified(s)
    ensures Identified(AddSecret(c, s, id, secret, salt, leaveUnlocked, generated).0)
  {
    var mainKey := s.mainKey.GetOr(generated);
    var s1 := if leaveUnlocked then s.(mainKey := Some(mainKey)) else s;
    var s2 := PersistSecrets(s1, s.secrets + [SecretEntry(id, salt, GcmSecret(Scrypt(secret, salt), mainKey))]);
    BecomeReadyIdentifies(c, if s.uid.Some? then s2 else PersistUid(s2, mainKey));
  }

  lemma UnlockKeepsIdentity(c: Crypto, s: State, id: string, secret: Bytes, writes: nat, failing: set<string>)
    requires Identified(s)
    ensures Identified(Unlock(c, s, id, secret, writes, failing).0)
  {
  }

  lemma StepIdentifies(c: Crypto, s: State, e: Event)
    requires Identified(s)
    ensures Identified(Step(c, s, e).0)
  {
    match e {
      case DoUnlock(id, secret, writes, failing) => UnlockKeepsIdentity(c, s, id, secret, writes, failing);
      case DoAddSecret(id, secret, salt, leaveUnlocked, generated) =>
        AddSecretIdentifies(c, s, id, secret, salt, leaveUnlocked, generated);
      case DoChangePassword(newSecret, oldSecret, salt, writes, failing, generated) =>
        UnlockKeepsIdentity(c, s, PASSWORD, oldSecret, writes, failing);
        var s1 := CheckOldPassword(c, s, oldSecret, writes, failing).0;
        AddSecretIdentifies(c, RemoveSecret(s1, PASSWORD).0, PASSWORD, newSecret, salt, true, generated);
      case _ =>
    }
  }

  lemma {:induction false} RunIdentifies(c: Crypto, s: State, events: seq<Event>)
    requires Identified(s)
    ensures Identified(Run(c, s, events))
    decreases |events|
  {
    if events == [] {
    } else {
      StepIdentifies(c, s, events[0]);
      RunIdentifies(c, Step(c, s, events[0]).0, events[1..]);
    }
  }

  /**
   So in every run from a fresh keystore, a first secret loses what is stored exactly if the keystore is
   locked, has no secrets, and its identity is not the generated main key.
   */
  lemma FreshRunOrphanedIff(c: Crypto, mk: MainKey, events: seq<Event>, generated: MainKey)
    requires Lawful(c) && NoneOrphans(c, Fresh(), events, mk)
    ensures var s := Run(c, Fresh(), events);
            Orphaned(c, s, LastKey(c, Fresh(), events, mk), generated) <==>
            s.mainKey.None? && s.secrets == [] && s.uid.Some? && s.uid.value != generated
  {
    var v, s, key := EmptyVault(), Run(c, Fresh(), events), LastKey(c, Fresh(), events, mk);
    FreshKeystoreMatches(c, mk, generated);
    RunIdentifies(c, Fresh(), events);
    RunRefines(c, Fresh(), v, mk, events);
    if s.uid.Some? {
      OrphanedIff(c, s, VaultAlong(c, Fresh(), v, events), key, generated);
    }
  }

  // ----- Keys that are lost

  function LosingRun(mk: MainKey, secret: Bytes, salt: Bytes, k: NewKey): seq<Event> {
    [DoAddSecret(PASSWORD, secret, salt, true, mk), DoAddKeys([k]), DoRemoveSecret(PASSWORD), DoLock]
  }

  lemma RunFour(c: Crypto, s: State, a: Event, b: Event, d: Event, e: Event)
    ensures Run(c, s, [a, b, d, e]) ==
            Step(c, Step(c, Step(c, Step(c, s, a).0, b).0, d).0, e).0
  {
    assert [a, b, d, e][1..] == [b, d, e] && [b, d, e][1..] == [d, e] && [d, e][1..] == [e] && [e][1..] == [];
    var s1 := Step(c, s, a).0;
    var s2 := Step(c, s1, b).0;
    var s3 := Step(c, s2, d).0;
    assert Run(c, s3, [e]) == Step(c, s3, e).0;
    assert Run(c, s2, [d, e]) == Run(c, s3, [e]);
    assert Run(c, s1, [b, d, e]) == Run(c, s2, [d, e]);
  }

  lemma KeyStored(c: Crypto, mk: MainKey, secret: Bytes, salt: Bytes, k: NewKey)
    ensures var s1 := Step(c, Fresh(), DoAddSecret(PASSWORD, secret, salt, true, mk)).0;
            var s2 := Step(c, s1, DoAddKeys([k])).0;
            && s1.secrets == [SecretEntry(PASSWORD, salt, GcmSecret(Scrypt(secret, salt), mk))]
            && s1.mainKey == Some(mk)
            && s2 == PersistKeys(s1, [EncryptNewKey(c, mk, k)]) && s1.uid == Some(mk)
            && s1.queued == [] && s1.queuedExternal == []
  {
    var s1 := Step(c, Fresh(), DoAddSecret(PASSWORD, secret, salt, true, mk)).0;
    assert s1.keys == [] && s1.ready;
    assert [k][..0] == [];
    assert UniqueKeys([k][..0]) == [];
    assert FindIndex((x: NewKey) => x.privateKey == k.privateKey, []).None?;
    assert UniqueKeys([k]) == [k];
    var p := (x: NewKey) => !HasKey(s1.keys, x.addr, INTERNAL);
    assert Filter(p, [k][..0]) == [];
    assert p(k) && Filter(p, [k]) == [k];
    assert s1.keys + EncryptNewKeys(c, mk, [k]) == [EncryptNewKey(c, mk, k)];
  }

  /**
   From a fresh keystore: a secret, a key, the removal of the secret and a lock leave a keystore that the next
   secret orphans.
   */
  lemma LosingRunEnds(c: Crypto, mk: MainKey, secret: Bytes, salt: Bytes, k: NewKey)
    ensures var t := Run(c, Fresh(), LosingRun(mk, secret, salt, k));
            && t.mainKey.None? && t.secrets == [] && t.keys == [EncryptNewKey(c, mk, k)] && t.uid == Some(mk)
            && t.queued == [] && t.queuedExternal == []
  {
    RunFour(c, Fresh(), DoAddSecret(PASSWORD, secret, salt, true, mk), DoAddKeys([k]), DoRemoveSecret(PASSWORD),
      DoLock);
    KeyStored(c, mk, secret, salt, k);
    var e := SecretEntry(PASSWORD, salt, GcmSecret(Scrypt(secret, salt), mk));
    FilterAppend((x: SecretEntry) => x.id != PASSWORD, [], e);
    assert [] + [e] == [e];
    assert HasSecret([e], PASSWORD) by {
      FirstIs((x: SecretEntry) => x.id == PASSWORD, [e], 0);
    }
  }

  /**
   So a run of the source's own operations loses a private key: it is stored, no secret opens it any
   more, and the identity stays that of the old main key.
   */
  lemma LastSecretLost(c: Crypto, mk: MainKey, secret: Bytes, salt: Bytes, k: NewKey,
                       newSecret: Bytes, newSalt: Bytes, generated: MainKey)
    requires generated != mk
    ensures var s := Run(c, Fresh(), LosingRun(mk, secret, salt, k));
            var t := AddSecret(c, s, PASSWORD, newSecret, newSalt, true, generated).0;
            && t.mainKey == Some(generated) && t.uid == Some(mk)
            && t.keys == [EncryptNewKey(c, mk, k)] && GetPrivateKey(c, t, k.addr) == Failed(CorruptedSecret)
  {
    LosingRunEnds(c, mk, secret, salt, k);
    var s := Run(c, Fresh(), LosingRun(mk, secret, salt, k));
    var t := AddSecret(c, s, PASSWORD, newSecret, newSalt, true, generated).0;
    assert t.keys == [EncryptNewKey(c, mk, k)];
    FirstIs((x: StoredKey) => x.addr == k.addr && x.kind == INTERNAL, t.keys, 0);
  }

  /** Waiting internal keys are added when the keystore becomes ready. */
  predicate AddsInternalKeys(s: State) {
    s.mainKey.Some? && exists k :: k in UniqueKeys(s.queued) && !HasKey(s.keys, k.addr, INTERNAL)
  }

  lemma AddsInternalKeysIff(c: Crypto, s: State)
    ensures |AddKeys(c, s.(ready := true), s.queued).0.keys| > |s.keys| <==> AddsInternalKeys(s)
  {
    var added := Filter((k: NewKey) => !HasKey(s.keys, k.addr, INTERNAL), UniqueKeys(s.queued));
    if added != [] {
      assert added[0] in added;
    }
  }

  lemma InternalKeysOverwrite(c: Crypto, s: State, addr: string, kind: string)
    requires AddsInternalKeys(s) && !HasKey(s.keys, addr, kind) && kind != INTERNAL
    ensures !HasKey(BecomeReady(c, s).keys, addr, kind)
  {
    var same := (k: StoredKey) => k.addr == addr && k.kind == kind;
    var s1 := AddKeys(c, s.(ready := true), s.queued).0;
    AddsInternalKeysIff(c, s);
    forall k | k in s1.keys ensures !same(k) {
    }
  }

  lemma ExternalKeysStored(c: Crypto, s: State, x: ExternalKey)
    requires !AddsInternalKeys(s) && x in s.queuedExternal && !HasKey(s.keys, x.addr, x.kind)
    ensures HasKey(BecomeReady(c, s).keys, x.addr, x.kind)
  {
    AddsInternalKeysIff(c, s);
    var same := (k: StoredKey) => k.addr == x.addr && k.kind == x.kind;
    var unknown := (k: ExternalKey) => !HasKey(s.keys, k.addr, k.kind);
    var added := Filter(unknown, Dedup(s.queuedExternal));
    assert x in Dedup(s.queuedExternal) && unknown(x) && x in added;
    var i :| 0 <= i < |added| && added[i] == x;
    var t := BecomeReady(c, s);
    assert t.keys[|s.keys| + i] == StoredKey(x.addr, x.kind, None);
    assert t.keys[|s.keys| + i] in t.keys && same(t.keys[|s.keys| + i]);
  }

  /**
   When the keystore becomes ready, a waiting external key that is not stored yet is stored exactly if
   the keystore is locked or has every waiting internal key already: else its addition is overwritten.
   */
  lemma WaitingExternalKeyStoredIff(c: Crypto, s: State, x: ExternalKey)
    requires x in s.queuedExternal && !HasKey(s.keys, x.addr, x.kind) && x.kind != INTERNAL
    ensures HasKey(BecomeReady(c, s).keys, x.addr, x.kind) <==>
            s.mainKey.None? || forall k :: k in UniqueKeys(s.queued) ==> HasKey(s.keys, k.addr, INTERNAL)
  {
    if AddsInternalKeys(s) {
      InternalKeysOverwrite(c, s, x.addr, x.kind);
    } else {
      ExternalKeysStored(c, s, x);
    }
  }
}
