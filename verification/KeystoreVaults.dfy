/**
 The keystore without cryptography, and the proof that the keystore cannot be told from it
 (src/controllers/keystore/keystore.ts).
 */
module KeystoreVaults {
  import opened Wrappers
  import opened Sequences
  import opened Keystores

  datatype VaultSecret = VaultSecret(id: string, secret: Bytes)
  datatype VaultKey = VaultKey(addr: string, kind: string, plain: Option<Bytes>)

  /** What a stored seed means: entropy and passphrase, or a text that is no valid phrase. */
  datatype Meaning =
    | Phrase(entropy: Bytes, passphrase: Option<Bytes>)
    | Unusable(text: Bytes, passphrase: Option<Bytes>)
  datatype VaultSeed = VaultSeed(id: string, meaning: Meaning)

  datatype Vault = Vault(
    unlocked: bool,
    secrets: seq<VaultSecret>,
    keys: seq<VaultKey>,
    seeds: seq<VaultSeed>,
    ready: bool,
    queued: seq<NewKey>,
    queuedExternal: seq<ExternalKey>)

  function FindSecret(v: Vault, id: string): Option<nat> {
    FindIndex((e: VaultSecret) => e.id == id, v.secrets)
  }

  predicate HasVaultKey(keys: seq<VaultKey>, addr: string, kind: string) {
    FindIndex((k: VaultKey) => k.addr == addr && k.kind == kind, keys).Some?
  }

  function VaultUnlock(v: Vault, id: string, secret: Bytes): (Vault, Outcome) {
    if v.secrets == [] then (v, NoSecrets)
    else
      match FindSecret(v, id)
      case None => (v, SecretNotFound)
      case Some(i) =>
        if v.secrets[i].secret == secret then (v.(unlocked := true), Done) else (v, IncorrectPassword)
  }

  function VaultAddKeys(c: Crypto, v: Vault, keysToAdd: seq<NewKey>): (Vault, Outcome) {
    if keysToAdd == [] then (v, Done)
    else if !v.ready then (v.(queued := v.queued + keysToAdd), Done)
    else if !v.unlocked then (v, MustUnlock)
    else
      var added := Filter((k: NewKey) => !HasVaultKey(v.keys, k.addr, INTERNAL), UniqueKeys(keysToAdd));
      (v.(keys := v.keys + Map((k: NewKey) => VaultKey(k.addr, INTERNAL, Some(c.hexBytes(k.privateKey))), added)), Done)
  }

  function VaultAddExternalKeys(v: Vault, keysToAdd: seq<ExternalKey>): Vault {
    if keysToAdd == [] then v
    else if !v.ready then v.(queuedExternal := v.queuedExternal + keysToAdd)
    else
      var added := Filter((k: ExternalKey) => !HasVaultKey(v.keys, k.addr, k.kind), Dedup(keysToAdd));
      v.(keys := v.keys + Map((k: ExternalKey) => VaultKey(k.addr, k.kind, None), added))
  }

  function VaultAddSecret(c: Crypto, v: Vault, id: string, secret: Bytes, leaveUnlocked: bool): (Vault, Outcome) {
    if FindSecret(v, id).Some? then (v, DuplicateSecret)
    else if !v.unlocked && v.secrets != [] then (v, MustUnlock)
    else
      var v1 := v.(unlocked := v.unlocked || leaveUnlocked, secrets := v.secrets + [VaultSecret(id, secret)]);
      (VaultBecomeReady(c, v1), Done)
  }

  /** Waiting external keys are added only if no waiting internal key is. */
  function VaultBecomeReady(c: Crypto, v: Vault): Vault {
    var v1 := VaultAddKeys(c, v.(ready := true), v.queued).0;
    if |v1.keys| > |v.keys| then v1 else VaultAddExternalKeys(v1, v.queuedExternal)
  }

  function VaultRemoveSecret(v: Vault, id: string): (Vault, Outcome) {
    if FindSecret(v, id).None? then (v, SecretNotFound)
    else (v.(secrets := Filter((e: VaultSecret) => e.id != id, v.secrets)), Done)
  }

  function VaultCheckOldPassword(v: Vault, oldSecret: Bytes): (Vault, Outcome) {
    if oldSecret != [] then VaultUnlock(v, PASSWORD, oldSecret) else (v, Done)
  }

  function VaultReplacePassword(c: Crypto, v: Vault, newSecret: Bytes): (Vault, Outcome) {
    var (v1, removed) := VaultRemoveSecret(v, PASSWORD);
    if removed != Done then (v1, removed) else VaultAddSecret(c, v1, PASSWORD, newSecret, true)
  }

  function VaultChangePassword(c: Crypto, v: Vault, newSecret: Bytes, oldSecret: Bytes): (Vault, Outcome) {
    var (v1, checked) := VaultCheckOldPassword(v, oldSecret);
    if checked != Done then (v1, checked)
    else if !v1.unlocked then (v1, MustUnlock)
    else VaultReplacePassword(c, v1, newSecret)
  }

  function VaultRemoveKey(v: Vault, addr: string, kind: string): (Vault, Outcome) {
    if !v.unlocked then (v, MustUnlock)
    else if !HasVaultKey(v.keys, addr, kind) then (v, KeyNotFound)
    else (v.(keys := Filter((k: VaultKey) => !(k.addr == addr && k.kind == kind), v.keys)), Done)
  }

  function VaultPrivateKey(v: Vault, addr: string): Read<Bytes> {
    if !v.unlocked then Failed(MustUnlock)
    else
      match FindIndex((k: VaultKey) => k.addr == addr && k.kind == INTERNAL, v.keys)
      case None => Failed(KeyNotFound)
      case Some(i) => if v.keys[i].plain.None? then Failed(KeyNotFound) else Value(v.keys[i].plain.value)
  }

  function VaultRead(c: Crypto, v: VaultSeed): Read<SavedSeed> {
    match v.meaning
    case Unusable(_, _) => Failed(InvalidSeed)
    case Phrase(entropy, passphrase) => Value(SavedSeed(c.phraseOf(entropy), passphrase))
  }

  function VaultSavedSeed(c: Crypto, v: Vault, id: string): Read<SavedSeed> {
    if !v.unlocked then Failed(MustUnlock)
    else
      match FindIndex((e: VaultSeed) => e.id == id, v.seeds)
      case None => Failed(SeedNotFound)
      case Some(i) =>
        VaultRead(c, v.seeds[i])
  }

  predicate StopsVaultSearch(c: Crypto, v: Vault, phrase: Bytes, passphrase: Bytes, e: VaultSeed) {
    EndsSearch(VaultSavedSeed(c, v, e.id), phrase, passphrase)
  }

  function VaultAddSeed(c: Crypto, v: Vault, id: string, phrase: Bytes, passphrase: Bytes): (Vault, Outcome) {
    if !v.unlocked then (v, MustUnlock)
    else
      match c.entropyOf(phrase)
      case None => (v, InvalidSeed)
      case Some(entropy) =>
        match FindIndex(e => StopsVaultSearch(c, v, c.phraseOf(entropy), passphrase, e), v.seeds)
        case None => (v.(seeds := v.seeds + [VaultSeed(id, Phrase(entropy, NonEmpty(passphrase)))]), Done)
        case Some(i) =>
          match VaultSavedSeed(c, v, v.seeds[i].id)
          case Failed(reason) => (v, reason)
          case Value(_) => (v, Done)
  }

  /**
   A restart locks the vault and forgets what only memory held. Nothing of this depends on encryption or
   migration.
   */
  function VaultStep(c: Crypto, v: Vault, e: Event): (Vault, Outcome) {
    match e
    case DoUnlock(id, secret, _, _) => VaultUnlock(v, id, secret)
    case DoLock => (v.(unlocked := false), Done)
    case DoAddSecret(id, secret, _, leaveUnlocked, _) => VaultAddSecret(c, v, id, secret, leaveUnlocked)
    case DoRemoveSecret(id) => VaultRemoveSecret(v, id)
    case DoChangePassword(newSecret, oldSecret, _, _, _, _) => VaultChangePassword(c, v, newSecret, oldSecret)
    case DoAddKeys(keys) => VaultAddKeys(c, v, keys)
    case DoAddExternalKeys(keys) => (VaultAddExternalKeys(v, keys), Done)
    case DoRemoveKey(addr, kind) => VaultRemoveKey(v, addr, kind)
    case DoAddSeed(id, phrase, passphrase) => VaultAddSeed(c, v, id, phrase, passphrase)
    case DoDeleteSeed(id) => (v.(seeds := Filter((e: VaultSeed) => e.id != id, v.seeds)), Done)
    case DoRestart => (v.(unlocked := false, ready := v.secrets != [], queued := [], queuedExternal := []), Done)
  }

  // ----- The relation

  ghost predicate SecretMatches(e: SecretEntry, v: VaultSecret, mk: MainKey) {
    && e.id == v.id
    && (e.aes.OldSecret? || e.aes.GcmSecret?)
    && e.aes.under == Scrypt(v.secret, e.salt)
    && e.aes.plain == mk
  }

  /** Every stored secret, old or migrated, wraps the same main key. */
  ghost predicate SecretsMatch(es: seq<SecretEntry>, vs: seq<VaultSecret>, mk: MainKey) {
    && |es| == |vs|
    && (forall i :: 0 <= i < |es| ==> SecretMatches(es[i], vs[i], mk))
    && (forall i, j :: 0 <= i < j < |es| ==> es[i].id != es[j].id)
  }

  ghost predicate KeyMatches(c: Crypto, k: StoredKey, v: VaultKey, mk: MainKey) {
    && k.addr == v.addr && k.kind == v.kind
    && (k.privKey.None? <==> v.plain.None?)
    && (k.privKey.Some? ==> DecryptWithKey(c, mk, k.privKey.value) == v.plain)
  }

  ghost predicate KeysMatch(c: Crypto, ks: seq<StoredKey>, vs: seq<VaultKey>, mk: MainKey) {
    |ks| == |vs| && forall i :: 0 <= i < |ks| ==> KeyMatches(c, ks[i], vs[i], mk)
  }

  /** The passphrase of an old seed was encrypted with the counter running on from the seed. */
  ghost function SeedMeaning(c: Crypto, e: StoredSeed, mk: MainKey): Option<Meaning> {
    match e.seed
    case GcmPayload(under, entropy) =>
      if under != mk || c.entropyOf(c.phraseOf(entropy)) != Some(entropy) then None
      else
        (match e.passphrase
         case None => Some(Phrase(entropy, None))
         case Some(CtrPayload(_)) => None
         case Some(GcmPayload(k, plain)) => if k == mk then Some(Phrase(entropy, NonEmpty(plain))) else None)
    case CtrPayload(data) =>
      if e.passphrase.Some? && e.passphrase.value.GcmPayload? then None
      else
        var text := Ctr(c, mk, 0, data);
        var pass := if e.passphrase.None? then None else NonEmpty(Ctr(c, mk, |data|, e.passphrase.value.data));
        match c.entropyOf(text)
        case None => Some(Unusable(text, pass))
        case Some(entropy) => Some(Phrase(entropy, pass))
  }

  ghost predicate SeedMatches(c: Crypto, e: StoredSeed, v: VaultSeed, mk: MainKey) {
    e.id == v.id && SeedMeaning(c, e, mk) == Some(v.meaning)
  }

  ghost predicate SeedsMatch(c: Crypto, es: seq<StoredSeed>, vs: seq<VaultSeed>, mk: MainKey) {
    |es| == |vs| && forall i :: 0 <= i < |es| ==> SeedMatches(c, es[i], vs[i], mk)
  }

  /** Storage holds what memory holds, and both hold the vault. */
  ghost predicate Matches(c: Crypto, s: State, v: Vault, mk: MainKey) {
    && s.mainKey == (if v.unlocked then Some(mk) else None)
    && SecretsMatch(s.secrets, v.secrets, mk)
    && KeysMatch(c, s.keys, v.keys, mk)
    && SeedsMatch(c, s.seeds, v.seeds, mk)
    && (s.uid.Some? ==> s.uid.value == mk)
    && s.disk == Disk(s.secrets, s.keys, s.seeds, s.uid)
    && s.ready == v.ready && s.queued == v.queued && s.queuedExternal == v.queuedExternal
  }

  /** The keystream at `offset` is that at the start, for `n` bytes. */
  ghost predicate KeystreamRepeats(c: Crypto, mk: MainKey, offset: nat, n: nat) {
    forall j :: 0 <= j < n ==> KeyByte(c, mk, j) == KeyByte(c, mk, offset + j)
  }

  /**
   A seed that `getSavedSeed` reads as what it means: migrated, or no phrase at all, or an old phrase in
   the usual spelling whose passphrase, if any, sits where the keystream repeats its start.
   */
  ghost predicate ReadsTrue(c: Crypto, mk: MainKey, e: StoredSeed) {
    || e.seed.GcmPayload?
    || c.entropyOf(Ctr(c, mk, 0, e.seed.data)).None?
    || (&& Canonical(c, Ctr(c, mk, 0, e.seed.data))
        && (e.passphrase.Some? && e.passphrase.value.CtrPayload? ==>
              KeystreamRepeats(c, mk, |e.seed.data|, |e.passphrase.value.data|)))
  }

  ghost predicate Canonical(c: Crypto, text: Bytes) {
    c.entropyOf(text).Some? && c.phraseOf(c.entropyOf(text).value) == text
  }

  ghost predicate KeyMoves(c: Crypto, k: StoredKey, mk: MainKey, other: MainKey) {
    k.privKey.Some? && DecryptWithKey(c, other, k.privKey.value) != DecryptWithKey(c, mk, k.privKey.value)
  }

  /**
   A first secret would make a new main key, under which something stored is lost: the identity, or a
   payload that reads differently.
   */
  ghost predicate Orphaned(c: Crypto, s: State, mk: MainKey, generated: MainKey) {
    && s.mainKey.None? && s.secrets == []
    && (|| (s.uid.Some? && generated != mk)
        || (exists k :: k in s.keys && KeyMoves(c, k, mk, generated))
        || (exists e :: e in s.seeds && SeedMeaning(c, e, generated) != SeedMeaning(c, e, mk)))
  }

  /** The one step that loses what is stored. */
  ghost predicate Orphans(c: Crypto, s: State, e: Event, mk: MainKey) {
    e.DoAddSecret? && Orphaned(c, s, mk, e.generated)
  }

  /** A new main key is generated: the keystore is locked and has no secrets. */
  predicate Generates(s: State, e: Event) {
    e.DoAddSecret? && s.mainKey.None? && s.secrets == []
  }

  function NextKey(s: State, e: Event, mk: MainKey): MainKey {
    if Generates(s, e) then e.generated else mk
  }

  // ----- Migration is invisible

  lemma MigrateKeysKeeps(c: Crypto, mk: MainKey, failing: set<string>, ks: seq<StoredKey>, vs: seq<VaultKey>)
    requires KeysMatch(c, ks, vs, mk)
    ensures KeysMatch(c, MigrateKeys(c, mk, failing, ks), vs, mk)
  {
    forall i | 0 <= i < |ks| ensures KeyMatches(c, MigrateKeys(c, mk, failing, ks)[i], vs[i], mk) {
      assert KeyMatches(c, ks[i], vs[i], mk);
    }
  }

  lemma MigrateSeedsKeeps(c: Crypto, mk: MainKey, failing: set<string>, es: seq<StoredSeed>, vs: seq<VaultSeed>)
    requires Lawful(c) && SeedsMatch(c, es, vs, mk)
    ensures SeedsMatch(c, MigrateSeeds(c, mk, failing, es), vs, mk)
  {
    forall i | 0 <= i < |es| ensures SeedMatches(c, MigrateSeeds(c, mk, failing, es)[i], vs[i], mk) {
      assert SeedMatches(c, es[i], vs[i], mk);
    }
  }

  lemma MigrateSecretsKeeps(es: seq<SecretEntry>, vs: seq<VaultSecret>, i: nat, mk: MainKey)
    requires SecretsMatch(es, vs, mk) && i < |es|
    ensures SecretsMatch(MigrateSecrets(es, es[i].id, GcmSecret(es[i].aes.under, mk)), vs, mk)
  {
    forall j | 0 <= j < |es|
      ensures SecretMatches(MigrateSecrets(es, es[i].id, GcmSecret(es[i].aes.under, mk))[j], vs[j], mk)
    {
      assert SecretMatches(es[j], vs[j], mk) && SecretMatches(es[i], vs[i], mk);
      if es[j].id == es[i].id {
        assert i == j;
      }
    }
  }

  lemma PersistSecretsKeeps(c: Crypto, s: State, v: Vault, mk: MainKey, secrets: seq<SecretEntry>)
    requires Matches(c, s, v, mk) && SecretsMatch(secrets, v.secrets, mk)
    ensures Matches(c, PersistSecrets(s, secrets), v, mk)
  {
  }

  lemma PersistKeysKeeps(c: Crypto, s: State, v: Vault, mk: MainKey, keys: seq<StoredKey>)
    requires Matches(c, s, v, mk) && KeysMatch(c, keys, v.keys, mk)
    ensures Matches(c, PersistKeys(s, keys), v, mk)
  {
  }

  lemma PersistSeedsKeeps(c: Crypto, s: State, v: Vault, mk: MainKey, seeds: seq<StoredSeed>)
    requires Matches(c, s, v, mk) && SeedsMatch(c, seeds, v.seeds, mk)
    ensures Matches(c, PersistSeeds(s, seeds), v, mk)
  {
  }

  /** Wherever the three writes of a migration stop, memory and storage still hold the same vault. */
  lemma MigrateAllKeeps(c: Crypto, s: State, v: Vault, mk: MainKey, secrets: Option<seq<SecretEntry>>,
                        writes: nat, failing: set<string>)
    requires Lawful(c) && Matches(c, s, v, mk)
    requires secrets.Some? ==> SecretsMatch(secrets.value, v.secrets, mk)
    ensures Matches(c, MigrateAll(c, s, mk, secrets, writes, failing), v, mk)
  {
    var keys, seeds := MigrateKeys(c, mk, failing, s.keys), MigrateSeeds(c, mk, failing, s.seeds);
    MigrateKeysKeeps(c, mk, failing, s.keys, v.keys);
    MigrateSeedsKeeps(c, mk, failing, s.seeds, v.seeds);
    if secrets.None? || writes > 0 {
      var s1 := if secrets.Some? then PersistSecrets(s, secrets.value) else s;
      if secrets.Some? {
        PersistSecretsKeeps(c, s, v, mk, secrets.value);
      }
      PersistKeysKeeps(c, s1, v, mk, keys);
      PersistSeedsKeeps(c, PersistKeys(s1, keys), v, mk, seeds);
    }
  }

  lemma UnlockRefines(c: Crypto, s: State, v: Vault, mk: MainKey, id: string, secret: Bytes, writes: nat,
                      failing: set<string>)
    requires Lawful(c) && Matches(c, s, v, mk)
    ensures var (s', o) := Unlock(c, s, id, secret, writes, failing);
            var (v', p) := VaultUnlock(v, id, secret);
            Matches(c, s', v', mk) && o == p
  {
    SecretLookup(s.secrets, v, mk, id);
    match FindSecret(v, id) {
      case None =>
      case Some(i) =>
        var e := s.secrets[i];
        assert SecretMatches(e, v.secrets[i], mk);
        if v.secrets[i].secret == secret {
          assert mk[..16] + mk[16..32] == mk && mk[..32] == mk;
          var s1 := s.(mainKey := Some(mk), errorMessage := "");
          MigrateSecretsKeeps(s.secrets, v.secrets, i, mk);
          var secrets :=
            if e.aes.OldSecret? then Some(MigrateSecrets(s.secrets, e.id, GcmSecret(e.aes.under, mk))) else None;
          MigrateAllKeeps(c, s1, v.(unlocked := true), mk, secrets, writes, failing);
        }
    }
  }

  // ----- The other operations

  lemma SecretLookup(es: seq<SecretEntry>, v: Vault, mk: MainKey, id: string)
    requires SecretsMatch(es, v.secrets, mk)
    ensures FindIndex((e: SecretEntry) => e.id == id, es) == FindSecret(v, id)
  {
    forall i | 0 <= i < |es| ensures es[i].id == v.secrets[i].id {
      assert SecretMatches(es[i], v.secrets[i], mk);
    }
    FindPairs((e: SecretEntry) => e.id == id, es, (e: VaultSecret) => e.id == id, v.secrets);
  }

  lemma KeyLookup(c: Crypto, ks: seq<StoredKey>, vs: seq<VaultKey>, mk: MainKey, addr: string, kind: string)
    requires KeysMatch(c, ks, vs, mk)
    ensures FindIndex((k: StoredKey) => k.addr == addr && k.kind == kind, ks)
         == FindIndex((k: VaultKey) => k.addr == addr && k.kind == kind, vs)
    ensures HasKey(ks, addr, kind) == HasVaultKey(vs, addr, kind)
  {
    forall i | 0 <= i < |ks| ensures ks[i].addr == vs[i].addr && ks[i].kind == vs[i].kind {
      assert KeyMatches(c, ks[i], vs[i], mk);
    }
    FindPairs((k: StoredKey) => k.addr == addr && k.kind == kind, ks,
              (k: VaultKey) => k.addr == addr && k.kind == kind, vs);
  }

  lemma AppendKeysKeeps(c: Crypto, s: State, v: Vault, mk: MainKey, ks: seq<StoredKey>, vs: seq<VaultKey>)
    requires Matches(c, s, v, mk) && KeysMatch(c, ks, vs, mk)
    ensures Matches(c, PersistKeys(s, s.keys + ks), v.(keys := v.keys + vs), mk)
  {
    assert KeysMatch(c, s.keys + ks, v.keys + vs, mk);
  }

  lemma NothingAppended(v: Vault, vs: seq<VaultKey>)
    requires vs == []
    ensures v.(keys := v.keys + vs) == v
  {
  }

  lemma AddKeysRefines(c: Crypto, s: State, v: Vault, mk: MainKey, keysToAdd: seq<NewKey>)
    requires Matches(c, s, v, mk)
    ensures var (s', o) := AddKeys(c, s, keysToAdd);
            var (v', p) := VaultAddKeys(c, v, keysToAdd);
            Matches(c, s', v', mk) && o == p
  {
    if keysToAdd != [] && s.ready && v.unlocked {
      var unique := UniqueKeys(keysToAdd);
      forall i | 0 <= i < |unique|
        ensures HasKey(s.keys, unique[i].addr, INTERNAL) == HasVaultKey(v.keys, unique[i].addr, INTERNAL)
      {
        KeyLookup(c, s.keys, v.keys, mk, unique[i].addr, INTERNAL);
      }
      SameFilter((k: NewKey) => !HasKey(s.keys, k.addr, INTERNAL),
                 (k: NewKey) => !HasVaultKey(v.keys, k.addr, INTERNAL), unique);
      var added := Filter((k: NewKey) => !HasKey(s.keys, k.addr, INTERNAL), unique);
      var ks := EncryptNewKeys(c, mk, added);
      var vs := Map((k: NewKey) => VaultKey(k.addr, INTERNAL, Some(c.hexBytes(k.privateKey))), added);
      if added == [] {
        NothingAppended(v, vs);
      } else {
        AppendKeysKeeps(c, s, v, mk, ks, vs);
      }
    }
  }

  lemma AddExternalKeysRefines(c: Crypto, s: State, v: Vault, mk: MainKey, keysToAdd: seq<ExternalKey>)
    requires Matches(c, s, v, mk)
    ensures Matches(c, AddExternalKeys(s, keysToAdd), VaultAddExternalKeys(v, keysToAdd), mk)
  {
    if keysToAdd != [] && s.ready {
      var unique := Dedup(keysToAdd);
      forall i | 0 <= i < |unique|
        ensures HasKey(s.keys, unique[i].addr, unique[i].kind) == HasVaultKey(v.keys, unique[i].addr, unique[i].kind)
      {
        KeyLookup(c, s.keys, v.keys, mk, unique[i].addr, unique[i].kind);
      }
      SameFilter((k: ExternalKey) => !HasKey(s.keys, k.addr, k.kind),
                 (k: ExternalKey) => !HasVaultKey(v.keys, k.addr, k.kind), unique);
      var added := Filter((k: ExternalKey) => !HasKey(s.keys, k.addr, k.kind), unique);
      var ks := Map((k: ExternalKey) => StoredKey(k.addr, k.kind, None), added);
      var vs := Map((k: ExternalKey) => VaultKey(k.addr, k.kind, None), added);
      if added == [] {
        NothingAppended(v, vs);
      } else {
        AppendKeysKeeps(c, s, v, mk, ks, vs);
      }
    }
  }

  lemma BecomeReadyRefines(c: Crypto, s: State, v: Vault, mk: MainKey)
    requires Matches(c, s, v, mk)
    ensures Matches(c, BecomeReady(c, s), VaultBecomeReady(c, v), mk)
  {
    var s1, v1 := s.(ready := true), v.(ready := true);
    AddKeysRefines(c, s1, v1, mk, s.queued);
    AddExternalKeysRefines(c, AddKeys(c, s1, s.queued).0, VaultAddKeys(c, v1, v.queued).0, mk, s.queuedExternal);
  }

  lemma AppendSecretMatches(es: seq<SecretEntry>, vs: seq<VaultSecret>, mk: MainKey, id: string, secret: Bytes,
                            salt: Bytes)
    requires SecretsMatch(es, vs, mk)
    requires forall v :: v in vs ==> v.id != id
    ensures SecretsMatch(es + [SecretEntry(id, salt, GcmSecret(Scrypt(secret, salt), mk))],
                         vs + [VaultSecret(id, secret)], mk)
  {
    forall i | 0 <= i < |es| ensures es[i].id != id {
      assert SecretMatches(es[i], vs[i], mk) && vs[i] in vs;
    }
  }

  lemma StoreSecretKeeps(c: Crypto, s: State, v: Vault, mk: MainKey, id: string, secret: Bytes, salt: Bytes)
    requires Matches(c, s, v, mk) && forall x :: x in v.secrets ==> x.id != id
    ensures var s1 := PersistSecrets(s, s.secrets + [SecretEntry(id, salt, GcmSecret(Scrypt(secret, salt), mk))]);
            var v1 := v.(secrets := v.secrets + [VaultSecret(id, secret)]);
            Matches(c, s1, v1, mk) && Matches(c, PersistUid(s1, mk), v1, mk)
  {
    AppendSecretMatches(s.secrets, v.secrets, mk, id, secret, salt);
  }

  /** A secret is added under the main key held, or under the one generated. */
  lemma AddSecretRefines(c: Crypto, s: State, v: Vault, mk: MainKey, id: string, secret: Bytes, salt: Bytes,
                         leaveUnlocked: bool, generated: MainKey)
    requires Matches(c, s, v, mk)
    requires s.mainKey.None? && s.secrets == [] ==> generated == mk
    ensures var (s', o) := AddSecret(c, s, id, secret, salt, leaveUnlocked, generated);
            var (v', p) := VaultAddSecret(c, v, id, secret, leaveUnlocked);
            Matches(c, s', v', mk) && o == p
  {
    SecretLookup(s.secrets, v, mk, id);
    if FindSecret(v, id).None? && (v.unlocked || v.secrets == []) {
      var s0 := if leaveUnlocked then s.(mainKey := Some(mk)) else s;
      var v0 := v.(unlocked := v.unlocked || leaveUnlocked);
      StoreSecretKeeps(c, s0, v0, mk, id, secret, salt);
      var s1 := PersistSecrets(s0, s.secrets + [SecretEntry(id, salt, GcmSecret(Scrypt(secret, salt), mk))]);
      var v1 := v0.(secrets := v.secrets + [VaultSecret(id, secret)]);
      BecomeReadyRefines(c, if s.uid.Some? then s1 else PersistUid(s1, mk), v1, mk);
    }
  }

  lemma FilterSecretsMatch(es: seq<SecretEntry>, vs: seq<VaultSecret>, mk: MainKey, id: string)
    requires SecretsMatch(es, vs, mk)
    ensures SecretsMatch(Filter((e: SecretEntry) => e.id != id, es), Filter((e: VaultSecret) => e.id != id, vs), mk)
  {
    forall i | 0 <= i < |es| ensures es[i].id == vs[i].id {
      assert SecretMatches(es[i], vs[i], mk);
    }
    FilterPairs((e: SecretEntry) => e.id != id, es, (e: VaultSecret) => e.id != id, vs,
                (e, x) => SecretMatches(e, x, mk));
    FilterDistinct((e: SecretEntry) => e.id != id, es, (e: SecretEntry) => e.id);
  }

  lemma RemoveSecretRefines(c: Crypto, s: State, v: Vault, mk: MainKey, id: string)
    requires Matches(c, s, v, mk)
    ensures Matches(c, RemoveSecret(s, id).0, VaultRemoveSecret(v, id).0, mk)
    ensures RemoveSecret(s, id).1 == VaultRemoveSecret(v, id).1
  {
    SecretLookup(s.secrets, v, mk, id);
    FilterSecretsMatch(s.secrets, v.secrets, mk, id);
  }

  lemma RemoveKeyRefines(c: Crypto, s: State, v: Vault, mk: MainKey, addr: string, kind: string)
    requires Matches(c, s, v, mk)
    ensures Matches(c, RemoveKey(s, addr, kind).0, VaultRemoveKey(v, addr, kind).0, mk)
    ensures RemoveKey(s, addr, kind).1 == VaultRemoveKey(v, addr, kind).1
  {
    KeyLookup(c, s.keys, v.keys, mk, addr, kind);
    forall i | 0 <= i < |s.keys| ensures s.keys[i].addr == v.keys[i].addr && s.keys[i].kind == v.keys[i].kind {
      assert KeyMatches(c, s.keys[i], v.keys[i], mk);
    }
    FilterPairs((k: StoredKey) => !(k.addr == addr && k.kind == kind), s.keys,
                (k: VaultKey) => !(k.addr == addr && k.kind == kind), v.keys,
                (k, x) => KeyMatches(c, k, x, mk));
  }

  lemma DeleteSeedRefines(c: Crypto, s: State, v: Vault, mk: MainKey, id: string)
    requires Matches(c, s, v, mk)
    ensures Matches(c, DeleteSeed(s, id), v.(seeds := Filter((e: VaultSeed) => e.id != id, v.seeds)), mk)
  {
    forall i | 0 <= i < |s.seeds| ensures s.seeds[i].id == v.seeds[i].id {
      assert SeedMatches(c, s.seeds[i], v.seeds[i], mk);
    }
    FilterPairs((e: StoredSeed) => e.id != id, s.seeds, (e: VaultSeed) => e.id != id, v.seeds,
                (e, x) => SeedMatches(c, e, x, mk));
  }

  lemma ReplacePasswordRefines(c: Crypto, s: State, v: Vault, mk: MainKey, newSecret: Bytes, salt: Bytes,
                               generated: MainKey)
    requires Matches(c, s, v, mk) && v.unlocked
    ensures var (s', o) := ReplacePassword(c, s, newSecret, salt, generated);
            var (v', p) := VaultReplacePassword(c, v, newSecret);
            Matches(c, s', v', mk) && o == p
  {
    RemoveSecretRefines(c, s, v, mk, PASSWORD);
    AddSecretRefines(c, RemoveSecret(s, PASSWORD).0, VaultRemoveSecret(v, PASSWORD).0, mk,
                     PASSWORD, newSecret, salt, true, generated);
  }

  lemma CheckOldPasswordRefines(c: Crypto, s: State, v: Vault, mk: MainKey, oldSecret: Bytes, writes: nat,
                                failing: set<string>)
    requires Lawful(c) && Matches(c, s, v, mk)
    ensures var (s', o) := CheckOldPassword(c, s, oldSecret, writes, failing);
            var (v', p) := VaultCheckOldPassword(v, oldSecret);
            Matches(c, s', v', mk) && o == p
  {
    UnlockRefines(c, s, v, mk, PASSWORD, oldSecret, writes, failing);
  }

  lemma ChangePasswordRefines(c: Crypto, s: State, v: Vault, mk: MainKey, newSecret: Bytes, oldSecret: Bytes,
                              salt: Bytes, writes: nat, failing: set<string>, generated: MainKey)
    requires Lawful(c) && Matches(c, s, v, mk)
    ensures var (s', o) := ChangePassword(c, s, newSecret, oldSecret, salt, writes, failing, generated);
            var (v', p) := VaultChangePassword(c, v, newSecret, oldSecret);
            Matches(c, s', v', mk) && o == p
  {
    CheckOldPasswordRefines(c, s, v, mk, oldSecret, writes, failing);
    var (s1, o) := CheckOldPassword(c, s, oldSecret, writes, failing);
    var v1 := VaultCheckOldPassword(v, oldSecret).0;
    if o == Done && v1.unlocked {
      ReplacePasswordRefines(c, s1, v1, mk, newSecret, salt, generated);
    }
  }

  // ----- Reading

  /** The private key read under any unlocked state is the one the vault holds, old payload or new. */
  lemma PrivateKeyAgrees(c: Crypto, s: State, v: Vault, mk: MainKey, addr: string)
    requires Matches(c, s, v, mk)
    ensures GetPrivateKey(c, s, addr) == VaultPrivateKey(v, addr)
  {
    KeyLookup(c, s.keys, v.keys, mk, addr, INTERNAL);
    match FindIndex((k: VaultKey) => k.addr == addr && k.kind == INTERNAL, v.keys) {
      case None =>
      case Some(i) => assert KeyMatches(c, s.keys[i], v.keys[i], mk);
    }
  }

  lemma SameBytes(a: Bytes, b: Bytes)
    requires |a| == |b|
    ensures NonEmpty(a) == NonEmpty(b) <==> a == b
    ensures a == b <==> forall j :: 0 <= j < |a| ==> a[j] == b[j]
  {
  }

  /** Reading at the start what was written at an offset is right exactly if the keystream repeats. */
  lemma ReadAtStartIff(c: Crypto, mk: MainKey, offset: nat, data: Bytes)
    requires MaskLawful(c.mask)
    ensures Ctr(c, mk, 0, data) == Ctr(c, mk, offset, data) <==> KeystreamRepeats(c, mk, offset, |data|)
    ensures NonEmpty(Ctr(c, mk, 0, data)) == NonEmpty(Ctr(c, mk, offset, data)) <==>
            KeystreamRepeats(c, mk, offset, |data|)
  {
    var read, meant := Ctr(c, mk, 0, data), Ctr(c, mk, offset, data);
    SameBytes(read, meant);
    forall j | 0 <= j < |data|
      ensures read[j] == meant[j] <==> KeyByte(c, mk, j) == KeyByte(c, mk, offset + j)
    {
      CtrAt(c, mk, 0, data, j);
      CtrAt(c, mk, offset, data, j);
      assert MaskTells(c.mask, data[j], KeyByte(c, mk, j), KeyByte(c, mk, offset + j));
    }
  }

  /** A stored seed reads as what it means if and only if it is of the kinds that do. */
  lemma SeedReadsAsMeantIff(c: Crypto, mk: MainKey, e: StoredSeed, v: VaultSeed)
    requires Lawful(c) && SeedMatches(c, e, v, mk)
    ensures ReadSeed(c, mk, e) == VaultRead(c, v) <==> ReadsTrue(c, mk, e)
  {
    if e.seed.CtrPayload? && e.passphrase.Some? && e.passphrase.value.CtrPayload? {
      ReadAtStartIff(c, mk, |e.seed.data|, e.passphrase.value.data);
    }
  }

  /** Migration, when it does not fail, leaves a seed that reads as what it means. */
  lemma MigratedReadsTrue(c: Crypto, mk: MainKey, e: StoredSeed, v: VaultSeed)
    requires SeedMatches(c, e, v, mk)
    ensures ReadsTrue(c, mk, MigrateSeed(c, mk, {}, e))
  {
  }

  /** What an unlocked keystore reads for an id agrees with the vault if and only if the one entry read is such. */
  lemma SavedSeedAgreesIff(c: Crypto, s: State, v: Vault, mk: MainKey, id: string)
    requires Lawful(c) && Matches(c, s, v, mk)
    ensures var found := FindIndex((e: StoredSeed) => e.id == id, s.seeds);
            GetSavedSeed(c, s, id) == VaultSavedSeed(c, v, id) <==>
            (v.unlocked && found.Some? ==> ReadsTrue(c, mk, s.seeds[found.value]))
  {
    SeedLookup(c, s.seeds, v.seeds, mk, id);
    match FindIndex((e: VaultSeed) => e.id == id, v.seeds) {
      case None =>
      case Some(i) =>
        assert SeedMatches(c, s.seeds[i], v.seeds[i], mk);
        SeedReadsAsMeantIff(c, mk, s.seeds[i], v.seeds[i]);
    }
  }

  lemma SeedLookup(c: Crypto, es: seq<StoredSeed>, vs: seq<VaultSeed>, mk: MainKey, id: string)
    requires SeedsMatch(c, es, vs, mk)
    ensures FindIndex((e: StoredSeed) => e.id == id, es) == FindIndex((e: VaultSeed) => e.id == id, vs)
  {
    forall i | 0 <= i < |es| ensures es[i].id == vs[i].id {
      assert SeedMatches(c, es[i], vs[i], mk);
    }
    FindPairs((e: StoredSeed) => e.id == id, es, (e: VaultSeed) => e.id == id, vs);
  }

  lemma AppendSeedKeeps(c: Crypto, s: State, v: Vault, mk: MainKey, e: StoredSeed, x: VaultSeed)
    requires Matches(c, s, v, mk) && SeedMatches(c, e, x, mk)
    ensures Matches(c, PersistSeeds(s, s.seeds + [e]), v.(seeds := v.seeds + [x]), mk)
  {
  }

  function AddedSeed(c: Crypto, id: string, phrase: Bytes, passphrase: Bytes): VaultSeed
    requires c.entropyOf(phrase).Some?
  {
    VaultSeed(id, Phrase(c.entropyOf(phrase).value, NonEmpty(passphrase)))
  }

  /** Adding a seed, whatever its search reads, changes nothing or appends exactly that seed. */
  lemma AddSeedKeeps(c: Crypto, s: State, v: Vault, mk: MainKey, id: string, phrase: Bytes, passphrase: Bytes)
    requires Lawful(c) && Matches(c, s, v, mk)
    ensures var t := AddSeed(c, s, id, phrase, passphrase).0;
            || t == s
            || (&& v.unlocked && c.entropyOf(phrase).Some? && |t.seeds| == |s.seeds| + 1
                && Matches(c, t, v.(seeds := v.seeds + [AddedSeed(c, id, phrase, passphrase)]), mk))
  {
    if v.unlocked && c.entropyOf(phrase).Some? {
      var pass := if passphrase == [] then None else Some(GcmPayload(mk, passphrase));
      var e := StoredSeed(id, GcmPayload(mk, c.entropyOf(phrase).value), pass);
      AppendSeedKeeps(c, s, v, mk, e, AddedSeed(c, id, phrase, passphrase));
    }
  }
}
