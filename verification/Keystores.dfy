/**
 The keystore (src/controllers/keystore/keystore.ts, src/libs/keystore/keystore.ts): one 32-byte main
 key wrapped by many secrets, and payloads encrypted with the main key, both in an old AES-CTR format
 that is migrated lazily to AES-GCM.

 AES-CTR payloads are modelled as what they are, bytes masked with a keystream that is a function of
 key, initial counter and offset; `XorIsLawful` shows that exclusive or masks as required. AES-GCM and
 the MAC of an old secret are authenticated, so they are modelled as terms that open under the key they
 were made with and under no other.

 The specification is the `Vault` of module KeystoreVaults: the same keystore without any cryptography.
 Refinement is the theorem that no run of the keystore, in whatever order its secrets are migrated and
 wherever the storage writes of a migration stop, can be told from the run of the vault.
 */
module Keystores {
  import opened Wrappers
  import opened Sequences

  type Bytes = seq<bv8>
  type MainKey = b: Bytes | |b| == 32 witness seq(32, i => 0)

  /**
   Unseen primitives: the AES keystream and its mask, the BIP-39 phrase codec, the parsing of a hex
   private key, and what decrypting an unauthenticated secret with another key than its own gives.
   */
  datatype Crypto = Crypto(
    keystream: (Bytes, Bytes, nat) -> bv8,
    mask: (bv8, bv8) -> bv8,
    entropyOf: Bytes -> Option<Bytes>,
    phraseOf: Bytes -> Bytes,
    hexBytes: string -> Bytes,
    misread: (SecretKey, SecretKey, Bytes) -> Bytes)

  ghost predicate MaskUndoes(mask: (bv8, bv8) -> bv8, x: bv8, k: bv8) {
    mask(mask(x, k), k) == x
  }

  ghost predicate MaskTells(mask: (bv8, bv8) -> bv8, x: bv8, k: bv8, l: bv8) {
    mask(x, k) == mask(x, l) ==> k == l
  }

  /** Masking undoes itself, and different keystream bytes mask differently. */
  ghost predicate MaskLawful(mask: (bv8, bv8) -> bv8) {
    (forall x, k :: MaskUndoes(mask, x, k)) && (forall x, k, l :: MaskTells(mask, x, k, l))
  }

  lemma XorIsLawful()
    ensures MaskLawful((x: bv8, k: bv8) => x ^ k)
  {
    var xor := (x: bv8, k: bv8) => x ^ k;
    forall x, k ensures MaskUndoes(xor, x, k) {}
    forall x, k, l ensures MaskTells(xor, x, k, l) {}
  }

  /** The mask is lawful, and a phrase written from the entropy of a valid phrase has that entropy. */
  ghost predicate Lawful(c: Crypto) {
    && MaskLawful(c.mask)
    && forall t: Bytes :: c.entropyOf(t).Some? ==> c.entropyOf(c.phraseOf(c.entropyOf(t).value)) == c.entropyOf(t)
  }

  /** The keystream byte at an offset, under the old key and counter the main key was made of. */
  function KeyByte(c: Crypto, mainKey: MainKey, offset: nat): bv8 {
    c.keystream(mainKey[..16], mainKey[16..], offset)
  }

  /** AES-CTR encryption and decryption. */
  function Ctr(c: Crypto, mainKey: MainKey, offset: nat, data: Bytes): (r: Bytes)
    ensures |r| == |data|
  {
    seq(|data|, i requires 0 <= i < |data| => c.mask(data[i], KeyByte(c, mainKey, offset + i)))
  }

  lemma CtrAt(c: Crypto, mainKey: MainKey, offset: nat, data: Bytes, i: nat)
    requires i < |data|
    ensures Ctr(c, mainKey, offset, data)[i] == c.mask(data[i], KeyByte(c, mainKey, offset + i))
  {
  }

  /** AES-CTR is its own inverse. */
  lemma CtrTwice(c: Crypto, mainKey: MainKey, offset: nat, data: Bytes)
    requires MaskLawful(c.mask)
    ensures Ctr(c, mainKey, offset, Ctr(c, mainKey, offset, data)) == data
  {
    var once := Ctr(c, mainKey, offset, data);
    forall i | 0 <= i < |data| ensures Ctr(c, mainKey, offset, once)[i] == data[i] {
      CtrAt(c, mainKey, offset, data, i);
      CtrAt(c, mainKey, offset, once, i);
      assert MaskUndoes(c.mask, data[i], KeyByte(c, mainKey, offset + i));
    }
  }

  // ----- Stored data

  /** scrypt of a secret and a salt; the AES and MAC keys of an entry are slices of it. */
  datatype SecretKey = Scrypt(secret: Bytes, salt: Bytes)

  /** An old secret carries a MAC; the code also takes one without, as `UncheckedSecret`. */
  datatype SecretCipher =
    | OldSecret(under: SecretKey, plain: Bytes)
    | UncheckedSecret(under: SecretKey, plain: Bytes)
    | GcmSecret(under: SecretKey, plain: Bytes)
    | UnknownCipher

  datatype SecretEntry = SecretEntry(id: string, salt: Bytes, aes: SecretCipher)

  datatype Payload = CtrPayload(data: Bytes) | GcmPayload(under: MainKey, plain: Bytes)

  datatype StoredKey = StoredKey(addr: string, kind: string, privKey: Option<Payload>)

  datatype StoredSeed = StoredSeed(id: string, seed: Payload, passphrase: Option<Payload>)

  datatype NewKey = NewKey(addr: string, privateKey: string)
  datatype ExternalKey = ExternalKey(addr: string, kind: string)

  const INTERNAL := "internal"
  const INCORRECT_PASSWORD := "Incorrect password. Please try again."
  const PASSWORD := "password"

  datatype Disk = Disk(secrets: seq<SecretEntry>, keys: seq<StoredKey>, seeds: seq<StoredSeed>, uid: Option<MainKey>)

  /** `uid` stands for the public key of the main key it holds. */
  datatype State = State(
    mainKey: Option<MainKey>,
    secrets: seq<SecretEntry>,
    keys: seq<StoredKey>,
    seeds: seq<StoredSeed>,
    uid: Option<MainKey>,
    ready: bool,
    queued: seq<NewKey>,
    queuedExternal: seq<ExternalKey>,
    errorMessage: string,
    disk: Disk)

  datatype Outcome =
    | Done | NoSecrets | SecretNotFound | UnsupportedCipher | IncorrectPassword | CorruptedSecret
    | DuplicateSecret | MustUnlock | KeyNotFound | InvalidSeed | SeedNotFound

  datatype Read<T> = Value(value: T) | Failed(reason: Outcome)

  // ----- Reading payloads

  function DecryptWithKey(c: Crypto, mainKey: MainKey, payload: Payload): Option<Bytes> {
    match payload
    case CtrPayload(data) => Some(Ctr(c, mainKey, 0, data))
    case GcmPayload(under, plain) => if under == mainKey then Some(plain) else None
  }

  function GetPrivateKey(c: Crypto, s: State, addr: string): Read<Bytes> {
    if s.mainKey.None? then Failed(MustUnlock)
    else
      match FindIndex((k: StoredKey) => k.addr == addr && k.kind == INTERNAL, s.keys)
      case None => Failed(KeyNotFound)
      case Some(i) =>
        if s.keys[i].privKey.None? then Failed(KeyNotFound)
        else
          match DecryptWithKey(c, s.mainKey.value, s.keys[i].privKey.value)
          case None => Failed(CorruptedSecret)
          case Some(plain) => Value(plain)
  }

  datatype SavedSeed = SavedSeed(phrase: Bytes, passphrase: Option<Bytes>)

  function NonEmpty(b: Bytes): Option<Bytes> {
    if b == [] then None else Some(b)
  }

  /** `getSavedSeed` on one entry: each of the two payloads is decrypted on its own, from offset 0. */
  function ReadSeed(c: Crypto, mainKey: MainKey, e: StoredSeed): Read<SavedSeed> {
    var seed := DecryptWithKey(c, mainKey, e.seed);
    var pass := if e.passphrase.None? then Some([]) else DecryptWithKey(c, mainKey, e.passphrase.value);
    if seed.None? || pass.None? then Failed(CorruptedSecret)
    else if e.seed.GcmPayload? then Value(SavedSeed(c.phraseOf(seed.value), NonEmpty(pass.value)))
    else if c.entropyOf(seed.value).None? then Failed(InvalidSeed)
    else Value(SavedSeed(seed.value, NonEmpty(pass.value)))
  }

  function GetSavedSeed(c: Crypto, s: State, id: string): Read<SavedSeed> {
    if s.mainKey.None? then Failed(MustUnlock)
    else
      match FindIndex((e: StoredSeed) => e.id == id, s.seeds)
      case None => Failed(SeedNotFound)
      case Some(i) => ReadSeed(c, s.mainKey.value, s.seeds[i])
  }

  // ----- Migration

  /** One key; `failing` holds the addresses and seed ids whose re-encryption throws. */
  function MigrateKey(c: Crypto, mainKey: MainKey, failing: set<string>, k: StoredKey): StoredKey {
    if k.kind != INTERNAL || k.privKey.None? || k.privKey.value.GcmPayload? || k.addr in failing then k
    else
      var plain := Ctr(c, mainKey, 0, k.privKey.value.data);
      if |plain| != 32 then k else k.(privKey := Some(GcmPayload(mainKey, plain)))
  }

  /** One seed: seed and passphrase are decrypted with one counter that runs on from the one to the other. */
  function MigrateSeed(c: Crypto, mainKey: MainKey, failing: set<string>, e: StoredSeed): StoredSeed {
    if e.seed.GcmPayload? || e.id in failing then e
    else
      var entropy := c.entropyOf(Ctr(c, mainKey, 0, e.seed.data));
      match e.passphrase
      case Some(GcmPayload(_, _)) => e
      case Some(CtrPayload(data)) =>
        if entropy.None? then e
        else
          var pass := Ctr(c, mainKey, |e.seed.data|, data);
          e.(seed := GcmPayload(mainKey, entropy.value), passphrase := Some(GcmPayload(mainKey, pass)))
      case None =>
        if entropy.None? then e else e.(seed := GcmPayload(mainKey, entropy.value))
  }

  function MigrateKeys(c: Crypto, mainKey: MainKey, failing: set<string>, keys: seq<StoredKey>): (r: seq<StoredKey>)
    ensures |r| == |keys|
  {
    Map(k => MigrateKey(c, mainKey, failing, k), keys)
  }

  function MigrateSeeds(c: Crypto, mainKey: MainKey, failing: set<string>, seeds: seq<StoredSeed>): (r: seq<StoredSeed>)
    ensures |r| == |seeds|
  {
    Map(e => MigrateSeed(c, mainKey, failing, e), seeds)
  }

  function MigrateSecrets(secrets: seq<SecretEntry>, id: string, aes: SecretCipher): (r: seq<SecretEntry>)
    ensures |r| == |secrets|
  {
    Map((e: SecretEntry) => if e.id == id then e.(aes := aes) else e, secrets)
  }

  /** The three storage writes of a migration; only the first `writes` of them succeed. */
  function Persist(s: State, secrets: Option<seq<SecretEntry>>, keys: Option<seq<StoredKey>>,
                   seeds: Option<seq<StoredSeed>>, writes: nat): State
  {
    if secrets.Some? && writes == 0 then s
    else
      var s1 := if secrets.Some? then PersistSecrets(s, secrets.value) else s;
      var left := if secrets.Some? then writes - 1 else writes;
      if keys.None? || left == 0 then s1
      else
        var s2 := PersistKeys(s1, keys.value);
        if seeds.None? || left == 1 then s2 else PersistSeeds(s2, seeds.value)
  }

  function PersistSecrets(s: State, secrets: seq<SecretEntry>): State {
    s.(secrets := secrets, disk := s.disk.(secrets := secrets))
  }

  function PersistKeys(s: State, keys: seq<StoredKey>): State {
    s.(keys := keys, disk := s.disk.(keys := keys))
  }

  function PersistSeeds(s: State, seeds: seq<StoredSeed>): State {
    s.(seeds := seeds, disk := s.disk.(seeds := seeds))
  }

  // ----- Operations

  /** Stored payloads are migrated whenever a key is unlocked; the secret only when it was old. */
  function MigrateAll(c: Crypto, s: State, mainKey: MainKey, secrets: Option<seq<SecretEntry>>,
                      writes: nat, failing: set<string>): State
  {
    var keys := MigrateKeys(c, mainKey, failing, s.keys);
    var seeds := MigrateSeeds(c, mainKey, failing, s.seeds);
    if keys != s.keys || seeds != s.seeds then Persist(s, secrets, Some(keys), Some(seeds), writes)
    else Persist(s, secrets, None, None, writes)
  }

  function Decrypted(c: Crypto, aes: SecretCipher, secretKey: SecretKey): Bytes
    requires !aes.UnknownCipher?
  {
    if aes.under == secretKey then aes.plain else c.misread(secretKey, aes.under, aes.plain)
  }

  function Unlock(c: Crypto, s: State, id: string, secret: Bytes, writes: nat, failing: set<string>): (State, Outcome) {
    if s.secrets == [] then (s, NoSecrets)
    else
      match FindIndex((e: SecretEntry) => e.id == id, s.secrets)
      case None => (s, SecretNotFound)
      case Some(i) =>
        var e := s.secrets[i];
        var secretKey := Scrypt(secret, e.salt);
        if e.aes.UnknownCipher? then (s, UnsupportedCipher)
        else if e.aes.under != secretKey && !e.aes.UncheckedSecret? then
          (s.(errorMessage := INCORRECT_PASSWORD), IncorrectPassword)
        else if |Decrypted(c, e.aes, secretKey)| < 32 then (s, CorruptedSecret)
        else if !e.aes.GcmSecret? then
          var plain := Decrypted(c, e.aes, secretKey);
          var mainKey := plain[..16] + plain[16..32];
          var s1 := s.(mainKey := Some(mainKey), errorMessage := "");
          var secrets := MigrateSecrets(s.secrets, e.id, GcmSecret(secretKey, mainKey));
          (MigrateAll(c, s1, mainKey, Some(secrets), writes, failing), Done)
        else
          var mainKey := e.aes.plain[..32];
          var s1 := s.(mainKey := Some(mainKey), errorMessage := "");
          (MigrateAll(c, s1, mainKey, None, writes, failing), Done)
  }

  function Lock(s: State): State {
    s.(mainKey := None)
  }

  predicate HasSecret(secrets: seq<SecretEntry>, id: string) {
    FindIndex((e: SecretEntry) => e.id == id, secrets).Some?
  }

  predicate HasKey(keys: seq<StoredKey>, addr: string, kind: string) {
    FindIndex((k: StoredKey) => k.addr == addr && k.kind == kind, keys).Some?
  }

  /** Keep one of every group of keys with the same private key text. */
  function UniqueKeys(keys: seq<NewKey>): seq<NewKey> {
    if keys == [] then []
    else
      var rest := UniqueKeys(keys[..|keys| - 1]);
      var k := keys[|keys| - 1];
      if FindIndex((x: NewKey) => x.privateKey == k.privateKey, keys[..|keys| - 1]).Some? then rest else rest + [k]
  }

  function AddKeys(c: Crypto, s: State, keysToAdd: seq<NewKey>): (State, Outcome) {
    if keysToAdd == [] then (s, Done)
    else if !s.ready then (s.(queued := s.queued + keysToAdd), Done)
    else if s.mainKey.None? then (s, MustUnlock)
    else
      var added := Filter((k: NewKey) => !HasKey(s.keys, k.addr, INTERNAL), UniqueKeys(keysToAdd));
      if added == [] then (s, Done)
      else (PersistKeys(s, s.keys + EncryptNewKeys(c, s.mainKey.value, added)), Done)
  }

  function EncryptNewKeys(c: Crypto, mainKey: MainKey, keys: seq<NewKey>): (r: seq<StoredKey>)
    ensures |r| == |keys|
  {
    Map(k => EncryptNewKey(c, mainKey, k), keys)
  }

  function EncryptNewKey(c: Crypto, mainKey: MainKey, k: NewKey): StoredKey {
    StoredKey(k.addr, INTERNAL, Some(GcmPayload(mainKey, c.hexBytes(k.privateKey))))
  }

  function AddExternalKeys(s: State, keysToAdd: seq<ExternalKey>): State {
    if keysToAdd == [] then s
    else if !s.ready then s.(queuedExternal := s.queuedExternal + keysToAdd)
    else
      var added := Filter((k: ExternalKey) => !HasKey(s.keys, k.addr, k.kind), Dedup(keysToAdd));
      if added == [] then s
      else PersistKeys(s, s.keys + Map((k: ExternalKey) => StoredKey(k.addr, k.kind, None), added))
  }

  function AddSecret(c: Crypto, s: State, id: string, secret: Bytes, salt: Bytes, leaveUnlocked: bool,
                     generated: MainKey): (State, Outcome)
  {
    if HasSecret(s.secrets, id) then (s, DuplicateSecret)
    else if s.mainKey.None? && s.secrets != [] then (s, MustUnlock)
    else
      var mainKey := s.mainKey.GetOr(generated);
      var s1 := if leaveUnlocked then s.(mainKey := Some(mainKey)) else s;
      var secrets := s.secrets + [SecretEntry(id, salt, GcmSecret(Scrypt(secret, salt), mainKey))];
      var s2 := PersistSecrets(s1, secrets);
      (BecomeReady(c, if s.uid.Some? then s2 else PersistUid(s2, mainKey)), Done)
  }

  function PersistUid(s: State, uid: MainKey): State {
    s.(uid := Some(uid), disk := s.disk.(uid := Some(uid)))
  }

  /**
   Setting `isReadyToStoreKeys` starts adding both kinds of waiting keys at once. The internal ones take
   the list of keys first and store theirs last, so when they add any, what the external ones stored in
   between is overwritten. The queues are not emptied.
   */
  function BecomeReady(c: Crypto, s: State): State {
    var s1 := AddKeys(c, s.(ready := true), s.queued).0;
    if |s1.keys| > |s.keys| then s1 else AddExternalKeys(s1, s.queuedExternal)
  }

  function RemoveSecret(s: State, id: string): (State, Outcome) {
    if !HasSecret(s.secrets, id) then (s, SecretNotFound)
    else (PersistSecrets(s, Filter((e: SecretEntry) => e.id != id, s.secrets)), Done)
  }

  /** The old password, when given, must unlock; a recovered keystore is already unlocked and gives none. */
  function CheckOldPassword(c: Crypto, s: State, oldSecret: Bytes, writes: nat, failing: set<string>)
    : (State, Outcome)
  {
    if oldSecret != [] then Unlock(c, s, PASSWORD, oldSecret, writes, failing) else (s, Done)
  }

  function ReplacePassword(c: Crypto, s: State, newSecret: Bytes, salt: Bytes, generated: MainKey): (State, Outcome) {
    var (s1, removed) := RemoveSecret(s, PASSWORD);
    if removed != Done then (s1, removed) else AddSecret(c, s1, PASSWORD, newSecret, salt, true, generated)
  }

  function ChangePassword(c: Crypto, s: State, newSecret: Bytes, oldSecret: Bytes, salt: Bytes, writes: nat,
                          failing: set<string>, generated: MainKey): (State, Outcome)
  {
    var (s1, checked) := CheckOldPassword(c, s, oldSecret, writes, failing);
    if checked != Done then (s1, checked)
    else if s1.mainKey.None? then (s1, MustUnlock)
    else ReplacePassword(c, s1, newSecret, salt, generated)
  }

  function RemoveKey(s: State, addr: string, kind: string): (State, Outcome) {
    if s.mainKey.None? then (s, MustUnlock)
    else if !HasKey(s.keys, addr, kind) then (s, KeyNotFound)
    else (PersistKeys(s, Filter((k: StoredKey) => !(k.addr == addr && k.kind == kind), s.keys)), Done)
  }

  /** What is read of an entry ends the search for a phrase and passphrase. */
  predicate EndsSearch(r: Read<SavedSeed>, phrase: Bytes, passphrase: Bytes) {
    r.Failed? || (r.value.phrase == phrase && r.value.passphrase.GetOr([]) == passphrase)
  }

  /** `#findStoredSeed` stops at a seed that reads as this phrase and passphrase, and at one that cannot be read. */
  predicate StopsSearch(c: Crypto, s: State, phrase: Bytes, passphrase: Bytes, e: StoredSeed) {
    EndsSearch(GetSavedSeed(c, s, e.id), phrase, passphrase)
  }

  function FindSeed(c: Crypto, s: State, phrase: Bytes, passphrase: Bytes): Read<Option<nat>> {
    match FindIndex(e => StopsSearch(c, s, phrase, passphrase, e), s.seeds)
    case None => Value(None)
    case Some(i) =>
      match GetSavedSeed(c, s, s.seeds[i].id)
      case Failed(reason) => Failed(reason)
      case Value(_) => Value(Some(i))
  }

  lemma FindSeedIs(c: Crypto, s: State, phrase: Bytes, passphrase: Bytes, i: nat)
    requires i <= |s.seeds| && (i < |s.seeds| ==> StopsSearch(c, s, phrase, passphrase, s.seeds[i]))
    requires forall j :: 0 <= j < i ==> !StopsSearch(c, s, phrase, passphrase, s.seeds[j])
    ensures FindSeed(c, s, phrase, passphrase)
         == if i == |s.seeds| then Value(None)
            else match GetSavedSeed(c, s, s.seeds[i].id)
                 case Failed(reason) => Failed(reason)
                 case Value(_) => Value(Some(i))
  {
    var p := e => StopsSearch(c, s, phrase, passphrase, e);
    assert i < |s.seeds| ==> s.seeds[i] in s.seeds && p(s.seeds[i]);
    assert forall j :: 0 <= j < i ==> !p(s.seeds[j]);
    assert FindIndex(p, s.seeds) == if i == |s.seeds| then None else Some(i);
  }

  function AddSeed(c: Crypto, s: State, id: string, phrase: Bytes, passphrase: Bytes): (State, Outcome) {
    if s.mainKey.None? then (s, MustUnlock)
    else
      match c.entropyOf(phrase)
      case None => (s, InvalidSeed)
      case Some(entropy) =>
        match FindSeed(c, s, c.phraseOf(entropy), passphrase)
        case Failed(reason) => (s, reason)
        case Value(Some(_)) => (s, Done)
        case Value(None) =>
          var pass := if passphrase == [] then None else Some(GcmPayload(s.mainKey.value, passphrase));
          (PersistSeeds(s, s.seeds + [StoredSeed(id, GcmPayload(s.mainKey.value, entropy), pass)]), Done)
  }

  function DeleteSeed(s: State, id: string): State {
    PersistSeeds(s, Filter((e: StoredSeed) => e.id != id, s.seeds))
  }

  /** The process dies and loads again what storage holds. */
  function Restart(s: State): State {
    State(None, s.disk.secrets, s.disk.keys, s.disk.seeds, s.disk.uid, s.disk.secrets != [], [], [], "", s.disk)
  }

  datatype Event =
    | DoUnlock(id: string, secret: Bytes, writes: nat, failing: set<string>)
    | DoLock
    | DoAddSecret(id: string, secret: Bytes, salt: Bytes, leaveUnlocked: bool, generated: MainKey)
    | DoRemoveSecret(id: string)
    | DoChangePassword(newSecret: Bytes, oldSecret: Bytes, salt: Bytes, writes: nat, failing: set<string>,
                       generated: MainKey)
    | DoAddKeys(newKeys: seq<NewKey>)
    | DoAddExternalKeys(externalKeys: seq<ExternalKey>)
    | DoRemoveKey(addr: string, kind: string)
    | DoAddSeed(id: string, phrase: Bytes, passphrase: Bytes)
    | DoDeleteSeed(id: string)
    | DoRestart

  function Step(c: Crypto, s: State, e: Event): (State, Outcome) {
    match e
    case DoUnlock(id, secret, writes, failing) => Unlock(c, s, id, secret, writes, failing)
    case DoLock => (Lock(s), Done)
    case DoAddSecret(id, secret, salt, leaveUnlocked, generated) =>
      AddSecret(c, s, id, secret, salt, leaveUnlocked, generated)
    case DoRemoveSecret(id) => RemoveSecret(s, id)
    case DoChangePassword(newSecret, oldSecret, salt, writes, failing, generated) =>
      ChangePassword(c, s, newSecret, oldSecret, salt, writes, failing, generated)
    case DoAddKeys(keys) => AddKeys(c, s, keys)
    case DoAddExternalKeys(keys) => (AddExternalKeys(s, keys), Done)
    case DoRemoveKey(addr, kind) => RemoveKey(s, addr, kind)
    case DoAddSeed(id, phrase, passphrase) => AddSeed(c, s, id, phrase, passphrase)
    case DoDeleteSeed(id) => (DeleteSeed(s, id), Done)
    case DoRestart => (Restart(s), Done)
  }

  function Run(c: Crypto, s: State, events: seq<Event>): State
    decreases |events|
  {
    if events == [] then s else Run(c, Step(c, s, events[0]).0, events[1..])
  }

  // ----- The class of the source

  class Keystore {
    const crypto: Crypto
    var mainKey: Option<MainKey>
    var secrets: seq<SecretEntry>
    var keys: seq<StoredKey>
    var seeds: seq<StoredSeed>
    var uid: Option<MainKey>
    var ready: bool
    var queued: seq<NewKey>
    var queuedExternal: seq<ExternalKey>
    var errorMessage: string
    var disk: Disk

    ghost function View(): State
      reads this
    {
      State(mainKey, secrets, keys, seeds, uid, ready, queued, queuedExternal, errorMessage, disk)
    }

    /** `#load` */
    constructor (crypto: Crypto, disk: Disk)
      ensures this.crypto == crypto
      ensures View() == State(None, disk.secrets, disk.keys, disk.seeds, disk.uid, disk.secrets != [], [], [], "", disk)
    {
      this.crypto := crypto;
      mainKey, secrets, keys, seeds, uid := None, disk.secrets, disk.keys, disk.seeds, disk.uid;
      ready, queued, queuedExternal, errorMessage := disk.secrets != [], [], [], "";
      this.disk := disk;
    }

    method StoreSecrets(secrets: seq<SecretEntry>)
      modifies this
      ensures View() == PersistSecrets(old(View()), secrets)
    {
      this.secrets := secrets;
      disk := disk.(secrets := secrets);
    }

    method StoreKeys(keys: seq<StoredKey>)
      modifies this
      ensures View() == PersistKeys(old(View()), keys)
    {
      this.keys := keys;
      disk := disk.(keys := keys);
    }

    method StoreSeeds(seeds: seq<StoredSeed>)
      modifies this
      ensures View() == PersistSeeds(old(View()), seeds)
    {
      this.seeds := seeds;
      disk := disk.(seeds := seeds);
    }

    method PersistMigratedKeystoreData(secrets: Option<seq<SecretEntry>>, keys: Option<seq<StoredKey>>,
                                       seeds: Option<seq<StoredSeed>>, writes: nat)
      modifies this
      ensures View() == Persist(old(View()), secrets, keys, seeds, writes)
    {
      var left := writes;
      if secrets.Some? {
        if left == 0 { return; }
        left := left - 1;
        StoreSecrets(secrets.value);
      }
      if keys.Some? {
        if left == 0 { return; }
        left := left - 1;
        StoreKeys(keys.value);
        if seeds.Some? {
          if left == 0 { return; }
          StoreSeeds(seeds.value);
        }
      }
    }

    method MigrateEverything(mainKey: MainKey, secrets: Option<seq<SecretEntry>>, writes: nat, failing: set<string>)
      modifies this
      ensures View() == MigrateAll(crypto, old(View()), mainKey, secrets, writes, failing)
    {
      var migratedKeys := MigrateKeys(crypto, mainKey, failing, keys);
      var migratedSeeds := MigrateSeeds(crypto, mainKey, failing, seeds);
      var hasMigrated := migratedKeys != keys || migratedSeeds != seeds;
      PersistMigratedKeystoreData(secrets,
                                  if hasMigrated then Some(migratedKeys) else None,
                                  if hasMigrated then Some(migratedSeeds) else None,
                                  writes);
    }

    method UnlockWithSecret(id: string, secret: Bytes, writes: nat, failing: set<string>) returns (outcome: Outcome)
      modifies this
      ensures (View(), outcome) == Unlock(crypto, old(View()), id, secret, writes, failing)
    {
      if secrets == [] { return NoSecrets; }
      var found := FindIndex((e: SecretEntry) => e.id == id, secrets);
      if found.None? { return SecretNotFound; }
      var entry := secrets[found.value];
      if entry.aes.UnknownCipher? { return UnsupportedCipher; }
      var secretKey := Scrypt(secret, entry.salt);
      if entry.aes.under != secretKey && !entry.aes.UncheckedSecret? {
        errorMessage := INCORRECT_PASSWORD;
        return IncorrectPassword;
      }
      var plain := Decrypted(crypto, entry.aes, secretKey);
      if |plain| < 32 { return CorruptedSecret; }
      errorMessage := "";
      if !entry.aes.GcmSecret? {
        var key, iv := plain[..16], plain[16..32];
        mainKey := Some(key + iv);
        var migratedSecrets := MigrateSecrets(secrets, entry.id, GcmSecret(secretKey, key + iv));
        MigrateEverything(key + iv, Some(migratedSecrets), writes, failing);
      } else {
        mainKey := Some(plain[..32]);
        MigrateEverything(plain[..32], None, writes, failing);
      }
      outcome := Done;
    }

    method LockNow()
      modifies this
      ensures View() == Lock(old(View()))
    {
      mainKey := None;
    }

    method AddInternalKeys(keysToAdd: seq<NewKey>) returns (outcome: Outcome)
      modifies this
      ensures (View(), outcome) == AddKeys(crypto, old(View()), keysToAdd)
    {
      if keysToAdd == [] { return Done; }
      if !ready {
        queued := queued + keysToAdd;
        return Done;
      }
      if mainKey.None? { return MustUnlock; }
      StoreNewKeys(keys, keysToAdd);
      outcome := Done;
    }

    /** The part of `#addKeys` after it captured the list of keys. */
    method StoreNewKeys(captured: seq<StoredKey>, keysToAdd: seq<NewKey>)
      requires mainKey.Some?
      modifies this
      ensures var added := Filter((k: NewKey) => !HasKey(captured, k.addr, INTERNAL), UniqueKeys(keysToAdd));
              View() == (if added == [] then old(View())
                         else PersistKeys(old(View()), captured + EncryptNewKeys(crypto, old(mainKey.value), added)))
    {
      var newKeys := Filter((k: NewKey) => !HasKey(captured, k.addr, INTERNAL), UniqueKeys(keysToAdd));
      if newKeys == [] { return; }
      StoreKeys(captured + EncryptNewKeys(crypto, mainKey.value, newKeys));
    }

    method AddKeysExternallyStored(keysToAdd: seq<ExternalKey>)
      modifies this
      ensures View() == AddExternalKeys(old(View()), keysToAdd)
    {
      if keysToAdd == [] { return; }
      if !ready {
        queuedExternal := queuedExternal + keysToAdd;
        return;
      }
      var known := keys;
      var newKeys := Filter((k: ExternalKey) => !HasKey(known, k.addr, k.kind), Dedup(keysToAdd));
      if newKeys == [] { return; }
      StoreKeys(keys + Map((k: ExternalKey) => StoredKey(k.addr, k.kind, None), newKeys));
    }

    method AddSecretNow(id: string, secret: Bytes, salt: Bytes, leaveUnlocked: bool, generated: MainKey)
      returns (outcome: Outcome)
      modifies this
      ensures (View(), outcome) == AddSecret(crypto, old(View()), id, secret, salt, leaveUnlocked, generated)
    {
      if HasSecret(secrets, id) { return DuplicateSecret; }
      var key: MainKey;
      if mainKey.Some? {
        key := mainKey.value;
      } else {
        if secrets != [] { return MustUnlock; }
        key := generated;
        if leaveUnlocked {
          mainKey := Some(key);
        }
      }
      StoreSecrets(secrets + [SecretEntry(id, salt, GcmSecret(Scrypt(secret, salt), key))]);
      if uid.None? {
        StoreUid(key);
      }
      SetReady();
      outcome := Done;
    }

    method StoreUid(key: MainKey)
      modifies this
      ensures View() == PersistUid(old(View()), key)
    {
      uid := Some(key);
      disk := disk.(uid := Some(key));
    }

    method SetReady()
      modifies this
      ensures View() == BecomeReady(crypto, old(View()))
    {
      ready := true;
      // both additions run up to their awaits, then the external one ends first
      var captured := keys;
      AddKeysExternallyStored(queuedExternal);
      if queued != [] && mainKey.Some? {
        StoreNewKeys(captured, queued);
      }
    }

    method RemoveSecretNow(id: string) returns (outcome: Outcome)
      modifies this
      ensures (View(), outcome) == RemoveSecret(old(View()), id)
    {
      if !HasSecret(secrets, id) { return SecretNotFound; }
      StoreSecrets(Filter((e: SecretEntry) => e.id != id, secrets));
      outcome := Done;
    }

    method ChangeKeystorePassword(newSecret: Bytes, oldSecret: Bytes, salt: Bytes, writes: nat, failing: set<string>,
                                  generated: MainKey) returns (outcome: Outcome)
      modifies this
      ensures (View(), outcome)
           == ChangePassword(crypto, old(View()), newSecret, oldSecret, salt, writes, failing, generated)
    {
      if oldSecret != [] {
        outcome := UnlockWithSecret(PASSWORD, oldSecret, writes, failing);
        if outcome != Done { return; }
      }
      if mainKey.None? { return MustUnlock; }
      outcome := RemoveSecretNow(PASSWORD);
      if outcome != Done { return; }
      outcome := AddSecretNow(PASSWORD, newSecret, salt, true, generated);
    }

    method RemoveStoredKey(addr: string, kind: string) returns (outcome: Outcome)
      modifies this
      ensures (View(), outcome) == RemoveKey(old(View()), addr, kind)
    {
      if mainKey.None? { return MustUnlock; }
      if !HasKey(keys, addr, kind) { return KeyNotFound; }
      StoreKeys(Filter((k: StoredKey) => !(k.addr == addr && k.kind == kind), keys));
      outcome := Done;
    }

    method SavedSeedById(id: string) returns (r: Read<SavedSeed>)
      ensures r == GetSavedSeed(crypto, View(), id)
    {
      if mainKey.None? { return Failed(MustUnlock); }
      var found := FindIndex((e: StoredSeed) => e.id == id, seeds);
      if found.None? { return Failed(SeedNotFound); }
      r := ReadSeed(crypto, mainKey.value, seeds[found.value]);
    }

    /** `#findStoredSeed`; the exception of an unreadable seed is the Failed outcome. */
    method FindStoredSeed(phrase: Bytes, passphrase: Bytes) returns (found: Read<Option<nat>>)
      ensures found == FindSeed(crypto, View(), phrase, passphrase)
    {
      for i := 0 to |seeds|
        invariant forall j :: 0 <= j < i ==> !StopsSearch(crypto, View(), phrase, passphrase, seeds[j])
      {
        var r := SavedSeedById(seeds[i].id);
        if r.Failed? {
          FindSeedIs(crypto, View(), phrase, passphrase, i);
          return Failed(r.reason);
        }
        if r.value.phrase == phrase && r.value.passphrase.GetOr([]) == passphrase {
          FindSeedIs(crypto, View(), phrase, passphrase, i);
          return Value(Some(i));
        }
      }
      FindSeedIs(crypto, View(), phrase, passphrase, |seeds|);
      found := Value(None);
    }

    method AddSeedNow(id: string, phrase: Bytes, passphrase: Bytes) returns (outcome: Outcome)
      modifies this
      ensures (View(), outcome) == AddSeed(crypto, old(View()), id, phrase, passphrase)
    {
      if mainKey.None? { return MustUnlock; }
      var entropy := crypto.entropyOf(phrase);
      if entropy.None? { return InvalidSeed; }
      var found := FindStoredSeed(crypto.phraseOf(entropy.value), passphrase);
      if found.Failed? { return found.reason; }
      if found.value.Some? { return Done; }
      StoreSeeds(seeds + [StoredSeed(id, GcmPayload(mainKey.value, entropy.value),
                                     if passphrase == [] then None else Some(GcmPayload(mainKey.value, passphrase)))]);
      outcome := Done;
    }

    method DeleteStoredSeed(id: string)
      modifies this
      ensures View() == DeleteSeed(old(View()), id)
    {
      StoreSeeds(Filter((e: StoredSeed) => e.id != id, seeds));
    }

    method PrivateKey(addr: string) returns (r: Read<Bytes>)
      ensures r == GetPrivateKey(crypto, View(), addr)
    {
      if mainKey.None? { return Failed(MustUnlock); }
      var found := FindIndex((k: StoredKey) => k.addr == addr && k.kind == INTERNAL, keys);
      if found.None? || keys[found.value].privKey.None? { return Failed(KeyNotFound); }
      var plain := DecryptWithKey(crypto, mainKey.value, keys[found.value].privKey.value);
      if plain.None? { return Failed(CorruptedSecret); }
      r := Value(plain.value);
    }
  }
}
