/**
 Envelope encryption: a master key wraps one data key per case, and the data key seals its fields and the
 keys of its files. Encryption is symbolic: a sealed value opens with its key and in its context, and only so.
 */
module KeyRotation {
  import opened Results

  type Key = nat

  /** Where a sealed value belongs. Copied to another row or field it does not open. */
  datatype Context =
    | DataKeyOf(profile: nat) | Curp(profile: nat) | Rfc(profile: nat) | Number(document: nat) | FileKeyOf(file: nat)

  datatype Payload = DataKey(key: Key) | Text(text: string)

  datatype Blob = Blob(keyId: nat, key: Key, plain: Payload, context: Context)

  function Decrypt(key: Key, blob: Blob, context: Context): Result<Payload> {
    if blob.key == key && blob.context == context then Ok(blob.plain) else Err(CryptoFailure)
  }

  /** The master keys a process is configured with; new data keys are wrapped with the active one. */
  datatype Provider = Provider(keys: map<nat, Key>, active: nat)

  type KeyProvider = p: Provider | p.active in p.keys witness Provider(map[0 := 0], 0)

  function Wrap(p: KeyProvider, key: Key, profile: nat): Blob {
    Blob(p.active, p.keys[p.active], DataKey(key), DataKeyOf(profile))
  }

  function Unwrap(p: KeyProvider, blob: Blob, profile: nat): Result<Key> {
    if blob.keyId !in p.keys then Err(CryptoFailure)
    else
      var plain :- Decrypt(p.keys[blob.keyId], blob, DataKeyOf(profile));
      if plain.DataKey? then Ok(plain.key) else Err(CryptoFailure)
  }

  function Rewrap(p: KeyProvider, blob: Blob, profile: nat): Result<Blob> {
    var key :- Unwrap(p, blob, profile);
    Ok(Wrap(p, key, profile))
  }

  // ---------------------------------------------------------------------------
  // What is stored
  // ---------------------------------------------------------------------------

  datatype File = File(id: nat, key: Option<Blob>)

  datatype Document = Document(id: nat, number: Option<Blob>, files: seq<File>)

  datatype Profile = Profile(dataKey: Option<Blob>, curp: Option<Blob>, rfc: Option<Blob>, documents: seq<Document>)

  datatype KeyStatus = Active | DecryptOnly | Revoked

  /** A registered master key; the fingerprint tells keys apart. */
  datatype Meta = Meta(status: KeyStatus, fingerprint: Key)

  datatype Vault = Vault(meta: map<nat, Meta>, profiles: seq<Profile>)

  /** What a profile holds in the clear. */
  datatype PlainDocument = PlainDocument(number: Option<Payload>, files: seq<Option<Payload>>)

  datatype PlainProfile = PlainProfile(curp: Option<Payload>, rfc: Option<Payload>, documents: seq<PlainDocument>)

  function PlainOf(b: Option<Blob>): Option<Payload> {
    if b.Some? then Some(b.value.plain) else None
  }

  function PlainDoc(d: Document): PlainDocument {
    PlainDocument(PlainOf(d.number), seq(|d.files|, k requires 0 <= k < |d.files| => PlainOf(d.files[k].key)))
  }

  function Plain(p: Profile): PlainProfile {
    PlainProfile(PlainOf(p.curp), PlainOf(p.rfc),
        seq(|p.documents|, k requires 0 <= k < |p.documents| => PlainDoc(p.documents[k])))
  }

  /** The field opens with the key, in its own context. */
  predicate Opens(b: Option<Blob>, key: Key, context: Context) {
    b.Some? ==> Decrypt(key, b.value, context) == Ok(b.value.plain)
  }

  predicate FilesOpen(files: seq<File>, key: Key) {
    forall k :: 0 <= k < |files| ==> Opens(files[k].key, key, FileKeyOf(files[k].id))
  }

  predicate DocumentOpens(d: Document, key: Key) {
    Opens(d.number, key, Number(d.id)) && FilesOpen(d.files, key)
  }

  predicate DocumentsOpen(documents: seq<Document>, key: Key) {
    forall k :: 0 <= k < |documents| ==> DocumentOpens(documents[k], key)
  }

  predicate ProfileOpens(i: nat, p: Profile, key: Key) {
    Opens(p.curp, key, Curp(i)) && Opens(p.rfc, key, Rfc(i)) && DocumentsOpen(p.documents, key)
  }

  /** Reading a profile: its data key is unwrapped and opens every field and file key; a shredded one is gone. */
  function Read(p: KeyProvider, i: nat, profile: Profile): Result<PlainProfile> {
    if profile.dataKey.None? then Err(CryptoFailure)
    else
      var key :- Unwrap(p, profile.dataKey.value, i);
      if ProfileOpens(i, profile, key) then Ok(Plain(profile)) else Err(CryptoFailure)
  }

  // ---------------------------------------------------------------------------
  // Operations
  // ---------------------------------------------------------------------------

  /** The active key of the process is the one registered as active. */
  predicate Registered(meta: map<nat, Meta>, p: KeyProvider) {
    p.active in meta && meta[p.active] == Meta(Active, p.keys[p.active])
  }

  /** The active key of the process is registered as it is, and is not revoked. */
  predicate Trusted(meta: map<nat, Meta>, p: KeyProvider) {
    p.active in meta && meta[p.active].fingerprint == p.keys[p.active] && meta[p.active].status != Revoked
  }

  /** The check at start-up: every configured key is registered, is the same key, and is not revoked. */
  predicate Configured(meta: map<nat, Meta>, p: KeyProvider) {
    && Registered(meta, p)
    && forall k :: k in p.keys ==> k in meta && meta[k].fingerprint == p.keys[k] && meta[k].status != Revoked
  }

  /** The active key of the process becomes the active one, and the one before only decrypts. */
  function RegisterActive(v: Vault, p: KeyProvider): Result<Vault> {
    var id, key := p.active, p.keys[p.active];
    if id in v.meta && v.meta[id].fingerprint != key then Err(KeyConfiguration)
    else if id in v.meta && v.meta[id].status == Revoked then Err(KeyConfiguration)
    else
      var retired := map k | k in v.meta :: if v.meta[k].status == Active && k != id
          then v.meta[k].(status := DecryptOnly) else v.meta[k];
      Ok(v.(meta := retired[id := Meta(Active, key)]))
  }

  predicate Pending(profile: Profile, active: nat) {
    profile.dataKey.Some? && profile.dataKey.value.keyId != active
  }

  function RewrappedRow(p: KeyProvider, i: nat, profile: Profile): Profile {
    if Pending(profile, p.active) && Rewrap(p, profile.dataKey.value, i).Ok? then
      profile.(dataKey := Some(Rewrap(p, profile.dataKey.value, i).value))
    else profile
  }

  /** One committed batch: the chosen rows among those pending are wrapped anew; one that does not open fails it. */
  function RewrapBatch(v: Vault, p: KeyProvider, chosen: set<nat>): Result<Vault> {
    if exists i :: 0 <= i < |v.profiles| && i in chosen && Pending(v.profiles[i], p.active)
                   && Rewrap(p, v.profiles[i].dataKey.value, i).Err? then Err(CryptoFailure)
    else Ok(v.(profiles := seq(|v.profiles|, i requires 0 <= i < |v.profiles| =>
           if i in chosen then RewrappedRow(p, i, v.profiles[i]) else v.profiles[i])))
  }

  predicate WrappedWith(profile: Profile, id: nat) {
    profile.dataKey.Some? && profile.dataKey.value.keyId == id
  }

  function CountWrapped(profiles: seq<Profile>, id: nat): nat {
    if profiles == [] then 0
    else CountWrapped(profiles[..|profiles| - 1], id) + if WrappedWith(profiles[|profiles| - 1], id) then 1 else 0
  }

  function Revoke(v: Vault, id: nat): Result<Vault> {
    if id !in v.meta || v.meta[id].status == Active || CountWrapped(v.profiles, id) > 0 then Err(KeyConfiguration)
    else Ok(v.(meta := v.meta[id := v.meta[id].(status := Revoked)]))
  }

  function Reseal(b: Option<Blob>, key: Key): Option<Blob> {
    if b.Some? then Some(Blob(0, key, b.value.plain, b.value.context)) else None
  }

  function ResealFiles(files: seq<File>, key: Key): seq<File> {
    seq(|files|, k requires 0 <= k < |files| => files[k].(key := Reseal(files[k].key, key)))
  }

  function ResealDocument(d: Document, key: Key): Document {
    Document(d.id, Reseal(d.number, key), ResealFiles(d.files, key))
  }

  function ResealDocuments(documents: seq<Document>, key: Key): seq<Document> {
    seq(|documents|, k requires 0 <= k < |documents| => ResealDocument(documents[k], key))
  }

  /** A new data key: every field and file key is opened with the old one and sealed with the new one. */
  function Rekey(v: Vault, p: KeyProvider, i: nat, next: Key): Result<Vault> {
    if i >= |v.profiles| then Err(NotFound)
    else if v.profiles[i].dataKey.None? then Err(CryptoFailure)
    else
      var profile := v.profiles[i];
      var current :- Unwrap(p, profile.dataKey.value, i);
      if !ProfileOpens(i, profile, current) then Err(CryptoFailure)
      else
        Ok(v.(profiles := v.profiles[i := Profile(Some(Wrap(p, next, i)), Reseal(profile.curp, next),
            Reseal(profile.rfc, next),
                                                  ResealDocuments(profile.documents, next))]))
  }

  /** Cryptographic erasure: the wrapped data key is destroyed. */
  function Shred(v: Vault, i: nat): Result<Vault> {
    if i >= |v.profiles| then Err(NotFound) else Ok(v.(profiles := v.profiles[i := v.profiles[i].(dataKey := None)]))
  }

  datatype Operation =
    | Registering(provider: KeyProvider)
    | Rewrapping(provider: KeyProvider, chosen: set<nat>)
    | Revoking(id: nat)
    | Rekeying(provider: KeyProvider, profile: nat, next: Key)
    | Shredding(profile: nat)

  function Do(v: Vault, op: Operation): Result<Vault> {
    match op
    case Registering(p) => RegisterActive(v, p)
    case Rewrapping(p, chosen) => RewrapBatch(v, p, chosen)
    case Revoking(id) => Revoke(v, id)
    case Rekeying(p, i, next) => Rekey(v, p, i, next)
    case Shredding(i) => Shred(v, i)
  }

  function Step(v: Vault, op: Operation): Vault {
    var r := Do(v, op);
    if r.Ok? then r.value else v
  }

  function Run(v: Vault, ops: seq<Operation>): Vault
    decreases |ops|
  {
    if ops == [] then v else Run(Step(v, ops[0]), ops[1..])
  }

  /** Whoever wraps data keys does it with a registered key that is not revoked. */
  predicate Proper(v: Vault, op: Operation) {
    match op
    case Rewrapping(p, _) => Trusted(v.meta, p)
    case Rekeying(p, _, _) => Trusted(v.meta, p)
    case Registering(_) | Revoking(_) | Shredding(_) => true
  }

  predicate ProperRun(v: Vault, ops: seq<Operation>)
    decreases |ops|
  {
    ops == [] || (Proper(v, ops[0]) && ProperRun(Step(v, ops[0]), ops[1..]))
  }

  // ---------------------------------------------------------------------------
  // The invariant
  // ---------------------------------------------------------------------------

  /** The data key is wrapped for its own case with a registered key that is not revoked. */
  predicate WrapSound(meta: map<nat, Meta>, i: nat, b: Blob) {
    && b.plain.DataKey? && b.context == DataKeyOf(i)
    && b.keyId in meta && meta[b.keyId].fingerprint == b.key && meta[b.keyId].status != Revoked
  }

  predicate ProfileSound(meta: map<nat, Meta>, i: nat, p: Profile) {
    p.dataKey.Some? ==> WrapSound(meta, i, p.dataKey.value) && ProfileOpens(i, p, p.dataKey.value.plain.key)
  }

  predicate VaultSound(v: Vault) {
    forall i :: 0 <= i < |v.profiles| ==> ProfileSound(v.meta, i, v.profiles[i])
  }

  /** Nothing that is not shredded lost or changed what it holds in the clear. */
  predicate SamePlain(v: Vault, after: Vault) {
    && |after.profiles| == |v.profiles|
    && forall i :: 0 <= i < |v.profiles| ==> Plain(after.profiles[i]) == Plain(v.profiles[i])
  }

  /** A registered key that is not revoked stays itself. */
  predicate KeysStay(meta: map<nat, Meta>, after: map<nat, Meta>) {
    forall k :: k in meta && meta[k].status != Revoked ==>
      k in after && after[k].fingerprint == meta[k].fingerprint && after[k].status != Revoked
  }

  lemma RegisterKeeps(v: Vault, p: KeyProvider)
    requires VaultSound(v)
    ensures var r := RegisterActive(v, p);
            r.Ok? ==> VaultSound(r.value) && SamePlain(v, r.value) && KeysStay(v.meta, r.value.meta)
  {
    hide ProfileOpens, Plain;
    if RegisterActive(v, p).Ok? {
      var after := RegisterActive(v, p).value;
      forall i | 0 <= i < |v.profiles| ensures ProfileSound(after.meta, i, after.profiles[i]) {
        assert ProfileSound(v.meta, i, v.profiles[i]);
      }
    }
  }

  lemma RewrapKeepsRow(meta: map<nat, Meta>, p: KeyProvider, i: nat, profile: Profile)
    requires ProfileSound(meta, i, profile) && Trusted(meta, p)
    ensures ProfileSound(meta, i, RewrappedRow(p, i, profile)) && Plain(RewrappedRow(p, i, profile)) == Plain(profile)
  {
  }

  lemma RewrapKeeps(v: Vault, p: KeyProvider, chosen: set<nat>)
    requires VaultSound(v) && Trusted(v.meta, p)
    ensures var r := RewrapBatch(v, p, chosen); r.Ok? ==> VaultSound(r.value) && SamePlain(v, r.value)
  {
    hide ProfileSound, Plain, RewrappedRow, Rewrap;
    if RewrapBatch(v, p, chosen).Ok? {
      var after := RewrapBatch(v, p, chosen).value;
      forall i | 0 <= i < |v.profiles|
        ensures ProfileSound(after.meta, i, after.profiles[i]) && Plain(after.profiles[i]) == Plain(v.profiles[i])
      {
        RewrapKeepsRow(v.meta, p, i, v.profiles[i]);
      }
    }
  }

  lemma {:induction false} NoneWrapped(profiles: seq<Profile>, id: nat)
    ensures CountWrapped(profiles, id) == 0 <==> forall i :: 0 <= i < |profiles| ==> !WrappedWith(profiles[i], id)
  {
    if profiles == [] {
    } else {
      var n := |profiles| - 1;
      NoneWrapped(profiles[..n], id);
      assert forall i :: 0 <= i < n ==> profiles[..n][i] == profiles[i];
    }
  }

  lemma RevokeKeeps(v: Vault, id: nat)
    requires VaultSound(v)
    ensures var r := Revoke(v, id); r.Ok? ==> VaultSound(r.value) && SamePlain(v, r.value)
  {
    hide ProfileOpens, Plain;
    NoneWrapped(v.profiles, id);
    if Revoke(v, id).Ok? {
      var after := Revoke(v, id).value;
      forall i | 0 <= i < |v.profiles| ensures ProfileSound(after.meta, i, after.profiles[i]) {
        assert ProfileSound(v.meta, i, v.profiles[i]);
        assert !WrappedWith(v.profiles[i], id);
      }
    }
  }

  lemma ResealOpens(b: Option<Blob>, current: Key, key: Key, context: Context)
    requires Opens(b, current, context)
    ensures Opens(Reseal(b, key), key, context) && PlainOf(Reseal(b, key)) == PlainOf(b)
  {
  }

  lemma ResealDocumentOpens(d: Document, current: Key, key: Key)
    requires DocumentOpens(d, current)
    ensures DocumentOpens(ResealDocument(d, key), key) && PlainDoc(ResealDocument(d, key)) == PlainDoc(d)
  {
    hide Opens, Reseal, PlainOf;
    var after := ResealDocument(d, key);
    ResealOpens(d.number, current, key, Number(d.id));
    forall k | 0 <= k < |d.files|
      ensures Opens(after.files[k].key, key, FileKeyOf(after.files[k].id))
      ensures PlainOf(after.files[k].key) == PlainOf(d.files[k].key)
    {
      ResealOpens(d.files[k].key, current, key, FileKeyOf(d.files[k].id));
    }
    assert PlainDoc(after).files == PlainDoc(d).files;
  }

  lemma RekeyKeeps(v: Vault, p: KeyProvider, i: nat, next: Key)
    requires VaultSound(v) && Trusted(v.meta, p)
    ensures var r := Rekey(v, p, i, next); r.Ok? ==> VaultSound(r.value) && SamePlain(v, r.value)
  {
    hide Opens, DocumentOpens, PlainDoc, ResealDocument, Reseal;
    if Rekey(v, p, i, next).Ok? {
      var profile, current := v.profiles[i], Unwrap(p, v.profiles[i].dataKey.value, i).value;
      var after := Rekey(v, p, i, next).value;
      ResealOpens(profile.curp, current, next, Curp(i));
      ResealOpens(profile.rfc, current, next, Rfc(i));
      forall k | 0 <= k < |profile.documents|
        ensures DocumentOpens(after.profiles[i].documents[k], next)
        ensures PlainDoc(after.profiles[i].documents[k]) == PlainDoc(profile.documents[k])
      {
        ResealDocumentOpens(profile.documents[k], current, next);
      }
      assert Plain(after.profiles[i]).documents == Plain(profile).documents;
      assert ProfileSound(after.meta, i, after.profiles[i]);
    }
  }

  lemma StepKeeps(v: Vault, op: Operation)
    requires VaultSound(v) && Proper(v, op)
    ensures VaultSound(Step(v, op)) && SamePlain(v, Step(v, op))
  {
    match op {
      case Registering(p) => RegisterKeeps(v, p);
      case Rewrapping(p, chosen) => RewrapKeeps(v, p, chosen);
      case Revoking(id) => RevokeKeeps(v, id);
      case Rekeying(p, i, next) => RekeyKeeps(v, p, i, next);
      case Shredding(i) => ShredKeeps(v, i);
    }
    hide VaultSound, SamePlain;
  }

  lemma ShredKeeps(v: Vault, i: nat)
    requires VaultSound(v)
    ensures var r := Shred(v, i); r.Ok? ==> VaultSound(r.value) && SamePlain(v, r.value)
  {
    hide ProfileOpens, PlainDoc;
  }

  lemma {:induction false} RunKeeps(v: Vault, ops: seq<Operation>)
    requires VaultSound(v) && ProperRun(v, ops)
    ensures VaultSound(Run(v, ops)) && SamePlain(v, Run(v, ops))
    decreases |ops|
  {
    hide VaultSound, Step, Plain, Proper;
    if ops == [] {
    } else {
      StepKeeps(v, ops[0]);
      RunKeeps(Step(v, ops[0]), ops[1..]);
    }
  }

  // ---------------------------------------------------------------------------
  // One active key
  // ---------------------------------------------------------------------------

  predicate OneActive(meta: map<nat, Meta>) {
    forall j, k :: j in meta && k in meta && meta[j].status == Active && meta[k].status == Active ==> j == k
  }

  /**
   Activating a key is refused exactly when another key is registered under its id or it was revoked; then the key that
   was active before only decrypts, and every other key keeps its state.
   */
  lemma ActivationRetires(v: Vault, p: KeyProvider)
    ensures var r, id := RegisterActive(v, p), p.active;
            && (r.Ok? <==> id !in v.meta || (v.meta[id].fingerprint == p.keys[id] && v.meta[id].status != Revoked))
            && (r.Ok? ==>
                  var after := r.value.meta;
                  && r.value.profiles == v.profiles && after.Keys == v.meta.Keys + {id}
                  && after[id] == Meta(Active, p.keys[id]) && OneActive(after)
                  && forall k :: k in v.meta && k != id ==>
                       && after[k].fingerprint == v.meta[k].fingerprint
                       && after[k].status == if v.meta[k].status == Active then DecryptOnly else v.meta[k].status)
  {
  }

  /** On every run at most one key is active, and no key that was revoked ever comes back. */
  lemma {:induction false} RunKeepsOneActive(v: Vault, ops: seq<Operation>)
    requires OneActive(v.meta)
    ensures var after := Run(v, ops);
            && OneActive(after.meta)
            && forall k :: k in v.meta ==>
                 && k in after.meta && after.meta[k].fingerprint == v.meta[k].fingerprint
                 && (v.meta[k].status == Revoked ==> after.meta[k].status == Revoked)
    decreases |ops|
  {
    if ops == [] {
    } else {
      StepKeepsOneActive(v, ops[0]);
      hide Step, OneActive;
      RunKeepsOneActive(Step(v, ops[0]), ops[1..]);
    }
  }

  lemma StepKeepsOneActive(v: Vault, op: Operation)
    requires OneActive(v.meta)
    ensures var after := Step(v, op);
            && OneActive(after.meta)
            && forall k :: k in v.meta ==>
                 && k in after.meta && after.meta[k].fingerprint == v.meta[k].fingerprint
                 && (v.meta[k].status == Revoked ==> after.meta[k].status == Revoked)
  {
    hide Unwrap, Wrap, ProfileOpens, ResealDocuments, CountWrapped;
    if op.Registering? { ActivationRetires(v, op.provider); }
  }

  /** A key may be revoked exactly when it is registered, is not the active one, and wraps no data key any more. */
  lemma RevokedIsUnused(v: Vault, id: nat)
    ensures var r := Revoke(v, id);
            && (r.Ok? <==> id in v.meta && v.meta[id].status != Active
                           && forall i :: 0 <= i < |v.profiles| && v.profiles[i].dataKey.Some? ==>
                                v.profiles[i].dataKey.value.keyId != id)
            && (r.Ok? ==> r.value == v.(meta := v.meta[id := v.meta[id].(status := Revoked)]))
  {
    NoneWrapped(v.profiles, id);
    if id in v.meta && v.meta[id].status != Active && !Revoke(v, id).Ok? {
      var i :| 0 <= i < |v.profiles| && WrappedWith(v.profiles[i], id);
    }
  }

  /** A field or a file key is sealed with this key, if it is there at all. */
  predicate SealedWith(b: Option<Blob>, key: Key) {
    b.Some? ==> b.value.key == key
  }

  /** A rekey seals everything in the case with the new data key, which the active key of the process wraps. */
  lemma RekeyReplaces(v: Vault, p: KeyProvider, i: nat, next: Key)
    requires Rekey(v, p, i, next).Ok?
    ensures var after := Rekey(v, p, i, next).value;
            && after.meta == v.meta && |after.profiles| == |v.profiles|
            && (forall k :: 0 <= k < |v.profiles| && k != i ==> after.profiles[k] == v.profiles[k])
            && var q := after.profiles[i];
            && q.dataKey == Some(Blob(p.active, p.keys[p.active], DataKey(next), DataKeyOf(i)))
            && SealedWith(q.curp, next) && SealedWith(q.rfc, next) && |q.documents| == |v.profiles[i].documents|
            && forall d :: d in q.documents ==>
                 SealedWith(d.number, next) && forall f :: f in d.files ==> SealedWith(f.key, next)
  {
    hide ProfileOpens, Unwrap;
  }

  // ---------------------------------------------------------------------------
  // Theorems
  // ---------------------------------------------------------------------------

  /**
   After any activations, rewraps in batches, revocations and rekeys, every case that was not shredded opens
   to exactly what it held at first, for every process that has the key its data key is wrapped with; and no
   data key is wrapped with a revoked key.
   */
  lemma RunStaysReadable(v: Vault, ops: seq<Operation>, p: KeyProvider, i: nat)
    requires VaultSound(v) && ProperRun(v, ops) && i < |v.profiles|
    ensures var after := Run(v, ops);
            && i < |after.profiles|
            && (after.profiles[i].dataKey.Some? ==>
                  var b := after.profiles[i].dataKey.value;
                  && b.keyId in after.meta && after.meta[b.keyId].status != Revoked
                  && (Configured(after.meta, p) && b.keyId in p.keys ==>
                        Read(p, i, after.profiles[i]) == Ok(Plain(v.profiles[i]))))
  {
    RunKeeps(v, ops);
    hide Run, Plain, ProfileOpens, ProperRun;
    assert ProfileSound(Run(v, ops).meta, i, Run(v, ops).profiles[i]);
  }

  /**
   A process that wraps with a key of its own leaves the case readable and under a live key exactly when that
   key is registered as it is and is not revoked.
   */
  lemma RekeySoundExactly(v: Vault, p: KeyProvider, i: nat, next: Key)
    requires VaultSound(v) && Rekey(v, p, i, next).Ok?
    ensures VaultSound(Rekey(v, p, i, next).value) <==> Trusted(v.meta, p)
  {
    hide ProfileOpens, ResealDocument;
    if Trusted(v.meta, p) {
      RekeyKeeps(v, p, i, next);
    } else {
      assert !ProfileSound(v.meta, i, Rekey(v, p, i, next).value.profiles[i]);
    }
  }

  lemma ShreddedStays(v: Vault, op: Operation, i: nat)
    requires i < |v.profiles| && v.profiles[i].dataKey.None?
    ensures var after := Step(v, op); i < |after.profiles| && after.profiles[i].dataKey.None?
  {
    hide Rewrap, Unwrap, ProfileOpens, ResealDocuments;
  }

  lemma {:induction false} ShreddedStaysOver(v: Vault, ops: seq<Operation>, i: nat)
    requires i < |v.profiles| && v.profiles[i].dataKey.None?
    ensures var after := Run(v, ops); i < |after.profiles| && after.profiles[i].dataKey.None?
    decreases |ops|
  {
    hide Step;
    if ops == [] {
    } else {
      ShreddedStays(v, ops[0], i);
      ShreddedStaysOver(Step(v, ops[0]), ops[1..], i);
    }
  }

  /** Once shredded, a case never opens again: no later operation, proper or not, brings its data key back. */
  lemma ShreddedIsGone(v: Vault, ops: seq<Operation>, i: nat, p: KeyProvider)
    requires i < |v.profiles|
    ensures var after := Run(Step(v, Shredding(i)), ops); i < |after.profiles| && Read(p, i, after.profiles[i]).Err?
  {
    ShreddedStaysOver(Step(v, Shredding(i)), ops, i);
    hide Run;
  }
}
