/** The stored keys and sealed values, changed in place by the rotation. */
module KeyVaults {
  import opened Results
  import opened KeyRotation

  function CountPending(profiles: seq<Profile>, active: nat): nat {
    if profiles == [] then 0
    else CountPending(profiles[..|profiles| - 1], active) + if Pending(profiles[|profiles| - 1], active) then 1 else 0
  }

  lemma {:induction false} PendingUpdated(profiles: seq<Profile>, i: nat, p: Profile, active: nat)
    requires i < |profiles|
    ensures CountPending(profiles[i := p], active)
            == CountPending(profiles, active) - (if Pending(profiles[i], active) then 1 else 0)
                + (if Pending(p, active) then 1 else 0)
  {
    var n := |profiles| - 1;
    if i == n {
      assert profiles[i := p][..n] == profiles[..n];
    } else {
      PendingUpdated(profiles[..n], i, p, active);
      assert profiles[i := p][..n] == profiles[..n][i := p];
    }
  }

  lemma {:induction false} NonePending(profiles: seq<Profile>, active: nat)
    ensures CountPending(profiles, active) == 0 <==> forall i :: 0 <= i < |profiles| ==> !Pending(profiles[i], active)
  {
    if profiles == [] {
    } else {
      var n := |profiles| - 1;
      NonePending(profiles[..n], active);
      assert forall i :: 0 <= i < n ==> profiles[..n][i] == profiles[i];
    }
  }

  predicate Increasing(rows: seq<nat>) {
    forall a, b :: 0 <= a < b < |rows| ==> rows[a] < rows[b]
  }

  lemma RunSnoc(v: Vault, ops: seq<Operation>, op: Operation)
    ensures Run(v, ops + [op]) == Step(Run(v, ops), op)
    decreases |ops|
  {
    hide Step;
    if ops == [] {
      assert ops + [op] == [op];
      assert Run(v, [op]) == Run(Step(v, op), []);
    } else {
      assert (ops + [op])[0] == ops[0] && (ops + [op])[1..] == ops[1..] + [op];
      RunSnoc(Step(v, ops[0]), ops[1..], op);
    }
  }

  class KeyVault {
    var meta: map<nat, Meta>
    var profiles: seq<Profile>

    function View(): Vault
      reads this
    {
      Vault(meta, profiles)
    }

    ghost predicate Ran(r: Result<()>, spec: Result<Vault>)
      reads this
    {
      match spec
      case Ok(v) => r.Ok? && View() == v
      case Err(e) => r == Err(e)
    }

    /** The rows wrapped with another key that no other transaction holds, at most so many. */
    method PendingRows(active: nat, limit: nat, locked: set<nat>) returns (rows: seq<nat>)
      ensures Increasing(rows) && |rows| <= limit
      ensures forall i :: i in rows ==> i < |profiles| && Pending(profiles[i], active) && i !in locked
      ensures |rows| < limit ==>
                forall i :: 0 <= i < |profiles| && Pending(profiles[i], active) && i !in locked ==> i in rows
    {
      rows := [];
      var i := 0;
      while i < |profiles| && |rows| < limit
        invariant i <= |profiles| && |rows| <= limit
        invariant Increasing(rows) && forall a :: 0 <= a < |rows| ==> rows[a] < i
        invariant forall k :: k in rows ==> k < i && Pending(profiles[k], active) && k !in locked
        invariant forall k :: 0 <= k < i && Pending(profiles[k], active) && k !in locked ==> k in rows
      {
        if Pending(profiles[i], active) && i !in locked { rows := rows + [i]; }
        i := i + 1;
      }
    }

    /** Wraps the rows anew with the active key. */
    method RewrapRows(p: KeyProvider, rows: seq<nat>) returns (r: Result<()>)
      requires Increasing(rows) && forall i :: i in rows ==> i < |profiles| && Pending(profiles[i], p.active)
      modifies this`profiles
      ensures Ran(r, RewrapBatch(old(View()), p, set i | i in rows))
      ensures r.Ok? ==> CountPending(profiles, p.active) + |rows| == CountPending(old(profiles), p.active)
    {
      hide Rewrap, Wrap, CountPending, Opens;
      ghost var before := profiles;
      for k := 0 to |rows|
        invariant |profiles| == |before|
        invariant forall i :: 0 <= i < |before| ==> profiles[i] == if i in rows[..k]
            then RewrappedRow(p, i, before[i]) else before[i]
        invariant forall i :: i in rows[..k] ==> i in rows && Rewrap(p, before[i].dataKey.value, i).Ok?
        invariant CountPending(profiles, p.active) + k == CountPending(before, p.active)
      {
        var i := rows[k];
        assert i !in rows[..k];
        assert rows[..k + 1] == rows[..k] + [i];
        assert i in rows && profiles[i] == before[i];
        RewrapActive(p, before[i].dataKey.value, i);
        var blob :- Rewrap(p, profiles[i].dataKey.value, i);
        PendingUpdated(profiles, i, profiles[i].(dataKey := Some(blob)), p.active);
        profiles := profiles[i := profiles[i].(dataKey := Some(blob))];
      }
      assert rows[..|rows|] == rows;
      return Ok(());
    }

    /**
     Wraps anew, batch by batch, every data key that is wrapped with another key; each batch is committed. Rows
     held by others are skipped, and a later call takes them up; a batch size of zero does nothing.
     */
    method RotateKeys(p: KeyProvider, limit: nat, locked: nat -> set<nat>)
        returns (r: Result<nat>, ghost ops: seq<Operation>)
      modifies this`profiles
      ensures View() == Run(old(View()), ops)
      ensures forall op :: op in ops ==> op.Rewrapping? && op.provider == p
      ensures r.Ok? ==> r.value == CountPending(old(profiles), p.active) - CountPending(profiles, p.active)
      ensures r.Ok? && limit > 0 && (forall n :: locked(n) == {}) ==> CountPending(profiles, p.active) == 0
    {
      hide Do, RewrapBatch;
      var total, round := 0, 0;
      ops := [];
      while true
        invariant View() == Run(old(View()), ops)
        invariant forall op :: op in ops ==> op.Rewrapping? && op.provider == p
        invariant total == CountPending(old(profiles), p.active) - CountPending(profiles, p.active)
        decreases CountPending(profiles, p.active)
      {
        var rows := PendingRows(p.active, limit, locked(round));
        if rows == [] {
          NonePending(profiles, p.active);
          return Ok(total), ops;
        }
        var saved := profiles;
        ghost var op := Rewrapping(p, set i | i in rows);
        RunSnoc(old(View()), ops, op);
        RewrapStep(View(), p, set i | i in rows);
        var done := RewrapRows(p, rows);
        if done.Err? {
          profiles := saved;
          return Err(done.error), ops;
        }
        total, round := total + |rows|, round + 1;
        ops := ops + [op];
      }
    }

    method CountWrappedWith(id: nat) returns (n: nat)
      ensures n == CountWrapped(profiles, id)
    {
      n := 0;
      for i := 0 to |profiles|
        invariant n == CountWrapped(profiles[..i], id)
      {
        assert profiles[..i + 1][..i] == profiles[..i];
        if WrappedWith(profiles[i], id) { n := n + 1; }
      }
      assert profiles[..|profiles|] == profiles;
    }

    method RevokeKey(id: nat) returns (r: Result<()>)
      modifies this`meta
      ensures Ran(r, Revoke(old(View()), id))
    {
      if id !in meta || meta[id].status == Active { return Err(KeyConfiguration); }
      var pending := CountWrappedWith(id);
      if pending > 0 { return Err(KeyConfiguration); }
      meta := meta[id := meta[id].(status := Revoked)];
      return Ok(());
    }

    method ActivateKey(p: KeyProvider) returns (r: Result<()>)
      modifies this`meta
      ensures Ran(r, RegisterActive(old(View()), p))
    {
      var id, key := p.active, p.keys[p.active];
      if id in meta && meta[id].fingerprint != key { return Err(KeyConfiguration); }
      if id in meta && meta[id].status == Revoked { return Err(KeyConfiguration); }
      meta := map k | k in meta ::
        if meta[k].status == Active && k != id then meta[k].(status := DecryptOnly) else meta[k];
      meta := meta[id := Meta(Active, key)];
      return Ok(());
    }

    method SealField(b: Option<Blob>, current: Key, next: Key, context: Context) returns (r: Result<Option<Blob>>)
      ensures r == if Opens(b, current, context) then Ok(Reseal(b, next)) else Err(CryptoFailure)
    {
      if b.None? { return Ok(None); }
      var plain :- Decrypt(current, b.value, context);
      return Ok(Some(Blob(0, next, plain, context)));
    }

    /** Seals the files of a document anew, each opened with the old key in its own context. */
    method SealFiles(files: seq<File>, current: Key, next: Key) returns (r: Result<seq<File>>)
      ensures r == if FilesOpen(files, current) then Ok(ResealFiles(files, next)) else Err(CryptoFailure)
    {
      hide Opens, Reseal;
      var out := [];
      for k := 0 to |files|
        invariant |out| == k && forall j :: 0 <= j < k ==> out[j] == files[j].(key := Reseal(files[j].key, next))
        invariant forall j :: 0 <= j < k ==> Opens(files[j].key, current, FileKeyOf(files[j].id))
      {
        var key :- SealField(files[k].key, current, next, FileKeyOf(files[k].id));
        out := out + [files[k].(key := key)];
      }
      assert out == ResealFiles(files, next);
      return Ok(out);
    }

    method SealDocuments(documents: seq<Document>, current: Key, next: Key) returns (r: Result<seq<Document>>)
      ensures r ==
        if DocumentsOpen(documents, current) then Ok(ResealDocuments(documents, next)) else Err(CryptoFailure)
    {
      hide Opens, Reseal, FilesOpen, ResealFiles;
      var out := [];
      for k := 0 to |documents|
        invariant |out| == k && forall j :: 0 <= j < k ==> out[j] == ResealDocument(documents[j], next)
        invariant forall j :: 0 <= j < k ==> DocumentOpens(documents[j], current)
      {
        var d := documents[k];
        var number :- SealField(d.number, current, next, Number(d.id));
        var files :- SealFiles(d.files, current, next);
        out := out + [Document(d.id, number, files)];
      }
      assert out == ResealDocuments(documents, next);
      return Ok(out);
    }

    method RekeyProfile(p: KeyProvider, i: nat, next: Key) returns (r: Result<()>)
      modifies this`profiles
      ensures Ran(r, Rekey(old(View()), p, i, next))
    {
      hide Unwrap, Wrap, Opens, DocumentsOpen, ResealDocuments, Reseal;
      if i >= |profiles| { return Err(NotFound); }
      if profiles[i].dataKey.None? { return Err(CryptoFailure); }
      var profile := profiles[i];
      var current :- Unwrap(p, profile.dataKey.value, i);
      var curp :- SealField(profile.curp, current, next, Curp(i));
      var rfc :- SealField(profile.rfc, current, next, Rfc(i));
      var documents :- SealDocuments(profile.documents, current, next);
      profiles := profiles[i := Profile(Some(Wrap(p, next, i)), curp, rfc, documents)];
      return Ok(());
    }
  }

  lemma RewrapActive(p: KeyProvider, blob: Blob, i: nat)
    ensures var r := Rewrap(p, blob, i); if r.Ok? then r.value.keyId == p.active else r.error == CryptoFailure
  {
  }

  lemma RewrapStep(v: Vault, p: KeyProvider, chosen: set<nat>)
    ensures var r := RewrapBatch(v, p, chosen); Step(v, Rewrapping(p, chosen)) == if r.Ok? then r.value else v
  {
  }

  /** Once a rotation has run to its end with nothing held by others, every other key may be revoked. */
  lemma RotatedMayBeRevoked(v: Vault, active: nat, id: nat)
    requires CountPending(v.profiles, active) == 0 && id != active && id in v.meta && v.meta[id].status != Active
    ensures Revoke(v, id).Ok?
  {
    NonePending(v.profiles, active);
    NoneWrapped(v.profiles, id);
  }

  /** A rotation by a process with a live registered key keeps every case readable, however it was interrupted. */
  lemma {:induction false} RotationProper(v: Vault, p: KeyProvider, ops: seq<Operation>)
    requires Trusted(v.meta, p) && forall op :: op in ops ==> op.Rewrapping? && op.provider == p
    ensures ProperRun(v, ops)
    decreases |ops|
  {
    hide RewrapBatch;
    if ops == [] {
    } else {
      RewrapStep(v, p, ops[0].chosen);
      RewrapKeepsMeta(v, p, ops[0].chosen);
      RotationProper(Step(v, ops[0]), p, ops[1..]);
    }
  }

  lemma RewrapKeepsMeta(v: Vault, p: KeyProvider, chosen: set<nat>)
    ensures Step(v, Rewrapping(p, chosen)).meta == v.meta
  {
  }
}
