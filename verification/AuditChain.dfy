/**
 The audit log: each row stores the digest of the row before it and its own digest, taken over its content and
 that link. The digest is a parameter; tampering is detected as far as it has no collisions.
 */
module AuditChain {
  import opened Results

  type Digest = (string, Option<nat>) -> nat

  datatype Row = Row(id: nat, content: string, prev: Option<nat>, hash: nat)

  /** Rows in the order of their ids, which start at one. */
  predicate Ordered(rows: seq<Row>) {
    && (forall i :: 0 <= i < |rows| ==> 0 < rows[i].id)
    && (forall i, j :: 0 <= i < j < |rows| ==> rows[i].id < rows[j].id)
  }

  function LastHash(rows: seq<Row>): Option<nat> {
    if rows == [] then None else Some(rows[|rows| - 1].hash)
  }

  predicate LinkHolds(row: Row, prev: Option<nat>, digest: Digest) {
    row.prev == prev && row.hash == digest(row.content, row.prev)
  }

  /** The whole chain holds, from the first row to the last. */
  predicate Verifies(rows: seq<Row>, digest: Digest) {
    forall i :: 0 <= i < |rows| ==> LinkHolds(rows[i], LastHash(rows[..i]), digest)
  }

  /** The ids where the chain breaks, in one pass. */
  function BrokenIds(rows: seq<Row>, digest: Digest): seq<nat> {
    if rows == [] then []
    else
      var n := |rows| - 1;
      BrokenIds(rows[..n], digest) + if LinkHolds(rows[n], LastHash(rows[..n]), digest) then [] else [rows[n].id]
  }

  function Append(rows: seq<Row>, content: string, gap: nat, digest: Digest): seq<Row> {
    var id := if rows == [] then 1 + gap else rows[|rows| - 1].id + 1 + gap;
    rows + [Row(id, content, LastHash(rows), digest(content, LastHash(rows)))]
  }

  class AuditLog {
    const digest: Digest
    var rows: seq<Row>

    constructor (digest: Digest)
      ensures this.digest == digest && rows == []
    {
      this.digest, rows := digest, [];
    }

    /** Appends a row linked to the last one; ids of rolled back transactions leave gaps. */
    method WriteAudit(content: string, gap: nat)
      requires Ordered(rows)
      modifies this`rows
      ensures rows == Append(old(rows), content, gap, digest) && Ordered(rows)
      ensures Verifies(old(rows), digest) ==> Verifies(rows, digest)
    {
      hide Ordered, Verifies;
      AppendKeepsOrder(rows, content, gap, digest);
      if Verifies(rows, digest) { AppendKeepsChain(rows, content, gap, digest); }
      var prev, id := None, 1 + gap;
      if |rows| > 0 {
        prev := Some(rows[|rows| - 1].hash);
        id := rows[|rows| - 1].id + 1 + gap;
      }
      rows := rows + [Row(id, content, prev, digest(content, prev))];
    }

    /** The rows after an id, in order, at most so many. */
    method NextBatch(last: nat, limit: nat) returns (start: nat, batch: seq<Row>)
      requires Ordered(rows)
      ensures start <= |rows| && |batch| <= limit && start + |batch| <= |rows| && batch == rows[start..start + |batch|]
      ensures forall i :: 0 <= i < |rows| ==> (rows[i].id > last <==> i >= start)
      ensures |batch| < limit ==> start + |batch| == |rows|
    {
      start := 0;
      while start < |rows| && rows[start].id <= last
        invariant start <= |rows|
        invariant forall i :: 0 <= i < start ==> rows[i].id <= last
      {
        start := start + 1;
      }
      batch := rows[start..if start + limit <= |rows| then start + limit else |rows|];
    }

    /** Checks the links of one batch, given what the rows before it left. */
    method CheckBatch(ghost before: seq<Row>, batch: seq<Row>, prev: Option<nat>, broken: seq<nat>)
      returns (last: Option<nat>, found: seq<nat>)
      requires prev == LastHash(before) && broken == BrokenIds(before, digest)
      ensures last == LastHash(before + batch) && found == BrokenIds(before + batch, digest)
    {
      hide BrokenIds, LastHash;
      last, found := prev, broken;
      assert before + batch[..0] == before;
      for k := 0 to |batch|
        invariant last == LastHash(before + batch[..k]) && found == BrokenIds(before + batch[..k], digest)
      {
        var row := batch[k];
        assert before + batch[..k + 1] == (before + batch[..k]) + [row];
        OneMoreLink(before + batch[..k], row, digest);
        if !(row.prev == last && row.hash == digest(row.content, row.prev)) { found := found + [row.id]; }
        last := Some(row.hash);
      }
      assert batch[..|batch|] == batch;
    }

    /**
     Checks the chain batch by batch. It is the single pass, whatever the size of the batch; a size of zero
     sees no row, and so reports nothing.
     */
    method VerifyChain(limit: nat) returns (broken: seq<nat>)
      requires Ordered(rows)
      ensures broken == if limit == 0 then [] else BrokenIds(rows, digest)
    {
      hide BrokenIds, LastHash, LinkHolds;
      EmptyChain(digest);
      assert rows[..0] == [];
      broken := [];
      var prev, last := None, 0;
      ghost var seen: nat := 0;
      while true
        invariant seen <= |rows|
        invariant limit == 0 ==> broken == []
        invariant broken == BrokenIds(rows[..seen], digest)
        invariant prev == LastHash(rows[..seen])
        invariant last == if seen == 0 then 0 else rows[seen - 1].id
        decreases |rows| - seen
      {
        var start, batch := NextBatch(last, limit);
        assert start == seen by {
          assert seen > 0 ==> rows[seen - 1].id <= last;
          assert seen < |rows| ==> rows[seen].id > last;
        }
        if batch == [] {
          assert limit > 0 ==> rows[..seen] == rows;
          return;
        }
        prev, broken := CheckBatch(rows[..seen], batch, prev, broken);
        last := batch[|batch| - 1].id;
        assert rows[..seen] + batch == rows[..seen + |batch|];
        seen := seen + |batch|;
      }
    }
  }

  /** One more row breaks the chain exactly when its own link does not hold. */
  lemma OneMoreLink(rows: seq<Row>, row: Row, digest: Digest)
    ensures BrokenIds(rows + [row], digest)
            == BrokenIds(rows, digest) + if LinkHolds(row, LastHash(rows), digest) then [] else [row.id]
    ensures LastHash(rows + [row]) == Some(row.hash)
  {
    assert (rows + [row])[..|rows|] == rows;
  }

  lemma EmptyChain(digest: Digest)
    ensures BrokenIds([], digest) == [] && LastHash([]) == None
  {
  }

  lemma AppendKeepsOrder(rows: seq<Row>, content: string, gap: nat, digest: Digest)
    requires Ordered(rows)
    ensures Ordered(Append(rows, content, gap, digest))
  {
    hide LastHash;
  }

  lemma AppendKeepsChain(rows: seq<Row>, content: string, gap: nat, digest: Digest)
    requires Verifies(rows, digest)
    ensures Verifies(Append(rows, content, gap, digest), digest)
  {
    var after := Append(rows, content, gap, digest);
    forall i | 0 <= i < |after| ensures LinkHolds(after[i], LastHash(after[..i]), digest) {
      if i < |rows| { assert after[..i] == rows[..i]; } else { assert after[..i] == rows; }
    }
  }

  /** The log of the given contents, each written after so many ids were lost to transactions rolled back. */
  function Written(writes: seq<(string, nat)>, digest: Digest): seq<Row> {
    if writes == [] then []
    else
      var last := writes[|writes| - 1];
      Append(Written(writes[..|writes| - 1], digest), last.0, last.1, digest)
  }

  lemma LastLinkSplits(rows: seq<Row>, row: Row, digest: Digest)
    ensures Verifies(rows + [row], digest) <==> Verifies(rows, digest) && LinkHolds(row, LastHash(rows), digest)
  {
    hide LinkHolds, LastHash;
    var after := rows + [row];
    forall i | 0 <= i < |rows| ensures after[..i] == rows[..i] && after[i] == rows[i] {}
    assert after[..|rows|] == rows && after[|rows|] == row;
  }

  lemma {:induction false} BrokenNowhere(rows: seq<Row>, digest: Digest)
    ensures BrokenIds(rows, digest) == [] <==> Verifies(rows, digest)
  {
    if rows == [] {
    } else {
      hide Verifies, LinkHolds, BrokenIds;
      var rest, row := rows[..|rows| - 1], rows[|rows| - 1];
      assert rows == rest + [row];
      BrokenNowhere(rest, digest);
      OneMoreLink(rest, row, digest);
      LastLinkSplits(rest, row, digest);
    }
  }

  /** Every log that was only ever appended to is intact. */
  lemma {:induction false} HonestLogVerifies(writes: seq<(string, nat)>, digest: Digest)
    ensures Ordered(Written(writes, digest)) && BrokenIds(Written(writes, digest), digest) == []
    ensures |Written(writes, digest)| == |writes|
    ensures forall i :: 0 <= i < |writes| ==> Written(writes, digest)[i].content == writes[i].0
  {
    if writes == [] {
    } else {
      var rest, last := writes[..|writes| - 1], writes[|writes| - 1];
      HonestLogVerifies(rest, digest);
      BrokenNowhere(Written(rest, digest), digest);
      AppendKeepsOrder(Written(rest, digest), last.0, last.1, digest);
      AppendKeepsChain(Written(rest, digest), last.0, last.1, digest);
      BrokenNowhere(Written(writes, digest), digest);
    }
  }

  // ---------------------------------------------------------------------------
  // Tampering
  // ---------------------------------------------------------------------------

  ghost predicate Collides(digest: Digest) {
    exists c, p, c', p' :: (c != c' || p != p') && digest(c, p) == digest(c', p')
  }

  /** Two rows that tell the same, whatever their ids. */
  predicate SameRow(r: Row, s: Row) {
    r.content == s.content && r.prev == s.prev && r.hash == s.hash
  }

  predicate SameStory(a: seq<Row>, b: seq<Row>) {
    |a| == |b| && forall i :: 0 <= i < |a| ==> SameRow(a[i], b[i])
  }

  lemma PrefixVerifies(rows: seq<Row>, n: nat, digest: Digest)
    requires Verifies(rows, digest) && n <= |rows|
    ensures Verifies(rows[..n], digest)
  {
    forall i | 0 <= i < n ensures LinkHolds(rows[..n][i], LastHash(rows[..n][..i]), digest) {
      assert rows[..n][..i] == rows[..i];
    }
  }

  lemma LastLink(rows: seq<Row>, digest: Digest)
    requires Verifies(rows, digest) && rows != []
    ensures LinkHolds(rows[|rows| - 1], LastHash(rows[..|rows| - 1]), digest) && Verifies(rows[..|rows| - 1], digest)
  {
    PrefixVerifies(rows, |rows| - 1, digest);
  }

  lemma OneMoreRow(a: seq<Row>, b: seq<Row>)
    requires a != [] && b != [] && SameStory(a[..|a| - 1], b[..|b| - 1])
    requires SameRow(a[|a| - 1], b[|b| - 1])
    ensures SameStory(a, b)
  {
    forall i | 0 <= i < |a| - 1 ensures SameRow(a[i], b[i]) {
      assert a[..|a| - 1][i] == a[i] && b[..|b| - 1][i] == b[i];
    }
  }

  /** Two intact logs that end in the same digest tell the same story, row by row, or a collision was found. */
  lemma {:induction false} SameEndSameStory(a: seq<Row>, b: seq<Row>, digest: Digest)
    requires Verifies(a, digest) && Verifies(b, digest) && LastHash(a) == LastHash(b)
    ensures SameStory(a, b) || Collides(digest)
    decreases |a|
  {
    hide Verifies;
    if a == [] || b == [] {
    } else {
      hide SameStory;
      LastLink(a, digest);
      LastLink(b, digest);
      var r, s := a[|a| - 1], b[|b| - 1];
      if r.content == s.content && r.prev == s.prev {
        SameEndSameStory(a[..|a| - 1], b[..|b| - 1], digest);
        hide Collides;
        if SameStory(a[..|a| - 1], b[..|b| - 1]) { OneMoreRow(a, b); }
      }
    }
  }

  /** No two prefixes of an intact log end in the same digest. */
  lemma EndsDiffer(rows: seq<Row>, i: nat, j: nat, digest: Digest)
    requires Verifies(rows, digest) && !Collides(digest) && i < j <= |rows|
    ensures LastHash(rows[..i]) != LastHash(rows[..j])
  {
    PrefixVerifies(rows, i, digest);
    PrefixVerifies(rows, j, digest);
    if LastHash(rows[..i]) == LastHash(rows[..j]) { SameEndSameStory(rows[..i], rows[..j], digest); }
  }

  /** Removing rows from an intact log goes unnoticed only when they are its last ones. */
  lemma RemovalDetected(rows: seq<Row>, i: nat, j: nat, digest: Digest)
    requires Verifies(rows, digest) && !Collides(digest) && i < j <= |rows|
    ensures Verifies(rows[..i] + rows[j..], digest) <==> j == |rows|
  {
    var cut := rows[..i] + rows[j..];
    if j == |rows| {
      assert cut == rows[..i];
      PrefixVerifies(rows, i, digest);
    } else {
      EndsDiffer(rows, i, j, digest);
      assert LinkHolds(rows[j], LastHash(rows[..j]), digest);
      assert cut[..i] == rows[..i] && cut[i] == rows[j];
      assert !LinkHolds(cut[i], LastHash(cut[..i]), digest);
    }
  }

  /** Changing the content of a row goes unnoticed only for the last row, with its digest taken anew. */
  lemma EditDetected(rows: seq<Row>, k: nat, content: string, hash: nat, digest: Digest)
    requires Verifies(rows, digest) && !Collides(digest) && k < |rows| && content != rows[k].content
    ensures var edited := rows[k := rows[k].(content := content, hash := hash)];
            Verifies(edited, digest) <==> k == |rows| - 1 && hash == digest(content, rows[k].prev)
  {
    var edited := rows[k := rows[k].(content := content, hash := hash)];
    forall i | 0 <= i <= k ensures edited[..i] == rows[..i] {}
    assert LinkHolds(rows[k], LastHash(rows[..k]), digest);
    if hash != digest(content, rows[k].prev) {
      assert !LinkHolds(edited[k], LastHash(edited[..k]), digest);
    } else if k < |rows| - 1 {
      assert LinkHolds(rows[k + 1], LastHash(rows[..k + 1]), digest);
      assert !LinkHolds(edited[k + 1], LastHash(edited[..k + 1]), digest);
    } else {
      forall i | 0 <= i < |edited| ensures LinkHolds(edited[i], LastHash(edited[..i]), digest) {
        assert LinkHolds(rows[i], LastHash(rows[..i]), digest);
      }
    }
  }
}
