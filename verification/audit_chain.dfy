/** The hash-chained audit table of remote actions. */
module AuditChain {
  import opened Wrappers

  datatype Verdict = Accepted | Rejected | Failed

  /** What is hashed for a row; the hash before it is part of it. */
  datatype Unsigned = Unsigned(
    id: string, accountId: string, localDeviceId: string, remoteDeviceId: string, messageId: string,
    contentType: string, action: string, outcome: Verdict, errorCode: Option<string>, createdAt: nat,
    previousHash: Option<Hash>)

  /** The hash of a row; distinct rows have distinct hashes. */
  datatype Hash = Hash(of: Unsigned)

  /** A stored row; the error code may be absent, and an edited table may even hold an empty one. */
  datatype Row = Row(
    id: string, accountId: string, localDeviceId: string, remoteDeviceId: string, messageId: string,
    contentType: string, action: string, outcome: Verdict, errorCode: Option<string>, createdAt: nat,
    previousHash: Option<Hash>, entryHash: Hash)

  datatype Input = Input(
    accountId: string, localDeviceId: string, remoteDeviceId: string, messageId: string,
    contentType: string, action: string, outcome: Verdict, errorCode: Option<string>, createdAt: nat)

  /** An empty error code counts as none. */
  function Code(errorCode: Option<string>): Option<string> {
    if errorCode == Some("") then None else errorCode
  }

  function UnsignedOf(r: Row, previousHash: Option<Hash>): Unsigned {
    Unsigned(r.id, r.accountId, r.localDeviceId, r.remoteDeviceId, r.messageId, r.contentType, r.action, r.outcome,
             Code(r.errorCode), r.createdAt, previousHash)
  }

  function LastHash(rows: seq<Row>): Option<Hash> {
    if rows == [] then None else Some(rows[|rows| - 1].entryHash)
  }

  /** The row names the hash before it and carries its own. */
  predicate Chained(r: Row, previousHash: Option<Hash>) {
    r.previousHash == previousHash && r.entryHash == Hash(UnsignedOf(r, previousHash))
  }

  predicate ChainedAt(rows: seq<Row>, i: nat) {
    i < |rows| && Chained(rows[i], LastHash(rows[..i]))
  }

  ghost predicate Verifies(rows: seq<Row>) {
    forall i: nat {:trigger ChainedAt(rows, i)} :: i < |rows| ==> ChainedAt(rows, i)
  }

  predicate SameKey(r: Row, accountId: string, localDeviceId: string, messageId: string) {
    r.accountId == accountId && r.localDeviceId == localDeviceId && r.messageId == messageId
  }

  ghost predicate KeysDistinct(rows: seq<Row>) {
    forall i, j :: 0 <= i < j < |rows| ==> !SameKey(rows[i], rows[j].accountId, rows[j].localDeviceId, rows[j].messageId)
  }

  /** No stored code is empty; it is so in every table that was only appended to. */
  ghost predicate CodesNotEmpty(rows: seq<Row>) {
    forall r :: r in rows ==> r.errorCode != Some("")
  }

  predicate SameAction(r: Row, input: Input) {
    && r.remoteDeviceId == input.remoteDeviceId && r.contentType == input.contentType && r.action == input.action
    && r.outcome == input.outcome && Code(r.errorCode) == Code(input.errorCode)
  }

  /** The row of a key. */
  function Find(rows: seq<Row>, input: Input): (r: Option<Row>)
    ensures r.Some? ==> r.value in rows && SameKey(r.value, input.accountId, input.localDeviceId, input.messageId)
    ensures r.None? ==> forall x :: x in rows ==> !SameKey(x, input.accountId, input.localDeviceId, input.messageId)
  {
    if rows == [] then None
    else if SameKey(rows[0], input.accountId, input.localDeviceId, input.messageId) then Some(rows[0])
    else Find(rows[1..], input)
  }

  function NewRow(input: Input, id: string, previousHash: Option<Hash>): Row {
    var u := Unsigned(id, input.accountId, input.localDeviceId, input.remoteDeviceId, input.messageId,
                      input.contentType, input.action, input.outcome, Code(input.errorCode), input.createdAt, previousHash);
    Row(u.id, u.accountId, u.localDeviceId, u.remoteDeviceId, u.messageId, u.contentType, u.action, u.outcome,
        u.errorCode, u.createdAt, u.previousHash, Hash(u))
  }

  class AuditTable {
    var rows: seq<Row>

    constructor ()
      ensures rows == [] && Valid()
    {
      rows := [];
    }

    ghost predicate Valid()
      reads this
    {
      Verifies(rows) && KeysDistinct(rows) && CodesNotEmpty(rows)
    }

    /**
     Appends one row per key. A known key returns its row when it reports the same action again,
     and is refused otherwise; `None` is that refusal.
     */
    method AppendRemoteAction(input: Input, id: string) returns (r: Option<Row>)
      requires Valid()
      modifies this
      ensures Valid()
      ensures r.Some? ==> r.value in rows && SameKey(r.value, input.accountId, input.localDeviceId, input.messageId) && SameAction(r.value, input)
      ensures Find(old(rows), input).Some? ==> rows == old(rows) && (r.None? <==> !SameAction(Find(rows, input).value, input))
      ensures Find(old(rows), input).None? ==> r == Some(NewRow(input, id, LastHash(old(rows)))) && rows == old(rows) + [r.value]
    {
      var existing := Find(rows, input);
      if existing.Some? {
        var record := existing.value;
        if record.remoteDeviceId != input.remoteDeviceId || record.contentType != input.contentType || record.action != input.action
           || record.outcome != input.outcome || Code(record.errorCode) != Code(input.errorCode) {
          return None;
        }
        return existing;
      }
      var record := NewRow(input, id, LastHash(rows));
      AppendVerifies(rows, record);
      rows := rows + [record];
      return Some(record);
    }

    /** The loop over all rows that recomputes every hash. */
    method VerifyAuditChain() returns (ok: bool)
      ensures ok <==> Verifies(rows)
    {
      var previousHash: Option<Hash> := None;
      for i := 0 to |rows|
        invariant previousHash == LastHash(rows[..i])
        invariant Verifies(rows[..i])
      {
        var row := rows[i];
        assert ChainedAt(rows, i) <==> Chained(row, previousHash);
        if row.previousHash != previousHash || row.entryHash != Hash(UnsignedOf(row, previousHash)) {
          return false;
        }
        AppendVerifies(rows[..i], row);
        assert rows[..i + 1] == rows[..i] + [row];
        previousHash := Some(row.entryHash);
      }
      assert rows[..|rows|] == rows;
      return true;
    }
  }

  lemma AppendVerifies(rows: seq<Row>, r: Row)
    requires Verifies(rows) && Chained(r, LastHash(rows))
    ensures Verifies(rows + [r])
  {
    var all := rows + [r];
    assert all[..|rows|] == rows;
    forall i: nat | i < |all| ensures ChainedAt(all, i) {
      assert i < |rows| ==> ChainedAt(rows, i) && all[..i] == rows[..i];
    }
  }

  /** Every prefix of a verifying table verifies: the chain by itself does not show a cut-off end. */
  lemma PrefixVerifies(rows: seq<Row>, n: nat)
    requires Verifies(rows) && n <= |rows|
    ensures Verifies(rows[..n])
  {
    forall i: nat | i < n ensures ChainedAt(rows[..n], i) {
      assert ChainedAt(rows, i) && rows[..n][..i] == rows[..i];
    }
  }

  // ------------------------------------------------------------ what the last hash determines

  /** A row up to the difference between an absent and an empty error code. */
  function Normal(r: Row): Row {
    r.(errorCode := Code(r.errorCode))
  }

  ghost predicate SameUpToCodes(a: seq<Row>, b: seq<Row>) {
    |a| == |b| && forall i :: 0 <= i < |a| ==> Normal(a[i]) == Normal(b[i])
  }

  lemma SameHashSameRow(r: Row, s: Row, before: Option<Hash>, before': Option<Hash>)
    requires Chained(r, before) && Chained(s, before') && r.entryHash == s.entryHash
    ensures before == before' && Normal(r) == Normal(s)
  {
  }

  /** Prefixes of verifying tables that end in the same hash agree. */
  lemma {:induction false} PrefixHashFixesRows(a: seq<Row>, b: seq<Row>, m: nat, n: nat)
    requires Verifies(a) && Verifies(b) && m <= |a| && n <= |b|
    requires LastHash(a[..m]) == LastHash(b[..n])
    ensures m == n && forall i :: 0 <= i < m ==> Normal(a[i]) == Normal(b[i])
    decreases m
  {
    if m > 0 && n > 0 {
      assert ChainedAt(a, m - 1) && ChainedAt(b, n - 1);
      SameHashSameRow(a[m - 1], b[n - 1], LastHash(a[..m - 1]), LastHash(b[..n - 1]));
      PrefixHashFixesRows(a, b, m - 1, n - 1);
    }
  }

  /** Two verifying tables end in the same hash exactly when they agree row by row. */
  lemma LastHashDetermines(a: seq<Row>, b: seq<Row>)
    requires Verifies(a) && Verifies(b)
    ensures LastHash(a) == LastHash(b) <==> SameUpToCodes(a, b)
  {
    if SameUpToCodes(a, b) && a != [] {
      assert Normal(a[|a| - 1]) == Normal(b[|b| - 1]);
    }
    if LastHash(a) == LastHash(b) {
      assert a[..|a|] == a && b[..|b|] == b;
      PrefixHashFixesRows(a, b, |a|, |b|);
    }
  }

  /** Tables that were only appended to and end in the same hash are equal, row for row. */
  lemma AppendedTablesAreEqual(a: seq<Row>, b: seq<Row>)
    requires Verifies(a) && Verifies(b) && CodesNotEmpty(a) && CodesNotEmpty(b)
    requires LastHash(a) == LastHash(b)
    ensures a == b
  {
    LastHashDetermines(a, b);
    forall i | 0 <= i < |a| ensures a[i] == b[i] {
      assert a[i] in a && b[i] in b;
      assert Normal(a[i]) == Normal(b[i]);
    }
  }

  /** An absent code may be edited into an empty one without being noticed. */
  lemma EmptyCodeGoesUnnoticed(rows: seq<Row>, i: nat)
    requires Verifies(rows) && i < |rows| && rows[i].errorCode.None?
    ensures var edited := rows[i := rows[i].(errorCode := Some(""))];
      edited != rows && Verifies(edited) && LastHash(edited) == LastHash(rows)
  {
    var edited := rows[i := rows[i].(errorCode := Some(""))];
    assert edited[i] != rows[i];
    forall k | 0 <= k <= |rows| ensures LastHash(edited[..k]) == LastHash(rows[..k]) {
      SameHashBefore(rows, edited, i, k);
    }
    assert edited[..|rows|] == edited && rows[..|rows|] == rows;
    forall k: nat | k < |edited| ensures ChainedAt(edited, k) {
      assert ChainedAt(rows, k) && LastHash(edited[..k]) == LastHash(rows[..k]);
    }
  }

  lemma SameHashBefore(rows: seq<Row>, edited: seq<Row>, i: nat, k: nat)
    requires k <= |rows| && i < |rows| && edited == rows[i := rows[i].(errorCode := Some(""))]
    ensures LastHash(edited[..k]) == LastHash(rows[..k])
  {
    if k > 0 {
      assert edited[k - 1].entryHash == rows[k - 1].entryHash;
    }
  }
}
