/**
 The two rotations of a worker's credentials, bearer token and client certificate, that share
 one row. Each is prepared, seen in use by the worker, and then committed or aborted.
 */
module WorkerRotation {
  import opened Wrappers

  type Hash = nat
  type RotationId = nat

  datatype Kind = Token | Certificate

  datatype Status = Online | Draining | Revoked

  /** The columns of one kind of credential. */
  datatype Credential = Credential(
    current: Option<Hash>, pending: Option<Hash>, rotation: Option<RotationId>, seen: bool, lastCommitted: Option<RotationId>)

  datatype Row = Row(status: Status, token: Credential, certificate: Credential)

  datatype Error = ActiveWork | Conflict | NotEnrolled | NotFound | NotProven | RevokedWorker

  datatype Role = CurrentRole | PendingRole

  function Enrolled(token: Hash, fingerprint: Option<Hash>): Row {
    Row(Online, Credential(Some(token), None, None, false, None), Credential(fingerprint, None, None, false, None))
  }

  function Of(row: Row, kind: Kind): Credential {
    if kind.Token? then row.token else row.certificate
  }

  function With(row: Row, kind: Kind, status: Status, c: Credential): Row {
    if kind.Token? then Row(status, c, row.certificate) else Row(status, row.token, c)
  }

  function Undrained(status: Status): Status {
    if status.Draining? then Online else status
  }

  function RoleOf(row: Row, kind: Kind, hash: Hash): Option<Role> {
    var c := Of(row, kind);
    if row.status.Revoked? then None
    else if c.current == Some(hash) then Some(CurrentRole)
    else if c.pending == Some(hash) && (kind.Token? || c.rotation.Some?) then Some(PendingRole)
    else None
  }

  /** A new pending credential under a fresh rotation id; only one rotation of either kind at a time. */
  function Prepare(row: Row, kind: Kind, candidate: Hash, id: RotationId, activeWork: bool): Result<Row, Error> {
    var c := Of(row, kind);
    if row.status.Revoked? then Err(RevokedWorker)
    else if kind.Certificate? && c.current.None? then Err(NotEnrolled)
    else if kind.Certificate? && c.current == Some(candidate) then Err(Conflict)
    else if c.pending.Some? || row.token.rotation.Some? || row.certificate.rotation.Some? then Err(Conflict)
    else if activeWork then Err(ActiveWork)
    else Ok(With(row, kind, Draining, c.(pending := Some(candidate), rotation := Some(id), seen := false)))
  }

  function MarkPendingSeen(row: Row, kind: Kind, rotation: RotationId): Row {
    var c := Of(row, kind);
    if c.rotation == Some(rotation) && c.pending.Some? then With(row, kind, row.status, c.(seen := true)) else row
  }

  predicate AlreadyCommitted(c: Credential, rotation: RotationId) {
    c.lastCommitted == Some(rotation) && c.rotation.None? && c.pending.None?
  }

  function Commit(row: Row, kind: Kind, rotation: RotationId): Result<Row, Error> {
    var c := Of(row, kind);
    if row.status.Revoked? then Err(RevokedWorker)
    else if AlreadyCommitted(c, rotation) then Ok(row)
    else if c.rotation != Some(rotation) || c.pending.None? then Err(NotFound)
    else if !c.seen then Err(NotProven)
    else Ok(With(row, kind, Undrained(row.status), Credential(c.pending, None, None, false, Some(rotation))))
  }

  function Abort(row: Row, kind: Kind, rotation: RotationId): Result<Row, Error> {
    var c := Of(row, kind);
    if c.rotation.None? && c.pending.None? then Ok(row)
    else if c.rotation != Some(rotation) then Err(NotFound)
    else Ok(With(row, kind, Undrained(row.status), c.(pending := None, rotation := None, seen := false)))
  }

  /** A request of the worker: it needs every credential asked for, and marks the pending ones it used. */
  function Request(row: Row, token: Option<Hash>, peer: Option<Hash>, mutualTls: bool): Row {
    var byToken := if token.Some? then RoleOf(row, Token, token.value) else None;
    var byPeer := if mutualTls && peer.Some? then RoleOf(row, Certificate, peer.value) else None;
    if byToken.None? || (mutualTls && byPeer.None?) then row
    else
      var marked :=
        if byToken == Some(PendingRole) && row.token.rotation.Some? then MarkPendingSeen(row, Token, row.token.rotation.value) else row;
      if byPeer == Some(PendingRole) && row.certificate.rotation.Some?
      then MarkPendingSeen(marked, Certificate, row.certificate.rotation.value) else marked
  }

  // ------------------------------------------------------------ runs

  datatype Step =
    | Preparing(kind: Kind, candidate: Hash, id: RotationId, activeWork: bool)
    | Requesting(token: Option<Hash>, peer: Option<Hash>, mutualTls: bool)
    | Committing(kind: Kind, rotation: RotationId)
    | Aborting(kind: Kind, rotation: RotationId)
    | Revoking

  function Settled(row: Row, r: Result<Row, Error>): Row {
    if r.Ok? then r.value else row
  }

  function Apply(row: Row, s: Step): Row {
    match s
    case Preparing(kind, candidate, id, activeWork) => Settled(row, Prepare(row, kind, candidate, id, activeWork))
    case Requesting(token, peer, mutualTls) => Request(row, token, peer, mutualTls)
    case Committing(kind, rotation) => Settled(row, Commit(row, kind, rotation))
    case Aborting(kind, rotation) => Settled(row, Abort(row, kind, rotation))
    case Revoking => row.(status := Revoked)
  }

  /** Rotation ids are drawn at random, and so never drawn twice. */
  ghost predicate IdsAreFresh(steps: seq<Step>) {
    forall i, j :: 0 <= i < j < |steps| && steps[i].Preparing? && steps[j].Preparing? ==> steps[i].id != steps[j].id
  }

  ghost predicate IsRun(rows: seq<Row>, steps: seq<Step>) {
    && |rows| == |steps| + 1
    && (exists token, fingerprint :: rows[0] == Enrolled(token, fingerprint))
    && (forall i {:trigger steps[i]} :: 0 <= i < |steps| ==> rows[i + 1] == Apply(rows[i], steps[i]))
    && IdsAreFresh(steps)
  }

  predicate Consistent(c: Credential) {
    (c.pending.Some? <==> c.rotation.Some?) && (c.seen ==> c.pending.Some?)
  }

  /** At most one rotation is prepared, and pending material exists exactly while its rotation does. */
  predicate Valid(row: Row) {
    && Consistent(row.token) && Consistent(row.certificate)
    && !(row.token.rotation.Some? && row.certificate.rotation.Some?)
    && (row.status.Draining? <==> !row.status.Revoked? && (row.token.rotation.Some? || row.certificate.rotation.Some?))
  }

  lemma StepKeepsValid(row: Row, s: Step)
    requires Valid(row)
    ensures Valid(Apply(row, s))
    ensures row.status.Revoked? ==> Apply(row, s).status.Revoked?
  {
  }

  lemma {:induction false} AlwaysValid(rows: seq<Row>, steps: seq<Step>, n: nat)
    requires IsRun(rows, steps) && n < |rows|
    ensures Valid(rows[n])
  {
    if n > 0 {
      AlwaysValid(rows, steps, n - 1);
      assert rows[n] == Apply(rows[n - 1], steps[n - 1]);
      StepKeepsValid(rows[n - 1], steps[n - 1]);
    }
  }

  /** A revoked worker stays revoked, and none of its credentials authenticates again or becomes current. */
  lemma {:induction false} RevokedForever(rows: seq<Row>, steps: seq<Step>, m: nat, n: nat, kind: Kind, hash: Hash)
    requires IsRun(rows, steps) && m <= n < |rows| && rows[m].status.Revoked?
    ensures rows[n].status.Revoked? && RoleOf(rows[n], kind, hash).None?
    ensures Of(rows[n], kind).current == Of(rows[m], kind).current
    decreases n - m
  {
    if m < n {
      RevokedForever(rows, steps, m, n - 1, kind, hash);
      assert rows[n] == Apply(rows[n - 1], steps[n - 1]);
    }
  }

  // ------------------------------------------------------------ how a credential becomes current

  /** The step replaces the current credential by the pending one. */
  predicate Promotes(row: Row, s: Step, kind: Kind) {
    && s.Committing? && s.kind == kind && !row.status.Revoked?
    && Of(row, kind).rotation == Some(s.rotation) && Of(row, kind).pending.Some? && Of(row, kind).seen
  }

  /** The worker shows the pending credential in a request that is accepted. */
  predicate Shows(row: Row, s: Step, kind: Kind) {
    && s.Requesting? && s.token.Some? && RoleOf(row, Token, s.token.value).Some?
    && (s.mutualTls ==> s.peer.Some? && RoleOf(row, Certificate, s.peer.value).Some?)
    && match kind
       case Token => RoleOf(row, Token, s.token.value) == Some(PendingRole)
       case Certificate => s.mutualTls && RoleOf(row, Certificate, s.peer.value) == Some(PendingRole)
  }

  lemma CurrentChangesByPromotion(row: Row, s: Step, kind: Kind)
    requires Valid(row)
    ensures !Promotes(row, s, kind) ==> Of(Apply(row, s), kind).current == Of(row, kind).current
    ensures Promotes(row, s, kind) ==> Of(Apply(row, s), kind).current == Of(row, kind).pending
  {
  }

  /** A credential seen as pending was shown by the worker under the same rotation. */
  lemma {:induction false} SeenWasShown(rows: seq<Row>, steps: seq<Step>, n: nat, kind: Kind) returns (k: nat)
    requires IsRun(rows, steps) && n < |rows| && Of(rows[n], kind).seen
    ensures k < n && Shows(rows[k], steps[k], kind)
    ensures Of(rows[k], kind).rotation == Of(rows[n], kind).rotation
    ensures Of(rows[k], kind).pending == Of(rows[n], kind).pending
  {
    assert n > 0;
    AlwaysValid(rows, steps, n - 1);
    assert rows[n] == Apply(rows[n - 1], steps[n - 1]);
    if Of(rows[n - 1], kind).seen {
      k := SeenWasShown(rows, steps, n - 1, kind);
    } else {
      k := n - 1;
    }
  }

  lemma {:induction false} PendingWasPrepared(rows: seq<Row>, steps: seq<Step>, n: nat, kind: Kind) returns (p: nat)
    requires IsRun(rows, steps) && n < |rows| && Of(rows[n], kind).rotation.Some?
    ensures p < n && steps[p].Preparing? && steps[p].kind == kind
    ensures Of(rows[n], kind).rotation == Some(steps[p].id) && Of(rows[n], kind).pending == Some(steps[p].candidate)
  {
    assert n > 0;
    AlwaysValid(rows, steps, n - 1);
    assert rows[n] == Apply(rows[n - 1], steps[n - 1]);
    if Of(rows[n - 1], kind).rotation == Of(rows[n], kind).rotation {
      p := PendingWasPrepared(rows, steps, n - 1, kind);
    } else {
      p := n - 1;
    }
  }

  /**
   A credential becomes current only by a commit of the rotation that prepared it, after the
   worker has shown it as pending under that same rotation.
   */
  lemma CurrentWasProven(rows: seq<Row>, steps: seq<Step>, n: nat, kind: Kind) returns (prepared: nat, shown: nat)
    requires IsRun(rows, steps) && n < |steps| && Of(rows[n + 1], kind).current != Of(rows[n], kind).current
    ensures prepared < shown < n && steps[prepared].Preparing? && steps[prepared].kind == kind
    ensures Of(rows[n + 1], kind).current == Some(steps[prepared].candidate)
    ensures steps[n] == Committing(kind, steps[prepared].id)
    ensures Shows(rows[shown], steps[shown], kind) && Of(rows[shown], kind).rotation == Some(steps[prepared].id)
  {
    AlwaysValid(rows, steps, n);
    CurrentChangesByPromotion(rows[n], steps[n], kind);
    shown := SeenWasShown(rows, steps, n, kind);
    AlwaysValid(rows, steps, shown);
    prepared := PendingWasPrepared(rows, steps, shown, kind);
  }

  // ------------------------------------------------------------ each rotation promotes at most once

  /** A rotation that has ended is never prepared again. */
  lemma {:induction false} EndedForever(rows: seq<Row>, steps: seq<Step>, p: nat, m: nat, n: nat, kind: Kind)
    requires IsRun(rows, steps) && p < m <= n < |rows|
    requires steps[p].Preparing? && Of(rows[m], kind).rotation != Some(steps[p].id)
    ensures Of(rows[n], kind).rotation != Some(steps[p].id)
    decreases n - m
  {
    if m < n {
      EndedForever(rows, steps, p, m, n - 1, kind);
      assert rows[n] == Apply(rows[n - 1], steps[n - 1]);
      assert steps[n - 1].Preparing? ==> steps[n - 1].id != steps[p].id;
    }
  }

  lemma PromotedOnce(rows: seq<Row>, steps: seq<Step>, m: nat, n: nat, kind: Kind)
    requires IsRun(rows, steps) && m < n < |steps|
    requires Promotes(rows[m], steps[m], kind) && Promotes(rows[n], steps[n], kind)
    ensures steps[m].rotation != steps[n].rotation
  {
    var p := PendingWasPrepared(rows, steps, m, kind);
    assert rows[m + 1] == Apply(rows[m], steps[m]);
    EndedForever(rows, steps, p, m + 1, n, kind);
  }

  /** A commit that succeeded may be repeated: it succeeds again and changes nothing. */
  lemma CommitIsIdempotent(row: Row, kind: Kind, rotation: RotationId)
    requires Valid(row) && Commit(row, kind, rotation).Ok?
    ensures var once := Commit(row, kind, rotation).value; Commit(once, kind, rotation) == Ok(once)
  {
  }

  /** Preparing and aborting leaves the credentials as they were, and so does repeating the abort. */
  lemma AbortUndoesPrepare(row: Row, kind: Kind, candidate: Hash, id: RotationId)
    requires Valid(row) && Prepare(row, kind, candidate, id, false).Ok?
    ensures var prepared := Prepare(row, kind, candidate, id, false).value;
      Abort(prepared, kind, id) == Ok(row) && Abort(row, kind, id) == Ok(row)
  {
  }
}
