/** The two authorities over one worker's row; each method is proved against `WorkerRotation`. */
module WorkerAuthorities {
  import opened Wrappers
  import opened WorkerRotation

  /** A worker's row in the store. */
  class WorkerRow {
    var status: Status
    var tokenHash: Hash
    var pendingTokenHash: Option<Hash>
    var tokenRotationId: Option<RotationId>
    var pendingTokenSeen: bool
    var lastCommittedTokenRotationId: Option<RotationId>
    var fingerprint: Option<Hash>
    var pendingFingerprint: Option<Hash>
    var certificateRotationId: Option<RotationId>
    var pendingCertificateSeen: bool
    var lastCommittedCertificateRotationId: Option<RotationId>

    constructor (tokenHash: Hash, fingerprint: Option<Hash>)
      ensures Value() == Enrolled(tokenHash, fingerprint)
    {
      status := Online;
      this.tokenHash, this.fingerprint := tokenHash, fingerprint;
      pendingTokenHash, tokenRotationId, pendingTokenSeen, lastCommittedTokenRotationId := None, None, false, None;
      pendingFingerprint, certificateRotationId, pendingCertificateSeen, lastCommittedCertificateRotationId := None, None, false, None;
    }

    ghost function Value(): Row
      reads this
    {
      Row(status,
          Credential(Some(tokenHash), pendingTokenHash, tokenRotationId, pendingTokenSeen, lastCommittedTokenRotationId),
          Credential(fingerprint, pendingFingerprint, certificateRotationId, pendingCertificateSeen, lastCommittedCertificateRotationId))
    }

    method Revoke()
      modifies this
      ensures Value() == old(Value()).(status := Revoked)
    {
      status := Revoked;
    }
  }

  class WorkerTokenAuthority {
    const row: WorkerRow

    constructor (row: WorkerRow)
      ensures this.row == row
    {
      this.row := row;
    }

    method Authenticate(hash: Hash) returns (role: Option<Role>, rotationId: Option<RotationId>)
      ensures role == RoleOf(row.Value(), Token, hash)
      ensures rotationId == if role.Some? then row.tokenRotationId else None
    {
      if row.status.Revoked? {
        return None, None;
      }
      if row.tokenHash == hash {
        return Some(CurrentRole), row.tokenRotationId;
      }
      if row.pendingTokenHash == Some(hash) {
        return Some(PendingRole), row.tokenRotationId;
      }
      return None, None;
    }

    /** `id` is the new random rotation id, `activeTerminals` the count of terminals at work. */
    method Prepare(pendingHash: Hash, id: RotationId, activeTerminals: nat) returns (r: Result<RotationId, Error>)
      modifies row
      ensures var p := WorkerRotation.Prepare(old(row.Value()), Token, pendingHash, id, activeTerminals > 0);
        row.Value() == Settled(old(row.Value()), p) && r == if p.Ok? then Ok(id) else Err(p.error)
    {
      if row.status.Revoked? {
        return Err(RevokedWorker);
      }
      if row.pendingTokenHash.Some? || row.tokenRotationId.Some? || row.certificateRotationId.Some? {
        return Err(Conflict);
      }
      if activeTerminals > 0 {
        return Err(ActiveWork);
      }
      row.status := Draining;
      row.pendingTokenHash := Some(pendingHash);
      row.tokenRotationId := Some(id);
      row.pendingTokenSeen := false;
      return Ok(id);
    }

    method MarkPendingSeen(rotationId: RotationId)
      modifies row
      ensures row.Value() == WorkerRotation.MarkPendingSeen(old(row.Value()), Token, rotationId)
    {
      if row.tokenRotationId == Some(rotationId) && row.pendingTokenHash.Some? {
        row.pendingTokenSeen := true;
      }
    }

    method Commit(rotationId: RotationId) returns (r: Result<bool, Error>)
      modifies row
      ensures var c := WorkerRotation.Commit(old(row.Value()), Token, rotationId);
        && row.Value() == Settled(old(row.Value()), c)
        && (r.Ok? <==> c.Ok?) && (r.Err? ==> r.error == c.error)
        && (r.Ok? ==> r.value == AlreadyCommitted(old(row.Value()).token, rotationId))
    {
      if row.status.Revoked? {
        return Err(RevokedWorker);
      }
      if row.lastCommittedTokenRotationId == Some(rotationId) && row.tokenRotationId.None? && row.pendingTokenHash.None? {
        return Ok(true);
      }
      if row.tokenRotationId != Some(rotationId) || row.pendingTokenHash.None? {
        return Err(NotFound);
      }
      if !row.pendingTokenSeen {
        return Err(NotProven);
      }
      row.status := if row.status.Draining? then Online else row.status;
      row.tokenHash := row.pendingTokenHash.value;
      row.pendingTokenHash, row.tokenRotationId, row.pendingTokenSeen := None, None, false;
      row.lastCommittedTokenRotationId := Some(rotationId);
      return Ok(false);
    }

    method Abort(rotationId: RotationId) returns (r: Result<bool, Error>)
      modifies row
      ensures var a := WorkerRotation.Abort(old(row.Value()), Token, rotationId);
        && row.Value() == Settled(old(row.Value()), a)
        && (r.Ok? <==> a.Ok?) && (r.Err? ==> r.error == a.error)
        && (r.Ok? ==> r.value == (old(row.tokenRotationId).None? && old(row.pendingTokenHash).None?))
    {
      if row.tokenRotationId.None? && row.pendingTokenHash.None? {
        return Ok(true);
      }
      if row.tokenRotationId != Some(rotationId) {
        return Err(NotFound);
      }
      row.status := if row.status.Draining? then Online else row.status;
      row.pendingTokenHash, row.tokenRotationId, row.pendingTokenSeen := None, None, false;
      return Ok(false);
    }
  }

  class WorkerCertificateAuthority {
    const row: WorkerRow

    constructor (row: WorkerRow)
      ensures this.row == row
    {
      this.row := row;
    }

    method Authenticate(peer: Hash) returns (role: Option<Role>, rotationId: Option<RotationId>)
      ensures role == RoleOf(row.Value(), Certificate, peer)
      ensures rotationId == if role.Some? then row.certificateRotationId else None
    {
      if row.status.Revoked? {
        return None, None;
      }
      if row.fingerprint == Some(peer) {
        return Some(CurrentRole), row.certificateRotationId;
      }
      if row.pendingFingerprint == Some(peer) && row.certificateRotationId.Some? {
        return Some(PendingRole), row.certificateRotationId;
      }
      return None, None;
    }

    method Prepare(pending: Hash, id: RotationId, activeTerminals: nat) returns (r: Result<RotationId, Error>)
      modifies row
      ensures var p := WorkerRotation.Prepare(old(row.Value()), Certificate, pending, id, activeTerminals > 0);
        row.Value() == Settled(old(row.Value()), p) && r == if p.Ok? then Ok(id) else Err(p.error)
    {
      if row.status.Revoked? {
        return Err(RevokedWorker);
      }
      if row.fingerprint.None? {
        return Err(NotEnrolled);
      }
      if row.fingerprint == Some(pending) {
        return Err(Conflict);
      }
      if row.pendingFingerprint.Some? || row.certificateRotationId.Some? || row.tokenRotationId.Some? {
        return Err(Conflict);
      }
      if activeTerminals > 0 {
        return Err(ActiveWork);
      }
      row.status := Draining;
      row.pendingFingerprint := Some(pending);
      row.certificateRotationId := Some(id);
      row.pendingCertificateSeen := false;
      return Ok(id);
    }

    method MarkPendingSeen(rotationId: RotationId)
      modifies row
      ensures row.Value() == WorkerRotation.MarkPendingSeen(old(row.Value()), Certificate, rotationId)
    {
      if row.certificateRotationId == Some(rotationId) && row.pendingFingerprint.Some? {
        row.pendingCertificateSeen := true;
      }
    }

    method Commit(rotationId: RotationId) returns (r: Result<bool, Error>)
      modifies row
      ensures var c := WorkerRotation.Commit(old(row.Value()), Certificate, rotationId);
        && row.Value() == Settled(old(row.Value()), c)
        && (r.Ok? <==> c.Ok?) && (r.Err? ==> r.error == c.error)
        && (r.Ok? ==> r.value == AlreadyCommitted(old(row.Value()).certificate, rotationId))
    {
      if row.status.Revoked? {
        return Err(RevokedWorker);
      }
      if row.lastCommittedCertificateRotationId == Some(rotationId) && row.certificateRotationId.None? && row.pendingFingerprint.None? {
        return Ok(true);
      }
      if row.certificateRotationId != Some(rotationId) || row.pendingFingerprint.None? {
        return Err(NotFound);
      }
      if !row.pendingCertificateSeen {
        return Err(NotProven);
      }
      row.status := if row.status.Draining? then Online else row.status;
      row.fingerprint := row.pendingFingerprint;
      row.pendingFingerprint, row.certificateRotationId, row.pendingCertificateSeen := None, None, false;
      row.lastCommittedCertificateRotationId := Some(rotationId);
      return Ok(false);
    }

    method Abort(rotationId: RotationId) returns (r: Result<bool, Error>)
      modifies row
      ensures var a := WorkerRotation.Abort(old(row.Value()), Certificate, rotationId);
        && row.Value() == Settled(old(row.Value()), a)
        && (r.Ok? <==> a.Ok?) && (r.Err? ==> r.error == a.error)
        && (r.Ok? ==> r.value == (old(row.certificateRotationId).None? && old(row.pendingFingerprint).None?))
    {
      if row.certificateRotationId.None? && row.pendingFingerprint.None? {
        return Ok(true);
      }
      if row.certificateRotationId != Some(rotationId) {
        return Err(NotFound);
      }
      row.status := if row.status.Draining? then Online else row.status;
      row.pendingFingerprint, row.certificateRotationId, row.pendingCertificateSeen := None, None, false;
      return Ok(false);
    }
  }

  /** A worker's request: both credentials authenticate, and pending ones are marked as seen. */
  method RequireWorker(
      tokens: WorkerTokenAuthority, certificates: WorkerCertificateAuthority, token: Option<Hash>, peer: Option<Hash>, mutualTls: bool)
    returns (admitted: bool)
    requires tokens.row == certificates.row
    modifies tokens.row
    ensures tokens.row.Value() == Request(old(tokens.row.Value()), token, peer, mutualTls)
    ensures admitted <==>
      (token.Some? && RoleOf(old(tokens.row.Value()), Token, token.value).Some?
       && (mutualTls ==> peer.Some? && RoleOf(old(tokens.row.Value()), Certificate, peer.value).Some?))
  {
    var role: Option<Role>, rotationId: Option<RotationId> := None, None;
    if token.Some? {
      role, rotationId := tokens.Authenticate(token.value);
    }
    var peerRole: Option<Role>, peerRotationId: Option<RotationId> := None, None;
    if mutualTls && peer.Some? {
      peerRole, peerRotationId := certificates.Authenticate(peer.value);
    }
    if role.None? || (mutualTls && peerRole.None?) {
      return false;
    }
    if role == Some(PendingRole) && rotationId.Some? {
      tokens.MarkPendingSeen(rotationId.value);
    }
    if peerRole == Some(PendingRole) && peerRotationId.Some? {
      certificates.MarkPendingSeen(peerRotationId.value);
    }
    return true;
  }
}
