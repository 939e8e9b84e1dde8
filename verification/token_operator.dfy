/**
 One operator's rotation of the administrator's token, over the vault and the authority
 themselves. Every call may fail, lose its answer, or be the last one before the process dies,
 and others may write to the vault while the new token is being proved.
 */
module TokenOperator {
  import opened Wrappers
  import CredentialVault
  import ApiToken

  const API_TOKEN := "AVITY_API_TOKEN"

  /** A rotation tells the vault's generation after its own write. */
  datatype Outcome = Rotated(generation: nat) | AlreadyRotated | Restored | Overwritten | Failed | Died

  function VaultToken(content: CredentialVault.Plaintext): Option<string> {
    var e := CredentialVault.Find(content.entries, API_TOKEN);
    if e.Some? then Some(e.value.value) else None
  }

  /** The vault's token is accepted, so the control plane can be started with it. */
  ghost predicate Startable(content: CredentialVault.Plaintext, row: ApiToken.Row) {
    && ApiToken.Valid(row)
    && VaultToken(content).Some? && ApiToken.RoleOf(row, VaultToken(content).value).Some?
  }

  class Rotation {
    const vault: CredentialVault.EncryptedCredentialVault
    const server: ApiToken.ApiTokenAuthority
    const previous: string
    const next: string

    constructor (vault: CredentialVault.EncryptedCredentialVault, server: ApiToken.ApiTokenAuthority, previous: string, next: string)
      ensures this.vault == vault && this.server == server && this.previous == previous && this.next == next
    {
      this.vault, this.server, this.previous, this.next := vault, server, previous, next;
    }

    function Content(): CredentialVault.Plaintext
      requires vault.file.content.Some?
      reads vault.file
    {
      vault.file.content.value.content
    }

    /** What the vault holds is accepted by the server. */
    ghost predicate Consistent()
      reads vault, vault.file, server.db
    {
      vault.Valid() && server.db.row.Some? && Startable(Content(), server.db.row.value)
    }

    /** The rotation is prepared under `id`. */
    ghost predicate Pending(id: ApiToken.RotationId)
      reads vault, vault.file, server.db
    {
      && vault.Valid() && server.db.row.Some? && ApiToken.Valid(server.db.row.value) && previous != next && previous != ""
      && server.db.row.value.current == ApiToken.Hash(previous)
      && server.db.row.value.pending == Some(ApiToken.Hash(next)) && server.db.row.value.rotation == Some(id)
    }

    /** Swaps the token in the vault, if it is still the one before. */
    method Swap(id: ApiToken.RotationId, before: string, after: string, now: nat) returns (ok: bool)
      requires Pending(id) && before != after
      modifies vault.file
      ensures Pending(id)
      ensures ok ==>
        && old(VaultToken(Content())) == Some(before) && VaultToken(Content()) == Some(after)
        && Content().generation == old(Content().generation) + 1
      ensures !ok ==> vault.file.content == old(vault.file.content)
    {
      var r := vault.CompareAndSwap(API_TOKEN, before, after, now);
      ok := r.Ok?;
    }

    method Abort(id: ApiToken.RotationId) returns (answered: bool)
      requires Pending(id)
      modifies server.db
      ensures vault.Valid() && server.db.row.Some? && ApiToken.Valid(server.db.row.value)
      ensures server.db.row.value.current == ApiToken.Hash(previous)
      ensures answered ==> server.db.row.value.pending.None?
    {
      var reached: bool, received: bool := *, *;
      if reached {
        var r := server.AbortRotation(id, previous);
      }
      answered := reached && received;
    }

    method Commit(id: ApiToken.RotationId) returns (answered: bool)
      requires Pending(id) && VaultToken(Content()) == Some(next)
      modifies server.db
      ensures Consistent() && VaultToken(Content()) == Some(next)
      ensures answered ==> server.db.row == Some(ApiToken.Row(ApiToken.Hash(next), None, None, Some(id)))
    {
      var reached: bool, received: bool := *, *;
      if reached {
        var r := server.CommitRotation(id, next);
      }
      answered := reached && received;
    }

    /** The new token is shown to the server; meanwhile others may write any values to the vault. */
    method Prove(id: ApiToken.RotationId, now: nat) returns (verified: bool)
      requires Pending(id)
      modifies vault.file
      ensures Pending(id)
    {
      var values: seq<(string, string)> := *;
      var r := vault.SetMany(values, now);
      verified := *;
    }

    /** Swaps back and aborts after the proof has failed, unless the vault holds a newer value. */
    method RollBack(id: ApiToken.RotationId, now: nat) returns (outcome: Outcome)
      requires Pending(id)
      modifies vault.file, server.db
      ensures vault.Valid() && server.db.row.Some? && ApiToken.Valid(server.db.row.value)
      ensures outcome in {Restored, Failed}
      ensures old(VaultToken(Content())) == Some(next) ==> Consistent()
      ensures old(VaultToken(Content())) != Some(next) ==> outcome.Failed? && vault.file.content == old(vault.file.content)
      ensures server.db.row.value.current == ApiToken.Hash(previous)
      ensures outcome.Restored? ==> VaultToken(Content()) == Some(previous) && server.db.row.value.pending.None?
    {
      var back := Swap(id, next, previous, now);
      if !back {
        return Failed;
      }
      var aborted := Abort(id);
      return if aborted then Restored else Failed;
    }

    /** `newer` is what others have put in place of the new token, if they have. */
    method StageProveCommit(id: ApiToken.RotationId, now: nat) returns (outcome: Outcome, ghost newer: Option<CredentialVault.Plaintext>)
      requires Pending(id) && VaultToken(Content()) == Some(previous)
      modifies vault.file, server.db
      ensures vault.Valid() && server.db.row.Some? && ApiToken.Valid(server.db.row.value)
      ensures newer.None? ==> Consistent() && !outcome.Overwritten?
      ensures newer.Some? ==>
        && VaultToken(newer.value) != Some(next) && Content() == newer.value
        && outcome in {Overwritten, Failed, Died} && server.db.row.value.current == ApiToken.Hash(previous)
      ensures outcome.Rotated? ==>
        && VaultToken(Content()) == Some(next) && outcome.generation == old(Content().generation) + 1
        && server.db.row == Some(ApiToken.Row(ApiToken.Hash(next), None, None, Some(id)))
      ensures outcome.Restored? ==> VaultToken(Content()) == Some(previous)
      ensures outcome.Restored? || outcome.Overwritten? ==>
        server.db.row.value.current == ApiToken.Hash(previous) && server.db.row.value.pending.None?
      ensures !outcome.AlreadyRotated?
    {
      newer := None;
      var staged := Swap(id, previous, next, now);
      var aborted;
      if !staged {
        aborted := Abort(id);
        outcome := if aborted then Restored else Failed;
        return;
      }
      var generation := Content().generation;
      var verified := Prove(id, now);
      newer := if VaultToken(Content()) == Some(next) then None else Some(Content());
      var died: bool := *;
      if died {
        outcome := Died;
        return;
      }
      if !verified {
        outcome := RollBack(id, now);
        return;
      }
      var stored := vault.Read();
      if stored.Err? || VaultToken(stored.value) != Some(next) {
        aborted := Abort(id);
        outcome := if aborted then Overwritten else Failed;
        return;
      }
      var answered := Commit(id);
      outcome := if answered then Rotated(generation) else Failed;
    }

    /** A rerun after a death or a lost answer finds its token in the vault already. */
    method Resume(rotation: Option<ApiToken.RotationId>, role: ApiToken.Role) returns (outcome: Outcome)
      requires Consistent() && previous == next && VaultToken(Content()) == Some(next)
      requires rotation == server.db.row.value.rotation && Some(role) == ApiToken.RoleOf(server.db.row.value, next)
      modifies server.db
      ensures Consistent() && VaultToken(Content()) == Some(next)
      ensures outcome.Rotated? ==> server.db.row.value.current == ApiToken.Hash(next) && server.db.row.value.pending.None?
      ensures outcome.AlreadyRotated? ==> server.db.row == old(server.db.row) && server.db.row.value.current == ApiToken.Hash(next)
      ensures !outcome.Restored?
    {
      var verified: bool, received: bool := *, *;
      if !verified {
        return Failed;
      }
      if rotation.None? {
        return AlreadyRotated;
      }
      if role.CurrentRole? {
        return Failed;
      }
      var r := server.CommitRotation(rotation.value, next);
      return if received then Rotated(Content().generation) else Failed;
    }
  }

  /**
   However it ends, the vault holds a token with a role if it did before, unless others have put
   another value in place of the new one (`newer`); then that value stays, and the old token is current.
   */
  method RotateOperatorApiToken(
      vault: CredentialVault.EncryptedCredentialVault, server: ApiToken.ApiTokenAuthority, next: string,
      newId: ApiToken.RotationId, now: nat)
    returns (outcome: Outcome, ghost newer: Option<CredentialVault.Plaintext>)
    requires vault.Valid() && server.db.row.Some? && ApiToken.Valid(server.db.row.value)
    requires server.db.row.value.lastCommitted != Some(newId)
    modifies vault.file, server.db
    ensures vault.Valid() && server.db.row.Some? && ApiToken.Valid(server.db.row.value)
    ensures old(Startable(vault.file.content.value.content, server.db.row.value)) && newer.None? ==>
      Startable(vault.file.content.value.content, server.db.row.value)
    ensures newer.Some? ==>
      && VaultToken(newer.value) != Some(next) && vault.file.content.value.content == newer.value
      && outcome in {Overwritten, Failed, Died} && server.db.row.value.current == old(server.db.row).value.current
    ensures !old(Startable(vault.file.content.value.content, server.db.row.value)) ==>
      outcome.Failed? && vault.file.content == old(vault.file.content) && server.db.row == old(server.db.row)
    ensures outcome.Rotated? || outcome.AlreadyRotated? ==>
      VaultToken(vault.file.content.value.content) == Some(next) && server.db.row.value.current == ApiToken.Hash(next)
    ensures outcome.Restored? ==>
      && VaultToken(vault.file.content.value.content) == VaultToken(old(vault.file.content).value.content)
      && server.db.row.value.current == old(server.db.row).value.current && server.db.row.value.pending.None?
  {
    newer := None;
    var token := VaultToken(vault.file.content.value.content);
    if token.None? {
      outcome := Failed;
      return;
    }
    var rotation := new Rotation(vault, server, token.value, next);
    if token.value == next {
      var status := server.Status(next);
      if status.Err? {
        outcome := Failed;
        return;
      }
      outcome := rotation.Resume(status.value.0, status.value.1);
      return;
    }
    var r := server.PrepareRotation(token.value, next, newId);
    var answered: bool := *;
    if r.Err? || !answered {
      outcome := Failed;
      return;
    }
    outcome, newer := rotation.StageProveCommit(r.value, now);
  }
}
