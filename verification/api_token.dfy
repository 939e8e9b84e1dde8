/** The durable two-phase authority for the administrator's bearer token. Only hashes are stored. */
module ApiToken {
  import opened Wrappers

  type Token = string
  type RotationId = nat

  /** The hash of a token; distinct tokens have distinct hashes. */
  datatype Hash = Hash(of: Token)

  datatype Row = Row(current: Hash, pending: Option<Hash>, rotation: Option<RotationId>, lastCommitted: Option<RotationId>)

  datatype Role = CurrentRole | PendingRole

  datatype Error = Conflict | InvalidBootstrap | NotFound | Unauthorized | Unchanged

  function RoleOf(row: Row, token: Token): Option<Role> {
    if row.current == Hash(token) then Some(CurrentRole)
    else if row.pending == Some(Hash(token)) then Some(PendingRole)
    else None
  }

  /** An empty token is never accepted. */
  predicate IsCurrent(row: Row, token: Token) {
    token != "" && row.current == Hash(token)
  }

  predicate Valid(row: Row) {
    && (row.pending.Some? <==> row.rotation.Some?)
    && row.pending != Some(row.current)
    && (row.rotation.Some? ==> row.rotation != row.lastCommitted)
  }

  /** Repeating a preparation with the same next token finds the rotation that is already there. */
  function Prepare(row: Row, currentToken: Token, nextToken: Token, id: RotationId): Result<(Row, RotationId), Error> {
    if !IsCurrent(row, currentToken) then Err(Unauthorized)
    else if row.current == Hash(nextToken) then Err(Unchanged)
    else if row.pending.Some? || row.rotation.Some? then
      if row.rotation.Some? && row.pending == Some(Hash(nextToken)) then Ok((row, row.rotation.value)) else Err(Conflict)
    else Ok((row.(pending := Some(Hash(nextToken)), rotation := Some(id)), id))
  }

  predicate AlreadyCommitted(row: Row, rotation: RotationId, nextToken: Token) {
    row.lastCommitted == Some(rotation) && row.current == Hash(nextToken)
  }

  function Commit(row: Row, rotation: RotationId, nextToken: Token): Result<Row, Error> {
    if AlreadyCommitted(row, rotation, nextToken) then Ok(row)
    else if row.rotation != Some(rotation) || row.pending.None? then Err(NotFound)
    else if row.pending != Some(Hash(nextToken)) then Err(Unauthorized)
    else Ok(Row(row.pending.value, None, None, Some(rotation)))
  }

  function Abort(row: Row, rotation: RotationId, currentToken: Token): Result<Row, Error> {
    if !IsCurrent(row, currentToken) then Err(Unauthorized)
    else if row.rotation.None? && row.pending.None? then Ok(row)
    else if row.rotation != Some(rotation) then Err(NotFound)
    else Ok(row.(pending := None, rotation := None))
  }

  /** A commit that succeeded may be repeated any number of times: it changes nothing more. */
  lemma CommitIsIdempotent(row: Row, rotation: RotationId, nextToken: Token)
    requires Valid(row) && Commit(row, rotation, nextToken).Ok?
    ensures var once := Commit(row, rotation, nextToken).value;
      Commit(once, rotation, nextToken) == Ok(once) && RoleOf(once, nextToken) == Some(CurrentRole) && Valid(once)
  {
  }

  /** A preparation and its abort cancel out, and the abort may be repeated. */
  lemma AbortUndoesPrepare(row: Row, currentToken: Token, nextToken: Token, id: RotationId)
    requires Valid(row) && row.pending.None? && Prepare(row, currentToken, nextToken, id).Ok?
    ensures var prepared := Prepare(row, currentToken, nextToken, id).value.0;
      Abort(prepared, id, currentToken) == Ok(row) && Abort(row, id, currentToken) == Ok(row)
  {
  }

  // ------------------------------------------------------------ the authority

  /** The table of the store, with at most its one row. */
  class Database {
    var row: Option<Row>

    constructor ()
      ensures row == None
    {
      row := None;
    }
  }

  class ApiTokenAuthority {
    const db: Database

    constructor (db: Database)
      ensures this.db == db
    {
      this.db := db;
    }

    /**
     What a start does with the configured token: the first one is adopted, a later one has to
     have a role. `ok` is false when the start is refused.
     */
    method Start(bootstrapToken: Token) returns (ok: bool)
      modifies db
      ensures old(db.row).None? ==> ok && db.row == Some(Row(Hash(bootstrapToken), None, None, None))
      ensures old(db.row).Some? ==> db.row == old(db.row) && (ok <==> RoleOf(db.row.value, bootstrapToken).Some?)
    {
      var bootstrapHash := Hash(bootstrapToken);
      if db.row.None? {
        db.row := Some(Row(bootstrapHash, None, None, None));
        return true;
      }
      var existing := db.row.value;
      ok := existing.current == bootstrapHash || existing.pending == Some(bootstrapHash);
    }

    /** The role of a token that a client shows, if it shows one. */
    method TokenRole(token: Option<Token>) returns (r: Result<Option<Role>, Error>)
      ensures token.None? || token == Some("") ==> r == Ok(None)
      ensures token.Some? && token != Some("") ==>
        r == if db.row.None? then Err(InvalidBootstrap) else Ok(RoleOf(db.row.value, token.value))
    {
      if token.None? || token.value == "" {
        return Ok(None);
      }
      if db.row.None? {
        return Err(InvalidBootstrap);
      }
      var hash := Hash(token.value);
      if db.row.value.current == hash {
        return Ok(Some(CurrentRole));
      }
      return Ok(if db.row.value.pending == Some(hash) then Some(PendingRole) else None);
    }

    method Status(token: Token) returns (r: Result<(Option<RotationId>, Role), Error>)
      ensures db.row.None? ==> r == Err(InvalidBootstrap)
      ensures db.row.Some? ==>
        var role := RoleOf(db.row.value, token);
        r == if role.Some? then Ok((db.row.value.rotation, role.value)) else Err(Unauthorized)
    {
      if db.row.None? {
        return Err(InvalidBootstrap);
      }
      var row := db.row.value;
      var hash := Hash(token);
      if row.current == hash {
        return Ok((row.rotation, CurrentRole));
      }
      if row.pending == Some(hash) {
        return Ok((row.rotation, PendingRole));
      }
      return Err(Unauthorized);
    }

    method PrepareRotation(currentToken: Token, nextToken: Token, id: RotationId) returns (r: Result<RotationId, Error>)
      modifies db
      ensures old(db.row).None? ==> db.row == None && (r == if currentToken == "" then Err(Unauthorized) else Err(InvalidBootstrap))
      ensures old(db.row).Some? ==>
        var p := Prepare(old(db.row).value, currentToken, nextToken, id);
        db.row == Some(if p.Ok? then p.value.0 else old(db.row).value) && r == if p.Ok? then Ok(p.value.1) else Err(p.error)
    {
      var role := TokenRole(Some(currentToken));
      if role.Err? {
        return Err(role.error);
      }
      if role.value != Some(CurrentRole) {
        return Err(Unauthorized);
      }
      var row := db.row.value;
      var nextHash := Hash(nextToken);
      if row.current == nextHash {
        return Err(Unchanged);
      }
      if row.pending.Some? || row.rotation.Some? {
        if row.pending.Some? && row.rotation.Some? && row.pending.value == nextHash {
          return Ok(row.rotation.value);
        }
        return Err(Conflict);
      }
      db.row := Some(row.(pending := Some(nextHash), rotation := Some(id)));
      return Ok(id);
    }

    method CommitRotation(rotationId: RotationId, nextToken: Token) returns (r: Result<bool, Error>)
      modifies db
      ensures old(db.row).None? ==> db.row == None && r == Err(InvalidBootstrap)
      ensures old(db.row).Some? ==>
        var c := Commit(old(db.row).value, rotationId, nextToken);
        && db.row == Some(if c.Ok? then c.value else old(db.row).value)
        && r == if c.Ok? then Ok(AlreadyCommitted(old(db.row).value, rotationId, nextToken)) else Err(c.error)
    {
      if db.row.None? {
        return Err(InvalidBootstrap);
      }
      var row := db.row.value;
      var nextHash := Hash(nextToken);
      if row.lastCommitted == Some(rotationId) && row.current == nextHash {
        return Ok(true);
      }
      if row.rotation != Some(rotationId) || row.pending.None? {
        return Err(NotFound);
      }
      if row.pending.value != nextHash {
        return Err(Unauthorized);
      }
      db.row := Some(Row(row.pending.value, None, None, Some(rotationId)));
      return Ok(false);
    }

    method AbortRotation(rotationId: RotationId, currentToken: Token) returns (r: Result<bool, Error>)
      modifies db
      ensures old(db.row).None? ==> db.row == None && (r == if currentToken == "" then Err(Unauthorized) else Err(InvalidBootstrap))
      ensures old(db.row).Some? ==>
        var a := Abort(old(db.row).value, rotationId, currentToken);
        && db.row == Some(if a.Ok? then a.value else old(db.row).value)
        && r == if a.Ok? then Ok(old(db.row).value.rotation.None? && old(db.row).value.pending.None?) else Err(a.error)
    {
      var role := TokenRole(Some(currentToken));
      if role.Err? {
        return Err(role.error);
      }
      if role.value != Some(CurrentRole) {
        return Err(Unauthorized);
      }
      var row := db.row.value;
      if row.rotation.None? && row.pending.None? {
        return Ok(true);
      }
      if row.rotation != Some(rotationId) {
        return Err(NotFound);
      }
      db.row := Some(row.(pending := None, rotation := None));
      return Ok(false);
    }
  }
}
