// internal/auth/token_service.go and internal/domain/refresh_token.go: refresh tokens and their rotation. Each service
// call is one step here; TokenSteps takes rotations apart into their database calls, which run without a transaction.

module RefreshTokens {
  import opened Wrappers
  import opened Uuids

  /** The stored hash of a raw token; hashing does not collide. */
  datatype Digest = Sha256(raw: string)

  /** A token row. `chain` and `position` are history: the login the token descends from, and the rotations since. */
  datatype Row = Row(user: Uuid, expiresAt: int, revokedAt: Option<int>, chain: nat, position: nat)

  predicate IsRevoked(row: Row) {
    row.revokedAt.Some?
  }

  predicate IsValid(row: Row, now: int) {
    !IsRevoked(row) && now < row.expiresAt
  }

  type Rows = map<Digest, Row>

  datatype TokenError = NotFound | Revoked | Expired | Database

  function Validate(rows: Rows, raw: string, now: int): Result<Row, TokenError> {
    var digest := Sha256(raw);
    if digest !in rows then Err(NotFound)
    else if IsRevoked(rows[digest]) then Err(Revoked)
    else if !IsValid(rows[digest], now) then Err(Expired)
    else Ok(rows[digest])
  }

  /** Validation with its database lookup, which may fail. */
  function Lookup(rows: Rows, raw: string, reached: bool, now: int): Result<Row, TokenError> {
    if reached then Validate(rows, raw, now) else Err(Database)
  }

  function Revoke(row: Row, now: int): Row {
    row.(revokedAt := Some(now))
  }

  /** The token table, and how many chains have been begun. */
  datatype Store = Store(rows: Rows, chains: nat)

  const EMPTY := Store(map[], 0)

  /** Every `stored`, `saved` and `reached` says whether that database call succeeds. */
  datatype Op =
    | Generate(user: Uuid, minted: string, stored: bool)
    | Rotate(raw: string, minted: string, reached: bool, saved: bool, stored: bool, savedAt: int, storedAt: int)
    | RevokeToken(digest: Digest, reached: bool)
    | RevokeAll(user: Uuid, reached: bool)

  /** A rotation reads the clock again, at `savedAt` and `storedAt`. */
  datatype Event = Event(op: Op, now: int)

  /** Whether an insert goes through: the database answers and the hash is not taken. */
  predicate Inserts(rows: Rows, minted: string, stored: bool) {
    stored && Sha256(minted) !in rows
  }

  function RevokeUser(rows: Rows, user: Uuid, now: int): Rows {
    map d | d in rows :: if rows[d].user == user && !IsRevoked(rows[d]) then Revoke(rows[d], now) else rows[d]
  }

  function Successor(row: Row, now: int, lifetime: int): Row {
    Row(row.user, now + lifetime, None, row.chain, row.position + 1)
  }

  function Apply(s: Store, e: Event, lifetime: int): Store {
    match e.op
    case Generate(user, minted, stored) =>
      if Inserts(s.rows, minted, stored) then
        Store(s.rows[Sha256(minted) := Row(user, e.now + lifetime, None, s.chains, 0)], s.chains + 1)
      else s
    case Rotate(raw, minted, reached, saved, stored, savedAt, storedAt) =>
      var row := Lookup(s.rows, raw, reached, e.now);
      if row.Err? || !saved then s
      else
        var revoked := s.rows[Sha256(raw) := Revoke(row.value, savedAt)];
        if Inserts(revoked, minted, stored) then
          s.(rows := revoked[Sha256(minted) := Successor(row.value, storedAt, lifetime)])
        else s.(rows := revoked)
    case RevokeToken(digest, reached) =>
      if reached && digest in s.rows && !IsRevoked(s.rows[digest]) then
        s.(rows := s.rows[digest := Revoke(s.rows[digest], e.now)])
      else s
    case RevokeAll(user, reached) => if reached then s.(rows := RevokeUser(s.rows, user, e.now)) else s
  }

  // ---- Chains ----

  /** Positions in a chain belong to one token each and to one user; every token before a chain's last is revoked. */
  ghost predicate Chained(s: Store) {
    && (forall d :: d in s.rows ==> s.rows[d].chain < s.chains)
    && (forall d, e :: d in s.rows && e in s.rows && s.rows[d].chain == s.rows[e].chain ==> InOrder(s.rows, d, e))
  }

  ghost predicate InOrder(rows: Rows, d: Digest, e: Digest)
    requires d in rows && e in rows
  {
    && rows[d].user == rows[e].user
    && (rows[d].position == rows[e].position ==> d == e)
    && (rows[d].position < rows[e].position ==> IsRevoked(rows[d]))
  }

  lemma RevokingKeepsChains(s: Store, rows: Rows)
    requires Chained(s) && rows.Keys == s.rows.Keys
    requires forall d :: d in rows ==> rows[d] == s.rows[d] || rows[d] == s.rows[d].(revokedAt := rows[d].revokedAt)
    requires forall d :: d in rows && IsRevoked(s.rows[d]) ==> IsRevoked(rows[d])
    ensures Chained(s.(rows := rows))
  {
    forall d, e | d in rows && e in rows && rows[d].chain == rows[e].chain ensures InOrder(rows, d, e) {
      assert InOrder(s.rows, d, e);
    }
  }

  /** The live token of a chain is its last, so its successor extends the chain. */
  lemma SuccessorKeepsChains(s: Store, digest: Digest, minted: Digest, savedAt: int, storedAt: int, lifetime: int)
    requires Chained(s) && digest in s.rows && !IsRevoked(s.rows[digest]) && minted !in s.rows
    ensures
      var revoked := s.rows[digest := Revoke(s.rows[digest], savedAt)];
      Chained(s.(rows := revoked[minted := Successor(s.rows[digest], storedAt, lifetime)]))
  {
    var revoked := s.rows[digest := Revoke(s.rows[digest], savedAt)];
    var rows := revoked[minted := Successor(s.rows[digest], storedAt, lifetime)];
    forall d, e | d in rows && e in rows && rows[d].chain == rows[e].chain ensures InOrder(rows, d, e) {
      if d in s.rows {
        assert s.rows[d].chain == s.rows[digest].chain ==> InOrder(s.rows, d, digest) && InOrder(s.rows, digest, d);
      }
      if e in s.rows {
        assert s.rows[e].chain == s.rows[digest].chain ==> InOrder(s.rows, e, digest) && InOrder(s.rows, digest, e);
      }
      if d in s.rows && e in s.rows {
        assert InOrder(s.rows, d, e);
      }
    }
  }

  lemma GenerateKeepsChains(s: Store, minted: Digest, row: Row)
    requires Chained(s) && minted !in s.rows && row.chain == s.chains
    ensures Chained(Store(s.rows[minted := row], s.chains + 1))
  {
    var rows := s.rows[minted := row];
    forall d, e | d in rows && e in rows && rows[d].chain == rows[e].chain ensures InOrder(rows, d, e) {
      if d in s.rows && e in s.rows {
        assert InOrder(s.rows, d, e);
      }
    }
  }

  lemma StepKeepsChains(s: Store, e: Event, lifetime: int)
    requires Chained(s)
    ensures Chained(Apply(s, e, lifetime))
  {
    match e.op
    case Generate(user, minted, stored) =>
      if Inserts(s.rows, minted, stored) {
        GenerateKeepsChains(s, Sha256(minted), Row(user, e.now + lifetime, None, s.chains, 0));
      }
    case Rotate(raw, minted, reached, saved, stored, savedAt, storedAt) =>
      var row := Lookup(s.rows, raw, reached, e.now);
      if row.Ok? && saved {
        RevokingKeepsChains(s, s.rows[Sha256(raw) := Revoke(row.value, savedAt)]);
        if Sha256(minted) !in s.rows {
          SuccessorKeepsChains(s, Sha256(raw), Sha256(minted), savedAt, storedAt, lifetime);
        }
      }
    case RevokeToken(digest, _) =>
      if digest in s.rows {
        RevokingKeepsChains(s, s.rows[digest := Revoke(s.rows[digest], e.now)]);
      }
    case RevokeAll(user, _) => RevokingKeepsChains(s, RevokeUser(s.rows, user, e.now));
  }

  // ---- What each call leaves of the rows ----

  /** Tokens are never removed, never change user, expiry or place, and a revoked row is never written again. */
  ghost predicate Extends(rows: Rows, later: Rows) {
    forall d :: d in rows ==>
      && d in later && later[d] == rows[d].(revokedAt := later[d].revokedAt)
      && (IsRevoked(rows[d]) ==> later[d] == rows[d])
  }

  lemma StepExtends(s: Store, e: Event, lifetime: int)
    ensures Extends(s.rows, Apply(s, e, lifetime).rows)
  {
  }

  // ---- What each call does to the live tokens ----

  ghost function Live(rows: Rows, user: Uuid, now: int): set<Digest> {
    set d | d in rows && rows[d].user == user && IsValid(rows[d], now)
  }

  /** Revoking all leaves the user without a live token, now and later, and every other user's live set as it was. */
  lemma RevokeAllEffect(s: Store, user: Uuid, other: Uuid, now: int, later: int, lifetime: int)
    ensures
      var t := Apply(s, Event(RevokeAll(user, true), now), lifetime);
      && Live(t.rows, user, later) == {}
      && (other != user ==> Live(t.rows, other, later) == Live(s.rows, other, later))
  {
    var t := Apply(s, Event(RevokeAll(user, true), now), lifetime);
    assert forall d :: d in t.rows && t.rows[d].user == user ==> IsRevoked(t.rows[d]);
    if other != user {
      assert forall d :: d in t.rows && t.rows[d].user == other ==> t.rows[d] == s.rows[d];
    }
  }

  /** A rotation that goes through exchanges the old token for the new one and touches nobody else; one that fails after
      the revocation costs the old token; one that fails before leaves everything as it was. */
  lemma RotateEffect(s: Store, op: Op, now: int, lifetime: int, user: Uuid)
    requires op.Rotate? && lifetime > 0 && now <= op.savedAt <= op.storedAt && Validate(s.rows, op.raw, now).Ok?
    ensures
      var t := Apply(s, Event(op, now), lifetime);
      var owner := s.rows[Sha256(op.raw)].user;
      var gained := if Inserts(s.rows, op.minted, op.stored) then {Sha256(op.minted)} else {};
      && (!op.reached || !op.saved ==> t == s)
      && (user != owner ==> Live(t.rows, user, op.storedAt) == Live(s.rows, user, op.storedAt))
      && (op.reached && op.saved ==>
            Live(t.rows, owner, op.storedAt) == Live(s.rows, owner, op.storedAt) - {Sha256(op.raw)} + gained)
  {
  }

  /** What validation says of a token, read off its row: unknown, revoked, past its expiry instant, or accepted. */
  lemma ValidateReads(rows: Rows, raw: string, now: int)
    ensures Validate(rows, raw, now).Ok? <==>
      Sha256(raw) in rows && rows[Sha256(raw)].revokedAt == None && now < rows[Sha256(raw)].expiresAt
    ensures Validate(rows, raw, now) == Err(Expired) <==>
      Sha256(raw) in rows && rows[Sha256(raw)].revokedAt == None && rows[Sha256(raw)].expiresAt <= now
    ensures Validate(rows, raw, now) == Err(Revoked) <==>
      Sha256(raw) in rows && rows[Sha256(raw)].revokedAt.Some?
    ensures Validate(rows, raw, now) == Err(NotFound) <==> Sha256(raw) !in rows
    ensures Validate(rows, raw, now).Ok? ==> Validate(rows, raw, now).value == rows[Sha256(raw)]
  {
  }

  /** Validation accepts exactly the live tokens, of whatever user. */
  lemma ValidateIffLive(rows: Rows, raw: string, now: int)
    ensures Validate(rows, raw, now).Ok? <==> exists user :: Sha256(raw) in Live(rows, user, now)
  {
    if Validate(rows, raw, now).Ok? {
      assert Sha256(raw) in Live(rows, rows[Sha256(raw)].user, now);
    }
  }
}

module TokenServices {
  import opened Wrappers
  import opened Uuids
  import opened RefreshTokens

  /** The service over its table. Raw tokens, the clock and the outcome of each database call are inputs. */
  class TokenService {
    const lifetime: int
    var rows: Rows
    var chains: nat

    ghost function View(): Store
      reads this
    {
      Store(rows, chains)
    }

    constructor (lifetime: int)
      ensures this.lifetime == lifetime && View() == EMPTY && Chained(View())
    {
      this.lifetime := lifetime;
      rows := map[];
      chains := 0;
    }

    /** An insert under the unique index on the hash. */
    method Insert(raw: string, row: Row, stored: bool) returns (ok: bool)
      modifies this`rows
      ensures ok == Inserts(old(rows), raw, stored)
      ensures rows == if ok then old(rows)[Sha256(raw) := row] else old(rows)
    {
      ok := stored && Sha256(raw) !in rows;
      if ok {
        rows := rows[Sha256(raw) := row];
      }
    }

    /** Creates and stores a token at the given place of the history. */
    method Create(user: Uuid, raw: string, stored: bool, now: int, chain: nat, position: nat)
      returns (r: Result<Row, TokenError>)
      modifies this`rows
      ensures r == if Inserts(old(rows), raw, stored) then Ok(Row(user, now + lifetime, None, chain, position))
                   else Err(Database)
      ensures rows == if r.Ok? then old(rows)[Sha256(raw) := r.value] else old(rows)
    {
      var token := Row(user, now + lifetime, None, chain, position);
      var inserted := Insert(raw, token, stored);
      if !inserted {
        return Err(Database);
      }
      return Ok(token);
    }

    method GenerateRefreshToken(user: Uuid, raw: string, stored: bool, now: int) returns (r: Result<Row, TokenError>)
      requires Chained(View())
      modifies this
      ensures Chained(View()) && View() == Apply(old(View()), Event(Generate(user, raw, stored), now), lifetime)
      ensures r.Ok? <==> Inserts(old(rows), raw, stored)
      ensures r.Ok? ==> Sha256(raw) in rows && rows[Sha256(raw)] == r.value && r.value.user == user
      ensures r.Ok? ==> forall later :: Validate(rows, raw, later) == if later < now + lifetime then r else Err(Expired)
      ensures rows == if r.Ok? then old(rows)[Sha256(raw) := r.value] else old(rows)
    {
      StepKeepsChains(View(), Event(Generate(user, raw, stored), now), lifetime);
      r := Create(user, raw, stored, now, chains, 0);
      if r.Ok? {
        chains := chains + 1;
      }
    }

    method ValidateRefreshToken(raw: string, reached: bool, now: int) returns (r: Result<Row, TokenError>)
      ensures r == Lookup(rows, raw, reached, now)
      ensures r.Ok? <==>
        && reached && Sha256(raw) in rows
        && rows[Sha256(raw)].revokedAt == None && now < rows[Sha256(raw)].expiresAt
      ensures r == Err(Expired) <==>
        && reached && Sha256(raw) in rows
        && rows[Sha256(raw)].revokedAt == None && rows[Sha256(raw)].expiresAt <= now
      ensures r.Ok? ==> r.value == rows[Sha256(raw)]
    {
      if !reached {
        return Err(Database);
      }
      var digest := Sha256(raw);
      if digest !in rows {
        return Err(NotFound);
      }
      var token := rows[digest];
      if IsRevoked(token) {
        return Err(Revoked);
      }
      if !IsValid(token, now) {
        return Err(Expired);
      }
      return Ok(token);
    }

    /** The clock is read by the validation, for the revocation and for the new token's expiry. */
    method RotateRefreshToken(raw: string, minted: string, reached: bool, saved: bool, stored: bool, now: int,
                              savedAt: int, storedAt: int)
      returns (r: Result<Row, TokenError>)
      requires Chained(View())
      modifies this`rows
      ensures Chained(View())
      ensures View() ==
        Apply(old(View()), Event(Rotate(raw, minted, reached, saved, stored, savedAt, storedAt), now), lifetime)
      ensures old(Lookup(rows, raw, reached, now)).Err? ==> r == old(Lookup(rows, raw, reached, now))
      ensures old(Lookup(rows, raw, reached, now)).Ok? ==> (r.Ok? <==> saved && Inserts(old(rows), minted, stored))
      ensures r.Ok? ==>
        forall later :: Validate(rows, minted, later) == if later < storedAt + lifetime then r else Err(Expired)
      ensures r.Ok? ==> r.value.user == old(rows[Sha256(raw)]).user
      ensures r.Ok? ==> forall later :: Validate(rows, raw, later) == Err(Revoked)
    {
      StepKeepsChains(View(), Event(Rotate(raw, minted, reached, saved, stored, savedAt, storedAt), now), lifetime);
      var validated := ValidateRefreshToken(raw, reached, now);
      if validated.Err? {
        return validated;
      }
      var token := validated.value;
      if !saved {
        return Err(Database);
      }
      rows := rows[Sha256(raw) := token.(revokedAt := Some(savedAt))];
      r := Create(token.user, minted, stored, storedAt, token.chain, token.position + 1);
    }

    method RevokeRefreshToken(digest: Digest, reached: bool, now: int) returns (r: Result<(), TokenError>)
      requires Chained(View())
      modifies this`rows
      ensures Chained(View()) && View() == Apply(old(View()), Event(RevokeToken(digest, reached), now), lifetime)
      ensures r == if !reached then Err(Database)
                   else if digest in old(rows) && !IsRevoked(old(rows)[digest]) then Ok(()) else Err(NotFound)
      ensures r.Ok? ==> forall raw, later :: Sha256(raw) == digest ==> Validate(rows, raw, later) == Err(Revoked)
      ensures r.Ok? ==> rows == old(rows)[digest := old(rows)[digest].(revokedAt := Some(now))]
      ensures r.Err? ==> rows == old(rows)
    {
      StepKeepsChains(View(), Event(RevokeToken(digest, reached), now), lifetime);
      if !reached {
        return Err(Database);
      }
      if digest !in rows || IsRevoked(rows[digest]) {
        return Err(NotFound);
      }
      rows := rows[digest := rows[digest].(revokedAt := Some(now))];
      return Ok(());
    }

    method RevokeAllUserTokens(user: Uuid, reached: bool, now: int) returns (ok: bool)
      requires Chained(View())
      modifies this`rows
      ensures Chained(View()) && View() == Apply(old(View()), Event(RevokeAll(user, reached), now), lifetime)
      ensures ok == reached
      ensures ok ==> forall later :: Live(rows, user, later) == {}
      ensures ok ==> forall d :: d in old(rows) && old(rows)[d].user != user ==> d in rows && rows[d] == old(rows)[d]
      ensures ok ==> forall d :: d in old(rows) && old(rows)[d].user == user ==>
        d in rows && rows[d].revokedAt == if old(rows)[d].revokedAt.None? then Some(now) else old(rows)[d].revokedAt
      ensures !ok ==> rows == old(rows)
    {
      StepKeepsChains(View(), Event(RevokeAll(user, reached), now), lifetime);
      forall later {
        RevokeAllEffect(View(), user, user, now, later, lifetime);
      }
      if !reached {
        return false;
      }
      rows := map d | d in rows ::
        if rows[d].user == user && rows[d].revokedAt.None? then rows[d].(revokedAt := Some(now)) else rows[d];
      assert rows == RevokeUser(old(rows), user, now);
      return true;
    }
  }
}
