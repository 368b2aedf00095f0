// internal/auth/token_service.go under concurrency. A rotation is three database calls, and nothing keeps other calls
// from coming between them; every other service call is a single one.

module TokenSteps {
  import opened Wrappers
  import opened Uuids
  import opened RefreshTokens

  /** Where a caller of RotateRefreshToken stands: past the lookup, or past saving the old row as revoked. */
  datatype Caller = Idle | Found(digest: Digest, row: Row) | Saved(digest: Digest, row: Row)

  datatype State = State(rows: Rows, chains: nat, callers: map<nat, Caller>)

  datatype Label =
    | Whole(op: Op, now: int)
    | LookUp(caller: nat, raw: string, reached: bool, now: int)
    | Save(caller: nat, saved: bool, now: int)
    | Insert(caller: nat, minted: string, stored: bool, now: int)

  function At(s: State, c: nat): Caller {
    if c in s.callers then s.callers[c] else Idle
  }

  function Table(s: State): Store {
    Store(s.rows, s.chains)
  }

  predicate Enabled(s: State, l: Label) {
    match l
    case Whole(op, _) => !op.Rotate?
    case LookUp(c, _, _, _) => At(s, c).Idle?
    case Save(c, _, _) => At(s, c).Found?
    case Insert(c, _, _, _) => At(s, c).Saved?
  }

  /** Saving writes the whole row as it was read, whatever happened to it since. */
  function Next(s: State, l: Label, lifetime: int): State
    requires Enabled(s, l)
  {
    match l
    case Whole(op, now) =>
      var t := Apply(Table(s), Event(op, now), lifetime);
      s.(rows := t.rows, chains := t.chains)
    case LookUp(c, raw, reached, now) =>
      var row := Lookup(s.rows, raw, reached, now);
      if row.Ok? then s.(callers := s.callers[c := Found(Sha256(raw), row.value)]) else s
    case Save(c, saved, now) =>
      var caller := s.callers[c];
      if saved then
        s.(rows := s.rows[caller.digest := Revoke(caller.row, now)],
           callers := s.callers[c := Saved(caller.digest, caller.row)])
      else s.(callers := s.callers[c := Idle])
    case Insert(c, minted, stored, now) =>
      var after := s.(callers := s.callers[c := Idle]);
      if Inserts(s.rows, minted, stored) then
        after.(rows := s.rows[Sha256(minted) := Successor(s.callers[c].row, now, lifetime)])
      else after
  }

  ghost predicate Initial(s: State) {
    s == State(map[], 0, map[])
  }

  /** The state after the first n steps; a step that is not enabled is skipped. */
  function StateAt(s: State, ls: seq<Label>, n: nat, lifetime: int): State
    requires n <= |ls|
  {
    if n == 0 then s
    else
      var before := StateAt(s, ls, n - 1, lifetime);
      if Enabled(before, ls[n - 1]) then Next(before, ls[n - 1], lifetime) else before
  }

  /** Uninterrupted, the three steps are the rotation taken as one. */
  lemma RotateIsItsSteps(s: State, c: nat, op: Op, now: int, lifetime: int)
    requires op.Rotate? && At(s, c).Idle?
    ensures
      var ls := [LookUp(c, op.raw, op.reached, now), Save(c, op.saved, op.savedAt),
                 Insert(c, op.minted, op.stored, op.storedAt)];
      var t := StateAt(s, ls, 3, lifetime);
      Table(t) == Apply(Table(s), Event(op, now), lifetime) && At(t, c).Idle?
  {
    var ls := [LookUp(c, op.raw, op.reached, now), Save(c, op.saved, op.savedAt),
               Insert(c, op.minted, op.stored, op.storedAt)];
    var s1 := Next(s, ls[0], lifetime);
    Unfold(s, ls, 0, s, s1, lifetime);
    if Enabled(s1, ls[1]) {
      Unfold(s, ls, 1, s1, Next(s1, ls[1], lifetime), lifetime);
    } else {
      assert StateAt(s, ls, 2, lifetime) == s1;
    }
  }

  // ---- What every run keeps, rotations overlapping or not ----

  predicate IsRevokedParent(rows: Rows, p: Digest, d: Digest)
    requires p in rows && d in rows
  {
    rows[p].chain == rows[d].chain && rows[p].position + 1 == rows[d].position && IsRevoked(rows[p])
  }

  predicate HasRevokedParent(rows: Rows, d: Digest)
    requires d in rows
  {
    exists p :: p in rows && IsRevokedParent(rows, p, d)
  }

  /** A caller's row is in the table with all it read, the revocation apart, and stays revoked once saved so. */
  predicate Knows(s: State, c: nat) {
    var caller := At(s, c);
    !caller.Idle? ==>
      && caller.digest in s.rows
      && s.rows[caller.digest] == caller.row.(revokedAt := s.rows[caller.digest].revokedAt)
      && (caller.Saved? ==> IsRevoked(s.rows[caller.digest]))
  }

  ghost predicate Rooted(s: State) {
    && (forall d :: d in s.rows ==> s.rows[d].chain < s.chains)
    && (forall d, e :: d in s.rows && e in s.rows && s.rows[d].chain == s.rows[e].chain ==>
          s.rows[d].user == s.rows[e].user)
    && (forall d :: d in s.rows && s.rows[d].position > 0 ==> HasRevokedParent(s.rows, d))
    && (forall c :: Knows(s, c))
  }

  /** Rows keep all but their revocation, which is never taken back. */
  ghost predicate Grows(rows: Rows, later: Rows) {
    forall d :: d in rows ==>
      && d in later && later[d] == rows[d].(revokedAt := later[d].revokedAt)
      && (IsRevoked(rows[d]) ==> IsRevoked(later[d]))
  }

  lemma StepGrows(s: State, l: Label, lifetime: int)
    requires Rooted(s) && Enabled(s, l)
    ensures Grows(s.rows, Next(s, l, lifetime).rows)
  {
    match l
    case Whole(op, now) => StepExtends(Table(s), Event(op, now), lifetime);
    case Save(c, _, _) => assert Knows(s, c);
    case _ =>
  }

  lemma ParentsStay(rows: Rows, later: Rows, d: Digest)
    requires Grows(rows, later) && d in rows && HasRevokedParent(rows, d)
    ensures HasRevokedParent(later, d)
  {
    var p :| p in rows && IsRevokedParent(rows, p, d);
    assert p in later && IsRevokedParent(later, p, d);
  }

  lemma SaveAddsNothing(s: State, l: Label, lifetime: int)
    requires Enabled(s, l) && l.Save? && forall c :: Knows(s, c)
    ensures Next(s, l, lifetime).rows.Keys == s.rows.Keys
  {
    assert Knows(s, l.caller);
  }

  /** The rows a step adds: one at most, beginning a chain or following the row of a caller that saved it revoked. */
  lemma StepAdds(s: State, l: Label, lifetime: int, d: Digest)
    requires Enabled(s, l) && d in Next(s, l, lifetime).rows && d !in s.rows
    requires forall c :: Knows(s, c)
    ensures
      var t := Next(s, l, lifetime);
      || (l.Whole? && l.op.Generate? && t.rows[d].chain == s.chains && t.rows[d].position == 0
          && t.chains == s.chains + 1)
      || (l.Insert? && Inserts(s.rows, l.minted, l.stored) && d == Sha256(l.minted) && t.chains == s.chains
          && t.rows[d] == Successor(s.callers[l.caller].row, l.now, lifetime))
    ensures l.Whole? && l.op.Generate? ==> d == Sha256(l.op.minted)
  {
    if l.Save? {
      SaveAddsNothing(s, l, lifetime);
    }
  }

  lemma StepChains(s: State, l: Label, lifetime: int)
    requires Enabled(s, l)
    ensures s.chains <= Next(s, l, lifetime).chains
  {
  }

  lemma StepKnows(s: State, l: Label, lifetime: int, c: nat)
    requires Rooted(s) && Enabled(s, l)
    ensures Knows(Next(s, l, lifetime), c)
  {
    hide Apply, HasRevokedParent;
    StepGrows(s, l, lifetime);
    assert Knows(s, c);
  }

  lemma AddedRow(s: State, l: Label, lifetime: int, d: Digest)
    requires Rooted(s) && Enabled(s, l) && d in Next(s, l, lifetime).rows && d !in s.rows
    ensures
      var rows := Next(s, l, lifetime).rows;
      && (rows[d].position > 0 ==> HasRevokedParent(rows, d))
      && rows[d].chain < Next(s, l, lifetime).chains
      && forall e :: e in s.rows && s.rows[e].chain == rows[d].chain ==> s.rows[e].user == rows[d].user
  {
    StepAdds(s, l, lifetime, d);
    if l.Insert? {
      assert Knows(s, l.caller);
      StepGrows(s, l, lifetime);
      var rows, p := Next(s, l, lifetime).rows, s.callers[l.caller].digest;
      assert p in rows && IsRevokedParent(rows, p, d);
    }
  }

  lemma StepRooted(s: State, l: Label, lifetime: int)
    requires Rooted(s) && Enabled(s, l)
    ensures Rooted(Next(s, l, lifetime))
  {
    hide Next, Enabled, Knows, HasRevokedParent;
    var t := Next(s, l, lifetime);
    StepGrows(s, l, lifetime);
    StepChains(s, l, lifetime);
    forall c ensures Knows(t, c) {
      StepKnows(s, l, lifetime, c);
    }
    forall d | d in t.rows
      ensures t.rows[d].chain < t.chains
      ensures t.rows[d].position > 0 ==> HasRevokedParent(t.rows, d)
    {
      if d in s.rows {
        if t.rows[d].position > 0 {
          ParentsStay(s.rows, t.rows, d);
        }
      } else {
        AddedRow(s, l, lifetime, d);
      }
    }
    forall d, e | d in t.rows && e in t.rows && t.rows[d].chain == t.rows[e].chain
      ensures t.rows[d].user == t.rows[e].user
    {
      if d !in s.rows {
        AddedRow(s, l, lifetime, d);
      }
      if e !in s.rows {
        AddedRow(s, l, lifetime, e);
      }
      if d !in s.rows && e !in s.rows {
        OneAdded(s, l, lifetime, d, e);
      }
    }
  }

  lemma OneAdded(s: State, l: Label, lifetime: int, d: Digest, e: Digest)
    requires Rooted(s) && Enabled(s, l)
    requires d in Next(s, l, lifetime).rows && d !in s.rows && e in Next(s, l, lifetime).rows && e !in s.rows
    ensures d == e
  {
    hide Next, Enabled, Knows;
    StepAdds(s, l, lifetime, d);
    StepAdds(s, l, lifetime, e);
  }

  lemma {:induction false} AlwaysRooted(s: State, ls: seq<Label>, n: nat, lifetime: int)
    requires Rooted(s) && n <= |ls|
    ensures Rooted(StateAt(s, ls, n, lifetime))
  {
    if n > 0 {
      AlwaysRooted(s, ls, n - 1, lifetime);
      if Enabled(StateAt(s, ls, n - 1, lifetime), ls[n - 1]) {
        StepRooted(StateAt(s, ls, n - 1, lifetime), ls[n - 1], lifetime);
      }
    }
  }

  lemma {:induction false} AlwaysGrows(s: State, ls: seq<Label>, m: nat, n: nat, lifetime: int)
    requires Rooted(s) && m <= n <= |ls|
    ensures Grows(StateAt(s, ls, m, lifetime).rows, StateAt(s, ls, n, lifetime).rows)
    decreases n
  {
    if m < n {
      AlwaysGrows(s, ls, m, n - 1, lifetime);
      AlwaysRooted(s, ls, n - 1, lifetime);
      if Enabled(StateAt(s, ls, n - 1, lifetime), ls[n - 1]) {
        StepGrows(StateAt(s, ls, n - 1, lifetime), ls[n - 1], lifetime);
      }
    }
  }

  /** However calls interleave, a token known at one time and not valid then is not valid at any later time. */
  lemma InvalidStaysInvalid(s: State, ls: seq<Label>, m: nat, n: nat, lifetime: int, raw: string, before: int, now: int)
    requires Rooted(s) && m <= n <= |ls| && before <= now
    requires Sha256(raw) in StateAt(s, ls, m, lifetime).rows
    requires Validate(StateAt(s, ls, m, lifetime).rows, raw, before).Err?
    ensures Validate(StateAt(s, ls, n, lifetime).rows, raw, now).Err?
  {
    AlwaysGrows(s, ls, m, n, lifetime);
  }

  // ---- Exactly when chains hold ----

  ghost predicate Unique(rows: Rows) {
    forall d, e :: d in rows && e in rows && rows[d].chain == rows[e].chain && rows[d].position == rows[e].position ==>
      d == e
  }

  lemma {:induction false} EarlierRevoked(s: State, d: Digest, e: Digest)
    requires Rooted(s) && Unique(s.rows) && d in s.rows && e in s.rows
    requires s.rows[d].chain == s.rows[e].chain && s.rows[d].position < s.rows[e].position
    ensures IsRevoked(s.rows[d])
    decreases s.rows[e].position
  {
    var p :| p in s.rows && IsRevokedParent(s.rows, p, e);
    if s.rows[p].position != s.rows[d].position {
      EarlierRevoked(s, d, p);
    }
  }

  lemma ChainedIffUnique(s: State)
    requires Rooted(s)
    ensures Chained(Table(s)) <==> Unique(s.rows)
  {
    if Unique(s.rows) {
      forall d, e | d in s.rows && e in s.rows && s.rows[d].chain == s.rows[e].chain ensures InOrder(s.rows, d, e) {
        if s.rows[d].position < s.rows[e].position {
          EarlierRevoked(s, d, e);
        }
      }
    }
    if Chained(Table(s)) {
      forall d, e | d in s.rows && e in s.rows && s.rows[d].chain == s.rows[e].chain
        && s.rows[d].position == s.rows[e].position ensures d == e
      {
        assert InOrder(s.rows, d, e);
      }
    }
  }

  /** No row stands yet where a row following this one would. */
  predicate Free(rows: Rows, row: Row) {
    forall d :: d in rows && rows[d].chain == row.chain ==> rows[d].position != row.position + 1
  }

  predicate InsertsAt(s: State, l: Label) {
    Enabled(s, l) && l.Insert? && Inserts(s.rows, l.minted, l.stored)
  }

  lemma StepUnique(s: State, l: Label, lifetime: int)
    requires Rooted(s) && Enabled(s, l)
    ensures Unique(Next(s, l, lifetime).rows) <==>
      Unique(s.rows) && (InsertsAt(s, l) ==> Free(s.rows, s.callers[l.caller].row))
  {
    var t := Next(s, l, lifetime);
    StepGrows(s, l, lifetime);
    if Unique(s.rows) && (InsertsAt(s, l) ==> Free(s.rows, s.callers[l.caller].row)) {
      forall d, e | d in t.rows && e in t.rows && t.rows[d].chain == t.rows[e].chain
        && t.rows[d].position == t.rows[e].position ensures d == e
      {
        AddedIsApart(s, l, lifetime, d, e);
        AddedIsApart(s, l, lifetime, e, d);
      }
    }
    if Unique(t.rows) {
      KeptAreUnique(s.rows, t.rows);
      if InsertsAt(s, l) {
        assert Sha256(l.minted) in t.rows && Sha256(l.minted) !in s.rows;
        forall d | d in s.rows && s.rows[d].chain == s.callers[l.caller].row.chain
          ensures s.rows[d].position != s.callers[l.caller].row.position + 1
        {
          assert d in t.rows && d != Sha256(l.minted);
        }
      }
    }
  }

  lemma KeptAreUnique(rows: Rows, later: Rows)
    requires Grows(rows, later) && Unique(later)
    ensures Unique(rows)
  {
    forall d, e | d in rows && e in rows && rows[d].chain == rows[e].chain && rows[d].position == rows[e].position
      ensures d == e
    {
      assert d in later && e in later;
    }
  }

  lemma AddedIsApart(s: State, l: Label, lifetime: int, d: Digest, e: Digest)
    requires Rooted(s) && Enabled(s, l) && (InsertsAt(s, l) ==> Free(s.rows, s.callers[l.caller].row))
    requires
      var rows := Next(s, l, lifetime).rows;
      d in rows && e in rows && rows[d].chain == rows[e].chain && rows[d].position == rows[e].position
    ensures d !in s.rows ==> d == e
  {
    StepGrows(s, l, lifetime);
    if d !in s.rows {
      StepAdds(s, l, lifetime, d);
      if e in s.rows {
        assert false;
      } else {
        OneAdded(s, l, lifetime, d, e);
      }
    }
  }

  /** Inserting a successor keeps chains if and only if the chain has no row at its place yet. */
  lemma InsertKeepsChainsIff(s: State, l: Label, lifetime: int)
    requires Rooted(s) && Chained(Table(s)) && InsertsAt(s, l)
    ensures Chained(Table(Next(s, l, lifetime))) <==> Free(s.rows, s.callers[l.caller].row)
  {
    StepRooted(s, l, lifetime);
    StepUnique(s, l, lifetime);
    ChainedIffUnique(s);
    ChainedIffUnique(Next(s, l, lifetime));
  }

  ghost predicate FreeInserts(s: State, ls: seq<Label>, n: nat, lifetime: int)
    requires n <= |ls|
  {
    forall i :: 0 <= i < n && InsertsAt(StateAt(s, ls, i, lifetime), ls[i]) ==>
      Free(StateAt(s, ls, i, lifetime).rows, StateAt(s, ls, i, lifetime).callers[ls[i].caller].row)
  }

  lemma {:induction false} UniqueIffFreeInserts(s: State, ls: seq<Label>, n: nat, lifetime: int)
    requires Initial(s) && n <= |ls|
    ensures Unique(StateAt(s, ls, n, lifetime).rows) <==> FreeInserts(s, ls, n, lifetime)
  {
    if n > 0 {
      UniqueIffFreeInserts(s, ls, n - 1, lifetime);
      AlwaysRooted(s, ls, n - 1, lifetime);
      if Enabled(StateAt(s, ls, n - 1, lifetime), ls[n - 1]) {
        StepUnique(StateAt(s, ls, n - 1, lifetime), ls[n - 1], lifetime);
      }
    }
  }

  /** Over every interleaving, chains hold if and only if every successor inserted so far found its place free. */
  lemma ChainsHoldIff(s: State, ls: seq<Label>, n: nat, lifetime: int)
    requires Initial(s) && n <= |ls|
    ensures Chained(Table(StateAt(s, ls, n, lifetime))) <==> FreeInserts(s, ls, n, lifetime)
  {
    AlwaysRooted(s, ls, n, lifetime);
    ChainedIffUnique(StateAt(s, ls, n, lifetime));
    UniqueIffFreeInserts(s, ls, n, lifetime);
  }

  /** Where chains hold, a token that validates is the last of its chain and every other one is refused as revoked. */
  lemma ChainedMeansOneLive(s: State, raw: string, other: string, now: int, later: int)
    requires Chained(Table(s)) && Validate(s.rows, raw, now).Ok? && Sha256(other) in s.rows
    requires s.rows[Sha256(other)].chain == s.rows[Sha256(raw)].chain && other != raw
    ensures s.rows[Sha256(other)].position < s.rows[Sha256(raw)].position
    ensures Validate(s.rows, other, later) == Err(Revoked)
  {
    assert InOrder(s.rows, Sha256(raw), Sha256(other)) && InOrder(s.rows, Sha256(other), Sha256(raw));
  }

  // ---- Exactly when chains have one live token ----

  /** What counts as live: not being revoked, whatever the time, or validating at an instant. */
  datatype Sense = Unrevoked | ValidAt(now: int)

  predicate IsLive(row: Row, sense: Sense) {
    match sense
    case Unrevoked => !IsRevoked(row)
    case ValidAt(now) => IsValid(row, now)
  }

  /** Step l in the timeless sense or in that of its own instant. */
  function SenseOf(l: Label, timed: bool): Sense {
    if timed then ValidAt(l.now) else Unrevoked
  }

  /** No chain has two live tokens. */
  ghost predicate OneLive(rows: Rows, sense: Sense) {
    forall d, e ::
      (d in rows && e in rows && rows[d].chain == rows[e].chain && IsLive(rows[d], sense) && IsLive(rows[e], sense)) ==>
      d == e
  }

  /** If the step inserts a successor, no token of its chain is live. */
  predicate InsertsIntoDead(s: State, l: Label, sense: Sense) {
    InsertsAt(s, l) ==>
      forall d :: d in s.rows && s.rows[d].chain == s.callers[l.caller].row.chain ==> !IsLive(s.rows[d], sense)
  }

  lemma LaterOneLive(rows: Rows, before: int, now: int)
    requires OneLive(rows, ValidAt(before)) && before <= now
    ensures OneLive(rows, ValidAt(now))
  {
  }

  lemma KeptWereLive(rows: Rows, later: Rows, d: Digest, sense: Sense)
    requires Grows(rows, later) && d in rows && IsLive(later[d], sense)
    ensures IsLive(rows[d], sense) && rows[d].chain == later[d].chain
  {
  }

  lemma InsertedIsLive(s: State, l: Label, lifetime: int, timed: bool)
    requires InsertsAt(s, l) && lifetime > 0
    ensures
      var rows, minted := Next(s, l, lifetime).rows, Sha256(l.minted);
      && minted in rows && IsLive(rows[minted], SenseOf(l, timed))
      && rows[minted].chain == s.callers[l.caller].row.chain
      && forall d :: d in s.rows ==> d != minted && d in rows && rows[d] == s.rows[d]
  {
  }

  lemma AddedIsAlone(s: State, l: Label, lifetime: int, sense: Sense, d: Digest, e: Digest)
    requires Rooted(s) && Enabled(s, l) && InsertsIntoDead(s, l, sense)
    requires
      var rows := Next(s, l, lifetime).rows;
      d in rows && e in rows && rows[d].chain == rows[e].chain && d !in s.rows && IsLive(rows[e], sense)
    ensures d == e
  {
    hide Next, Enabled, Knows, HasRevokedParent;
    StepAdds(s, l, lifetime, d);
    StepGrows(s, l, lifetime);
    if e !in s.rows {
      OneAdded(s, l, lifetime, d, e);
    } else {
      KeptWereLive(s.rows, Next(s, l, lifetime).rows, e, sense);
    }
  }

  /** A step leaves each chain one live token at most if and only if, when it inserts a successor, no token of that
      chain is live. */
  lemma StepOneLiveIff(s: State, l: Label, lifetime: int, timed: bool)
    requires Rooted(s) && Enabled(s, l) && lifetime > 0 && OneLive(s.rows, SenseOf(l, timed))
    ensures OneLive(Next(s, l, lifetime).rows, SenseOf(l, timed)) <==> InsertsIntoDead(s, l, SenseOf(l, timed))
  {
    hide Next, Enabled, Knows, HasRevokedParent, IsLive;
    var t, sense := Next(s, l, lifetime), SenseOf(l, timed);
    StepGrows(s, l, lifetime);
    if InsertsAt(s, l) {
      InsertedIsLive(s, l, lifetime, timed);
    }
    if InsertsIntoDead(s, l, sense) {
      forall d, e | d in t.rows && e in t.rows && t.rows[d].chain == t.rows[e].chain
        && IsLive(t.rows[d], sense) && IsLive(t.rows[e], sense) ensures d == e
      {
        if d !in s.rows {
          AddedIsAlone(s, l, lifetime, sense, d, e);
        } else if e !in s.rows {
          AddedIsAlone(s, l, lifetime, sense, e, d);
        } else {
          KeptWereLive(s.rows, t.rows, d, sense);
          KeptWereLive(s.rows, t.rows, e, sense);
        }
      }
    }
  }

  /** The clock does not run backwards from step to step. */
  predicate Ordered(ls: seq<Label>) {
    forall i, j :: 0 <= i < j < |ls| ==> ls[i].now <= ls[j].now
  }

  /** After each of the first n steps no chain has two live tokens. */
  ghost predicate OneLiveThroughout(s: State, ls: seq<Label>, n: nat, lifetime: int, timed: bool)
    requires n <= |ls|
  {
    forall i :: 0 <= i < n ==> OneLive(StateAt(s, ls, i + 1, lifetime).rows, SenseOf(ls[i], timed))
  }

  lemma OneLiveBefore(s: State, ls: seq<Label>, n: nat, lifetime: int, timed: bool)
    requires Initial(s) && n < |ls| && Ordered(ls) && OneLiveThroughout(s, ls, n, lifetime, timed)
    ensures OneLive(StateAt(s, ls, n, lifetime).rows, SenseOf(ls[n], timed))
  {
    hide Next, Enabled, OneLive;
    if n == 0 {
      NoRowsOneLive(SenseOf(ls[0], timed));
    } else {
      assert OneLive(StateAt(s, ls, n - 1 + 1, lifetime).rows, SenseOf(ls[n - 1], timed));
      if timed {
        LaterOneLive(StateAt(s, ls, n, lifetime).rows, ls[n - 1].now, ls[n].now);
      }
    }
  }

  lemma NoRowsOneLive(sense: Sense)
    ensures OneLive(map[], sense)
  {
  }

  lemma LastStepOneLiveIff(s: State, ls: seq<Label>, n: nat, lifetime: int, timed: bool)
    requires Initial(s) && n < |ls| && Ordered(ls) && lifetime > 0 && OneLiveThroughout(s, ls, n, lifetime, timed)
    ensures OneLive(StateAt(s, ls, n + 1, lifetime).rows, SenseOf(ls[n], timed)) <==>
      InsertsIntoDead(StateAt(s, ls, n, lifetime), ls[n], SenseOf(ls[n], timed))
  {
    hide Next, OneLive, OneLiveThroughout;
    OneLiveBefore(s, ls, n, lifetime, timed);
    AlwaysRooted(s, ls, n, lifetime);
    if Enabled(StateAt(s, ls, n, lifetime), ls[n]) {
      StepOneLiveIff(StateAt(s, ls, n, lifetime), ls[n], lifetime, timed);
    }
  }

  /** Over every interleaving, each chain has at most one live token after every step if and only if every successor was
      inserted when no token of its chain was live; in either sense of live. */
  lemma {:induction false} OneLiveIff(s: State, ls: seq<Label>, n: nat, lifetime: int, timed: bool)
    requires Initial(s) && n <= |ls| && Ordered(ls) && lifetime > 0
    ensures OneLiveThroughout(s, ls, n, lifetime, timed) <==>
      forall i :: 0 <= i < n ==> InsertsIntoDead(StateAt(s, ls, i, lifetime), ls[i], SenseOf(ls[i], timed))
  {
    hide Next, Enabled, OneLive, InsertsIntoDead, Initial;
    if n > 0 {
      OneLiveIff(s, ls, n - 1, lifetime, timed);
      if OneLiveThroughout(s, ls, n - 1, lifetime, timed) {
        LastStepOneLiveIff(s, ls, n - 1, lifetime, timed);
      }
    }
  }

  // ---- Rotations of one token that do not overlap ----

  /** No two rotations of one token are past their lookup. */
  ghost predicate NoOverlap(s: State) {
    forall c, d :: c != d && !At(s, c).Idle? && !At(s, d).Idle? ==> At(s, c).digest != At(s, d).digest
  }

  ghost predicate PlacesFree(s: State) {
    Chained(Table(s)) && forall c :: !At(s, c).Idle? ==> Free(s.rows, At(s, c).row)
  }

  lemma LookUpPlaceFree(s: State, l: Label, lifetime: int)
    requires Chained(Table(s)) && Enabled(s, l) && l.LookUp? && !At(Next(s, l, lifetime), l.caller).Idle?
    ensures Free(s.rows, At(Next(s, l, lifetime), l.caller).row)
  {
    var row := At(Next(s, l, lifetime), l.caller).row;
    assert forall d :: d in s.rows && s.rows[d].chain == row.chain ==> InOrder(s.rows, Sha256(l.raw), d);
  }

  lemma OtherPlaceFree(s: State, l: Label, lifetime: int, c: nat)
    requires Rooted(s) && PlacesFree(s) && NoOverlap(s) && Enabled(s, l)
    requires !At(s, c).Idle? && !(l.Insert? && l.caller == c)
    ensures Free(Next(s, l, lifetime).rows, At(s, c).row)
  {
    hide Next, Enabled, Live, HasRevokedParent;
    var t, row := Next(s, l, lifetime), At(s, c).row;
    StepGrows(s, l, lifetime);
    assert Free(s.rows, row) && Knows(s, c);
    forall d | d in t.rows && t.rows[d].chain == row.chain ensures t.rows[d].position != row.position + 1 {
      if d !in s.rows {
        StepAdds(s, l, lifetime, d);
        if l.Insert? {
          InserterStandsApart(s, l, c);
        }
      }
    }
  }

  lemma InserterStandsApart(s: State, l: Label, c: nat)
    requires Rooted(s) && Chained(Table(s)) && NoOverlap(s)
    requires Enabled(s, l) && l.Insert? && l.caller != c && !At(s, c).Idle?
    ensures s.callers[l.caller].row.chain == At(s, c).row.chain ==>
      s.callers[l.caller].row.position != At(s, c).row.position
  {
    hide HasRevokedParent;
    assert Knows(s, l.caller) && Knows(s, c);
    if s.callers[l.caller].row.chain == At(s, c).row.chain {
      assert InOrder(s.rows, At(s, l.caller).digest, At(s, c).digest);
    }
  }

  lemma SameCaller(s: State, l: Label, lifetime: int, c: nat)
    requires Enabled(s, l) && !At(Next(s, l, lifetime), c).Idle? && !At(s, c).Idle?
    ensures At(Next(s, l, lifetime), c).row == At(s, c).row && !(l.Insert? && l.caller == c)
  {
  }

  lemma NewCaller(s: State, l: Label, lifetime: int, c: nat)
    requires Enabled(s, l) && !At(Next(s, l, lifetime), c).Idle? && At(s, c).Idle?
    ensures l.LookUp? && l.caller == c && Next(s, l, lifetime).rows == s.rows
  {
  }

  lemma StepPlaceFree(s: State, l: Label, lifetime: int, c: nat)
    requires Rooted(s) && PlacesFree(s) && NoOverlap(s) && Enabled(s, l) && !At(Next(s, l, lifetime), c).Idle?
    ensures Free(Next(s, l, lifetime).rows, At(Next(s, l, lifetime), c).row)
  {
    hide Next, Enabled, Rooted, NoOverlap;
    if At(s, c).Idle? {
      NewCaller(s, l, lifetime, c);
      LookUpPlaceFree(s, l, lifetime);
    } else {
      SameCaller(s, l, lifetime, c);
      OtherPlaceFree(s, l, lifetime, c);
    }
  }

  lemma StepPlacesFree(s: State, l: Label, lifetime: int)
    requires Rooted(s) && PlacesFree(s) && NoOverlap(s) && Enabled(s, l)
    ensures PlacesFree(Next(s, l, lifetime))
  {
    var t := Next(s, l, lifetime);
    StepRooted(s, l, lifetime);
    StepUnique(s, l, lifetime);
    ChainedIffUnique(s);
    ChainedIffUnique(t);
    forall c | !At(t, c).Idle? ensures Free(t.rows, At(t, c).row) {
      StepPlaceFree(s, l, lifetime, c);
    }
  }

  /** In every run in which no two rotations of one token are past their lookup together, chains hold. */
  lemma {:induction false} NoOverlapKeepsChains(s: State, ls: seq<Label>, n: nat, lifetime: int)
    requires Initial(s) && n <= |ls|
    requires forall i :: 0 <= i < n ==> NoOverlap(StateAt(s, ls, i, lifetime))
    ensures PlacesFree(StateAt(s, ls, n, lifetime))
  {
    if n > 0 {
      NoOverlapKeepsChains(s, ls, n - 1, lifetime);
      AlwaysRooted(s, ls, n - 1, lifetime);
      if Enabled(StateAt(s, ls, n - 1, lifetime), ls[n - 1]) {
        StepPlacesFree(StateAt(s, ls, n - 1, lifetime), ls[n - 1], lifetime);
      }
    }
  }

  function OverlapRun(raw: string, one: string, two: string, now: int): seq<Label> {
    [LookUp(0, raw, true, now), LookUp(1, raw, true, now), Save(0, true, now), Insert(0, one, true, now),
     Save(1, true, now), Insert(1, two, true, now)]
  }

  /** From any state, two rotations of a valid token that look it up before either saves leave two valid tokens at one
      place of its chain. */
  lemma OverlappingRotations(s: State, raw: string, one: string, two: string, now: int, lifetime: int)
    requires At(s, 0).Idle? && At(s, 1).Idle? && lifetime > 0 && Validate(s.rows, raw, now).Ok?
    requires one != two && Inserts(s.rows, one, true) && Inserts(s.rows, two, true)
    ensures
      var t := StateAt(s, OverlapRun(raw, one, two, now), 6, lifetime);
      && Validate(t.rows, one, now).Ok? && Validate(t.rows, two, now).Ok?
      && t.rows[Sha256(one)].chain == t.rows[Sha256(two)].chain == s.rows[Sha256(raw)].chain
      && !Chained(Table(t))
  {
    var ls := OverlapRun(raw, one, two, now);
    var row := Validate(s.rows, raw, now).value;
    var s1 := s.(callers := s.callers[0 := Found(Sha256(raw), row)]);
    var s2 := s1.(callers := s1.callers[1 := Found(Sha256(raw), row)]);
    var s3 := s2.(rows := s2.rows[Sha256(raw) := Revoke(row, now)],
                  callers := s2.callers[0 := Saved(Sha256(raw), row)]);
    var s4 := s3.(rows := s3.rows[Sha256(one) := Successor(row, now, lifetime)], callers := s3.callers[0 := Idle]);
    var s5 := s4.(rows := s4.rows[Sha256(raw) := Revoke(row, now)],
                  callers := s4.callers[1 := Saved(Sha256(raw), row)]);
    var s6 := s5.(rows := s5.rows[Sha256(two) := Successor(row, now, lifetime)], callers := s5.callers[1 := Idle]);
    Unfold(s, ls, 0, s, s1, lifetime);
    Unfold(s, ls, 1, s1, s2, lifetime);
    Unfold(s, ls, 2, s2, s3, lifetime);
    Unfold(s, ls, 3, s3, s4, lifetime);
    Unfold(s, ls, 4, s4, s5, lifetime);
    Unfold(s, ls, 5, s5, s6, lifetime);
    assert !InOrder(s6.rows, Sha256(one), Sha256(two));
  }

  lemma Unfold(s: State, ls: seq<Label>, n: nat, before: State, after: State, lifetime: int)
    requires n < |ls| && StateAt(s, ls, n, lifetime) == before
    requires Enabled(before, ls[n]) && Next(before, ls[n], lifetime) == after
    ensures StateAt(s, ls, n + 1, lifetime) == after
  {
  }

  // ---- Exactly when revoking all lasts ----

  /** A rotation of one of the user's tokens is past its lookup. */
  predicate Rotating(s: State, c: nat, user: Uuid) {
    !At(s, c).Idle? && At(s, c).row.user == user
  }

  predicate NoLogin(ls: seq<Label>, user: Uuid) {
    forall i :: 0 <= i < |ls| && ls[i].Whole? && ls[i].op.Generate? ==> ls[i].op.user != user
  }

  ghost predicate NeverLive(s: State, ls: seq<Label>, user: Uuid, lifetime: int) {
    forall n, now :: 0 <= n <= |ls| ==> Live(StateAt(s, ls, n, lifetime).rows, user, now) == {}
  }

  ghost predicate Shut(s: State, user: Uuid) {
    && (forall d :: d in s.rows && s.rows[d].user == user ==> IsRevoked(s.rows[d]))
    && (forall c :: !Rotating(s, c, user))
  }

  lemma StepShut(s: State, l: Label, user: Uuid, lifetime: int)
    requires Shut(s, user) && Enabled(s, l) && !(l.Whole? && l.op.Generate? && l.op.user == user)
    ensures Shut(Next(s, l, lifetime), user)
  {
    var t := Next(s, l, lifetime);
    forall c ensures !Rotating(t, c, user) {
      assert !Rotating(s, c, user);
    }
    forall d | d in t.rows && t.rows[d].user == user ensures IsRevoked(t.rows[d]) {
      if l.Insert? {
        assert !Rotating(s, l.caller, user);
      }
    }
  }

  lemma {:induction false} StaysShut(s: State, ls: seq<Label>, n: nat, user: Uuid, lifetime: int)
    requires Shut(s, user) && NoLogin(ls, user) && n <= |ls|
    ensures Shut(StateAt(s, ls, n, lifetime), user)
  {
    if n > 0 {
      StaysShut(s, ls, n - 1, user, lifetime);
      if Enabled(StateAt(s, ls, n - 1, lifetime), ls[n - 1]) {
        StepShut(StateAt(s, ls, n - 1, lifetime), ls[n - 1], user, lifetime);
      }
    }
  }

  lemma {:induction false} FreshAmong(digests: set<Digest>) returns (length: nat)
    ensures forall d :: d in digests ==> |d.raw| < length
  {
    if digests == {} {
      length := 0;
    } else {
      var d :| d in digests;
      var rest := FreshAmong(digests - {d});
      length := if rest > |d.raw| then rest else |d.raw| + 1;
    }
  }

  function Token(length: nat): string {
    seq(length, _ => '0')
  }

  /** The two steps a caller past its lookup has left. */
  function Remaining(c: nat, minted: string, now: int): seq<Label> {
    [Save(c, true, now), Insert(c, minted, true, now)]
  }

  lemma RotationRevives(s: State, c: nat, user: Uuid, minted: string, lifetime: int)
    requires Rotating(s, c, user) && lifetime > 0 && Knows(s, c) && Sha256(minted) !in s.rows
    ensures Sha256(minted) in Live(StateAt(s, Remaining(c, minted, 0), 2, lifetime).rows, user, 0)
  {
    var ls := Remaining(c, minted, 0);
    var s1 := if Enabled(s, ls[0]) then Next(s, ls[0], lifetime) else s;
    if Enabled(s, ls[0]) {
      Unfold(s, ls, 0, s, s1, lifetime);
    } else {
      assert StateAt(s, ls, 1, lifetime) == s by {
        assert StateAt(s, ls, 0, lifetime) == s;
      }
    }
    assert Enabled(s1, ls[1]) && s1.callers[c].row == s.callers[c].row;
    assert Sha256(minted) !in s1.rows;
    assert StateAt(s, ls, 2, lifetime) == Next(s1, ls[1], lifetime);
  }

  lemma RevokeAllShuts(s: State, user: Uuid, now: int, lifetime: int)
    ensures
      var t := Next(s, Whole(RevokeAll(user, true), now), lifetime);
      && (forall d :: d in t.rows && t.rows[d].user == user ==> IsRevoked(t.rows[d]))
      && t.callers == s.callers
  {
  }

  lemma ShutMeansNeverLive(s: State, ls: seq<Label>, user: Uuid, lifetime: int)
    requires Shut(s, user) && NoLogin(ls, user)
    ensures NeverLive(s, ls, user, lifetime)
  {
    forall n, now | 0 <= n <= |ls| ensures Live(StateAt(s, ls, n, lifetime).rows, user, now) == {} {
      StaysShut(s, ls, n, user, lifetime);
    }
  }

  lemma RotatingMeansLive(s: State, c: nat, user: Uuid, lifetime: int) returns (ls: seq<Label>)
    requires Rotating(s, c, user) && lifetime > 0 && Knows(s, c)
    ensures NoLogin(ls, user) && !NeverLive(s, ls, user, lifetime)
  {
    var length := FreshAmong(s.rows.Keys);
    assert Sha256(Token(length)) !in s.rows;
    RotationRevives(s, c, user, Token(length), lifetime);
    ls := Remaining(c, Token(length), 0);
  }

  /** After revoking all of a user's tokens the user has no live token, whatever calls follow short of a new login, if
      and only if no rotation of theirs was past its lookup. */
  lemma RevokeAllLastsIff(s: State, user: Uuid, now: int, lifetime: int)
    requires Rooted(s) && lifetime > 0
    ensures
      var t := Next(s, Whole(RevokeAll(user, true), now), lifetime);
      (forall ls :: NoLogin(ls, user) ==> NeverLive(t, ls, user, lifetime)) <==> (forall c :: !Rotating(s, c, user))
  {
    hide Next, Knows, NoLogin, NeverLive, HasRevokedParent;
    var t := Next(s, Whole(RevokeAll(user, true), now), lifetime);
    RevokeAllShuts(s, user, now, lifetime);
    StepRooted(s, Whole(RevokeAll(user, true), now), lifetime);
    if c :| Rotating(s, c, user) {
      assert Rotating(t, c, user) && Knows(t, c);
      var ls := RotatingMeansLive(t, c, user, lifetime);
    } else {
      assert forall c :: Rotating(t, c, user) == Rotating(s, c, user);
      forall ls | NoLogin(ls, user) ensures NeverLive(t, ls, user, lifetime) {
        ShutMeansNeverLive(t, ls, user, lifetime);
      }
    }
  }
}
