// internal/permission with the memory driver under concurrency: the lookup, the decision and the store of a call
// are separate steps that interleave with other callers, policy edits, reloads, clears and the passing of time.
// Each driver call is one step because the driver holds its mutex throughout, clock reading included.

module Staleness {
  import opened Wrappers
  import opened Text
  import opened TimedMap
  import opened CacheKeys
  import opened Policies
  import opened CachedDecisions

  /** Where a caller of EnforceWithCache stands. */
  datatype Caller = Idle | Missed(q: Request) | Decided(q: Request, allowed: bool)

  datatype State = State(
    now: int,
    stored: Policy,
    loaded: Policy,
    data: Data,
    ttl: int,
    callers: map<nat, Caller>)

  /** A caller leaves without an answer when the engine fails, or when its call is broken off. */
  datatype Label =
    | Lookup(caller: nat, q: Request, fails: bool)
    | Enforce(caller: nat)
    | Store(caller: nat, fails: bool)
    | Leave(caller: nat)
    | EditStored(policy: Policy)
    | EditLoaded(policy: Policy)
    | LoadPolicy
    | Clear(pattern: string)
    | Invalidate(key: string)
    | SetTTL(ttl: int)
    | OtherWrite(key: string, entry: Entry)
    | Tick(elapsed: nat)

  function At(s: State, caller: nat): Caller {
    if caller in s.callers then s.callers[caller] else Idle
  }

  predicate Enabled(s: State, l: Label) {
    match l
    case Lookup(c, _, _) => At(s, c).Idle?
    case Enforce(c) => At(s, c).Missed?
    case Store(c, _) => At(s, c).Decided?
    case Leave(c) => !At(s, c).Idle?
    case OtherWrite(key, _) => !HasPrefix(key, PREFIX)
    case _ => true
  }

  predicate Hits(s: State, q: Request, fails: bool) {
    !fails && Live(s.data, CacheKey(q), s.now)
  }

  function Next(s: State, l: Label): State
    requires Enabled(s, l)
  {
    match l
    case Lookup(c, q, fails) => if Hits(s, q, fails) then s else s.(callers := s.callers[c := Missed(q)])
    case Enforce(c) => s.(callers := s.callers[c := Decided(At(s, c).q, Decide(s.loaded, At(s, c).q))])
    case Store(c, fails) =>
      var after := s.(callers := s.callers[c := Idle]);
      if fails then after
      else
        var entry := Entry(Bit(At(s, c).allowed), Expiry(s.now, TtlSeconds(s.ttl)));
        after.(data := s.data[CacheKey(At(s, c).q) := entry])
    case Leave(c) => s.(callers := s.callers[c := Idle])
    case EditStored(policy) => s.(stored := policy)
    case EditLoaded(policy) => s.(loaded := policy)
    case LoadPolicy => s.(loaded := s.stored)
    case Clear(pattern) => s.(data := Cleared(s.data, pattern))
    case Invalidate(key) => s.(data := s.data - {key})
    case SetTTL(ttl) => s.(ttl := if ttl > 0 then ttl else s.ttl)
    case OtherWrite(key, entry) => s.(data := s.data[key := entry])
    case Tick(elapsed) => s.(now := s.now + elapsed)
  }

  datatype Answer = Answer(q: Request, allowed: bool)

  /** What a step returns to its caller: a hit at lookup, or the fresh decision after storing it. */
  function AnswerOf(s: State, l: Label): Option<Answer> {
    match l
    case Lookup(c, q, fails) =>
      if At(s, c).Idle? && Hits(s, q, fails) then Some(Answer(q, s.data[CacheKey(q)].value == "1")) else None
    case Store(c, _) => if At(s, c).Decided? then Some(Answer(At(s, c).q, At(s, c).allowed)) else None
    case _ => None
  }

  ghost predicate Initial(s: State) {
    s.ttl > 0 && s.callers == map[] && forall key :: key in s.data ==> !HasPrefix(key, PREFIX)
  }

  /** The state after the first n steps; a step that is not enabled is skipped. */
  function StateAt(s: State, ls: seq<Label>, n: nat): State
    requires n <= |ls|
  {
    if n == 0 then s
    else
      var before := StateAt(s, ls, n - 1);
      if Enabled(before, ls[n - 1]) then Next(before, ls[n - 1]) else before
  }

  function AnswerAt(s: State, ls: seq<Label>, n: nat): Option<Answer>
    requires n < |ls|
  {
    AnswerOf(StateAt(s, ls, n), ls[n])
  }

  ghost predicate EnabledAt(s: State, ls: seq<Label>, n: nat)
    requires n < |ls|
  {
    Enabled(StateAt(s, ls, n), ls[n])
  }

  ghost predicate Run(s: State, ls: seq<Label>) {
    Initial(s) && forall n :: 0 <= n < |ls| ==> EnabledAt(s, ls, n)
  }

  /** A run whose callers ask for requests that keys tell apart. */
  ghost predicate RunOver(requests: iset<Request>, s: State, ls: seq<Label>) {
    && Run(s, ls) && KeyInjective(requests)
    && forall n :: 0 <= n < |ls| && ls[n].Lookup? ==> ls[n].q in requests
  }

  lemma Advance(s: State, ls: seq<Label>, n: nat)
    requires Run(s, ls) && n < |ls|
    ensures Enabled(StateAt(s, ls, n), ls[n])
    ensures StateAt(s, ls, n + 1) == Next(StateAt(s, ls, n), ls[n])
  {
    assert EnabledAt(s, ls, n);
  }

  lemma {:induction false} NowMonotone(s: State, ls: seq<Label>, i: nat, n: nat)
    requires i <= n <= |ls|
    ensures StateAt(s, ls, i).now <= StateAt(s, ls, n).now
  {
    if i < n {
      NowMonotone(s, ls, i, n - 1);
    }
  }

  lemma {:induction false} TtlPositive(s: State, ls: seq<Label>, n: nat)
    requires Initial(s) && n <= |ls|
    ensures StateAt(s, ls, n).ttl > 0
  {
    if n > 0 {
      TtlPositive(s, ls, n - 1);
    }
  }

  lemma Unfold(s: State, ls: seq<Label>, n: nat, l: Label, before: State, after: State)
    requires n < |ls| && ls[n] == l && StateAt(s, ls, n) == before
    requires Enabled(before, l) && Next(before, l) == after
    ensures StateAt(s, ls, n + 1) == after && EnabledAt(s, ls, n)
  {
  }

  /** Uninterrupted, the three steps of a call are the call: the same answer and the same cache afterwards. */
  lemma CallIsItsSteps(s: State, c: nat, q: Request, lookupFails: bool, storeFails: bool)
    requires At(s, c).Idle?
    ensures
      var f := Faults(lookupFails, storeFails, false);
      var (answer, after) := CachedEnforce(s.data, s.loaded, s.ttl, q, s.now, s.now, f);
      var ls := [Lookup(c, q, lookupFails), Enforce(c), Store(c, storeFails)];
      var t := StateAt(s, ls, 3);
      && t.data == after && At(t, c).Idle?
      && Some(Answer(q, answer.value)) ==
           (if AnswerAt(s, ls, 0).Some? then AnswerAt(s, ls, 0) else AnswerAt(s, ls, 2))
  {
    var ls := [Lookup(c, q, lookupFails), Enforce(c), Store(c, storeFails)];
    var s1 := Next(s, ls[0]);
    Unfold(s, ls, 0, ls[0], s, s1);
    if Enabled(s1, ls[1]) {
      var s2 := Next(s1, ls[1]);
      Unfold(s, ls, 1, ls[1], s1, s2);
      Unfold(s, ls, 2, ls[2], s2, Next(s2, ls[2]));
    } else {
      assert StateAt(s, ls, 2) == s1;
    }
  }

  /** A request whose key has been invalidated is looked up in vain. */
  lemma InvalidatedMisses(s: State, q: Request, fails: bool)
    ensures !Hits(Next(s, Invalidate(CacheKey(q))), q, fails)
  {
  }

  /** A new ttl, if positive, counts from the next store on. */
  lemma NewTtlCounts(s: State, ttl: int, c: nat)
    requires At(s, c).Decided?
    ensures
      var key := CacheKey(At(s, c).q);
      var t := Next(Next(s, SetTTL(ttl)), Store(c, false));
      key in t.data && t.data[key].expiresAt == s.now + (if ttl > 0 then ttl else s.ttl) / 1_000_000_000 * 1_000_000_000
  {
  }

  /** A call that is broken off stores nothing and leaves its caller free for the next one. */
  lemma LeavingStoresNothing(s: State, c: nat)
    requires Enabled(s, Leave(c))
    ensures Next(s, Leave(c)).data == s.data && At(Next(s, Leave(c)), c).Idle?
    ensures forall d :: d != c ==> At(Next(s, Leave(c)), d) == At(s, d)
  {
  }

  // ---- Where decisions and entries come from ----

  /** Caller `c` decided `q` at step j and has held that decision up to state n. */
  ghost predicate HeldSince(s: State, ls: seq<Label>, j: nat, n: nat, c: nat, q: Request, allowed: bool)
    requires n <= |ls|
  {
    && j < n && ls[j] == Enforce(c)
    && allowed == Decide(StateAt(s, ls, j).loaded, q)
    && forall r :: j < r <= n ==> At(StateAt(s, ls, r), c) == Decided(q, allowed)
  }

  lemma StepToDecided(s: State, l: Label, c: nat)
    requires Enabled(s, l) && At(Next(s, l), c).Decided?
    ensures At(s, c).Decided? ==> At(Next(s, l), c) == At(s, c)
    ensures !At(s, c).Decided? ==>
      l == Enforce(c) && At(Next(s, l), c).allowed == Decide(s.loaded, At(Next(s, l), c).q)
  {
  }

  lemma {:induction false} DecisionOrigin(s: State, ls: seq<Label>, n: nat, c: nat) returns (j: nat)
    requires Run(s, ls) && n <= |ls| && At(StateAt(s, ls, n), c).Decided?
    ensures HeldSince(s, ls, j, n, c, At(StateAt(s, ls, n), c).q, At(StateAt(s, ls, n), c).allowed)
  {
    Advance(s, ls, n - 1);
    StepToDecided(StateAt(s, ls, n - 1), ls[n - 1], c);
    if At(StateAt(s, ls, n - 1), c).Decided? {
      j := DecisionOrigin(s, ls, n - 1, c);
    } else {
      j := n - 1;
    }
  }

  /** Step l stored, for caller `c`, the decision on `q` taken at step j. */
  ghost predicate StoredBy(s: State, ls: seq<Label>, j: nat, l: nat, c: nat, q: Request, allowed: bool) {
    l < |ls| && ls[l].Store? && ls[l].caller == c && HeldSince(s, ls, j, l, c, q, allowed)
  }

  predicate Stores(s: State, l: Label, key: string)
    requires Enabled(s, l)
  {
    l.Store? && !l.fails && CacheKey(At(s, l.caller).q) == key
  }

  lemma StepToEntry(s: State, l: Label, key: string)
    requires Enabled(s, l) && HasPrefix(key, PREFIX) && key in Next(s, l).data
    ensures Stores(s, l, key) ==>
      Next(s, l).data[key] == Entry(Bit(At(s, l.caller).allowed), Expiry(s.now, TtlSeconds(s.ttl)))
    ensures !Stores(s, l, key) ==> key in s.data && s.data[key] == Next(s, l).data[key]
  {
  }

  lemma {:induction false} EntryOrigin(s: State, ls: seq<Label>, n: nat, key: string)
    returns (j: nat, l: nat, c: nat, q: Request, allowed: bool)
    requires Run(s, ls) && n <= |ls| && HasPrefix(key, PREFIX) && key in StateAt(s, ls, n).data
    ensures l < n && StoredBy(s, ls, j, l, c, q, allowed) && CacheKey(q) == key
    ensures StateAt(s, ls, n).data[key] ==
      Entry(Bit(allowed), Expiry(StateAt(s, ls, l).now, TtlSeconds(StateAt(s, ls, l).ttl)))
  {
    Advance(s, ls, n - 1);
    var before := StateAt(s, ls, n - 1);
    StepToEntry(before, ls[n - 1], key);
    if Stores(before, ls[n - 1], key) {
      l, c := n - 1, ls[n - 1].caller;
      q, allowed := At(before, c).q, At(before, c).allowed;
      j := DecisionOrigin(s, ls, l, c);
    } else {
      j, l, c, q, allowed := EntryOrigin(s, ls, n - 1, key);
    }
  }

  lemma StepKeepsRequest(s: State, l: Label, c: nat)
    requires Enabled(s, l) && !At(Next(s, l), c).Idle?
    ensures At(s, c).Idle? ==> l.Lookup? && At(Next(s, l), c).q == l.q
    ensures !At(s, c).Idle? ==> At(Next(s, l), c).q == At(s, c).q
  {
  }

  lemma {:induction false} CallersAsk(requests: iset<Request>, s: State, ls: seq<Label>, n: nat, c: nat)
    requires RunOver(requests, s, ls) && n <= |ls|
    ensures !At(StateAt(s, ls, n), c).Idle? ==> At(StateAt(s, ls, n), c).q in requests
  {
    if n > 0 && !At(StateAt(s, ls, n), c).Idle? {
      Advance(s, ls, n - 1);
      StepKeepsRequest(StateAt(s, ls, n - 1), ls[n - 1], c);
      CallersAsk(requests, s, ls, n - 1, c);
    }
  }

  // ---- Bounded staleness ----

  /** The n-th step's answer is the decision that the policy loaded at step j gave on the same request, and
      that decision was stored at step l, at most the ttl of that store before the answer. */
  ghost predicate FreshWithin(s: State, ls: seq<Label>, n: nat, answer: Answer, j: nat, l: nat, c: nat)
    requires n < |ls|
  {
    && l <= n && StoredBy(s, ls, j, l, c, answer.q, answer.allowed)
    && answer.allowed == Decide(StateAt(s, ls, j).loaded, answer.q)
    && StateAt(s, ls, n).now - StateAt(s, ls, l).now <= StateAt(s, ls, l).ttl
  }

  lemma HitIsFresh(requests: iset<Request>, s: State, ls: seq<Label>, n: nat)
    returns (j: nat, l: nat, c: nat)
    requires RunOver(requests, s, ls) && n < |ls| && ls[n].Lookup? && AnswerAt(s, ls, n).Some?
    ensures FreshWithin(s, ls, n, AnswerAt(s, ls, n).value, j, l, c)
  {
    var r := ls[n].q;
    KeyShape(r);
    var q, allowed;
    j, l, c, q, allowed := EntryOrigin(s, ls, n, CacheKey(r));
    assert At(StateAt(s, ls, l), c) == Decided(q, allowed);
    CallersAsk(requests, s, ls, l, c);
  }

  /** In every interleaving every answer is some loaded policy's decision, no older than the ttl plus the time its
      caller took from deciding to storing. */
  lemma BoundedStaleness(requests: iset<Request>, s: State, ls: seq<Label>, n: nat)
    requires RunOver(requests, s, ls) && n < |ls| && AnswerAt(s, ls, n).Some?
    ensures exists j: nat, l: nat, c: nat :: FreshWithin(s, ls, n, AnswerAt(s, ls, n).value, j, l, c)
  {
    if ls[n].Store? {
      var c := ls[n].caller;
      var j := DecisionOrigin(s, ls, n, c);
      TtlPositive(s, ls, n);
      assert FreshWithin(s, ls, n, AnswerAt(s, ls, n).value, j, n, c);
    } else {
      var j, l, c := HitIsFresh(requests, s, ls, n);
    }
  }

  /** Every caller holding a decision at step m has put it down by step q. */
  ghost predicate AllStoredBy(s: State, ls: seq<Label>, m: nat, q: nat)
    requires m <= q <= |ls|
  {
    forall c :: At(StateAt(s, ls, m), c).Decided? ==> exists r :: m <= r <= q && !At(StateAt(s, ls, r), c).Decided?
  }

  lemma OldDecisionsAreStored(s: State, ls: seq<Label>, m: nat, q: nat, j: nat, l: nat, c: nat, r: Request,
                              allowed: bool)
    requires m <= q <= |ls| && AllStoredBy(s, ls, m, q)
    requires StoredBy(s, ls, j, l, c, r, allowed) && j < m
    ensures l < q
  {
    if m <= l {
      assert At(StateAt(s, ls, m), c) == Decided(r, allowed);
      var i :| m <= i <= q && !At(StateAt(s, ls, i), c).Decided?;
      assert l < i;
    }
  }

  /** Once reloads have stopped (from m on), every caller that was holding a decision has stored it (by q), and more
      than the longest ttl in use has passed, every answer is the final policy's, whatever clears raced with reloads. */
  lemma AnswersConverge(requests: iset<Request>, s: State, ls: seq<Label>, m: nat, q: nat, n: nat, final: Policy,
                        longest: int)
    requires RunOver(requests, s, ls) && m <= q <= n < |ls|
    requires forall i :: m <= i <= n ==> StateAt(s, ls, i).loaded == final
    requires AllStoredBy(s, ls, m, q)
    requires forall i :: 0 <= i <= q ==> StateAt(s, ls, i).ttl <= longest
    requires StateAt(s, ls, n).now - StateAt(s, ls, q).now > longest
    requires AnswerAt(s, ls, n).Some?
    ensures
      var answer := AnswerAt(s, ls, n).value;
      answer.allowed == Decide(final, answer.q)
  {
    BoundedStaleness(requests, s, ls, n);
    var answer := AnswerAt(s, ls, n).value;
    var j: nat, l: nat, c: nat :| FreshWithin(s, ls, n, answer, j, l, c);
    if j < m {
      OldDecisionsAreStored(s, ls, m, q, j, l, c, answer.q, answer.allowed);
      NowMonotone(s, ls, l, q);
      assert false;
    }
  }

  // ---- Requests must be told apart by their keys ----

  function SharedKeyRun(q: Request, r: Request): seq<Label> {
    [Lookup(0, q, false), Enforce(0), Store(0, false), Lookup(1, r, false)]
  }

  function OneRuleState(q: Request, ttl: int): State {
    State(0, Policy({q}, {}, 0), Policy({q}, {}, 0), map[], ttl, map[])
  }

  /** For any two requests with one key there is a run that asks for just these two and answers one of them as no policy
      loaded in the run decides it: the staleness bound holds for a set of requests only if keys tell them apart. */
  lemma SharedKeyBreaksBound(q: Request, r: Request, ttl: int)
    requires ttl > 0 && q != r && CacheKey(q) == CacheKey(r)
    ensures
      var s, ls := OneRuleState(q, ttl), SharedKeyRun(q, r);
      && Run(s, ls) && AnswerAt(s, ls, 3) == Some(Answer(r, true))
      && forall j :: 0 <= j <= 3 ==> !Decide(StateAt(s, ls, j).loaded, r)
  {
    var s, ls := OneRuleState(q, ttl), SharedKeyRun(q, r);
    OnlyRuleDecides(q, q, 0);
    OnlyRuleDecides(q, r, 0);
    var s1 := s.(callers := map[0 := Missed(q)]);
    var s2 := s.(callers := s1.callers[0 := Decided(q, true)]);
    var s3 := s.(callers := s2.callers[0 := Idle], data := map[CacheKey(q) := Entry("1", Expiry(0, TtlSeconds(ttl)))]);
    Unfold(s, ls, 0, Lookup(0, q, false), s, s1);
    Unfold(s, ls, 1, Enforce(0), s1, s2);
    Unfold(s, ls, 2, Store(0, false), s2, s3);
    assert EnabledAt(s, ls, 3);
  }

  // ---- The window between clear and reload ----

  /** A call that runs between the clear and the reload of an invalidation stores the old policy's decision. */
  function WindowRun(q: Request, policy: Policy, elapsed: nat): seq<Label> {
    [EditStored(policy), Label.Clear(PREFIX + "*"), Lookup(0, q, false), Enforce(0), Store(0, false), Label.LoadPolicy,
     Tick(elapsed), Lookup(1, q, false)]
  }

  function WindowEntry(s: State, q: Request): Entry {
    Entry(Bit(Decide(s.loaded, q)), Expiry(s.now, TtlSeconds(s.ttl)))
  }

  lemma WindowStart(s: State, q: Request, policy: Policy, elapsed: nat)
    requires Initial(s)
    ensures
      var ls := WindowRun(q, policy, elapsed);
      && StateAt(s, ls, 3) ==
           s.(stored := policy, data := Cleared(s.data, PREFIX + "*"), callers := map[0 := Missed(q)])
      && EnabledAt(s, ls, 0) && EnabledAt(s, ls, 1) && EnabledAt(s, ls, 2)
  {
    var ls := WindowRun(q, policy, elapsed);
    KeyShape(q);
    AllPatternMatches(CacheKey(q));
    var s1 := s.(stored := policy);
    var s2 := s1.(data := Cleared(s.data, PREFIX + "*"));
    Unfold(s, ls, 0, EditStored(policy), s, s1);
    Unfold(s, ls, 1, Label.Clear(PREFIX + "*"), s1, s2);
    assert CacheKey(q) !in s2.data;
    Unfold(s, ls, 2, Lookup(0, q, false), s2, s2.(callers := map[0 := Missed(q)]));
  }

  lemma WindowDecide(s: State, q: Request, policy: Policy, elapsed: nat)
    requires Initial(s)
    ensures
      var ls := WindowRun(q, policy, elapsed);
      && StateAt(s, ls, 4) == StateAt(s, ls, 3).(callers := map[0 := Decided(q, Decide(s.loaded, q))])
      && EnabledAt(s, ls, 3)
  {
    var ls := WindowRun(q, policy, elapsed);
    WindowStart(s, q, policy, elapsed);
    var s3 := StateAt(s, ls, 3);
    assert s3.callers[0 := Decided(q, Decide(s.loaded, q))] == map[0 := Decided(q, Decide(s.loaded, q))];
    Unfold(s, ls, 3, Enforce(0), s3, s3.(callers := map[0 := Decided(q, Decide(s.loaded, q))]));
  }

  lemma WindowStore(s: State, q: Request, policy: Policy, elapsed: nat)
    requires Initial(s)
    ensures
      var ls := WindowRun(q, policy, elapsed);
      var s4, s5 := StateAt(s, ls, 4), StateAt(s, ls, 5);
      && s5 == s4.(callers := map[0 := Idle], data := s4.data[CacheKey(q) := WindowEntry(s, q)])
      && EnabledAt(s, ls, 4)
  {
    var ls := WindowRun(q, policy, elapsed);
    WindowStart(s, q, policy, elapsed);
    WindowDecide(s, q, policy, elapsed);
    var s4 := StateAt(s, ls, 4);
    assert s4.callers[0 := Idle] == map[0 := Idle];
    Unfold(s, ls, 4, Store(0, false), s4,
           s4.(callers := map[0 := Idle], data := s4.data[CacheKey(q) := WindowEntry(s, q)]));
  }

  lemma WindowEnd(s: State, q: Request, policy: Policy, elapsed: nat)
    requires Initial(s)
    ensures
      var ls := WindowRun(q, policy, elapsed);
      var t := StateAt(s, ls, 7);
      && RunOver(iset{q}, s, ls)
      && t.loaded == policy && t.now == s.now + elapsed && At(t, 1).Idle?
      && CacheKey(q) in t.data && t.data[CacheKey(q)] == WindowEntry(s, q)
  {
    hide Decide, Cleared;
    var ls := WindowRun(q, policy, elapsed);
    WindowStart(s, q, policy, elapsed);
    WindowDecide(s, q, policy, elapsed);
    WindowStore(s, q, policy, elapsed);
    var s5 := StateAt(s, ls, 5);
    var s6 := s5.(loaded := policy);
    var s7 := s6.(now := s.now + elapsed);
    Unfold(s, ls, 5, Label.LoadPolicy, s5, s6);
    Unfold(s, ls, 6, Tick(elapsed), s6, s7);
    assert EnabledAt(s, ls, 7);
  }

  /** After such a call the new policy is loaded, yet the old decision is answered until the ttl, cut to whole seconds,
      has passed, and not after. */
  lemma WindowKeepsOldDecision(s: State, q: Request, policy: Policy, elapsed: nat)
    requires Initial(s) && Decide(s.loaded, q) != Decide(policy, q)
    ensures
      var ls := WindowRun(q, policy, elapsed);
      && RunOver(iset{q}, s, ls)
      && StateAt(s, ls, 7).loaded == policy
      && (AnswerAt(s, ls, 7) ==
          if elapsed <= s.ttl / 1_000_000_000 * 1_000_000_000 then Some(Answer(q, !Decide(policy, q))) else None)
  {
    hide Decide, RunOver, StateAt;
    WindowEnd(s, q, policy, elapsed);
  }
}
