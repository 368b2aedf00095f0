// internal/permission: the decision cache in front of the policy engine, one call at a time.
// Failing calls of the cache driver, the policy engine and the database are inputs.

module CachedDecisions {
  import opened Wrappers
  import opened Text
  import opened Patterns
  import opened TimedMap
  import opened CacheKeys
  import opened Policies

  const DEFAULT_TTL: int := 5 * 60 * SECOND

  function Bit(allowed: bool): string {
    if allowed then "1" else "0"
  }

  /** The driver counts whole seconds; a positive duration is cut down to them. */
  function TtlSeconds(ttl: int): int {
    ttl / SECOND
  }

  /** What the driver is given is the configured ttl, short of a part of a second. */
  lemma TtlIsCutToSeconds(ttl: int)
    requires ttl > 0
    ensures TtlSeconds(ttl) * SECOND <= ttl < (TtlSeconds(ttl) + 1) * SECOND
    ensures TtlSeconds(ttl) >= 0
  {
  }

  datatype Faults = Faults(lookup: bool, store: bool, engine: bool)

  function Enforce(loaded: Policy, q: Request, f: Faults): Result<bool, string> {
    if f.engine then Err("enforcement failed") else Ok(Decide(loaded, q))
  }

  /** EnforceWithCache as a function: its answer and the cache afterwards. */
  function CachedEnforce(data: Data, loaded: Policy, ttl: int, q: Request, now: int, later: int, f: Faults)
    : (Result<bool, string>, Data)
  {
    var key := CacheKey(q);
    if !f.lookup && Live(data, key, now) then (Ok(data[key].value == "1"), data)
    else
      var answer := Enforce(loaded, q, f);
      if answer.Err? || f.store then (answer, data)
      else (answer, data[key := Entry(Bit(answer.value), Expiry(later, TtlSeconds(ttl)))])
  }

  /** Every entry of a request in play holds the loaded policy's decision on that request. */
  ghost predicate Agrees(requests: iset<Request>, data: Data, loaded: Policy) {
    forall q :: q in requests && CacheKey(q) in data ==> data[CacheKey(q)].value == Bit(Decide(loaded, q))
  }

  /** Over an agreeing cache and requests that their keys tell apart, a cached check is the check itself, whatever
      driver calls fail, and the cache agrees afterwards. */
  lemma CachedEnforceIsEnforce(requests: iset<Request>, data: Data, loaded: Policy, ttl: int, q: Request, now: int,
                               later: int, f: Faults)
    requires KeyInjective(requests) && q in requests && Agrees(requests, data, loaded)
    ensures
      var (answer, after) := CachedEnforce(data, loaded, ttl, q, now, later, f);
      && Agrees(requests, after, loaded)
      && (answer.Ok? ==> answer == Ok(Decide(loaded, q)))
      && (answer.Err? ==> f.engine)
  {
    var after := CachedEnforce(data, loaded, ttl, q, now, later, f).1;
    forall r | r in requests && CacheKey(r) in after
      ensures after[CacheKey(r)].value == Bit(Decide(loaded, r))
    {
      if CacheKey(r) != CacheKey(q) {
        assert CacheKey(r) in data && after[CacheKey(r)] == data[CacheKey(r)];
      }
    }
  }

  /** A decision that is stored is answered again, whatever the loaded policy says by then, until the ttl is over, and
      not after; the end is exact to the whole second. */
  lemma StoredDecisionLasts(data: Data, before: Policy, loaded: Policy, ttl: int, q: Request, now: int, later: int,
                            again: int)
    requires ttl > 0 && !Live(data, CacheKey(q), now)
    ensures
      var none := Faults(false, false, false);
      var (first, after) := CachedEnforce(data, before, ttl, q, now, later, none);
      var second := CachedEnforce(after, loaded, ttl, q, again, again, none).0;
      && first == Ok(Decide(before, q))
      && (again <= later + ttl / 1_000_000_000 * 1_000_000_000 ==> second == first)
      && (again > later + ttl / 1_000_000_000 * 1_000_000_000 ==> second == Ok(Decide(loaded, q)))
      && (again > later + ttl ==> second == Ok(Decide(loaded, q)))
  {
    TtlIsCutToSeconds(ttl);
  }

  // ---- Which requests the cache is transparent for ----

  /** The answer to r checked just after q, from an empty cache and with no failing call. */
  function SecondAnswer(loaded: Policy, ttl: int, now: int, q: Request, r: Request): Result<bool, string> {
    var f := Faults(false, false, false);
    CachedEnforce(CachedEnforce(map[], loaded, ttl, q, now, now, f).1, loaded, ttl, r, now, now, f).0
  }

  lemma SecondAnswerIs(loaded: Policy, ttl: int, now: int, q: Request, r: Request)
    requires ttl > 0
    ensures SecondAnswer(loaded, ttl, now, q, r) == Ok(Decide(loaded, if CacheKey(q) == CacheKey(r) then q else r))
  {
  }

  lemma OnlyRuleDecides(rule: Rule, q: Request, depth: nat)
    ensures Decide(Policy({rule}, {}, depth), q) <==> q == rule
  {
    assert HasRole({}, q.sub, rule.sub, q.dom, depth) <==> q.sub == rule.sub;
    if q == rule {
      assert Grants(Policy({rule}, {}, depth), rule, q);
    }
  }

  /** Some policy gives r, checked after q, an answer that is not its own, exactly when r is another request with q's
      key. */
  lemma ForeignAnswer(ttl: int, now: int, q: Request, r: Request)
    requires ttl > 0
    ensures (exists loaded :: SecondAnswer(loaded, ttl, now, q, r) != Ok(Decide(loaded, r))) <==>
      CacheKey(q) == CacheKey(r) && q != r
  {
    forall loaded ensures SecondAnswer(loaded, ttl, now, q, r) ==
      Ok(Decide(loaded, if CacheKey(q) == CacheKey(r) then q else r))
    {
      SecondAnswerIs(loaded, ttl, now, q, r);
    }
    if CacheKey(q) == CacheKey(r) && q != r {
      OnlyRuleDecides(q, q, 0);
      OnlyRuleDecides(q, r, 0);
      assert SecondAnswer(Policy({q}, {}, 0), ttl, now, q, r) != Ok(Decide(Policy({q}, {}, 0), r));
    }
  }

  /** The cache answers every pair of checks of a set of requests by their own decisions, under every policy, if and
      only if keys tell these requests apart. */
  lemma TransparentIffInjective(requests: iset<Request>, ttl: int, now: int)
    requires ttl > 0
    ensures
      (forall q, r, loaded :: q in requests && r in requests ==>
        SecondAnswer(loaded, ttl, now, q, r) == Ok(Decide(loaded, r))) <==> KeyInjective(requests)
  {
    forall q, r | q in requests && r in requests
      ensures (exists loaded :: SecondAnswer(loaded, ttl, now, q, r) != Ok(Decide(loaded, r))) <==>
        CacheKey(q) == CacheKey(r) && q != r
    {
      ForeignAnswer(ttl, now, q, r);
    }
  }

  /** One request can be given a foreign answer, after some other request and under some policy, if and only if one of
      its fields holds a colon. */
  lemma ForeignAnswerIffColon(ttl: int, now: int, r: Request)
    requires ttl > 0
    ensures (exists q, loaded :: SecondAnswer(loaded, ttl, now, q, r) != Ok(Decide(loaded, r))) <==> !AllColonFree(r)
  {
    CacheKeyUnique(r);
    forall q
      ensures (exists loaded :: SecondAnswer(loaded, ttl, now, q, r) != Ok(Decide(loaded, r))) <==>
        CacheKey(q) == CacheKey(r) && q != r
    {
      ForeignAnswer(ttl, now, q, r);
    }
  }

  lemma ClearedAgrees(requests: iset<Request>, data: Data, loaded: Policy)
    ensures Agrees(requests, Cleared(data, PREFIX + "*"), loaded)
  {
    forall q: Request ensures CacheKey(q) !in Cleared(data, PREFIX + "*") {
      AllPatternMatches(CacheKey(q));
      KeyShape(q);
    }
  }

  // ---- Targeted invalidation ----

  /** For a colon-free user, clearing the user's pattern drops of all requests' entries exactly those whose key some
      request of the user has, and leaves every other one as it was. */
  lemma UserInvalidationIsExact(data: Data, user: string, q: Request)
    requires ColonFree(user) && CacheKey(q) in data
    ensures
      var after := Cleared(data, UserPattern(user));
      && (CacheKey(q) in after <==> forall r :: CacheKey(r) == CacheKey(q) ==> r.sub != user)
      && (CacheKey(q) in after ==> after[CacheKey(q)] == data[CacheKey(q)])
  {
    if MatchesPattern(CacheKey(q), UserPattern(user)) {
      var r := RequestOfUser(q, user);
    }
    forall r | CacheKey(r) == CacheKey(q) && r.sub == user ensures MatchesPattern(CacheKey(q), UserPattern(user)) {
      UserPatternSelects(r, user);
    }
  }

  lemma UserInvalidationKeepsOtherKeys(data: Data, user: string, key: string)
    requires key in data && !HasPrefix(key, PREFIX + user + ":")
    ensures key in Cleared(data, UserPattern(user)) && Cleared(data, UserPattern(user))[key] == data[key]
  {
    UserPatternMatches(key, user);
  }

  /** The domain invalidation drops every entry of its domain exactly when the cache holds no entry of that
      domain for a subject other than "*". */
  lemma DomainInvalidationMisses(data: Data, domain: string)
    ensures
      (forall q: Request :: ColonFree(q.sub) && q.dom == domain ==>
        CacheKey(q) !in Cleared(data, DomainPattern(domain))) <==>
      (forall q: Request :: ColonFree(q.sub) && q.dom == domain && CacheKey(q) in data ==> q.sub == "*")
  {
    forall q: Request | ColonFree(q.sub) && q.dom == domain
      ensures CacheKey(q) in Cleared(data, DomainPattern(domain)) <==> CacheKey(q) in data && q.sub != "*"
    {
      OwnDomainSelects(q);
    }
  }

  // ---- Whole histories of one instance ----

  datatype Instance = Instance(data: Data, stored: Policy, loaded: Policy, ttl: int)

  datatype Action =
    | Check(q: Request, now: int, later: int, f: Faults)
    | LocalEdit(e: Edit, storeFails: bool)
    | RemoteEdit(stored: Policy)
    | LoadPolicy(loadFails: bool)
    | InvalidateAndReload(clearFails: bool, loadFails: bool)
    | Broadcast(clearFails: bool, loadFails: bool)

  predicate AlreadyLoaded(loaded: Policy, e: Edit) {
    match e
    case AddPolicy(r) => r in loaded.rules
    case AddRoleForUser(r) => r in loaded.roles
    case _ => false
  }

  /** An addition that is loaded already changes nothing. */
  lemma LoadedAddition(loaded: Policy, e: Edit)
    requires AlreadyLoaded(loaded, e)
    ensures Apply(loaded, e) == loaded
  {
    match e
    case AddPolicy(r) => assert loaded.rules + {r} == loaded.rules;
    case AddRoleForUser(r) => assert loaded.roles + {r} == loaded.roles;
  }

  /** What the policy an edit leaves behind allows, whether the edit was new or already loaded. */
  lemma EditIsInForce(loaded: Policy, e: Edit)
    ensures e.AddPolicy? ==> Decide(Apply(loaded, e), e.rule)
    ensures e.RemovePolicy? ==> forall q :: Decide(Apply(loaded, e), q) <==>
      AllowedBy(loaded.rules - {e.rule}, loaded.roles, loaded.depth, q)
    ensures e.AddRoleForUser? ==> forall q :: Decide(Apply(loaded, e), q) <==>
      AllowedBy(loaded.rules, loaded.roles + {e.edge}, loaded.depth, q)
    ensures e.RemoveRoleForUser? ==> forall q :: Decide(Apply(loaded, e), q) <==>
      AllowedBy(loaded.rules, loaded.roles - {e.edge}, loaded.depth, q)
    ensures AlreadyLoaded(loaded, e) ==> Apply(loaded, e) == loaded
  {
    hide Decide, AllowedBy, Apply;
    if AlreadyLoaded(loaded, e) {
      LoadedAddition(loaded, e);
    }
    if e.AddPolicy? {
      AddedPolicyAllows(loaded, e.rule);
    }
    forall q {
      EditDecides(loaded, e, q);
    }
  }

  function EditInstance(i: Instance, e: Edit, storeFails: bool): Instance {
    if AlreadyLoaded(i.loaded, e) || storeFails then i
    else i.(stored := Apply(i.stored, e), loaded := Apply(i.loaded, e))
  }

  function Reload(i: Instance, fails: bool): Instance {
    if fails then i else i.(loaded := i.stored)
  }

  function Act(i: Instance, a: Action): Instance {
    match a
    case Check(q, now, later, f) => i.(data := CachedEnforce(i.data, i.loaded, i.ttl, q, now, later, f).1)
    case LocalEdit(e, storeFails) => EditInstance(i, e, storeFails)
    case RemoteEdit(stored) => i.(stored := stored)
    case LoadPolicy(loadFails) => Reload(i, loadFails)
    case InvalidateAndReload(clearFails, loadFails) =>
      if clearFails then i else Reload(i.(data := Cleared(i.data, PREFIX + "*")), loadFails)
    case Broadcast(clearFails, loadFails) =>
      Reload(if clearFails then i else i.(data := Cleared(i.data, PREFIX + "*")), loadFails)
  }

  function InstanceAt(i: Instance, actions: seq<Action>, n: nat): Instance
    requires n <= |actions|
  {
    if n == 0 then i else Act(InstanceAt(i, actions, n - 1), actions[n - 1])
  }

  /** Since the last successful clear, nothing could have changed the loaded policy. */
  ghost predicate Synchronised(requests: iset<Request>, actions: seq<Action>, n: nat)
    requires n <= |actions|
  {
    n == 0 ||
    match actions[n - 1]
    case Check(q, _, _, _) => Synchronised(requests, actions, n - 1) && q in requests
    case RemoteEdit(_) => Synchronised(requests, actions, n - 1)
    case LocalEdit(_, storeFails) => Synchronised(requests, actions, n - 1) && storeFails
    case LoadPolicy(loadFails) => Synchronised(requests, actions, n - 1) && loadFails
    case InvalidateAndReload(clearFails, _) => !clearFails || Synchronised(requests, actions, n - 1)
    case Broadcast(clearFails, loadFails) => !clearFails || (Synchronised(requests, actions, n - 1) && loadFails)
  }

  lemma {:induction false} SynchronisedAgrees(requests: iset<Request>, i: Instance, actions: seq<Action>, n: nat)
    requires n <= |actions| && KeyInjective(requests) && Agrees(requests, i.data, i.loaded)
    requires Synchronised(requests, actions, n)
    ensures Agrees(requests, InstanceAt(i, actions, n).data, InstanceAt(i, actions, n).loaded)
  {
    if n > 0 {
      var before := InstanceAt(i, actions, n - 1);
      ClearedAgrees(requests, before.data, before.loaded);
      ClearedAgrees(requests, before.data, before.stored);
      if Synchronised(requests, actions, n - 1) {
        SynchronisedAgrees(requests, i, actions, n - 1);
      }
      match actions[n - 1]
      case Check(q, now, later, f) =>
        CachedEnforceIsEnforce(requests, before.data, before.loaded, before.ttl, q, now, later, f);
      case _ =>
    }
  }

  /** In every history, a check made while synchronised answers as the loaded policy does. */
  lemma CacheIsTransparent(requests: iset<Request>, i: Instance, actions: seq<Action>, n: nat)
    requires n < |actions| && KeyInjective(requests) && Agrees(requests, i.data, i.loaded)
    requires Synchronised(requests, actions, n) && actions[n].Check? && actions[n].q in requests && !actions[n].f.engine
    ensures
      var s, a := InstanceAt(i, actions, n), actions[n];
      CachedEnforce(s.data, s.loaded, s.ttl, a.q, a.now, a.later, a.f).0 == Ok(Decide(s.loaded, a.q))
  {
    SynchronisedAgrees(requests, i, actions, n);
    var s, a := InstanceAt(i, actions, n), actions[n];
    CachedEnforceIsEnforce(requests, s.data, s.loaded, s.ttl, a.q, a.now, a.later, a.f);
  }

  /** A broadcast goes on to reload after a failed clear, and then keeps agreement exactly when every cached request is
      decided alike by the loaded and the stored policy; InvalidateAndReload stops at the failed clear and keeps it. */
  lemma FailedClearUnderBroadcast(requests: iset<Request>, i: Instance)
    requires Agrees(requests, i.data, i.loaded)
    ensures
      var after := Act(i, Broadcast(true, false));
      Agrees(requests, after.data, after.loaded) <==>
      forall q :: q in requests && CacheKey(q) in i.data ==> Decide(i.loaded, q) == Decide(i.stored, q)
    ensures
      var after := Act(i, InvalidateAndReload(true, false));
      Agrees(requests, after.data, after.loaded)
  {
    forall q | q in requests && CacheKey(q) in i.data
      ensures i.data[CacheKey(q)].value == Bit(Decide(i.stored, q)) <==> Decide(i.loaded, q) == Decide(i.stored, q)
    {
      assert i.data[CacheKey(q)].value == Bit(Decide(i.loaded, q));
    }
  }
}

module Permission {
  import opened Wrappers
  import opened Text
  import opened TimedMap
  import opened CacheKeys
  import opened Policies
  import opened CachedDecisions
  import opened MemoryDriver

  datatype Lookup = Hit(allowed: bool) | CacheMiss | Unavailable

  class Cache {
    const driver: MemoryCache
    var ttl: int

    constructor (driver: MemoryCache, ttl: int)
      ensures this.driver == driver && this.ttl > 0
      ensures this.ttl == if ttl > 0 then ttl else 300_000_000_000
    {
      this.driver := driver;
      this.ttl := if ttl <= 0 then DEFAULT_TTL else ttl;
    }

    method Get(key: string, now: int, fails: bool) returns (r: Lookup)
      ensures fails ==> r == Unavailable
      ensures !fails && !Live(driver.data, key, now) ==> r == CacheMiss
      ensures !fails && Live(driver.data, key, now) ==> r == Hit(driver.data[key].value == "1")
    {
      if fails {
        return Unavailable;
      }
      var result := driver.Get(key, now);
      if result.None? {
        return CacheMiss;
      }
      return Hit(result.value == "1");
    }

    method Set(key: string, allowed: bool, now: int, fails: bool) returns (ok: bool)
      modifies driver
      ensures ok == !fails
      ensures driver.data ==
        if fails then old(driver.data) else old(driver.data)[key := Entry(Bit(allowed), Expiry(now, TtlSeconds(ttl)))]
      ensures ok ==> forall later ::
        Live(driver.data, key, later) <==> later <= now + ttl / 1_000_000_000 * 1_000_000_000
      ensures ok ==> (driver.data[key].value == "1" <==> allowed)
    {
      var value := if allowed then "1" else "0";
      if fails {
        return false;
      }
      driver.Set(key, value, ttl / SECOND, now);
      return true;
    }

    method Invalidate(key: string, fails: bool) returns (ok: bool)
      modifies driver
      ensures ok == !fails
      ensures driver.data == if fails then old(driver.data) else old(driver.data) - {key}
    {
      if fails {
        return false;
      }
      driver.Delete(key);
      return true;
    }

    method InvalidateAll(fails: bool) returns (ok: bool)
      modifies driver
      ensures ok == !fails
      ensures driver.data == if fails then old(driver.data) else Cleared(old(driver.data), PREFIX + "*")
      ensures ok ==> forall requests, loaded :: Agrees(requests, driver.data, loaded)
    {
      if fails {
        return false;
      }
      driver.Clear(PREFIX + "*");
      forall requests, loaded ensures Agrees(requests, driver.data, loaded) {
        ClearedAgrees(requests, old(driver.data), loaded);
      }
      return true;
    }

    method InvalidateForUser(user: string, fails: bool) returns (ok: bool)
      modifies driver
      ensures ok == !fails
      ensures driver.data == if fails then old(driver.data) else Cleared(old(driver.data), UserPattern(user))
      ensures ok && ColonFree(user) ==> forall q: Request :: ColonFree(q.sub) ==>
        (CacheKey(q) in driver.data <==> CacheKey(q) in old(driver.data) && q.sub != user)
    {
      if fails {
        return false;
      }
      driver.Clear(UserPattern(user));
      forall q: Request | ColonFree(user) && ColonFree(q.sub)
        ensures CacheKey(q) in driver.data <==> CacheKey(q) in old(driver.data) && q.sub != user
      {
        UserPatternSelects(q, user);
      }
      return true;
    }

    method InvalidateForDomain(domain: string, fails: bool) returns (ok: bool)
      modifies driver
      ensures ok == !fails
      ensures driver.data == if fails then old(driver.data) else Cleared(old(driver.data), DomainPattern(domain))
    {
      if fails {
        return false;
      }
      driver.Clear(DomainPattern(domain));
      return true;
    }

    method SetTTL(ttl: int)
      modifies this
      ensures this.ttl == if ttl > 0 then ttl else old(this.ttl)
    {
      if ttl > 0 {
        this.ttl := ttl;
      }
    }
  }

  /** The database behind the policy adapter; other instances share it. */
  class PolicyStore {
    var policy: Policy
  }

  class Enforcer {
    const adapter: PolicyStore
    var loaded: Policy
    var cache: Cache?

    constructor (adapter: PolicyStore)
      ensures this.adapter == adapter && loaded == adapter.policy && cache == null
    {
      this.adapter := adapter;
      loaded := adapter.policy;
      cache := null;
    }

    method SetCache(cache: Cache?)
      modifies this
      ensures this.cache == cache && loaded == old(loaded)
    {
      this.cache := cache;
    }

    method Enforce(q: Request, engineFails: bool) returns (r: Result<bool, string>)
      ensures r == if engineFails then Err("enforcement failed") else Ok(Decide(loaded, q))
    {
      if engineFails {
        return Err("enforcement failed");
      }
      return Ok(Decide(loaded, q));
    }

    method LoadPolicy(fails: bool) returns (ok: bool)
      modifies this`loaded
      ensures ok == !fails
      ensures loaded == if fails then old(loaded) else adapter.policy
    {
      if fails {
        return false;
      }
      loaded := adapter.policy;
      return true;
    }

    /** AddPolicy, RemovePolicy, AddRoleForUser and RemoveRoleForUser: database first, then the loaded policy. */
    method Edit(e: Policies.Edit, storeFails: bool) returns (ok: bool)
      modifies this`loaded, adapter
      ensures forall data, ttl ::
        Instance(data, adapter.policy, loaded, ttl) ==
        EditInstance(Instance(data, old(adapter.policy), old(loaded), ttl), e, storeFails)
      ensures ok == (AlreadyLoaded(old(loaded), e) || !storeFails)
      ensures !ok ==> loaded == old(loaded) && adapter.policy == old(adapter.policy)
      ensures ok && e.AddPolicy? ==> Decide(loaded, e.rule)
      ensures ok && e.RemovePolicy? ==> forall q :: Decide(loaded, q) <==>
        AllowedBy(old(loaded.rules) - {e.rule}, old(loaded.roles), old(loaded.depth), q)
      ensures ok && e.AddRoleForUser? ==> forall q :: Decide(loaded, q) <==>
        AllowedBy(old(loaded.rules), old(loaded.roles) + {e.edge}, old(loaded.depth), q)
      ensures ok && e.RemoveRoleForUser? ==> forall q :: Decide(loaded, q) <==>
        AllowedBy(old(loaded.rules), old(loaded.roles) - {e.edge}, old(loaded.depth), q)
      ensures ok && old(loaded == adapter.policy) ==> loaded == adapter.policy
    {
      EditIsInForce(loaded, e);
      if AlreadyLoaded(loaded, e) {
        return true;
      }
      if storeFails {
        return false;
      }
      adapter.policy := Apply(adapter.policy, e);
      loaded := Apply(loaded, e);
      return true;
    }

    method EnforceWithCache(q: Request, now: int, later: int, f: Faults, ghost requests: iset<Request>)
      returns (r: Result<bool, string>)
      modifies if cache == null then {} else {cache.driver}
      ensures cache == null ==> r == CachedDecisions.Enforce(loaded, q, f)
      ensures cache != null ==>
        (r, cache.driver.data) == CachedEnforce(old(cache.driver.data), loaded, cache.ttl, q, now, later, f)
      ensures
        cache != null && KeyInjective(requests) && q in requests && Agrees(requests, old(cache.driver.data), loaded) ==>
        && Agrees(requests, cache.driver.data, loaded)
        && r == if r.Ok? then Ok(Decide(loaded, q)) else Err("enforcement failed")
      ensures r.Err? ==> f.engine
      ensures cache != null && r.Ok? && !f.store && (f.lookup || !old(Live(cache.driver.data, CacheKey(q), now))) ==>
        && (cache.driver.data[CacheKey(q)].value == "1" <==> r.value)
        && forall again :: Live(cache.driver.data, CacheKey(q), again) <==>
             again <= later + cache.ttl / 1_000_000_000 * 1_000_000_000
    {
      if cache == null {
        r := Enforce(q, f.engine);
        return;
      }
      if KeyInjective(requests) && q in requests && Agrees(requests, cache.driver.data, loaded) {
        CachedEnforceIsEnforce(requests, cache.driver.data, loaded, cache.ttl, q, now, later, f);
      }
      var key := CacheKey(q);
      var cached := cache.Get(key, now, f.lookup);
      if cached.Hit? {
        return Ok(cached.allowed);
      }
      var allowed := Enforce(q, f.engine);
      if allowed.Err? {
        return allowed;
      }
      var _ := cache.Set(key, allowed.value, later, f.store);
      return allowed;
    }

    method InvalidateCache(fails: bool) returns (ok: bool)
      modifies if cache == null then {} else {cache.driver}
      ensures ok == (cache == null || !fails)
      ensures cache != null && ok ==> forall requests :: Agrees(requests, cache.driver.data, loaded)
      ensures cache != null && !ok ==> cache.driver.data == old(cache.driver.data)
    {
      if cache == null {
        return true;
      }
      ok := cache.InvalidateAll(fails);
    }
  }

  class Invalidator {
    /** Invalidation messages handed to the other instances. */
    var published: nat

    constructor ()
      ensures published == 0
    {
      published := 0;
    }

    method PublishInvalidate(fails: bool) returns (ok: bool)
      modifies this
      ensures ok == !fails && published == old(published) + (if fails then 0 else 1)
    {
      if fails {
        return false;
      }
      published := published + 1;
      return true;
    }

    method InvalidateAndReload(cache: Cache?, enforcer: Enforcer?, clearFails: bool, loadFails: bool) returns (ok: bool)
      modifies if cache == null then {} else {cache.driver}
      modifies if enforcer == null then {} else {enforcer}`loaded
      ensures cache != null && enforcer != null ==>
        Instance(cache.driver.data, enforcer.adapter.policy, enforcer.loaded, cache.ttl) ==
        Act(old(Instance(cache.driver.data, enforcer.adapter.policy, enforcer.loaded, cache.ttl)),
            CachedDecisions.InvalidateAndReload(clearFails, loadFails))
      ensures ok == ((cache == null || !clearFails) && (enforcer == null || !loadFails))
      ensures cache != null && enforcer != null && ok ==>
        && enforcer.loaded == enforcer.adapter.policy
        && forall requests :: Agrees(requests, cache.driver.data, enforcer.loaded)
      ensures cache == null && enforcer != null ==>
        enforcer.loaded == if loadFails then old(enforcer.loaded) else enforcer.adapter.policy
    {
      if cache != null {
        ok := cache.InvalidateAll(clearFails);
        if !ok {
          return false;
        }
      }
      if enforcer != null {
        ok := enforcer.LoadPolicy(loadFails);
        if !ok {
          return false;
        }
      }
      return true;
    }

    /** What the listener does on an invalidation message: failures are logged and the next step is taken. */
    method OnInvalidate(cache: Cache?, enforcer: Enforcer?, clearFails: bool, loadFails: bool)
      modifies if cache == null then {} else {cache.driver}
      modifies if enforcer == null then {} else {enforcer}`loaded
      ensures cache != null && enforcer != null ==>
        Instance(cache.driver.data, enforcer.adapter.policy, enforcer.loaded, cache.ttl) ==
        Act(old(Instance(cache.driver.data, enforcer.adapter.policy, enforcer.loaded, cache.ttl)),
            Broadcast(clearFails, loadFails))
      ensures enforcer != null && !loadFails ==> enforcer.loaded == enforcer.adapter.policy
    {
      if cache != null {
        var _ := cache.InvalidateAll(clearFails);
      }
      if enforcer != null {
        var _ := enforcer.LoadPolicy(loadFails);
      }
    }

    method BroadcastInvalidation(cache: Cache?, enforcer: Enforcer?, clearFails: bool, loadFails: bool,
                                 publishFails: bool)
      returns (ok: bool)
      modifies this
      modifies if cache == null then {} else {cache.driver}
      modifies if enforcer == null then {} else {enforcer}`loaded
      ensures cache != null && enforcer != null ==>
        Instance(cache.driver.data, enforcer.adapter.policy, enforcer.loaded, cache.ttl) ==
        Act(old(Instance(cache.driver.data, enforcer.adapter.policy, enforcer.loaded, cache.ttl)),
            Broadcast(clearFails, loadFails))
      ensures cache != null && enforcer != null && !clearFails ==>
        forall requests :: Agrees(requests, cache.driver.data, enforcer.loaded)
      ensures ok == !publishFails && published == old(published) + (if publishFails then 0 else 1)
    {
      if cache != null {
        var _ := cache.InvalidateAll(clearFails);
      }
      if enforcer != null {
        var _ := enforcer.LoadPolicy(loadFails);
      }
      ok := PublishInvalidate(publishFails);
    }
  }
}
