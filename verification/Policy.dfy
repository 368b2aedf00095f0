// internal/permission/enforcer.go, RBACModel: the decision rule over policy rules and domain-labelled role edges.

module Policies {
  import opened CacheKeys

  /** A policy line (sub, dom, obj, act). */
  type Rule = Request

  datatype RoleEdge = RoleEdge(user: string, role: string, dom: string)

  /** `depth` is the number of role edges the policy engine follows at most; every result holds for any bound. */
  datatype Policy = Policy(rules: set<Rule>, roles: set<RoleEdge>, depth: nat)

  /** g(name, role, dom): `role` is reached from `name` by at most `depth` edges of domain `dom`. */
  predicate HasRole(roles: set<RoleEdge>, name: string, role: string, dom: string, depth: nat)
    decreases depth
  {
    || name == role
    || (depth > 0 && exists e ::
          e in roles && e.user == name && e.dom == dom && HasRole(roles, e.role, role, dom, depth - 1))
  }

  predicate Grants(p: Policy, rule: Rule, q: Request) {
    && HasRole(p.roles, q.sub, rule.sub, q.dom, p.depth)
    && q.dom == rule.dom && q.obj == rule.obj && q.act == rule.act
  }

  predicate Decide(p: Policy, q: Request) {
    exists rule :: rule in p.rules && Grants(p, rule, q)
  }

  // ---- Role membership is reachability ----

  /** A chain of names from `name` to `role` along role edges of `dom`. */
  ghost predicate RolePath(roles: set<RoleEdge>, path: seq<string>, name: string, role: string, dom: string) {
    && path != [] && path[0] == name && path[|path| - 1] == role
    && forall i :: 0 <= i < |path| - 1 ==> RoleEdge(path[i], path[i + 1], dom) in roles
  }

  lemma {:induction false} PathOfRole(roles: set<RoleEdge>, name: string, role: string, dom: string, depth: nat)
    returns (path: seq<string>)
    requires HasRole(roles, name, role, dom, depth)
    ensures RolePath(roles, path, name, role, dom) && |path| <= depth + 1
    decreases depth
  {
    if name == role {
      path := [name];
    } else {
      var e :| e in roles && e.user == name && e.dom == dom && HasRole(roles, e.role, role, dom, depth - 1);
      var rest := PathOfRole(roles, e.role, role, dom, depth - 1);
      path := [name] + rest;
      assert e == RoleEdge(name, e.role, dom);
      forall i | 0 <= i < |path| - 1 ensures RoleEdge(path[i], path[i + 1], dom) in roles {
        if i > 0 {
          assert RoleEdge(rest[i - 1], rest[i], dom) in roles;
        }
      }
    }
  }

  lemma {:induction false} RoleOfPath(roles: set<RoleEdge>, path: seq<string>, name: string, role: string, dom: string,
                                      depth: nat)
    requires RolePath(roles, path, name, role, dom) && |path| <= depth + 1
    ensures HasRole(roles, name, role, dom, depth)
  {
    if |path| > 1 {
      assert RoleEdge(path[0], path[1], dom) in roles;
      RoleOfPath(roles, path[1..], path[1], role, dom, depth - 1);
    }
  }

  lemma HasRoleIsReachability(roles: set<RoleEdge>, name: string, role: string, dom: string, depth: nat)
    ensures HasRole(roles, name, role, dom, depth) <==>
      exists path :: RolePath(roles, path, name, role, dom) && |path| <= depth + 1
  {
    if HasRole(roles, name, role, dom, depth) {
      var path := PathOfRole(roles, name, role, dom, depth);
    }
    if path :| RolePath(roles, path, name, role, dom) && |path| <= depth + 1 {
      RoleOfPath(roles, path, name, role, dom, depth);
    }
  }

  /** The matcher in full: a request is allowed exactly when some policy line has its domain, object and action and its
      subject is reached from the request's, within the depth, along role edges of that domain. */
  lemma DecideIsReachability(p: Policy, q: Request)
    ensures Decide(p, q) <==>
      exists rule, path ::
        && rule in p.rules && rule.dom == q.dom && rule.obj == q.obj && rule.act == q.act
        && RolePath(p.roles, path, q.sub, rule.sub, q.dom) && |path| <= p.depth + 1
  {
    if rule :| rule in p.rules && Grants(p, rule, q) {
      var path := PathOfRole(p.roles, q.sub, rule.sub, q.dom, p.depth);
    }
    if rule, path :|
      && rule in p.rules && rule.dom == q.dom && rule.obj == q.obj && rule.act == q.act
      && RolePath(p.roles, path, q.sub, rule.sub, q.dom) && |path| <= p.depth + 1
    {
      RoleOfPath(p.roles, path, q.sub, rule.sub, q.dom, p.depth);
      assert Grants(p, rule, q);
    }
  }

  // ---- Domains do not influence each other ----

  ghost predicate SameInDomain(p: Policy, p': Policy, dom: string) {
    && p.depth == p'.depth
    && (forall r: Rule :: r.dom == dom ==> (r in p.rules <==> r in p'.rules))
    && (forall e: RoleEdge :: e.dom == dom ==> (e in p.roles <==> e in p'.roles))
  }

  lemma {:induction false} RolesByDomain(roles: set<RoleEdge>, roles': set<RoleEdge>, name: string, role: string,
                                         dom: string, depth: nat)
    requires forall e: RoleEdge :: e.dom == dom && e in roles ==> e in roles'
    requires HasRole(roles, name, role, dom, depth)
    ensures HasRole(roles', name, role, dom, depth)
    decreases depth
  {
    if name != role {
      var e :| e in roles && e.user == name && e.dom == dom && HasRole(roles, e.role, role, dom, depth - 1);
      RolesByDomain(roles, roles', e.role, role, dom, depth - 1);
    }
  }

  /** A decision depends on the rules and role edges of its own domain only. */
  lemma DomainIsolation(p: Policy, p': Policy, q: Request)
    requires SameInDomain(p, p', q.dom)
    ensures Decide(p, q) == Decide(p', q)
  {
    DecideByDomain(p, p', q);
    DecideByDomain(p', p, q);
  }

  lemma DecideByDomain(p: Policy, p': Policy, q: Request)
    requires p.depth == p'.depth
    requires forall r: Rule :: r.dom == q.dom && r in p.rules ==> r in p'.rules
    requires forall e: RoleEdge :: e.dom == q.dom && e in p.roles ==> e in p'.roles
    ensures Decide(p, q) ==> Decide(p', q)
  {
    if rule :| rule in p.rules && Grants(p, rule, q) {
      RolesByDomain(p.roles, p'.roles, q.sub, rule.sub, q.dom, p.depth);
      assert Grants(p', rule, q);
    }
  }

  /** More rules or role edges never turn an allow into a deny. */
  lemma Monotone(p: Policy, p': Policy, q: Request)
    requires p.rules <= p'.rules && p.roles <= p'.roles && p.depth == p'.depth
    ensures Decide(p, q) ==> Decide(p', q)
  {
    DecideByDomain(p, p', q);
  }

  // ---- Edits ----

  datatype Edit =
    | AddPolicy(rule: Rule)
    | RemovePolicy(rule: Rule)
    | AddRoleForUser(edge: RoleEdge)
    | RemoveRoleForUser(edge: RoleEdge)

  function EditDomain(e: Edit): string {
    match e
    case AddPolicy(r) => r.dom
    case RemovePolicy(r) => r.dom
    case AddRoleForUser(r) => r.dom
    case RemoveRoleForUser(r) => r.dom
  }

  function Apply(p: Policy, e: Edit): Policy {
    match e
    case AddPolicy(r) => p.(rules := p.rules + {r})
    case RemovePolicy(r) => p.(rules := p.rules - {r})
    case AddRoleForUser(r) => p.(roles := p.roles + {r})
    case RemoveRoleForUser(r) => p.(roles := p.roles - {r})
  }

  /** Edits of other domains leave a decision alone; additions keep every allow, removals every deny. */
  lemma EditEffect(p: Policy, e: Edit, q: Request)
    ensures EditDomain(e) != q.dom ==> Decide(Apply(p, e), q) == Decide(p, q)
    ensures e.AddPolicy? || e.AddRoleForUser? ==> (Decide(p, q) ==> Decide(Apply(p, e), q))
    ensures e.RemovePolicy? || e.RemoveRoleForUser? ==> (Decide(Apply(p, e), q) ==> Decide(p, q))
  {
    if EditDomain(e) != q.dom {
      DomainIsolation(p, Apply(p, e), q);
    }
    if e.AddPolicy? || e.AddRoleForUser? {
      Monotone(p, Apply(p, e), q);
    } else {
      Monotone(Apply(p, e), p, q);
    }
  }

  // ---- Edits take effect ----

  /** Some line of these, with the request's domain, object and action, is reached along these role edges. */
  ghost predicate AllowedBy(rules: set<Rule>, roles: set<RoleEdge>, depth: nat, q: Request) {
    exists rule, path ::
      && rule in rules && rule.dom == q.dom && rule.obj == q.obj && rule.act == q.act
      && RolePath(roles, path, q.sub, rule.sub, q.dom) && |path| <= depth + 1
  }

  /** What is allowed after an edit, in terms of the lines and role edges there were before. */
  lemma EditDecides(p: Policy, e: Edit, q: Request)
    ensures Decide(Apply(p, e), q) <==>
      match e
      case AddPolicy(r) => AllowedBy(p.rules + {r}, p.roles, p.depth, q)
      case RemovePolicy(r) => AllowedBy(p.rules - {r}, p.roles, p.depth, q)
      case AddRoleForUser(edge) => AllowedBy(p.rules, p.roles + {edge}, p.depth, q)
      case RemoveRoleForUser(edge) => AllowedBy(p.rules, p.roles - {edge}, p.depth, q)
  {
    DecideIsReachability(Apply(p, e), q);
  }

  /** Nobody needs a role for a line that names him. */
  lemma NamedIsAllowed(rules: set<Rule>, roles: set<RoleEdge>, depth: nat, r: Rule)
    requires r in rules
    ensures AllowedBy(rules, roles, depth, r)
  {
    assert RolePath(roles, [r.sub], r.sub, r.sub, r.dom);
  }

  /** The line of an AddPolicy is allowed at once. */
  lemma AddedPolicyAllows(p: Policy, r: Rule)
    ensures Decide(Apply(p, AddPolicy(r)), r)
  {
    EditDecides(p, AddPolicy(r), r);
    NamedIsAllowed(p.rules + {r}, p.roles, p.depth, r);
  }

  /** A removed line allows nothing any more: if no other line has the request's domain, object and action, it is
      denied. */
  lemma RemovedPolicyDenies(p: Policy, r: Rule, q: Request)
    requires forall x :: x in p.rules && x != r ==> !(x.dom == q.dom && x.obj == q.obj && x.act == q.act)
    ensures !Decide(Apply(p, RemovePolicy(r)), q)
  {
    EditDecides(p, RemovePolicy(r), q);
  }

  /** A user who is given a role is allowed at once what the lines of that role allow in its domain. */
  lemma AddedRoleAllows(p: Policy, edge: RoleEdge, rule: Rule)
    requires p.depth >= 1 && rule in p.rules && rule.sub == edge.role && rule.dom == edge.dom
    ensures Decide(Apply(p, AddRoleForUser(edge)), Request(edge.user, edge.dom, rule.obj, rule.act))
  {
    var q := Request(edge.user, edge.dom, rule.obj, rule.act);
    EditDecides(p, AddRoleForUser(edge), q);
    assert RolePath(p.roles + {edge}, [edge.user, edge.role], q.sub, rule.sub, q.dom);
  }

  lemma FirstEdge(roles: set<RoleEdge>, path: seq<string>, name: string, role: string, dom: string)
    requires RolePath(roles, path, name, role, dom) && |path| > 1
    ensures exists x :: x in roles && x.user == name && x.dom == dom
  {
    assert RoleEdge(path[0], path[1], dom) in roles;
  }

  /** A user without role edges in a domain is allowed there exactly what lines naming him allow. */
  lemma RolelessIsNamed(rules: set<Rule>, roles: set<RoleEdge>, depth: nat, q: Request)
    requires forall x :: x in roles ==> !(x.user == q.sub && x.dom == q.dom)
    ensures AllowedBy(rules, roles, depth, q) <==> q in rules
  {
    if q in rules {
      NamedIsAllowed(rules, roles, depth, q);
    }
    if rule, path :|
      && rule in rules && rule.dom == q.dom && rule.obj == q.obj && rule.act == q.act
      && RolePath(roles, path, q.sub, rule.sub, q.dom) && |path| <= depth + 1
    {
      if |path| > 1 {
        FirstEdge(roles, path, q.sub, rule.sub, q.dom);
      } else {
        assert rule == q;
      }
    }
  }

  /** A user whose last role in a domain is removed keeps there exactly what lines naming him allow. */
  lemma RemovedLastRoleDenies(p: Policy, edge: RoleEdge, q: Request)
    requires q.sub == edge.user && q.dom == edge.dom
    requires forall x :: x in p.roles && x.user == edge.user && x.dom == edge.dom ==> x == edge
    ensures Decide(Apply(p, RemoveRoleForUser(edge)), q) <==> q in p.rules
  {
    EditDecides(p, RemoveRoleForUser(edge), q);
    RolelessIsNamed(p.rules, p.roles - {edge}, p.depth, q);
  }
}
