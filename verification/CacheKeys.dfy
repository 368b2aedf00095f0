// internal/permission/enforcer.go, CacheKey and ParseCacheKey; internal/permission/cache.go, the key patterns.

module CacheKeys {
  import opened Wrappers
  import opened Text
  import opened Patterns

  datatype Request = Request(sub: string, dom: string, obj: string, act: string)

  const PREFIX := "perm:"

  function CacheKey(q: Request): string {
    PREFIX + q.sub + ":" + q.dom + ":" + q.obj + ":" + q.act
  }

  function ParseCacheKey(key: string): Result<Request, string> {
    var parts := Split(key, ':');
    if |parts| != 5 || parts[0] != "perm" then Err("invalid cache key format: " + key)
    else Ok(Request(parts[1], parts[2], parts[3], parts[4]))
  }

  /** Requests whose key is read off unambiguously from the left: only the action may hold colons. */
  predicate Plain(q: Request) {
    ColonFree(q.sub) && ColonFree(q.dom) && ColonFree(q.obj)
  }

  predicate AllColonFree(q: Request) {
    Plain(q) && ColonFree(q.act)
  }

  lemma KeyShape(q: Request)
    ensures CacheKey(q) == "perm" + [':'] + (q.sub + [':'] + (q.dom + [':'] + (q.obj + [':'] + q.act)))
  {
    assert CacheKey(q) == "perm" + [':'] + q.sub + [':'] + q.dom + [':'] + q.obj + [':'] + q.act;
  }

  lemma KeyColons(q: Request)
    ensures Count(CacheKey(q), ':') == 4 + Count(q.sub, ':') + Count(q.dom, ':') + Count(q.obj, ':') + Count(q.act, ':')
  {
    KeyShape(q);
    var objAct := q.obj + [':'] + q.act;
    var domRest := q.dom + [':'] + objAct;
    CountField(q.obj, q.act);
    CountField(q.dom, objAct);
    CountField(q.sub, domRest);
    CountField("perm", q.sub + [':'] + domRest);
    CountZero("perm", ':');
  }

  lemma CountField(field: string, rest: string)
    ensures Count(field + [':'] + rest, ':') == Count(field, ':') + 1 + Count(rest, ':')
  {
    CountConcat(field + [':'], rest, ':');
    CountConcat(field, [':'], ':');
    assert Count([':'], ':') == 1 + Count([':'][1..], ':');
  }

  /** Among plain requests the key determines the request. */
  lemma CacheKeyInjective(q: Request, r: Request)
    requires Plain(q) && Plain(r)
    requires CacheKey(q) == CacheKey(r)
    ensures q == r
  {
    KeyShape(q);
    KeyShape(r);
    var qObj, rObj := q.obj + [':'] + q.act, r.obj + [':'] + r.act;
    var qDom, rDom := q.dom + [':'] + qObj, r.dom + [':'] + rObj;
    FirstSeparator("perm", q.sub + [':'] + qDom, "perm", r.sub + [':'] + rDom, ':');
    FirstSeparator(q.sub, qDom, r.sub, rDom, ':');
    FirstSeparator(q.dom, qObj, r.dom, rObj, ':');
    FirstSeparator(q.obj, q.act, r.obj, r.act, ':');
  }

  // ---- Sets of requests that keys tell apart ----

  ghost predicate KeyInjective(requests: iset<Request>) {
    forall q, r :: q in requests && r in requests && CacheKey(q) == CacheKey(r) ==> q == r
  }

  lemma PlainRequestsInjective()
    ensures KeyInjective(iset q | Plain(q))
  {
    forall q, r | Plain(q) && Plain(r) && CacheKey(q) == CacheKey(r) ensures q == r {
      CacheKeyInjective(q, r);
    }
  }

  /** What a route is guarded by; subject and domain come with each call. */
  datatype Guard = Guard(obj: string, act: string)

  function ObjAct(g: Guard): string {
    g.obj + [':'] + g.act
  }

  function GuardOf(q: Request): Guard {
    Guard(q.obj, q.act)
  }

  /** All requests that guarded routes can make: a colon-free user id and any domain at all, as the middleware takes it
      from a request header, neither of them empty. */
  ghost function RouteRequests(guards: iset<Guard>): iset<Request> {
    iset q: Request | q.sub != "" && q.dom != "" && ColonFree(q.sub) && GuardOf(q) in guards
  }

  predicate Ambiguous(a: Guard, b: Guard) {
    HasSuffix(ObjAct(a), [':'] + ObjAct(b))
  }

  lemma DomainShape(q: Request)
    ensures CacheKey(q) == "perm" + [':'] + (q.sub + [':'] + (q.dom + [':'] + ObjAct(GuardOf(q))))
  {
    KeyShape(q);
  }

  /** With colon-free subjects a shared key means a shared subject, and equal domain and guard taken together. */
  lemma SharedKey(q: Request, r: Request)
    requires ColonFree(q.sub) && ColonFree(r.sub)
    ensures CacheKey(q) == CacheKey(r) <==>
      q.sub == r.sub && q.dom + [':'] + ObjAct(GuardOf(q)) == r.dom + [':'] + ObjAct(GuardOf(r))
  {
    DomainShape(q);
    DomainShape(r);
    var x, y := q.dom + [':'] + ObjAct(GuardOf(q)), r.dom + [':'] + ObjAct(GuardOf(r));
    if CacheKey(q) == CacheKey(r) {
      FirstSeparator("perm", q.sub + [':'] + x, "perm", r.sub + [':'] + y, ':');
      FirstSeparator(q.sub, x, r.sub, y, ':');
    }
  }

  /** Two strings that end in the two tails: the longer tail ends in the shorter one. */
  lemma LongerTail(a: string, x: string, b: string, y: string)
    requires a + x == b + y && |x| >= |y|
    ensures HasSuffix(x, y)
    ensures |x| == |y| ==> a == b && x == y
  {
    var s := a + x;
    assert s[|a|..] == x && s[|b|..] == y;
    assert x[|x| - |y|..] == s[|s| - |y|..] == y;
    assert s[..|a|] == a && s[..|b|] == b;
  }

  lemma SharedKeyIsAmbiguous(q: Request, r: Request)
    requires ColonFree(q.sub) && ColonFree(r.sub) && q != r && CacheKey(q) == CacheKey(r)
    requires |ObjAct(GuardOf(q))| >= |ObjAct(GuardOf(r))|
    ensures Ambiguous(GuardOf(q), GuardOf(r)) || (GuardOf(q) != GuardOf(r) && ObjAct(GuardOf(q)) == ObjAct(GuardOf(r)))
  {
    SharedKey(q, r);
    var x, y := ObjAct(GuardOf(q)), ObjAct(GuardOf(r));
    if |x| == |y| {
      LongerTail(q.dom + [':'], x, r.dom + [':'], y);
      assert q.dom == (q.dom + [':'])[..|q.dom|] && r.dom == (r.dom + [':'])[..|r.dom|];
    } else {
      assert r.dom + [':'] + y == r.dom + ([':'] + y);
      LongerTail(q.dom + [':'], x, r.dom, [':'] + y);
    }
  }

  lemma AmbiguousSharesKey(a: Guard, b: Guard) returns (q: Request, r: Request)
    requires Ambiguous(a, b)
    ensures q in RouteRequests(iset{a, b}) && r in RouteRequests(iset{a, b}) && q != r && CacheKey(q) == CacheKey(r)
  {
    var x, y := ObjAct(a), ObjAct(b);
    var rest := x[..|x| - |[':'] + y|];
    assert x == rest + [':'] + y;
    q := Request("user", "tenant", a.obj, a.act);
    r := Request("user", "tenant" + [':'] + rest, b.obj, b.act);
    assert q.dom + [':'] + x == r.dom + [':'] + y;
    assert |r.dom| > |q.dom|;
    SharedKey(q, r);
  }

  lemma SameTextSharesKey(a: Guard, b: Guard) returns (q: Request, r: Request)
    requires a != b && ObjAct(a) == ObjAct(b)
    ensures q in RouteRequests(iset{a, b}) && r in RouteRequests(iset{a, b}) && q != r && CacheKey(q) == CacheKey(r)
  {
    q := Request("user", "tenant", a.obj, a.act);
    r := Request("user", "tenant", b.obj, b.act);
    SharedKey(q, r);
  }

  /** Two guards that keys can confuse: written obj:act they are the same, or one ends in a colon and the other. */
  predicate Confusable(a: Guard, b: Guard) {
    Ambiguous(a, b) || (a != b && ObjAct(a) == ObjAct(b))
  }

  /** Keys tell all requests of a route table apart, whatever the colon-free users and the domains, if and only if no
      two of its guards are confusable. */
  lemma RouteRequestsInjective(guards: iset<Guard>)
    ensures KeyInjective(RouteRequests(guards)) <==> forall a, b :: a in guards && b in guards ==> !Confusable(a, b)
  {
    forall q, r | q in RouteRequests(guards) && r in RouteRequests(guards) && CacheKey(q) == CacheKey(r) && q != r
      ensures exists a, b :: a in guards && b in guards && Confusable(a, b)
    {
      if |ObjAct(GuardOf(q))| >= |ObjAct(GuardOf(r))| {
        SharedKeyIsAmbiguous(q, r);
        assert Confusable(GuardOf(q), GuardOf(r));
      } else {
        SharedKeyIsAmbiguous(r, q);
        assert Confusable(GuardOf(r), GuardOf(q));
      }
    }
    forall a, b | a in guards && b in guards && Confusable(a, b) ensures !KeyInjective(RouteRequests(guards)) {
      var q, r;
      if Ambiguous(a, b) {
        q, r := AmbiguousSharesKey(a, b);
      } else {
        q, r := SameTextSharesKey(a, b);
      }
      assert q in RouteRequests(guards) && r in RouteRequests(guards);
    }
  }

  /** Guards with colon-free objects are told apart by their text. */
  lemma ColonFreeObjects(a: Guard, b: Guard)
    requires ColonFree(a.obj) && ColonFree(b.obj)
    ensures Confusable(a, b) <==> Ambiguous(a, b)
  {
    if ObjAct(a) == ObjAct(b) {
      FirstSeparator(a.obj, a.act, b.obj, b.act, ':');
    }
  }

  /** Guards whose actions are colon-free, as all but the data portability ones are, are never ambiguous. */
  lemma ColonFreeGuard(a: Guard, b: Guard)
    requires ColonFree(a.obj) && ColonFree(a.act)
    ensures !Ambiguous(a, b)
  {
    var x, y := ObjAct(a), ObjAct(b);
    if Ambiguous(a, b) {
      var rest := x[..|x| - |[':'] + y|];
      assert x == rest + [':'] + (b.obj + [':'] + b.act);
      CountField(a.obj, a.act);
      CountField(rest, b.obj + [':'] + b.act);
      CountField(b.obj, b.act);
      CountZero(a.obj, ':');
      CountZero(a.act, ':');
    }
  }

  /** An action of one colon, as "export:create", is ambiguous with the one guard its two halves make. */
  lemma OneColonGuard(a: Guard, x: string, y: string, b: Guard)
    requires ColonFree(a.obj) && ColonFree(x) && ColonFree(y) && a.act == x + [':'] + y
    ensures Ambiguous(a, b) <==> b == Guard(x, y)
  {
    var whole, tail := ObjAct(a), [':'] + ObjAct(b);
    if Ambiguous(a, b) {
      var rest := whole[..|whole| - |tail|];
      assert whole == rest + [':'] + (b.obj + [':'] + b.act);
      CountField(a.obj, a.act);
      CountField(x, y);
      CountField(rest, b.obj + [':'] + b.act);
      CountField(b.obj, b.act);
      CountZero(a.obj, ':');
      CountZero(x, ':');
      CountZero(y, ':');
      CountZero(rest, ':');
      CountZero(b.obj, ':');
      FirstSeparator(a.obj, a.act, rest, b.obj + [':'] + b.act, ':');
      FirstSeparator(x, y, b.obj, b.act, ':');
    }
    if b == Guard(x, y) {
      assert whole == a.obj + tail;
    }
  }

  lemma SplitAtColon(field: string) returns (left: string, right: string)
    requires !ColonFree(field)
    ensures field == left + [':'] + right && left != field && right != field
  {
    var i :| 0 <= i < |field| && field[i] == ':';
    left, right := field[..i], field[i + 1..];
    assert |left| < |field| && |right| < |field|;
  }

  /** A request is the only one with its key exactly when none of its fields holds a colon. */
  lemma CacheKeyUnique(q: Request)
    ensures (forall r :: CacheKey(r) == CacheKey(q) ==> r == q) <==> AllColonFree(q)
  {
    if AllColonFree(q) {
      forall r | CacheKey(r) == CacheKey(q) ensures r == q {
        KeyColons(q);
        KeyColons(r);
        FieldsColonFree(q);
        FieldsColonFree(r);
        CacheKeyInjective(q, r);
      }
    } else {
      var r := OtherWithSameKey(q);
    }
  }

  lemma FieldsColonFree(q: Request)
    ensures Count(q.sub, ':') + Count(q.dom, ':') + Count(q.obj, ':') + Count(q.act, ':') == 0 <==> AllColonFree(q)
  {
    CountZero(q.sub, ':');
    CountZero(q.dom, ':');
    CountZero(q.obj, ':');
    CountZero(q.act, ':');
  }

  lemma OtherWithSameKey(q: Request) returns (r: Request)
    requires !AllColonFree(q)
    ensures r != q && CacheKey(r) == CacheKey(q)
  {
    if !ColonFree(q.sub) {
      var left, right := SplitAtColon(q.sub);
      r := Request(left, right + ":" + q.dom, q.obj, q.act);
    } else if !ColonFree(q.dom) {
      var left, right := SplitAtColon(q.dom);
      r := Request(q.sub, left, right + ":" + q.obj, q.act);
    } else if !ColonFree(q.obj) {
      var left, right := SplitAtColon(q.obj);
      r := Request(q.sub, q.dom, left, right + ":" + q.act);
    } else {
      var left, right := SplitAtColon(q.act);
      r := Request(q.sub, q.dom, q.obj + ":" + left, right);
    }
    assert CacheKey(r) == CacheKey(q);
  }

  /** Parsing undoes printing exactly when all four fields are colon-free. */
  lemma ParsePrinted(q: Request)
    ensures ParseCacheKey(CacheKey(q)) == Ok(q) <==> AllColonFree(q)
    ensures !AllColonFree(q) ==> ParseCacheKey(CacheKey(q)).Err?
  {
    KeyColons(q);
    FieldsColonFree(q);
    if AllColonFree(q) {
      KeyShape(q);
      var objAct := q.obj + [':'] + q.act;
      var domRest := q.dom + [':'] + objAct;
      SplitHead("perm", q.sub + [':'] + domRest, ':');
      SplitHead(q.sub, domRest, ':');
      SplitHead(q.dom, objAct, ':');
      SplitHead(q.obj, q.act, ':');
      SplitWhole(q.act, ':');
      assert Split(CacheKey(q), ':') == ["perm", q.sub, q.dom, q.obj, q.act];
    }
  }

  lemma JoinFive(a: string, b: string, c: string, d: string, e: string)
    ensures Join([a, b, c, d, e], ':') == a + [':'] + (b + [':'] + (c + [':'] + (d + [':'] + e)))
  {
    assert [a, b, c, d, e][1..] == [b, c, d, e];
    assert [b, c, d, e][1..] == [c, d, e];
    assert [c, d, e][1..] == [d, e];
    assert [d, e][1..] == [e];
    assert Join([d, e], ':') == d + [':'] + e;
    assert Join([c, d, e], ':') == c + [':'] + (d + [':'] + e);
  }

  /** Printing undoes parsing on every key the parser accepts. */
  lemma PrintParsed(key: string)
    requires ParseCacheKey(key).Ok?
    ensures CacheKey(ParseCacheKey(key).value) == key
    ensures AllColonFree(ParseCacheKey(key).value)
  {
    var parts := Split(key, ':');
    JoinSplit(key, ':');
    SplitPartsFree(key, ':');
    assert parts == [parts[0], parts[1], parts[2], parts[3], parts[4]];
    JoinFive(parts[0], parts[1], parts[2], parts[3], parts[4]);
    KeyShape(ParseCacheKey(key).value);
  }

  // ---- Invalidation patterns ----

  function UserPattern(user: string): string {
    PREFIX + user + ":*"
  }

  function DomainPattern(domain: string): string {
    PREFIX + "*:" + domain + ":*"
  }

  lemma PrefixPattern(key: string, prefix: string)
    requires prefix != "" && prefix[0] != '*'
    ensures MatchesPattern(key, prefix + "*") <==> HasPrefix(key, prefix)
  {
    var pattern := prefix + "*";
    assert pattern[..|pattern| - 1] == prefix;
    assert pattern[|pattern| - 1..] == "*";
    assert pattern[0] != '*';
  }

  lemma AllPatternMatches(key: string)
    ensures MatchesPattern(key, PREFIX + "*") <==> HasPrefix(key, PREFIX)
  {
    PrefixPattern(key, PREFIX);
  }

  lemma UserPatternMatches(key: string, user: string)
    ensures MatchesPattern(key, UserPattern(user)) <==> HasPrefix(key, PREFIX + user + ":")
  {
    assert UserPattern(user) == PREFIX + user + ":" + "*";
    PrefixPattern(key, PREFIX + user + ":");
  }

  lemma PrefixAfterHead(head: string, x: string, y: string)
    ensures HasPrefix(head + x, head + y) <==> HasPrefix(x, y)
  {
    if |y| <= |x| {
      assert (head + x)[..|head + y|] == head + x[..|y|];
      assert (head + x[..|y|])[|head|..] == x[..|y|];
      assert (head + y)[|head|..] == y;
    }
  }

  lemma PrefixAfterField(field: string, x: string, other: string, y: string)
    requires ColonFree(field) && ColonFree(other)
    ensures HasPrefix(field + [':'] + x, other + [':'] + y) <==> field == other && HasPrefix(x, y)
  {
    var s, prefix := field + [':'] + x, other + [':'] + y;
    if field == other {
      PrefixAfterHead(field + [':'], x, y);
    }
    if HasPrefix(s, prefix) {
      var after := s[|prefix|..];
      assert s == prefix + after;
      assert s == other + [':'] + (y + after);
      FirstSeparator(field, x, other, y + after, ':');
    }
  }

  /** The user pattern picks, among keys of requests with colon-free subjects, exactly that user's. */
  lemma UserPatternSelects(q: Request, user: string)
    requires ColonFree(user) && ColonFree(q.sub)
    ensures MatchesPattern(CacheKey(q), UserPattern(user)) <==> q.sub == user
  {
    KeyShape(q);
    UserPatternMatches(CacheKey(q), user);
    var rest := q.dom + [':'] + (q.obj + [':'] + q.act);
    assert CacheKey(q) == PREFIX + (q.sub + [':'] + rest);
    assert PREFIX + user + ":" == PREFIX + (user + [':'] + "");
    PrefixAfterHead(PREFIX, q.sub + [':'] + rest, user + [':'] + "");
    PrefixAfterField(q.sub, rest, user, "");
  }

  lemma CutAtColon(s: string) returns (left: string, right: string)
    requires !ColonFree(s)
    ensures s == left + [':'] + right && Count(right, ':') == Count(s, ':') - 1
  {
    FirstColon(s);
    var i: nat :| i < |s| && s[i] == ':' && ':' !in s[..i];
    left, right := s[..i], s[i + 1..];
    assert s == left + [':'] + right;
    CountField(left, right);
    CountZero(left, ':');
  }

  lemma {:induction false} FirstColon(s: string)
    requires !ColonFree(s)
    ensures exists i: nat :: i < |s| && s[i] == ':' && ':' !in s[..i]
  {
    if s[0] == ':' {
      assert ':' !in s[..0];
    } else {
      assert s == [s[0]] + s[1..];
      FirstColon(s[1..]);
      var i: nat :| i < |s[1..]| && s[1..][i] == ':' && ':' !in s[1..][..i];
      assert s[..i + 1] == [s[0]] + s[1..][..i];
    }
  }

  /** Any request's key that the pattern of a colon-free user picks is the key of a request of that user. */
  lemma RequestOfUser(q: Request, user: string) returns (r: Request)
    requires ColonFree(user) && MatchesPattern(CacheKey(q), UserPattern(user))
    ensures CacheKey(r) == CacheKey(q) && r.sub == user
  {
    UserPatternMatches(CacheKey(q), user);
    var head := PREFIX + user + ":";
    var rest := CacheKey(q)[|head|..];
    assert CacheKey(q) == "perm" + [':'] + (user + [':'] + rest);
    KeyColons(q);
    CountField("perm", user + [':'] + rest);
    CountField(user, rest);
    CountZero("perm", ':');
    CountZero(user, ':');
    CountZero(rest, ':');
    var dom, tail := CutAtColon(rest);
    CountZero(tail, ':');
    var obj, act := CutAtColon(tail);
    r := Request(user, dom, obj, act);
    KeyShape(r);
  }

  lemma DomainPatternHasInteriorStar(domain: string)
    ensures InteriorStar(DomainPattern(domain))
  {
    assert DomainPattern(domain)[|PREFIX|] == '*';
  }

  /** The domain pattern has an interior star, so the coded matcher reads that star literally: of the requests with a
      colon-free subject it picks those of a subject named "*" whose domain, object and action start with the domain. */
  lemma DomainPatternSelects(q: Request, domain: string)
    requires ColonFree(q.sub)
    ensures MatchesPattern(CacheKey(q), DomainPattern(domain)) <==>
      q.sub == "*" && HasPrefix(q.dom + [':'] + ObjAct(GuardOf(q)), domain + [':'])
  {
    var prefix := PREFIX + ("*" + [':'] + (domain + [':']));
    assert DomainPattern(domain) == prefix + "*";
    PrefixPattern(CacheKey(q), prefix);
    DomainShape(q);
    var rest := q.dom + [':'] + ObjAct(GuardOf(q));
    assert CacheKey(q) == PREFIX + (q.sub + [':'] + rest);
    PrefixAfterHead(PREFIX, q.sub + [':'] + rest, "*" + [':'] + (domain + [':']));
    PrefixAfterField(q.sub, rest, "*", domain + [':']);
  }

  lemma OwnDomainSelects(q: Request)
    requires ColonFree(q.sub)
    ensures MatchesPattern(CacheKey(q), DomainPattern(q.dom)) <==> q.sub == "*"
  {
    DomainPatternSelects(q, q.dom);
    var whole := q.dom + [':'] + ObjAct(GuardOf(q));
    assert whole[..|q.dom + [':']|] == q.dom + [':'];
  }

  /** Under the reference glob the same pattern would reach every request of the domain. */
  lemma DomainPatternIntent(q: Request)
    ensures Glob(CacheKey(q), DomainPattern(q.dom))
  {
    var tail := ":" + q.dom + ":";
    var objAct := q.obj + ":" + q.act;
    GlobSelf(PREFIX);
    GlobStarAcceptsAll(q.sub);
    GlobSelf(tail);
    GlobStarAcceptsAll(objAct);
    GlobConcat(PREFIX, PREFIX, q.sub, "*");
    GlobConcat(PREFIX + q.sub, PREFIX + "*", tail, tail);
    GlobConcat(PREFIX + q.sub + tail, PREFIX + "*" + tail, objAct, "*");
    assert CacheKey(q) == PREFIX + q.sub + tail + objAct;
    assert DomainPattern(q.dom) == PREFIX + "*" + tail + "*";
  }
}
