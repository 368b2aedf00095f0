// internal/cache/memory.go, matchesPattern: wildcard matching of cache keys.

module Patterns {
  import opened Text

  /** The matcher as coded: at most one leading and one trailing star is a wildcard. */
  predicate MatchesPattern(key: string, pattern: string) {
    if pattern == "*" then true
    else if HasPrefix(pattern, "*") && HasSuffix(pattern, "*") then
      Contains(key, pattern[1..|pattern| - 1])
    else if HasSuffix(pattern, "*") then HasPrefix(key, pattern[..|pattern| - 1])
    else if HasPrefix(pattern, "*") then HasSuffix(key, pattern[1..])
    else key == pattern
  }

  /** Reference semantics: every star matches any string, every other character itself. */
  predicate Glob(key: string, pattern: string)
    decreases |pattern|, |key|
  {
    if pattern == "" then key == ""
    else if pattern[0] == '*' then Glob(key, pattern[1..]) || (key != "" && Glob(key[1..], pattern))
    else key != "" && key[0] == pattern[0] && Glob(key[1..], pattern[1..])
  }

  predicate InteriorStar(pattern: string) {
    exists i :: 0 < i < |pattern| - 1 && pattern[i] == '*'
  }

  function Destar(pattern: string): string {
    if pattern == "" then ""
    else (if pattern[0] == '*' then "" else [pattern[0]]) + Destar(pattern[1..])
  }

  lemma {:induction false} DestarHasNoStar(pattern: string)
    ensures '*' !in Destar(pattern)
  {
    if pattern != "" {
      DestarHasNoStar(pattern[1..]);
    }
  }

  lemma {:induction false} GlobAcceptsDestarred(pattern: string)
    ensures Glob(Destar(pattern), pattern)
  {
    if pattern != "" {
      GlobAcceptsDestarred(pattern[1..]);
      if pattern[0] == '*' {
        assert Destar(pattern) == Destar(pattern[1..]);
      } else {
        assert Destar(pattern)[1..] == Destar(pattern[1..]);
      }
    }
  }

  lemma {:induction false} GlobConcat(a: string, p: string, b: string, q: string)
    requires Glob(a, p) && Glob(b, q)
    ensures Glob(a + b, p + q)
    decreases |p|, |a|
  {
    if p == "" {
      assert a + b == b && p + q == q;
    } else {
      assert (p + q)[1..] == p[1..] + q;
      if a != "" {
        assert (a + b)[1..] == a[1..] + b;
      }
      if p[0] == '*' && Glob(a, p[1..]) {
        GlobConcat(a, p[1..], b, q);
      } else if p[0] == '*' {
        GlobConcat(a[1..], p, b, q);
      } else {
        GlobConcat(a[1..], p[1..], b, q);
      }
    }
  }

  lemma {:induction false} GlobSelf(s: string)
    ensures Glob(s, s)
  {
    if s != "" {
      GlobSelf(s[1..]);
      assert s[0] == '*' ==> Glob(s[1..], s);
    }
  }

  lemma {:induction false} GlobStarAcceptsAll(s: string)
    ensures Glob(s, "*")
  {
    if s != "" {
      GlobStarAcceptsAll(s[1..]);
    }
  }

  /** A star-free head of the pattern must be a literal prefix of the key. */
  lemma {:induction false} GlobLiteralHead(key: string, head: string, rest: string)
    requires '*' !in head
    ensures Glob(key, head + rest) <==> HasPrefix(key, head) && Glob(key[|head|..], rest)
  {
    if head == "" {
      assert head + rest == rest;
      assert key[0..] == key;
    } else {
      assert (head + rest)[1..] == head[1..] + rest;
      if key != "" {
        GlobLiteralHead(key[1..], head[1..], rest);
        if |head| <= |key| {
          assert key[1..][|head| - 1..] == key[|head|..];
          assert key[..|head|] == [key[0]] + key[1..][..|head| - 1];
        }
      }
    }
  }

  /** A leading star skips any part of the key. */
  lemma {:induction false} GlobStarHead(key: string, rest: string)
    ensures Glob(key, "*" + rest) <==> exists i :: 0 <= i <= |key| && Glob(key[i..], rest)
  {
    assert ("*" + rest)[1..] == rest;
    assert key[0..] == key;
    if key != "" {
      GlobStarHead(key[1..], rest);
      assert forall i :: 0 <= i < |key| ==> key[1..][i..] == key[i + 1..];
      if i :| 0 <= i <= |key| && Glob(key[i..], rest) {
        if i > 0 {
          assert key[1..][i - 1..] == key[i..];
        }
      }
    }
  }

  lemma GlobOfPrefix(key: string, prefix: string)
    requires HasPrefix(key, prefix)
    ensures Glob(key, prefix + "*")
  {
    GlobSelf(prefix);
    GlobStarAcceptsAll(key[|prefix|..]);
    GlobConcat(prefix, prefix, key[|prefix|..], "*");
    assert key == prefix + key[|prefix|..];
  }

  lemma GlobOfSuffix(key: string, pattern: string, i: nat)
    requires i <= |key| && Glob(key[i..], pattern)
    ensures Glob(key, "*" + pattern)
  {
    GlobStarAcceptsAll(key[..i]);
    GlobConcat(key[..i], "*", key[i..], pattern);
    assert key == key[..i] + key[i..];
  }

  /** The coded matcher never accepts more than the reference. */
  lemma MatchesPatternSound(key: string, pattern: string)
    requires MatchesPattern(key, pattern)
    ensures Glob(key, pattern)
  {
    if pattern == "*" {
      GlobStarAcceptsAll(key);
    } else if HasPrefix(pattern, "*") && HasSuffix(pattern, "*") {
      var middle := pattern[1..|pattern| - 1];
      ContainsIsSubstring(key, middle);
      var i :| 0 <= i <= |key| && HasPrefix(key[i..], middle);
      GlobOfPrefix(key[i..], middle);
      GlobOfSuffix(key, middle + "*", i);
      assert pattern == "*" + (middle + "*");
    } else if HasSuffix(pattern, "*") {
      GlobOfPrefix(key, pattern[..|pattern| - 1]);
      assert pattern == pattern[..|pattern| - 1] + "*";
    } else if HasPrefix(pattern, "*") {
      GlobSelf(pattern[1..]);
      GlobOfSuffix(key, pattern[1..], |key| - (|pattern| - 1));
      assert pattern == "*" + pattern[1..];
    } else {
      GlobSelf(key);
    }
  }

  /** Without an interior star the coded matcher is complete as well. */
  lemma MatchesPatternComplete(key: string, pattern: string)
    requires !InteriorStar(pattern)
    requires Glob(key, pattern)
    ensures MatchesPattern(key, pattern)
  {
    if pattern == "*" || pattern == "" {
    } else if HasPrefix(pattern, "*") && HasSuffix(pattern, "*") {
      var middle := pattern[1..|pattern| - 1];
      assert pattern == "*" + (middle + "*");
      GlobStarHead(key, middle + "*");
      var i :| 0 <= i <= |key| && Glob(key[i..], middle + "*");
      GlobLiteralHead(key[i..], middle, "*");
      ContainsIsSubstring(key, middle);
    } else if HasSuffix(pattern, "*") {
      var prefix := pattern[..|pattern| - 1];
      assert pattern == prefix + "*";
      GlobLiteralHead(key, prefix, "*");
    } else if HasPrefix(pattern, "*") {
      var suffix := pattern[1..];
      assert pattern == "*" + suffix;
      GlobStarHead(key, suffix);
      var i :| 0 <= i <= |key| && Glob(key[i..], suffix);
      assert suffix + "" == suffix;
      GlobLiteralHead(key[i..], suffix, "");
      assert key[i..] == suffix;
    } else {
      assert pattern[0] != '*' && pattern[|pattern| - 1] != '*';
      assert pattern + "" == pattern;
      GlobLiteralHead(key, pattern, "");
    }
  }

  /** What the coded matcher accepts under an interior star holds a star itself. */
  lemma InteriorStarIsLiteral(key: string, pattern: string)
    requires InteriorStar(pattern)
    requires MatchesPattern(key, pattern)
    ensures '*' in key
  {
    var i :| 0 < i < |pattern| - 1 && pattern[i] == '*';
    if HasPrefix(pattern, "*") && HasSuffix(pattern, "*") {
      var middle := pattern[1..|pattern| - 1];
      ContainsIsSubstring(key, middle);
      var j :| 0 <= j <= |key| && HasPrefix(key[j..], middle);
      assert middle[i - 1] == '*';
      assert key[j..][..|middle|][i - 1] == key[j + i - 1];
    } else if HasSuffix(pattern, "*") {
      assert key[..|pattern| - 1][i] == key[i];
    } else if HasPrefix(pattern, "*") {
      var suffix := pattern[1..];
      assert key[|key| - |suffix|..][i - 1] == key[|key| - |suffix| + i - 1];
    }
  }

  /** The coded matcher is the reference glob on every key exactly for patterns without an interior star. */
  lemma MatchesPatternIsGlob(pattern: string)
    ensures (forall key :: MatchesPattern(key, pattern) <==> Glob(key, pattern)) <==> !InteriorStar(pattern)
  {
    if InteriorStar(pattern) {
      var key := Destar(pattern);
      GlobAcceptsDestarred(pattern);
      DestarHasNoStar(pattern);
      if MatchesPattern(key, pattern) {
        InteriorStarIsLiteral(key, pattern);
      }
      assert !MatchesPattern(key, pattern) && Glob(key, pattern);
    } else {
      forall key ensures MatchesPattern(key, pattern) <==> Glob(key, pattern) {
        if Glob(key, pattern) {
          MatchesPatternComplete(key, pattern);
        }
        if MatchesPattern(key, pattern) {
          MatchesPatternSound(key, pattern);
        }
      }
    }
  }
}
