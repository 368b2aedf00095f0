// Adding up what the places of a system hold.

module Bags {
  ghost function Bag<T, X>(s: seq<T>, f: T -> multiset<X>): multiset<X> {
    if s == [] then multiset{} else f(s[0]) + Bag(s[1..], f)
  }

  ghost function Sum<T>(s: seq<T>, f: T -> nat): nat {
    if s == [] then 0 else f(s[0]) + Sum(s[1..], f)
  }

  lemma {:induction false} BagConcat<T, X>(s: seq<T>, t: seq<T>, f: T -> multiset<X>)
    ensures Bag(s + t, f) == Bag(s, f) + Bag(t, f)
  {
    if s == [] {
      assert s + t == t;
    } else {
      assert (s + t)[1..] == s[1..] + t;
      BagConcat(s[1..], t, f);
    }
  }

  lemma {:induction false} SumConcat<T>(s: seq<T>, t: seq<T>, f: T -> nat)
    ensures Sum(s + t, f) == Sum(s, f) + Sum(t, f)
  {
    if s == [] {
      assert s + t == t;
    } else {
      assert (s + t)[1..] == s[1..] + t;
      SumConcat(s[1..], t, f);
    }
  }

  lemma BagOne<T, X>(x: T, f: T -> multiset<X>)
    ensures Bag([x], f) == f(x)
  {
    assert [x][1..] == [];
  }

  lemma SumOne<T>(x: T, f: T -> nat)
    ensures Sum([x], f) == f(x)
  {
    assert [x][1..] == [];
  }

  lemma SumPush<T>(s: seq<T>, x: T, f: T -> nat)
    ensures Sum(s + [x], f) == Sum(s, f) + f(x)
  {
    SumConcat(s, [x], f);
    SumOne(x, f);
  }

  lemma BagRemove<T, X>(s: seq<T>, i: nat, f: T -> multiset<X>)
    requires i < |s|
    ensures Bag(s, f) == Bag(s[..i] + s[i + 1..], f) + f(s[i])
  {
    hide Bag;
    var head, x, tail := s[..i], [s[i]], s[i + 1..];
    assert s == head + (x + tail);
    BagConcat(head, x + tail, f);
    BagConcat(x, tail, f);
    BagOne(s[i], f);
    BagConcat(head, tail, f);
  }

  lemma SumRemove<T>(s: seq<T>, i: nat, f: T -> nat)
    requires i < |s|
    ensures Sum(s, f) == Sum(s[..i] + s[i + 1..], f) + f(s[i])
  {
    hide Sum;
    var head, x, tail := s[..i], [s[i]], s[i + 1..];
    assert s == head + (x + tail);
    SumConcat(head, x + tail, f);
    SumConcat(x, tail, f);
    SumOne(s[i], f);
    SumConcat(head, tail, f);
  }

  lemma BagUpdate<T, X>(s: seq<T>, i: nat, x: T, f: T -> multiset<X>)
    requires i < |s|
    ensures Bag(s[i := x], f) + f(s[i]) == Bag(s, f) + f(x)
  {
    hide Bag;
    BagRemove(s, i, f);
    BagRemove(s[i := x], i, f);
    assert s[i := x][..i] == s[..i] && s[i := x][i + 1..] == s[i + 1..];
  }

  lemma SumUpdate<T>(s: seq<T>, i: nat, x: T, f: T -> nat)
    requires i < |s|
    ensures Sum(s[i := x], f) + f(s[i]) == Sum(s, f) + f(x)
  {
    hide Sum;
    SumRemove(s, i, f);
    SumRemove(s[i := x], i, f);
    assert s[i := x][..i] == s[..i] && s[i := x][i + 1..] == s[i + 1..];
  }

  lemma SumMember<T>(s: seq<T>, i: nat, f: T -> nat)
    requires i < |s|
    ensures Sum(s, f) >= f(s[i])
  {
    SumRemove(s, i, f);
  }
}
