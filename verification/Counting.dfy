// How many threads of a sequence satisfy a predicate.
module Counting {

  function Count<T>(p: T -> bool, s: seq<T>): nat {
    if s == [] then 0 else (if p(s[0]) then 1 else 0) + Count(p, s[1..])
  }

  function One(b: bool): nat {
    if b then 1 else 0
  }

  lemma {:induction false} CountUpdate<T>(p: T -> bool, s: seq<T>, i: nat, v: T)
    requires i < |s|
    ensures Count(p, s[i := v]) == Count(p, s) - One(p(s[i])) + One(p(v))
  {
    if i == 0 {
      assert s[0 := v][1..] == s[1..];
    } else {
      CountUpdate(p, s[1..], i - 1, v);
      assert s[i := v][1..] == s[1..][i - 1 := v];
    }
  }

  lemma {:induction false} CountSame<T>(p: T -> bool, s: seq<T>, t: seq<T>)
    requires |s| == |t| && forall i :: 0 <= i < |s| ==> p(s[i]) == p(t[i])
    ensures Count(p, s) == Count(p, t)
  {
    if s == [] {
    } else {
      CountSame(p, s[1..], t[1..]);
    }
  }

  lemma {:induction false} CountBounds<T>(p: T -> bool, s: seq<T>)
    ensures Count(p, s) <= |s|
    ensures Count(p, s) == |s| <==> forall i :: 0 <= i < |s| ==> p(s[i])
    ensures Count(p, s) == 0 <==> forall i :: 0 <= i < |s| ==> !p(s[i])
  {
    if s == [] {
    } else {
      CountBounds(p, s[1..]);
      assert forall i :: 1 <= i < |s| ==> s[i] == s[1..][i - 1];
    }
  }

  lemma CountOne<T>(p: T -> bool, s: seq<T>, i: nat)
    requires i < |s| && p(s[i])
    ensures Count(p, s) >= 1
  {
    CountBounds(p, s);
  }

  lemma {:induction false} CountTwo<T>(p: T -> bool, s: seq<T>, i: nat, j: nat)
    requires i < j < |s| && p(s[i]) && p(s[j])
    ensures Count(p, s) >= 2
  {
    if i == 0 {
      CountOne(p, s[1..], j - 1);
    } else {
      CountTwo(p, s[1..], i - 1, j - 1);
    }
  }

  // p implies q, thread by thread.
  lemma {:induction false} CountLess<T>(p: T -> bool, q: T -> bool, s: seq<T>)
    requires forall i :: 0 <= i < |s| && p(s[i]) ==> q(s[i])
    ensures Count(p, s) <= Count(q, s)
  {
    if s == [] {
    } else {
      CountLess(p, q, s[1..]);
    }
  }

  // p in one sequence implies q in another, place by place.
  lemma {:induction false} CountInto<T, U>(p: T -> bool, s: seq<T>, q: U -> bool, t: seq<U>)
    requires |s| == |t| && forall i :: 0 <= i < |s| && p(s[i]) ==> q(t[i])
    ensures Count(p, s) <= Count(q, t)
  {
    if s == [] {
      assert Count(p, s) == 0;
    } else {
      assert p(s[0]) ==> q(t[0]);
      forall i | 0 <= i < |s[1..]| && p(s[1..][i]) ensures q(t[1..][i]) {
        assert p(s[i + 1]) ==> q(t[i + 1]);
      }
      CountInto(p, s[1..], q, t[1..]);
    }
  }
}
