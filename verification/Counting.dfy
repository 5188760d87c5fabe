/** Counting the elements of a sequence that meet a condition. */
module Counting {

  function CountIf<T>(s: seq<T>, p: T -> bool): nat {
    if s == [] then 0
    else CountIf(s[..|s| - 1], p) + (if p(s[|s| - 1]) then 1 else 0)
  }

  function Without<T>(s: seq<T>, i: nat): seq<T>
    requires i < |s|
  {
    s[..i] + s[i + 1..]
  }

  lemma CountIfSnoc<T>(s: seq<T>, x: T, p: T -> bool)
    ensures CountIf(s + [x], p) == CountIf(s, p) + (if p(x) then 1 else 0)
  {
    assert (s + [x])[..|s|] == s;
  }

  lemma {:induction false} CountIfConcat<T>(a: seq<T>, b: seq<T>, p: T -> bool)
    ensures CountIf(a + b, p) == CountIf(a, p) + CountIf(b, p)
  {
    if b == [] {
      assert a + b == a;
    } else {
      var m := |b| - 1;
      assert (a + b)[..|a| + m] == a + b[..m];
      CountIfConcat(a, b[..m], p);
    }
  }

  lemma {:induction false} CountIfWithout<T>(s: seq<T>, i: nat, p: T -> bool)
    requires i < |s|
    ensures CountIf(s, p) == CountIf(Without(s, i), p) + (if p(s[i]) then 1 else 0)
  {
    var m := |s| - 1;
    if i == m {
      assert Without(s, i) == s[..m];
    } else {
      CountIfWithout(s[..m], i, p);
      assert Without(s, i) == Without(s[..m], i) + [s[m]];
      CountIfSnoc(Without(s[..m], i), s[m], p);
    }
  }

  lemma {:induction false} CountIfWeaker<T>(s: seq<T>, p: T -> bool, q: T -> bool)
    requires forall i :: 0 <= i < |s| && p(s[i]) ==> q(s[i])
    ensures CountIf(s, p) <= CountIf(s, q) <= |s|
  {
    if s != [] {
      CountIfWeaker(s[..|s| - 1], p, q);
    }
  }

  lemma {:induction false} CountIfNone<T>(s: seq<T>, p: T -> bool)
    requires forall i :: 0 <= i < |s| ==> !p(s[i])
    ensures CountIf(s, p) == 0
  {
    if s != [] {
      CountIfNone(s[..|s| - 1], p);
    }
  }

  /** If each element meeting p meets q or r, then q and r together count at least as many. */
  lemma {:induction false} CountIfCover<T>(s: seq<T>, p: T -> bool, q: T -> bool, r: T -> bool)
    requires forall i :: 0 <= i < |s| && p(s[i]) ==> q(s[i]) || r(s[i])
    ensures CountIf(s, p) <= CountIf(s, q) + CountIf(s, r)
  {
    if s != [] {
      CountIfCover(s[..|s| - 1], p, q, r);
    }
  }

  /** Elements that meet one of two conditions, never both, are counted by a third that covers them. */
  lemma {:induction false} CountIfApart<T>(s: seq<T>, p: T -> bool, q: T -> bool, r: T -> bool)
    requires forall i :: 0 <= i < |s| ==> !(q(s[i]) && r(s[i])) && (q(s[i]) || r(s[i]) ==> p(s[i]))
    ensures CountIf(s, q) + CountIf(s, r) <= CountIf(s, p)
  {
    if s != [] {
      CountIfApart(s[..|s| - 1], p, q, r);
    }
  }

  lemma {:induction false} CountIfAll<T>(s: seq<T>, p: T -> bool)
    requires forall i :: 0 <= i < |s| ==> p(s[i])
    ensures CountIf(s, p) == |s|
  {
    if s != [] {
      CountIfAll(s[..|s| - 1], p);
    }
  }
}
