// Stock idioms shared by the other modules.
module Basics {
  datatype Option<+T> = None | Some(value: T)

  lemma Associates<T>(a: seq<T>, b: seq<T>, c: seq<T>)
    ensures a + b + c == a + (b + c)
  {
  }

  function Sum<T>(s: seq<T>, m: T -> nat): nat {
    if s == [] then 0 else m(s[0]) + Sum(s[1..], m)
  }

  lemma {:induction false} SumUpdate<T>(s: seq<T>, i: nat, x: T, m: T -> nat)
    requires i < |s|
    ensures Sum(s[i := x], m) + m(s[i]) == Sum(s, m) + m(x)
  {
    if i == 0 {
      assert s[0 := x][1..] == s[1..];
    } else {
      assert s[i := x][1..] == s[1..][i - 1 := x];
      SumUpdate(s[1..], i - 1, x, m);
    }
  }

  lemma {:induction false} SumAtLeast<T>(s: seq<T>, i: nat, m: T -> nat)
    requires i < |s|
    ensures m(s[i]) <= Sum(s, m)
  {
    if i != 0 {
      SumAtLeast(s[1..], i - 1, m);
    }
  }

  // Two sequences measured pointwise, the first never above the second.
  lemma {:induction false} SumBelow<T>(s: seq<T>, t: seq<T>, m: T -> nat, n: T -> nat)
    requires |s| == |t|
    requires forall i :: 0 <= i < |s| ==> m(s[i]) <= n(t[i])
    ensures Sum(s, m) <= Sum(t, n)
  {
    if s != [] {
      assert forall i :: 0 <= i < |s[1..]| ==> s[1..][i] == s[i + 1] && t[1..][i] == t[i + 1];
      SumBelow(s[1..], t[1..], m, n);
    }
  }

  lemma {:induction false} SumZero<T>(s: seq<T>, m: T -> nat)
    requires forall i :: 0 <= i < |s| ==> m(s[i]) == 0
    ensures Sum(s, m) == 0
  {
    if s != [] {
      SumZero(s[1..], m);
    }
  }

  lemma {:induction false} SumConcat<T>(s: seq<T>, t: seq<T>, m: T -> nat)
    ensures Sum(s + t, m) == Sum(s, m) + Sum(t, m)
  {
    if s == [] {
      assert s + t == t;
    } else {
      assert (s + t)[1..] == s[1..] + t;
      SumConcat(s[1..], t, m);
    }
  }

  function RemoveAt<T>(s: seq<T>, k: nat): seq<T>
    requires k < |s|
  {
    s[..k] + s[k + 1..]
  }

  lemma SumRemoveAt<T>(s: seq<T>, k: nat, m: T -> nat)
    requires k < |s|
    ensures Sum(RemoveAt(s, k), m) + m(s[k]) == Sum(s, m)
  {
    var x, rest := s[k], s[k + 1..];
    assert ([x] + rest)[1..] == rest;
    assert s == s[..k] + ([x] + rest);
    SumConcat(s[..k], [x] + rest, m);
    SumConcat(s[..k], rest, m);
  }
}
