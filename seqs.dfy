/** The array operations the pages use: `filter`, `slice().reverse()`,
    index-based removal and summing `reduce`s. */
module Seqs {

  /** `s.filter(p)`: the elements satisfying `p`, in their original order. */
  function Filter<T>(s: seq<T>, p: T -> bool): (r: seq<T>)
    ensures |r| <= |s|
    ensures forall i :: 0 <= i < |r| ==> r[i] in s && p(r[i])
    ensures forall i :: 0 <= i < |s| && p(s[i]) ==> s[i] in r
  {
    if s == [] then [] else (if p(s[0]) then [s[0]] else []) + Filter(s[1..], p)
  }

  /** Filtering distributes over concatenation, so it keeps relative order. */
  lemma {:induction false} FilterConcat<T>(a: seq<T>, b: seq<T>, p: T -> bool)
    ensures Filter(a + b, p) == Filter(a, p) + Filter(b, p)
    decreases |a|
  {
    if a == [] {
      assert a + b == b;
    } else {
      var head := if p(a[0]) then [a[0]] else [];
      assert (a + b)[0] == a[0] && (a + b)[1..] == a[1..] + b;
      assert Filter(a + b, p) == head + Filter(a[1..] + b, p);
      FilterConcat(a[1..], b, p);
    }
  }

  /** A filter with a weaker test keeps at least as many elements. */
  lemma {:induction false} FilterWeakerKeepsMore<T>(s: seq<T>, q: T -> bool, p: T -> bool)
    requires forall x :: q(x) ==> p(x)
    ensures |Filter(s, q)| <= |Filter(s, p)|
    decreases |s|
  {
    if s != [] {
      FilterWeakerKeepsMore(s[1..], q, p);
    }
  }

  /** `s.slice().reverse()`. */
  function Reverse<T>(s: seq<T>): (r: seq<T>)
    ensures |r| == |s|
    ensures forall i :: 0 <= i < |s| ==> r[i] == s[|s| - 1 - i]
  {
    if s == [] then [] else Reverse(s[1..]) + [s[0]]
  }

  /** Reversing keeps exactly the same members. */
  lemma ReverseSameMembers<T>(s: seq<T>)
    ensures forall x :: x in Reverse(s) <==> x in s
  {
    var r := Reverse(s);
    forall x | x in s ensures x in r {
      var j :| 0 <= j < |s| && s[j] == x;
      assert r[|s| - 1 - j] == x;
    }
  }

  /** Filtering then reversing keeps exactly the elements that pass, in
      the opposite order. */
  lemma ReverseFilterContents<T>(s: seq<T>, p: T -> bool)
    ensures var f := Filter(s, p);
            forall i :: 0 <= i < |f| ==> p(Reverse(f)[i]) && Reverse(f)[i] in s
    ensures forall x :: x in s && p(x) ==> x in Reverse(Filter(s, p))
  {
    var f := Filter(s, p);
    var r := Reverse(f);
    ReverseSameMembers(f);
    forall i | 0 <= i < |f| ensures p(r[i]) && r[i] in s {
      assert r[i] == f[|f| - 1 - i];
    }
    forall x | x in s && p(x) ensures x in f {
      var k :| 0 <= k < |s| && s[k] == x;
    }
  }

  /** `s.filter((_, j) => j !== i)`: the element at index `i` removed; an
      index outside the array removes nothing. */
  function RemoveAt<T>(s: seq<T>, i: int): (r: seq<T>)
    ensures |r| == if 0 <= i < |s| then |s| - 1 else |s|
    ensures forall j :: 0 <= j < |r| && j < i ==> r[j] == s[j]
    ensures forall j :: 0 <= j < |r| && j >= i ==> r[j] == (if 0 <= i < |s| then s[j + 1] else s[j])
  {
    if 0 <= i < |s| then s[..i] + s[i + 1..] else s
  }

  /** `s.reduce((acc, x) => acc + f(x), 0)`, in exact arithmetic. */
  function Sum<T>(s: seq<T>, f: T -> real): real
  {
    if s == [] then 0.0 else Sum(s[..|s| - 1], f) + f(s[|s| - 1])
  }

  /** Summing over two pieces adds their sums. */
  lemma {:induction false} SumConcat<T>(a: seq<T>, b: seq<T>, f: T -> real)
    ensures Sum(a + b, f) == Sum(a, f) + Sum(b, f)
    decreases |b|
  {
    if b == [] {
      assert a + b == a;
    } else {
      SumConcat(a, b[..|b| - 1], f);
      assert (a + b)[..|a + b| - 1] == a + b[..|b| - 1];
    }
  }

  /** A sum of non-negative terms is non-negative. */
  lemma {:induction false} SumNonNegative<T>(s: seq<T>, f: T -> real)
    requires forall i :: 0 <= i < |s| ==> f(s[i]) >= 0.0
    ensures Sum(s, f) >= 0.0
    decreases |s|
  {
    if s != [] {
      SumNonNegative(s[..|s| - 1], f);
    }
  }
}
