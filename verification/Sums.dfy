/** Sums of an integer weight over a sequence, and how they change when one entry changes. */
module Sums {

  ghost function Sum<T>(f: T -> int, s: seq<T>): int
  {
    if s == [] then 0 else f(s[0]) + Sum(f, s[1..])
  }

  lemma {:induction false} SumAppend<T>(f: T -> int, s: seq<T>, t: seq<T>)
    ensures Sum(f, s + t) == Sum(f, s) + Sum(f, t)
  {
    if s == [] {
      assert s + t == t;
    } else {
      assert (s + t)[1..] == s[1..] + t;
      SumAppend(f, s[1..], t);
    }
  }

  lemma {:induction false} SumUpdate<T>(f: T -> int, s: seq<T>, i: nat, x: T)
    requires i < |s|
    ensures Sum(f, s[i := x]) == Sum(f, s) - f(s[i]) + f(x)
  {
    if i == 0 {
      assert s[i := x][1..] == s[1..];
    } else {
      assert s[i := x][1..] == s[1..][i - 1 := x];
      SumUpdate(f, s[1..], i - 1, x);
    }
  }

  lemma {:induction false} SumNonNegative<T>(f: T -> int, s: seq<T>)
    requires forall j :: 0 <= j < |s| ==> f(s[j]) >= 0
    ensures Sum(f, s) >= 0
  {
    if s != [] { SumNonNegative(f, s[1..]); }
  }

  lemma {:induction false} SumAtLeast<T>(f: T -> int, s: seq<T>, i: nat)
    requires i < |s| && forall j :: 0 <= j < |s| ==> f(s[j]) >= 0
    ensures Sum(f, s) >= f(s[i])
  {
    SumNonNegative(f, s[1..]);
    if i > 0 { SumAtLeast(f, s[1..], i - 1); }
  }

  lemma {:induction false} SumAtLeastTwo<T>(f: T -> int, s: seq<T>, i: nat, j: nat)
    requires i < j < |s| && forall k :: 0 <= k < |s| ==> f(s[k]) >= 0
    ensures Sum(f, s) >= f(s[i]) + f(s[j])
  {
    if i == 0 { SumAtLeast(f, s[1..], j - 1); } else { SumAtLeastTwo(f, s[1..], i - 1, j - 1); }
  }

  lemma {:induction false} SumNonPositive<T>(f: T -> int, s: seq<T>)
    requires forall j :: 0 <= j < |s| ==> f(s[j]) <= 0
    ensures Sum(f, s) <= 0
  {
    if s != [] { SumNonPositive(f, s[1..]); }
  }

  lemma {:induction false} SumAtMost<T>(f: T -> int, s: seq<T>, i: nat)
    requires i < |s| && forall j :: 0 <= j < |s| ==> f(s[j]) <= 0
    ensures Sum(f, s) <= f(s[i])
  {
    SumNonPositive(f, s[1..]);
    if i > 0 { SumAtMost(f, s[1..], i - 1); }
  }

  /** A positive sum has a positive entry. */
  lemma {:induction false} PositiveEntry<T>(f: T -> int, s: seq<T>) returns (i: nat)
    requires Sum(f, s) > 0
    ensures i < |s| && f(s[i]) > 0
  {
    if f(s[0]) > 0 {
      i := 0;
    } else {
      i := PositiveEntry(f, s[1..]);
      i := i + 1;
    }
  }

  lemma {:induction false} SumZero<T>(f: T -> int, s: seq<T>)
    requires forall i :: 0 <= i < |s| ==> f(s[i]) == 0
    ensures Sum(f, s) == 0
  {
    if s != [] { SumZero(f, s[1..]); }
  }

  /** One weight bounds another entry by entry, hence in total. */
  lemma {:induction false} SumMonotone<T>(f: T -> int, h: T -> int, s: seq<T>)
    requires forall i :: 0 <= i < |s| ==> f(s[i]) <= h(s[i])
    ensures Sum(f, s) <= Sum(h, s)
  {
    if s != [] { SumMonotone(f, h, s[1..]); }
  }

  lemma {:induction false} SumSame<T>(f: T -> int, h: T -> int, s: seq<T>)
    requires forall i :: 0 <= i < |s| ==> f(s[i]) == h(s[i])
    ensures Sum(f, s) == Sum(h, s)
  {
    if s != [] { SumSame(f, h, s[1..]); }
  }

  lemma {:induction false} SumSplit<T>(f: T -> int, h: T -> int, d: T -> int, s: seq<T>)
    requires forall i :: 0 <= i < |s| ==> d(s[i]) == f(s[i]) - h(s[i])
    ensures Sum(d, s) == Sum(f, s) - Sum(h, s)
  {
    if s != [] { SumSplit(f, h, d, s[1..]); }
  }

  lemma {:induction false} SumOfThree<T>(f: T -> int, g: T -> int, h: T -> int, all: T -> int, s: seq<T>)
    requires forall i :: 0 <= i < |s| ==> all(s[i]) == f(s[i]) + g(s[i]) + h(s[i])
    ensures Sum(all, s) == Sum(f, s) + Sum(g, s) + Sum(h, s)
  {
    if s != [] { SumOfThree(f, g, h, all, s[1..]); }
  }

  lemma {:induction false} SubsetSize<T>(a: set<T>, b: set<T>)
    requires a <= b
    ensures |a| <= |b|
  {
    if a != {} {
      var x :| x in a;
      SubsetSize(a - {x}, b - {x});
    }
  }
}
