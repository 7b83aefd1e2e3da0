/** Byte-wise string order, and the list that sorting and compacting leaves of a sequence. */
module Ordering {
  import opened Base64

  predicate Less(a: Str, b: Str) {
    b != [] && (a == [] || a[0] < b[0] || (a[0] == b[0] && Less(a[1..], b[1..])))
  }

  /** The shorter of two strings that agree so far is less; otherwise the first byte that differs decides. */
  lemma {:induction false} LessExactly(a: Str, b: Str)
    ensures Less(a, b) <==> a < b || exists k :: 0 <= k < |a| && k < |b| && a[..k] == b[..k] && a[k] < b[k]
  {
    if a != [] && b != [] && a[0] == b[0] {
      LessExactly(a[1..], b[1..]);
      SameHead(a, b);
    } else if a != [] && b != [] && a[0] < b[0] {
      assert a[..0] == b[..0];
    }
  }

  lemma SameHead(a: Str, b: Str)
    requires a != [] && b != [] && a[0] == b[0]
    ensures a < b <==> a[1..] < b[1..]
    ensures forall k | 0 < k < |a| && k < |b| :: a[..k] == b[..k] <==> a[1..][..k - 1] == b[1..][..k - 1]
    ensures (exists k :: 0 <= k < |a| && k < |b| && a[..k] == b[..k] && a[k] < b[k]) <==>
      exists k :: 0 <= k < |a[1..]| && k < |b[1..]| && a[1..][..k] == b[1..][..k] && a[1..][k] < b[1..][k]
  {
    assert a == [a[0]] + a[1..] && b == [b[0]] + b[1..];
    forall k | 0 < k < |a| && k < |b| ensures a[..k] == b[..k] <==> a[1..][..k - 1] == b[1..][..k - 1] {
      assert a[..k] == [a[0]] + a[1..][..k - 1] && b[..k] == [b[0]] + b[1..][..k - 1];
    }
    if k :| 0 <= k < |a| && k < |b| && a[..k] == b[..k] && a[k] < b[k] {
      assert a[1..][..k - 1] == b[1..][..k - 1] && a[1..][k - 1] < b[1..][k - 1];
    }
    if k :| 0 <= k < |a[1..]| && k < |b[1..]| && a[1..][..k] == b[1..][..k] && a[1..][k] < b[1..][k] {
      assert a[..k + 1] == b[..k + 1] && a[k + 1] < b[k + 1];
    }
  }

  lemma {:induction false} LessIrreflexive(a: Str)
    ensures !Less(a, a)
  {
    if a != [] { LessIrreflexive(a[1..]); }
  }

  lemma {:induction false} LessTransitive(a: Str, b: Str, c: Str)
    requires Less(a, b) && Less(b, c)
    ensures Less(a, c)
  {
    if a != [] && a[0] == b[0] == c[0] { LessTransitive(a[1..], b[1..], c[1..]); }
  }

  lemma {:induction false} LessTotal(a: Str, b: Str)
    ensures Less(a, b) || a == b || Less(b, a)
  {
    if a != [] && b != [] && a[0] == b[0] {
      LessTotal(a[1..], b[1..]);
      assert a == [a[0]] + a[1..] && b == [b[0]] + b[1..];
    }
  }

  ghost predicate Sorted(s: seq<Str>) {
    forall i, j | 0 <= i < j < |s| :: !Less(s[j], s[i])
  }

  ghost predicate StrictlySorted(s: seq<Str>) {
    forall i, j | 0 <= i < j < |s| :: Less(s[i], s[j])
  }

  ghost function Elems(s: seq<Str>): set<Str> {
    set e <- s
  }

  /** slices.Sort, as an insertion sort: any sorted permutation of strings is this one. */
  function Sort(s: seq<Str>): seq<Str> {
    if s == [] then [] else Insert(s[0], Sort(s[1..]))
  }

  function Insert(x: Str, s: seq<Str>): seq<Str> {
    if s == [] || !Less(s[0], x) then [x] + s else [s[0]] + Insert(x, s[1..])
  }

  /** slices.Compact: runs of equal elements become one. */
  function Compact(s: seq<Str>): seq<Str> {
    if |s| < 2 then s
    else if s[0] == s[1] then Compact(s[1..])
    else [s[0]] + Compact(s[1..])
  }

  function Canonical(s: seq<Str>): seq<Str> {
    Compact(Sort(s))
  }

  lemma NotLessTransitive(a: Str, b: Str, c: Str)
    requires !Less(b, a) && !Less(c, b)
    ensures !Less(c, a)
  {
    LessTotal(a, b);
    LessTotal(b, c);
    if Less(c, a) {
      if a == b || b == c {
      } else {
        LessTransitive(a, b, c);
        LessTransitive(a, c, a);
        LessIrreflexive(a);
      }
    }
  }

  lemma {:induction false} InsertSorted(x: Str, s: seq<Str>)
    requires Sorted(s)
    ensures Sorted(Insert(x, s)) && multiset(Insert(x, s)) == multiset(s) + multiset{x}
  {
    var r := Insert(x, s);
    if s == [] {
    } else if !Less(s[0], x) {
      forall j | 0 <= j < |s| ensures !Less(s[j], x) {
        if j > 0 { NotLessTransitive(x, s[0], s[j]); }
      }
    } else {
      assert s == [s[0]] + s[1..];
      InsertSorted(x, s[1..]);
      var rest := Insert(x, s[1..]);
      LessAsymmetric(s[0], x);
      forall j | 0 <= j < |rest| ensures !Less(rest[j], s[0]) {
        assert rest[j] in multiset(rest);
        if rest[j] != x { assert rest[j] in s[1..]; }
      }
    }
  }

  lemma LessAsymmetric(a: Str, b: Str)
    requires Less(a, b)
    ensures !Less(b, a)
  {
    if Less(b, a) {
      LessTransitive(a, b, a);
      LessIrreflexive(a);
    }
  }

  lemma {:induction false} SortSorts(s: seq<Str>)
    ensures Sorted(Sort(s)) && multiset(Sort(s)) == multiset(s)
  {
    if s != [] {
      SortSorts(s[1..]);
      InsertSorted(s[0], Sort(s[1..]));
      assert s == [s[0]] + s[1..];
    }
  }

  lemma SortedFirst(s: seq<Str>, t: seq<Str>)
    requires Sorted(s) && Sorted(t) && multiset(s) == multiset(t) && s != [] && t != []
    ensures s[0] == t[0]
  {
    assert s[0] in multiset(t) && t[0] in multiset(s);
    var i: nat :| i < |t| && t[i] == s[0];
    var j: nat :| j < |s| && s[j] == t[0];
    LessTotal(s[0], t[0]);
  }

  /** So it does not matter how Go sorts: sorted permutations of each other are equal. */
  lemma {:induction false} SortUnique(s: seq<Str>, t: seq<Str>)
    requires Sorted(s) && Sorted(t) && multiset(s) == multiset(t)
    ensures s == t
  {
    assert |s| == |multiset(s)| == |multiset(t)| == |t|;
    if s != [] {
      SortedFirst(s, t);
      Beheaded(s);
      Beheaded(t);
      SortUnique(s[1..], t[1..]);
    }
  }

  lemma Beheaded(s: seq<Str>)
    requires s != []
    ensures s == [s[0]] + s[1..] && multiset(s[1..]) == multiset(s) - multiset{s[0]}
  {
    assert s == [s[0]] + s[1..];
  }

  lemma {:induction false} CompactStrict(s: seq<Str>)
    requires Sorted(s)
    ensures StrictlySorted(Compact(s)) && Elems(Compact(s)) == Elems(s)
    ensures s != [] ==> Compact(s) != [] && Compact(s)[0] == s[0]
  {
    if |s| >= 2 {
      var rest := Compact(s[1..]);
      CompactStrict(s[1..]);
      assert Elems(s) == {s[0]} + Elems(s[1..]);
      if s[0] != s[1] {
        LessTotal(s[0], s[1]);
        forall j | 0 <= j < |rest| ensures Less(s[0], rest[j]) {
          if j > 0 { LessTransitive(s[0], rest[0], rest[j]); }
        }
      }
    }
  }

  /** The canonical list of a sequence: strictly increasing, with the same elements. */
  lemma CanonicalLists(s: seq<Str>)
    ensures StrictlySorted(Canonical(s)) && Elems(Canonical(s)) == Elems(s)
  {
    SortSorts(s);
    CompactStrict(Sort(s));
    forall e ensures e in Sort(s) <==> e in s {
      assert e in multiset(Sort(s)) <==> e in multiset(s);
    }
  }

  lemma FirstIsLeast(s: seq<Str>, t: seq<Str>)
    requires StrictlySorted(s) && StrictlySorted(t) && Elems(s) == Elems(t) && s != [] && t != []
    ensures s[0] == t[0]
  {
    assert s[0] in Elems(t) && t[0] in Elems(s);
    var i: nat :| i < |t| && t[i] == s[0];
    var j: nat :| j < |s| && s[j] == t[0];
    if i > 0 && j > 0 { LessAsymmetric(s[0], s[j]); }
  }

  /** A set has only one strictly increasing list. */
  lemma {:induction false} ListUnique(s: seq<Str>, t: seq<Str>)
    requires StrictlySorted(s) && StrictlySorted(t) && Elems(s) == Elems(t)
    ensures s == t
  {
    assert t != [] ==> t[0] in Elems(t);
    if s != [] {
      assert s[0] in Elems(t);
      FirstIsLeast(s, t);
      RestElems(s);
      RestElems(t);
      ListUnique(s[1..], t[1..]);
      assert s == [s[0]] + s[1..] && t == [t[0]] + t[1..];
    }
  }

  lemma RestElems(s: seq<Str>)
    requires StrictlySorted(s) && s != []
    ensures Elems(s[1..]) == Elems(s) - {s[0]} && StrictlySorted(s[1..])
  {
    LessIrreflexive(s[0]);
    assert s == [s[0]] + s[1..];
  }
}
