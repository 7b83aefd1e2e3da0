/** coalesceRequests: which copy specs contradict each other, and what is left of those that repeat. */
module Coalesce {
  import opened Base64
  import opened ImageRef

  /** `transform` is the representation of the platform set; it is empty for no transform. */
  datatype Spec = Spec(src: Image, dst: Image, transform: Str)

  datatype Conflict =
    | SourceAndDestination(dst: Image)
    | InconsistentDigest(dst: Image, src: Image)
    | TransformedDigest(dst: Image)
    | InconsistentCopies(dst: Image, src: Image, previous: Image)

  /** What the rules for copy specs ask of one spec among others. */
  ghost predicate Acceptable(spec: Spec, specs: seq<Spec>) {
    && (forall other <- specs :: spec.dst != other.src)
    && (spec.dst.digest != "" ==> spec.dst.digest == spec.src.digest && spec.transform == [])
  }

  ghost predicate Agree(specs: seq<Spec>) {
    forall i, j | 0 <= i < j < |specs| && specs[i].dst == specs[j].dst :: specs[i] == specs[j]
  }

  ghost predicate HasDst(specs: seq<Spec>, dst: Image) {
    exists i :: 0 <= i < |specs| && specs[i].dst == dst
  }

  /** The first spec for each destination, in order. */
  ghost function Firsts(specs: seq<Spec>): seq<Spec> {
    if specs == [] then []
    else
      var init, last := specs[..|specs| - 1], specs[|specs| - 1];
      if HasDst(init, last.dst) then Firsts(init) else Firsts(init) + [last]
  }

  lemma {:induction false} FirstsSame(specs: seq<Spec>)
    ensures forall dst :: HasDst(Firsts(specs), dst) <==> HasDst(specs, dst)
    ensures forall s <- Firsts(specs) :: s in specs
    ensures forall i, j | 0 <= i < j < |Firsts(specs)| :: Firsts(specs)[i].dst != Firsts(specs)[j].dst
  {
    if specs != [] {
      var init, last := specs[..|specs| - 1], specs[|specs| - 1];
      FirstsSame(init);
      assert specs == init + [last];
      forall dst ensures HasDst(Firsts(specs), dst) <==> HasDst(specs, dst) {
        assert HasDst(specs, dst) <==> HasDst(init, dst) || last.dst == dst by { SnocHasDst(init, last, dst); }
        SnocHasDst(Firsts(init), last, dst);
      }
      if !HasDst(init, last.dst) { assert !HasDst(Firsts(init), last.dst); }
    }
  }

  lemma SnocHasDst(specs: seq<Spec>, last: Spec, dst: Image)
    ensures HasDst(specs + [last], dst) <==> HasDst(specs, dst) || last.dst == dst
  {
    var all := specs + [last];
    if i :| 0 <= i < |specs| && specs[i].dst == dst { assert all[i].dst == dst; }
    if last.dst == dst { assert all[|specs|].dst == dst; }
  }

  /** Specs that agree lose nothing but repetitions. */
  lemma FirstsKeepAll(specs: seq<Spec>, s: Spec)
    requires Agree(specs)
    ensures s in Firsts(specs) <==> s in specs
  {
    FirstsSame(specs);
    if s in specs {
      var j: nat :| j < |specs| && specs[j] == s;
      assert HasDst(specs, s.dst);
      var k: nat :| k < |Firsts(specs)| && Firsts(specs)[k].dst == s.dst;
      assert Firsts(specs)[k] in Firsts(specs);
      var i: nat :| i < |specs| && specs[i] == Firsts(specs)[k];
    }
  }

  lemma FirstsKeepSet(specs: seq<Spec>)
    requires Agree(specs)
    ensures forall s :: s in Firsts(specs) <==> s in specs
  {
    forall s ensures s in Firsts(specs) <==> s in specs { FirstsKeepAll(specs, s); }
  }

  /** No earlier spec has this one's destination. */
  ghost predicate IsFirst(specs: seq<Spec>, i: nat) {
    i < |specs| && !HasDst(specs[..i], specs[i].dst)
  }

  lemma IsFirstGrows(specs: seq<Spec>, last: Spec)
    ensures forall i: nat | i < |specs| :: IsFirst(specs + [last], i) == IsFirst(specs, i)
    ensures IsFirst(specs + [last], |specs|) == !HasDst(specs, last.dst)
  {
    assert forall i: nat | i <= |specs| :: (specs + [last])[..i] == specs[..i];
    assert specs[..|specs|] == specs;
  }

  /** The entries come out in the order in which the first specs for their destinations stood. */
  lemma {:induction false} FirstsInOrder(specs: seq<Spec>) returns (at: seq<nat>)
    ensures |at| == |Firsts(specs)| && forall k, l | 0 <= k < l < |at| :: at[k] < at[l]
    ensures forall k | 0 <= k < |at| :: IsFirst(specs, at[k]) && specs[at[k]] == Firsts(specs)[k]
  {
    at := [];
    if specs != [] {
      var init, last := specs[..|specs| - 1], specs[|specs| - 1];
      var before := FirstsInOrder(init);
      assert specs == init + [last];
      IsFirstGrows(init, last);
      assert forall i: nat | i < |init| :: specs[i] == init[i] && IsFirst(specs, i) == IsFirst(init, i);
      at := if HasDst(init, last.dst) then before else before + [|init|];
    }
  }

  /** The first spec for a destination. */
  ghost function FirstFor(specs: seq<Spec>, dst: Image): (first: Spec)
    requires HasDst(specs, dst)
    ensures first in specs && first.dst == dst
  {
    var init, last := specs[..|specs| - 1], specs[|specs| - 1];
    if HasDst(init, dst) then FirstFor(init, dst)
    else
      assert specs == init + [last];
      SnocHasDst(init, last, dst);
      last
  }

  // ---------------------------------------------------------------------------------------
  // The errors

  /** `errs`, and behind them the rules that one spec breaks among all. */
  ghost function Broken(errs: seq<Conflict>, spec: Spec, specs: seq<Spec>): seq<Conflict> {
    var errs := if exists other <- specs :: other.src == spec.dst
      then errs + [SourceAndDestination(spec.dst)] else errs;
    var errs := if spec.dst.digest != "" && spec.dst.digest != spec.src.digest
      then errs + [InconsistentDigest(spec.dst, spec.src)] else errs;
    if spec.dst.digest != "" && spec.transform != [] then errs + [TransformedDigest(spec.dst)] else errs
  }

  ghost function AllBroken(checked: seq<Spec>, specs: seq<Spec>): seq<Conflict> {
    if checked == [] then []
    else Broken(AllBroken(checked[..|checked| - 1], specs), checked[|checked| - 1], specs)
  }

  /** `errs`, and the complaint about a spec that differs from the first one for its destination. */
  ghost function Clash(errs: seq<Conflict>, before: seq<Spec>, spec: Spec): seq<Conflict> {
    if HasDst(before, spec.dst) && FirstFor(before, spec.dst) != spec then
      errs + [InconsistentCopies(spec.dst, spec.src, FirstFor(before, spec.dst).src)]
    else errs
  }

  ghost function Clashes(errs: seq<Conflict>, specs: seq<Spec>): seq<Conflict> {
    if specs == [] then errs
    else Clash(Clashes(errs, specs[..|specs| - 1]), specs[..|specs| - 1], specs[|specs| - 1])
  }

  // ---------------------------------------------------------------------------------------
  // Which errors are reported

  /** The spec breaks the rule that the complaint is about. */
  ghost predicate Breaks(spec: Spec, specs: seq<Spec>, c: Conflict) {
    match c
    case SourceAndDestination(dst) => spec.dst == dst && exists i :: 0 <= i < |specs| && specs[i].src == dst
    case InconsistentDigest(dst, src) =>
      spec.dst == dst && spec.src == src && dst.digest != "" && dst.digest != src.digest
    case TransformedDigest(dst) => spec.dst == dst && dst.digest != "" && spec.transform != []
    case InconsistentCopies(_, _, _) => false
  }

  /** The spec at i differs from the first one for its destination, and that one has this source. */
  ghost predicate Differs(specs: seq<Spec>, i: nat, c: Conflict) {
    && i < |specs| && c.InconsistentCopies? && c.dst == specs[i].dst && c.src == specs[i].src
    && exists j: nat :: j < i && IsFirst(specs, j) && specs[j].dst == c.dst && specs[j].src == c.previous
         && specs[j] != specs[i]
  }

  /** How many of the first n numbers have the property. */
  ghost function Times(n: nat, p: nat -> bool): nat {
    if n == 0 then 0 else Times(n - 1, p) + if p(n - 1) then 1 else 0
  }

  lemma {:induction false} TimesSame(n: nat, p: nat -> bool, q: nat -> bool)
    requires forall i: nat | i < n :: p(i) == q(i)
    ensures Times(n, p) == Times(n, q)
  {
    if n > 0 { TimesSame(n - 1, p, q); }
  }

  lemma BrokenCounts(errs: seq<Conflict>, spec: Spec, specs: seq<Spec>, c: Conflict)
    ensures multiset(Broken(errs, spec, specs))[c] == multiset(errs)[c] + if Breaks(spec, specs, c) then 1 else 0
    ensures errs <= Broken(errs, spec, specs)
  {
    assert (exists other <- specs :: other.src == spec.dst) <==>
      exists i :: 0 <= i < |specs| && specs[i].src == spec.dst;
  }

  ghost function BreaksAt(checked: seq<Spec>, specs: seq<Spec>, c: Conflict): nat -> bool {
    (i: nat) => i < |checked| && Breaks(checked[i], specs, c)
  }

  ghost function DiffersAt(specs: seq<Spec>, c: Conflict): nat -> bool {
    (i: nat) => Differs(specs, i, c)
  }

  lemma {:induction false} AllBrokenCounts(checked: seq<Spec>, specs: seq<Spec>, c: Conflict)
    ensures multiset(AllBroken(checked, specs))[c] == Times(|checked|, BreaksAt(checked, specs, c))
  {
    if checked != [] {
      var init, last := checked[..|checked| - 1], checked[|checked| - 1];
      AllBrokenCounts(init, specs, c);
      BrokenCounts(AllBroken(init, specs), last, specs, c);
      TimesSame(|init|, BreaksAt(init, specs, c), BreaksAt(checked, specs, c));
    }
  }

  lemma {:induction false} FirstForIs(specs: seq<Spec>, dst: Image) returns (j: nat)
    requires HasDst(specs, dst)
    ensures IsFirst(specs, j) && specs[j] == FirstFor(specs, dst)
    ensures forall k: nat | IsFirst(specs, k) && specs[k].dst == dst :: k == j
  {
    var init, last := specs[..|specs| - 1], specs[|specs| - 1];
    assert specs == init + [last];
    IsFirstGrows(init, last);
    if HasDst(init, dst) {
      j := FirstForIs(init, dst);
    } else {
      j := |init|;
    }
    forall k: nat | IsFirst(specs, k) && specs[k].dst == dst ensures k == j {
      FirstIsOne(specs, j, k);
    }
  }

  lemma FirstIsOne(specs: seq<Spec>, j: nat, k: nat)
    requires IsFirst(specs, j) && IsFirst(specs, k) && specs[j].dst == specs[k].dst
    ensures j == k
  {
    if j < k { FirstIsNew(specs, j, k); }
    if k < j { FirstIsNew(specs, k, j); }
  }

  lemma FirstIsNew(specs: seq<Spec>, j: nat, k: nat)
    requires j < k && IsFirst(specs, k)
    ensures specs[j].dst != specs[k].dst
  {
    assert specs[..k][j] == specs[j];
  }

  lemma ClashCounts(errs: seq<Conflict>, before: seq<Spec>, spec: Spec, c: Conflict)
    ensures multiset(Clash(errs, before, spec))[c] ==
      multiset(errs)[c] + if Differs(before + [spec], |before|, c) then 1 else 0
    ensures errs <= Clash(errs, before, spec)
  {
    IsFirstGrows(before, spec);
    if HasDst(before, spec.dst) {
      var j := FirstForIs(before, spec.dst);
      assert IsFirst(before + [spec], j) && (before + [spec])[j] == before[j];
    }
  }

  lemma DiffersGrows(init: seq<Spec>, last: Spec, c: Conflict, i: nat)
    requires i < |init|
    ensures Differs(init + [last], i, c) == Differs(init, i, c)
  {
    IsFirstGrows(init, last);
    assert forall j: nat | j < |init| :: (init + [last])[j] == init[j];
  }

  lemma {:induction false} ClashesCount(errs: seq<Conflict>, specs: seq<Spec>, c: Conflict)
    ensures multiset(Clashes(errs, specs))[c] == multiset(errs)[c] + Times(|specs|, DiffersAt(specs, c))
    ensures errs <= Clashes(errs, specs)
  {
    if specs != [] {
      var init, last := specs[..|specs| - 1], specs[|specs| - 1];
      assert specs == init + [last];
      ClashesCount(errs, init, c);
      ClashCounts(Clashes(errs, init), init, last, c);
      forall i: nat | i < |init| ensures DiffersAt(init, c)(i) == DiffersAt(specs, c)(i) {
        DiffersGrows(init, last, c, i);
      }
      TimesSame(|init|, DiffersAt(init, c), DiffersAt(specs, c));
    }
  }

  /** Each complaint is made once for every spec that gives cause for it, and none without cause. */
  lemma ErrorsExactly(specs: seq<Spec>, c: Conflict)
    ensures multiset(Clashes(AllBroken(specs, specs), specs))[c] ==
      Times(|specs|, BreaksAt(specs, specs, c)) + Times(|specs|, DiffersAt(specs, c))
    ensures AllBroken(specs, specs) <= Clashes(AllBroken(specs, specs), specs)
  {
    AllBrokenCounts(specs, specs, c);
    ClashesCount(AllBroken(specs, specs), specs, c);
  }

  lemma BrokenNone(errs: seq<Conflict>, spec: Spec, specs: seq<Spec>)
    ensures Broken(errs, spec, specs) == [] <==> errs == [] && Acceptable(spec, specs)
  {}

  lemma {:induction false} NothingBroken(checked: seq<Spec>, specs: seq<Spec>)
    ensures AllBroken(checked, specs) == [] <==> forall spec <- checked :: Acceptable(spec, specs)
  {
    if checked != [] {
      var init, last := checked[..|checked| - 1], checked[|checked| - 1];
      NothingBroken(init, specs);
      BrokenNone(AllBroken(init, specs), last, specs);
      assert checked == init + [last];
    }
  }

  lemma Snoc(errs: seq<Conflict>, specs: seq<Spec>, i: nat)
    requires i < |specs|
    ensures AllBroken(specs[..i + 1], specs) == Broken(AllBroken(specs[..i], specs), specs[i], specs)
    ensures Clashes(errs, specs[..i + 1]) == Clash(Clashes(errs, specs[..i]), specs[..i], specs[i])
    ensures specs[..i + 1] == specs[..i] + [specs[i]]
    ensures Firsts(specs[..i + 1]) == Firsts(specs[..i]) + if HasDst(specs[..i], specs[i].dst) then [] else [specs[i]]
  {
    assert specs[..i + 1][..i] == specs[..i];
  }

  /** A further spec agrees if it equals every earlier one for its destination. */
  lemma SnocAgree(specs: seq<Spec>, last: Spec)
    ensures Agree(specs + [last]) <==> Agree(specs) && forall s <- specs | s.dst == last.dst :: s == last
  {
    var all := specs + [last];
    if Agree(all) {
      forall i, j | 0 <= i < j < |specs| && specs[i].dst == specs[j].dst ensures specs[i] == specs[j] {
        assert all[i] == specs[i] && all[j] == specs[j];
      }
      forall s | s in specs && s.dst == last.dst ensures s == last {
        var i: nat :| i < |specs| && specs[i] == s;
        assert all[i] == s && all[|specs|] == last;
      }
    }
  }

  lemma AgreesWithFirst(specs: seq<Spec>, last: Spec)
    requires Agree(specs)
    ensures Agree(specs + [last]) <==> HasDst(specs, last.dst) ==> FirstFor(specs, last.dst) == last
  {
    SnocAgree(specs, last);
    forall s | s in specs && s.dst == last.dst ensures HasDst(specs, last.dst) && s == FirstFor(specs, last.dst) {
      var i: nat :| i < |specs| && specs[i] == s;
      assert HasDst(specs, last.dst);
      var j: nat :| j < |specs| && specs[j] == FirstFor(specs, last.dst);
    }
  }

  lemma {:induction false} NothingClashes(errs: seq<Conflict>, specs: seq<Spec>)
    ensures Clashes(errs, specs) == [] <==> errs == [] && Agree(specs)
  {
    if specs != [] {
      var init, last := specs[..|specs| - 1], specs[|specs| - 1];
      NothingClashes(errs, init);
      assert specs == init + [last];
      SnocAgree(init, last);
      if Agree(init) { AgreesWithFirst(init, last); }
    }
  }

  /** No errors, exactly when no spec breaks a rule and all for one destination are equal. */
  lemma NoErrorsIff(specs: seq<Spec>)
    ensures Clashes(AllBroken(specs, specs), specs) == [] <==>
      Agree(specs) && forall spec <- specs :: Acceptable(spec, specs)
  {
    NothingBroken(specs, specs);
    NothingClashes(AllBroken(specs, specs), specs);
  }

  // ---------------------------------------------------------------------------------------

  /** The specs looked at so far, by destination. */
  ghost predicate Indexes(requestsByDst: map<Image, Spec>, specs: seq<Spec>) {
    && (forall dst :: dst in requestsByDst <==> HasDst(specs, dst))
    && (forall dst <- requestsByDst :: requestsByDst[dst] == FirstFor(specs, dst))
  }

  lemma IndexesGrows(requestsByDst: map<Image, Spec>, specs: seq<Spec>, current: Spec)
    requires Indexes(requestsByDst, specs)
    ensures Indexes(
      if current.dst in requestsByDst then requestsByDst else requestsByDst[current.dst := current],
      specs + [current])
  {
    assert (specs + [current])[..|specs|] == specs;
    forall dst ensures HasDst(specs + [current], dst) <==> HasDst(specs, dst) || dst == current.dst {
      SnocHasDst(specs, current, dst);
    }
  }

  method CoalesceRequests(specs: seq<Spec>) returns (coalesced: seq<Spec>, errs: seq<Conflict>)
    ensures errs == Clashes(AllBroken(specs, specs), specs)
    ensures errs == [] <==> Agree(specs) && forall spec <- specs :: Acceptable(spec, specs)
    ensures coalesced == Firsts(specs)
    ensures forall i, j | 0 <= i < j < |coalesced| :: coalesced[i].dst != coalesced[j].dst
    ensures errs == [] ==> forall s :: s in coalesced <==> s in specs
  {
    errs := CheckEach(specs);
    ghost var checked := errs;

    coalesced := [];
    var requestsByDst: map<Image, Spec> := map[];
    for i := 0 to |specs|
      invariant coalesced == Firsts(specs[..i]) && Indexes(requestsByDst, specs[..i])
      invariant errs == Clashes(checked, specs[..i])
    {
      var current := specs[i];
      Snoc(checked, specs, i);
      IndexesGrows(requestsByDst, specs[..i], current);
      if current.dst !in requestsByDst {
        coalesced := coalesced + [current];
        requestsByDst := requestsByDst[current.dst := current];
      } else {
        var previous := requestsByDst[current.dst];
        if previous != current {
          errs := errs + [InconsistentCopies(current.dst, current.src, previous.src)];
        }
      }
    }
    assert specs[..|specs|] == specs;
    NoErrorsIff(specs);
    FirstsSame(specs);
    if errs == [] { FirstsKeepSet(specs); }
  }

  method CheckEach(specs: seq<Spec>) returns (errs: seq<Conflict>)
    ensures errs == AllBroken(specs, specs)
  {
    errs := [];
    var srcs: set<Image> := {};
    for i := 0 to |specs|
      invariant srcs == set s <- specs[..i] :: s.src
    {
      assert specs[..i + 1] == specs[..i] + [specs[i]];
      srcs := srcs + {specs[i].src};
    }
    assert specs[..|specs|] == specs;
    for i := 0 to |specs|
      invariant errs == AllBroken(specs[..i], specs)
    {
      var spec := specs[i];
      Snoc([], specs, i);
      assert spec.dst in srcs <==> exists s <- specs :: s.src == spec.dst;
      if spec.dst in srcs {
        errs := errs + [SourceAndDestination(spec.dst)];
      }
      if spec.dst.digest != "" && spec.dst.digest != spec.src.digest {
        errs := errs + [InconsistentDigest(spec.dst, spec.src)];
      }
      if spec.dst.digest != "" && spec.transform != [] {
        errs := errs + [TransformedDigest(spec.dst)];
      }
    }
  }
}
