/** stringkeyed.Set as an object: one field, overwritten by Add and by the two JSON decoders. */
module StringSets {
  import opened Names
  import opened Base64
  import opened Ordering
  import opened StringKeyed

  ghost predicate Distinct(s: seq<Str>) {
    forall i, j | 0 <= i < j < |s| :: s[i] != s[j]
  }

  lemma {:induction false} ElemsSize(s: seq<Str>)
    ensures |Elems(s)| <= |s| && (|Elems(s)| == |s| <==> Distinct(s))
  {
    if s != [] {
      var rest := s[1..];
      ElemsSize(rest);
      assert s == [s[0]] + rest;
      assert Elems(s) == Elems(rest) + {s[0]};
      if s[0] in rest {
        assert Elems(s) == Elems(rest);
        var j: nat :| j < |rest| && rest[j] == s[0];
        assert s[0] == s[j + 1];
      } else {
        assert Distinct(s) <==> Distinct(rest);
      }
    }
  }

  lemma DistinctGrows(s: seq<Str>, i: nat)
    requires i < |s| && Distinct(s[..i])
    ensures Elems(s[..i + 1]) == Elems(s[..i]) + {s[i]}
    ensures if s[i] in Elems(s[..i]) then !Distinct(s) else Distinct(s[..i + 1])
  {
    assert s[..i + 1] == s[..i] + [s[i]];
    if s[i] in Elems(s[..i]) {
      var j: nat :| j < i && s[..i][j] == s[i];
      assert s[j] == s[i];
    }
  }

  lemma StrictDistinct(s: seq<Str>)
    requires StrictlySorted(s)
    ensures Distinct(s)
  {
    forall i, j | 0 <= i < j < |s| ensures s[i] != s[j] { LessIrreflexive(s[i]); }
  }

  class Set {
    var joined: Str

    /** The representation is that of some list, which All then yields. */
    ghost predicate Valid()
      reads this
    {
      Contents(joined).Some? && Represents(joined, Contents(joined).value)
    }

    ghost function Elements(): set<Str>
      reads this
      requires Valid()
    {
      Elems(Contents(joined).value)
    }

    constructor ()
      ensures Valid() && Elements() == {} && joined == []
    {
      joined := [];
    }

    /** ToSlice. */
    method ToSlice() returns (list: seq<Str>)
      requires Valid()
      ensures StrictlySorted(list) && Elems(list) == Elements() && |list| == |Elements()|
    {
      ReadBack(Contents(joined).value);
      StrictDistinct(Contents(joined).value);
      ElemsSize(Contents(joined).value);
      if CardinalityOf(joined) > 0 {
        list := Contents(joined).value;
      } else {
        list := [];
      }
    }

    method Cardinality() returns (n: nat)
      requires Valid()
      ensures n == |Elements()|
    {
      ReadBack(Contents(joined).value);
      StrictDistinct(Contents(joined).value);
      ElemsSize(Contents(joined).value);
      n := CardinalityOf(joined);
    }

    method Add(elems: seq<Str>)
      requires Valid()
      modifies this
      ensures Valid() && Elements() == old(Elements()) + Elems(elems)
      ensures Some(joined) == Added(old(joined), elems)
    {
      AddedRepresents(joined, Contents(joined).value, elems);
      ReadBack(Canonical(Contents(joined).value + elems));
      var list := Canonical(Contents(joined).value + elems);
      if |list| == 1 && list[0] == [] {
        joined := [SEPARATOR];
        assert list == [[]];
        return;
      }
      var all := new Str[|list|](i requires 0 <= i < |list| => list[i]);
      for i := 0 to all.Length
        invariant forall j | 0 <= j < all.Length :: all[j] == if j < i then EncodeElement(list[j]) else list[j]
      {
        all[i] := EncodeElement(all[i]);
      }
      assert all[..] == EncodeAll(list);
      joined := Join(all[..]);
    }

    /** UnmarshalJSON, given an array of strings; false stands for the duplicate error. */
    method UnmarshalJSON(elems: seq<Str>) returns (ok: bool)
      modifies this
      ensures ok <==> Distinct(elems)
      ensures ok ==> Valid() && Elements() == Elems(elems) && Some(joined) == Built([elems])
      ensures !ok ==> joined == old(joined)
    {
      var newset := new Set();
      newset.Add(elems);
      ElemsSize(elems);
      var n := newset.Cardinality();
      if n < |elems| {
        return false;
      }
      joined := newset.joined;
      assert [elems][..0] == [];
      return true;
    }

    /** UnmarshalJSONFrom, given the string tokens of an array. */
    method UnmarshalJSONFrom(tokens: seq<Str>) returns (ok: bool)
      modifies this
      ensures ok <==> Distinct(tokens)
      ensures ok ==> Valid() && Elements() == Elems(tokens) && Some(joined) == Built([tokens])
      ensures !ok ==> joined == old(joined)
    {
      var elements: set<Str> := {};
      for i := 0 to |tokens|
        invariant elements == Elems(tokens[..i]) && Distinct(tokens[..i]) && joined == old(joined)
      {
        var oldLen := |elements|;
        DistinctGrows(tokens, i);
        assert tokens[i] in elements ==> elements + {tokens[i]} == elements;
        elements := elements + {tokens[i]};
        if |elements| == oldLen {
          return false;
        }
      }
      assert tokens[..|tokens|] == tokens;
      var allElements := CollectKeys(elements);
      var newset := new Set();
      newset.Add(allElements);
      SameBuilt(allElements, tokens);
      joined := newset.joined;
      return true;
    }

    /** slices.Collect(maps.Keys(...)): the keys in whatever order the runtime chooses. */
    method CollectKeys(keys: set<Str>) returns (list: seq<Str>)
      ensures Elems(list) == keys
    {
      list := [];
      var rest := keys;
      while rest != {}
        invariant Elems(list) + rest == keys
        decreases |rest|
      {
        var key :| key in rest;
        list, rest := list + [key], rest - {key};
      }
    }
  }

  lemma SameBuilt(s: seq<Str>, t: seq<Str>)
    requires Elems(s) == Elems(t)
    ensures Added([], s) == Built([t])
  {
    assert [s][..0] == [] && [t][..0] == [];
    assert AllElems([s]) == Elems(s) && AllElems([t]) == Elems(t);
    EqualAsStrings([s], [t]);
  }
}
