/** stringkeyed.Set: a set of strings represented by one canonical string. */
module StringKeyed {
  import opened Names
  import opened Base64
  import opened Ordering

  const SHIFT_OUT: Byte := 0x0E
  const SEPARATOR: Byte := 0x1F

  function EncodeElement(e: Str): Str {
    if SEPARATOR in e || (e != [] && e[0] == SHIFT_OUT) then [SHIFT_OUT] + Encode(e) else e
  }

  /** None stands for the panic on an invalid encoding. */
  function DecodeElement(s: Str): Option<Str> {
    if s != [] && s[0] == SHIFT_OUT then Decode(s[1..]) else Some(s)
  }

  /** strings.Join with the separator. */
  function Join(parts: seq<Str>): Str {
    if parts == [] then []
    else if |parts| == 1 then parts[0]
    else parts[0] + [SEPARATOR] + Join(parts[1..])
  }

  /** strings.Split at the separator; the empty string has one, empty, part. */
  function Split(s: Str): (parts: seq<Str>)
    ensures parts != []
  {
    if s == [] then [[]]
    else if s[0] == SEPARATOR then [[]] + Split(s[1..])
    else
      var rest := Split(s[1..]);
      [[s[0]] + rest[0]] + rest[1..]
  }

  function Separators(s: Str): nat {
    if s == [] then 0 else Separators(s[1..]) + if s[0] == SEPARATOR then 1 else 0
  }

  function EncodeAll(list: seq<Str>): seq<Str> {
    seq(|list|, i requires 0 <= i < |list| => EncodeElement(list[i]))
  }

  function DecodeAll(parts: seq<Str>): Option<seq<Str>> {
    if parts == [] then Some([])
    else
      var first, rest := DecodeElement(parts[0]), DecodeAll(parts[1..]);
      if first.None? || rest.None? then None else Some([first.value] + rest.value)
  }

  /** The representation of a list of distinct sorted elements. */
  function Encoding(list: seq<Str>): Str {
    if list == [[]] then [SEPARATOR] else Join(EncodeAll(list))
  }

  /** What All yields. */
  function Contents(joined: Str): Option<seq<Str>> {
    if joined == [] then Some([])
    else if joined == [SEPARATOR] then Some([[]])
    else DecodeAll(Split(joined))
  }

  function CardinalityOf(joined: Str): nat {
    if joined == [] then 0 else if joined == [SEPARATOR] then 1 else 1 + Separators(joined)
  }

  // ---------------------------------------------------------------------------------------

  ghost predicate Separable(s: Str) {
    SEPARATOR !in s
  }

  /** Only elements with a Unit Separator, or that start with a Shift Out, are escaped. */
  lemma ElementForm(e: Str)
    ensures 0x1F !in e && (e == [] || e[0] != 0x0E) ==> EncodeElement(e) == e
    ensures 0x1F in e || (e != [] && e[0] == 0x0E) ==> EncodeElement(e) == [0x0E] + Encode(e)
    ensures Encoding([[]]) == [0x1F]
  {}

  /** One more part comes behind a separator. */
  lemma {:induction false} JoinSnoc(parts: seq<Str>, last: Str)
    requires parts != []
    ensures Join(parts + [last]) == Join(parts) + [0x1F] + last
  {
    var all := parts + [last];
    if |parts| == 1 {
      assert all[1..] == [last];
    } else {
      JoinSnoc(parts[1..], last);
      assert all[1..] == parts[1..] + [last];
    }
  }

  /** An element that needs no escape stands at the end as it is, behind a separator. */
  lemma PlainForm(list: seq<Str>, e: Str)
    requires list != [] && 0x1F !in e && (e == [] || e[0] != 0x0E)
    ensures Join(EncodeAll(list + [e])) == Join(EncodeAll(list)) + [0x1F] + e
  {
    assert EncodeAll(list + [e]) == EncodeAll(list) + [e];
    JoinSnoc(EncodeAll(list), e);
  }

  lemma ElementRoundTrip(e: Str)
    ensures DecodeElement(EncodeElement(e)) == Some(e) && Separable(EncodeElement(e))
    ensures EncodeElement(e) == [] <==> e == []
  {
    RoundTrip(e);
    var code := [SHIFT_OUT] + Encode(e);
    assert code[1..] == Encode(e);
  }

  lemma {:induction false} SplitPart(s: Str, rest: Str)
    requires Separable(s)
    ensures Split(s) == [s] && Separators(s) == 0
    ensures Split(s + [SEPARATOR] + rest) == [s] + Split(rest)
    ensures Separators(s + [SEPARATOR] + rest) == 1 + Separators(rest)
  {
    var all := s + [SEPARATOR] + rest;
    if s == [] {
      assert all[1..] == rest;
    } else {
      SplitPart(s[1..], rest);
      assert all[1..] == s[1..] + [SEPARATOR] + rest;
      assert s == [s[0]] + s[1..];
    }
  }

  /** Splitting undoes joining, when no part contains the separator. */
  lemma {:induction false} SplitJoin(parts: seq<Str>)
    requires parts != [] && forall p <- parts :: Separable(p)
    ensures Split(Join(parts)) == parts && Separators(Join(parts)) == |parts| - 1
  {
    if |parts| == 1 {
      SplitPart(parts[0], []);
    } else {
      SplitJoin(parts[1..]);
      SplitPart(parts[0], Join(parts[1..]));
      assert parts == [parts[0]] + parts[1..];
    }
  }

  lemma {:induction false} DecodeEncodeAll(list: seq<Str>)
    ensures DecodeAll(EncodeAll(list)) == Some(list)
    ensures forall p <- EncodeAll(list) :: Separable(p)
  {
    if list != [] {
      ElementRoundTrip(list[0]);
      DecodeEncodeAll(list[1..]);
      assert EncodeAll(list)[1..] == EncodeAll(list[1..]);
      assert list == [list[0]] + list[1..];
      forall p | p in EncodeAll(list) ensures Separable(p) {
        if p != EncodeElement(list[0]) { assert p in EncodeAll(list)[1..]; }
      }
    }
  }

  /** Only the empty list, and no list but {""}, has one of the two special representations. */
  lemma EncodingSpecial(list: seq<Str>)
    requires StrictlySorted(list)
    ensures Encoding(list) == [] <==> list == []
    ensures Encoding(list) == [SEPARATOR] <==> list == [[]]
  {
    var parts := EncodeAll(list);
    if |list| == 1 {
      ElementRoundTrip(list[0]);
    } else if |list| >= 2 {
      ElementRoundTrip(list[0]);
      ElementRoundTrip(list[1]);
      assert Less(list[0], list[1]);
      assert |Join(parts[1..])| >= |parts[1]|;
    }
  }

  /** Every representation is read back as exactly the list it was made from, and counted right. */
  lemma ReadBack(list: seq<Str>)
    requires StrictlySorted(list)
    ensures Contents(Encoding(list)) == Some(list)
    ensures CardinalityOf(Encoding(list)) == |list|
  {
    EncodingSpecial(list);
    if list != [] && list != [[]] {
      DecodeEncodeAll(list);
      SplitJoin(EncodeAll(list));
    }
  }

  // ---------------------------------------------------------------------------------------

  /** Add: the union of the set and the given elements, canonically represented. */
  function Added(joined: Str, elems: seq<Str>): Option<Str> {
    var all := Contents(joined);
    if all.None? then None else Some(Encoding(Canonical(all.value + elems)))
  }

  /** A set built from the empty one by a sequence of Add calls. */
  function Built(calls: seq<seq<Str>>): Option<Str> {
    if calls == [] then Some([])
    else
      var before := Built(calls[..|calls| - 1]);
      if before.None? then None else Added(before.value, calls[|calls| - 1])
  }

  ghost function AllElems(calls: seq<seq<Str>>): set<Str> {
    set call <- calls, e <- call :: e
  }

  /** A string that represents a set. */
  ghost predicate Represents(joined: Str, list: seq<Str>) {
    StrictlySorted(list) && joined == Encoding(list)
  }

  lemma AddedRepresents(joined: Str, list: seq<Str>, elems: seq<Str>)
    requires Represents(joined, list)
    ensures Added(joined, elems).Some?
    ensures Represents(Added(joined, elems).value, Canonical(list + elems))
    ensures Elems(Canonical(list + elems)) == Elems(list) + Elems(elems)
  {
    ReadBack(list);
    CanonicalLists(list + elems);
  }

  lemma {:induction false} BuiltRepresents(calls: seq<seq<Str>>) returns (list: seq<Str>)
    ensures Built(calls).Some? && Represents(Built(calls).value, list) && Elems(list) == AllElems(calls)
  {
    if calls == [] {
      list := [];
    } else {
      var init, last := calls[..|calls| - 1], calls[|calls| - 1];
      var before := BuiltRepresents(init);
      AddedRepresents(Built(init).value, before, last);
      list := Canonical(before + last);
      assert calls == init + [last];
    }
  }

  /**
   * Canonical representation: two sets, however they were built up, compare equal as strings
   * exactly when they have the same elements.
   */
  lemma EqualAsStrings(calls: seq<seq<Str>>, calls': seq<seq<Str>>)
    ensures Built(calls) == Built(calls') <==> AllElems(calls) == AllElems(calls')
  {
    var list := BuiltRepresents(calls);
    var list' := BuiltRepresents(calls');
    if AllElems(calls) == AllElems(calls') { ListUnique(list, list'); }
    ReadBack(list);
    ReadBack(list');
  }

  /** A built set lists its elements in strictly increasing order, and its cardinality counts them. */
  lemma ListsElements(calls: seq<seq<Str>>)
    ensures Built(calls).Some? && Contents(Built(calls).value).Some?
    ensures var list := Contents(Built(calls).value).value;
      StrictlySorted(list) && Elems(list) == AllElems(calls) && CardinalityOf(Built(calls).value) == |list|
  {
    var list := BuiltRepresents(calls);
    ReadBack(list);
  }
}
