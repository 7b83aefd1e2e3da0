/** copyIndex: which manifests of an index are copied, and what index is uploaded, if any. */
module IndexCopy {
  import opened Names
  import M = Mirror

  type Digest = M.Digest
  type Platform(==, !new)
  type Annotations(==, !new)
  type Rest(==, !new)           // media type, size and the other fields

  datatype Descriptor = Descriptor(
    digest: Digest, annotations: Option<Annotations>, platform: Option<Platform>, rest: Rest)

  /** What the platform copier is asked for: a manifest by digest, to go under its digest or the destination's name. */
  datatype Key = Key(src: Digest, dst: Option<Digest>)

  datatype Outcome =
    | Invalid                                              // a digest of the source does not parse
    | Crashed                                              // a descriptor without a platform is matched
    | NothingSelected
    | CopiedOne(key: Key)                                  // no index: the manifest takes its place
    | Failed                                               // some manifest was not copied
    | Uploaded(manifests: seq<Descriptor>, rewritten: bool)

  /**
   * `limit` says which platforms are wanted, if the transform limits them; `copies` gives the
   * descriptor of the manifest copied for a key, or nothing on error.
   */
  datatype Request = Request(
    valid: Digest -> bool,
    limit: Option<Platform -> bool>,
    copies: Key -> Option<Descriptor>)

  /** Manifest.Descriptor leaves annotations and platform unset. */
  ghost predicate RequestOk(q: Request) {
    forall k :: q.copies(k).Some? ==> q.copies(k).value.annotations == None && q.copies(k).value.platform == None
  }

  predicate Wanted(q: Request, d: Descriptor) {
    q.limit.Some? ==> d.platform.Some? && q.limit.value(d.platform.value)
  }

  ghost function Selected(q: Request, src: seq<Descriptor>): seq<Descriptor> {
    if src == [] then []
    else
      var init, last := src[..|src| - 1], src[|src| - 1];
      Selected(q, init) + if Wanted(q, last) then [last] else []
  }

  function Each(d: Descriptor): Key { Key(d.digest, Some(d.digest)) }

  /** The entry listed for a selected descriptor. */
  ghost function Entry(q: Request, d: Descriptor): Descriptor
    requires q.copies(Each(d)).Some?
  {
    var copy := q.copies(Each(d)).value;
    if copy.digest == d.digest then d
    else if q.limit.Some? then copy                        // the old fields are gone by the time they are read
    else copy.(annotations := d.annotations, platform := d.platform)
  }

  ghost predicate AllCopied(q: Request, ds: seq<Descriptor>) {
    forall d <- ds :: q.copies(Each(d)).Some?
  }

  ghost function Entries(q: Request, ds: seq<Descriptor>): seq<Descriptor>
    requires AllCopied(q, ds)
  {
    seq(|ds|, i requires 0 <= i < |ds| => Entry(q, ds[i]))
  }

  /** What becomes of the selected descriptors. */
  ghost function Copied(q: Request, selected: seq<Descriptor>): Outcome {
    if selected == [] then NothingSelected
    else if |selected| == 1 then CopiedOne(Key(selected[0].digest, None))
    else if !AllCopied(q, selected) then Failed
    else
      var changed := exists d <- selected :: q.copies(Each(d)).value.digest != d.digest;
      Uploaded(Entries(q, selected), q.limit.Some? || changed)
  }

  ghost function Result(q: Request, src: seq<Descriptor>): Outcome {
    if exists d <- src :: !q.valid(d.digest) then Invalid
    else if q.limit.Some? && exists d <- src :: d.platform.None? then Crashed
    else Copied(q, Selected(q, src))
  }

  /** The selection drops the unwanted descriptors, however often they are listed, and nothing else. */
  lemma {:induction false} SelectedExactly(q: Request, src: seq<Descriptor>, d: Descriptor)
    ensures multiset(Selected(q, src))[d] == if Wanted(q, d) then multiset(src)[d] else 0
  {
    if src != [] {
      var init, last := src[..|src| - 1], src[|src| - 1];
      SelectedExactly(q, init, d);
      assert src == init + [last];
    }
  }

  /** The entry is for a platform that is wanted, or platforms are not limited. */
  ghost predicate WantedAt(q: Request, src: seq<Descriptor>, i: nat) {
    i < |src| && (q.limit.Some? ==> src[i].platform.Some? && q.limit.value(src[i].platform.value))
  }

  /** The wanted entries come out in their order, and all of them do. */
  lemma {:induction false} SelectedInOrder(q: Request, src: seq<Descriptor>) returns (at: seq<nat>)
    ensures |at| == |Selected(q, src)| && forall k, l | 0 <= k < l < |at| :: at[k] < at[l]
    ensures forall k | 0 <= k < |at| :: WantedAt(q, src, at[k]) && src[at[k]] == Selected(q, src)[k]
    ensures forall i: nat | WantedAt(q, src, i) :: i in at
  {
    at := [];
    if src != [] {
      var init, last := src[..|src| - 1], src[|src| - 1];
      at := SelectedInOrder(q, init);
      forall i: nat | i < |init| ensures WantedAt(q, src, i) == WantedAt(q, init, i) { assert src[i] == init[i]; }
      if Wanted(q, last) { at := at + [|init|]; }
    }
  }

  lemma SelectedAll(q: Request, src: seq<Descriptor>)
    requires q.limit.None?
    ensures Selected(q, src) == src
  {
    if src != [] {
      SelectedAll(q, src[..|src| - 1]);
      assert src == src[..|src| - 1] + [src[|src| - 1]];
    }
  }

  // ---------------------------------------------------------------------------------------
  // Which outcome it is

  ghost predicate AllValid(q: Request, src: seq<Descriptor>) {
    forall i | 0 <= i < |src| :: q.valid(src[i].digest)
  }

  ghost predicate PlatformsGiven(q: Request, src: seq<Descriptor>) {
    q.limit.Some? ==> forall i | 0 <= i < |src| :: src[i].platform.Some?
  }

  ghost predicate NoneWanted(q: Request, src: seq<Descriptor>) {
    forall i: nat :: !WantedAt(q, src, i)
  }

  ghost predicate OneWanted(q: Request, src: seq<Descriptor>, i: nat) {
    forall j: nat :: WantedAt(q, src, j) <==> j == i
  }

  ghost predicate SeveralWanted(q: Request, src: seq<Descriptor>) {
    exists i: nat, j: nat :: i < j && WantedAt(q, src, i) && WantedAt(q, src, j)
  }

  /** All wanted manifests have been copied to go by their digests. */
  ghost predicate WantedCopied(q: Request, src: seq<Descriptor>) {
    forall i: nat | WantedAt(q, src, i) :: q.copies(Key(src[i].digest, Some(src[i].digest))).Some?
  }

  /** The positions of the wanted entries, in order. */
  ghost predicate Positions(q: Request, src: seq<Descriptor>, at: seq<nat>) {
    && (forall k, l | 0 <= k < l < |at| :: at[k] < at[l])
    && (forall k | 0 <= k < |at| :: WantedAt(q, src, at[k]))
    && forall i: nat | WantedAt(q, src, i) :: i in at
  }

  lemma NoPosition(q: Request, src: seq<Descriptor>, at: seq<nat>)
    requires Positions(q, src, at) && |at| == 0
    ensures NoneWanted(q, src) && !SeveralWanted(q, src) && forall i: nat :: !OneWanted(q, src, i)
  {
    forall i: nat ensures !OneWanted(q, src, i) { assert !WantedAt(q, src, i); }
  }

  lemma OnePosition(q: Request, src: seq<Descriptor>, at: seq<nat>)
    requires Positions(q, src, at) && |at| == 1
    ensures OneWanted(q, src, at[0]) && !NoneWanted(q, src) && !SeveralWanted(q, src)
    ensures forall i: nat | OneWanted(q, src, i) :: i == at[0]
  {
    assert WantedAt(q, src, at[0]);
  }

  lemma TwoPositions(q: Request, src: seq<Descriptor>, at: seq<nat>)
    requires Positions(q, src, at) && |at| >= 2
    ensures SeveralWanted(q, src) && !NoneWanted(q, src) && forall i: nat :: !OneWanted(q, src, i)
  {
    assert WantedAt(q, src, at[0]) && WantedAt(q, src, at[1]) && at[0] < at[1];
  }

  lemma HowManyWanted(q: Request, src: seq<Descriptor>)
    ensures |Selected(q, src)| == 0 <==> NoneWanted(q, src)
    ensures |Selected(q, src)| == 1 <==> exists i: nat :: OneWanted(q, src, i)
    ensures |Selected(q, src)| >= 2 <==> SeveralWanted(q, src)
    ensures forall i: nat | OneWanted(q, src, i) :: i < |src| && Selected(q, src) == [src[i]]
  {
    var at := SelectedInOrder(q, src);
    if |at| == 0 {
      NoPosition(q, src, at);
    } else if |at| == 1 {
      OnePosition(q, src, at);
    } else {
      TwoPositions(q, src, at);
    }
  }

  lemma SelectedCopied(q: Request, src: seq<Descriptor>)
    ensures AllCopied(q, Selected(q, src)) <==> WantedCopied(q, src)
  {
    var at := SelectedInOrder(q, src);
    forall i: nat | WantedAt(q, src, i) ensures src[i] in Selected(q, src) {
      var k: nat :| k < |at| && at[k] == i;
      assert Selected(q, src)[k] == src[i];
    }
    forall d | d in Selected(q, src) ensures exists i: nat :: WantedAt(q, src, i) && src[i] == d {
      var k: nat :| k < |Selected(q, src)| && Selected(q, src)[k] == d;
      assert WantedAt(q, src, at[k]) && src[at[k]] == d;
    }
  }

  /** Each outcome, from the request alone. */
  lemma OutcomeExactly(q: Request, src: seq<Descriptor>)
    ensures Result(q, src).Invalid? <==> !AllValid(q, src)
    ensures Result(q, src).Crashed? <==> AllValid(q, src) && !PlatformsGiven(q, src)
    ensures AllValid(q, src) && PlatformsGiven(q, src) ==>
      && (Result(q, src).NothingSelected? <==> NoneWanted(q, src))
      && (Result(q, src).CopiedOne? <==> exists i: nat :: OneWanted(q, src, i))
      && (Result(q, src).Failed? <==> SeveralWanted(q, src) && !WantedCopied(q, src))
      && (Result(q, src).Uploaded? <==> SeveralWanted(q, src) && WantedCopied(q, src))
    ensures forall i: nat | OneWanted(q, src, i) && Result(q, src).CopiedOne? ::
      i < |src| && Result(q, src).key == Key(src[i].digest, None)
    ensures Result(q, src).Uploaded? && q.limit.Some? ==> Result(q, src).rewritten
  {
    HowManyWanted(q, src);
    SelectedCopied(q, src);
    assert (exists d <- src :: !q.valid(d.digest)) <==> !AllValid(q, src);
  }

  /** An entry whose digest is the canonical one is listed as it was, and one whose digest is not as what was copied. */
  lemma EntriesListed(q: Request, src: seq<Descriptor>, i: nat)
    requires Result(q, src).Uploaded? && i < |Selected(q, src)|
    ensures var was, copied, now :=
        Selected(q, src)[i], q.copies(Each(Selected(q, src)[i])), Result(q, src).manifests[i];
      && copied.Some? && now.digest == copied.value.digest
      && if was.digest == copied.value.digest then now == was else now.rest == copied.value.rest
  {
    assert Selected(q, src)[i] in Selected(q, src);
  }

  /** An uploaded index lists, in order, the digests of the manifests copied for the wanted entries. */
  lemma ListsWhatWasCopied(q: Request, src: seq<Descriptor>)
    requires Result(q, src).Uploaded?
    ensures |Result(q, src).manifests| == |Selected(q, src)| >= 2
    ensures forall i | 0 <= i < |Selected(q, src)| ::
      var copied := q.copies(Each(Selected(q, src)[i]));
      copied.Some? && Result(q, src).manifests[i].digest == copied.value.digest
  {
    var ds := Selected(q, src);
    forall i | 0 <= i < |ds|
      ensures q.copies(Each(ds[i])).Some? && Result(q, src).manifests[i].digest == q.copies(Each(ds[i])).value.digest
    {
      assert ds[i] in ds;
    }
  }

  /** Without a transform, an index whose digests are canonical is mirrored as it is. */
  lemma MirroredUnchanged(q: Request, src: seq<Descriptor>)
    requires q.limit.None? && Result(q, src).Uploaded?
    ensures !Result(q, src).rewritten <==>
      forall d <- src :: q.copies(Each(d)).Some? && q.copies(Each(d)).value.digest == d.digest
    ensures !Result(q, src).rewritten ==> Result(q, src).manifests == src
  {
    SelectedAll(q, src);
  }

  /** The index lists an entry with the annotations and platform it had in the source. */
  ghost predicate KeepsFields(q: Request, src: seq<Descriptor>, i: nat)
    requires Result(q, src).Uploaded? && i < |Selected(q, src)|
  {
    var was, now := Selected(q, src)[i], Result(q, src).manifests[i];
    now.annotations == was.annotations && now.platform == was.platform
  }

  /**
   * A limited index shares the list it reads the old fields from, so it loses them for every
   * manifest whose canonical digest is not the one listed; in all other cases they are kept.
   */
  lemma FieldsKeptExactlyWhen(q: Request, src: seq<Descriptor>, i: nat)
    requires RequestOk(q) && Result(q, src).Uploaded? && i < |Selected(q, src)|
    ensures KeepsFields(q, src, i) <==>
      var d := Selected(q, src)[i];
      q.limit.None? || (q.copies(Each(d)).Some? && q.copies(Each(d)).value.digest == d.digest)
  {
    var at := SelectedInOrder(q, src);
    var d := Selected(q, src)[i];
    assert d in Selected(q, src);
    assert src[at[i]] in src;
  }

  /** Two entries, the first listed under a digest that is not its canonical one: its platform is lost. */
  lemma LimitedIndexLosesPlatform(listed: Digest, canonical: Digest, p: Platform, rest: Rest)
    returns (q: Request, src: seq<Descriptor>)
    requires listed != canonical
    ensures RequestOk(q) && Result(q, src).Uploaded? && |src| == 2 && src[0].platform == Some(p)
    ensures Result(q, src).manifests[0] == Descriptor(canonical, None, None, rest)
  {
    q := Request(_ => true, Some(_ => true), _ => Some(Descriptor(canonical, None, None, rest)));
    src := [Descriptor(listed, None, Some(p), rest), Descriptor(canonical, None, Some(p), rest)];
    assert src[..1] == [src[0]] && src[..1][..0] == [];
    assert Selected(q, src[..1]) == [src[0]];
    assert Selected(q, src) == src;
  }

  method Validate(q: Request, src: array<Descriptor>) returns (ok: bool)
    ensures ok <==> forall d <- src[..] :: q.valid(d.digest)
  {
    for i := 0 to src.Length
      invariant forall d <- src[..i] :: q.valid(d.digest)
    {
      if !q.valid(src[i].digest) {
        assert src[i] in src[..];
        return false;
      }
      assert src[..i + 1] == src[..i] + [src[i]];
    }
    assert src[..src.Length] == src[..];
    ok := true;
  }

  /** The wanted descriptors of a limited index, in an array of their own. */
  method SelectPlatforms(q: Request, manifests: array<Descriptor>) returns (selected: Option<array<Descriptor>>)
    requires q.limit.Some?
    ensures selected.None? <==> exists d <- manifests[..] :: d.platform.None?
    ensures selected.Some? ==> fresh(selected.value) && selected.value[..] == Selected(q, manifests[..])
  {
    var appended: seq<Descriptor> := [];
    for i := 0 to manifests.Length
      invariant appended == Selected(q, manifests[..i])
      invariant forall d <- manifests[..i] :: d.platform.Some?
    {
      assert manifests[..i + 1] == manifests[..i] + [manifests[i]];
      if manifests[i].platform.None? {
        assert manifests[i] in manifests[..];
        return None;
      }
      if q.limit.value(manifests[i].platform.value) {
        appended := appended + [manifests[i]];
      }
    }
    assert manifests[..manifests.Length] == manifests[..];
    var backing := new Descriptor[|appended|](i requires 0 <= i < |appended| => appended[i]);
    assert backing[..] == appended;
    selected := Some(backing);
  }

  /** platformCopier.CopyAll: the copies for all of the digests, or nothing if one fails. */
  method CopyAll(q: Request, digests: seq<Digest>) returns (copies: Option<seq<Descriptor>>)
    ensures copies.Some? <==> forall d <- digests :: q.copies(Key(d, Some(d))).Some?
    ensures copies.Some? ==> |copies.value| == |digests|
    ensures copies.Some? ==> forall i | 0 <= i < |digests| ::
      q.copies(Key(digests[i], Some(digests[i]))) == Some(copies.value[i])
  {
    var got: seq<Descriptor> := [];
    for i := 0 to |digests|
      invariant |got| == i
      invariant forall j | 0 <= j < i :: q.copies(Key(digests[j], Some(digests[j]))) == Some(got[j])
    {
      var copy := q.copies(Key(digests[i], Some(digests[i])));
      if copy.None? { return None; }
      got := got + [copy.value];
    }
    copies := Some(got);
  }

  method DeepCopy(src: array<Descriptor>) returns (copy: array<Descriptor>)
    ensures fresh(copy) && copy[..] == src[..]
  {
    copy := new Descriptor[src.Length](i requires 0 <= i < src.Length reads src => src[i]);
  }

  /**
   * The last loop. When the index is limited, the list it changes is the list it reads the old
   * descriptors from; otherwise it changes a copy, made when first needed, and reads the source.
   */
  method ListCopies(q: Request, src: array<Descriptor>, limited: array<Descriptor>, selected: array<Descriptor>,
                    copies: seq<Descriptor>)
    returns (dstIndex: array<Descriptor>, dstIndexCopied: bool)
    requires selected == if q.limit.Some? then limited else src
    requires |copies| == selected.Length
    requires forall i | 0 <= i < |copies| :: q.copies(Each(selected[i])) == Some(copies[i])
    modifies if q.limit.Some? then {limited} else {}
    ensures AllCopied(q, old(selected[..])) && dstIndex[..] == Entries(q, old(selected[..]))
    ensures dstIndexCopied <==>
      q.limit.Some? || exists d <- old(selected[..]) :: q.copies(Each(d)).value.digest != d.digest
    ensures !dstIndexCopied ==> dstIndex == src
  {
    ghost var ds := selected[..];
    dstIndex, dstIndexCopied := if q.limit.Some? then limited else src, q.limit.Some?;
    for i := 0 to |copies|
      invariant q.limit.Some? ==> dstIndexCopied && dstIndex == limited
      invariant q.limit.None? && dstIndexCopied ==> fresh(dstIndex)
      invariant !dstIndexCopied ==> dstIndex == src
      invariant dstIndex.Length == |ds|
      invariant forall j | 0 <= j < |ds| :: dstIndex[j] == if j < i then Entry(q, ds[j]) else ds[j]
      invariant dstIndexCopied <==> q.limit.Some? || exists j | 0 <= j < i :: copies[j].digest != ds[j].digest
    {
      var desc := copies[i];
      if desc.digest != selected[i].digest {
        if !dstIndexCopied {
          dstIndex := DeepCopy(src);
          dstIndexCopied := true;
        }
        dstIndex[i] := desc;
        dstIndex[i] := dstIndex[i].(annotations := selected[i].annotations);
        dstIndex[i] := dstIndex[i].(platform := selected[i].platform);
      }
    }
  }

  /** From the requests made for the selected descriptors to the upload. */
  method CopySelected(q: Request, src: array<Descriptor>, dstIndex: array<Descriptor>, selected: array<Descriptor>)
    returns (o: Outcome)
    requires selected == if q.limit.Some? then dstIndex else src
    modifies if q.limit.Some? then {dstIndex} else {}
    ensures o == Copied(q, old(selected[..]))
  {
    var digests := seq(selected.Length, i requires 0 <= i < selected.Length reads selected => selected[i].digest);
    if |digests| == 0 {
      return NothingSelected;
    }
    if |digests| == 1 {
      return CopiedOne(Key(digests[0], None));
    }
    var copies := CopyAll(q, digests);
    assert forall i | 0 <= i < |digests| :: Each(selected[i]) == Key(digests[i], Some(digests[i]));
    if copies.None? {
      return Failed;
    }
    var index, rewritten := ListCopies(q, src, dstIndex, selected, copies.value);
    o := Uploaded(index[..], rewritten);
  }

  /** The source index, which the manifest cache shares with other copies, is only read. */
  method CopyIndex(q: Request, src: array<Descriptor>) returns (o: Outcome)
    ensures o == Result(q, src[..])
  {
    var ok := Validate(q, src);
    if !ok {
      return Invalid;
    }

    var dstIndex, selected := src, src;
    if q.limit.Some? {
      dstIndex := DeepCopy(src);
      var matched := SelectPlatforms(q, dstIndex);
      if matched.None? {
        return Crashed;
      }
      selected := matched.value;
      dstIndex := selected;
    } else {
      SelectedAll(q, src[..]);
    }
    o := CopySelected(q, src, dstIndex, selected);
  }
}
