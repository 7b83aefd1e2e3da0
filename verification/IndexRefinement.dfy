/** What copyIndex computes is what a spec's copy does in the copy pipeline: it asks for and uploads the same. */
module IndexRefinement {
  import opened Names
  import opened Mirror
  import I = IndexCopy

  function Digests(list: seq<I.Descriptor>): seq<Digest> {
    seq(|list|, i requires 0 <= i < |list| => list[i].digest)
  }

  /** One request of copyIndex, and the spec and source document it is made for. */
  ghost predicate SameRequest(e: World, q: I.Request, spec: Spec, srcDoc: Doc, src: seq<I.Descriptor>) {
    e.parsed(srcDoc) == Index(Digests(src)) && spec.transform == q.limit.Some?
  }

  /** The key of the pipeline for a key of copyIndex. */
  function KeyFor(spec: Spec, key: I.Key): PlatformKey {
    PlatformKey(ByItsDigest(spec.src.repo, key.src),
                if key.dst.None? then spec.dst else ByItsDigest(spec.dst.repo, key.dst.value))
  }

  lemma SelectionAgrees(e: World, q: I.Request, spec: Spec, srcDoc: Doc, src: seq<I.Descriptor>)
    requires SameRequest(e, q, spec, srcDoc, src) && I.Selected(q, src) != []
    ensures Selects(spec, Digests(src), Digests(I.Selected(q, src)))
  {
    var at := I.SelectedInOrder(q, src);
    var selected := I.Selected(q, src);
    forall d | d in Digests(selected) ensures d in Digests(src) {
      var k: nat :| k < |selected| && selected[k].digest == d;
      assert Digests(src)[at[k]] == d;
    }
    if q.limit.None? { I.SelectedAll(q, src); }
  }

  /** copyIndex asks for the one manifest selected, under the destination's own name. */
  lemma AsksForOne(e: World, q: I.Request, spec: Spec, srcDoc: Doc, src: seq<I.Descriptor>)
    requires SameRequest(e, q, spec, srcDoc, src) && I.Result(q, src).CopiedOne?
    ensures Asks(e, spec, srcDoc, [KeyFor(spec, I.Result(q, src).key)])
  {
    SelectionAgrees(e, q, spec, srcDoc, src);
    var selected := Digests(I.Selected(q, src));
    assert KeysOf(spec, selected) == [KeyFor(spec, I.Result(q, src).key)];
  }

  /** Or for each manifest selected, under its digest. */
  lemma AsksForEach(e: World, q: I.Request, spec: Spec, srcDoc: Doc, src: seq<I.Descriptor>, asked: seq<PlatformKey>)
    requires SameRequest(e, q, spec, srcDoc, src) && (I.Result(q, src).Failed? || I.Result(q, src).Uploaded?)
    requires |asked| == |I.Selected(q, src)|
    requires forall i | 0 <= i < |asked| :: asked[i] == KeyFor(spec, I.Each(I.Selected(q, src)[i]))
    ensures Asks(e, spec, srcDoc, asked)
  {
    SelectionAgrees(e, q, spec, srcDoc, src);
    assert asked == KeysOf(spec, Digests(I.Selected(q, src)));
  }

  /**
   * And it uploads an index that the pipeline allows, given the documents behind the descriptors:
   * the source's own, or one that lists what copyIndex lists.
   */
  lemma UploadsTheIndex(
    e: World, q: I.Request, spec: Spec, srcDoc: Doc, src: seq<I.Descriptor>, got: seq<Doc>, index: Doc)
    requires SameRequest(e, q, spec, srcDoc, src) && I.Result(q, src).Uploaded? && |got| == |I.Selected(q, src)|
    requires forall i | 0 <= i < |got| ::
      var copied := q.copies(I.Each(I.Selected(q, src)[i])); copied.Some? && copied.value.digest == e.canonical(got[i])
    requires if I.Result(q, src).rewritten then e.parsed(index) == Index(Digests(I.Result(q, src).manifests))
      else index == srcDoc
    ensures Assembles(e, spec, srcDoc, got, index)
  {
    I.ListsWhatWasCopied(q, src);
    assert Digests(I.Result(q, src).manifests) == CanonicalAll(e, got);
    if q.limit.None? { Unlimited(e, q, src, got); }
  }

  lemma Unlimited(e: World, q: I.Request, src: seq<I.Descriptor>, got: seq<Doc>)
    requires q.limit.None? && I.Result(q, src).Uploaded? && |got| == |I.Selected(q, src)|
    requires forall i | 0 <= i < |got| ::
      var copied := q.copies(I.Each(I.Selected(q, src)[i])); copied.Some? && copied.value.digest == e.canonical(got[i])
    ensures !I.Result(q, src).rewritten <==> Digests(src) == CanonicalAll(e, got)
  {
    I.SelectedAll(q, src);
    I.MirroredUnchanged(q, src);
    if Digests(src) == CanonicalAll(e, got) {
      forall d | d in src ensures q.copies(I.Each(d)).Some? && q.copies(I.Each(d)).value.digest == d.digest {
        var i: nat :| i < |src| && src[i] == d;
        assert Digests(src)[i] == CanonicalAll(e, got)[i];
      }
    } else if !I.Result(q, src).rewritten {
      forall i | 0 <= i < |src| ensures Digests(src)[i] == CanonicalAll(e, got)[i] { assert src[i] in src; }
    }
  }
}
