/**
 * A world in which all that is assumed of documents and digests is true, and copies in it, so that
 * what is proved under those assumptions speaks of something.
 */
module MirrorSample {
  import opened Names
  import opened Mirror
  import opened MirrorDelivery
  import opened MirrorLiveness
  import opened MirrorCauses
  import opened MirrorUploads
  import opened MirrorSuccess
  import opened MirrorWitness

  // ---------------------------------------------------------------------------------------
  // Documents: a letter for the kind, then the digests listed, each quoted and ended.

  function Quote(text: string): string {
    if text == "" then "" else ['.', text[0]] + Quote(text[1..])
  }

  function Write(ds: seq<Digest>): string {
    if ds == [] then "" else Quote(ds[0].text) + [';'] + Write(ds[1..])
  }

  function Read(s: string, begun: string): seq<Digest> {
    if s == "" then []
    else if s[0] == ';' then [Digest(begun)] + Read(s[1..], "")
    else if |s| == 1 then []
    else Read(s[2..], begun + [s[1]])
  }

  lemma {:induction false} ReadQuoted(text: string, rest: string, begun: string)
    ensures Read(Quote(text) + [';'] + rest, begun) == [Digest(begun + text)] + Read(rest, "")
  {
    var s := Quote(text) + [';'] + rest;
    if text == "" {
      assert s == [';'] + rest && s[1..] == rest;
      assert begun + text == begun;
    } else {
      assert s == ['.', text[0]] + (Quote(text[1..]) + [';'] + rest);
      assert s[2..] == Quote(text[1..]) + [';'] + rest;
      ReadQuoted(text[1..], rest, begun + [text[0]]);
      assert begun + [text[0]] + text[1..] == begun + text;
    }
  }

  lemma {:induction false} ReadWritten(ds: seq<Digest>)
    ensures Read(Write(ds), "") == ds
  {
    if ds != [] {
      ReadQuoted(ds[0].text, Write(ds[1..]), "");
      ReadWritten(ds[1..]);
      assert "" + ds[0].text == ds[0].text;
    }
  }

  function IndexOf(ds: seq<Digest>): Doc {
    Doc(['I'] + Write(ds))
  }

  function ManifestOf(layers: seq<Digest>, config: Digest): Doc {
    Doc(['M'] + Write([config] + layers))
  }

  function Parse(doc: Doc): Content {
    if doc.bytes == "" then Unrecognized
    else
      var ds := Read(doc.bytes[1..], "");
      if doc.bytes[0] == 'I' then Index(ds)
      else if doc.bytes[0] == 'M' && ds != [] then Manifest(ds[1..], ds[0])
      else Unrecognized
  }

  lemma ParseIndex(ds: seq<Digest>)
    ensures Parse(IndexOf(ds)) == Index(ds)
  {
    assert IndexOf(ds).bytes[1..] == Write(ds);
    ReadWritten(ds);
  }

  lemma ParseManifest(layers: seq<Digest>, config: Digest)
    ensures Parse(ManifestOf(layers, config)) == Manifest(layers, config)
  {
    assert ManifestOf(layers, config).bytes[1..] == Write([config] + layers);
    ReadWritten([config] + layers);
    assert ([config] + layers)[1..] == layers;
  }

  // ---------------------------------------------------------------------------------------
  // Digests: the document itself, under one of two algorithms.

  function Canonical(doc: Doc): Digest {
    Digest(['c'] + doc.bytes)
  }

  predicate IsCanonical(d: Digest) {
    d.text != "" && d.text[0] == 'c'
  }

  predicate Verifies(d: Digest, doc: Doc) {
    d.text == ['c'] + doc.bytes || d.text == ['o'] + doc.bytes
  }

  /** The world has these documents and digests, with any registries and any limit of at least one. */
  ghost predicate Sampled(e: World) {
    e.parsed == Parse && e.canonical == Canonical && e.isCanonical == IsCanonical && e.verifies == Verifies && e.limit >= 1
  }

  function Sample(honours: Registry -> bool, limit: nat): (e: World)
    requires limit >= 1
    ensures Sampled(e)
  {
    World(Parse, Canonical, IsCanonical, Verifies, honours, limit)
  }

  lemma SampleIsRegular(e: World)
    requires Sampled(e)
    ensures Regular(e)
  {
    forall d, x, y | e.verifies(d, x) && e.verifies(d, y) ensures x == y {
      assert d.text[1..] == x.bytes && d.text[1..] == y.bytes;
    }
    forall parts: seq<Doc> | parts != [] && AllManifests(e, parts)
      ensures exists index :: e.parsed(index) == Index(CanonicalAll(e, parts))
    {
      ParseIndex(CanonicalAll(e, parts));
      assert e.parsed(IndexOf(CanonicalAll(e, parts))) == Index(CanonicalAll(e, parts));
    }
  }

  // ---------------------------------------------------------------------------------------
  // Copies in these worlds

  const FROM := Repo(Registry("a"), "app")
  const TO := Repo(Registry("b"), "app")

  function Platform(name: char): Doc {
    ManifestOf([Digest(['l', name])], Digest(['f', name]))
  }

  /** A repository with two platforms and an index, that is tagged, which lists the digests given. */
  function Stocked(ds: seq<Digest>): Holdings {
    Holdings(
      {(FROM, Digest("l1")), (FROM, Digest("f1")), (FROM, Digest("l2")), (FROM, Digest("f2"))},
      {(FROM, Platform('1')), (FROM, Platform('2')), (FROM, IndexOf(ds))},
      map[(FROM, "latest") := IndexOf(ds)])
  }

  /** The digests are of the two platforms. */
  predicate OfPlatforms(ds: seq<Digest>) {
    ds != [] && forall d <- ds :: Verifies(d, Platform('1')) || Verifies(d, Platform('2'))
  }

  lemma PlatformParses(name: char)
    ensures Parse(Platform(name)) == Manifest([Digest(['l', name])], Digest(['f', name]))
  {
    ParseManifest([Digest(['l', name])], Digest(['f', name]));
  }

  lemma StockedIsIntact(e: World, ds: seq<Digest>)
    requires Sampled(e) && OfPlatforms(ds)
    ensures Intact(e, Stocked(ds))
  {
    PlatformParses('1');
    PlatformParses('2');
    ParseIndex(ds);
    var held := Stocked(ds);
    forall d | d in ds ensures exists part :: (FROM, part) in held.docs && e.verifies(d, part) {
      var part := if Verifies(d, Platform('1')) then Platform('1') else Platform('2');
      assert (FROM, part) in held.docs && e.verifies(d, part);
    }
    assert Complete(e, held, FROM, IndexOf(ds));
    assert Complete(e, held, FROM, Platform('1')) && Complete(e, held, FROM, Platform('2'));
  }

  lemma IndexIsInOrder(e: World, ds: seq<Digest>)
    requires Sampled(e) && CollisionFree(e) && OfPlatforms(ds)
    ensures InOrder(e, IndexOf(ds))
  {
    PlatformParses('1');
    PlatformParses('2');
    ParseIndex(ds);
  }

  lemma NamedByDigest(e: World, ds: seq<Digest>, d: Digest)
    requires Sampled(e) && CollisionFree(e) && OfPlatforms(ds)
    requires Verifies(d, IndexOf(ds))
    ensures NamesInOrder(e, Stocked(ds), Image(FROM, "", Some(d)))
    ensures Finds(e, Stocked(ds), FROM, ByDigest(d), IndexOf(ds))
  {
    IndexIsInOrder(e, ds);
    assert FetchName(Image(FROM, "", Some(d))) == ByDigest(d);
    assert Finds(e, Stocked(ds), FROM, ByDigest(d), IndexOf(ds));
    forall doc | Finds(e, Stocked(ds), FROM, ByDigest(d), doc) ensures InOrder(e, doc) { assert doc == IndexOf(ds); }
  }

  /** An index of two platforms is copied as it is, and the new tag comes to stand for it. */
  lemma IndexIsCopied(e: World, ds: seq<Digest>)
    returns (run: seq<System>, moves: seq<Move>, k: nat)
    requires Sampled(e) && ds == [Canonical(Platform('1')), Canonical(Platform('2'))]
    ensures CopiesAlone(e, PickAll(e), run, moves) && Settled(Last(run))
    ensures k < |run| && Finds(e, run[k].g.held, TO, ByTag("v1"), IndexOf(ds))
  {
    SampleIsRegular(e);
    var spec := Spec(Image(FROM, "", Some(Canonical(IndexOf(ds)))), Image(TO, "v1", None), false);
    StockedIsIntact(e, ds);
    NamedByDigest(e, ds, Canonical(IndexOf(ds)));
    run, moves := CopySucceeds(e, PickAll(e), Stocked(ds), spec);
    TraceIsRun(e, run, moves);
    k := CopyIsTagged(e, run, Last(run).procs[0], ds);
  }

  lemma CopyIsTagged(e: World, run: seq<System>, p: Proc, ds: seq<Digest>) returns (k: nat)
    requires WorldOk(e) && CollisionFree(e) && Sampled(e) && Run(e, run)
    requires p in Last(run).procs && p.Mirrored? && !p.spec.transform
    requires p.spec.src == Image(FROM, "", Some(Canonical(IndexOf(ds)))) && p.spec.dst == Image(TO, "v1", None)
    requires |ds| > 1 && forall d <- ds :: e.isCanonical(d)
    ensures k < |run| && Finds(e, run[k].g.held, TO, ByTag("v1"), IndexOf(ds))
  {
    var n := |run| - 1;
    var j := SourceStood(e, run, n, p);
    ParseIndex(ds);
    assert e.verifies(Canonical(IndexOf(ds)), p.srcDoc) && e.verifies(Canonical(IndexOf(ds)), IndexOf(ds));
    CopiedVerbatimIff(e, run, n, p);
    k := TagStands(e, run, n, p);
  }

  lemma NothingThere(e: World, ds: seq<Digest>, name: Reference)
    ensures forall doc :: !Finds(e, Stocked(ds), TO, name, doc)
  {}

  lemma SingleIsNotPortable(e: World, ds: seq<Digest>)
    requires Sampled(e) && |ds| == 1
    ensures !Portable(e, IndexOf(ds)) && !Several(e, IndexOf(ds))
  {
    ParseIndex(ds);
  }

  /** An index of one platform is replaced by that, and the digest it was to be found under never is there. */
  lemma DigestIsLost(e: World, ds: seq<Digest>) returns (run: seq<System>)
    requires Sampled(e) && ds == [Canonical(Platform('1'))]
    ensures Run(e, run) && exists p <- Last(run).procs :: p.Mirrored?
    ensures forall s <- run, doc :: !Finds(e, s.g.held, TO, ByDigest(Canonical(IndexOf(ds))), doc)
  {
    SampleIsRegular(e);
    var d := Canonical(IndexOf(ds));
    var spec := Spec(Image(FROM, "", Some(d)), Image(TO, "", Some(d)), false);
    assert FetchName(spec.dst) == ByDigest(d) && FetchName(spec.src) == ByDigest(d);
    StockedIsIntact(e, ds);
    NamedByDigest(e, ds, d);
    IndexIsInOrder(e, ds);
    SingleIsNotPortable(e, ds);
    NothingThere(e, ds, FetchName(spec.dst));
    run := DigestMayNotStand(e, Stocked(ds), spec, IndexOf(ds));
  }

  /** A repository that has an image by digest: a copy of that image to a new tag there sets no tag. */
  lemma TagIsLost(e: World, ds: seq<Digest>) returns (run: seq<System>)
    requires Sampled(e) && ds == [Canonical(Platform('1'))]
    ensures Run(e, run) && exists p <- Last(run).procs :: p.Mirrored?
    ensures forall s <- run :: (FROM, "v1") !in s.g.held.tags
  {
    SampleIsRegular(e);
    var d := Canonical(IndexOf(ds));
    var spec := Spec(Image(FROM, "", Some(d)), Image(FROM, "v1", Some(d)), false);
    StockedIsIntact(e, ds);
    run := TagMayNotStand(e, Stocked(ds), spec, IndexOf(ds));
  }
}
