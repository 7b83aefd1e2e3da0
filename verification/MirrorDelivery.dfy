/** What has been achieved when copySpec returns no error: which document, and under which name. */
module MirrorDelivery {
  import opened Names
  import opened Mirror
  import opened MirrorSafety

  // ---------------------------------------------------------------------------------------
  // The history of names is true: whatever it has was so at some moment of the run.

  /** The history has the name for something the registry did not have under it when last recorded. */
  ghost predicate StandsNow(e: World, g: Shared, g': Shared, repo: Repo, name: Reference, doc: Doc) {
    (repo, name, doc) in g'.stood && (repo, name, doc) !in g.stood ==> Finds(e, g'.held, repo, name, doc)
  }

  lemma PutStands(e: World, g: Shared, img: Image, top: Doc, repo: Repo, name: Reference, doc: Doc)
    requires Accepts(e, img, top)
    ensures StandsNow(e, g, PutDoc(e, g, img, top), repo, name, doc)
  {}

  lemma SourceStands(e: World, g: Shared, img: Image, g': Shared, found: Doc, repo: Repo, name: Reference, doc: Doc)
    requires GetsSource(e, g, img, g', found)
    ensures StandsNow(e, g, g', repo, name, doc)
  {}

  lemma LookStands(e: World, g: Shared, p: Proc, g': Shared, p': Proc, spawn: seq<Proc>,
                   repo: Repo, name: Reference, doc: Doc)
    requires p.CopySpec? && p.sp.Looking? && LookStep(e, g, p.spec, p.sp.dst, p.sp.src, g', p', spawn)
    ensures StandsNow(e, g, g', repo, name, doc)
  {
    if p' == Done || !p'.sp.Looking? {
    } else if p.sp.src.None? && p'.sp.src.Some? {
      SourceStands(e, g, p.spec.src, g', p'.sp.src.value, repo, name, doc);
    } else if p'.sp.dst.value.Some? {
      DestinationStands(e, g, p.spec.dst, g', p'.sp.dst.value.value, repo, name, doc);
    }
  }

  lemma DestinationStands(e: World, g: Shared, img: Image, g': Shared, found: Doc,
                          repo: Repo, name: Reference, doc: Doc)
    requires GetsDestination(e, g, img, g', found)
    ensures StandsNow(e, g, g', repo, name, doc)
  {}

  lemma SpecStands(e: World, g: Shared, p: Proc, g': Shared, p': Proc, spawn: seq<Proc>,
                   repo: Repo, name: Reference, doc: Doc)
    requires p.CopySpec? && SpecStep(e, g, p.spec, p.sp, g', p', spawn)
    ensures StandsNow(e, g, g', repo, name, doc)
  {
    if p.sp.UploadIndex? && p'.Mirrored? {
      PutStands(e, g, p.spec.dst, p'.top, repo, name, doc);
    } else if p.sp.Looking? {
      LookStands(e, g, p, g', p', spawn, repo, name, doc);
    }
  }

  lemma UploadStands(e: World, g: Shared, p: Proc, g': Shared, p': Proc, repo: Repo, name: Reference, doc: Doc)
    requires WorldOk(e) && p.CopyPlatform? && p.pp.UploadManifest? && PlatformStep(e, g, p.key, p.pp, g', p')
    ensures StandsNow(e, g, g', repo, name, doc)
  {
    PutStands(e, g, Target(e, p.key.dst, p.pp.doc), p.pp.doc, repo, name, doc);
  }

  lemma PlatformStands(e: World, g: Shared, p: Proc, g': Shared, p': Proc, repo: Repo, name: Reference, doc: Doc)
    requires WorldOk(e) && p.CopyPlatform? && PlatformStep(e, g, p.key, p.pp, g', p')
    ensures StandsNow(e, g, g', repo, name, doc)
  {
    if p.pp.FetchManifest? && p'.CopyPlatform? {
      SourceStands(e, g, p.key.src, g', p'.pp.doc, repo, name, doc);
    } else if p.pp.UploadManifest? {
      UploadStands(e, g, p, g', p', repo, name, doc);
    } else {
      assert g'.stood == g.stood;
    }
  }

  lemma BlobStands(e: World, g: Shared, p: Proc, g': Shared, p': Proc, repo: Repo, name: Reference, doc: Doc)
    requires p.CopyBlob? && BlobStep(e, g, p.blob, p.bp, g', p')
    ensures StandsNow(e, g, g', repo, name, doc)
  {
    if p.bp.Requesting? {
      RequestStands(e, g, p, g', p');
    } else if p.bp.Transferring? {
      TransferStands(e, g, p, g', p');
    }
  }

  lemma RequestStands(e: World, g: Shared, p: Proc, g': Shared, p': Proc)
    requires p.CopyBlob? && p.bp.Requesting? && BlobStep(e, g, p.blob, p.bp, g', p')
    ensures g'.stood == g.stood
  {}

  lemma TransferStands(e: World, g: Shared, p: Proc, g': Shared, p': Proc)
    requires p.CopyBlob? && p.bp.Transferring? && BlobStep(e, g, p.blob, p.bp, g', p')
    ensures g'.stood == g.stood
  {}

  lemma LocalStands(e: World, g: Shared, p: Proc, g': Shared, p': Proc, spawn: seq<Proc>,
                    repo: Repo, name: Reference, doc: Doc)
    requires WorldOk(e) && LocalStep(e, g, p, g', p', spawn)
    ensures StandsNow(e, g, g', repo, name, doc)
  {
    if p.CopySpec? {
      SpecStands(e, g, p, g', p', spawn, repo, name, doc);
    } else if p.CopyPlatform? {
      PlatformStands(e, g, p, g', p', repo, name, doc);
    } else if p.CopyBlob? {
      BlobStands(e, g, p, g', p', repo, name, doc);
    } else if p.Lingering? && g' != g {
      var found :| GetsDestination(e, g, p.img, g', found);
    }
  }

  lemma {:induction false} Stands(e: World, run: seq<System>, n: nat, repo: Repo, name: Reference, doc: Doc)
    returns (k: nat)
    requires WorldOk(e) && Run(e, run) && n < |run| && (repo, name, doc) in run[n].g.stood
    ensures k <= n && Finds(e, run[k].g.held, repo, name, doc)
  {
    var s' := run[n];
    var s := run[n - 1];
    assert Step(e, run[n - 1], run[n]);
    var move :| Moves(e, s, move, s');
    if (repo, name, doc) in s.g.stood {
      k := Stands(e, run, n - 1, repo, name, doc);
    } else {
      LocalStands(e, s.g, s.procs[move.i], s'.g, move.p, move.spawn, repo, name, doc);
      k := n;
    }
  }

  // ---------------------------------------------------------------------------------------

  /** The document is in the repository, with everything it refers to. */
  ghost predicate Whole(e: World, held: Holdings, repo: Repo, doc: Doc) {
    (repo, doc) in held.docs && Complete(e, held, repo, doc)
  }

  lemma MirroredOk(e: World, run: seq<System>, n: nat, p: Proc)
    requires WorldOk(e) && Run(e, run) && n < |run| && p in run[n].procs && p.Mirrored?
    ensures SharedOk(e, run[n].g) && Delivered(e, run[n].g, p.spec, p.srcDoc, p.asked, p.got, p.top)
  {
    RunInv(e, run, n);
    assert ProcOk(e, run[n].g, p);
  }

  lemma SourceStood(e: World, run: seq<System>, n: nat, p: Proc) returns (j: nat)
    requires WorldOk(e) && Run(e, run) && n < |run| && p in run[n].procs && p.Mirrored?
    ensures j <= n && Finds(e, run[j].g.held, p.spec.src.repo, FetchName(p.spec.src), p.srcDoc)
  {
    MirroredOk(e, run, n, p);
    j := Stands(e, run, n, p.spec.src.repo, FetchName(p.spec.src), p.srcDoc);
  }

  /**
   * A copy without error has done what it was asked. At some moment of the run the source's name
   * stood for `srcDoc`, and the document at the top is whole in the destination. If the source is
   * a manifest it is that very manifest; if the source is an index it is that index, or the one
   * manifest selected from it, or an index of the manifests brought for all selected.
   */
  lemma MirrorDelivers(e: World, run: seq<System>, n: nat, p: Proc) returns (j: nat)
    requires WorldOk(e) && Run(e, run) && n < |run| && p in run[n].procs && p.Mirrored?
    ensures j <= n && Finds(e, run[j].g.held, p.spec.src.repo, FetchName(p.spec.src), p.srcDoc)
    ensures Whole(e, run[n].g.held, p.spec.dst.repo, p.top)
    ensures p.asked == [] || e.parsed(p.srcDoc).Manifest? ==> p.top == p.srcDoc
    ensures |p.got| == |p.asked| && (p.asked != [] ==> Asks(e, p.spec, p.srcDoc, p.asked))
    ensures forall i | 0 <= i < |p.got| ::
      && e.parsed(p.got[i]).Manifest? && Whole(e, run[n].g.held, p.spec.dst.repo, p.got[i])
      && (p.asked[i].src.digest.Some? ==> e.verifies(p.asked[i].src.digest.value, p.got[i]))
    ensures |p.asked| == 1 ==> p.top == p.got[0]
    ensures |p.asked| > 1 ==> Assembles(e, p.spec, p.srcDoc, p.got, p.top)
  {
    MirroredOk(e, run, n, p);
    j := SourceStood(e, run, n, p);
    var g := run[n].g;
    forall i | 0 <= i < |p.got|
      ensures e.parsed(p.got[i]).Manifest? && Whole(e, g.held, p.spec.dst.repo, p.got[i])
      ensures p.asked[i].src.digest.Some? ==> e.verifies(p.asked[i].src.digest.value, p.got[i])
    {
      assert Brought(e, g, p.asked[i], p.got[i]);
      assert Complete(e, g.held, p.spec.dst.repo, p.got[i]);
    }
    if p.asked != [] && e.parsed(p.srcDoc).Manifest? { assert Brought(e, g, p.asked[0], p.got[0]); }
  }

  /** The documents that can be copied as they are: manifests, and indexes of several canonical digests. */
  ghost predicate Portable(e: World, doc: Doc) {
    match e.parsed(doc)
    case Manifest(_, _) => true
    case Index(ds) => |ds| > 1 && forall d <- ds :: e.isCanonical(d)
    case Unrecognized => false
  }

  /**
   * Without a transform the destination receives the source's document as it is, if it did not
   * have it already, exactly unless that is an index of a single manifest, or one that lists a
   * digest of another algorithm than the canonical one.
   */
  lemma CopiedVerbatimIff(e: World, run: seq<System>, n: nat, p: Proc)
    requires WorldOk(e) && Run(e, run) && n < |run| && p in run[n].procs && p.Mirrored? && !p.spec.transform
    ensures p.asked == [] ==> p.top == p.srcDoc
    ensures p.asked != [] ==> (p.top == p.srcDoc <==> Portable(e, p.srcDoc))
  {
    var j := MirrorDelivers(e, run, n, p);
    if p.asked != [] && e.parsed(p.srcDoc).Index? {
      var ds := e.parsed(p.srcDoc).manifests;
      if |ds| > 1 { ManyCopied(e, p, ds); }
    }
  }

  lemma ManyCopied(e: World, p: Proc, ds: seq<Digest>)
    requires WorldOk(e) && p.Mirrored? && !p.spec.transform && e.parsed(p.srcDoc) == Index(ds) && |ds| > 1
    requires Asks(e, p.spec, p.srcDoc, p.asked) && |p.got| == |p.asked| && Assembles(e, p.spec, p.srcDoc, p.got, p.top)
    requires forall i | 0 <= i < |p.got| ::
      p.asked[i].src.digest.Some? ==> e.verifies(p.asked[i].src.digest.value, p.got[i])
    ensures p.top == p.srcDoc <==> forall d <- ds :: e.isCanonical(d)
  {
    assert p.asked == IndexKeys(p.spec, ds);
    assert forall i | 0 <= i < |ds| :: e.isCanonical(ds[i]) <==> e.canonical(p.got[i]) == ds[i];
    if forall d <- ds :: e.isCanonical(d) {
      assert CanonicalAll(e, p.got) == ds;
    } else {
      var i: nat :| i < |ds| && !e.isCanonical(ds[i]);
      assert CanonicalAll(e, p.got)[i] != ds[i];
    }
  }

  /** Every manifest that an untransformed source index lists is whole in the destination. */
  lemma EveryPlatformDelivered(e: World, run: seq<System>, n: nat, p: Proc, d: Digest)
    requires WorldOk(e) && Run(e, run) && n < |run| && p in run[n].procs && p.Mirrored? && !p.spec.transform
    requires e.parsed(p.srcDoc).Index? && d in e.parsed(p.srcDoc).manifests
    ensures exists part :: Whole(e, run[n].g.held, p.spec.dst.repo, part) && e.verifies(d, part)
  {
    var j := MirrorDelivers(e, run, n, p);
    var g, dst, ds := run[n].g, p.spec.dst.repo, e.parsed(p.srcDoc).manifests;
    MirroredOk(e, run, n, p);
    if p.asked == [] {
      var part :| (dst, part) in g.held.docs && e.verifies(d, part);
      assert Whole(e, g.held, dst, part);
    } else {
      var i: nat :| i < |ds| && ds[i] == d;
      assert Whole(e, g.held, dst, p.got[i]) && e.verifies(d, p.got[i]);
    }
  }

  // ---------------------------------------------------------------------------------------
  // The destination's own names

  /** A destination named by its tag alone has stood for the document: its tag was pointed there. */
  lemma TagStands(e: World, run: seq<System>, n: nat, p: Proc) returns (k: nat)
    requires WorldOk(e) && Run(e, run) && n < |run| && p in run[n].procs && p.Mirrored?
    requires p.spec.dst.tag != "" && (p.spec.dst.digest.None? || p.asked != [])
    ensures k <= n && Finds(e, run[k].g.held, p.spec.dst.repo, ByTag(p.spec.dst.tag), p.top)
  {
    MirroredOk(e, run, n, p);
    if |p.asked| == 1 {
      assert Brought(e, run[n].g, p.asked[0], p.got[0]);
      SingleTarget(e, p);
    }
    k := Stands(e, run, n, p.spec.dst.repo, ByTag(p.spec.dst.tag), p.top);
  }

  lemma SingleTarget(e: World, p: Proc)
    requires p.Mirrored? && Asks(e, p.spec, p.srcDoc, p.asked) && |p.asked| == 1
    ensures p.asked[0].dst == p.spec.dst
  {
    if e.parsed(p.srcDoc).Index? {
      var selected :| Selects(p.spec, e.parsed(p.srcDoc).manifests, selected) && p.asked == KeysOf(p.spec, selected);
      assert |selected| == 1;
    }
  }

  /** What the checks on copy specs allow of a destination with an explicit digest. */
  predicate Consistent(spec: Spec) {
    spec.src != spec.dst && (spec.dst.digest.Some? ==> spec.dst.digest == spec.src.digest && !spec.transform)
  }

  /** No two documents share a digest. */
  ghost predicate CollisionFree(e: World) {
    forall d, x, y | e.verifies(d, x) && e.verifies(d, y) :: x == y
  }

  /**
   * A destination named by a digest receives a document with that digest, if it did not have it
   * already, exactly if the source's document can be copied as it is.
   */
  lemma DigestStandsIff(e: World, run: seq<System>, n: nat, p: Proc)
    requires WorldOk(e) && CollisionFree(e) && Run(e, run) && n < |run| && p in run[n].procs && p.Mirrored?
    requires Consistent(p.spec) && p.spec.dst.digest.Some?
    ensures Finds(e, run[n].g.held, p.spec.dst.repo, FetchName(p.spec.dst), p.top) <==>
      p.asked == [] || Portable(e, p.srcDoc)
  {
    MirroredOk(e, run, n, p);
    CopiedVerbatimIff(e, run, n, p);
    assert e.verifies(p.spec.dst.digest.value, p.srcDoc);
  }

  /** The name under which a document copied was put: an index under the image's, a platform under its target's. */
  function PutName(e: World, p: Proc): Reference
    requires p.Mirrored?
  {
    UploadName(e, if |p.asked| == 1 then Target(e, p.spec.dst, p.top) else p.spec.dst, p.top)
  }

  /**
   * A registry might know a document only under the names it was given. A destination named by its
   * digest alone is the name under which the document was put exactly if the source's document can
   * be copied as it is, and is either an index or has that digest by the canonical algorithm.
   */
  lemma DigestWrittenIff(e: World, run: seq<System>, n: nat, p: Proc) returns (k: nat)
    requires WorldOk(e) && CollisionFree(e) && Run(e, run) && n < |run| && p in run[n].procs && p.Mirrored?
    requires Consistent(p.spec) && p.spec.dst.digest.Some? && p.spec.dst.tag == "" && p.asked != []
    ensures k <= n && Finds(e, run[k].g.held, p.spec.dst.repo, PutName(e, p), p.top)
    ensures PutName(e, p) == FetchName(p.spec.dst) <==>
      && Portable(e, p.srcDoc)
      && (e.parsed(p.srcDoc).Manifest? ==> e.isCanonical(p.spec.dst.digest.value))
  {
    MirroredOk(e, run, n, p);
    CopiedVerbatimIff(e, run, n, p);
    assert e.verifies(p.spec.dst.digest.value, p.srcDoc);
    if |p.asked| == 1 {
      assert Brought(e, run[n].g, p.asked[0], p.got[0]);
      SingleTarget(e, p);
    }
    k := Stands(e, run, n, p.spec.dst.repo, PutName(e, p), p.top);
  }
}
