/** Integrity of the destinations, soundness of the source map, and what a finished copy has delivered. */
module MirrorSafety {
  import opened Names
  import opened Mirror

  /** A repository listed as a source of a blob really holds it. */
  ghost predicate SourcesSound(held: Holdings, sources: map<Digest, set<Repo>>) {
    forall d, r | d in sources && r in sources[d] :: (r, d) in held.blobs
  }

  /** Blobs are only ever asked for once some source is known, and a good result means the blob is there. */
  ghost predicate BlobsOk(held: Holdings, sources: map<Digest, set<Repo>>, blobs: map<BlobKey, Task<bool>>) {
    forall k <- blobs ::
      && k.digest in sources && sources[k.digest] != {}
      && (blobs[k] == Result(true) ==> (k.dst, k.digest) in held.blobs)
  }

  ghost predicate ContentOk(
    e: World, held: Holdings, sources: map<Digest, set<Repo>>, blobs: map<BlobKey, Task<bool>>)
  {
    Intact(e, held) && SourcesSound(held, sources) && BlobsOk(held, sources, blobs)
  }

  /** The caches hold what their registries hold, and what was asked for by digest verifies against it. */
  ghost predicate CacheOk(e: World, held: Holdings, cache: map<Image, Doc>) {
    forall img <- cache :: (img.repo, cache[img]) in held.docs
      && (img.digest.Some? ==> e.verifies(img.digest.value, cache[img]))
  }

  ghost predicate StoodOk(g: Shared) {
    && (forall img <- g.srcManifests :: (img.repo, FetchName(img), g.srcManifests[img]) in g.stood)
    && (forall img <- g.dstManifests :: (img.repo, FetchName(img), g.dstManifests[img]) in g.stood)
  }

  ghost predicate FromSource(g: Shared, img: Image, doc: Doc) {
    img in g.srcManifests && g.srcManifests[img] == doc
  }

  /** The manifest for a platform key: the one its source gave, uploaded under the name it was to have. */
  ghost predicate Brought(e: World, g: Shared, key: PlatformKey, doc: Doc) {
    && FromSource(g, key.src, doc) && e.parsed(doc).Manifest?
    && (key.dst.repo, doc) in g.held.docs
    && (key.dst.repo, UploadName(e, Target(e, key.dst, doc), doc), doc) in g.stood
  }

  ghost predicate PlatformsOk(e: World, g: Shared) {
    forall k <- g.platforms | g.platforms[k].Result? && g.platforms[k].value.Some? ::
      Brought(e, g, k, g.platforms[k].value.value)
  }

  ghost predicate RecordsOk(e: World, g: Shared) {
    PlatformsOk(e, g) && CacheOk(e, g.held, g.srcManifests) && CacheOk(e, g.held, g.dstManifests) && StoodOk(g)
  }

  ghost predicate SharedOk(e: World, g: Shared) {
    !g.panicked && ContentOk(e, g.held, g.sources, g.blobs) && RecordsOk(e, g)
  }

  ghost predicate BlobOk(g: Shared, key: BlobKey, at: BlobPoint) {
    && Sources(g, key.digest) != {}
    && (at.Registering? || at == Unlocking(true) ==> (key.dst, key.digest) in g.held.blobs)
    && (at.Requesting? || at.Transferring? ==> at.source in Sources(g, key.digest))
    && (at.Requesting? && at.mount.Some? ==> at.mount.value in Sources(g, key.digest))
  }

  ghost predicate PlatformOk(e: World, g: Shared, key: PlatformKey, at: PlatformPoint) {
    match at
    case FetchManifest => true
    case RegisterBlobs(doc, left) =>
      && FromSource(g, key.src, doc) && e.parsed(doc).Manifest?
      && (forall d <- left :: (key.src.repo, d) in g.held.blobs)
      && (forall d <- BlobsOf(e, doc) :: d in left || key.src.repo in Sources(g, d))
    case AwaitBlobs(doc, left) =>
      && FromSource(g, key.src, doc) && e.parsed(doc).Manifest?
      && (forall d <- BlobsOf(e, doc) :: d in left || (key.dst.repo, d) in g.held.blobs)
      && (forall d <- left :: d in BlobsOf(e, doc))
      && forall d <- BlobsOf(e, doc) :: key.src.repo in Sources(g, d)
    case UploadManifest(doc) =>
      && FromSource(g, key.src, doc) && e.parsed(doc).Manifest?
      && forall d <- BlobsOf(e, doc) :: (key.dst.repo, d) in g.held.blobs
  }

  /** What has been asked for a spec, and the manifests brought so far. */
  ghost predicate Requested(e: World, g: Shared, spec: Spec, srcDoc: Doc, asked: seq<PlatformKey>, got: seq<Doc>) {
    && FromSource(g, spec.src, srcDoc) && Asks(e, spec, srcDoc, asked) && |got| <= |asked|
    && forall i | 0 <= i < |got| :: asked[i].dst.repo == spec.dst.repo && Brought(e, g, asked[i], got[i])
  }

  /**
   * What a copy without error has achieved. Either the destination had the document already, or
   * all that was asked for is there: one manifest in the image's place, or several and an index.
   */
  ghost predicate Delivered(
    e: World, g: Shared, spec: Spec, srcDoc: Doc, asked: seq<PlatformKey>, got: seq<Doc>, top: Doc)
  {
    && FromSource(g, spec.src, srcDoc) && (spec.dst.repo, top) in g.held.docs
    && if asked == [] then
         got == [] && top == srcDoc && !spec.transform && (spec.dst.repo, FetchName(spec.dst), top) in g.stood
       else
         && Requested(e, g, spec, srcDoc, asked, got) && |got| == |asked|
         && if |asked| == 1 then top == got[0]
            else Assembles(e, spec, srcDoc, got, top) && (spec.dst.repo, UploadName(e, spec.dst, top), top) in g.stood
  }

  ghost predicate SpecOk(e: World, g: Shared, spec: Spec, at: SpecPoint) {
    match at
    case Looking(dst, src) =>
      && (dst.Some? && dst.value.Some? ==> DestinationHad(g, spec, dst.value.value))
      && (src.Some? ==> FromSource(g, spec.src, src.value))
    case Compare(dstDoc, srcDoc) =>
      FromSource(g, spec.src, srcDoc) && (dstDoc.Some? ==> DestinationHad(g, spec, dstDoc.value))
    case Dispatch(srcDoc) => FromSource(g, spec.src, srcDoc)
    case AwaitPlatforms(srcDoc, asked, got) => Requested(e, g, spec, srcDoc, asked, got)
    case UploadIndex(srcDoc, asked, got) => Requested(e, g, spec, srcDoc, asked, got) && |got| == |asked| != 1
  }

  ghost predicate DestinationHad(g: Shared, spec: Spec, doc: Doc) {
    (spec.dst.repo, doc) in g.held.docs && (spec.dst.repo, FetchName(spec.dst), doc) in g.stood
  }

  ghost predicate ProcOk(e: World, g: Shared, p: Proc) {
    match p
    case CopyBlob(key, at) => BlobOk(g, key, at)
    case CopyPlatform(key, at) => PlatformOk(e, g, key, at)
    case CopySpec(spec, at) => SpecOk(e, g, spec, at)
    case Mirrored(spec, srcDoc, asked, got, top) => Delivered(e, g, spec, srcDoc, asked, got, top)
    case Submitting(repo, doc) => (repo, doc) in g.held.docs
    case Indexing(repo, left) => forall d <- left :: (repo, d) in g.held.blobs
    case _ => true
  }

  ghost predicate Extends(cache: map<Image, Doc>, cache': map<Image, Doc>) {
    forall img <- cache :: img in cache' && cache'[img] == cache[img]
  }

  /** The shared state only gains content, sources and history, and what is cached stays. */
  ghost predicate Evolves(g: Shared, g': Shared) {
    && Grows(g.held, g'.held) && (forall d :: Sources(g, d) <= Sources(g', d))
    && g.stood <= g'.stood && Extends(g.srcManifests, g'.srcManifests) && Extends(g.dstManifests, g'.dstManifests)
  }

  lemma BlobEvolves(g: Shared, g': Shared, key: BlobKey, at: BlobPoint)
    requires Evolves(g, g') && BlobOk(g, key, at)
    ensures BlobOk(g', key, at)
  {
    var r :| r in Sources(g, key.digest);
    assert r in Sources(g', key.digest);
  }

  lemma PlatformEvolves(e: World, g: Shared, g': Shared, key: PlatformKey, at: PlatformPoint)
    requires Evolves(g, g') && PlatformOk(e, g, key, at)
    ensures PlatformOk(e, g', key, at)
  {
    if !at.FetchManifest? {
      forall d | d in BlobsOf(e, at.doc) && key.src.repo in Sources(g, d) ensures key.src.repo in Sources(g', d) {
        assert Sources(g, d) <= Sources(g', d);
      }
    }
  }

  lemma RequestedEvolves(e: World, g: Shared, g': Shared, spec: Spec, srcDoc: Doc,
                         asked: seq<PlatformKey>, got: seq<Doc>)
    requires Evolves(g, g') && Requested(e, g, spec, srcDoc, asked, got)
    ensures Requested(e, g', spec, srcDoc, asked, got)
  {
    forall i | 0 <= i < |got| ensures Brought(e, g', asked[i], got[i]) { assert Brought(e, g, asked[i], got[i]); }
  }

  lemma EvolvesKeeps(e: World, g: Shared, g': Shared, p: Proc)
    requires Evolves(g, g') && ProcOk(e, g, p)
    ensures ProcOk(e, g', p)
  {
    if p.CopyBlob? {
      BlobEvolves(g, g', p.blob, p.bp);
    } else if p.CopyPlatform? {
      PlatformEvolves(e, g, g', p.key, p.pp);
    } else if p.CopySpec? && (p.sp.AwaitPlatforms? || p.sp.UploadIndex?) {
      RequestedEvolves(e, g, g', p.spec, p.sp.srcDoc, p.sp.asked, p.sp.got);
    } else if p.Mirrored? && p.asked != [] {
      RequestedEvolves(e, g, g', p.spec, p.srcDoc, p.asked, p.got);
    }
  }

  lemma CompleteGrows(e: World, held: Holdings, held': Holdings, repo: Repo, doc: Doc)
    requires Grows(held, held') && Complete(e, held, repo, doc)
    ensures Complete(e, held', repo, doc)
  {
    match e.parsed(doc)
    case Index(ds) =>
      forall d | d in ds ensures exists part :: (repo, part) in held'.docs && e.verifies(d, part) {
        var part :| (repo, part) in held.docs && e.verifies(d, part);
        assert (repo, part) in held'.docs;
      }
    case _ =>
  }

  /** What was brought stays brought. */
  lemma PlatformsStay(e: World, g: Shared, g': Shared)
    requires PlatformsOk(e, g) && Grows(g.held, g'.held) && g'.platforms == g.platforms
    requires g.stood <= g'.stood && Extends(g.srcManifests, g'.srcManifests)
    ensures PlatformsOk(e, g')
  {
    forall k | k in g'.platforms && g'.platforms[k].Result? && g'.platforms[k].value.Some?
      ensures Brought(e, g', k, g'.platforms[k].value.value)
    {
      assert Brought(e, g, k, g.platforms[k].value.value);
    }
  }

  /** More content harms no record. */
  lemma RecordsStay(e: World, g: Shared, g': Shared)
    requires RecordsOk(e, g) && Grows(g.held, g'.held)
    requires g'.platforms == g.platforms && g'.srcManifests == g.srcManifests && g'.dstManifests == g.dstManifests
    requires g'.stood == g.stood
    ensures RecordsOk(e, g')
  {
    PlatformsStay(e, g, g');
  }

  /** New blobs harm no document. */
  lemma PutBlobKeeps(e: World, g: Shared, repo: Repo, d: Digest)
    requires Intact(e, g.held)
    ensures Intact(e, PutBlob(g, repo, d).held)
  {
    forall r, x | (r, x) in g.held.docs ensures Complete(e, PutBlob(g, repo, d).held, r, x) {
      CompleteGrows(e, g.held, PutBlob(g, repo, d).held, r, x);
    }
  }

  /** A document whose parts are there may be added. */
  lemma PutDocKeeps(e: World, g: Shared, img: Image, doc: Doc)
    requires SharedOk(e, g) && Complete(e, g.held, img.repo, doc)
    ensures SharedOk(e, PutDoc(e, g, img, doc)) && Evolves(g, PutDoc(e, g, img, doc))
  {
    var g' := PutDoc(e, g, img, doc);
    forall r, x | (r, x) in g'.held.docs ensures Complete(e, g'.held, r, x) {
      assert (r, x) in g.held.docs || (r, x) == (img.repo, doc);
      CompleteGrows(e, g.held, g'.held, r, x);
    }
    assert forall d :: Sources(g', d) == Sources(g, d);
  }

  lemma CacheAdds(e: World, held: Holdings, cache: map<Image, Doc>, img: Image, doc: Doc)
    requires CacheOk(e, held, cache) && Finds(e, held, img.repo, FetchName(img), doc)
    ensures CacheOk(e, held, cache[img := doc])
  {}

  lemma FetchedStays(e: World, g: Shared, img: Image, g': Shared, doc: Doc)
    requires SharedOk(e, g) && Extends(g.srcManifests, g'.srcManifests) && Extends(g.dstManifests, g'.dstManifests)
    requires g' == Stood(g, img.repo, FetchName(img), doc)
                     .(srcManifests := g'.srcManifests, dstManifests := g'.dstManifests)
    ensures ContentOk(e, g'.held, g'.sources, g'.blobs) && PlatformsOk(e, g') && Evolves(g, g') && !g'.panicked
  {
    PlatformsStay(e, g, g');
    assert forall d :: Sources(g', d) == Sources(g, d);
  }

  lemma GetsSourceKeeps(e: World, g: Shared, img: Image, g': Shared, doc: Doc)
    requires SharedOk(e, g) && GetsSource(e, g, img, g', doc)
    ensures SharedOk(e, g') && Evolves(g, g')
    ensures FromSource(g', img, doc) && (img.repo, doc) in g'.held.docs
  {
    if img !in g.srcManifests {
      FetchedStays(e, g, img, g', doc);
      CacheAdds(e, g.held, g.srcManifests, img, doc);
    }
  }

  lemma GetsDestinationKeeps(e: World, g: Shared, img: Image, g': Shared, doc: Doc)
    requires SharedOk(e, g) && GetsDestination(e, g, img, g', doc)
    ensures SharedOk(e, g') && Evolves(g, g')
    ensures (img.repo, doc) in g'.held.docs && (img.repo, FetchName(img), doc) in g'.stood
  {
    if img !in g.dstManifests {
      FetchedStays(e, g, img, g', doc);
      CacheAdds(e, g.held, g.dstManifests, img, doc);
    }
  }

  lemma RegisterKeeps(e: World, g: Shared, d: Digest, repo: Repo)
    requires SharedOk(e, g) && (repo, d) in g.held.blobs
    ensures SharedOk(e, Register(g, d, repo)) && Evolves(g, Register(g, d, repo))
    ensures Sources(Register(g, d, repo), d) != {}
  {
    var g' := Register(g, d, repo);
    forall k | k in g'.blobs ensures k.digest in g'.sources && g'.sources[k.digest] != {} {
      var r :| r in g.sources[k.digest];
      assert r in g'.sources[k.digest];
    }
    assert repo in Sources(g', d);
    RecordsStay(e, g, g');
  }

  ghost predicate Kept(e: World, g: Shared, g': Shared, p': Proc, spawn: seq<Proc>) {
    SharedOk(e, g') && Evolves(g, g') && ProcOk(e, g', p') && forall q <- spawn :: ProcOk(e, g', q)
  }

  lemma BlobPut(e: World, g: Shared, key: BlobKey, g': Shared)
    requires SharedOk(e, g) && g' == PutBlob(g, key.dst, key.digest).(transfers := g'.transfers)
    ensures SharedOk(e, g') && Evolves(g, g')
  {
    PutBlobKeeps(e, g, key.dst, key.digest);
    RecordsStay(e, g, g');
    assert forall d :: Sources(g', d) == Sources(g, d);
  }

  lemma BlobKept(e: World, g: Shared, key: BlobKey, at: BlobPoint, g': Shared, p': Proc)
    requires SharedOk(e, g) && BlobOk(g, key, at) && BlobStep(e, g, key, at, g', p')
    ensures Kept(e, g, g', p', [])
  {
    if (at.Requesting? || at.Transferring?) && g' != g {
      BlobPut(e, g, key, g');
      BlobEvolves(g, g', key, at);
    } else if at.Registering? {
      RegisterKeeps(e, g, key.digest, key.dst);
    } else if at.Unlocking? || at.Locking? || at.Detached? || at.Reattaching? {
      LockKept(e, g, key, at, g', p');
    }
  }

  /** What integrity depends on is as it was. */
  lemma SameContent(e: World, g: Shared, g': Shared)
    requires SharedOk(e, g)
    requires g' == g.(locks := g'.locks, attached := g'.attached)
    ensures SharedOk(e, g') && Evolves(g, g')
  {
    RecordsStay(e, g, g');
    assert ContentOk(e, g'.held, g'.sources, g'.blobs);
    assert forall d :: Sources(g', d) == Sources(g, d);
  }

  lemma ResultKeeps(e: World, g: Shared, key: BlobKey, ok: bool)
    requires SharedOk(e, g) && Sources(g, key.digest) != {} && (ok ==> (key.dst, key.digest) in g.held.blobs)
    ensures var g' := g.(blobs := g.blobs[key := Result(ok)]); SharedOk(e, g') && Evolves(g, g')
  {
    var g' := g.(blobs := g.blobs[key := Result(ok)]);
    RecordsStay(e, g, g');
    assert BlobsOk(g'.held, g'.sources, g'.blobs);
    assert forall d :: Sources(g', d) == Sources(g, d);
  }

  lemma LockKept(e: World, g: Shared, key: BlobKey, at: BlobPoint, g': Shared, p': Proc)
    requires at.Unlocking? || at.Locking? || at.Detached? || at.Reattaching?
    requires SharedOk(e, g) && BlobOk(g, key, at) && BlobStep(e, g, key, at, g', p')
    ensures Kept(e, g, g', p', [])
  {
    if at.Unlocking? {
      ResultKeeps(e, g, key, at.ok);
      SameContent(e, g.(blobs := g.blobs[key := Result(at.ok)]), g');
    } else {
      SameContent(e, g, g');
    }
  }

  lemma PlatformRegistered(e: World, g: Shared, key: PlatformKey, doc: Doc, left: seq<Digest>)
    requires left != [] && PlatformOk(e, g, key, RegisterBlobs(doc, left))
    ensures PlatformOk(e, Register(g, left[0], key.src.repo), key, RegisterBlobs(doc, left[1..]))
  {
    var g' := Register(g, left[0], key.src.repo);
    assert left == [left[0]] + left[1..];
    forall d | d in BlobsOf(e, doc) ensures d in left[1..] || key.src.repo in Sources(g', d) {
      if d == left[0] || d !in left { assert key.src.repo in Sources(g', d); }
    }
  }

  lemma PlatformDoneKeeps(e: World, g: Shared, key: PlatformKey, result: Option<Doc>)
    requires SharedOk(e, g) && (result.Some? ==> Brought(e, g, key, result.value))
    ensures SharedOk(e, PlatformDone(g, key, result)) && Evolves(g, PlatformDone(g, key, result))
  {
    assert forall d :: Sources(PlatformDone(g, key, result), d) == Sources(g, d);
  }

  lemma InformBlobsKeeps(e: World, g: Shared, dst: Repo, ds: seq<Digest>)
    requires SharedOk(e, g) && forall d <- ds :: Sources(g, d) != {}
    ensures SharedOk(e, InformBlobs(g, dst, ds)) && Evolves(g, InformBlobs(g, dst, ds))
  {
    assert forall d :: Sources(InformBlobs(g, dst, ds), d) == Sources(g, d);
  }

  lemma RegisterKept(e: World, g: Shared, key: PlatformKey, at: PlatformPoint, g': Shared, p': Proc)
    requires at.RegisterBlobs? && SharedOk(e, g) && PlatformOk(e, g, key, at) && PlatformStep(e, g, key, at, g', p')
    ensures Kept(e, g, g', p', [])
  {
    if at.left != [] {
      RegisterKeeps(e, g, at.left[0], key.src.repo);
      PlatformRegistered(e, g, key, at.doc, at.left);
    } else {
      InformBlobsKeeps(e, g, key.dst.repo, BlobsOf(e, at.doc));
    }
  }

  lemma AwaitKept(e: World, g: Shared, key: PlatformKey, at: PlatformPoint, g': Shared, p': Proc)
    requires at.AwaitBlobs? && SharedOk(e, g) && PlatformOk(e, g, key, at) && PlatformStep(e, g, key, at, g', p')
    ensures Kept(e, g, g', p', [])
  {
    if at.left != [] { assert at.left == [at.left[0]] + at.left[1..]; }
    if p' == Done { PlatformDoneKeeps(e, g, key, None); }
  }

  lemma FetchKept(e: World, g: Shared, key: PlatformKey, g': Shared, p': Proc)
    requires SharedOk(e, g) && PlatformStep(e, g, key, FetchManifest, g', p') && p'.CopyPlatform?
    ensures Kept(e, g, g', p', [])
  {
    GetsSourceKeeps(e, g, key.src, g', p'.pp.doc);
    assert Complete(e, g'.held, key.src.repo, p'.pp.doc);
  }

  lemma UploadKept(e: World, g: Shared, key: PlatformKey, doc: Doc)
    requires SharedOk(e, g) && PlatformOk(e, g, key, UploadManifest(doc))
    ensures Kept(e, g, PlatformDone(PutDoc(e, g, Target(e, key.dst, doc), doc), key, Some(doc)), Done, [])
  {
    PutDocKeeps(e, g, Target(e, key.dst, doc), doc);
    PlatformDoneKeeps(e, PutDoc(e, g, Target(e, key.dst, doc), doc), key, Some(doc));
  }

  /** A platform's manifest is uploaded only when all of its blobs are there. */
  lemma PlatformKept(e: World, g: Shared, key: PlatformKey, at: PlatformPoint, g': Shared, p': Proc)
    requires SharedOk(e, g) && PlatformOk(e, g, key, at) && PlatformStep(e, g, key, at, g', p')
    ensures Kept(e, g, g', p', [])
  {
    if at.RegisterBlobs? {
      RegisterKept(e, g, key, at, g', p');
    } else if at.AwaitBlobs? {
      AwaitKept(e, g, key, at, g', p');
    } else if PlatformFails(g, key, g', p') {
      PlatformDoneKeeps(e, g, key, None);
    } else if at.FetchManifest? {
      FetchKept(e, g, key, g', p');
    } else {
      UploadKept(e, g, key, at.doc);
    }
  }

  /** The index uploaded names documents that are in the destination. */
  lemma IndexComplete(e: World, held: Holdings, repo: Repo, docs: seq<Doc>, index: Doc)
    requires WorldOk(e) && e.parsed(index) == Index(CanonicalAll(e, docs))
    requires forall part <- docs :: (repo, part) in held.docs
    ensures Complete(e, held, repo, index)
  {
    forall d | d in CanonicalAll(e, docs) ensures exists part :: (repo, part) in held.docs && e.verifies(d, part) {
      var i: nat :| i < |docs| && d == e.canonical(docs[i]);
      assert (repo, docs[i]) in held.docs && e.verifies(d, docs[i]);
    }
  }

  lemma AskedHere(e: World, spec: Spec, srcDoc: Doc, asked: seq<PlatformKey>)
    requires Asks(e, spec, srcDoc, asked)
    ensures asked != [] && forall k <- asked :: k.dst.repo == spec.dst.repo
  {}

  lemma IndexKept(e: World, g: Shared, spec: Spec, at: SpecPoint, g': Shared, p': Proc)
    requires WorldOk(e) && SharedOk(e, g) && at.UploadIndex? && SpecOk(e, g, spec, at)
    requires SpecStep(e, g, spec, at, g', p', []) && p'.Mirrored?
    ensures Kept(e, g, g', p', [])
  {
    forall part | part in at.got ensures (spec.dst.repo, part) in g.held.docs {
      var i: nat :| i < |at.got| && at.got[i] == part;
      assert Brought(e, g, at.asked[i], at.got[i]);
    }
    IndexComplete(e, g.held, spec.dst.repo, at.got, p'.top);
    PutDocKeeps(e, g, spec.dst, p'.top);
    AskedHere(e, spec, at.srcDoc, at.asked);
    RequestedEvolves(e, g, g', spec, at.srcDoc, at.asked, at.got);
  }

  lemma OneAwaited(e: World, g: Shared, spec: Spec, at: SpecPoint, g': Shared, p': Proc)
    requires SharedOk(e, g) && at.AwaitPlatforms? && SpecOk(e, g, spec, at) && SpecStep(e, g, spec, at, g', p', [])
    requires |at.got| < |at.asked| && forall k <- at.asked :: k.dst.repo == spec.dst.repo
    ensures Kept(e, g, g', p', [])
  {
    var key := at.asked[|at.got|];
    assert key in at.asked;
    if p' != Done { assert Brought(e, g, key, g.platforms[key].value.value); }
  }

  lemma PlatformsAwaited(e: World, g: Shared, spec: Spec, at: SpecPoint, g': Shared, p': Proc)
    requires SharedOk(e, g) && at.AwaitPlatforms? && SpecOk(e, g, spec, at) && SpecStep(e, g, spec, at, g', p', [])
    ensures Kept(e, g, g', p', [])
  {
    AskedHere(e, spec, at.srcDoc, at.asked);
    if |at.got| < |at.asked| {
      OneAwaited(e, g, spec, at, g', p');
    } else if |at.got| == 1 {
      assert Brought(e, g, at.asked[0], at.got[0]);
    }
  }

  lemma InformPlatformsKeeps(e: World, g: Shared, keys: seq<PlatformKey>)
    requires SharedOk(e, g)
    ensures SharedOk(e, InformPlatforms(g, keys)) && Evolves(g, InformPlatforms(g, keys))
  {
    assert forall d :: Sources(InformPlatforms(g, keys), d) == Sources(g, d);
  }

  lemma LookKept(e: World, g: Shared, spec: Spec, at: SpecPoint, g': Shared, p': Proc)
    requires SharedOk(e, g) && at.Looking? && SpecOk(e, g, spec, at) && p'.CopySpec?
    requires LookStep(e, g, spec, at.dst, at.src, g', p', [])
    ensures Kept(e, g, g', p', [])
  {
    if p'.sp.Looking? && at.src.None? && p'.sp.src.Some? {
      GetsSourceKeeps(e, g, spec.src, g', p'.sp.src.value);
    } else if p'.sp.Looking? && p'.sp.dst.Some? && p'.sp.dst.value.Some? && at.dst.None? {
      GetsDestinationKeeps(e, g, spec.dst, g', p'.sp.dst.value.value);
    }
  }

  lemma SpecKept(e: World, g: Shared, spec: Spec, at: SpecPoint, g': Shared, p': Proc, spawn: seq<Proc>)
    requires WorldOk(e) && SharedOk(e, g) && SpecOk(e, g, spec, at) && SpecStep(e, g, spec, at, g', p', spawn)
    ensures Kept(e, g, g', p', spawn)
  {
    if p' == Done {
    } else if at.Looking? {
      LookKept(e, g, spec, at, g', p');
    } else if at.Dispatch? {
      InformPlatformsKeeps(e, g, p'.sp.asked);
    } else if at.AwaitPlatforms? {
      PlatformsAwaited(e, g, spec, at, g', p');
    } else if at.UploadIndex? {
      IndexKept(e, g, spec, at, g', p');
    }
  }

  lemma IndexerKept(e: World, g: Shared, p: Proc, g': Shared, p': Proc, spawn: seq<Proc>)
    requires p.Lingering? || p.Submitting? || p.Fetching? || p.Spreading? || p.Indexing?
    requires SharedOk(e, g) && ProcOk(e, g, p) && IndexerStep(e, g, p, g', p', spawn)
    ensures Kept(e, g, g', p', spawn)
  {
    match p
    case Lingering(img) =>
      if g' != g {
        var doc :| GetsDestination(e, g, img, g', doc);
        GetsDestinationKeeps(e, g, img, g', doc);
      }
    case Submitting(repo, doc) =>
      assert Complete(e, g.held, repo, doc);
      if e.parsed(doc).Manifest? { assert forall d <- p'.left :: d in BlobsOf(e, doc); }
    case Indexing(repo, left) =>
      if left != [] {
        assert left == [left[0]] + left[1..];
        RegisterKeeps(e, g, left[0], repo);
      }
    case _ =>
  }

  lemma LocalKept(e: World, g: Shared, p: Proc, g': Shared, p': Proc, spawn: seq<Proc>)
    requires WorldOk(e) && SharedOk(e, g) && ProcOk(e, g, p) && LocalStep(e, g, p, g', p', spawn)
    ensures Kept(e, g, g', p', spawn)
  {
    if p.CopySpec? {
      SpecKept(e, g, p.spec, p.sp, g', p', spawn);
    } else if p.CopyPlatform? {
      PlatformKept(e, g, p.key, p.pp, g', p');
    } else if p.CopyBlob? {
      BlobKept(e, g, p.blob, p.bp, g', p');
    } else {
      IndexerKept(e, g, p, g', p', spawn);
    }
  }

  // ---------------------------------------------------------------------------------------

  ghost predicate Inv(e: World, s: System) {
    SharedOk(e, s.g) && forall p <- s.procs :: ProcOk(e, s.g, p)
  }

  lemma StartKeeps(e: World, g: Shared, g': Shared, p: Proc)
    requires SharedOk(e, g) && Starts(e, g, g', p)
    ensures SharedOk(e, g') && Evolves(g, g') && ProcOk(e, g', p)
  {
    assert forall d :: Sources(g', d) == Sources(g, d);
    if p.CopyBlob? { RecordsStay(e, g, g'); }
  }

  lemma OthersKeep(e: World, g: Shared, g': Shared)
    requires SharedOk(e, g) && Grows(g.held, g'.held) && Intact(e, g'.held) && g' == g.(held := g'.held)
    ensures SharedOk(e, g') && Evolves(g, g')
  {
    RecordsStay(e, g, g');
    assert forall d :: Sources(g', d) == Sources(g, d);
  }

  lemma MoveKeeps(e: World, s: System, move: Move, s': System)
    requires WorldOk(e) && Inv(e, s) && Moves(e, s, move, s')
    ensures Inv(e, s') && Evolves(s.g, s'.g)
  {
    match move {
      case Alone(i, p', spawn) => LocalKept(e, s.g, s.procs[i], s'.g, p', spawn);
      case Start(p) => StartKeeps(e, s.g, s'.g, p);
      case Others => OthersKeep(e, s.g, s'.g);
    }
    forall q | q in s'.procs ensures ProcOk(e, s'.g, q) {
      if q in s.procs { EvolvesKeeps(e, s.g, s'.g, q); }
    }
  }

  lemma StepKeeps(e: World, s: System, s': System)
    requires WorldOk(e) && Inv(e, s) && Step(e, s, s')
    ensures Inv(e, s')
  {
    var move :| Moves(e, s, move, s');
    MoveKeeps(e, s, move, s');
  }

  lemma InitInv(e: World, s: System)
    requires Init(e, s)
    ensures Inv(e, s)
  {}

  lemma {:induction false} RunInv(e: World, run: seq<System>, n: nat)
    requires WorldOk(e) && Run(e, run) && n < |run|
    ensures Inv(e, run[n])
  {
    if n == 0 {
      InitInv(e, run[0]);
    } else {
      RunInv(e, run, n - 1);
      assert Step(e, run[n - 1], run[n]);
      StepKeeps(e, run[n - 1], run[n]);
    }
  }

  /**
   * However the copies interleave, with each other and with other users of the registries, no
   * repository ever holds a manifest without its blobs or an index without its manifests, and
   * every repository listed as a source of a blob holds it.
   */
  lemma MirrorStaysIntact(e: World, run: seq<System>, n: nat)
    requires WorldOk(e) && Run(e, run) && n < |run|
    ensures Intact(e, run[n].g.held) && SourcesSound(run[n].g.held, run[n].g.sources)
  {
    RunInv(e, run, n);
  }

  /** Once a platform's blobs have been asked for, its source is listed for each of them. */
  lemma SourceIsRegistered(e: World, run: seq<System>, n: nat, p: Proc)
    requires WorldOk(e) && Run(e, run) && n < |run| && p in run[n].procs && p.CopyPlatform? && p.pp.AwaitBlobs?
    ensures e.parsed(p.pp.doc).Manifest?
    ensures forall d <- BlobsOf(e, p.pp.doc) :: p.key.src.repo in Sources(run[n].g, d)
  {
    RunInv(e, run, n);
    assert ProcOk(e, run[n].g, p);
  }

  /** allSources[0] exists whenever copyBlob takes it. */
  lemma SourceAlwaysKnown(e: World, run: seq<System>, n: nat)
    requires WorldOk(e) && Run(e, run) && n < |run|
    ensures !run[n].g.panicked
    ensures forall p <- run[n].procs | p.CopyBlob? :: Sources(run[n].g, p.blob.digest) != {}
  {
    RunInv(e, run, n);
    forall p | p in run[n].procs && p.CopyBlob? ensures Sources(run[n].g, p.blob.digest) != {} {
      assert ProcOk(e, run[n].g, p);
    }
  }
}
