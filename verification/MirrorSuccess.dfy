/**
 * When copies must succeed. As long as the sources of the specs are in order nothing forces a
 * copy to fail, and a spec for which nothing has failed ends without error.
 */
module MirrorSuccess {
  import opened Names
  import opened Mirror
  import opened MirrorSafety
  import opened MirrorDelivery
  import opened MirrorLiveness
  import opened MirrorCauses
  import opened MirrorUploads

  ghost predicate NoFailures(run: seq<System>, moves: seq<Move>) {
    forall k: nat :: !FailedAt(run, moves, k)
  }

  /** Every spec of the first state has been copied without error in the last. */
  ghost predicate Succeeded(first: System, last: System) {
    && |first.procs| <= |last.procs|
    && forall i | 0 <= i < |first.procs| ::
         first.procs[i].CopySpec? && last.procs[i].Mirrored? && last.procs[i].spec == first.procs[i].spec
  }

  /** Where nothing fails, every spec of a settled run has been copied without error. */
  lemma AllMirrored(e: World, run: seq<System>, moves: seq<Move>)
    requires WorldOk(e) && Trace(e, run, moves) && NoFailures(run, moves) && Settled(Last(run))
    ensures Succeeded(run[0], Last(run))
  {
    if run[0].procs != [] { SpecFate(e, run, moves, |run| - 1, |run[0].procs| - 1); }
    forall i | 0 <= i < |run[0].procs|
      ensures i < |Last(run).procs| && run[0].procs[i].CopySpec?
      ensures Last(run).procs[i].Mirrored? && Last(run).procs[i].spec == run[0].procs[i].spec
    {
      SpecFate(e, run, moves, |run| - 1, i);
      SpecMirrored(e, run, moves, i);
    }
  }

  // ---------------------------------------------------------------------------------------
  // Sources in order

  /** What the program can copy: a manifest, or an index that lists digests of manifests, and some. */
  ghost predicate InOrder(e: World, doc: Doc) {
    match e.parsed(doc)
    case Manifest(_, _) => true
    case Index(ds) => ds != [] && forall d, part | d in ds && e.verifies(d, part) :: e.parsed(part).Manifest?
    case Unrecognized => false
  }

  /** An index of any manifests can be written down. */
  ghost predicate Writable(e: World) {
    forall parts: seq<Doc> | parts != [] && AllManifests(e, parts) ::
      exists index :: e.parsed(index) == Index(CanonicalAll(e, parts))
  }

  ghost predicate Regular(e: World) {
    WorldOk(e) && CollisionFree(e) && Writable(e)
  }

  /** The name stands for something, and that is in order. */
  ghost predicate NamesInOrder(e: World, held: Holdings, img: Image) {
    && (exists doc :: Finds(e, held, img.repo, FetchName(img), doc))
    && forall doc | Finds(e, held, img.repo, FetchName(img), doc) :: InOrder(e, doc)
  }

  ghost predicate Resolves(e: World, g: Shared, img: Image) {
    img in g.srcManifests || NamesInOrder(e, g.held, img)
  }

  /**
   * A destination known only by the digest of an index of several manifests can take that index
   * only as it is.
   */
  ghost predicate Acceptable(e: World, spec: Spec) {
    && Consistent(spec)
    && (spec.dst.digest.Some? && spec.dst.tag == "" ==>
          forall doc | e.verifies(spec.dst.digest.value, doc) :: Several(e, doc) ==> Portable(e, doc))
  }

  predicate Several(e: World, doc: Doc) {
    e.parsed(doc).Index? && |e.parsed(doc).manifests| > 1
  }

  ghost predicate SpecInOrder(e: World, g: Shared, spec: Spec) {
    Acceptable(e, spec) && Resolves(e, g, spec.src)
  }

  ghost predicate Listed(e: World, g: Shared, img: Image, index: Doc, part: Doc) {
    && e.parsed(index).Index? && InOrder(e, index)
    && img.digest.Some? && img.digest.value in e.parsed(index).manifests
    && (img.repo, part) in g.held.docs && e.verifies(img.digest.value, part)
  }

  /** A platform asked for has been fetched and is a manifest, or is listed and there. */
  ghost predicate KeyOk(e: World, g: Shared, img: Image) {
    || (img in g.srcManifests && e.parsed(g.srcManifests[img]).Manifest?)
    || exists index, part :: Listed(e, g, img, index, part)
  }

  ghost predicate GoodProc(e: World, g: Shared, p: Proc) {
    match p
    case CopyPlatform(key, _) => KeyOk(e, g, key.src)
    case CopySpec(spec, _) => SpecInOrder(e, g, spec)
    case _ => true
  }

  ghost predicate GoodShared(e: World, g: Shared) {
    && (forall img <- g.srcManifests :: InOrder(e, g.srcManifests[img]))
    && forall k <- g.platforms :: KeyOk(e, g, k.src)
  }

  ghost predicate Good(e: World, s: System) {
    GoodShared(e, s.g) && forall p <- s.procs :: GoodProc(e, s.g, p)
  }

  // ---------------------------------------------------------------------------------------
  // Sources stay in order, unless others spoil them.

  lemma MadeInOrder(e: World, doc: Doc)
    requires WorldOk(e) && CollisionFree(e) && Made(e, doc)
    ensures InOrder(e, doc)
  {
    if parts :| MadeOf(e, doc, parts) {
      forall d, part | d in CanonicalAll(e, parts) && e.verifies(d, part) ensures e.parsed(part).Manifest? {
        var i: nat :| i < |parts| && e.canonical(parts[i]) == d;
        assert e.verifies(d, parts[i]) && parts[i] in parts;
      }
    }
  }

  lemma AddedInOrder(e: World, held: Holdings, repo: Repo, name: Reference, doc: Doc, img: Image)
    requires NamesInOrder(e, held, img) && InOrder(e, doc)
    ensures NamesInOrder(e, Added(held, repo, name, doc), img)
  {
    var held' := Added(held, repo, name, doc);
    var was :| Finds(e, held, img.repo, FetchName(img), was);
    var now := if FetchName(img).ByTag? then held'.tags[(img.repo, img.tag)] else was;
    assert Finds(e, held', img.repo, FetchName(img), now);
  }

  lemma NamesStay(e: World, held: Holdings, held': Holdings, img: Image)
    requires WorldOk(e) && CollisionFree(e) && NamesInOrder(e, held, img)
    requires SameDocs(held, held') || Uploads(e, held, held')
    ensures NamesInOrder(e, held', img)
  {
    if SameDocs(held, held') {
      var doc :| Finds(e, held, img.repo, FetchName(img), doc);
      assert Finds(e, held', img.repo, FetchName(img), doc);
      forall x | Finds(e, held', img.repo, FetchName(img), x) ensures InOrder(e, x) {
        assert Finds(e, held, img.repo, FetchName(img), x);
      }
    } else {
      var repo, name, doc :| Made(e, doc) && held' == Added(held, repo, name, doc);
      MadeInOrder(e, doc);
      AddedInOrder(e, held, repo, name, doc, img);
    }
  }

  lemma KeyStays(e: World, g: Shared, g': Shared, img: Image)
    requires KeyOk(e, g, img) && Evolves(g, g')
    ensures KeyOk(e, g', img)
  {
    if index, part :| Listed(e, g, img, index, part) { assert Listed(e, g', img, index, part); }
  }

  /** Others leave in order the sources still to be fetched. */
  ghost predicate Orderly(e: World, s: System, move: Move, s': System) {
    move.Others? ==> forall p <- s.procs | p.CopySpec? ::
      Resolves(e, s.g, p.spec.src) ==> Resolves(e, s'.g, p.spec.src)
  }

  lemma SourcesStay(e: World, s: System, move: Move, s': System, p: Proc)
    requires WorldOk(e) && CollisionFree(e) && Inv(e, s) && Moves(e, s, move, s') && Orderly(e, s, move, s')
    requires Evolves(s.g, s'.g) && p in s.procs && p.CopySpec? && Resolves(e, s.g, p.spec.src)
    ensures Resolves(e, s'.g, p.spec.src)
  {
    if !move.Others? && p.spec.src !in s.g.srcManifests {
      MoveUploads(e, s, move, s');
      NamesStay(e, s.g.held, s'.g.held, p.spec.src);
    }
  }

  /** What a spec asks for is in order. */
  lemma AskedKeysOk(e: World, g: Shared, spec: Spec, srcDoc: Doc, asked: seq<PlatformKey>, k: PlatformKey)
    requires SharedOk(e, g) && FromSource(g, spec.src, srcDoc) && InOrder(e, srcDoc)
    requires Asks(e, spec, srcDoc, asked) && k in asked
    ensures KeyOk(e, g, k.src)
  {
    if e.parsed(srcDoc).Index? {
      var ds := e.parsed(srcDoc).manifests;
      var selected :| Selects(spec, ds, selected) && asked == KeysOf(spec, selected);
      var i: nat :| i < |asked| && asked[i] == k;
      var d := selected[i];
      assert d in selected && k.src == ByItsDigest(spec.src.repo, d);
      assert Complete(e, g.held, spec.src.repo, srcDoc);
      var part :| (spec.src.repo, part) in g.held.docs && e.verifies(d, part);
      assert Listed(e, g, k.src, srcDoc, part);
    }
  }

  /** Only a spec's dispatch makes platform tasks. */
  lemma TasksOk(e: World, g: Shared, p: Proc, g': Shared, p': Proc, spawn: seq<Proc>, k: PlatformKey)
    requires SharedOk(e, g) && ProcOk(e, g, p) && LocalStep(e, g, p, g', p', spawn) && !g'.panicked
    requires GoodShared(e, g) && GoodProc(e, g, p) && Evolves(g, g') && k in g'.platforms
    ensures KeyOk(e, g', k.src)
  {
    if k in g.platforms || (p.CopyPlatform? && p.key == k) {
    } else if p.CopySpec? {
      SpecEffects(e, g, p, g', p', spawn);
      AskedKeysOk(e, g, p.spec, p.sp.srcDoc, p'.sp.asked, k);
    } else if p.CopyPlatform? {
      PlatformEffects(e, g, p.key, p.pp, g', p');
    } else if p.CopyBlob? {
      BlobEffects(e, g, p.blob, p.bp, g', p');
    } else {
      IndexerErrors(e, g, p, g', p', spawn);
    }
    KeyStays(e, g, g', k.src);
  }

  /** What is fetched as a source is in order. */
  lemma FetchedInOrder(e: World, g: Shared, img: Image, g': Shared, doc: Doc)
    requires GoodShared(e, g) && GetsSource(e, g, img, g', doc) && (Resolves(e, g, img) || KeyOk(e, g, img))
    ensures forall i <- g'.srcManifests :: InOrder(e, g'.srcManifests[i])
  {
    if img !in g.srcManifests && KeyOk(e, g, img) {
      var index, part :| Listed(e, g, img, index, part);
      assert e.parsed(doc).Manifest?;
    }
  }

  lemma LookCaches(e: World, g: Shared, p: Proc, g': Shared, p': Proc, spawn: seq<Proc>)
    requires GoodShared(e, g) && GoodProc(e, g, p)
    requires p.CopySpec? && p.sp.Looking? && LookStep(e, g, p.spec, p.sp.dst, p.sp.src, g', p', spawn)
    ensures forall i <- g'.srcManifests :: InOrder(e, g'.srcManifests[i])
  {
    if p' == Done || !p'.sp.Looking? {
    } else if p.sp.src.None? && p'.sp.src.Some? {
      FetchedInOrder(e, g, p.spec.src, g', p'.sp.src.value);
    }
  }

  lemma PlatformCaches(e: World, g: Shared, p: Proc, g': Shared, p': Proc)
    requires GoodShared(e, g) && GoodProc(e, g, p) && p.CopyPlatform? && PlatformStep(e, g, p.key, p.pp, g', p')
    ensures forall i <- g'.srcManifests :: InOrder(e, g'.srcManifests[i])
  {
    if p.pp.FetchManifest? && p'.CopyPlatform? {
      FetchedInOrder(e, g, p.key.src, g', p'.pp.doc);
    } else if p.pp.UploadManifest? {
      UploadCaches(e, g, p, g', p');
    } else {
      assert g'.srcManifests == g.srcManifests;
    }
  }

  lemma UploadCaches(e: World, g: Shared, p: Proc, g': Shared, p': Proc)
    requires p.CopyPlatform? && p.pp.UploadManifest? && PlatformStep(e, g, p.key, p.pp, g', p')
    ensures g'.srcManifests == g.srcManifests
  {}

  lemma CacheInOrder(e: World, g: Shared, p: Proc, g': Shared, p': Proc, spawn: seq<Proc>)
    requires GoodShared(e, g) && GoodProc(e, g, p) && LocalStep(e, g, p, g', p', spawn)
    ensures forall i <- g'.srcManifests :: InOrder(e, g'.srcManifests[i])
  {
    if p.CopyPlatform? {
      PlatformCaches(e, g, p, g', p');
    } else if p.CopySpec? && p.sp.Looking? {
      LookCaches(e, g, p, g', p', spawn);
    } else if p.CopySpec? {
      assert g'.srcManifests == g.srcManifests;
    } else if p.CopyBlob? {
      BlobUploads(e, g, p, g', p');
    } else {
      IndexerErrors(e, g, p, g', p', spawn);
    }
  }

  lemma GoodStays(e: World, s: System, move: Move, s': System, p: Proc)
    requires WorldOk(e) && CollisionFree(e) && Inv(e, s) && Moves(e, s, move, s') && Orderly(e, s, move, s')
    requires Evolves(s.g, s'.g) && p in s.procs && GoodProc(e, s.g, p)
    ensures GoodProc(e, s'.g, p)
  {
    if p.CopyPlatform? {
      KeyStays(e, s.g, s'.g, p.key.src);
    } else if p.CopySpec? {
      SourcesStay(e, s, move, s', p);
    }
  }

  /** What a goroutine becomes copies the same as before, and what it starts does not copy. */
  lemma SameCopy(e: World, g: Shared, p: Proc, g': Shared, p': Proc, spawn: seq<Proc>)
    requires LocalStep(e, g, p, g', p', spawn) && !g'.panicked
    ensures p'.CopyPlatform? ==> p.CopyPlatform? && p'.key == p.key
    ensures p'.CopySpec? ==> p.CopySpec? && p'.spec == p.spec
    ensures forall q <- spawn :: !Copying(q)
  {
    SpawnedIndex(e, g, p, g', p', spawn);
    if p.CopyPlatform? {
      PlatformEffects(e, g, p.key, p.pp, g', p');
    } else if p.CopyBlob? {
      BlobEffects(e, g, p.blob, p.bp, g', p');
    } else if p.CopySpec? {
      SpecEffects(e, g, p, g', p', spawn);
      SpecStays(e, g, p, g', p', spawn);
    } else {
      IndexerErrors(e, g, p, g', p', spawn);
    }
  }

  lemma SharedStaysGood(e: World, s: System, move: Move, s': System)
    requires Inv(e, s) && Good(e, s) && Moves(e, s, move, s') && Evolves(s.g, s'.g) && !s'.g.panicked
    ensures GoodShared(e, s'.g)
  {
    if move.Alone? {
      var p := s.procs[move.i];
      assert p in s.procs && ProcOk(e, s.g, p);
      CacheInOrder(e, s.g, p, s'.g, move.p, move.spawn);
      forall k | k in s'.g.platforms ensures KeyOk(e, s'.g, k.src) {
        TasksOk(e, s.g, p, s'.g, move.p, move.spawn, k);
      }
    } else {
      forall k | k in s'.g.platforms ensures KeyOk(e, s'.g, k.src) { KeyStays(e, s.g, s'.g, k.src); }
    }
  }

  /** Sources stay in order as long as others leave them so, whatever else fails. */
  lemma GoodMove(e: World, s: System, move: Move, s': System)
    requires WorldOk(e) && CollisionFree(e) && Inv(e, s) && Good(e, s)
    requires Moves(e, s, move, s') && Orderly(e, s, move, s')
    ensures Good(e, s')
  {
    MoveKeeps(e, s, move, s');
    SharedStaysGood(e, s, move, s');
    forall q | q in s'.procs ensures GoodProc(e, s'.g, q) {
      if q in s.procs {
        GoodStays(e, s, move, s', q);
      } else {
        NewIsGood(e, s, move, s', q);
      }
    }
  }

  lemma NewIsGood(e: World, s: System, move: Move, s': System, q: Proc)
    requires WorldOk(e) && CollisionFree(e) && Inv(e, s) && Good(e, s) && Evolves(s.g, s'.g) && !s'.g.panicked
    requires Moves(e, s, move, s') && Orderly(e, s, move, s') && GoodShared(e, s'.g) && q in s'.procs && q !in s.procs
    ensures GoodProc(e, s'.g, q)
  {
    if move.Alone? {
      var p := s.procs[move.i];
      assert p in s.procs;
      SameCopy(e, s.g, p, s'.g, move.p, move.spawn);
      GoodStays(e, s, move, s', p);
    }
  }

  // ---------------------------------------------------------------------------------------
  // Progress without failure

  /** How platforms are selected from an index: some of those listed, and all without a transform. */
  ghost predicate Picks(e: World, pick: (Spec, Doc) -> seq<Digest>) {
    forall spec, doc | e.parsed(doc).Index? && e.parsed(doc).manifests != [] ::
      Selects(spec, e.parsed(doc).manifests, pick(spec, doc))
  }

  ghost predicate AsPicked(e: World, pick: (Spec, Doc) -> seq<Digest>, p: Proc, p': Proc) {
    p.CopySpec? && p.sp.Dispatch? && p'.CopySpec? && p'.sp.AwaitPlatforms? && e.parsed(p.sp.srcDoc).Index? ==>
      p'.sp.asked == KeysOf(p.spec, pick(p.spec, p.sp.srcDoc))
  }

  ghost predicate CanSucceed(e: World, pick: (Spec, Doc) -> seq<Digest>, s: System) {
    exists s', move :: Advances(e, pick, s, move, s')
  }

  /** The fetch of a destination fails although it has something; copySpec then takes it to have nothing. */
  ghost predicate Overlooks(e: World, g: Shared, p: Proc, p': Proc) {
    && p.CopySpec? && p.sp.Looking? && p.sp.dst.None?
    && p'.CopySpec? && p'.sp.Looking? && p'.sp.dst == Some(None)
    && (p.spec.dst in g.dstManifests || exists doc :: Finds(e, g.held, p.spec.dst.repo, FetchName(p.spec.dst), doc))
  }

  /** The step needs no request to fail, and keeps to the selection. */
  ghost predicate Succeeds(e: World, pick: (Spec, Doc) -> seq<Digest>, g: Shared, p: Proc, g': Shared, p': Proc) {
    !Fails(p, g', p') && !Overlooks(e, g, p, p') && AsPicked(e, pick, p, p')
  }

  /** A goroutine that copies moves, or is started, and no request fails. */
  ghost predicate Advances(e: World, pick: (Spec, Doc) -> seq<Digest>, s: System, move: Move, s': System) {
    && CopyMove(s, move) && Moves(e, s, move, s')
    && (move.Alone? && move.i < |s.procs| ==> Succeeds(e, pick, s.g, s.procs[move.i], s'.g, move.p))
  }

  lemma AloneSucceeds(e: World, pick: (Spec, Doc) -> seq<Digest>, s: System, i: nat,
                      g': Shared, p': Proc, spawn: seq<Proc>)
    requires !s.g.panicked && i < |s.procs| && Copying(s.procs[i]) && LocalStep(e, s.g, s.procs[i], g', p', spawn)
    requires Succeeds(e, pick, s.g, s.procs[i], g', p')
    ensures CanSucceed(e, pick, s)
  {
    assert Advances(e, pick, s, Alone(i, p', spawn), System(g', s.procs[i := p'] + spawn));
  }

  lemma BlobSucceeds(e: World, g: Shared, key: BlobKey, at: BlobPoint) returns (g': Shared, p': Proc)
    requires SharedOk(e, g) && BlobOk(g, key, at) && Ready(e, g, CopyBlob(key, at))
    ensures BlobStep(e, g, key, at, g', p') && !Fails(CopyBlob(key, at), g', p')
  {
    if at.Requesting? && at.mount.Some? {
      g', p' := PutBlob(g, key.dst, key.digest), CopyBlob(key, Registering);
    } else if at.Requesting? {
      g', p' := g, CopyBlob(key, Transferring(at.source));
    } else if at.Transferring? {
      g' := PutBlob(g, key.dst, key.digest).(transfers := g.transfers + multiset{MutexOf(key)});
      p' := CopyBlob(key, Registering);
    } else {
      g', p' := BlobNext(e, g, key, at);
    }
  }

  lemma FetchSucceeds(e: World, g: Shared, key: PlatformKey) returns (g': Shared, p': Proc)
    requires SharedOk(e, g) && KeyOk(e, g, key.src)
    ensures PlatformStep(e, g, key, FetchManifest, g', p') && p'.CopyPlatform?
  {
    var doc;
    if key.src in g.srcManifests {
      g', doc := g, g.srcManifests[key.src];
      assert key.src.digest.Some? ==> e.verifies(key.src.digest.value, doc);
    } else {
      var index, part :| Listed(e, g, key.src, index, part);
      doc := part;
      g' := Stood(g, key.src.repo, FetchName(key.src), doc).(srcManifests := g.srcManifests[key.src := doc]);
    }
    p' := CopyPlatform(key, RegisterBlobs(doc, BlobsOf(e, doc)));
  }

  lemma PlatformSucceeds(e: World, g: Shared, key: PlatformKey, at: PlatformPoint) returns (g': Shared, p': Proc)
    requires SharedOk(e, g) && KeyOk(e, g, key.src)
    requires PlatformOk(e, g, key, at) && Ready(e, g, CopyPlatform(key, at))
    ensures PlatformStep(e, g, key, at, g', p') && !Fails(CopyPlatform(key, at), g', p')
  {
    if at.FetchManifest? {
      g', p' := FetchSucceeds(e, g, key);
    } else if at.UploadManifest? {
      g', p' := PlatformDone(PutDoc(e, g, Target(e, key.dst, at.doc), at.doc), key, Some(at.doc)), Done;
    } else {
      g', p' := PlatformNext(e, g, key, at);
    }
  }

  lemma LookSucceeds(e: World, g: Shared, spec: Spec, at: SpecPoint) returns (g': Shared, p': Proc)
    requires at.Looking? && Resolves(e, g, spec.src)
    ensures LookStep(e, g, spec, at.dst, at.src, g', p', []) && p'.CopySpec?
    ensures !Overlooks(e, g, CopySpec(spec, at), p')
  {
    g' := g;
    if at.dst.None? {
      g', p' := DestinationLooked(e, g, spec, at.src);
    } else if at.src.Some? {
      p' := CopySpec(spec, Compare(at.dst.value, at.src.value));
    } else {
      var doc;
      if spec.src in g.srcManifests {
        doc := g.srcManifests[spec.src];
      } else {
        doc :| Finds(e, g.held, spec.src.repo, FetchName(spec.src), doc);
        g' := Stood(g, spec.src.repo, FetchName(spec.src), doc).(srcManifests := g.srcManifests[spec.src := doc]);
      }
      p' := CopySpec(spec, Looking(at.dst, Some(doc)));
    }
  }

  lemma DestinationLooked(e: World, g: Shared, spec: Spec, src: Option<Doc>) returns (g': Shared, p': Proc)
    ensures LookStep(e, g, spec, None, src, g', p', []) && p'.CopySpec?
    ensures !Overlooks(e, g, CopySpec(spec, Looking(None, src)), p')
  {
    g' := g;
    var found: Option<Doc> := None;
    if spec.dst in g.dstManifests {
      found := Some(g.dstManifests[spec.dst]);
    } else if doc :| Finds(e, g.held, spec.dst.repo, FetchName(spec.dst), doc) {
      found := Some(doc);
      g' := Stood(g, spec.dst.repo, FetchName(spec.dst), doc).(dstManifests := g.dstManifests[spec.dst := doc]);
    }
    p' := CopySpec(spec, Looking(Some(found), src));
  }

  lemma DispatchSucceeds(e: World, pick: (Spec, Doc) -> seq<Digest>, g: Shared, spec: Spec, srcDoc: Doc)
    returns (g': Shared, p': Proc)
    requires Picks(e, pick) && InOrder(e, srcDoc)
    ensures SpecStep(e, g, spec, Dispatch(srcDoc), g', p', []) && p'.CopySpec?
    ensures AsPicked(e, pick, CopySpec(spec, Dispatch(srcDoc)), p')
  {
    var asked;
    if e.parsed(srcDoc).Manifest? {
      asked := [PlatformKey(spec.src, spec.dst)];
    } else {
      assert Selects(spec, e.parsed(srcDoc).manifests, pick(spec, srcDoc));
      asked := KeysOf(spec, pick(spec, srcDoc));
    }
    g', p' := InformPlatforms(g, asked), CopySpec(spec, AwaitPlatforms(srcDoc, asked, []));
  }

  /** The source's own index, where the destination is known only by its digest. */
  lemma PinnedIndex(e: World, g: Shared, spec: Spec, at: SpecPoint)
    requires WorldOk(e) && SharedOk(e, g) && at.UploadIndex? && SpecOk(e, g, spec, at) && Acceptable(e, spec)
    requires spec.dst.digest.Some? && spec.dst.tag == "" && e.parsed(at.srcDoc).Index?
    ensures Assembles(e, spec, at.srcDoc, at.got, at.srcDoc) && Accepts(e, spec.dst, at.srcDoc)
  {
    var ds := e.parsed(at.srcDoc).manifests;
    assert at.asked == KeysOf(spec, ds) && e.verifies(spec.dst.digest.value, at.srcDoc) && |ds| > 1;
    forall i | 0 <= i < |ds| ensures e.canonical(at.got[i]) == ds[i] {
      assert Brought(e, g, at.asked[i], at.got[i]) && ds[i] in ds;
    }
    assert CanonicalAll(e, at.got) == ds;
  }

  lemma AssembledIndex(e: World, g: Shared, spec: Spec, at: SpecPoint) returns (index: Doc)
    requires Writable(e) && at.UploadIndex? && SpecOk(e, g, spec, at)
    ensures Assembles(e, spec, at.srcDoc, at.got, index)
  {
    AskedHere(e, spec, at.srcDoc, at.asked);
    forall part | part in at.got ensures e.parsed(part).Manifest? {
      var i: nat :| i < |at.got| && at.got[i] == part;
      assert Brought(e, g, at.asked[i], at.got[i]);
    }
    index := at.srcDoc;
    if spec.transform || e.parsed(at.srcDoc) != Index(CanonicalAll(e, at.got)) {
      assert AllManifests(e, at.got);
      index :| e.parsed(index) == Index(CanonicalAll(e, at.got));
    }
  }

  lemma IndexSucceeds(e: World, g: Shared, spec: Spec, at: SpecPoint) returns (g': Shared, p': Proc)
    requires WorldOk(e) && Writable(e) && SharedOk(e, g) && at.UploadIndex? && SpecOk(e, g, spec, at)
    requires Acceptable(e, spec)
    ensures SpecStep(e, g, spec, at, g', p', []) && p'.Mirrored?
  {
    AskedHere(e, spec, at.srcDoc, at.asked);
    var index := at.srcDoc;
    if spec.dst.digest.Some? && spec.dst.tag == "" {
      PinnedIndex(e, g, spec, at);
    } else {
      index := AssembledIndex(e, g, spec, at);
    }
    g', p' := PutDoc(e, g, spec.dst, index), Mirrored(spec, at.srcDoc, at.asked, at.got, index);
  }

  lemma SpecSucceeds(e: World, pick: (Spec, Doc) -> seq<Digest>, g: Shared, spec: Spec, at: SpecPoint)
    returns (g': Shared, p': Proc, spawn: seq<Proc>)
    requires Picks(e, pick) && WorldOk(e) && Writable(e) && SharedOk(e, g) && SpecOk(e, g, spec, at)
    requires GoodShared(e, g) && SpecInOrder(e, g, spec) && Ready(e, g, CopySpec(spec, at))
    ensures SpecStep(e, g, spec, at, g', p', spawn)
    ensures Succeeds(e, pick, g, CopySpec(spec, at), g', p')
  {
    spawn := [];
    if at.Looking? {
      g', p' := LookSucceeds(e, g, spec, at);
    } else if at.Dispatch? {
      g', p' := DispatchSucceeds(e, pick, g, spec, at.srcDoc);
    } else if at.UploadIndex? {
      g', p' := IndexSucceeds(e, g, spec, at);
    } else {
      g' := g;
      p', spawn := SpecNext(e, g, spec, at);
    }
  }

  lemma ReadySucceeds(e: World, pick: (Spec, Doc) -> seq<Digest>, s: System, i: nat)
    requires Picks(e, pick) && Live(e, s) && Writable(e) && Good(e, s) && i < |s.procs| && Ready(e, s.g, s.procs[i])
    ensures CanSucceed(e, pick, s)
  {
    var p := s.procs[i];
    assert ProcOk(e, s.g, p) && GoodProc(e, s.g, p);
    if p.CopySpec? {
      var g', p', spawn := SpecSucceeds(e, pick, s.g, p.spec, p.sp);
      AloneSucceeds(e, pick, s, i, g', p', spawn);
    } else if p.CopyPlatform? {
      var g', p' := PlatformSucceeds(e, s.g, p.key, p.pp);
      AloneSucceeds(e, pick, s, i, g', p', []);
    } else {
      var g', p' := BlobSucceeds(e, s.g, p.blob, p.bp);
      AloneSucceeds(e, pick, s, i, g', p', []);
    }
  }

  /** No copy is ever forced to fail, whatever platforms are selected. */
  lemma ProgressWithoutFailure(e: World, pick: (Spec, Doc) -> seq<Digest>, s: System)
    requires Picks(e, pick) && Live(e, s) && Writable(e) && Good(e, s) && !Settled(s)
    ensures CanSucceed(e, pick, s)
  {
    SomeoneIsReady(e, s);
    if i: nat :| i < |s.procs| && Ready(e, s.g, s.procs[i]) {
      ReadySucceeds(e, pick, s, i);
    } else {
      var g', p :| Starts(e, s.g, g', p);
      assert Advances(e, pick, s, Start(p), System(g', s.procs + [p]));
    }
  }

  // ---------------------------------------------------------------------------------------
  // Over whole runs

  ghost predicate SourcesInOrder(e: World, s: System) {
    forall p <- s.procs :: p.CopySpec? && SpecInOrder(e, s.g, p.spec)
  }

  /** A run that begins with sources in order, which others leave so. */
  ghost predicate OrderlyTrace(e: World, run: seq<System>, moves: seq<Move>) {
    && Trace(e, run, moves) && SourcesInOrder(e, run[0])
    && forall n, k {:trigger moves[n], run[k]} | 0 <= n < k < |run| && k == n + 1 ::
         Orderly(e, run[n], moves[n], run[k])
  }

  lemma {:induction false} StaysGood(e: World, run: seq<System>, moves: seq<Move>, n: nat)
    requires WorldOk(e) && CollisionFree(e) && OrderlyTrace(e, run, moves) && n < |run|
    ensures Live(e, run[n]) && Good(e, run[n])
  {
    TraceLive(e, run, moves, n);
    if n > 0 {
      StaysGood(e, run, moves, n - 1);
      assert Orderly(e, run[n - 1], moves[n - 1], run[n]);
      GoodMove(e, run[n - 1], moves[n - 1], run[n]);
    }
  }

  lemma TraceGrows(e: World, run: seq<System>, moves: seq<Move>, move: Move, s': System)
    requires OrderlyTrace(e, run, moves) && Moves(e, Last(run), move, s') && Orderly(e, Last(run), move, s')
    ensures OrderlyTrace(e, run + [s'], moves + [move])
  {
    var all, more := run + [s'], moves + [move];
    forall n, k | 0 <= n < k < |all| && k == n + 1
      ensures Moves(e, all[n], more[n], all[k]) && Orderly(e, all[n], more[n], all[k])
    {
      if k < |run| { assert Moves(e, run[n], moves[n], run[k]) && Orderly(e, run[n], moves[n], run[k]); }
    }
  }

  /** The second run goes on from the first with copying alone, and nothing more fails. */
  ghost predicate Continues(e: World, pick: (Spec, Doc) -> seq<Digest>, run: seq<System>, moves: seq<Move>,
                            all: seq<System>, more: seq<Move>)
  {
    && run <= all && moves <= more && |all| == |more| + 1
    && forall k, l {:trigger more[k], all[l]} | |moves| <= k < l < |all| && l == k + 1 ::
         Advances(e, pick, all[k], more[k], all[l])
  }

  lemma ContinuesStep(e: World, pick: (Spec, Doc) -> seq<Digest>, run: seq<System>, moves: seq<Move>,
                      s': System, move: Move, all: seq<System>, more: seq<Move>)
    requires Trace(e, run, moves) && Advances(e, pick, Last(run), move, s')
    requires Continues(e, pick, run + [s'], moves + [move], all, more)
    ensures Continues(e, pick, run, moves, all, more)
  {
    assert all[|run|] == s' && all[|run| - 1] == Last(run) && more[|moves|] == move;
  }

  lemma {:induction false} Finish(e: World, pick: (Spec, Doc) -> seq<Digest>, run: seq<System>, moves: seq<Move>)
    returns (all: seq<System>, more: seq<Move>)
    requires Regular(e) && Picks(e, pick) && OrderlyTrace(e, run, moves)
    ensures OrderlyTrace(e, all, more) && Continues(e, pick, run, moves, all, more) && Settled(Last(all))
    decreases Measure(Last(run)).specs, Measure(Last(run)).fetches, Measure(Last(run)).registers, Measure(Last(run)).work
  {
    StaysGood(e, run, moves, |run| - 1);
    if Settled(Last(run)) {
      all, more := run, moves;
    } else {
      ProgressWithoutFailure(e, pick, Last(run));
      var s', move :| Advances(e, pick, Last(run), move, s');
      TraceGrows(e, run, moves, move, s');
      assert CopyStep(e, Last(run), s');
      CopyStepLive(e, Last(run), s');
      all, more := Finish(e, pick, run + [s'], moves + [move]);
      ContinuesStep(e, pick, run, moves, s', move, all, more);
    }
  }

  /**
   * Given sources in order that others leave so, every run, whatever has failed in it, can go on
   * without further failures until all has been copied, whatever platforms are selected; and every
   * spec for which nothing had failed by then ends without error.
   */
  lemma EverySpecCanSucceed(e: World, pick: (Spec, Doc) -> seq<Digest>, run: seq<System>, moves: seq<Move>)
    returns (all: seq<System>, more: seq<Move>)
    requires Regular(e) && Picks(e, pick) && OrderlyTrace(e, run, moves)
    ensures Trace(e, all, more) && Continues(e, pick, run, moves, all, more) && Settled(Last(all))
    ensures forall i: nat | i < |run[0].procs| && !HarmedBefore(e, all, more, |moves|, i) ::
      && run[0].procs[i].CopySpec? && i < |Last(all).procs|
      && Last(all).procs[i].Mirrored? && Last(all).procs[i].spec == run[0].procs[i].spec
  {
    all, more := Finish(e, pick, run, moves);
    forall i: nat | i < |run[0].procs| && !HarmedBefore(e, all, more, |moves|, i)
      ensures run[0].procs[i].CopySpec? && i < |Last(all).procs|
      ensures Last(all).procs[i].Mirrored? && Last(all).procs[i].spec == run[0].procs[i].spec
    {
      forall k: nat | FailedAt(all, more, k) ensures k < |moves| {
        if k >= |moves| { NothingNewFails(e, pick, run, moves, all, more, k); }
      }
      SpecMirrored(e, all, more, i);
    }
  }

  /** Something failed in the first moves that the spec at i needed, to judge by all it has asked for in the end. */
  ghost predicate HarmedBefore(e: World, run: seq<System>, moves: seq<Move>, n: nat, i: nat)
    requires run != []
  {
    exists k: nat :: k < n && FailedAt(run, moves, k)
      && ForSpec(e, run, |run| - 1, i, moves[k].i, run[k].procs[moves[k].i])
  }

  lemma NothingNewFails(e: World, pick: (Spec, Doc) -> seq<Digest>, run: seq<System>, moves: seq<Move>,
                        all: seq<System>, more: seq<Move>, k: nat)
    requires Continues(e, pick, run, moves, all, more) && |moves| <= k < |more|
    ensures !FailedAt(all, more, k)
  {
    assert Advances(e, pick, all[k], more[k], all[k + 1]);
  }

  /**
   * And only then: a spec without a transform ends without error, unless its destination had the
   * document already, only if its source document is in order, and if a destination known only by
   * its digest can take it.
   */
  lemma OnlyIfInOrder(e: World, run: seq<System>, n: nat, p: Proc)
    requires WorldOk(e) && CollisionFree(e) && Run(e, run) && n < |run| && p in run[n].procs && p.Mirrored?
    requires p.asked != [] && !p.spec.transform
    ensures InOrder(e, p.srcDoc)
    ensures Consistent(p.spec) && p.spec.dst.digest.Some? && p.spec.dst.tag == "" && Several(e, p.srcDoc) ==>
      Portable(e, p.srcDoc)
  {
    var j := MirrorDelivers(e, run, n, p);
    if e.parsed(p.srcDoc).Index? {
      var ds := e.parsed(p.srcDoc).manifests;
      forall d, part | d in ds && e.verifies(d, part) ensures e.parsed(part).Manifest? {
        var i: nat :| i < |ds| && ds[i] == d;
        assert e.verifies(d, p.got[i]);
      }
      if Consistent(p.spec) && p.spec.dst.digest.Some? && p.spec.dst.tag == "" && |ds| > 1 {
        MirroredOk(e, run, n, p);
        CopiedVerbatimIff(e, run, n, p);
        var k := Stands(e, run, n, p.spec.dst.repo, UploadName(e, p.spec.dst, p.top), p.top);
      }
    }
  }
}
