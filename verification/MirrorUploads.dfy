/** The documents that the program itself writes to registries, whatever it is asked to copy. */
module MirrorUploads {
  import opened Mirror
  import opened MirrorSafety
  import opened MirrorDelivery
  import opened MirrorCauses

  ghost predicate AllManifests(e: World, docs: seq<Doc>) {
    forall doc <- docs :: e.parsed(doc).Manifest?
  }

  /** A manifest, or an index of several manifests by their canonical digests. */
  ghost predicate Made(e: World, doc: Doc) {
    e.parsed(doc).Manifest? || exists parts :: MadeOf(e, doc, parts)
  }

  ghost predicate MadeOf(e: World, doc: Doc, parts: seq<Doc>) {
    |parts| > 1 && AllManifests(e, parts) && e.parsed(doc) == Index(CanonicalAll(e, parts))
  }

  ghost predicate SameDocs(held: Holdings, held': Holdings) {
    held'.docs == held.docs && held'.tags == held.tags
  }

  ghost predicate Uploads(e: World, held: Holdings, held': Holdings) {
    exists repo, name, doc :: Made(e, doc) && held' == Added(held, repo, name, doc)
  }

  lemma PutUploads(e: World, g: Shared, img: Image, doc: Doc)
    requires Made(e, doc)
    ensures Uploads(e, g.held, PutDoc(e, g, img, doc).held)
  {
    assert PutDoc(e, g, img, doc).held == Added(g.held, img.repo, UploadName(e, img, doc), doc);
  }

  lemma FetchUploads(e: World, g: Shared, img: Image, g': Shared, doc: Doc)
    requires GetsSource(e, g, img, g', doc) || GetsDestination(e, g, img, g', doc)
    ensures g'.held == g.held
  {}

  lemma IndexUploads(e: World, g: Shared, p: Proc, g': Shared, p': Proc, spawn: seq<Proc>)
    requires p.CopySpec? && p.sp.UploadIndex? && SpecOk(e, g, p.spec, p.sp) && p'.Mirrored?
    requires SpecStep(e, g, p.spec, p.sp, g', p', spawn)
    ensures Uploads(e, g.held, g'.held)
  {
    AskedHere(e, p.spec, p.sp.srcDoc, p.sp.asked);
    forall part | part in p.sp.got ensures e.parsed(part).Manifest? {
      var i: nat :| i < |p.sp.got| && p.sp.got[i] == part;
      assert Brought(e, g, p.sp.asked[i], p.sp.got[i]);
    }
    assert MadeOf(e, p'.top, p.sp.got);
    PutUploads(e, g, p.spec.dst, p'.top);
  }

  lemma LookUploads(e: World, g: Shared, p: Proc, g': Shared, p': Proc, spawn: seq<Proc>)
    requires p.CopySpec? && p.sp.Looking? && LookStep(e, g, p.spec, p.sp.dst, p.sp.src, g', p', spawn)
    ensures g'.held == g.held
  {
    if p' == Done || !p'.sp.Looking? {
    } else if p.sp.src.None? && p'.sp.src.Some? {
      FetchUploads(e, g, p.spec.src, g', p'.sp.src.value);
    } else if p'.sp.dst.value.Some? {
      FetchUploads(e, g, p.spec.dst, g', p'.sp.dst.value.value);
    }
  }

  lemma SpecUploads(e: World, g: Shared, p: Proc, g': Shared, p': Proc, spawn: seq<Proc>)
    requires p.CopySpec? && SpecOk(e, g, p.spec, p.sp) && SpecStep(e, g, p.spec, p.sp, g', p', spawn)
    ensures SameDocs(g.held, g'.held) || Uploads(e, g.held, g'.held)
  {
    if p.sp.UploadIndex? && p'.Mirrored? {
      IndexUploads(e, g, p, g', p', spawn);
    } else if p.sp.Looking? {
      LookUploads(e, g, p, g', p', spawn);
    } else {
      assert g'.held == g.held;
    }
  }

  lemma ManifestUploads(e: World, g: Shared, p: Proc, g': Shared, p': Proc)
    requires p.CopyPlatform? && p.pp.UploadManifest? && PlatformOk(e, g, p.key, p.pp)
    requires PlatformStep(e, g, p.key, p.pp, g', p')
    ensures g'.held == g.held || Uploads(e, g.held, g'.held)
  {
    if !PlatformFails(g, p.key, g', p') {
      PutUploads(e, g, Target(e, p.key.dst, p.pp.doc), p.pp.doc);
    }
  }

  lemma PlatformUploads(e: World, g: Shared, p: Proc, g': Shared, p': Proc)
    requires p.CopyPlatform? && PlatformOk(e, g, p.key, p.pp) && PlatformStep(e, g, p.key, p.pp, g', p')
    ensures g'.held == g.held || Uploads(e, g.held, g'.held)
  {
    if p.pp.UploadManifest? {
      ManifestUploads(e, g, p, g', p');
    } else if p.pp.FetchManifest? && p'.CopyPlatform? {
      FetchUploads(e, g, p.key.src, g', p'.pp.doc);
    } else {
      assert g'.held == g.held;
    }
  }

  lemma SendingUploads(e: World, g: Shared, p: Proc, g': Shared, p': Proc)
    requires p.CopyBlob? && (p.bp.Requesting? || p.bp.Transferring?) && BlobStep(e, g, p.blob, p.bp, g', p')
    ensures SameDocs(g.held, g'.held) && g'.srcManifests == g.srcManifests
  {}

  lemma BlobUploads(e: World, g: Shared, p: Proc, g': Shared, p': Proc)
    requires p.CopyBlob? && BlobStep(e, g, p.blob, p.bp, g', p')
    ensures SameDocs(g.held, g'.held) && g'.srcManifests == g.srcManifests
  {
    if p.bp.Requesting? || p.bp.Transferring? {
      SendingUploads(e, g, p, g', p');
    } else if p.bp.Locking? || p.bp.Detached? || p.bp.Reattaching? || p.bp.Unlocking? {
      LockingUploads(e, g, p, g', p');
    } else {
      WaitingUploads(e, g, p, g', p');
    }
  }

  lemma LockingUploads(e: World, g: Shared, p: Proc, g': Shared, p': Proc)
    requires p.CopyBlob? && (p.bp.Locking? || p.bp.Detached? || p.bp.Reattaching? || p.bp.Unlocking?)
    requires BlobStep(e, g, p.blob, p.bp, g', p')
    ensures g'.held == g.held && g'.srcManifests == g.srcManifests
  {}

  lemma WaitingUploads(e: World, g: Shared, p: Proc, g': Shared, p': Proc)
    requires p.CopyBlob? && (p.bp.Checking? || p.bp.Heading? || p.bp.Choosing? || p.bp.Registering?)
    requires BlobStep(e, g, p.blob, p.bp, g', p')
    ensures g'.held == g.held && g'.srcManifests == g.srcManifests
  {}

  /** A step of a goroutine leaves all documents and tags as they are, or adds one document of these kinds. */
  lemma LocalUploads(e: World, g: Shared, p: Proc, g': Shared, p': Proc, spawn: seq<Proc>)
    requires ProcOk(e, g, p) && LocalStep(e, g, p, g', p', spawn)
    ensures SameDocs(g.held, g'.held) || Uploads(e, g.held, g'.held)
  {
    if p.CopySpec? {
      SpecUploads(e, g, p, g', p', spawn);
    } else if p.CopyPlatform? {
      PlatformUploads(e, g, p, g', p');
    } else if p.CopyBlob? {
      BlobUploads(e, g, p, g', p');
    } else {
      IndexerErrors(e, g, p, g', p', spawn);
    }
  }

  lemma MoveUploads(e: World, s: System, move: Move, s': System)
    requires Inv(e, s) && Moves(e, s, move, s') && !move.Others?
    ensures SameDocs(s.g.held, s'.g.held) || Uploads(e, s.g.held, s'.g.held)
  {
    if move.Alone? {
      assert s.procs[move.i] in s.procs && ProcOk(e, s.g, s.procs[move.i]);
      LocalUploads(e, s.g, s.procs[move.i], s'.g, move.p, move.spawn);
    }
  }

  ghost predicate PushedByOthers(run: seq<System>, moves: seq<Move>, k: nat, repo: Repo, doc: Doc) {
    && k < |moves| && k + 1 < |run| && moves[k].Others?
    && (repo, doc) !in run[k].g.held.docs && (repo, doc) in run[k + 1].g.held.docs
  }

  /** Whatever has come to a repository since the start was made by the program, or pushed by others. */
  lemma {:induction false} WhoUploaded(e: World, run: seq<System>, moves: seq<Move>, n: nat, repo: Repo, doc: Doc)
    requires WorldOk(e) && Trace(e, run, moves) && n < |run|
    requires (repo, doc) in run[n].g.held.docs && (repo, doc) !in run[0].g.held.docs
    ensures Made(e, doc) || exists k: nat :: k < n && PushedByOthers(run, moves, k, repo, doc)
  {
    TraceLive(e, run, moves, n - 1);
    TraceLive(e, run, moves, n);
    if (repo, doc) in run[n - 1].g.held.docs {
      WhoUploaded(e, run, moves, n - 1, repo, doc);
    } else if moves[n - 1].Others? {
      assert PushedByOthers(run, moves, n - 1, repo, doc);
    } else {
      MoveUploads(e, run[n - 1], moves[n - 1], run[n]);
    }
  }

  /** Uploading an index of a single manifest, or one of digests that are not canonical, never happens. */
  lemma MadeIsPortable(e: World, doc: Doc)
    requires WorldOk(e) && Made(e, doc)
    ensures Portable(e, doc)
  {
    if parts :| MadeOf(e, doc, parts) {
      forall i | 0 <= i < |parts| ensures e.isCanonical(e.canonical(parts[i])) {
        assert e.verifies(e.canonical(parts[i]), parts[i]);
      }
    }
  }
}
