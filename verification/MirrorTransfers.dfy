/** A registry that honours mounts is sent each blob at most once, whatever the number of repositories. */
module MirrorTransfers {
  import opened Names
  import opened Mirror
  import opened MirrorSafety

  /** Still waiting for the lock. */
  predicate Outside(at: BlobPoint) {
    at.Locking? || at.Detached?
  }

  /** The goroutine is in the section of copyBlob that holds the lock of this digest and registry. */
  predicate Holds(p: Proc, m: MutexKey) {
    p.CopyBlob? && !Outside(p.bp) && MutexOf(p.blob) == m
  }

  /** What the key mutex provides. */
  ghost predicate Exclusive(s: System) {
    && (forall i, m | 0 <= i < |s.procs| && Holds(s.procs[i], m) :: m in s.g.locks)
    && (forall i, j, m | 0 <= i < |s.procs| && 0 <= j < |s.procs| && Holds(s.procs[i], m) && Holds(s.procs[j], m) ::
          i == j)
  }

  ghost predicate Sourced(g: Shared, m: MutexKey) {
    exists r :: r in Sources(g, m.digest) && r.registry == m.registry
  }

  /** It is sending the blob, or sure to be told to: it found nothing to mount from. */
  predicate Sending(p: Proc, m: MutexKey) {
    Holds(p, m) && (p.bp.Transferring? || (p.bp.Requesting? && p.bp.mount.None?))
  }

  predicate Announcing(p: Proc, m: MutexKey) {
    Holds(p, m) && p.bp.Registering?
  }

  /**
   * A blob that was sent is known in the registry, or about to be made known by the goroutine
   * that sent it; and whoever is about to send one is the first.
   */
  ghost predicate Single(s: System, m: MutexKey) {
    && s.g.transfers[m] <= 1
    && (s.g.transfers[m] == 1 ==>
          Sourced(s.g, m) || exists i :: 0 <= i < |s.procs| && Announcing(s.procs[i], m))
    && (forall i | 0 <= i < |s.procs| && Sending(s.procs[i], m) :: s.g.transfers[m] == 0)
  }

  /** Only copyBlob touches the locks and sends blobs. */
  lemma OnlyBlobCopiesSend(e: World, g: Shared, p: Proc, g': Shared, p': Proc, spawn: seq<Proc>)
    requires LocalStep(e, g, p, g', p', spawn)
    ensures forall q <- spawn :: !q.CopyBlob?
    ensures !p.CopyBlob? ==> g'.locks == g.locks && g'.transfers == g.transfers && !p'.CopyBlob?
  {
    if p.CopySpec? {
      SpecsDoNot(e, g, p, g', p', spawn);
    } else if p.CopyPlatform? {
      PlatformsDoNot(e, g, p, g', p');
    }
  }

  /** What the copy of a blob alone changes is left as it was. */
  ghost predicate Quiet(g: Shared, g': Shared) {
    g'.locks == g.locks && g'.transfers == g.transfers
  }

  lemma FetchingIsQuiet(e: World, g: Shared, img: Image, g': Shared, doc: Doc)
    requires GetsSource(e, g, img, g', doc) || GetsDestination(e, g, img, g', doc)
    ensures Quiet(g, g')
  {}

  lemma PuttingIsQuiet(e: World, g: Shared, img: Image, doc: Doc)
    ensures Quiet(g, PutDoc(e, g, img, doc))
  {}

  lemma SpecsDoNot(e: World, g: Shared, p: Proc, g': Shared, p': Proc, spawn: seq<Proc>)
    requires p.CopySpec? && SpecStep(e, g, p.spec, p.sp, g', p', spawn)
    ensures Quiet(g, g') && !p'.CopyBlob? && forall q <- spawn :: !q.CopyBlob?
  {
    if p.sp.UploadIndex? && p'.Mirrored? {
      PuttingIsQuiet(e, g, p.spec.dst, p'.top);
    } else if p.sp.Looking? {
      LookingIsQuiet(e, g, p, g', p', spawn);
    }
  }

  lemma LookingIsQuiet(e: World, g: Shared, p: Proc, g': Shared, p': Proc, spawn: seq<Proc>)
    requires p.CopySpec? && p.sp.Looking? && LookStep(e, g, p.spec, p.sp.dst, p.sp.src, g', p', spawn)
    ensures Quiet(g, g') && !p'.CopyBlob? && forall q <- spawn :: !q.CopyBlob?
  {
    if p' == Done || !p'.sp.Looking? {
    } else if p.sp.src.None? && p'.sp.src.Some? {
      FetchingIsQuiet(e, g, p.spec.src, g', p'.sp.src.value);
    } else if p'.sp.dst.value.Some? {
      FetchingIsQuiet(e, g, p.spec.dst, g', p'.sp.dst.value.value);
    }
  }

  lemma UploadsDoNot(e: World, g: Shared, p: Proc, g': Shared, p': Proc)
    requires p.CopyPlatform? && p.pp.UploadManifest? && PlatformStep(e, g, p.key, p.pp, g', p')
    ensures Quiet(g, g') && !p'.CopyBlob?
  {
    PuttingIsQuiet(e, g, Target(e, p.key.dst, p.pp.doc), p.pp.doc);
  }

  lemma PlatformsDoNot(e: World, g: Shared, p: Proc, g': Shared, p': Proc)
    requires p.CopyPlatform? && PlatformStep(e, g, p.key, p.pp, g', p')
    ensures Quiet(g, g') && !p'.CopyBlob?
  {
    if p.pp.UploadManifest? {
      UploadsDoNot(e, g, p, g', p');
    } else if p.pp.FetchManifest? && p'.CopyPlatform? {
      FetchingIsQuiet(e, g, p.key.src, g', p'.pp.doc);
    }
  }

  lemma SectionKeepsLock(e: World, g: Shared, p: Proc, g': Shared, p': Proc)
    requires p.CopyBlob? && !Outside(p.bp) && !p.bp.Unlocking? && BlobStep(e, g, p.blob, p.bp, g', p')
    ensures g'.locks == g.locks && (p' == Done || (p'.CopyBlob? && p'.blob == p.blob && !Outside(p'.bp)))
  {
    if p.bp.Requesting? || p.bp.Transferring? { SendingKeepsLock(e, g, p, g', p'); }
  }

  lemma SendingKeepsLock(e: World, g: Shared, p: Proc, g': Shared, p': Proc)
    requires p.CopyBlob? && (p.bp.Requesting? || p.bp.Transferring?) && BlobStep(e, g, p.blob, p.bp, g', p')
    ensures g'.locks == g.locks && p'.CopyBlob? && p'.blob == p.blob && !Outside(p'.bp)
  {}

  lemma BlobLockUse(e: World, g: Shared, p: Proc, g': Shared, p': Proc, m: MutexKey)
    requires p.CopyBlob? && BlobStep(e, g, p.blob, p.bp, g', p')
    ensures Holds(p', m) && !Holds(p, m) ==> m !in g.locks && m in g'.locks
    ensures m in g.locks && m !in g'.locks ==> Holds(p, m) && !Holds(p', m)
  {
    if !Outside(p.bp) && !p.bp.Unlocking? { SectionKeepsLock(e, g, p, g', p'); }
  }

  /** At most one goroutine takes or gives up a lock in a step, and none while another holds it. */
  lemma LockUse(e: World, g: Shared, p: Proc, g': Shared, p': Proc, spawn: seq<Proc>, m: MutexKey)
    requires LocalStep(e, g, p, g', p', spawn)
    ensures Holds(p', m) && !Holds(p, m) ==> m !in g.locks && m in g'.locks
    ensures m in g.locks && m !in g'.locks ==> Holds(p, m) && !Holds(p', m)
  {
    if p.CopyBlob? {
      BlobLockUse(e, g, p, g', p', m);
    } else {
      OnlyBlobCopiesSend(e, g, p, g', p', spawn);
    }
  }

  lemma ExclusiveKept(e: World, s: System, move: Move, s': System)
    requires Exclusive(s) && Moves(e, s, move, s')
    ensures Exclusive(s')
  {
    if move.Alone? {
      var i, p' := move.i, move.p;
      OnlyBlobCopiesSend(e, s.g, s.procs[i], s'.g, p', move.spawn);
      forall j, m | 0 <= j < |s'.procs| && Holds(s'.procs[j], m) ensures m in s'.g.locks {
        LockUse(e, s.g, s.procs[i], s'.g, p', move.spawn, m);
      }
      forall j, k, m | 0 <= j < |s'.procs| && 0 <= k < |s'.procs| && Holds(s'.procs[j], m) && Holds(s'.procs[k], m)
        ensures j == k
      {
        LockUse(e, s.g, s.procs[i], s'.g, p', move.spawn, m);
      }
    }
  }

  lemma SourcedEvolves(g: Shared, g': Shared, m: MutexKey)
    requires Evolves(g, g') && Sourced(g, m)
    ensures Sourced(g', m)
  {
    var r :| r in Sources(g, m.digest) && r.registry == m.registry;
    assert r in Sources(g', m.digest);
  }

  /** Finding nothing to mount from, in a registry whose lock one holds, means nothing was ever sent. */
  lemma FirstToSend(e: World, s: System, i: nat, g': Shared, p': Proc, m: MutexKey)
    requires Inv(e, s) && Exclusive(s) && Single(s, m) && e.honours(m.registry)
    requires i < |s.procs| && s.procs[i].CopyBlob?
    requires BlobStep(e, s.g, s.procs[i].blob, s.procs[i].bp, g', p') && Sending(p', m)
    ensures Sending(s.procs[i], m) || s.procs[i].bp.Choosing?
    ensures s.g.transfers[m] == 0
    ensures g'.transfers == s.g.transfers
  {
    assert ProcOk(e, s.g, s.procs[i]);
    if s.procs[i].bp.Choosing? {
      assert Holds(s.procs[i], m);
      assert !Sourced(s.g, m);
      assert forall j | 0 <= j < |s.procs| && Announcing(s.procs[j], m) :: j == i;
    }
  }

  lemma SingleKeptByCopy(e: World, s: System, i: nat, p': Proc, s': System, m: MutexKey)
    requires Inv(e, s) && Exclusive(s) && Single(s, m) && e.honours(m.registry) && Evolves(s.g, s'.g)
    requires i < |s.procs| && s.procs[i].CopyBlob? && s'.procs == s.procs[i := p']
    requires BlobStep(e, s.g, s.procs[i].blob, s.procs[i].bp, s'.g, p')
    ensures Single(s', m)
  {
    var p := s.procs[i];
    if Sourced(s.g, m) { SourcedEvolves(s.g, s'.g, m); }
    if Sending(p', m) { FirstToSend(e, s, i, s'.g, p', m); }
    if Announcing(p, m) { assert p.blob.dst in Sources(s'.g, m.digest); }
    if Announcing(p', m) { assert s'.procs[i] == p'; }
    if s'.g.transfers[m] != s.g.transfers[m] { assert Sending(p, m); }
    forall j | 0 <= j < |s'.procs| && Sending(s'.procs[j], m) ensures s'.g.transfers[m] == 0 {
      if j != i { assert Sending(s.procs[j], m); }
    }
    if s'.g.transfers[m] == 1 && !Sourced(s'.g, m) && s.g.transfers[m] == 1 {
      var j :| 0 <= j < |s.procs| && Announcing(s.procs[j], m);
      assert Announcing(s'.procs[j], m);
    }
  }

  /** Every goroutine in copyBlob's section stays as it is, and none joins them. */
  ghost predicate SameSections(s: System, s': System) {
    && |s.procs| <= |s'.procs|
    && (forall j | 0 <= j < |s.procs| && s.procs[j].CopyBlob? :: s'.procs[j] == s.procs[j])
    && forall j | 0 <= j < |s'.procs| && s'.procs[j].CopyBlob? && !Outside(s'.procs[j].bp) ::
         j < |s.procs| && s'.procs[j] == s.procs[j]
  }

  lemma SingleKeptByOthers(s: System, s': System, m: MutexKey)
    requires Single(s, m) && Evolves(s.g, s'.g) && s'.g.transfers == s.g.transfers && SameSections(s, s')
    ensures Single(s', m)
  {
    if Sourced(s.g, m) { SourcedEvolves(s.g, s'.g, m); }
    if s.g.transfers[m] == 1 && !Sourced(s.g, m) {
      var j :| 0 <= j < |s.procs| && Announcing(s.procs[j], m);
      assert Announcing(s'.procs[j], m);
    }
    forall j | 0 <= j < |s'.procs| && Sending(s'.procs[j], m) ensures s'.g.transfers[m] == 0 {
      assert Sending(s.procs[j], m);
    }
  }

  lemma SingleKept(e: World, s: System, move: Move, s': System, m: MutexKey)
    requires WorldOk(e) && Inv(e, s) && Exclusive(s) && Single(s, m) && e.honours(m.registry) && Moves(e, s, move, s')
    ensures Single(s', m)
  {
    MoveKeeps(e, s, move, s');
    if move.Alone? {
      OnlyBlobCopiesSend(e, s.g, s.procs[move.i], s'.g, move.p, move.spawn);
    }
    if move.Alone? && s.procs[move.i].CopyBlob? {
      SingleKeptByCopy(e, s, move.i, move.p, s', m);
    } else {
      SingleKeptByOthers(s, s', m);
    }
  }

  lemma InitSingle(e: World, s: System, m: MutexKey)
    requires Init(e, s)
    ensures Exclusive(s) && Single(s, m)
  {
    assert forall i | 0 <= i < |s.procs| :: s.procs[i] in s.procs && s.procs[i].CopySpec?;
  }

  lemma {:induction false} RunSingle(e: World, run: seq<System>, n: nat, m: MutexKey)
    requires WorldOk(e) && Run(e, run) && n < |run| && e.honours(m.registry)
    ensures Exclusive(run[n]) && Single(run[n], m)
  {
    if n == 0 {
      InitSingle(e, run[0], m);
    } else {
      RunSingle(e, run, n - 1, m);
      RunInv(e, run, n - 1);
      assert Step(e, run[n - 1], run[n]);
      var move :| Moves(e, run[n - 1], move, run[n]);
      ExclusiveKept(e, run[n - 1], move, run[n]);
      SingleKept(e, run[n - 1], move, run[n], m);
    }
  }

  /**
   * However many repositories of a registry are to receive a blob, and however their copies
   * interleave, the blob is downloaded and uploaded to that registry at most once.
   */
  lemma SingleTransfer(e: World, run: seq<System>, n: nat, m: MutexKey)
    requires WorldOk(e) && Run(e, run) && n < |run| && e.honours(m.registry)
    ensures run[n].g.transfers[m] <= 1
  {
    RunSingle(e, run, n, m);
  }
}
