/**
 * The copies always come to an end: as long as a spec, platform or blob is being copied or waits
 * to be, one of the goroutines that copy can move, and a measure falls each time one does.
 */
module MirrorLiveness {
  import opened Names
  import opened Sums
  import opened Mirror
  import opened MirrorSafety
  import opened MirrorTransfers

  predicate Copying(p: Proc) {
    p.CopySpec? || p.CopyPlatform? || p.CopyBlob?
  }

  /** A move of a goroutine that copies, or the start of one. */
  predicate CopyMove(s: System, move: Move) {
    match move
    case Alone(i, _, _) => i < |s.procs| && Copying(s.procs[i])
    case Start(_) => true
    case Others => false
  }

  ghost predicate CopyStep(e: World, s: System, s': System) {
    exists move :: CopyMove(s, move) && Moves(e, s, move, s')
  }

  /** Nothing is being copied and nothing waits to be. */
  ghost predicate Settled(s: System) {
    && (forall p <- s.procs :: !Copying(p))
    && (forall k <- s.g.blobs :: s.g.blobs[k] != Waiting)
    && (forall k <- s.g.platforms :: s.g.platforms[k] != Waiting)
  }

  // ---------------------------------------------------------------------------------------
  // Who is waited for is there.

  predicate RunsBlob(p: Proc, k: BlobKey) {
    p.CopyBlob? && p.blob == k
  }

  predicate RunsPlatform(p: Proc, k: PlatformKey) {
    p.CopyPlatform? && p.key == k
  }

  ghost predicate BlobTended(s: System, k: BlobKey) {
    k in s.g.blobs && s.g.blobs[k] == Running ==> exists i :: 0 <= i < |s.procs| && RunsBlob(s.procs[i], k)
  }

  ghost predicate PlatformTended(s: System, k: PlatformKey) {
    k in s.g.platforms && s.g.platforms[k] == Running ==> exists i :: 0 <= i < |s.procs| && RunsPlatform(s.procs[i], k)
  }

  ghost predicate LockTended(s: System, m: MutexKey) {
    m in s.g.locks ==> exists i :: 0 <= i < |s.procs| && Holds(s.procs[i], m)
  }

  /** What a goroutine awaits has been asked for. */
  ghost predicate Asked(g: Shared, p: Proc) {
    match p
    case CopyPlatform(key, AwaitBlobs(_, left)) => forall d <- left :: BlobKey(d, key.dst.repo) in g.blobs
    case CopySpec(_, AwaitPlatforms(_, asked, _)) => forall k <- asked :: k in g.platforms
    case _ => true
  }

  /** Whether a goroutine counts against the limit on blob copies. */
  function Attached(p: Proc): int {
    if p.CopyBlob? && !p.bp.Detached? && !p.bp.Reattaching? then 1 else 0
  }

  /** The limit: as many blob copies are attached as the map believes, and no more than allowed. */
  ghost predicate Limited(e: World, s: System) {
    s.g.attached == Sum(Attached, s.procs) && s.g.attached <= e.limit
  }

  ghost predicate Tended(s: System) {
    && (forall k :: BlobTended(s, k))
    && (forall k :: PlatformTended(s, k))
    && (forall m :: LockTended(s, m))
    && (forall p <- s.procs :: Asked(s.g, p))
  }

  ghost predicate TasksGrow(g: Shared, g': Shared) {
    g.blobs.Keys <= g'.blobs.Keys && g.platforms.Keys <= g'.platforms.Keys
  }

  /** One step of one goroutine, as the tasks see it. */
  ghost predicate TaskStep(g: Shared, p: Proc, g': Shared, p': Proc) {
    && TasksGrow(g, g') && Asked(g', p')
    && g'.attached - g.attached == Attached(p') - Attached(p)
    && (forall k | k in g'.blobs && g'.blobs[k] == Running ::
          k in g.blobs && g.blobs[k] == Running && (RunsBlob(p, k) ==> RunsBlob(p', k)))
    && (forall k | k in g'.platforms && g'.platforms[k] == Running ::
          k in g.platforms && g.platforms[k] == Running && (RunsPlatform(p, k) ==> RunsPlatform(p', k)))
    && (forall m <- g'.locks :: Holds(p', m) || (m in g.locks && (Holds(p, m) ==> Holds(p', m))))
  }

  // The effects of each kind of step on the tasks and locks, and nothing else of it.

  ghost predicate SameTasks(g: Shared, g': Shared) {
    g'.blobs == g.blobs && g'.platforms == g.platforms && g'.locks == g.locks && g'.attached == g.attached
  }

  ghost predicate BlobEffect(g: Shared, key: BlobKey, at: BlobPoint, g': Shared, p': Proc) {
    && g'.platforms == g.platforms
    && g'.attached - g.attached == Attached(p') - Attached(CopyBlob(key, at))
    && WorkWeight(p') < WorkWeight(CopyBlob(key, at))
    && match at
       case Unlocking(ok) =>
         g'.locks == g.locks - {MutexOf(key)} && g'.blobs == g.blobs[key := Result(ok)] && p' == Done
       case _ =>
         && g'.blobs == g.blobs && RunsBlob(p', key)
         && (if Outside(at) && !Outside(p'.bp) then g'.locks == g.locks + {MutexOf(key)}
             else g'.locks == g.locks && Outside(at) == Outside(p'.bp))
  }

  lemma BlobEffects(e: World, g: Shared, key: BlobKey, at: BlobPoint, g': Shared, p': Proc)
    requires BlobStep(e, g, key, at, g', p') && !g'.panicked
    ensures BlobEffect(g, key, at, g', p')
  {
    if at.Requesting? || at.Transferring? {
      SendingEffect(e, g, key, at, g', p');
    } else if at.Locking? || at.Detached? || at.Reattaching? || at.Unlocking? {
      LockingEffect(e, g, key, at, g', p');
    }
  }

  lemma LockingEffect(e: World, g: Shared, key: BlobKey, at: BlobPoint, g': Shared, p': Proc)
    requires (at.Locking? || at.Detached? || at.Reattaching? || at.Unlocking?) && BlobStep(e, g, key, at, g', p')
    ensures BlobEffect(g, key, at, g', p')
  {}

  lemma SendingEffect(e: World, g: Shared, key: BlobKey, at: BlobPoint, g': Shared, p': Proc)
    requires (at.Requesting? || at.Transferring?) && BlobStep(e, g, key, at, g', p')
    ensures BlobEffect(g, key, at, g', p')
  {}

  lemma BlobTasks(g: Shared, key: BlobKey, at: BlobPoint, g': Shared, p': Proc)
    requires BlobEffect(g, key, at, g', p')
    ensures TaskStep(g, CopyBlob(key, at), g', p')
  {}

  ghost predicate PlatformEffect(e: World, g: Shared, key: PlatformKey, at: PlatformPoint, g': Shared, p': Proc) {
    && g'.locks == g.locks && g'.attached == g.attached
    && if p' == Done then
         && g'.blobs == g.blobs && !at.RegisterBlobs?
         && key in g'.platforms && g'.platforms[key].Result? && g'.platforms == g.platforms[key := g'.platforms[key]]
       else
         && p'.CopyPlatform? && p'.key == key && g'.platforms == g.platforms
         && match at
            case FetchManifest => g'.blobs == g.blobs && p'.pp.RegisterBlobs?
            case RegisterBlobs(doc, left) =>
              if left != [] then
                g'.blobs == g.blobs && p'.pp == RegisterBlobs(doc, left[1..])
              else
                && e.parsed(doc).Manifest? && p'.pp == AwaitBlobs(doc, BlobsOf(e, doc))
                && g'.blobs == InformBlobs(g, key.dst.repo, BlobsOf(e, doc)).blobs
            case AwaitBlobs(doc, left) =>
              g'.blobs == g.blobs && p'.pp == (if left == [] then UploadManifest(doc) else AwaitBlobs(doc, left[1..]))
            case UploadManifest(_) => false
  }

  lemma FetchEffect(e: World, g: Shared, img: Image, g': Shared, doc: Doc)
    requires GetsSource(e, g, img, g', doc) || GetsDestination(e, g, img, g', doc)
    ensures SameTasks(g, g')
  {}

  lemma PutEffect(e: World, g: Shared, img: Image, doc: Doc)
    ensures SameTasks(g, PutDoc(e, g, img, doc))
  {}

  lemma UploadEffect(e: World, g: Shared, key: PlatformKey, at: PlatformPoint, g': Shared, p': Proc)
    requires at.UploadManifest? && PlatformStep(e, g, key, at, g', p')
    ensures PlatformEffect(e, g, key, at, g', p')
  {
    if !PlatformFails(g, key, g', p') {
      PutEffect(e, g, Target(e, key.dst, at.doc), at.doc);
    }
  }

  lemma RegisterEffect(e: World, g: Shared, key: PlatformKey, at: PlatformPoint, g': Shared, p': Proc)
    requires at.RegisterBlobs? && PlatformStep(e, g, key, at, g', p')
    ensures PlatformEffect(e, g, key, at, g', p')
  {}

  lemma PlatformEffects(e: World, g: Shared, key: PlatformKey, at: PlatformPoint, g': Shared, p': Proc)
    requires PlatformStep(e, g, key, at, g', p')
    ensures PlatformEffect(e, g, key, at, g', p')
  {
    if at.UploadManifest? {
      UploadEffect(e, g, key, at, g', p');
    } else if at.RegisterBlobs? {
      RegisterEffect(e, g, key, at, g', p');
    } else if at.FetchManifest? && p'.CopyPlatform? {
      FetchEffect(e, g, key.src, g', p'.pp.doc);
    }
  }

  lemma PlatformTasks(e: World, g: Shared, key: PlatformKey, at: PlatformPoint, g': Shared, p': Proc)
    requires PlatformEffect(e, g, key, at, g', p') && Asked(g, CopyPlatform(key, at))
    ensures TaskStep(g, CopyPlatform(key, at), g', p')
  {
    if at.AwaitBlobs? {
      AwaitTasks(e, g, key, at, g', p');
    } else if at.RegisterBlobs? {
      RegisterTasks(e, g, key, at, g', p');
    }
  }

  lemma RegisterTasks(e: World, g: Shared, key: PlatformKey, at: PlatformPoint, g': Shared, p': Proc)
    requires at.RegisterBlobs? && PlatformEffect(e, g, key, at, g', p')
    ensures TaskStep(g, CopyPlatform(key, at), g', p')
  {}

  lemma AwaitTasks(e: World, g: Shared, key: PlatformKey, at: PlatformPoint, g': Shared, p': Proc)
    requires at.AwaitBlobs? && PlatformEffect(e, g, key, at, g', p') && Asked(g, CopyPlatform(key, at))
    ensures TaskStep(g, CopyPlatform(key, at), g', p')
  {
    if at.left != [] { assert at.left == [at.left[0]] + at.left[1..]; }
  }

  /** How far a spec's copy has come. */
  ghost predicate Nearer(p: Proc, p': Proc) {
    || SpecWeight(p') < SpecWeight(p)
    || (SpecWeight(p') == SpecWeight(p) && WorkWeight(p') < WorkWeight(p))
  }

  ghost predicate SpecEffect(g: Shared, p: Proc, g': Shared, p': Proc) {
    && g'.blobs == g.blobs && g'.locks == g.locks && g'.attached == g.attached
    && (p'.CopySpec? || p'.Mirrored? || p' == Done) && Nearer(p, p')
    && if p.CopySpec? && p.sp.Dispatch? && p'.CopySpec? then
         p'.sp.AwaitPlatforms? && g'.platforms == InformPlatforms(g, p'.sp.asked).platforms
       else
         g'.platforms == g.platforms
         && (p'.CopySpec? && p'.sp.AwaitPlatforms? ==> p.CopySpec? && p.sp.AwaitPlatforms? && p'.sp.asked == p.sp.asked)
  }

  lemma IndexEffect(e: World, g: Shared, p: Proc, g': Shared, p': Proc, spawn: seq<Proc>)
    requires p.CopySpec? && p.sp.UploadIndex? && SpecStep(e, g, p.spec, p.sp, g', p', spawn)
    ensures SpecEffect(g, p, g', p')
  {
    if p'.Mirrored? { PutEffect(e, g, p.spec.dst, p'.top); }
  }

  lemma FirstEffects(e: World, g: Shared, p: Proc, g': Shared, p': Proc, spawn: seq<Proc>)
    requires p.CopySpec? && p.sp.Looking? && LookStep(e, g, p.spec, p.sp.dst, p.sp.src, g', p', spawn)
    ensures SpecEffect(g, p, g', p')
  {
    if p' == Done || !p'.sp.Looking? {
    } else if p.sp.src.None? && p'.sp.src.Some? {
      FetchEffect(e, g, p.spec.src, g', p'.sp.src.value);
    } else if p'.sp.dst.value.Some? {
      FetchEffect(e, g, p.spec.dst, g', p'.sp.dst.value.value);
    }
  }

  lemma SpecEffects(e: World, g: Shared, p: Proc, g': Shared, p': Proc, spawn: seq<Proc>)
    requires p.CopySpec? && SpecStep(e, g, p.spec, p.sp, g', p', spawn)
    ensures SpecEffect(g, p, g', p')
  {
    if p.sp.UploadIndex? {
      IndexEffect(e, g, p, g', p', spawn);
    } else if p.sp.Looking? {
      FirstEffects(e, g, p, g', p', spawn);
    }
  }

  lemma SpecTasks(g: Shared, p: Proc, g': Shared, p': Proc)
    requires p.CopySpec? && SpecEffect(g, p, g', p') && Asked(g, p)
    ensures TaskStep(g, p, g', p')
  {}

  lemma LocalTasks(e: World, g: Shared, p: Proc, g': Shared, p': Proc, spawn: seq<Proc>)
    requires LocalStep(e, g, p, g', p', spawn) && Asked(g, p) && !g'.panicked
    ensures TaskStep(g, p, g', p')
  {
    if p.CopyBlob? {
      BlobEffects(e, g, p.blob, p.bp, g', p');
      BlobTasks(g, p.blob, p.bp, g', p');
    } else if p.CopySpec? {
      SpecEffects(e, g, p, g', p', spawn);
      SpecTasks(g, p, g', p');
    } else if p.CopyPlatform? {
      PlatformEffects(e, g, p.key, p.pp, g', p');
      PlatformTasks(e, g, p.key, p.pp, g', p');
    }
  }

  lemma SpawnedIndex(e: World, g: Shared, p: Proc, g': Shared, p': Proc, spawn: seq<Proc>)
    requires LocalStep(e, g, p, g', p', spawn)
    ensures |spawn| <= 1 && forall q <- spawn :: q.Submitting? || q.Fetching? || q.Lingering?
  {}

  lemma AloneTended(e: World, s: System, move: Move, s': System)
    requires Tended(s) && move.Alone? && Moves(e, s, move, s') && !s'.g.panicked
    ensures Tended(s')
  {
    var i, p', g, g' := move.i, move.p, s.g, s'.g;
    assert s.procs[i] in s.procs;
    LocalTasks(e, g, s.procs[i], g', p', move.spawn);
    SpawnedIndex(e, g, s.procs[i], g', p', move.spawn);
    forall k ensures BlobTended(s', k) {
      if k in g'.blobs && g'.blobs[k] == Running {
        assert BlobTended(s, k);
        var j :| 0 <= j < |s.procs| && RunsBlob(s.procs[j], k);
        assert RunsBlob(s'.procs[j], k);
      }
    }
    forall k ensures PlatformTended(s', k) {
      if k in g'.platforms && g'.platforms[k] == Running {
        assert PlatformTended(s, k);
        var j :| 0 <= j < |s.procs| && RunsPlatform(s.procs[j], k);
        assert RunsPlatform(s'.procs[j], k);
      }
    }
    forall m ensures LockTended(s', m) {
      if m in g'.locks {
        if Holds(p', m) { assert s'.procs[i] == p'; } else {
          assert LockTended(s, m);
          var j :| 0 <= j < |s.procs| && Holds(s.procs[j], m);
          assert Holds(s'.procs[j], m);
        }
      }
    }
    forall q | q in s'.procs ensures Asked(g', q) {
      if q in s.procs { assert Asked(g, q); }
    }
  }

  lemma StartTended(e: World, s: System, move: Move, s': System)
    requires Tended(s) && move.Start? && Moves(e, s, move, s')
    ensures Tended(s')
  {
    var p := move.p;
    assert s'.procs[|s.procs|] == p;
    forall k ensures BlobTended(s', k) {
      if !RunsBlob(p, k) && k in s'.g.blobs && s'.g.blobs[k] == Running {
        assert BlobTended(s, k);
        var j :| 0 <= j < |s.procs| && RunsBlob(s.procs[j], k);
        assert RunsBlob(s'.procs[j], k);
      }
    }
    forall k ensures PlatformTended(s', k) {
      if !RunsPlatform(p, k) && k in s'.g.platforms && s'.g.platforms[k] == Running {
        assert PlatformTended(s, k);
        var j :| 0 <= j < |s.procs| && RunsPlatform(s.procs[j], k);
        assert RunsPlatform(s'.procs[j], k);
      }
    }
    forall m ensures LockTended(s', m) {
      if m in s'.g.locks {
        assert LockTended(s, m);
        var j :| 0 <= j < |s.procs| && Holds(s.procs[j], m);
        assert Holds(s'.procs[j], m);
      }
    }
    forall q | q in s'.procs ensures Asked(s'.g, q) {
      if q in s.procs { assert Asked(s.g, q); }
    }
  }

  lemma SumAlone(f: Proc -> int, procs: seq<Proc>, i: nat, p': Proc, spawn: seq<Proc>)
    requires i < |procs| && forall j | 0 <= j < |spawn| :: f(spawn[j]) == 0
    ensures Sum(f, procs[i := p'] + spawn) == Sum(f, procs) - f(procs[i]) + f(p')
  {
    SumAppend(f, procs[i := p'], spawn);
    SumUpdate(f, procs, i, p');
    SumZero(f, spawn);
  }

  lemma SumSnoc(f: Proc -> int, procs: seq<Proc>, p: Proc)
    ensures Sum(f, procs + [p]) == Sum(f, procs) + f(p)
  {
    SumAppend(f, procs, [p]);
    assert [p][1..] == [];
  }

  /** Only a start and a reattachment add to the attached, and only within the limit. */
  lemma AttachesWithinLimit(e: World, g: Shared, p: Proc, g': Shared, p': Proc, spawn: seq<Proc>)
    requires LocalStep(e, g, p, g', p', spawn) && TaskStep(g, p, g', p')
    ensures g'.attached > g.attached ==> g'.attached <= e.limit
  {
    if g'.attached > g.attached {
      assert Attached(p') == 1 && Attached(p) == 0;
      if !p.CopyBlob? { OthersStart(e, g, p, g', p', spawn); }
    }
  }

  lemma OthersStart(e: World, g: Shared, p: Proc, g': Shared, p': Proc, spawn: seq<Proc>)
    requires LocalStep(e, g, p, g', p', spawn) && !p.CopyBlob?
    ensures !p'.CopyBlob?
  {
    OnlyBlobCopiesSend(e, g, p, g', p', spawn);
  }

  lemma MoveLimited(e: World, s: System, move: Move, s': System)
    requires Tended(s) && Limited(e, s) && Moves(e, s, move, s') && !s'.g.panicked
    ensures Limited(e, s')
  {
    if move.Alone? {
      var p := s.procs[move.i];
      assert p in s.procs;
      LocalTasks(e, s.g, p, s'.g, move.p, move.spawn);
      SpawnedIndex(e, s.g, p, s'.g, move.p, move.spawn);
      SumAlone(Attached, s.procs, move.i, move.p, move.spawn);
      AttachesWithinLimit(e, s.g, p, s'.g, move.p, move.spawn);
    } else if move.Start? {
      SumSnoc(Attached, s.procs, move.p);
    }
  }

  lemma MoveTended(e: World, s: System, move: Move, s': System)
    requires Tended(s) && Moves(e, s, move, s') && !s'.g.panicked
    ensures Tended(s')
  {
    if move.Alone? {
      AloneTended(e, s, move, s');
    } else if move.Start? {
      StartTended(e, s, move, s');
    } else {
      forall k ensures BlobTended(s', k) { assert BlobTended(s, k); }
      forall k ensures PlatformTended(s', k) { assert PlatformTended(s, k); }
      forall m ensures LockTended(s', m) { assert LockTended(s, m); }
      forall q | q in s'.procs ensures Asked(s'.g, q) { assert Asked(s.g, q); }
    }
  }

  ghost predicate Live(e: World, s: System) {
    WorldOk(e) && Inv(e, s) && Tended(s) && Limited(e, s)
  }

  lemma StepLive(e: World, s: System, s': System)
    requires Live(e, s) && Step(e, s, s')
    ensures Live(e, s')
  {
    var move :| Moves(e, s, move, s');
    MoveKeeps(e, s, move, s');
    MoveTended(e, s, move, s');
    MoveLimited(e, s, move, s');
  }

  lemma InitLive(e: World, s: System)
    requires WorldOk(e) && Init(e, s)
    ensures Live(e, s)
  {
    forall i | 0 <= i < |s.procs| ensures Attached(s.procs[i]) == 0 { assert s.procs[i] in s.procs; }
    SumZero(Attached, s.procs);
  }

  lemma {:induction false} RunLive(e: World, run: seq<System>, n: nat)
    requires WorldOk(e) && Run(e, run) && n < |run|
    ensures Live(e, run[n])
  {
    if n == 0 {
      InitLive(e, run[0]);
    } else {
      RunLive(e, run, n - 1);
      assert Step(e, run[n - 1], run[n]);
      StepLive(e, run[n - 1], run[n]);
    }
  }

  // ---------------------------------------------------------------------------------------
  // Who is waited for can move.

  /** The goroutine copies and is not held up by any other. */
  ghost predicate Ready(e: World, g: Shared, p: Proc) {
    match p
    case CopyBlob(key, at) =>
      (at.Detached? ==> MutexOf(key) !in g.locks) && (at.Reattaching? ==> g.attached < e.limit)
    case CopyPlatform(key, AwaitBlobs(_, left)) =>
      left != [] ==> BlobKey(left[0], key.dst.repo) in g.blobs && g.blobs[BlobKey(left[0], key.dst.repo)].Result?
    case CopyPlatform(_, _) => true
    case CopySpec(_, AwaitPlatforms(_, asked, got)) =>
      |got| < |asked| ==> asked[|got|] in g.platforms && g.platforms[asked[|got|]].Result?
    case CopySpec(_, _) => true
    case _ => false
  }

  ghost predicate SomeoneReady(e: World, s: System) {
    (exists g', p :: Starts(e, s.g, g', p)) || exists i :: 0 <= i < |s.procs| && Ready(e, s.g, s.procs[i])
  }

  /** A limit that is used up is used up by copies that can move: if a lock is taken they detach. */
  lemma FullIsReady(e: World, s: System)
    requires Live(e, s) && s.g.attached >= e.limit
    ensures SomeoneReady(e, s)
  {
    var i := PositiveEntry(Attached, s.procs);
    assert Ready(e, s.g, s.procs[i]);
  }

  lemma BlobWaits(e: World, s: System, k: BlobKey)
    requires Live(e, s) && k in s.g.blobs && s.g.blobs[k] == Waiting
    ensures SomeoneReady(e, s)
  {
    if s.g.attached < e.limit {
      var g' := s.g.(blobs := s.g.blobs[k := Running], attached := s.g.attached + 1);
      assert Starts(e, s.g, g', CopyBlob(k, Locking));
    } else {
      FullIsReady(e, s);
    }
  }

  lemma PlatformWaits(e: World, s: System, k: PlatformKey)
    requires k in s.g.platforms && s.g.platforms[k] == Waiting
    ensures SomeoneReady(e, s)
  {
    assert Starts(e, s.g, s.g.(platforms := s.g.platforms[k := Running]), CopyPlatform(k, FetchManifest));
  }

  /** A copy that has its lock can move, or waits for its place and those who have one can. */
  lemma HolderIsReady(e: World, s: System, i: nat)
    requires Live(e, s) && i < |s.procs| && s.procs[i].CopyBlob? && !s.procs[i].bp.Detached?
    ensures SomeoneReady(e, s)
  {
    if s.procs[i].bp.Reattaching? && s.g.attached >= e.limit {
      FullIsReady(e, s);
    } else {
      assert Ready(e, s.g, s.procs[i]);
    }
  }

  /** A blob copy can move, or the holder of its lock can, or those who use up the limit can. */
  lemma BlobIsReady(e: World, s: System, i: nat)
    requires Live(e, s) && i < |s.procs| && s.procs[i].CopyBlob?
    ensures SomeoneReady(e, s)
  {
    var m := MutexOf(s.procs[i].blob);
    if s.procs[i].bp.Detached? && m in s.g.locks {
      assert LockTended(s, m);
      var j: nat :| j < |s.procs| && Holds(s.procs[j], m);
      HolderIsReady(e, s, j);
    } else if s.procs[i].bp.Detached? {
      assert Ready(e, s.g, s.procs[i]);
    } else {
      HolderIsReady(e, s, i);
    }
  }

  /** A platform copy can move, or what it awaits can start, or is being copied and that can move. */
  lemma PlatformIsReady(e: World, s: System, i: nat)
    requires Live(e, s) && i < |s.procs| && s.procs[i].CopyPlatform?
    ensures SomeoneReady(e, s)
  {
    var key, at := s.procs[i].key, s.procs[i].pp;
    assert Asked(s.g, s.procs[i]);
    if !Ready(e, s.g, s.procs[i]) {
      var blob := BlobKey(at.left[0], key.dst.repo);
      assert at.left[0] in at.left;
      if s.g.blobs[blob] == Waiting {
        BlobWaits(e, s, blob);
      } else {
        assert BlobTended(s, blob);
        var j: nat :| j < |s.procs| && RunsBlob(s.procs[j], blob);
        BlobIsReady(e, s, j);
      }
    }
  }

  lemma SpecIsReady(e: World, s: System, i: nat)
    requires Live(e, s) && i < |s.procs| && s.procs[i].CopySpec?
    ensures SomeoneReady(e, s)
  {
    var at := s.procs[i].sp;
    assert Asked(s.g, s.procs[i]);
    if !Ready(e, s.g, s.procs[i]) {
      var key := at.asked[|at.got|];
      assert key in at.asked;
      if s.g.platforms[key] == Waiting {
        PlatformWaits(e, s, key);
      } else {
        assert PlatformTended(s, key);
        var j: nat :| j < |s.procs| && RunsPlatform(s.procs[j], key);
        PlatformIsReady(e, s, j);
      }
    }
  }

  /**
   * No deadlock: specs wait for platforms, platforms for blobs, blobs for a lock or for a place
   * within the limit, and those who have both wait for nobody.
   */
  lemma SomeoneIsReady(e: World, s: System)
    requires Live(e, s) && !Settled(s)
    ensures SomeoneReady(e, s)
  {
    if i: nat :| i < |s.procs| && Copying(s.procs[i]) {
      if s.procs[i].CopySpec? {
        SpecIsReady(e, s, i);
      } else if s.procs[i].CopyPlatform? {
        PlatformIsReady(e, s, i);
      } else {
        BlobIsReady(e, s, i);
      }
    } else if k :| k in s.g.blobs && s.g.blobs[k] == Waiting {
      BlobWaits(e, s, k);
    } else {
      var k :| k in s.g.platforms && s.g.platforms[k] == Waiting;
      PlatformWaits(e, s, k);
    }
  }

  // ---------------------------------------------------------------------------------------
  // Progress

  ghost predicate CanCopy(e: World, s: System) {
    exists s' :: CopyStep(e, s, s')
  }

  lemma AloneCopies(e: World, s: System, i: nat, g': Shared, p': Proc, spawn: seq<Proc>)
    requires !s.g.panicked && i < |s.procs| && Copying(s.procs[i]) && LocalStep(e, s.g, s.procs[i], g', p', spawn)
    ensures CanCopy(e, s)
  {
    var s' := System(g', s.procs[i := p'] + spawn);
    assert CopyMove(s, Alone(i, p', spawn)) && Moves(e, s, Alone(i, p', spawn), s');
    assert CopyStep(e, s, s');
  }

  lemma StartCopies(e: World, s: System, g': Shared, p: Proc)
    requires !s.g.panicked && Starts(e, s.g, g', p)
    ensures CanCopy(e, s)
  {
    var s' := System(g', s.procs + [p]);
    assert CopyMove(s, Start(p)) && Moves(e, s, Start(p), s');
    assert CopyStep(e, s, s');
  }

  lemma BlobNext(e: World, g: Shared, key: BlobKey, at: BlobPoint) returns (g': Shared, p': Proc)
    requires Ready(e, g, CopyBlob(key, at))
    ensures BlobStep(e, g, key, at, g', p')
    ensures p' == CopyBlob(key, Unlocking(false)) ==> at.Requesting? || at.Transferring?
  {
    g' := g;
    match at
    case Locking =>
      if MutexOf(key) in g.locks { g', p' := g.(attached := g.attached - 1), CopyBlob(key, Detached); }
      else { g', p' := g.(locks := g.locks + {MutexOf(key)}), CopyBlob(key, Checking); }
    case Detached => g', p' := g.(locks := g.locks + {MutexOf(key)}), CopyBlob(key, Reattaching);
    case Reattaching => g', p' := g.(attached := g.attached + 1), CopyBlob(key, Checking);
    case Checking => p' := CopyBlob(key, if key.dst in Sources(g, key.digest) then Unlocking(true) else Heading);
    case Heading => p' := CopyBlob(key, Choosing);
    case Choosing =>
      if Sources(g, key.digest) == {} {
        g', p' := g.(panicked := true), Done;
      } else {
        var source :| source in Sources(g, key.digest);
        var mount := None;
        if r :| r in Sources(g, key.digest) && r.registry == key.dst.registry { mount := Some(r); }
        p' := CopyBlob(key, Requesting(source, mount));
      }
    case Requesting(_, _) => p' := CopyBlob(key, Unlocking(false));
    case Transferring(_) => p' := CopyBlob(key, Unlocking(false));
    case Registering => g', p' := Register(g, key.digest, key.dst), CopyBlob(key, Unlocking(true));
    case Unlocking(ok) =>
      g' := g.(locks := g.locks - {MutexOf(key)}, blobs := g.blobs[key := Result(ok)], attached := g.attached - 1);
      p' := Done;
  }

  lemma PlatformNext(e: World, g: Shared, key: PlatformKey, at: PlatformPoint) returns (g': Shared, p': Proc)
    requires PlatformOk(e, g, key, at) && Ready(e, g, CopyPlatform(key, at))
    ensures PlatformStep(e, g, key, at, g', p')
  {
    g', p' := PlatformDone(g, key, None), Done;
    match at
    case FetchManifest =>
    case RegisterBlobs(doc, left) =>
      if left != [] {
        g', p' := Register(g, left[0], key.src.repo), CopyPlatform(key, RegisterBlobs(doc, left[1..]));
      } else {
        g', p' := InformBlobs(g, key.dst.repo, BlobsOf(e, doc)), CopyPlatform(key, AwaitBlobs(doc, BlobsOf(e, doc)));
      }
    case AwaitBlobs(doc, left) =>
      if left == [] {
        g', p' := g, CopyPlatform(key, UploadManifest(doc));
      } else if g.blobs[BlobKey(left[0], key.dst.repo)].value {
        g', p' := g, CopyPlatform(key, AwaitBlobs(doc, left[1..]));
      }
    case UploadManifest(_) =>
  }

  lemma SpecNext(e: World, g: Shared, spec: Spec, at: SpecPoint) returns (p': Proc, spawn: seq<Proc>)
    requires Ready(e, g, CopySpec(spec, at)) && (at.AwaitPlatforms? ==> |at.got| <= |at.asked|)
    ensures SpecStep(e, g, spec, at, g, p', spawn)
  {
    p', spawn := Done, [];
    match at
    case Looking(dst, src) =>
      if dst.None? {
        p' := CopySpec(spec, Looking(Some(None), src));
      } else if src.Some? {
        p' := CopySpec(spec, Compare(dst.value, src.value));
      }
    case Compare(dstDoc, srcDoc) =>
      spawn := if dstDoc.Some? then [Submitting(spec.dst.repo, dstDoc.value)] else [];
      p' := if dstDoc == Some(srcDoc) && !spec.transform then Mirrored(spec, srcDoc, [], [], srcDoc)
            else CopySpec(spec, Dispatch(srcDoc));
    case AwaitPlatforms(srcDoc, asked, got) =>
      if |got| == |asked| {
        p' := if |got| == 1 then Mirrored(spec, srcDoc, asked, got, got[0])
              else CopySpec(spec, UploadIndex(srcDoc, asked, got));
      } else if g.platforms[asked[|got|]].value.Some? {
        p' := CopySpec(spec, AwaitPlatforms(srcDoc, asked, got + [g.platforms[asked[|got|]].value.value]));
      }
    case _ =>
  }

  lemma ReadyCopies(e: World, s: System, i: nat)
    requires Live(e, s) && i < |s.procs| && Ready(e, s.g, s.procs[i])
    ensures CanCopy(e, s)
  {
    var p := s.procs[i];
    assert ProcOk(e, s.g, p);
    if p.CopySpec? {
      var p', spawn := SpecNext(e, s.g, p.spec, p.sp);
      AloneCopies(e, s, i, s.g, p', spawn);
    } else if p.CopyPlatform? {
      var g', p' := PlatformNext(e, s.g, p.key, p.pp);
      AloneCopies(e, s, i, g', p', []);
    } else {
      var g', p' := BlobNext(e, s.g, p.blob, p.bp);
      AloneCopies(e, s, i, g', p', []);
    }
  }

  lemma Progress(e: World, s: System)
    requires Live(e, s) && !Settled(s)
    ensures CanCopy(e, s)
  {
    SomeoneIsReady(e, s);
    if i: nat :| i < |s.procs| && Ready(e, s.g, s.procs[i]) {
      ReadyCopies(e, s, i);
    } else {
      var g', p :| Starts(e, s.g, g', p);
      StartCopies(e, s, g', p);
    }
  }

  /** The limit holds: at most so many blob copies are ever attached at once. */
  lemma BlobsWithinLimit(e: World, run: seq<System>, n: nat)
    requires WorldOk(e) && Run(e, run) && n < |run|
    ensures Sum(Attached, run[n].procs) <= e.limit
  {
    RunLive(e, run, n);
  }

  /** In every reachable state all copies have ended, or one of the goroutines that copy can move. */
  lemma CopiesNeverStuck(e: World, run: seq<System>, n: nat)
    requires WorldOk(e) && Run(e, run) && n < |run|
    ensures Settled(run[n]) || CanCopy(e, run[n])
  {
    RunLive(e, run, n);
    if !Settled(run[n]) { Progress(e, run[n]); }
  }

  // ---------------------------------------------------------------------------------------
  // The measure: specs not yet dispatched, then manifests to fetch, then sources to register, then work at hand.

  function SpecWeight(p: Proc): int {
    match p
    case CopySpec(_, Looking(dst, src)) => 3 + (if dst.None? then 1 else 0) + (if src.None? then 1 else 0)
    case CopySpec(_, Compare(_, _)) => 2
    case CopySpec(_, Dispatch(_)) => 1
    case _ => 0
  }

  function FetchWeight(p: Proc): int {
    if p.CopyPlatform? && p.pp.FetchManifest? then 1 else 0
  }

  function RegisterWeight(p: Proc): int {
    if p.CopyPlatform? && p.pp.RegisterBlobs? then |p.pp.left| + 1 else 0
  }

  function WorkWeight(p: Proc): int {
    match p
    case CopyBlob(_, at) =>
      (match at
       case Locking => 10
       case Detached => 9
       case Reattaching => 8
       case Checking => 7
       case Heading => 6
       case Choosing => 5
       case Requesting(_, _) => 4
       case Transferring(_) => 3
       case Registering => 2
       case Unlocking(_) => 1)
    case CopyPlatform(_, AwaitBlobs(_, left)) => |left| + 2
    case CopyPlatform(_, UploadManifest(_)) => 1
    case CopySpec(_, AwaitPlatforms(_, asked, got)) => Max(0, |asked| - |got|) + 2
    case CopySpec(_, UploadIndex(_, _, _)) => 1
    case _ => 0
  }

  ghost function WaitingIn<K, T>(tasks: map<K, Task<T>>): set<K> {
    set k <- tasks | tasks[k] == Waiting
  }

  datatype Rank = Rank(specs: int, fetches: int, registers: int, work: int)

  predicate Below(a: Rank, b: Rank) {
    || a.specs < b.specs
    || (a.specs == b.specs
        && ( || a.fetches < b.fetches
             || (a.fetches == b.fetches
                 && (a.registers < b.registers || (a.registers == b.registers && a.work < b.work)))))
  }

  ghost function Measure(s: System): Rank {
    Rank(Sum(SpecWeight, s.procs),
         Sum(FetchWeight, s.procs) + 2 * |WaitingIn(s.g.platforms)|,
         Sum(RegisterWeight, s.procs),
         Sum(WorkWeight, s.procs) + 11 * |WaitingIn(s.g.blobs)|)
  }

  /** The share of one goroutine and the shared state. */
  ghost function Share(g: Shared, p: Proc): Rank {
    Rank(SpecWeight(p), FetchWeight(p) + 2 * |WaitingIn(g.platforms)|,
         RegisterWeight(p), WorkWeight(p) + 11 * |WaitingIn(g.blobs)|)
  }

  lemma ResultsDoNotWait<K, T>(tasks: map<K, Task<T>>, k: K, t: T)
    ensures |WaitingIn(tasks[k := Result(t)])| <= |WaitingIn(tasks)|
  {
    SubsetSize(WaitingIn(tasks[k := Result(t)]), WaitingIn(tasks));
  }

  lemma BlobFalls(g: Shared, key: BlobKey, at: BlobPoint, g': Shared, p': Proc)
    requires BlobEffect(g, key, at, g', p')
    ensures Below(Share(g', p'), Share(g, CopyBlob(key, at)))
  {
    if at.Unlocking? { ResultsDoNotWait(g.blobs, key, at.ok); }
  }

  lemma PlatformFalls(e: World, g: Shared, key: PlatformKey, at: PlatformPoint, g': Shared, p': Proc)
    requires PlatformEffect(e, g, key, at, g', p')
    ensures Below(Share(g', p'), Share(g, CopyPlatform(key, at)))
  {
    if p' == Done { ResultsDoNotWait(g.platforms, key, g'.platforms[key].value); }
  }

  lemma SpecFalls(g: Shared, p: Proc, g': Shared, p': Proc)
    requires p.CopySpec? && SpecEffect(g, p, g', p')
    ensures Below(Share(g', p'), Share(g, p))
  {}

  lemma IndexerLevel(e: World, g: Shared, p: Proc, g': Shared, p': Proc, spawn: seq<Proc>)
    requires !Copying(p) && LocalStep(e, g, p, g', p', spawn)
    ensures Share(g', p') == Share(g, p)
  {}

  lemma AloneMeasure(e: World, s: System, move: Move, s': System)
    requires move.Alone? && Moves(e, s, move, s') && !s'.g.panicked
    ensures Copying(s.procs[move.i]) ==> Below(Measure(s'), Measure(s))
    ensures !Copying(s.procs[move.i]) ==> Measure(s') == Measure(s)
  {
    var p, p', spawn := s.procs[move.i], move.p, move.spawn;
    SpawnedIndex(e, s.g, p, s'.g, p', spawn);
    SumAlone(SpecWeight, s.procs, move.i, p', spawn);
    SumAlone(FetchWeight, s.procs, move.i, p', spawn);
    SumAlone(RegisterWeight, s.procs, move.i, p', spawn);
    SumAlone(WorkWeight, s.procs, move.i, p', spawn);
    LocalFalls(e, s.g, p, s'.g, p', spawn);
  }

  lemma LocalFalls(e: World, g: Shared, p: Proc, g': Shared, p': Proc, spawn: seq<Proc>)
    requires LocalStep(e, g, p, g', p', spawn) && !g'.panicked
    ensures if Copying(p) then Below(Share(g', p'), Share(g, p)) else Share(g', p') == Share(g, p)
  {
    if p.CopySpec? {
      SpecEffects(e, g, p, g', p', spawn);
      SpecFalls(g, p, g', p');
    } else if p.CopyPlatform? {
      PlatformEffects(e, g, p.key, p.pp, g', p');
      PlatformFalls(e, g, p.key, p.pp, g', p');
    } else if p.CopyBlob? {
      BlobEffects(e, g, p.blob, p.bp, g', p');
      BlobFalls(g, p.blob, p.bp, g', p');
    } else {
      IndexerLevel(e, g, p, g', p', spawn);
    }
  }

  lemma StartFalls(e: World, s: System, move: Move, s': System)
    requires move.Start? && Moves(e, s, move, s')
    ensures Below(Measure(s'), Measure(s))
  {
    var p := move.p;
    SumSnoc(SpecWeight, s.procs, p);
    SumSnoc(FetchWeight, s.procs, p);
    SumSnoc(RegisterWeight, s.procs, p);
    SumSnoc(WorkWeight, s.procs, p);
    if p.CopyBlob? {
      assert WaitingIn(s'.g.blobs) == WaitingIn(s.g.blobs) - {p.blob};
    } else {
      assert WaitingIn(s'.g.platforms) == WaitingIn(s.g.platforms) - {p.key};
    }
  }

  /** Every move of a copy brings its end nearer, and no move of anyone else puts it off. */
  lemma MoveFalls(e: World, s: System, move: Move, s': System)
    requires Moves(e, s, move, s') && !s'.g.panicked
    ensures CopyMove(s, move) ==> Below(Measure(s'), Measure(s))
    ensures !CopyMove(s, move) ==> Measure(s') == Measure(s)
  {
    if move.Alone? {
      AloneMeasure(e, s, move, s');
    } else if move.Start? {
      StartFalls(e, s, move, s');
    }
  }

  lemma MeasureNonNegative(s: System)
    ensures Natural(Measure(s))
  {
    SumNonNegative(SpecWeight, s.procs);
    SumNonNegative(FetchWeight, s.procs);
    SumNonNegative(RegisterWeight, s.procs);
    SumNonNegative(WorkWeight, s.procs);
  }

  /** A history that never ends: runs of the system, and who moves in each step. */
  ghost predicate History(e: World, run: nat -> System, moves: nat -> Move) {
    && WorldOk(e) && Init(e, run(0))
    && forall k: nat, l: nat {:trigger moves(k), run(l)} | l == k + 1 :: Moves(e, run(k), moves(k), run(l))
  }

  lemma {:induction false} HistoryLive(e: World, run: nat -> System, moves: nat -> Move, n: nat)
    requires History(e, run, moves)
    ensures Live(e, run(n))
  {
    if n == 0 {
      InitLive(e, run(0));
    } else {
      HistoryLive(e, run, moves, n - 1);
      assert Moves(e, run(n - 1), moves(n - 1), run(n));
      assert Step(e, run(n - 1), run(n));
      StepLive(e, run(n - 1), run(n));
    }
  }

  lemma HistoryFalls(e: World, run: nat -> System, moves: nat -> Move, n: nat)
    requires History(e, run, moves)
    ensures if CopyMove(run(n), moves(n)) then Below(Measure(run(n + 1)), Measure(run(n)))
      else Measure(run(n + 1)) == Measure(run(n))
  {
    HistoryLive(e, run, moves, n + 1);
    assert Moves(e, run(n), moves(n), run(n + 1));
    MoveFalls(e, run(n), moves(n), run(n + 1));
  }

  ghost predicate Natural(m: Rank) {
    m.specs >= 0 && m.fetches >= 0 && m.registers >= 0 && m.work >= 0
  }

  /** A rank that falls with each event, and otherwise stays, allows only so many. */
  ghost predicate FallsWith(rank: nat -> Rank, event: nat -> bool) {
    && (forall k: nat :: Natural(rank(k)))
    && forall k: nat, l: nat {:trigger event(k), rank(l)} | l == k + 1 ::
         if event(k) then Below(rank(l), rank(k)) else rank(l) == rank(k)
  }

  lemma {:induction false} NeverRises(rank: nat -> Rank, event: nat -> bool, n: nat, k: nat)
    requires n <= k && FallsWith(rank, event)
    ensures rank(k) == rank(n) || Below(rank(k), rank(n))
  {
    if n < k {
      NeverRises(rank, event, n, k - 1);
      assert if event(k - 1) then Below(rank(k), rank(k - 1)) else rank(k) == rank(k - 1);
    }
  }

  lemma {:induction false} EventsStop(rank: nat -> Rank, event: nat -> bool, n: nat) returns (last: nat)
    requires FallsWith(rank, event)
    ensures last >= n && forall k: nat | k >= last :: !event(k)
    decreases rank(n).specs, rank(n).fetches, rank(n).registers, rank(n).work
  {
    last := n;
    if k: nat :| k >= n && event(k) {
      NeverRises(rank, event, n, k);
      assert Below(rank(k + 1), rank(k)) && Natural(rank(n));
      last := EventsStop(rank, event, k + 1);
    }
  }

  /** In a history that never ends, whatever else goes on, from some point on nothing is copied any more. */
  lemma CopyingStops(e: World, run: nat -> System, moves: nat -> Move) returns (last: nat)
    requires History(e, run, moves)
    ensures forall k: nat | k >= last :: !CopyMove(run(k), moves(k))
  {
    var rank, event := (k: nat) => Measure(run(k)), (k: nat) => CopyMove(run(k), moves(k));
    forall k: nat ensures Natural(rank(k)) { MeasureNonNegative(run(k)); }
    forall k: nat, l: nat | l == k + 1 ensures if event(k) then Below(rank(l), rank(k)) else rank(l) == rank(k) {
      HistoryFalls(e, run, moves, k);
    }
    last := EventsStop(rank, event, 0);
    forall k: nat | k >= last ensures !CopyMove(run(k), moves(k)) { assert !event(k); }
  }

  ghost predicate CopySteps(e: World, run: seq<System>) {
    forall n :: 0 <= n < |run| - 1 ==> CopyStep(e, run[n], run[n + 1])
  }

  lemma CopyStepsFrom(e: World, s: System, run: seq<System>)
    requires run != [] && CopySteps(e, run) && CopyStep(e, s, run[0])
    ensures var all := [s] + run; CopySteps(e, all) && all[0] == s && all[|all| - 1] == run[|run| - 1]
  {
    var all := [s] + run;
    forall n | 0 <= n < |all| - 1 ensures CopyStep(e, all[n], all[n + 1]) {
      if n > 0 { assert all[n] == run[n - 1] && all[n + 1] == run[n]; }
    }
  }

  lemma CopyStepLive(e: World, s: System, s': System)
    requires Live(e, s) && CopyStep(e, s, s')
    ensures Live(e, s') && Below(Measure(s'), Measure(s)) && Natural(Measure(s))
  {
    var move :| CopyMove(s, move) && Moves(e, s, move, s');
    assert Step(e, s, s');
    StepLive(e, s, s');
    MoveFalls(e, s, move, s');
    MeasureNonNegative(s);
  }

  /** From every reachable state the copies, left to themselves, come to an end. */
  lemma {:induction false} CopiesFinish(e: World, s: System) returns (run: seq<System>)
    requires Live(e, s)
    ensures run != [] && run[0] == s && CopySteps(e, run)
    ensures Live(e, run[|run| - 1]) && Settled(run[|run| - 1])
    decreases Measure(s).specs, Measure(s).fetches, Measure(s).registers, Measure(s).work
  {
    if Settled(s) {
      run := [s];
    } else {
      Progress(e, s);
      var s' :| CopyStep(e, s, s');
      CopyStepLive(e, s, s');
      var rest := CopiesFinish(e, s');
      CopyStepsFrom(e, s, rest);
      run := [s] + rest;
    }
  }
}
