/** Each platform and each blob is copied by one goroutine, once, however often it is asked for. */
module MirrorTasks {
  import opened Mirror
  import opened MirrorTransfers
  import opened MirrorLiveness
  import opened MirrorCauses

  /** Whoever copies the blob has its task running, and is the only one. */
  ghost predicate OneForBlob(s: System, k: BlobKey) {
    && (forall i | 0 <= i < |s.procs| && RunsBlob(s.procs[i], k) :: k in s.g.blobs && s.g.blobs[k] == Running)
    && (forall i, j | 0 <= i < |s.procs| && 0 <= j < |s.procs| && RunsBlob(s.procs[i], k) && RunsBlob(s.procs[j], k) ::
          i == j)
  }

  ghost predicate OneForPlatform(s: System, k: PlatformKey) {
    && (forall i | 0 <= i < |s.procs| && RunsPlatform(s.procs[i], k) :: k in s.g.platforms && s.g.platforms[k] == Running)
    && (forall i, j | 0 <= i < |s.procs| && 0 <= j < |s.procs| && RunsPlatform(s.procs[i], k)
          && RunsPlatform(s.procs[j], k) :: i == j)
  }

  ghost predicate OneRunner(s: System) {
    (forall k :: OneForBlob(s, k)) && (forall k :: OneForPlatform(s, k))
  }

  /** A step of a goroutine: it goes on with its own key or ends that task, and touches no other. */
  ghost predicate OwnTasksOnly(g: Shared, p: Proc, g': Shared, p': Proc) {
    && (forall k | RunsBlob(p', k) :: RunsBlob(p, k))
    && (forall k | RunsPlatform(p', k) :: RunsPlatform(p, k))
    && (forall k <- g.blobs :: k in g'.blobs && (g'.blobs[k] == g.blobs[k]
          || (RunsBlob(p, k) && !RunsBlob(p', k) && g'.blobs[k].Result?)))
    && (forall k <- g.platforms :: k in g'.platforms && (g'.platforms[k] == g.platforms[k]
          || (RunsPlatform(p, k) && !RunsPlatform(p', k) && g'.platforms[k].Result?)))
  }

  lemma BlobOwn(g: Shared, key: BlobKey, at: BlobPoint, g': Shared, p': Proc)
    requires BlobEffect(g, key, at, g', p')
    ensures OwnTasksOnly(g, CopyBlob(key, at), g', p')
  {}

  lemma PlatformOwn(e: World, g: Shared, key: PlatformKey, at: PlatformPoint, g': Shared, p': Proc)
    requires PlatformEffect(e, g, key, at, g', p')
    ensures OwnTasksOnly(g, CopyPlatform(key, at), g', p')
  {}

  lemma SpecOwn(g: Shared, p: Proc, g': Shared, p': Proc)
    requires p.CopySpec? && SpecEffect(g, p, g', p')
    ensures OwnTasksOnly(g, p, g', p')
  {}

  lemma LocalOwn(e: World, g: Shared, p: Proc, g': Shared, p': Proc, spawn: seq<Proc>)
    requires LocalStep(e, g, p, g', p', spawn) && !g'.panicked
    ensures OwnTasksOnly(g, p, g', p') && forall q <- spawn :: !Copying(q)
  {
    SpawnedIndex(e, g, p, g', p', spawn);
    if p.CopyBlob? {
      BlobEffects(e, g, p.blob, p.bp, g', p');
      BlobOwn(g, p.blob, p.bp, g', p');
    } else if p.CopyPlatform? {
      PlatformEffects(e, g, p.key, p.pp, g', p');
      PlatformOwn(e, g, p.key, p.pp, g', p');
    } else if p.CopySpec? {
      SpecEffects(e, g, p, g', p', spawn);
      SpecOwn(g, p, g', p');
    } else {
      IndexerErrors(e, g, p, g', p', spawn);
    }
  }

  /** A task that has a result keeps it. */
  ghost predicate ResultsStay(g: Shared, g': Shared) {
    && (forall k <- g.blobs | g.blobs[k].Result? :: k in g'.blobs && g'.blobs[k] == g.blobs[k])
    && (forall k <- g.platforms | g.platforms[k].Result? :: k in g'.platforms && g'.platforms[k] == g.platforms[k])
  }

  lemma AloneOneForBlob(e: World, s: System, move: Move, s': System, k: BlobKey)
    requires OneForBlob(s, k) && move.Alone? && Moves(e, s, move, s') && !s'.g.panicked
    ensures OneForBlob(s', k)
  {
    LocalOwn(e, s.g, s.procs[move.i], s'.g, move.p, move.spawn);
  }

  lemma AloneOneForPlatform(e: World, s: System, move: Move, s': System, k: PlatformKey)
    requires OneForPlatform(s, k) && move.Alone? && Moves(e, s, move, s') && !s'.g.panicked
    ensures OneForPlatform(s', k)
  {
    LocalOwn(e, s.g, s.procs[move.i], s'.g, move.p, move.spawn);
  }

  lemma AloneResults(e: World, s: System, move: Move, s': System)
    requires OneRunner(s) && move.Alone? && Moves(e, s, move, s') && !s'.g.panicked
    ensures ResultsStay(s.g, s'.g)
  {
    var p := s.procs[move.i];
    LocalOwn(e, s.g, p, s'.g, move.p, move.spawn);
    forall k | k in s.g.blobs && s.g.blobs[k].Result? ensures k in s'.g.blobs && s'.g.blobs[k] == s.g.blobs[k] {
      assert OneForBlob(s, k);
    }
    forall k | k in s.g.platforms && s.g.platforms[k].Result?
      ensures k in s'.g.platforms && s'.g.platforms[k] == s.g.platforms[k]
    {
      assert OneForPlatform(s, k);
    }
  }

  lemma StartOneForBlob(e: World, s: System, move: Move, s': System, k: BlobKey)
    requires OneForBlob(s, k) && !move.Alone? && Moves(e, s, move, s')
    ensures OneForBlob(s', k)
  {}

  lemma StartOneForPlatform(e: World, s: System, move: Move, s': System, k: PlatformKey)
    requires OneForPlatform(s, k) && !move.Alone? && Moves(e, s, move, s')
    ensures OneForPlatform(s', k)
  {}

  lemma MoveRunners(e: World, s: System, move: Move, s': System)
    requires OneRunner(s) && Moves(e, s, move, s') && !s'.g.panicked
    ensures OneRunner(s') && ResultsStay(s.g, s'.g)
  {
    forall k ensures OneForBlob(s', k) {
      if move.Alone? { AloneOneForBlob(e, s, move, s', k); } else { StartOneForBlob(e, s, move, s', k); }
    }
    forall k ensures OneForPlatform(s', k) {
      if move.Alone? { AloneOneForPlatform(e, s, move, s', k); } else { StartOneForPlatform(e, s, move, s', k); }
    }
    if move.Alone? { AloneResults(e, s, move, s'); }
  }

  /** At every point of every run no two goroutines copy the same platform, or the same blob to the same repository. */
  lemma {:induction false} CopiedByOne(e: World, run: seq<System>, moves: seq<Move>, n: nat)
    requires WorldOk(e) && Trace(e, run, moves) && n < |run|
    ensures OneRunner(run[n])
  {
    if n == 0 {
      forall i | 0 <= i < |run[0].procs| ensures run[0].procs[i].CopySpec? { assert run[0].procs[i] in run[0].procs; }
    } else {
      CopiedByOne(e, run, moves, n - 1);
      TraceLive(e, run, moves, n);
      MoveRunners(e, run[n - 1], moves[n - 1], run[n]);
    }
  }

  /** And once copied, or failed, it is not copied again: whoever asks for it later gets the same result. */
  lemma {:induction false} CopiedOnce(e: World, run: seq<System>, moves: seq<Move>, m: nat, n: nat)
    requires WorldOk(e) && Trace(e, run, moves) && m <= n < |run|
    ensures ResultsStay(run[m].g, run[n].g)
  {
    if m < n {
      CopiedOnce(e, run, moves, m, n - 1);
      CopiedByOne(e, run, moves, n - 1);
      TraceLive(e, run, moves, n);
      MoveRunners(e, run[n - 1], moves[n - 1], run[n]);
    }
  }
}
