/** Where errors come from: a spec fails only by a failure of its own, of its platforms or of their blobs. */
module MirrorCauses {
  import opened Names
  import opened Mirror
  import opened MirrorSafety
  import opened MirrorLiveness

  /** The step is the failure of a request, or finds a source that is not what it should be. */
  ghost predicate Fails(p: Proc, g': Shared, p': Proc) {
    match p
    case CopySpec(_, at) => p' == Done && !at.AwaitPlatforms?
    case CopyPlatform(key, at) =>
      || (at.FetchManifest? && p' == Done)
      || (at.UploadManifest? && key in g'.platforms && g'.platforms[key] == Result(None))
    case CopyBlob(key, _) => p' == CopyBlob(key, Unlocking(false))
    case _ => false
  }

  /** A run together with the moves it is made of. */
  ghost predicate Trace(e: World, run: seq<System>, moves: seq<Move>) {
    && run != [] && Init(e, run[0]) && |moves| == |run| - 1
    && forall n, k {:trigger moves[n], run[k]} | 0 <= n < k < |run| && k == n + 1 :: Moves(e, run[n], moves[n], run[k])
  }

  function Last(run: seq<System>): System
    requires run != []
  {
    run[|run| - 1]
  }

  ghost predicate FailedAt(run: seq<System>, moves: seq<Move>, k: nat) {
    && k < |moves| && k + 1 < |run| && moves[k].Alone? && moves[k].i < |run[k].procs|
    && Fails(run[k].procs[moves[k].i], run[k + 1].g, moves[k].p)
  }

  lemma TraceIsRun(e: World, run: seq<System>, moves: seq<Move>)
    requires Trace(e, run, moves)
    ensures Run(e, run)
  {
    forall n, k | 0 <= n < k < |run| && k == n + 1 ensures Step(e, run[n], run[k]) {
      assert Moves(e, run[n], moves[n], run[k]);
    }
  }

  lemma TraceLive(e: World, run: seq<System>, moves: seq<Move>, n: nat)
    requires WorldOk(e) && Trace(e, run, moves) && n < |run|
    ensures Live(e, run[n]) && (n > 0 ==> Moves(e, run[n - 1], moves[n - 1], run[n]))
  {
    TraceIsRun(e, run, moves);
    RunLive(e, run, n);
  }

  // ---------------------------------------------------------------------------------------
  // Errors, and what they can come from in one step

  datatype Trouble = SpecEnded(i: nat) | NoPlatform(key: PlatformKey) | NoBlob(blob: BlobKey)

  ghost predicate Troubled(s: System, t: Trouble) {
    match t
    case SpecEnded(i) => i < |s.procs| && s.procs[i] == Done
    case NoPlatform(key) => key in s.g.platforms && s.g.platforms[key] == Result(None)
    case NoBlob(blob) =>
      (blob in s.g.blobs && s.g.blobs[blob] == Result(false)) || CopyBlob(blob, Unlocking(false)) in s.procs
  }

  /** The goroutine whose trouble it is. */
  predicate Troubles(i: nat, p: Proc, t: Trouble) {
    match t
    case SpecEnded(j) => p.CopySpec? && i == j
    case NoPlatform(key) => RunsPlatform(p, key)
    case NoBlob(blob) => RunsBlob(p, blob)
  }

  /** A copy of a spec that waits for the platform, among those it has selected. */
  predicate Awaits(p: Proc, key: PlatformKey) {
    p.CopySpec? && p.sp.AwaitPlatforms? && key in p.sp.asked
  }

  /** The blob is one of the platform's manifest. */
  ghost predicate Uses(e: World, g: Shared, key: PlatformKey, blob: BlobKey) {
    && key.src in g.srcManifests && e.parsed(g.srcManifests[key.src]).Manifest?
    && blob.dst == key.dst.repo && blob.digest in BlobsOf(e, g.srcManifests[key.src])
  }

  /** The goroutine waits for something else that is in trouble. */
  ghost predicate Inherits(e: World, s: System, p: Proc) {
    || (p.CopySpec? && exists key :: Awaits(p, key) && Troubled(s, NoPlatform(key)))
    || (p.CopyPlatform? && exists blob :: Uses(e, s.g, p.key, blob) && Troubled(s, NoBlob(blob)))
  }

  lemma SpecTrouble(e: World, s: System, p: Proc, g': Shared, p': Proc, spawn: seq<Proc>)
    requires p.CopySpec? && ProcOk(e, s.g, p) && SpecStep(e, s.g, p.spec, p.sp, g', p', spawn) && p' == Done
    ensures Fails(p, g', p') || Inherits(e, s, p)
  {
    if p.sp.AwaitPlatforms? {
      var key := p.sp.asked[|p.sp.got|];
      assert Awaits(p, key) && Troubled(s, NoPlatform(key));
    }
  }

  lemma PlatformTrouble(e: World, s: System, p: Proc, g': Shared, p': Proc)
    requires p.CopyPlatform? && ProcOk(e, s.g, p) && PlatformStep(e, s.g, p.key, p.pp, g', p')
    requires p.key in g'.platforms && g'.platforms[p.key] == Result(None) && g'.platforms != s.g.platforms
    ensures Fails(p, g', p') || Inherits(e, s, p)
  {
    PlatformEffects(e, s.g, p.key, p.pp, g', p');
    if p.pp.AwaitBlobs? {
      var blob := BlobKey(p.pp.left[0], p.key.dst.repo);
      assert p.pp.left[0] in BlobsOf(e, p.pp.doc);
      assert Uses(e, s.g, p.key, blob) && Troubled(s, NoBlob(blob));
    }
  }

  /** The errors a step of one goroutine makes are its own. */
  lemma ErrorsMade(e: World, g: Shared, p: Proc, g': Shared, p': Proc, spawn: seq<Proc>)
    requires LocalStep(e, g, p, g', p', spawn) && !g'.panicked
    ensures forall key | key in g'.platforms && g'.platforms[key] == Result(None) ::
      (key in g.platforms && g.platforms[key] == Result(None)) || RunsPlatform(p, key)
    ensures forall blob | blob in g'.blobs && g'.blobs[blob] == Result(false) ::
      (blob in g.blobs && g.blobs[blob] == Result(false)) || p == CopyBlob(blob, Unlocking(false))
    ensures p'.CopyBlob? ==> RunsBlob(p, p'.blob)
  {
    if p.CopySpec? {
      SpecEffects(e, g, p, g', p', spawn);
    } else if p.CopyPlatform? {
      PlatformEffects(e, g, p.key, p.pp, g', p');
    } else if p.CopyBlob? {
      BlobEffects(e, g, p.blob, p.bp, g', p');
    } else {
      IndexerErrors(e, g, p, g', p', spawn);
    }
  }

  lemma IndexerErrors(e: World, g: Shared, p: Proc, g': Shared, p': Proc, spawn: seq<Proc>)
    requires !Copying(p) && LocalStep(e, g, p, g', p', spawn)
    ensures g'.platforms == g.platforms && g'.blobs == g.blobs && !Copying(p') && g'.held == g.held
    ensures g'.srcManifests == g.srcManifests
  {}

  lemma TroubleArrives(s: System, move: Move, s': System, e: World, t: Trouble)
    requires !move.Alone? && Moves(e, s, move, s') && Troubled(s', t) && (t.SpecEnded? ==> t.i < |s.procs|)
    ensures Troubled(s, t)
  {}

  /** New trouble is the doing of the goroutine concerned, which failed or has inherited it. */
  lemma NewTrouble(e: World, s: System, move: Move, s': System, t: Trouble)
    requires Inv(e, s) && Moves(e, s, move, s') && !s'.g.panicked && !Troubled(s, t) && Troubled(s', t)
    requires t.SpecEnded? ==> t.i < |s.procs| && s.procs[t.i].CopySpec?
    ensures move.Alone? && Troubles(move.i, s.procs[move.i], t)
    ensures Fails(s.procs[move.i], s'.g, move.p) || Inherits(e, s, s.procs[move.i])
  {
    if !move.Alone? {
      TroubleArrives(s, move, s', e, t);
    } else {
      var p := s.procs[move.i];
      assert p in s.procs && ProcOk(e, s.g, p);
      ErrorsMade(e, s.g, p, s'.g, move.p, move.spawn);
      SpawnedIndex(e, s.g, p, s'.g, move.p, move.spawn);
      match t
      case SpecEnded(_) => SpecTrouble(e, s, p, s'.g, move.p, move.spawn);
      case NoPlatform(_) => PlatformTrouble(e, s, p, s'.g, move.p);
      case NoBlob(blob) => assert CopyBlob(blob, Unlocking(false)) in s'.procs ==> move.p == CopyBlob(blob, Unlocking(false));
    }
  }

  // ---------------------------------------------------------------------------------------
  // Where errors come from over a run

  lemma {:induction false} BlobCause(e: World, run: seq<System>, moves: seq<Move>, n: nat, blob: BlobKey)
    returns (k: nat)
    requires WorldOk(e) && Trace(e, run, moves) && n < |run| && Troubled(run[n], NoBlob(blob))
    ensures k < n && FailedAt(run, moves, k) && RunsBlob(run[k].procs[moves[k].i], blob)
  {
    TraceLive(e, run, moves, n);
    TraceLive(e, run, moves, n - 1);
    if Troubled(run[n - 1], NoBlob(blob)) {
      k := BlobCause(e, run, moves, n - 1, blob);
    } else {
      NewTrouble(e, run[n - 1], moves[n - 1], run[n], NoBlob(blob));
      k := n - 1;
    }
  }

  /** The goroutine copies the platform, or one of its blobs. */
  ghost predicate ForPlatform(e: World, g: Shared, key: PlatformKey, p: Proc) {
    RunsPlatform(p, key) || (p.CopyBlob? && Uses(e, g, key, p.blob))
  }

  lemma UsesEvolves(e: World, g: Shared, g': Shared, key: PlatformKey, p: Proc)
    requires Evolves(g, g') && ForPlatform(e, g, key, p)
    ensures ForPlatform(e, g', key, p)
  {}

  lemma {:induction false} PlatformCause(e: World, run: seq<System>, moves: seq<Move>, n: nat, key: PlatformKey)
    returns (k: nat)
    requires WorldOk(e) && Trace(e, run, moves) && n < |run| && Troubled(run[n], NoPlatform(key))
    ensures k < n && FailedAt(run, moves, k) && ForPlatform(e, run[n].g, key, run[k].procs[moves[k].i])
  {
    TraceLive(e, run, moves, n);
    TraceLive(e, run, moves, n - 1);
    var s := run[n - 1];
    if Troubled(s, NoPlatform(key)) {
      k := PlatformCause(e, run, moves, n - 1, key);
    } else {
      NewTrouble(e, s, moves[n - 1], run[n], NoPlatform(key));
      k := n - 1;
      if !FailedAt(run, moves, k) {
        var blob :| Uses(e, s.g, key, blob) && Troubled(s, NoBlob(blob));
        k := BlobCause(e, run, moves, n - 1, blob);
      }
    }
    MoveKeeps(e, s, moves[n - 1], run[n]);
    UsesEvolves(e, s.g, run[n].g, key, run[k].procs[moves[k].i]);
  }

  /** By that point of the run the copy of the spec at i has asked for the platform. */
  ghost predicate AskedBy(run: seq<System>, n: nat, i: nat, key: PlatformKey) {
    exists m: nat :: m <= n && m < |run| && i < |run[m].procs| && Awaits(run[m].procs[i], key)
  }

  /** The goroutine copies the spec at i, or a platform that has asked for, or a blob of such a platform. */
  ghost predicate ForSpec(e: World, run: seq<System>, n: nat, i: nat, j: nat, p: Proc)
    requires n < |run|
  {
    (p.CopySpec? && j == i) || exists key :: AskedBy(run, n, i, key) && ForPlatform(e, run[n].g, key, p)
  }

  lemma ForSpecEvolves(e: World, run: seq<System>, m: nat, n: nat, i: nat, j: nat, p: Proc)
    requires m <= n < |run| && Evolves(run[m].g, run[n].g) && ForSpec(e, run, m, i, j, p)
    ensures ForSpec(e, run, n, i, j, p)
  {
    if key :| AskedBy(run, m, i, key) && ForPlatform(e, run[m].g, key, p) {
      assert AskedBy(run, n, i, key);
      UsesEvolves(e, run[m].g, run[n].g, key, p);
    }
  }

  /** What a spec has asked for is what was selected from its source. */
  lemma AskedIsSelected(e: World, run: seq<System>, moves: seq<Move>, n: nat, i: nat, key: PlatformKey)
    returns (asked: seq<PlatformKey>)
    requires WorldOk(e) && Trace(e, run, moves) && n < |run| && i < |run[0].procs| && AskedBy(run, n, i, key)
    ensures run[0].procs[i].CopySpec? && key in asked
    ensures var spec := run[0].procs[i].spec;
      spec.src in run[n].g.srcManifests && Asks(e, spec, run[n].g.srcManifests[spec.src], asked)
  {
    var m: nat :| m <= n && m < |run| && i < |run[m].procs| && Awaits(run[m].procs[i], key);
    asked := run[m].procs[i].sp.asked;
    SpecFate(e, run, moves, m, i);
    TraceLive(e, run, moves, m);
    assert ProcOk(e, run[m].g, run[m].procs[i]);
    CacheStays(e, run, moves, m, n);
  }

  lemma {:induction false} CacheStays(e: World, run: seq<System>, moves: seq<Move>, m: nat, n: nat)
    requires WorldOk(e) && Trace(e, run, moves) && m <= n < |run|
    ensures Extends(run[m].g.srcManifests, run[n].g.srcManifests)
  {
    if m < n {
      CacheStays(e, run, moves, m, n - 1);
      TraceLive(e, run, moves, n);
      TraceLive(e, run, moves, n - 1);
      MoveKeeps(e, run[n - 1], moves[n - 1], run[n]);
    }
  }

  /** A spec that has not ended in error. */
  predicate OnTrack(spec: Spec, p: Proc) {
    (p.CopySpec? || p.Mirrored?) && p.spec == spec
  }

  lemma SpecMoves(e: World, s: System, move: Move, s': System, i: nat, spec: Spec)
    requires Moves(e, s, move, s') && i < |s.procs| && (s.procs[i] == Done || OnTrack(spec, s.procs[i]))
    ensures i < |s'.procs| && (s'.procs[i] == Done || OnTrack(spec, s'.procs[i]))
    ensures s.procs[i] == Done || s.procs[i].Mirrored? ==> s'.procs[i] == s.procs[i]
  {
    if move.Alone? && move.i == i && s.procs[i].CopySpec? {
      SpecEffects(e, s.g, s.procs[i], s'.g, move.p, move.spawn);
      SpecStays(e, s.g, s.procs[i], s'.g, move.p, move.spawn);
    }
  }

  lemma SpecStays(e: World, g: Shared, p: Proc, g': Shared, p': Proc, spawn: seq<Proc>)
    requires p.CopySpec? && SpecStep(e, g, p.spec, p.sp, g', p', spawn)
    ensures p' == Done || OnTrack(p.spec, p')
  {}

  lemma {:induction false} SpecFate(e: World, run: seq<System>, moves: seq<Move>, n: nat, i: nat)
    requires Trace(e, run, moves) && n < |run| && i < |run[0].procs|
    ensures run[0].procs[i].CopySpec? && i < |run[n].procs|
    ensures run[n].procs[i] == Done || OnTrack(run[0].procs[i].spec, run[n].procs[i])
  {
    assert run[0].procs[i] in run[0].procs;
    if n > 0 {
      SpecFate(e, run, moves, n - 1, i);
      assert Moves(e, run[n - 1], moves[n - 1], run[n]);
      SpecMoves(e, run[n - 1], moves[n - 1], run[n], i, run[0].procs[i].spec);
    }
  }

  /**
   * A spec ends in error only if at some earlier moment a step of its own failed, or one of the
   * copy of a platform it had asked for, or of a blob of such a platform.
   */
  lemma {:induction false} ErrorHasCause(e: World, run: seq<System>, moves: seq<Move>, n: nat, i: nat)
    returns (k: nat)
    requires WorldOk(e) && Trace(e, run, moves) && n < |run| && i < |run[0].procs| && Troubled(run[n], SpecEnded(i))
    ensures k < n && FailedAt(run, moves, k) && ForSpec(e, run, n, i, moves[k].i, run[k].procs[moves[k].i])
  {
    SpecFate(e, run, moves, 0, i);
    TraceLive(e, run, moves, n);
    TraceLive(e, run, moves, n - 1);
    SpecFate(e, run, moves, n - 1, i);
    if Troubled(run[n - 1], SpecEnded(i)) {
      k := ErrorHasCause(e, run, moves, n - 1, i);
    } else {
      k := EndHasCause(e, run, moves, n, i, run[0].procs[i].spec);
    }
    MoveKeeps(e, run[n - 1], moves[n - 1], run[n]);
    ForSpecEvolves(e, run, n - 1, n, i, moves[k].i, run[k].procs[moves[k].i]);
  }

  /** The same for the step in which it ends. */
  lemma EndHasCause(e: World, run: seq<System>, moves: seq<Move>, n: nat, i: nat, spec: Spec) returns (k: nat)
    requires WorldOk(e) && Trace(e, run, moves) && 0 < n < |run| && Live(e, run[n - 1]) && Live(e, run[n])
    requires i < |run[n - 1].procs| && OnTrack(spec, run[n - 1].procs[i]) && Troubled(run[n], SpecEnded(i))
    ensures k < n && FailedAt(run, moves, k) && ForSpec(e, run, n - 1, i, moves[k].i, run[k].procs[moves[k].i])
  {
    var s := run[n - 1];
    assert Moves(e, s, moves[n - 1], run[n]);
    SpecMoves(e, s, moves[n - 1], run[n], i, spec);
    NewTrouble(e, s, moves[n - 1], run[n], SpecEnded(i));
    k := n - 1;
    if !FailedAt(run, moves, k) { k := AwaitedHasCause(e, run, moves, n - 1, i); }
  }

  lemma AwaitedHasCause(e: World, run: seq<System>, moves: seq<Move>, n: nat, i: nat) returns (k: nat)
    requires WorldOk(e) && Trace(e, run, moves) && n < |run| && i < |run[n].procs|
    requires exists key :: Awaits(run[n].procs[i], key) && Troubled(run[n], NoPlatform(key))
    ensures k < n && FailedAt(run, moves, k) && ForSpec(e, run, n, i, moves[k].i, run[k].procs[moves[k].i])
  {
    var key :| Awaits(run[n].procs[i], key) && Troubled(run[n], NoPlatform(key));
    k := PlatformCause(e, run, moves, n, key);
    assert AskedBy(run, n, i, key);
  }

  /** Something has failed that the spec at i needed. */
  ghost predicate Harmed(e: World, run: seq<System>, moves: seq<Move>, i: nat)
    requires run != []
  {
    exists k: nat :: FailedAt(run, moves, k) && ForSpec(e, run, |run| - 1, i, moves[k].i, run[k].procs[moves[k].i])
  }

  /** Once all copies have ended, a spec for which nothing failed has been copied without error. */
  lemma SpecMirrored(e: World, run: seq<System>, moves: seq<Move>, i: nat)
    requires WorldOk(e) && Trace(e, run, moves) && i < |run[0].procs| && Settled(Last(run)) && !Harmed(e, run, moves, i)
    ensures run[0].procs[i].CopySpec? && i < |Last(run).procs|
    ensures Last(run).procs[i].Mirrored? && Last(run).procs[i].spec == run[0].procs[i].spec
  {
    SpecFate(e, run, moves, |run| - 1, i);
    assert Last(run).procs[i] in Last(run).procs;
    if Last(run).procs[i] == Done {
      var k := ErrorHasCause(e, run, moves, |run| - 1, i);
    }
  }
}
