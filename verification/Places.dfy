/**
 * What the limited map of blobs is to the copy pipeline: a number of places, of which a handler
 * that starts or reattaches takes a free one. The map keeps to that at every step, and hands a
 * free place on as long as anybody waits for one.
 */
module Places {
  import opened Sums
  import M = Mirror
  import ML = MirrorLiveness
  import opened Scheduler
  import opened Safety
  import opened Guarantees
  import opened Liveness

  /** At most one place is given up or taken, and only a free one is taken. */
  predicate PlaceStep(limit: int, taken: int, taken': int) {
    taken' == taken || taken' == taken - 1 || (taken < limit && taken' == taken + 1)
  }

  /** The pipeline treats the map of blobs so. */
  lemma PipelineTakesPlaces(e: M.World, s: M.System, move: M.Move, s': M.System)
    requires ML.Live(e, s) && M.Moves(e, s, move, s') && !s'.g.panicked
    ensures PlaceStep(e.limit, s.g.attached, s'.g.attached)
  {
    if move.Alone? {
      var p := s.procs[move.i];
      assert p in s.procs;
      ML.LocalTasks(e, s.g, p, s'.g, move.p, move.spawn);
      ML.AttachesWithinLimit(e, s.g, p, s'.g, move.p, move.spawn);
    }
  }

  lemma AloneTakes(g: Shared, p: Proc, g': Shared, p': Proc, spawn: seq<Proc>)
    requires LocalStep(g, p, g', p', spawn)
    ensures -1 <= Attached(p') - Attached(p) <= 1 && |spawn| <= 1
    ensures forall q <- spawn :: Attached(q) == 0
  {}

  lemma PairTakes(g: Shared, p: Proc, q: Proc, p': Proc, q': Proc)
    requires (Sends(p, p') && Receives(q, q')) || Passes(g, p, q, p', q')
    ensures Attached(p') == Attached(p) && 0 <= Attached(q') - Attached(q) <= 1
  {}

  lemma StepTakes(s: System, s': System)
    requires Step(s, s')
    ensures -1 <= Sum(Attached, s'.procs) - Sum(Attached, s.procs) <= 1
  {
    var move :| Moves(s, move, s');
    match move
    case Alone(i, p', spawn) =>
      AloneTakes(s.g, s.procs[i], s'.g, p', spawn);
      SumAppend(Attached, s.procs[i := p'], spawn);
      SumUpdate(Attached, s.procs, i, p');
      SumZero(Attached, spawn);
    case PassGrant(i, j, p', q') =>
      PairTakes(s.g, s.procs[i], s.procs[j], p', q');
      SumPair(Attached, s.procs, i, j, p', q');
    case PassLock(i, j, p', q') =>
      PairTakes(s.g, s.procs[i], s.procs[j], p', q');
      SumPair(Attached, s.procs, i, j, p', q');
    case CloseLock(i) =>
      SumUpdate(Attached, s.procs, i, Released(s.procs[i]));
  }

  /** And the map is so, under any limit it has kept to, whatever its callers and handlers do. */
  lemma MapTakesPlaces(run: seq<System>, m: nat, n: nat, limit: int)
    requires Run(run) && m <= n && n + 1 < |run| && run[m].g.w.grants <= limit
    requires forall i | m <= i <= n + 1 :: run[i].g.w.grantLimit <= limit
    ensures PlaceStep(limit, Sum(Attached, run[n].procs), Sum(Attached, run[n + 1].procs))
  {
    assert Step(run[n], run[n + 1]);
    StepTakes(run[n], run[n + 1]);
    ConcurrencyBound(run, m, n + 1, limit);
  }

  // ---------------------------------------------------------------------------------------
  // A free place does not stay free.

  /** A key is queued, or a handler waits to reattach. */
  ghost predicate Wanted(s: System) {
    s.g.w.keys != [] || exists p <- s.procs :: p.Handling? && p.at.Receiving?
  }

  /** The goroutine has a grant on its way to somebody else. */
  predicate Carries(p: Proc) {
    Tokens(p) > Attached(p)
  }

  lemma SomebodyCarries(run: seq<System>, n: nat) returns (i: nat)
    requires Run(run) && n < |run| && Wanted(run[n]) && Sum(Attached, run[n].procs) < run[n].g.w.grantLimit
    ensures i < |run[n].procs| && Carries(run[n].procs[i])
  {
    var s := run[n];
    RunInv(run, n);
    GrantsConserved(run, n);
    SendsMatched(run, n);
    if s.g.w.keys != [] || s.g.w.reattachers > 0 {
      WorkConserved(run, n);
      if forall k | 0 <= k < |s.procs| :: !Carries(s.procs[k]) { SumMonotone(Tokens, Attached, s.procs); }
      i :| i < |s.procs| && Carries(s.procs[i]);
    } else {
      var p :| p in s.procs && p.Handling? && p.at.Receiving?;
      var k: nat :| k < |s.procs| && s.procs[k] == p;
      SumAtLeast(InReceive, s.procs, k);
      i := PositiveEntry(SendsDue, s.procs);
      assert ProcOk(s.g, s.procs[i]);
    }
  }

  /** While a place is free and wanted, some goroutine has a grant to pass on, and can move at once. */
  lemma FreePlaceIsPassedOn(run: seq<System>, n: nat) returns (move: Move, s': System)
    requires Run(run) && n < |run| && Wanted(run[n]) && Sum(Attached, run[n].procs) < run[n].g.w.grantLimit
    ensures Moves(run[n], move, s') && Carries(run[n].procs[move.i])
  {
    var s := run[n];
    var i := SomebodyCarries(run, n);
    RunInv(run, n);
    assert ProcOk(s.g, s.procs[i]);
    if AtSend(s.procs[i]) {
      var j, p', q' := SendFindsReceiver(s, i);
      move, s' := PassGrant(i, j, p', q'), s.(procs := s.procs[i := p'][j := q']);
    } else {
      var g', p', spawn := FreeMoves(s.g, s.procs[i]);
      move, s' := Alone(i, p', spawn), System(g', s.procs[i := p'] + spawn);
    }
  }
}
