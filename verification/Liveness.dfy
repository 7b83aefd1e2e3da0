/**
 * The map and the KeyMutex together never get stuck and never run for ever: from every reachable
 * state some goroutine can move until all are done, and a measure falls with every step.
 */
module Liveness {
  import opened Names
  import opened WorkStates
  import opened Tables
  import opened Locks
  import opened Sums
  import opened Scheduler
  import opened Ledger
  import opened Safety
  import opened Induct

  ghost predicate Over(p: Proc) {
    p == Done || p.StatsRead?
  }

  /** Every goroutine has returned. */
  ghost predicate AllOver(s: System) {
    forall p <- s.procs :: Over(p)
  }

  // ---------------------------------------------------------------------------------------
  // The measure: handlers still to start, then unlocks still to come, then work at hand.

  function DutyStarts(duty: Duty): int { One(duty.Work?) }

  function Starts(p: Proc): int {
    match p
    case Caller(Inform(_, keys, _)) => |keys|
    case Scheduling(_, keys, _) => |keys|
    case HandingOut(keys, _, _) => |keys|
    case Starting(_) => 1
    case Leaving(duty) => DutyStarts(duty)
    case Handling(_, Detaching(duty, _)) => DutyStarts(duty)
    case _ => 0
  }

  function Unlocks(code: seq<Instr>): nat {
    if code == [] then 0 else Unlocks(code[1..]) + if code[0].Unlock? then 1 else 0
  }

  function UnlocksOf(p: Proc): int {
    match p
    case Handling(h, _) => Unlocks(h.code)
    case _ => 0
  }

  /** A waiter whose channel has closed is further from its lock than one whose channel is open. */
  function PointWork(closed: set<Chan>, h: Handler, at: Point): nat {
    var toDetach := if h.detached || h.lockDetached then 0 else 4;
    match at
    case AtCode => 19
    case Detaching(_, None) => 8
    case Detaching(_, Some(ch)) => if ch in closed then 9 else 6
    case AtLock => 5 + toDetach
    case Fetched(ch) => (if ch in closed then 7 else 4) + toDetach
    case Blocked(ch) => if ch in closed then 6 else 3
    case Acquired => 2
    case Receiving => 1
    case Finishing(_) => 6
    case Counted(_) => 5
  }

  function WorkOf(closed: set<Chan>, p: Proc): int {
    match p
    case Done => 0
    case Caller(call) => 10 + if call.Inform? then 5 * |call.keys| else 0
    case Scheduling(_, keys, wanted) => 6 + 4 * |keys| + |wanted|
    case HandingOut(keys, _, wanted) => 3 + 2 * |keys| + |wanted|
    case Awaiting(wanted) => 1 + |wanted|
    case Ejecting(ids) => 1 + |ids|
    case AwaitingEmptied(_) => 1
    case StatsHalf(_) => 1
    case StatsRead(_, _) => 0
    case Starting(_) => 1
    case Idle => 3
    case Leaving(_) => 2
    case Exiting => 4
    case Handling(h, at) => 20 * |h.code| + PointWork(closed, h, at)
  }

  function Work(closed: set<Chan>): Proc -> int { p => WorkOf(closed, p) }

  ghost function StartsLeft(s: System): int { Sum(Starts, s.procs) + |s.g.w.keys| }

  ghost function UnlocksLeft(s: System): int { Sum(UnlocksOf, s.procs) }

  ghost function WorkLeft(s: System): int { Sum(Work(s.g.m.closed), s.procs) + 3 * |s.g.w.keys| }

  ghost function Measure(s: System): (int, int, int) {
    (StartsLeft(s), UnlocksLeft(s), WorkLeft(s))
  }

  lemma MeasureNonNegative(s: System)
    ensures StartsLeft(s) >= 0 && UnlocksLeft(s) >= 0 && WorkLeft(s) >= 0
  {
    SumNonNegative(Starts, s.procs);
    SumNonNegative(UnlocksOf, s.procs);
    SumNonNegative(Work(s.g.m.closed), s.procs);
  }

  /** What the goroutines a step starts add to a measure. */
  function New(f: Proc -> int, spawn: seq<Proc>): int {
    if spawn == [] then 0 else f(spawn[0])
  }

  /** The change a lone step makes to each part of the measure. */
  ghost predicate Falls(g: Shared, p: Proc, g': Shared, p': Proc, spawn: seq<Proc>) {
    var closed := g.m.closed;
    var starts := Starts(p') + New(Starts, spawn) - Starts(p) + |g'.w.keys| - |g.w.keys|;
    var unlocks := UnlocksOf(p') + New(UnlocksOf, spawn) - UnlocksOf(p);
    var work := WorkOf(closed, p') + New(Work(closed), spawn) - WorkOf(closed, p) + 3 * (|g'.w.keys| - |g.w.keys|);
    && g'.m.closed == closed
    && starts <= 0
    && (starts == 0 ==> unlocks <= 0)
    && (starts == 0 && unlocks == 0 ==> work < 0)
  }

  lemma CallFalls(g: Shared, p: Proc, g': Shared, p': Proc)
    requires p.Caller? && Sound(g.w) && LocalStep(g, p, g', p', []) && !g'.panicked
    ensures Falls(g, p, g', p', [])
  {}

  lemma QueueFalls(g: Shared, p: Proc, g': Shared, p': Proc, spawn: seq<Proc>)
    requires (p.Scheduling? || p.HandingOut? || p == Idle) && LocalStep(g, p, g', p', spawn)
    ensures Falls(g, p, g', p', spawn)
  {}

  lemma InstrFalls(g: Shared, h: Handler, g': Shared, p': Proc)
    requires h.code != [] && InstrStep(g, h, g', p') && !g'.panicked
    ensures Falls(g, Handling(h, AtCode), g', p', [])
  {}

  lemma WaitFalls(g: Shared, h: Handler, at: Point, g': Shared, p': Proc, spawn: seq<Proc>)
    requires at.Fetched? || at.Blocked? || at.Acquired?
    requires LocksOk(g.m) && PointOk(h, at) && HandlerStep(g, h, at, g', p', spawn) && !g'.panicked
    ensures Falls(g, Handling(h, at), g', p', spawn)
  {}

  lemma LockFalls(g: Shared, h: Handler, at: Point, g': Shared, p': Proc, spawn: seq<Proc>)
    requires at.AtLock? && LocksOk(g.m) && PointOk(h, at) && HandlerStep(g, h, at, g', p', spawn)
    ensures Falls(g, Handling(h, at), g', p', spawn)
  {}

  lemma DetachFalls(g: Shared, h: Handler, at: Point, g': Shared, p': Proc, spawn: seq<Proc>)
    requires at.Detaching? && PointOk(h, at) && HandlerStep(g, h, at, g', p', spawn) && !g'.panicked
    ensures Falls(g, Handling(h, at), g', p', spawn)
  {}

  lemma LeaveFalls(g: Shared, h: Handler, at: Point, g': Shared, p': Proc, spawn: seq<Proc>)
    requires at.Finishing? || at.Counted?
    requires PointOk(h, at) && HandlerStep(g, h, at, g', p', spawn) && !g'.panicked
    ensures Falls(g, Handling(h, at), g', p', spawn)
  {}

  lemma HandlerFalls(g: Shared, h: Handler, at: Point, g': Shared, p': Proc, spawn: seq<Proc>)
    requires LocksOk(g.m) && PointOk(h, at) && HandlerStep(g, h, at, g', p', spawn) && !g'.panicked
    ensures Falls(g, Handling(h, at), g', p', spawn)
  {
    if at.AtCode? {
      if h.code != [] { InstrFalls(g, h, g', p'); }
    } else if at.Detaching? {
      DetachFalls(g, h, at, g', p', spawn);
    } else if at.Finishing? || at.Counted? {
      LeaveFalls(g, h, at, g', p', spawn);
    } else if at.AtLock? {
      LockFalls(g, h, at, g', p', spawn);
    } else if !at.Receiving? {
      WaitFalls(g, h, at, g', p', spawn);
    }
  }

  lemma LocalFalls(g: Shared, p: Proc, g': Shared, p': Proc, spawn: seq<Proc>)
    requires SharedOk(g) && ProcOk(g, p) && LocalStep(g, p, g', p', spawn) && !g'.panicked
    ensures Falls(g, p, g', p', spawn)
  {
    if p.Caller? {
      CallFalls(g, p, g', p');
    } else if p.Handling? {
      HandlerFalls(g, p.h, p.at, g', p', spawn);
    } else if p.Scheduling? || p.HandingOut? || p == Idle {
      QueueFalls(g, p, g', p', spawn);
    }
  }

  lemma SumAlone(f: Proc -> int, procs: seq<Proc>, i: nat, p': Proc, spawn: seq<Proc>)
    requires i < |procs| && |spawn| <= 1
    ensures Sum(f, procs[i := p'] + spawn) == Sum(f, procs) - f(procs[i]) + f(p') + New(f, spawn)
  {
    SumAppend(f, procs[i := p'], spawn);
    SumUpdate(f, procs, i, p');
    assert spawn != [] ==> spawn[1..] == [];
  }

  lemma AloneFalls(s: System, move: Move, s': System)
    requires Inv(s) && move.Alone? && Moves(s, move, s')
    ensures LexBelow(Measure(s'), Measure(s))
  {
    var i, p', spawn := move.i, move.p, move.spawn;
    InvReady(s, i);
    LocalKept(s.g, s.procs[i], s'.g, p', spawn);
    LocalFalls(s.g, s.procs[i], s'.g, p', spawn);
    SumAlone(Starts, s.procs, i, p', spawn);
    SumAlone(UnlocksOf, s.procs, i, p', spawn);
    SumAlone(Work(s.g.m.closed), s.procs, i, p', spawn);
  }

  lemma SumPair(f: Proc -> int, procs: seq<Proc>, i: nat, j: nat, p': Proc, q': Proc)
    requires i < |procs| && j < |procs| && i != j
    ensures Sum(f, procs[i := p'][j := q']) == Sum(f, procs) - f(procs[i]) - f(procs[j]) + f(p') + f(q')
  {
    SumUpdate(f, procs, i, p');
    SumUpdate(f, procs[i := p'], j, q');
  }

  lemma PassFalls(g: Shared, p: Proc, q: Proc, p': Proc, q': Proc)
    requires LocksOk(g.m) && ProcOk(g, p) && ProcOk(g, q)
    requires (Sends(p, p') && Receives(q, q')) || Passes(g, p, q, p', q')
    ensures Starts(p') + Starts(q') == Starts(p) + Starts(q)
    ensures var unlocks := UnlocksOf(p') + UnlocksOf(q') - UnlocksOf(p) - UnlocksOf(q);
      var closed := g.m.closed;
      unlocks < 0
      || (unlocks == 0 && WorkOf(closed, p') + WorkOf(closed, q') < WorkOf(closed, p) + WorkOf(closed, q))
  {}

  lemma PairFalls(s: System, move: Move, s': System)
    requires Inv(s) && (move.PassGrant? || move.PassLock?) && Moves(s, move, s')
    ensures LexBelow(Measure(s'), Measure(s))
  {
    var i, j := move.i, move.j;
    assert ProcOk(s.g, s.procs[i]) && ProcOk(s.g, s.procs[j]);
    PassFalls(s.g, s.procs[i], s.procs[j], move.p, move.q);
    SumPair(Starts, s.procs, i, j, move.p, move.q);
    SumPair(UnlocksOf, s.procs, i, j, move.p, move.q);
    SumPair(Work(s.g.m.closed), s.procs, i, j, move.p, move.q);
  }

  lemma CloseFalls(s: System, move: Move, s': System)
    requires move.CloseLock? && Moves(s, move, s')
    ensures LexBelow(Measure(s'), Measure(s))
  {
    SumUpdate(Starts, s.procs, move.i, s'.procs[move.i]);
    SumUpdate(UnlocksOf, s.procs, move.i, s'.procs[move.i]);
  }

  /** Every step of every goroutine brings the end nearer. */
  lemma StepFalls(s: System, s': System)
    requires Inv(s) && Step(s, s')
    ensures LexBelow(Measure(s'), Measure(s))
  {
    var move :| Moves(s, move, s');
    match move
    case Alone(_, _, _) => AloneFalls(s, move, s');
    case PassGrant(_, _, _, _) => PairFalls(s, move, s');
    case PassLock(_, _, _, _) => PairFalls(s, move, s');
    case CloseLock(_) => CloseFalls(s, move, s');
  }

  lemma StepShrinks(s: System, s': System)
    requires Inv(s) && Step(s, s')
    ensures Inv(s') && LexBelow(Measure(s'), Measure(s))
    ensures StartsLeft(s) >= 0 && UnlocksLeft(s) >= 0 && WorkLeft(s) >= 0
  {
    StepKeeps(s, s');
    StepFalls(s, s');
    MeasureNonNegative(s);
  }

  /** No schedule, fair or not, keeps the goroutines busy for ever. */
  lemma NoInfiniteRun(run: nat -> System)
    requires Init(run(0))
    ensures exists n: nat :: !Step(run(n), run(n + 1))
  {
    if forall n: nat :: Step(run(n), run(n + 1)) {
      var measure := (n: nat) => Measure(run(n));
      forall n: nat ensures measure(n).0 >= 0 && measure(n).1 >= 0 && measure(n).2 >= 0 { MeasureNonNegative(run(n)); }
      var last := FallStops(measure, 0);
      InvAlong(run, last);
      StepShrinks(run(last), run(last + 1));
    }
  }

  lemma InvAlong(run: nat -> System, n: nat)
    requires Init(run(0)) && forall k: nat :: Step(run(k), run(k + 1))
    ensures Inv(run(n))
  {
    InitInv(run(0));
    var p := (k: nat) => Inv(run(k));
    forall k: nat, l: nat | l == k + 1 && p(k) ensures p(l) { StepKeeps(run(k), run(l)); }
    Carry(p, 0, n);
  }

  // ---------------------------------------------------------------------------------------
  // Progress

  /** The goroutine is not held up by any other. */
  ghost predicate Free(g: Shared, p: Proc) {
    match p
    case Done => false
    case StatsRead(_, _) => false
    case HandingOut(keys, sends, _) => keys != [] || sends == 0
    case Awaiting(wanted) => wanted == [] || At(g.t, wanted[0], Finished)
    case AwaitingEmptied(ch) => ch in g.emptiedClosed
    case Leaving(duty) => !duty.SendGrant?
    case Handling(_, Detaching(duty, _)) => !duty.SendGrant?
    case Handling(_, Blocked(ch)) => ch in g.m.closed
    case Handling(_, Receiving) => false
    case _ => true
  }

  lemma CallMoves(g: Shared, p: Proc) returns (g': Shared, p': Proc)
    requires p.Caller?
    ensures LocalStep(g, p, g', p', [])
  {
    match p.call
    case Inform(front, keys, wait) =>
      var (t, ids, created) := GetOrCreate(g.t, keys);
      g', p' := g.(t := t), Scheduling(front, created, if wait then ids else []);
    case SetLimit(limit) =>
      var (w, keys, transfers) := WorkStates.Limit(g.w, limit);
      g', p' := g.(w := w), HandingOut(keys, Max(0, transfers), []);
    case DequeueAll =>
      var (t, ids, missing) := Eject(g.t, g.w.keys);
      if missing { g', p' := g.(panicked := true), Done; }
      else { g', p' := g.(t := t, w := Dequeue(g.w)), Ejecting(ids); }
    case AwaitAll =>
      var (w, ch) := WorkStates.Wait(g.w, g.emptiedMade);
      g' := g.(w := w, emptiedMade := if w == g.w then g.emptiedMade else g.emptiedMade + 1);
      p' := if ch.Some? then AwaitingEmptied(ch.value) else Done;
    case Stats =>
      g', p' := g, StatsHalf(g.t.handled);
  }

  lemma DutyMoves(g: Shared, duty: Duty) returns (g': Shared, spawn: seq<Proc>)
    requires !duty.SendGrant?
    ensures DutyStep(g, duty, g', spawn)
  {
    match duty
    case NoDuty => g', spawn := g, [];
    case CloseEmptied(ch) => g', spawn := CloseChannel(g, ch), [];
    case Work(key) => g', spawn := g, [Starting(key)];
  }

  lemma ReattachMoves(g: Shared, h: Handler) returns (g': Shared, p': Proc)
    requires h.code != []
    ensures ReattachStep(g, h, g', p')
  {
    var (w, wait) := WorkStates.Reattach(g.w);
    g', p' := g.(w := w), if wait then Handling(h, Receiving) else Reattached(h);
  }

  lemma HandlerMoves(g: Shared, h: Handler, at: Point) returns (g': Shared, p': Proc, spawn: seq<Proc>)
    requires PointOk(h, at) && Free(g, Handling(h, at)) && !AtUnlock(g, Handling(h, at))
    ensures HandlerStep(g, h, at, g', p', spawn)
  {
    spawn := [];
    match at
    case AtCode =>
      if h.code == [] { g', p' := g, Handling(h, Finishing(Returned)); }
      else {
        g', p' := g, Handling(h.Next(), AtCode);
        match h.code[0]
        case Detach => if !h.detached { g', p' := g.(w := TryGet(g.w).0), Handling(h, Detaching(TryGet(g.w).1, None)); }
        case Reattach => if h.detached { g', p' := ReattachMoves(g, h); }
        case Lock(_) => p' := Handling(h.(entry := h.detached, lockDetached := false), AtLock);
        case Unlock(_) => g', p' := g.(panicked := true), Done;
        case Compute =>
      }
    case Detaching(duty, waiting) =>
      g', spawn := DutyMoves(g, duty);
      p' := Detached(h, waiting);
    case AtLock =>
      var m := h.code[0].m;
      if m in g.m.chans { g', p' := g, Handling(h, Fetched(g.m.chans[m])); }
      else {
        g' := g.(m := Taken(g.m, m));
        p' := Handling(h.(holds := Some(m)), Acquired);
      }
    case Fetched(ch) =>
      if h.lockDetached || h.detached { g', p' := g, Handling(h, Blocked(ch)); }
      else { g', p' := g.(w := TryGet(g.w).0), Handling(h, Detaching(TryGet(g.w).1, Some(ch))); }
    case Blocked(_) => g', p' := g, Handling(h, AtLock);
    case Acquired =>
      if h.lockDetached && h.detached { g', p' := ReattachMoves(g, h); }
      else { g', p' := g, Handling(h.Next(), AtCode); }
    case Finishing(out) =>
      p' := Handling(h, Counted(out));
      g' := if h.task < |g.t.all| then g.(t := SetStage(g.t, h.task, Handled).(handled := g.t.handled + 1))
            else g.(panicked := true);
    case Counted(out) =>
      g' := OpenGate(g, h.task);
      p' := if h.detached then Done else if out == Returned then Idle else Exiting;
  }

  lemma FreeMoves(g: Shared, p: Proc) returns (g': Shared, p': Proc, spawn: seq<Proc>)
    requires ProcOk(g, p) && Free(g, p) && !AtUnlock(g, p)
    ensures LocalStep(g, p, g', p', spawn)
  {
    g', spawn := g, [];
    match p
    case Caller(_) => g', p' := CallMoves(g, p);
    case Scheduling(front, keys, wanted) =>
      if keys == [] { p' := Awaiting(wanted); }
      else { g', p' := g.(w := Schedule(g.w, front, keys).0), HandingOut(Schedule(g.w, front, keys).1, 0, wanted); }
    case HandingOut(keys, sends, wanted) =>
      if keys != [] { p', spawn := HandingOut(keys[1..], sends, wanted), [Starting(keys[0])]; }
      else { p' := Awaiting(wanted); }
    case Ejecting(ids) =>
      if ids == [] { p' := Done; } else { g', p' := OpenGate(g, ids[0]), Ejecting(ids[1..]); }
    case StatsHalf(seen) => p' := StatsRead(seen, |g.t.ids|);
    case Starting(key) =>
      if key in g.t.ids && g.t.ids[key] < |g.t.all| {
        g' := g.(t := SetStage(g.t, g.t.ids[key], Running), started := g.started + [key]);
        p' := Handling(Handler(key, g.t.ids[key], [], false, false, false, None), AtCode);
      } else { g', p' := g.(panicked := true), Done; }
    case Idle =>
      var (w, duty) := TryGet(g.w);
      g', p' := g.(w := w), if duty.Work? then Starting(duty.key) else Leaving(duty);
    case Leaving(duty) =>
      g', spawn := DutyMoves(g, duty);
      p' := Done;
    case Exiting => p', spawn := Done, [Idle];
    case Handling(h, at) => g', p', spawn := HandlerMoves(g, h, at);
    case _ => p' := Done;
  }

  ghost predicate CanStep(s: System) {
    exists s' :: Step(s, s')
  }

  lemma PassMoves(s: System, i: nat, j: nat)
    requires Inv(s) && i < |s.procs| && j < |s.procs| && AtUnlock(s.g, s.procs[i])
    requires BlockedOn(s.procs[j], s.g.m.chans[s.procs[i].h.code[0].m])
    ensures CanStep(s)
  {
    var p, q := s.procs[i], s.procs[j];
    assert ProcOk(s.g, q);
    var q' := Handling(q.h.(holds := Some(q.h.code[0].m)), Acquired);
    var s' := s.(procs := s.procs[i := Released(p)][j := q']);
    assert Moves(s, PassLock(i, j, Released(p), q'), s');
    assert Step(s, s');
  }

  lemma UnlockMoves(s: System, i: nat)
    requires Inv(s) && i < |s.procs| && AtUnlock(s.g, s.procs[i])
    ensures CanStep(s)
  {
    var p := s.procs[i];
    if j: nat :| j < |s.procs| && BlockedOn(s.procs[j], s.g.m.chans[p.h.code[0].m]) {
      PassMoves(s, i, j);
    } else {
      var s' := System(Forget(s.g, p.h.code[0].m), s.procs[i := Released(p)]);
      assert Moves(s, CloseLock(i), s');
      assert Step(s, s');
    }
  }

  lemma FreeCanStep(s: System, i: nat)
    requires Inv(s) && i < |s.procs| && Free(s.g, s.procs[i])
    ensures CanStep(s)
  {
    if AtUnlock(s.g, s.procs[i]) {
      UnlockMoves(s, i);
    } else {
      assert ProcOk(s.g, s.procs[i]);
      var g', p', spawn := FreeMoves(s.g, s.procs[i]);
      var s' := System(g', s.procs[i := p'] + spawn);
      assert Moves(s, Alone(i, p', spawn), s');
      assert Step(s, s');
    }
  }

  /** The goroutine is in SendGrant. */
  predicate AtSend(p: Proc) {
    match p
    case HandingOut(keys, sends, _) => keys == [] && sends > 0
    case Leaving(duty) => duty.SendGrant?
    case Handling(_, Detaching(duty, _)) => duty.SendGrant?
    case _ => false
  }

  /** A goroutine in SendGrant always finds one in ReceiveGrant, whatever the others are doing. */
  lemma SendFindsReceiver(s: System, i: nat) returns (j: nat, p': Proc, q': Proc)
    requires Inv(s) && i < |s.procs| && AtSend(s.procs[i])
    ensures j < |s.procs| && Moves(s, PassGrant(i, j, p', q'), s.(procs := s.procs[i := p'][j := q']))
  {
    var p := s.procs[i];
    assert ProcOk(s.g, p);
    assert Sum(Held(Receivers), s.procs) == Owed(s.g, Receivers);
    if forall k | 0 <= k < |s.procs| :: HeldBy(Receivers, s.procs[k]) <= 0 {
      SumAtMost(Held(Receivers), s.procs, i);
      assert false;
    }
    j :| 0 <= j < |s.procs| && HeldBy(Receivers, s.procs[j]) > 0;
    assert ProcOk(s.g, s.procs[j]);
    q' := Reattached(s.procs[j].h);
    p' := match p
      case HandingOut(_, sends, wanted) => HandingOut([], sends - 1, wanted)
      case Leaving(_) => Done
      case Handling(h, at) => Detached(h, at.waiting);
  }

  /** Nobody is free to move and no grant is on its way to a reattacher. */
  ghost predicate Stuck(s: System) {
    Inv(s) && forall p <- s.procs :: !Free(s.g, p) && HeldBy(Receivers, p) >= 0
  }

  /** Then no grant is out, so nothing is queued and nobody waits to reattach. */
  lemma StuckIsDrained(s: System)
    requires Stuck(s)
    ensures s.g.w.grants == 0 && s.g.w.keys == [] && s.g.w.reattachers == 0
    ensures forall p <- s.procs :: HeldBy(Receivers, p) == 0
  {
    forall i | 0 <= i < |s.procs| ensures Held(Grants)(s.procs[i]) == 0 {
      assert ProcOk(s.g, s.procs[i]) && !Free(s.g, s.procs[i]) && HeldBy(Receivers, s.procs[i]) >= 0;
    }
    SumZero(Held(Grants), s.procs);
    assert Sum(Held(Grants), s.procs) == Owed(s.g, Grants);
    assert Sum(Held(Receivers), s.procs) == Owed(s.g, Receivers);
    forall i | 0 <= i < |s.procs| ensures HeldBy(Receivers, s.procs[i]) == 0 {
      SumAtLeast(Held(Receivers), s.procs, i);
    }
  }

  /** Whatever is owed on these accounts is held by a goroutine; in a stuck state, by a blocked handler. */
  lemma StuckHolder(s: System, a: Account) returns (p: Proc)
    requires Stuck(s) && Owed(s.g, a) > 0
    ensures p in s.procs && HeldBy(a, p) > 0
    ensures p.Handling? && p.at.Blocked? && p.at.ch !in s.g.m.closed && p.h.holds.None?
  {
    StuckIsDrained(s);
    assert Sum(Held(a), s.procs) == Owed(s.g, a);
    var i := PositiveEntry(Held(a), s.procs);
    p := s.procs[i];
    assert ProcOk(s.g, p) && !Free(s.g, p) && HeldBy(Receivers, p) == 0;
  }

  /** So nobody is blocked on a lock: its holder would be blocked too, and holders never wait for locks. */
  lemma StuckNotBlocked(s: System, p: Proc)
    requires Stuck(s) && p in s.procs
    ensures !(p.Handling? && p.at.Blocked?)
  {
    if p.Handling? && p.at.Blocked? {
      assert ProcOk(s.g, p) && !Free(s.g, p);
      var holder := StuckHolder(s, Holder(p.h.code[0].m));
    }
  }

  lemma StuckOwesNothing(s: System, a: Account)
    requires Stuck(s)
    ensures Owed(s.g, a) <= 0
  {
    if Owed(s.g, a) > 0 {
      var p := StuckHolder(s, a);
      StuckNotBlocked(s, p);
    }
  }

  lemma StuckIsOver(s: System)
    requires Stuck(s)
    ensures AllOver(s)
  {
    StuckIsDrained(s);
    forall p | p in s.procs ensures Over(p) {
      assert ProcOk(s.g, p) && !Free(s.g, p) && HeldBy(Receivers, p) == 0;
      StuckNotBlocked(s, p);
      if p.AwaitingEmptied? {
        StuckOwesNothing(s, Closer(p.ch));
      } else if p.Awaiting? {
        var task := s.g.t.all[p.wanted[0]];
        StuckOwesNothing(s, Unstarted(task.key));
        StuckOwesNothing(s, Owner(p.wanted[0], task.stage));
      }
    }
  }

  /** No deadlock: unless all goroutines have returned, some goroutine can move. */
  lemma Progress(s: System)
    requires Inv(s) && !AllOver(s)
    ensures CanStep(s)
  {
    if i: nat :| i < |s.procs| && Free(s.g, s.procs[i]) {
      FreeCanStep(s, i);
    } else if i: nat :| i < |s.procs| && HeldBy(Receivers, s.procs[i]) < 0 {
      assert !Free(s.g, s.procs[i]);
      var j, p', q' := SendFindsReceiver(s, i);
      assert Step(s, s.(procs := s.procs[i := p'][j := q']));
    } else {
      StuckIsOver(s);
    }
  }

  ghost predicate Steps(run: seq<System>) {
    forall n :: 0 <= n < |run| - 1 ==> Step(run[n], run[n + 1])
  }

  lemma StepsFrom(s: System, run: seq<System>)
    requires run != [] && Steps(run) && Step(s, run[0])
    ensures var all := [s] + run; Steps(all) && all[0] == s && all[|all| - 1] == run[|run| - 1]
  {
    var all := [s] + run;
    forall n | 0 <= n < |all| - 1 ensures Step(all[n], all[n + 1]) {
      if n > 0 { assert all[n] == run[n - 1] && all[n + 1] == run[n]; }
    }
  }

  /** From every reachable state, going on for as long as possible ends with all goroutines returned. */
  lemma {:induction false} RunsToTheEnd(s: System) returns (run: seq<System>)
    requires Inv(s)
    ensures run != [] && run[0] == s && Steps(run)
    ensures Inv(run[|run| - 1]) && AllOver(run[|run| - 1])
    decreases StartsLeft(s), UnlocksLeft(s), WorkLeft(s)
  {
    if AllOver(s) {
      run := [s];
    } else {
      Progress(s);
      var s' :| Step(s, s');
      StepShrinks(s, s');
      var rest := RunsToTheEnd(s');
      StepsFrom(s, rest);
      run := [s] + rest;
    }
  }

  /** When all is over the map is at rest: no grant, no queue, every gate open, every key handled. */
  ghost predicate AtRest(g: Shared) {
    && g.w.grants == 0 && g.w.keys == [] && g.w.reattachers == 0 && g.w.emptied.None?
    && g.m.chans == map[]
    && (forall id: TaskId | id < |g.t.all| :: g.t.all[id].stage == Finished)
    && g.t.handled == |g.t.ids|
    && (forall ch: Chan | ch < g.emptiedMade :: ch in g.emptiedClosed)
  }

  lemma OverIsAtRest(s: System)
    requires Inv(s) && AllOver(s)
    ensures AtRest(s.g)
  {
    forall a ensures Owed(s.g, a) == 0 {
      forall i | 0 <= i < |s.procs| ensures Held(a)(s.procs[i]) == 0 { assert Over(s.procs[i]); }
      SumZero(Held(a), s.procs);
      assert Sum(Held(a), s.procs) == Owed(s.g, a);
    }
    assert Owed(s.g, Grants) == 0;
    forall id: TaskId | id < |s.g.t.all| ensures s.g.t.all[id].stage == Finished {
      assert Owed(s.g, Owner(id, s.g.t.all[id].stage)) == 0;
      assert Owed(s.g, Unstarted(s.g.t.all[id].key)) == 0;
    }
    assert HandledKeys(s.g.t) == s.g.t.ids.Keys;
    forall m ensures m !in s.g.m.chans { assert Owed(s.g, Holder(m)) == 0; }
    forall ch: Chan | ch < s.g.emptiedMade ensures ch in s.g.emptiedClosed { assert Owed(s.g, Closer(ch)) == 0; }
  }

  /** A run that cannot go on, whatever its schedule was, has ended as it should. */
  lemma MaximalRunEndsAtRest(run: seq<System>)
    requires Run(run) && !CanStep(run[|run| - 1])
    ensures AllOver(run[|run| - 1]) && AtRest(run[|run| - 1].g)
  {
    var last := run[|run| - 1];
    RunInv(run, |run| - 1);
    if !AllOver(last) { Progress(last); }
    OverIsAtRest(last);
  }
}
