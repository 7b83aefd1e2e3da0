/** What each call of the map has done by the time it returns, over whole runs and whatever the others do. */
module Calls {
  import opened Names
  import opened WorkStates
  import opened Tables
  import opened Scheduler
  import opened Ledger
  import opened Safety
  import opened QueueOrder
  import opened Liveness

  /** The first step of a call. */
  ghost predicate Begins(run: seq<System>, k: nat, i: nat, call: Call) {
    && k + 1 < |run| && i < |run[k].procs| && i < |run[k + 1].procs|
    && run[k].procs[i] == Caller(call) && run[k + 1].procs[i] != Caller(call)
  }

  ghost predicate AllFinished(t: Table, ids: seq<TaskId>) {
    forall id <- ids :: At(t, id, Finished)
  }

  /** An open gate stays open. */
  lemma FinishedStays(s: System, move: Move, s': System)
    requires Inv(s) && Moves(s, move, s')
    ensures forall id: TaskId :: At(s.g.t, id, Finished) ==> At(s'.g.t, id, Finished)
  {
    if move.Alone? {
      InvReady(s, move.i);
      LocalKept(s.g, s.procs[move.i], s'.g, move.p, move.spawn);
    }
  }

  /** How one step of the system looks to the goroutine at i. */
  ghost predicate Seen(s: System, s': System, i: nat) {
    && i < |s.procs| && i < |s'.procs|
    && ( || s'.procs[i] == s.procs[i]
         || (exists spawn :: LocalStep(s.g, s.procs[i], s'.g, s'.procs[i], spawn))
         || Sends(s.procs[i], s'.procs[i])
         || s.procs[i].Handling?)
  }

  lemma MoveSeen(s: System, move: Move, s': System, i: nat)
    requires Moves(s, move, s') && i < |s.procs|
    ensures Seen(s, s', i)
  {
    if move.Alone? && move.i == i { assert LocalStep(s.g, s.procs[i], s'.g, s'.procs[i], move.spawn); }
  }

  lemma StepSeen(s: System, s': System, i: nat)
    requires Inv(s) && Step(s, s') && i < |s.procs|
    ensures Inv(s') && Seen(s, s', i)
    ensures forall id: TaskId :: At(s.g.t, id, Finished) ==> At(s'.g.t, id, Finished)
  {
    var move :| Moves(s, move, s');
    MoveKeeps(s, move, s');
    FinishedStays(s, move, s');
    MoveSeen(s, move, s', i);
  }

  lemma RunSeen(run: seq<System>, n: nat, i: nat)
    requires Run(run) && n + 1 < |run| && i < |run[n].procs|
    ensures Inv(run[n]) && Inv(run[n + 1]) && Seen(run[n], run[n + 1], i)
    ensures forall id: TaskId :: At(run[n].g.t, id, Finished) ==> At(run[n + 1].g.t, id, Finished)
  {
    RunInv(run, n);
    assert Step(run[n], run[n + 1]);
    StepSeen(run[n], run[n + 1], i);
  }

  // ---------------------------------------------------------------------------------------
  // Inform, InformFront, Get and Collect

  /** The goroutine of a call that has made these keys and waits for these tasks. */
  ghost predicate InformNow(t: Table, p: Proc, front: bool, created: seq<Key>, wanted: seq<TaskId>) {
    match p
    case Scheduling(f, keys, w) => f == front && keys == created && w == wanted
    case HandingOut(_, sends, w) => sends == 0 && w == wanted
    case Awaiting(left) =>
      |left| <= |wanted| && left == wanted[|wanted| - |left|..] && AllFinished(t, wanted[..|wanted| - |left|])
    case Done => wanted == [] || At(t, wanted[0], Finished)
    case _ => false
  }

  lemma InformStarts(g: Shared, front: bool, keys: seq<Key>, wait: bool, g': Shared, p': Proc)
    requires TableOk(g.t) && CallStep(g, Inform(front, keys, wait), g', p')
    ensures var (t, ids, created) := GetOrCreate(g.t, keys);
      && InformNow(g'.t, p', front, created, if wait then ids else []) && p'.Scheduling?
      && NewInOrder(g.t, keys, created) && |ids| == |keys|
      && forall j | 0 <= j < |keys| :: keys[j] in g'.t.ids && g'.t.ids[keys[j]] == ids[j]
  {
    CreateFinds(g.t, keys);
    var at := CreateInOrder(g.t, keys);
  }

  lemma AwaitingGoesOn(t: Table, wanted: seq<TaskId>, left: seq<TaskId>)
    requires left != [] && |left| <= |wanted| && left == wanted[|wanted| - |left|..]
    requires AllFinished(t, wanted[..|wanted| - |left|]) && At(t, left[0], Finished)
    ensures left[1..] == wanted[|wanted| - |left| + 1..] && AllFinished(t, wanted[..|wanted| - |left| + 1])
    ensures At(t, wanted[0], Finished)
  {
    var n := |wanted| - |left|;
    assert wanted[..n + 1] == wanted[..n] + [left[0]];
    assert wanted[0] in wanted[..n + 1];
  }

  lemma AwaitingEnds(t: Table, wanted: seq<TaskId>)
    requires AllFinished(t, wanted[..|wanted| - 0])
    ensures AllFinished(t, wanted) && (wanted == [] || At(t, wanted[0], Finished))
  {
    assert wanted[..|wanted|] == wanted;
  }

  lemma InformSendsNothing(t: Table, p: Proc, p': Proc, front: bool, created: seq<Key>, wanted: seq<TaskId>)
    requires InformNow(t, p, front, created, wanted)
    ensures !Sends(p, p') && !p.Handling?
  {}

  lemma InformStep(g: Shared, p: Proc, g': Shared, p': Proc, spawn: seq<Proc>, front: bool, created: seq<Key>,
                   wanted: seq<TaskId>)
    requires InformNow(g.t, p, front, created, wanted) && LocalStep(g, p, g', p', spawn)
    requires forall id: TaskId :: At(g.t, id, Finished) ==> At(g'.t, id, Finished)
    ensures InformNow(g'.t, p', front, created, wanted) && !p'.Scheduling?
  {
    if p.Awaiting? {
      if p.wanted == [] { AwaitingEnds(g.t, wanted); } else { AwaitingGoesOn(g.t, wanted, p.wanted); }
    }
  }

  lemma InformStays(t: Table, t': Table, p: Proc, front: bool, created: seq<Key>, wanted: seq<TaskId>)
    requires InformNow(t, p, front, created, wanted)
    requires forall id: TaskId :: At(t, id, Finished) ==> At(t', id, Finished)
    ensures InformNow(t', p, front, created, wanted)
  {}

  /** The call goes on as it should. */
  lemma InformGoesOn(s: System, s': System, i: nat, front: bool, created: seq<Key>, wanted: seq<TaskId>)
    requires Seen(s, s', i) && InformNow(s.g.t, s.procs[i], front, created, wanted)
    requires forall id: TaskId :: At(s.g.t, id, Finished) ==> At(s'.g.t, id, Finished)
    ensures InformNow(s'.g.t, s'.procs[i], front, created, wanted)
    ensures s'.procs[i].Scheduling? ==> s.procs[i].Scheduling?
  {
    InformSendsNothing(s.g.t, s.procs[i], s'.procs[i], front, created, wanted);
    if s'.procs[i] == s.procs[i] {
      InformStays(s.g.t, s'.g.t, s.procs[i], front, created, wanted);
    } else {
      var spawn :| LocalStep(s.g, s.procs[i], s'.g, s'.procs[i], spawn);
      InformStep(s.g, s.procs[i], s'.g, s'.procs[i], spawn, front, created, wanted);
    }
  }

  /** In this step the block of keys was put into the line, in its order, in front or behind. */
  ghost predicate Enqueued(run: seq<System>, j: nat, front: bool, created: seq<Key>) {
    && j + 1 < |run| && |run[j].g.w.granted| <= |run[j + 1].g.w.granted|
    && LineOf(run[j + 1].g.w) ==
         Advanced(Edited(LineOf(run[j].g.w), if front then Insert(created) else Append(created)),
                  |run[j + 1].g.w.granted| - |run[j].g.w.granted|)
  }

  lemma NothingToEnqueue(w: WorkState, front: bool)
    ensures Edited(LineOf(w), if front then Insert([]) else Append([])) == LineOf(w)
  {
    LineParts(w);
    assert LineOf(w).items + [] == LineOf(w).items;
    assert w.granted + [] + w.keys == LineOf(w).items;
  }

  lemma SchedulingEnqueues(run: seq<System>, j: nat, i: nat, front: bool, created: seq<Key>, wanted: seq<TaskId>)
    requires Run(run) && j + 1 < |run| && i < |run[j].procs| && i < |run[j + 1].procs|
    requires run[j].procs[i] == Scheduling(front, created, wanted) && run[j + 1].procs[i] != run[j].procs[i]
    ensures Enqueued(run, j, front, created)
  {
    RunInv(run, j);
    assert Step(run[j], run[j + 1]);
    var move :| Moves(run[j], move, run[j + 1]);
    assert move.Alone? && move.i == i;
    MoveEditsLine(run[j], move, run[j + 1]);
    NothingToEnqueue(run[j].g.w, front);
  }

  /** The tasks to wait for: those of the keys, in their order, or none. */
  ghost predicate LookedUp(t: Table, keys: seq<Key>, wait: bool, wanted: seq<TaskId>) {
    if wait then
      |wanted| == |keys| && forall l | 0 <= l < |keys| :: keys[l] in t.ids && t.ids[keys[l]] == wanted[l]
    else wanted == []
  }

  /** What is known of a call of Inform, InformFront, Get or Collect at any later point of the run. */
  ghost predicate InformTracked(run: seq<System>, m: nat, k: nat, j: nat, n: nat, i: nat, front: bool, keys: seq<Key>,
                                wait: bool, created: seq<Key>, wanted: seq<TaskId>)
  {
    && m <= k < n < |run| && i < |run[n].procs| && Begins(run, k, i, Inform(front, keys, wait))
    && NewInOrder(run[k].g.t, keys, created) && LookedUp(run[k + 1].g.t, keys, wait, wanted)
    && InformNow(run[n].g.t, run[n].procs[i], front, created, wanted)
    && (run[n].procs[i].Scheduling? || (k < j < n && Enqueued(run, j, front, created)))
  }

  lemma InformBegins(run: seq<System>, m: nat, k: nat, i: nat, front: bool, keys: seq<Key>, wait: bool)
    returns (created: seq<Key>, wanted: seq<TaskId>)
    requires Run(run) && m <= k && k + 1 < |run| && i < |run[k].procs|
    requires run[k].procs[i] == Caller(Inform(front, keys, wait))
    ensures i < |run[k + 1].procs|
    ensures run[k + 1].procs[i] == run[k].procs[i]
      || InformTracked(run, m, k, k, k + 1, i, front, keys, wait, created, wanted)
  {
    RunSeen(run, k, i);
    created := GetOrCreate(run[k].g.t, keys).2;
    wanted := if wait then GetOrCreate(run[k].g.t, keys).1 else [];
    if run[k + 1].procs[i] != run[k].procs[i] {
      InformStarts(run[k].g, front, keys, wait, run[k + 1].g, run[k + 1].procs[i]);
    }
  }

  lemma {:induction false} TrackInform(run: seq<System>, m: nat, n: nat, i: nat, front: bool, keys: seq<Key>, wait: bool)
    returns (k: nat, j: nat, created: seq<Key>, wanted: seq<TaskId>)
    requires Run(run) && m <= n < |run| && i < |run[m].procs| && run[m].procs[i] == Caller(Inform(front, keys, wait))
    ensures i < |run[n].procs|
    ensures run[n].procs[i] == Caller(Inform(front, keys, wait))
      || InformTracked(run, m, k, j, n, i, front, keys, wait, created, wanted)
  {
    k, j, created, wanted := 0, 0, [], [];
    if m < n {
      k, j, created, wanted := TrackInform(run, m, n - 1, i, front, keys, wait);
      if run[n - 1].procs[i] == Caller(Inform(front, keys, wait)) {
        k, j := n - 1, n - 1;
        created, wanted := InformBegins(run, m, k, i, front, keys, wait);
      } else {
        j := InformTrackedOn(run, m, k, j, n - 1, i, front, keys, wait, created, wanted);
      }
    }
  }

  lemma InformTrackedOn(run: seq<System>, m: nat, k: nat, j: nat, n: nat, i: nat, front: bool, keys: seq<Key>,
                        wait: bool, created: seq<Key>, wanted: seq<TaskId>)
    returns (j': nat)
    requires Run(run) && n + 1 < |run| && InformTracked(run, m, k, j, n, i, front, keys, wait, created, wanted)
    ensures InformTracked(run, m, k, j', n + 1, i, front, keys, wait, created, wanted)
  {
    RunSeen(run, n, i);
    InformGoesOn(run[n], run[n + 1], i, front, created, wanted);
    j' := j;
    if run[n].procs[i].Scheduling? {
      j' := n;
      if !run[n + 1].procs[i].Scheduling? { SchedulingEnqueues(run, n, i, front, created, wanted); }
    }
  }

  /**
   * Get waits for its key, and Collect at least for its first: by the time it returns, the task
   * which that key had once the call had looked it up is finished.
   */
  lemma GetWaits(run: seq<System>, m: nat, n: nat, i: nat, front: bool, keys: seq<Key>) returns (k: nat)
    requires Run(run) && m <= n < |run| && i < |run[m].procs| && i < |run[n].procs|
    requires run[m].procs[i] == Caller(Inform(front, keys, true)) && keys != [] && run[n].procs[i] == Done
    ensures m <= k < n && Begins(run, k, i, Inform(front, keys, true)) && keys[0] in run[k + 1].g.t.ids
    ensures At(run[n].g.t, run[k + 1].g.t.ids[keys[0]], Finished)
  {
    var at, j, created, wanted := TrackInform(run, m, n, i, front, keys, true);
    k := at;
    FirstWaited(run[k + 1].g.t, run[n].g.t, front, keys, created, wanted);
  }

  lemma FirstWaited(t: Table, t': Table, front: bool, keys: seq<Key>, created: seq<Key>, wanted: seq<TaskId>)
    requires LookedUp(t, keys, true, wanted) && keys != [] && InformNow(t', Done, front, created, wanted)
    ensures keys[0] in t.ids && At(t', t.ids[keys[0]], Finished)
  {}

  lemma AllWaited(t: Table, t': Table, front: bool, keys: seq<Key>, created: seq<Key>, wanted: seq<TaskId>)
    requires LookedUp(t, keys, true, wanted) && InformNow(t', Awaiting([]), front, created, wanted)
    ensures forall l | 0 <= l < |keys| :: keys[l] in t.ids && At(t', t.ids[keys[l]], Finished)
  {
    AwaitingEnds(t', wanted);
    forall l | 0 <= l < |keys| ensures keys[l] in t.ids && At(t', t.ids[keys[l]], Finished) {
      assert wanted[l] in wanted;
    }
  }

  /** A Collect that is not cut short by an error comes to the end of its list, and then all its keys are handled. */
  lemma CollectWaits(run: seq<System>, m: nat, n: nat, i: nat, front: bool, keys: seq<Key>) returns (k: nat)
    requires Run(run) && m <= n < |run| && i < |run[m].procs| && i < |run[n].procs|
    requires run[m].procs[i] == Caller(Inform(front, keys, true)) && run[n].procs[i] == Awaiting([])
    ensures m <= k < n && Begins(run, k, i, Inform(front, keys, true))
    ensures forall l | 0 <= l < |keys| ::
      keys[l] in run[k + 1].g.t.ids && At(run[n].g.t, run[k + 1].g.t.ids[keys[l]], Finished)
  {
    var at, j, created, wanted := TrackInform(run, m, n, i, front, keys, true);
    k := at;
    AllWaited(run[k + 1].g.t, run[n].g.t, front, keys, created, wanted);
  }

  /** A Collect may be cut short by the error of any key it has waited for. */
  lemma CollectMayStop(s: System, i: nat)
    requires !s.g.panicked && i < |s.procs| && s.procs[i].Awaiting? && s.procs[i].wanted != []
    requires At(s.g.t, s.procs[i].wanted[0], Finished)
    ensures Step(s, s.(procs := s.procs[i := Done]))
  {
    assert s.procs[i := Done] == s.procs[i := Done] + [];
    assert Moves(s, Alone(i, Done, []), s.(procs := s.procs[i := Done]));
  }

  /** Inform and InformFront wait for nobody: until they return they can always move. */
  lemma InformDoesNotWait(run: seq<System>, m: nat, n: nat, i: nat, front: bool, keys: seq<Key>)
    requires Run(run) && m <= n < |run| && i < |run[m].procs| && run[m].procs[i] == Caller(Inform(front, keys, false))
    ensures i < |run[n].procs| && (run[n].procs[i] == Done || Free(run[n].g, run[n].procs[i]))
  {
    var k, j, created, wanted := TrackInform(run, m, n, i, front, keys, false);
  }

  /**
   * By the time any of these calls returns, it has put into the line the keys that were new to the
   * map when it began, in the order in which it was given them: behind all others or, for
   * InformFront, in front of the queue.
   */
  lemma InformEnqueues(run: seq<System>, m: nat, n: nat, i: nat, front: bool, keys: seq<Key>, wait: bool)
    returns (k: nat, j: nat, created: seq<Key>)
    requires Run(run) && m <= n < |run| && i < |run[m].procs| && i < |run[n].procs|
    requires run[m].procs[i] == Caller(Inform(front, keys, wait)) && run[n].procs[i] == Done
    ensures m <= k < j < n && Begins(run, k, i, Inform(front, keys, wait))
    ensures NewInOrder(run[k].g.t, keys, created) && Enqueued(run, j, front, created)
  {
    var wanted;
    k, j, created, wanted := TrackInform(run, m, n, i, front, keys, wait);
  }

  // ---------------------------------------------------------------------------------------
  // Limit

  /** By the time Limit has had any effect the limit has been set to the number given, or to 1 if that is less. */
  lemma {:induction false} LimitIsSet(run: seq<System>, m: nat, n: nat, i: nat, limit: int) returns (k: nat)
    requires Run(run) && m <= n < |run| && i < |run[m].procs| && i < |run[n].procs|
    requires run[m].procs[i] == Caller(SetLimit(limit)) && run[n].procs[i] != Caller(SetLimit(limit))
    ensures m <= k < n && Begins(run, k, i, SetLimit(limit))
    ensures run[k + 1].g.w.grantLimit == if limit < 1 then 1 else limit
    decreases n - m
  {
    RunSeen(run, m, i);
    if run[m + 1].procs[i] == run[m].procs[i] {
      k := LimitIsSet(run, m + 1, n, i, limit);
    } else {
      k := m;
      LimitSound(run[m].g.w, limit);
    }
  }

  // ---------------------------------------------------------------------------------------
  // Stats

  /** How far a call of Stats has come, and when it read what it has read. */
  ghost predicate StatsNow(run: seq<System>, m: nat, k: nat, l: nat, n: nat, p: Proc) {
    match p
    case Caller(call) => call == Stats
    case StatsHalf(seen) => m <= k < n <= |run| && seen == run[k].g.t.handled
    case StatsRead(seen, total) =>
      m <= k < l < n <= |run| && seen == run[k].g.t.handled && total == |run[l].g.t.ids|
    case _ => false
  }

  lemma StatsGoesOn(run: seq<System>, m: nat, k: nat, l: nat, n: nat, i: nat) returns (k': nat, l': nat)
    requires n + 1 < |run| && Seen(run[n], run[n + 1], i) && m <= n && StatsNow(run, m, k, l, n, run[n].procs[i])
    ensures StatsNow(run, m, k', l', n + 1, run[n + 1].procs[i])
  {
    k' := if run[n].procs[i].Caller? then n else k;
    l' := if run[n].procs[i].StatsHalf? then n else l;
  }

  lemma {:induction false} TrackStats(run: seq<System>, m: nat, n: nat, i: nat) returns (k: nat, l: nat)
    requires Run(run) && m <= n < |run| && i < |run[m].procs| && run[m].procs[i] == Caller(Stats)
    ensures i < |run[n].procs| && StatsNow(run, m, k, l, n, run[n].procs[i])
  {
    k, l := 0, 0;
    if m < n {
      k, l := TrackStats(run, m, n - 1, i);
      RunSeen(run, n - 1, i);
      k, l := StatsGoesOn(run, m, k, l, n - 1, i);
    }
  }

  /** The numbers Stats returns are how many keys were handled, and then how many were known, while it ran. */
  lemma StatsReads(run: seq<System>, m: nat, n: nat, i: nat) returns (k: nat, l: nat)
    requires Run(run) && m <= n < |run| && i < |run[m].procs| && i < |run[n].procs|
    requires run[m].procs[i] == Caller(Stats) && run[n].procs[i].StatsRead?
    ensures m <= k < l < n && run[n].procs[i].seen == |HandledKeys(run[k].g.t)|
    ensures run[n].procs[i].total == |run[l].g.t.ids|
  {
    k, l := TrackStats(run, m, n, i);
    RunInv(run, k);
  }

  // ---------------------------------------------------------------------------------------
  // DequeueAll

  /** The goroutine of a DequeueAll that has taken these tasks out of the map. */
  ghost predicate EjectNow(t: Table, p: Proc, ejected: seq<TaskId>) {
    match p
    case Ejecting(left) =>
      |left| <= |ejected| && left == ejected[|ejected| - |left|..] && AllFinished(t, ejected[..|ejected| - |left|])
    case Done => AllFinished(t, ejected)
    case _ => false
  }

  lemma EjectGoesOn(s: System, s': System, i: nat, ejected: seq<TaskId>)
    requires Inv(s') && Seen(s, s', i) && EjectNow(s.g.t, s.procs[i], ejected)
    requires forall id: TaskId :: At(s.g.t, id, Finished) ==> At(s'.g.t, id, Finished)
    ensures EjectNow(s'.g.t, s'.procs[i], ejected)
  {
    var p := s.procs[i];
    if s'.procs[i] != p && p.Ejecting? {
      if p.ejected == [] { AwaitingEnds(s.g.t, ejected); } else { OneEjected(s.g, s'.g, p.ejected, ejected); }
    }
  }

  lemma OneEjected(g: Shared, g': Shared, left: seq<TaskId>, ejected: seq<TaskId>)
    requires left != [] && |left| <= |ejected| && left == ejected[|ejected| - |left|..]
    requires AllFinished(g.t, ejected[..|ejected| - |left|]) && g' == OpenGate(g, left[0]) && !g'.panicked
    requires forall id: TaskId :: At(g.t, id, Finished) ==> At(g'.t, id, Finished)
    ensures left[1..] == ejected[|ejected| - |left| + 1..] && AllFinished(g'.t, ejected[..|ejected| - |left| + 1])
  {
    var n := |ejected| - |left|;
    assert ejected[..n + 1] == ejected[..n] + [left[0]];
  }

  lemma EjectStarts(s: System, s': System, i: nat)
    requires Inv(s) && Inv(s') && Seen(s, s', i) && s.procs[i] == Caller(DequeueAll) && s'.procs[i] != s.procs[i]
    ensures var ejected := Eject(s.g.t, s.g.w.keys).1;
      && s'.g.w.keys == [] && EjectNow(s'.g.t, s'.procs[i], ejected) && |ejected| == |s.g.w.keys|
      && forall j | 0 <= j < |ejected| ::
           var key := s.g.w.keys[j];
           key in s.g.t.ids && key !in s'.g.t.ids && s.g.t.ids[key] == ejected[j]
  {
    BalancedIsSolvent(s);
    EjectFinds(s.g.t, s.g.w.keys);
  }

  lemma {:induction false} TrackDequeue(run: seq<System>, m: nat, n: nat, i: nat)
    returns (k: nat, ejected: seq<TaskId>)
    requires Run(run) && m <= n < |run| && i < |run[m].procs| && run[m].procs[i] == Caller(DequeueAll)
    ensures i < |run[n].procs|
    ensures run[n].procs[i] == Caller(DequeueAll) || (
      && m <= k < n && Begins(run, k, i, DequeueAll) && run[k + 1].g.w.keys == []
      && EjectNow(run[n].g.t, run[n].procs[i], ejected) && |ejected| == |run[k].g.w.keys|
      && forall j | 0 <= j < |ejected| ::
           var key := run[k].g.w.keys[j];
           key in run[k].g.t.ids && key !in run[k + 1].g.t.ids && run[k].g.t.ids[key] == ejected[j])
  {
    k, ejected := 0, [];
    if m < n {
      k, ejected := TrackDequeue(run, m, n - 1, i);
      RunSeen(run, n - 1, i);
      if run[n - 1].procs[i] != Caller(DequeueAll) {
        EjectGoesOn(run[n - 1], run[n], i, ejected);
      } else if run[n].procs[i] != Caller(DequeueAll) {
        k, ejected := n - 1, Eject(run[n - 1].g.t, run[n - 1].g.w.keys).1;
        EjectStarts(run[n - 1], run[n], i);
      }
    }
  }

  /**
   * DequeueAll leaves the queue empty at once, takes every key that was in it out of the map, and
   * by the time it returns has released all who wait for those keys.
   */
  lemma DequeueReleases(run: seq<System>, m: nat, n: nat, i: nat) returns (k: nat)
    requires Run(run) && m <= n < |run| && i < |run[m].procs| && i < |run[n].procs|
    requires run[m].procs[i] == Caller(DequeueAll) && run[n].procs[i] == Done
    ensures m <= k < n && Begins(run, k, i, DequeueAll) && run[k + 1].g.w.keys == []
    ensures forall key <- run[k].g.w.keys ::
      key in run[k].g.t.ids && key !in run[k + 1].g.t.ids && At(run[n].g.t, run[k].g.t.ids[key], Finished)
  {
    var ejected;
    k, ejected := TrackDequeue(run, m, n, i);
    forall key | key in run[k].g.w.keys
      ensures key in run[k].g.t.ids && key !in run[k + 1].g.t.ids && At(run[n].g.t, run[k].g.t.ids[key], Finished)
    {
      var j: nat :| j < |run[k].g.w.keys| && run[k].g.w.keys[j] == key;
      assert ejected[j] in ejected;
    }
  }

  // ---------------------------------------------------------------------------------------
  // Handlers

  /** The handler of a key may be anything that keeps its locks in pairs, and may end either way. */
  lemma AnyHandlerMayRun(s: System, i: nat, code: seq<Instr>) returns (s': System, h: Handler)
    requires Inv(s) && i < |s.procs| && s.procs[i].Starting? && Balanced(code, None)
    ensures Step(s, s') && i < |s'.procs| && s'.procs[i] == Handling(h, AtCode)
    ensures h.code == code && h.key == s.procs[i].key && !h.detached && At(s'.g.t, h.task, Running)
  {
    var key := s.procs[i].key;
    InvReady(s, i);
    assert HeldBy(Unstarted(key), s.procs[i]) <= Owed(s.g, Unstarted(key));
    var id := s.g.t.ids[key];
    h := Handler(key, id, code, false, false, false, None);
    var g' := s.g.(t := SetStage(s.g.t, id, Running), started := s.g.started + [key]);
    s' := System(g', s.procs[i := Handling(h, AtCode)]);
    assert s'.procs == s.procs[i := Handling(h, AtCode)] + [];
    assert Moves(s, Alone(i, Handling(h, AtCode), []), s');
  }

  lemma HandlerMayEnd(s: System, i: nat, out: Outcome)
    requires !s.g.panicked && i < |s.procs| && s.procs[i].Handling? && s.procs[i].at.AtCode? && s.procs[i].h.code == []
    ensures Step(s, s.(procs := s.procs[i := Handling(s.procs[i].h, Finishing(out))]))
  {
    var p' := Handling(s.procs[i].h, Finishing(out));
    assert s.procs[i := p'] == s.procs[i := p'] + [];
    assert Moves(s, Alone(i, p', []), s.(procs := s.procs[i := p']));
  }

  /** A goroutine whose handler has called Goexit starts no other: it only hands on its grant, if it has one. */
  predicate Ended(p: Proc) {
    p == Done || p == Exiting
      || (p.Handling? && (p.at == Finishing(Goexited) || p.at == Counted(Goexited)))
  }

  lemma EndedGoesOn(s: System, s': System, i: nat)
    requires Inv(s) && Seen(s, s', i) && Ended(s.procs[i])
    requires s'.procs[i] == s.procs[i] || exists spawn :: LocalStep(s.g, s.procs[i], s'.g, s'.procs[i], spawn)
    ensures Ended(s'.procs[i])
  {}

  lemma EndedMovesAlone(s: System, move: Move, s': System, i: nat)
    requires Moves(s, move, s') && i < |s.procs| && Ended(s.procs[i])
    ensures i < |s'.procs|
    ensures s'.procs[i] == s.procs[i] || exists spawn :: LocalStep(s.g, s.procs[i], s'.g, s'.procs[i], spawn)
  {
    if move.Alone? && move.i == i { assert LocalStep(s.g, s.procs[i], s'.g, s'.procs[i], move.spawn); }
  }

  lemma {:induction false} GoexitEnds(run: seq<System>, m: nat, n: nat, i: nat)
    requires Run(run) && m <= n < |run| && i < |run[m].procs|
    requires run[m].procs[i].Handling? && run[m].procs[i].at == Finishing(Goexited)
    ensures i < |run[n].procs| && Ended(run[n].procs[i])
  {
    if m < n {
      GoexitEnds(run, m, n - 1, i);
      RunSeen(run, n - 1, i);
      assert Step(run[n - 1], run[n]);
      var move :| Moves(run[n - 1], move, run[n]);
      EndedMovesAlone(run[n - 1], move, run[n], i);
      EndedGoesOn(run[n - 1], run[n], i);
    }
  }
}
