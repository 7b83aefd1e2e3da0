/** The invariant of the protocol, and that every step of every goroutine keeps it. */
module Safety {
  import opened Names
  import opened WorkStates
  import opened Tables
  import opened Locks
  import opened Sums
  import opened Scheduler
  import opened Ledger

  ghost predicate StartedOk(g: Shared) {
    forall k :: Count(g.started, k) == One(Begun(g.t, k))
  }

  ghost predicate SharedOk(g: Shared) {
    !g.panicked && Sound(g.w) && TableOk(g.t) && LocksOk(g.m) && StartedOk(g)
  }

  /** A waiter's channel is closed, or is the one its key's holder will pass the lock through. */
  ghost predicate ChanOk(m: Mutexes, lock: LockKey, ch: Chan) {
    ch < m.made && (ch in m.closed || (lock in m.chans && m.chans[lock] == ch))
  }

  function WaitsOn(at: Point): Option<Chan> {
    match at
    case Detaching(_, waiting) => waiting
    case Fetched(ch) => Some(ch)
    case Blocked(ch) => Some(ch)
    case _ => None
  }

  /** Within a lock call the handle is detached if it was on entry or if the call detached it. */
  ghost predicate LockCall(h: Handler) {
    && h.code != [] && h.code[0].Lock?
    && if h.lockDetached then h.detached && !h.entry else h.detached == h.entry
  }

  ghost predicate PointOk(h: Handler, at: Point) {
    match at
    case AtCode => Balanced(h.code, h.holds) && !h.lockDetached
    case Detaching(_, waiting) =>
      && !h.detached && !h.lockDetached && Balanced(h.code, h.holds)
      && if waiting.Some? then LockCall(h) else h.code != [] && h.code[0].Detach?
    case AtLock => LockCall(h) && Balanced(h.code, h.holds)
    case Fetched(_) => LockCall(h) && Balanced(h.code, h.holds)
    case Blocked(_) => LockCall(h) && Balanced(h.code, h.holds) && h.detached
    case Acquired => LockCall(h) && h.holds == Some(h.code[0].m) && Balanced(h.code[1..], h.holds)
    case Receiving =>
      && h.detached && h.code != []
      && ( || (h.code[0].Reattach? && !h.lockDetached && Balanced(h.code, h.holds))
           || (LockCall(h) && h.lockDetached && h.holds == Some(h.code[0].m) && Balanced(h.code[1..], h.holds)))
    case Finishing(_) => h.code == [] && h.holds.None?
    case Counted(_) => h.code == [] && h.holds.None?
  }

  ghost predicate TasksKnown(t: Table, ids: seq<TaskId>) {
    forall i | 0 <= i < |ids| :: ids[i] < |t.all|
  }

  ghost predicate ProcOk(g: Shared, p: Proc) {
    match p
    case Scheduling(_, _, wanted) => TasksKnown(g.t, wanted)
    case HandingOut(_, _, wanted) => TasksKnown(g.t, wanted)
    case Awaiting(wanted) => TasksKnown(g.t, wanted)
    case AwaitingEmptied(ch) => ch < g.emptiedMade
    case StatsHalf(seen) => seen <= g.t.handled
    case StatsRead(seen, total) => seen <= total
    case Leaving(duty) => !duty.Work?
    case Handling(h, at) =>
      && h.task < |g.t.all| && g.t.all[h.task].key == h.key
      && PointOk(h, at)
      && (WaitsOn(at).Some? ==> ChanOk(g.m, h.code[0].m, WaitsOn(at).value))
    case _ => true
  }

  ghost predicate Inv(s: System) {
    SharedOk(s.g) && Balances(s) && forall p <- s.procs :: ProcOk(s.g, p)
  }

  // ---------------------------------------------------------------------------------------

  /** How the shared state may change under a goroutine that is not looking. */
  ghost predicate Evolves(g: Shared, g': Shared) {
    && Extends(g.t, g'.t)
    && g.emptiedMade <= g'.emptiedMade
    && forall lock, ch :: ChanOk(g.m, lock, ch) ==> ChanOk(g'.m, lock, ch)
  }

  lemma EvolvesKeeps(g: Shared, g': Shared, p: Proc)
    requires Evolves(g, g') && ProcOk(g, p)
    ensures ProcOk(g', p)
  {}

  /** No account is ever overdrawn: a queued key is pending, and an emptied channel is closed once. */
  ghost predicate Solvent(g: Shared) {
    && (forall k :: Count(g.w.keys, k) <= One(KeyAt(g.t, k, Pending)))
    && (forall ch: Chan :: One(ch in g.emptiedClosed) + One(g.w.emptied == Some(ch)) <= One(ch < g.emptiedMade))
  }

  lemma BalancedIsSolvent(s: System)
    requires Balances(s)
    ensures Solvent(s.g)
  {
    forall a: Account | !a.Receivers? ensures Owed(s.g, a) >= 0 {
      SumNonNegative(Held(a), s.procs);
      assert Sum(Held(a), s.procs) == Owed(s.g, a);
    }
    forall k ensures Count(s.g.w.keys, k) <= One(KeyAt(s.g.t, k, Pending)) {
      assert Owed(s.g, Unstarted(k)) >= 0;
    }
    forall ch: Chan ensures One(ch in s.g.emptiedClosed) + One(s.g.w.emptied == Some(ch)) <= One(ch < s.g.emptiedMade) {
      assert Owed(s.g, Closer(ch)) >= 0;
    }
  }

  // ---------------------------------------------------------------------------------------
  // The books: each kind of step, account by account.

  lemma InformSettles(g: Shared, p: Proc, g': Shared, p': Proc, a: Account)
    requires p.Caller? && p.call.Inform? && TableOk(g.t) && LocalStep(g, p, g', p', [])
    ensures Settled(g, p, g', p', [], a)
  {
    match a
    case Owner(id, stage) => if stage in {Running, Handled, Ejected} { CreateCountsTask(g.t, p.call.keys, id, stage); }
    case Unstarted(key) => CreateCountsKey(g.t, p.call.keys, key);
    case Promised(key) => CreateCountsKey(g.t, p.call.keys, key);
    case _ =>
  }

  lemma LimitSettles(g: Shared, p: Proc, g': Shared, p': Proc, a: Account)
    requires p.Caller? && p.call.SetLimit? && Sound(g.w) && LocalStep(g, p, g', p', [])
    ensures Settled(g, p, g', p', [], a)
  {
    LimitSound(g.w, p.call.limit);
  }

  lemma DequeueSettles(g: Shared, p: Proc, g': Shared, p': Proc, a: Account)
    requires p == Caller(DequeueAll) && TableOk(g.t) && Solvent(g) && LocalStep(g, p, g', p', []) && !g'.panicked
    ensures Settled(g, p, g', p', [], a)
  {
    match a
    case Owner(id, stage) => if stage in {Running, Handled, Ejected} { EjectCountsTask(g.t, g.w.keys, id, stage); }
    case Unstarted(key) => EjectCountsKey(g.t, g.w.keys, key);
    case Promised(key) => EjectCountsKey(g.t, g.w.keys, key);
    case _ =>
  }

  lemma WaitSettles(g: Shared, p: Proc, g': Shared, p': Proc, a: Account)
    requires (p == Caller(AwaitAll) || p == Caller(Stats)) && Solvent(g) && LocalStep(g, p, g', p', [])
    ensures Settled(g, p, g', p', [], a)
  {}

  lemma ScheduleSettles(g: Shared, p: Proc, g': Shared, p': Proc, a: Account)
    requires p.Scheduling? && Sound(g.w) && LocalStep(g, p, g', p', [])
    ensures Settled(g, p, g', p', [], a)
  {
    if p.keys != [] { ScheduleOwed(g, p.front, p.keys, a); }
  }

  lemma ScheduleOwed(g: Shared, front: bool, keys: seq<Key>, a: Account)
    requires Sound(g.w)
    ensures var (w, now) := Schedule(g.w, front, keys);
      Owed(g.(w := w), a) - Owed(g, a)
        == HeldBy(a, HandingOut(now, 0, [])) - (if a.Unstarted? then Count(keys, a.key) else 0)
  {
    if a.Unstarted? || a.Promised? {
      ScheduleCounts(g.w, front, keys, a.key);
    } else {
      ScheduleSound(g.w, front, keys);
    }
  }

  lemma ScheduleCounts(w: WorkState, front: bool, keys: seq<Key>, key: Key)
    requires Sound(w)
    ensures var (w', now) := Schedule(w, front, keys);
      && Count(w'.keys, key) == Count(w.keys, key) + Count(keys, key) - Count(now, key)
      && Count(w'.granted, key) == Count(w.granted, key) + Count(now, key)
  {
    CountSplit(keys, |Schedule(w, front, keys).1|);
  }

  lemma HandOutSettles(g: Shared, p: Proc, g': Shared, p': Proc, spawn: seq<Proc>, a: Account)
    requires p.HandingOut? && LocalStep(g, p, g', p', spawn)
    ensures Settled(g, p, g', p', spawn, a)
  {
    if p.keys != [] { assert p.keys == [p.keys[0]] + p.keys[1..]; }
  }

  lemma EjectSettles(g: Shared, p: Proc, g': Shared, p': Proc, a: Account)
    requires p.Ejecting? && LocalStep(g, p, g', p', [])
    requires p.ejected != [] ==> At(g.t, p.ejected[0], Ejected)
    ensures Settled(g, p, g', p', [], a)
  {
    if p.ejected != [] { assert p.ejected == [p.ejected[0]] + p.ejected[1..]; }
  }

  lemma StartSettles(g: Shared, p: Proc, g': Shared, p': Proc, a: Account)
    requires p.Starting? && TableOk(g.t) && KeyAt(g.t, p.key, Pending) && LocalStep(g, p, g', p', [])
    ensures Settled(g, p, g', p', [], a)
  {}

  /** tryGetQueuedKey turns the caller's grant into the duty it returns. */
  lemma TryGetSettles(w: WorkState, a: Account, g: Shared, g': Shared)
    requires g.w == w && g' == g.(w := TryGet(w).0) && Sound(w)
    ensures DutyHeld(a, TryGet(w).1) - One(a == Grants) == Owed(g', a) - Owed(g, a)
  {
    if (a.Unstarted? || a.Promised?) && TryGet(w).1.Work? { TryGetCounts(w, a.key); }
  }

  lemma TryGetCounts(w: WorkState, key: Key)
    requires TryGet(w).1.Work?
    ensures var (w', duty) := TryGet(w);
      && Count(w'.keys, key) == Count(w.keys, key) - One(duty.key == key)
      && Count(w'.granted, key) == Count(w.granted, key) + One(duty.key == key)
  {
    assert w.keys == [w.keys[0]] + w.keys[1..];
  }

  /** A duty done is a duty discharged. */
  lemma DutySettles(g: Shared, duty: Duty, g': Shared, spawn: seq<Proc>, a: Account)
    requires DutyStep(g, duty, g', spawn)
    requires duty.CloseEmptied? ==> duty.ch !in g.emptiedClosed
    ensures HeldByNew(a, spawn) - DutyHeld(a, duty) == Owed(g', a) - Owed(g, a)
  {}

  lemma ReattachSettles(g: Shared, h: Handler, at: Point, g': Shared, p': Proc, a: Account)
    requires (at.AtCode? || at.Acquired?) && h.detached && h.code != [] && ReattachStep(g, h, g', p')
    ensures Settled(g, Handling(h, at), g', p', [], a)
  {}

  lemma DetachSettles(g: Shared, h: Handler, at: Point, waiting: Option<Chan>, g': Shared, p': Proc, a: Account)
    requires (at.AtCode? || at.Fetched?) && !h.detached && Sound(g.w) && DetachStep(g, h, waiting, g', p')
    ensures Settled(g, Handling(h, at), g', p', [], a)
  {
    TryGetSettles(g.w, a, g, g');
  }

  lemma InstrSettles(g: Shared, h: Handler, g': Shared, p': Proc, a: Account)
    requires h.code != [] && Sound(g.w) && InstrStep(g, h, g', p') && !g'.panicked
    ensures Settled(g, Handling(h, AtCode), g', p', [], a)
  {
    match h.code[0]
    case Detach => if !h.detached { DetachSettles(g, h, AtCode, None, g', p', a); }
    case Reattach => if h.detached { ReattachSettles(g, h, AtCode, g', p', a); }
    case _ =>
  }

  lemma LockSettles(g: Shared, h: Handler, m: LockKey, g': Shared, p': Proc, a: Account)
    requires h.holds.None? && LockStep(g, h, m, g', p')
    ensures Settled(g, Handling(h, AtLock), g', p', [], a)
  {}

  lemma FinishSettles(g: Shared, h: Handler, at: Point, g': Shared, p': Proc, a: Account)
    requires (at.Finishing? && At(g.t, h.task, Running)) || (at.Counted? && At(g.t, h.task, Handled))
    requires h.holds.None? && HandlerStep(g, h, at, g', p', [])
    ensures Settled(g, Handling(h, at), g', p', [], a)
  {}

  lemma HandlerSettles(g: Shared, h: Handler, at: Point, g': Shared, p': Proc, spawn: seq<Proc>, a: Account)
    requires PointOk(h, at) && Sound(g.w) && HandlerStep(g, h, at, g', p', spawn) && !g'.panicked
    requires at.Finishing? ==> At(g.t, h.task, Running)
    requires at.Counted? ==> At(g.t, h.task, Handled)
    requires at.Detaching? && at.duty.CloseEmptied? ==> at.duty.ch !in g.emptiedClosed
    ensures Settled(g, Handling(h, at), g', p', spawn, a)
  {
    match at
    case AtCode => if h.code != [] { InstrSettles(g, h, g', p', a); }
    case Detaching(duty, waiting) => DutySettles(g, duty, g', spawn, a);
    case AtLock => LockSettles(g, h, h.code[0].m, g', p', a);
    case Fetched(ch) => if !h.lockDetached && !h.detached { DetachSettles(g, h, at, Some(ch), g', p', a); }
    case Acquired => if h.lockDetached && h.detached { ReattachSettles(g, h, at, g', p', a); }
    case Finishing(_) => FinishSettles(g, h, at, g', p', a);
    case Counted(_) => FinishSettles(g, h, at, g', p', a);
    case _ =>
  }

  // ---------------------------------------------------------------------------------------
  // The shared state

  lemma CallShared(g: Shared, call: Call, g': Shared, p': Proc)
    requires SharedOk(g) && Solvent(g) && CallStep(g, call, g', p')
    ensures SharedOk(g') && Evolves(g, g')
  {
    match call
    case Inform(front, keys, wait) => CreateTasks(g.t, keys);
    case SetLimit(limit) => LimitSound(g.w, limit);
    case DequeueAll => EjectTasks(g.t, g.w.keys);
    case AwaitAll =>
    case Stats =>
  }

  lemma StartShared(g: Shared, key: Key, g': Shared, p': Proc)
    requires SharedOk(g) && KeyAt(g.t, key, Pending) && StartStep(g, key, g', p')
    ensures SharedOk(g') && Evolves(g, g')
  {
    StartTask(g.t, key);
    forall k ensures Count(g'.started, k) == One(Begun(g'.t, k)) {
      assert Count(g'.started, k) == Count(g.started, k) + One(k == key);
    }
  }

  lemma DutyShared(g: Shared, duty: Duty, g': Shared, spawn: seq<Proc>)
    requires SharedOk(g) && DutyStep(g, duty, g', spawn)
    requires duty.CloseEmptied? ==> duty.ch !in g.emptiedClosed
    ensures SharedOk(g') && Evolves(g, g')
  {}

  lemma GateShared(g: Shared, id: TaskId)
    requires SharedOk(g) && (At(g.t, id, Handled) || At(g.t, id, Ejected))
    ensures SharedOk(OpenGate(g, id)) && Evolves(g, OpenGate(g, id))
  {
    OpenTask(g.t, id);
  }

  lemma LockShared(g: Shared, h: Handler, m: LockKey, g': Shared, p': Proc)
    requires SharedOk(g) && LockStep(g, h, m, g', p')
    ensures SharedOk(g') && Evolves(g, g')
  {}

  lemma ForgetShared(g: Shared, m: LockKey)
    requires SharedOk(g) && m in g.m.chans
    ensures SharedOk(Forget(g, m)) && Evolves(g, Forget(g, m))
  {}

  lemma HandlerShared(g: Shared, h: Handler, at: Point, g': Shared, p': Proc, spawn: seq<Proc>)
    requires SharedOk(g) && PointOk(h, at) && HandlerStep(g, h, at, g', p', spawn)
    requires at.AtCode? && h.code != [] && h.code[0].Unlock? ==> h.code[0].m in g.m.chans
    requires at.AtCode? || at.Fetched? ==> h.detached || g.w.grants >= 1
    requires at.Finishing? ==> At(g.t, h.task, Running)
    requires at.Counted? ==> At(g.t, h.task, Handled)
    requires at.Detaching? && at.duty.CloseEmptied? ==> at.duty.ch !in g.emptiedClosed
    ensures SharedOk(g') && Evolves(g, g')
  {
    match at
    case AtCode => if h.code != [] && h.code[0].Detach? && !h.detached { TryGetSound(g.w); }
    case Detaching(duty, waiting) => DutyShared(g, duty, g', spawn);
    case AtLock => LockShared(g, h, h.code[0].m, g', p');
    case Fetched(_) => if !h.detached { TryGetSound(g.w); }
    case Finishing(_) => CountTask(g.t, h.task);
    case Counted(_) => GateShared(g, h.task);
    case _ =>
  }

  // ---------------------------------------------------------------------------------------
  // The goroutines

  lemma CallerOk(g: Shared, call: Call, g': Shared, p': Proc)
    requires SharedOk(g) && SharedOk(g') && Solvent(g) && CallStep(g, call, g', p')
    ensures ProcOk(g', p')
  {
    match call
    case Inform(front, keys, wait) => CreateFinds(g.t, keys);
    case _ =>
  }

  lemma InstrOk(g: Shared, h: Handler, g': Shared, p': Proc)
    requires ProcOk(g, Handling(h, AtCode)) && h.code != [] && Evolves(g, g')
    requires InstrStep(g, h, g', p') && !g'.panicked
    ensures ProcOk(g', p')
  {}

  lemma HandlerOk(g: Shared, h: Handler, at: Point, g': Shared, p': Proc, spawn: seq<Proc>)
    requires ProcOk(g, Handling(h, at)) && LocksOk(g.m) && Evolves(g, g')
    requires HandlerStep(g, h, at, g', p', spawn) && !g'.panicked
    ensures ProcOk(g', p') && forall q <- spawn :: ProcOk(g', q)
  {
    if at.AtCode? && h.code != [] { InstrOk(g, h, g', p'); }
  }

  /** Everything one goroutine can break by a step of its own, it keeps. */
  ghost predicate Kept(g: Shared, p: Proc, g': Shared, p': Proc, spawn: seq<Proc>) {
    && SharedOk(g') && Evolves(g, g') && |spawn| <= 1
    && (forall a :: Settled(g, p, g', p', spawn, a))
    && ProcOk(g', p') && forall q <- spawn :: ProcOk(g', q)
  }

  ghost predicate Ready(g: Shared, p: Proc) {
    SharedOk(g) && Solvent(g) && ProcOk(g, p) && Backed(g, p)
  }

  lemma CallKept(g: Shared, p: Proc, g': Shared, p': Proc)
    requires p.Caller? && Ready(g, p) && LocalStep(g, p, g', p', [])
    ensures Kept(g, p, g', p', [])
  {
    CallShared(g, p.call, g', p');
    CallerOk(g, p.call, g', p');
    forall a ensures Settled(g, p, g', p', [], a) {
      match p.call
      case Inform(_, _, _) => InformSettles(g, p, g', p', a);
      case SetLimit(_) => LimitSettles(g, p, g', p', a);
      case DequeueAll => DequeueSettles(g, p, g', p', a);
      case _ => WaitSettles(g, p, g', p', a);
    }
  }

  lemma EnqueueKept(g: Shared, p: Proc, g': Shared, p': Proc, spawn: seq<Proc>)
    requires (p.Scheduling? || p.HandingOut?) && Ready(g, p) && LocalStep(g, p, g', p', spawn)
    ensures Kept(g, p, g', p', spawn)
  {
    if p.Scheduling? && p.keys != [] { ScheduleSound(g.w, p.front, p.keys); }
    forall a ensures Settled(g, p, g', p', spawn, a) {
      if p.Scheduling? { ScheduleSettles(g, p, g', p', a); } else { HandOutSettles(g, p, g', p', spawn, a); }
    }
  }

  lemma EjectKept(g: Shared, p: Proc, g': Shared, p': Proc)
    requires p.Ejecting? && Ready(g, p) && LocalStep(g, p, g', p', [])
    ensures Kept(g, p, g', p', [])
  {
    if p.ejected != [] {
      assert HeldBy(Owner(p.ejected[0], Ejected), p) <= Owed(g, Owner(p.ejected[0], Ejected));
      GateShared(g, p.ejected[0]);
    }
    forall a ensures Settled(g, p, g', p', [], a) { EjectSettles(g, p, g', p', a); }
  }

  lemma StartKept(g: Shared, p: Proc, g': Shared, p': Proc)
    requires p.Starting? && Ready(g, p) && LocalStep(g, p, g', p', [])
    ensures Kept(g, p, g', p', [])
  {
    assert HeldBy(Unstarted(p.key), p) <= Owed(g, Unstarted(p.key));
    StartShared(g, p.key, g', p');
    forall a ensures Settled(g, p, g', p', [], a) { StartSettles(g, p, g', p', a); }
  }

  lemma IdleKept(g: Shared, g': Shared, p': Proc)
    requires Ready(g, Idle) && LocalStep(g, Idle, g', p', [])
    ensures Kept(g, Idle, g', p', [])
  {
    assert HeldBy(Grants, Idle) <= Owed(g, Grants);
    TryGetSound(g.w);
    forall a ensures Settled(g, Idle, g', p', [], a) { IdleSettles(g, g', p', a); }
  }

  lemma IdleSettles(g: Shared, g': Shared, p': Proc, a: Account)
    requires Sound(g.w) && LocalStep(g, Idle, g', p', [])
    ensures Settled(g, Idle, g', p', [], a)
  {
    TryGetSettles(g.w, a, g, g');
  }

  lemma LeaverKept(g: Shared, p: Proc, g': Shared, p': Proc, spawn: seq<Proc>)
    requires (p.Leaving? || p == Exiting) && Ready(g, p) && LocalStep(g, p, g', p', spawn)
    ensures Kept(g, p, g', p', spawn)
  {
    if p.Leaving? {
      if p.duty.CloseEmptied? { assert HeldBy(Closer(p.duty.ch), p) <= Owed(g, Closer(p.duty.ch)); }
      DutyShared(g, p.duty, g', spawn);
    }
    forall a ensures Settled(g, p, g', p', spawn, a) {
      if p.Leaving? { DutySettles(g, p.duty, g', spawn, a); }
    }
  }

  lemma WaiterKept(g: Shared, p: Proc, g': Shared, p': Proc)
    requires (p.Awaiting? || p.AwaitingEmptied? || p.StatsHalf?) && Ready(g, p) && LocalStep(g, p, g', p', [])
    ensures Kept(g, p, g', p', [])
  {
    HandledKnown(g.t);
  }

  /** What the books say of a handler before its next step. */
  lemma HandlerBacked(g: Shared, h: Handler, at: Point)
    requires Ready(g, Handling(h, at))
    ensures at.AtCode? || at.Fetched? ==> h.detached || g.w.grants >= 1
    ensures h.holds.Some? ==> h.holds.value in g.m.chans
    ensures !at.Counted? ==> At(g.t, h.task, Running)
    ensures at.Counted? ==> At(g.t, h.task, Handled)
    ensures at.Detaching? && at.duty.CloseEmptied? ==> at.duty.ch !in g.emptiedClosed
  {
    var p := Handling(h, at);
    assert HeldBy(Grants, p) <= Owed(g, Grants);
    assert HeldBy(Owner(h.task, Running), p) <= Owed(g, Owner(h.task, Running));
    assert HeldBy(Owner(h.task, Handled), p) <= Owed(g, Owner(h.task, Handled));
    if h.holds.Some? { assert HeldBy(Holder(h.holds.value), p) <= Owed(g, Holder(h.holds.value)); }
    if at.Detaching? && at.duty.CloseEmptied? { assert HeldBy(Closer(at.duty.ch), p) <= Owed(g, Closer(at.duty.ch)); }
  }

  lemma HandlerKept(g: Shared, h: Handler, at: Point, g': Shared, p': Proc, spawn: seq<Proc>)
    requires Ready(g, Handling(h, at)) && HandlerStep(g, h, at, g', p', spawn)
    ensures Kept(g, Handling(h, at), g', p', spawn)
  {
    HandlerBacked(g, h, at);
    HandlerShared(g, h, at, g', p', spawn);
    HandlerOk(g, h, at, g', p', spawn);
    forall a ensures Settled(g, Handling(h, at), g', p', spawn, a) { HandlerSettles(g, h, at, g', p', spawn, a); }
  }

  predicate Worker(p: Proc) {
    p.Starting? || p == Idle || p.Leaving? || p == Exiting
  }

  lemma WorkerKept(g: Shared, p: Proc, g': Shared, p': Proc, spawn: seq<Proc>)
    requires Worker(p) && Ready(g, p) && LocalStep(g, p, g', p', spawn)
    ensures Kept(g, p, g', p', spawn)
  {
    if p.Starting? {
      StartKept(g, p, g', p');
    } else if p == Idle {
      IdleKept(g, g', p');
    } else {
      LeaverKept(g, p, g', p', spawn);
    }
  }

  lemma CallerKept(g: Shared, p: Proc, g': Shared, p': Proc, spawn: seq<Proc>)
    requires !Worker(p) && !p.Handling? && Ready(g, p) && LocalStep(g, p, g', p', spawn)
    ensures Kept(g, p, g', p', spawn)
  {
    if p.Caller? {
      CallKept(g, p, g', p');
    } else if p.Scheduling? || p.HandingOut? {
      EnqueueKept(g, p, g', p', spawn);
    } else if p.Ejecting? {
      EjectKept(g, p, g', p');
    } else {
      WaiterKept(g, p, g', p');
    }
  }

  lemma LocalKept(g: Shared, p: Proc, g': Shared, p': Proc, spawn: seq<Proc>)
    requires Ready(g, p) && LocalStep(g, p, g', p', spawn)
    ensures Kept(g, p, g', p', spawn)
  {
    if p.Handling? {
      HandlerKept(g, p.h, p.at, g', p', spawn);
    } else if Worker(p) {
      WorkerKept(g, p, g', p', spawn);
    } else {
      CallerKept(g, p, g', p', spawn);
    }
  }

  // ---------------------------------------------------------------------------------------
  // Whole steps

  lemma InvReady(s: System, i: nat)
    requires Inv(s) && i < |s.procs|
    ensures Ready(s.g, s.procs[i])
  {
    BalancedIsBacked(s, i);
    BalancedIsSolvent(s);
  }

  lemma AloneKeeps(s: System, move: Move, s': System)
    requires Inv(s) && move.Alone? && Moves(s, move, s')
    ensures Inv(s')
  {
    InvReady(s, move.i);
    LocalKept(s.g, s.procs[move.i], s'.g, move.p, move.spawn);
    AloneBalances(s, move.i, move.p, move.spawn, s');
    forall q | q in s'.procs ensures ProcOk(s'.g, q) {
      if q in s.procs { EvolvesKeeps(s.g, s'.g, q); }
    }
  }

  lemma SendHeld(g: Shared, a: Account, p: Proc, p': Proc)
    requires Sends(p, p') && ProcOk(g, p)
    ensures HeldBy(a, p') - HeldBy(a, p) == One(a == Receivers) - One(a == Grants)
  {}

  lemma ReceiveHeld(g: Shared, a: Account, q: Proc, q': Proc)
    requires Receives(q, q') && ProcOk(g, q)
    ensures HeldBy(a, q') - HeldBy(a, q) == One(a == Grants) - One(a == Receivers)
  {}

  lemma SendOk(g: Shared, p: Proc, p': Proc)
    requires Sends(p, p') && ProcOk(g, p)
    ensures ProcOk(g, p')
  {}

  /** The one that gets the key is one that waited for it. */
  lemma PassedKey(g: Shared, p: Proc, q: Proc, p': Proc, q': Proc)
    requires SharedOk(g) && ProcOk(g, p) && ProcOk(g, q) && Passes(g, p, q, p', q')
    ensures q.h.code[0].m == p.h.code[0].m && q.h.holds.None? && p.h.holds == Some(p.h.code[0].m)
  {}

  /** The two goroutines that meet exchange what one gives up. */
  lemma PairSettles(g: Shared, p: Proc, q: Proc, p': Proc, q': Proc, a: Account)
    requires SharedOk(g) && ProcOk(g, p) && ProcOk(g, q)
    requires (Sends(p, p') && Receives(q, q')) || Passes(g, p, q, p', q')
    ensures HeldBy(a, p') + HeldBy(a, q') == HeldBy(a, p) + HeldBy(a, q)
  {
    if Sends(p, p') && Receives(q, q') {
      SendHeld(g, a, p, p');
      ReceiveHeld(g, a, q, q');
    } else {
      PassedKey(g, p, q, p', q');
    }
  }

  lemma PairOk(g: Shared, p: Proc, q: Proc, p': Proc, q': Proc)
    requires SharedOk(g) && ProcOk(g, p) && ProcOk(g, q)
    requires (Sends(p, p') && Receives(q, q')) || Passes(g, p, q, p', q')
    ensures ProcOk(g, p') && ProcOk(g, q')
  {
    if Sends(p, p') && Receives(q, q') { SendOk(g, p, p'); }
  }

  lemma PairKeeps(s: System, move: Move, s': System)
    requires Inv(s) && (move.PassGrant? || move.PassLock?) && Moves(s, move, s')
    ensures Inv(s')
  {
    var p, q := s.procs[move.i], s.procs[move.j];
    assert ProcOk(s.g, p) && ProcOk(s.g, q);
    forall a ensures HeldBy(a, move.p) + HeldBy(a, move.q) == HeldBy(a, p) + HeldBy(a, q) {
      PairSettles(s.g, p, q, move.p, move.q, a);
    }
    PairBalances(s, move.i, move.j, move.p, move.q, s');
    PairOk(s.g, p, q, move.p, move.q);
  }

  lemma ForgetSettles(g: Shared, p: Proc, a: Account)
    requires AtUnlock(g, p) && ProcOk(g, p)
    ensures Settled(g, p, Forget(g, p.h.code[0].m), Released(p), [], a)
  {}

  lemma CloseKeeps(s: System, move: Move, s': System)
    requires Inv(s) && move.CloseLock? && Moves(s, move, s')
    ensures Inv(s')
  {
    var p := s.procs[move.i];
    var p' := Released(p);
    assert ProcOk(s.g, p);
    ForgetShared(s.g, p.h.code[0].m);
    forall a ensures Settled(s.g, p, s'.g, p', [], a) { ForgetSettles(s.g, p, a); }
    assert s'.procs == s.procs[move.i := p'] + [];
    AloneBalances(s, move.i, p', [], s');
    forall q | q in s'.procs ensures ProcOk(s'.g, q) {
      if q in s.procs { EvolvesKeeps(s.g, s'.g, q); }
    }
  }

  lemma MoveKeeps(s: System, move: Move, s': System)
    requires Inv(s) && Moves(s, move, s')
    ensures Inv(s')
  {
    match move
    case Alone(_, _, _) => AloneKeeps(s, move, s');
    case PassGrant(_, _, _, _) => PairKeeps(s, move, s');
    case PassLock(_, _, _, _) => PairKeeps(s, move, s');
    case CloseLock(_) => CloseKeeps(s, move, s');
  }

  lemma StepKeeps(s: System, s': System)
    requires Inv(s) && Step(s, s')
    ensures Inv(s')
  {
    var move :| Moves(s, move, s');
    MoveKeeps(s, move, s');
  }

  lemma InitInv(s: System)
    requires Init(s)
    ensures Inv(s)
  {
    forall a ensures Sum(Held(a), s.procs) == Owed(s.g, a) {
      SumZero(Held(a), s.procs);
    }
  }

  /** The invariant holds at every point of every run. */
  lemma {:induction false} RunInv(run: seq<System>, n: nat)
    requires Run(run) && n < |run|
    ensures Inv(run[n])
  {
    if n == 0 {
      InitInv(run[0]);
    } else {
      RunInv(run, n - 1);
      assert Step(run[n - 1], run[n]);
      StepKeeps(run[n - 1], run[n]);
    }
  }
}
