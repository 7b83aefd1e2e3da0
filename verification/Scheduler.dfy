/**
 * A parka map, its handlers and its callers as a transition system over any number of
 * goroutines. Each critical section is one step, and so is each action taken after a lock is
 * dropped: starting a goroutine, handing a grant over, closing a channel, opening a gate.
 */
module Scheduler {
  import opened Names
  import opened WorkStates
  import opened Tables
  import opened Locks

  /** What a handler does, fixed when it starts; any finite list that keeps locks in pairs. */
  datatype Instr =
    | Compute
    | Detach
    | Reattach
    | Lock(m: LockKey)      // KeyMutex.LockDetached
    | Unlock(m: LockKey)

  datatype Outcome = Returned | Goexited

  /**
   * A handler together with its Handle. `detached` is the Handle's field; `lockDetached` is the
   * local of KeyMutex.lock; `entry` remembers `detached` as the current lock call found it.
   */
  datatype Handler = Handler(
    key: Key, task: TaskId, code: seq<Instr>,
    detached: bool, lockDetached: bool, entry: bool, holds: Option<LockKey>)
  {
    function Next(): Handler
      requires code != []
    {
      this.(code := code[1..], lockDetached := false)
    }
  }

  datatype Point =
    | AtCode
    | Detaching(duty: Duty, waiting: Option<Chan>)  // left tryGetQueuedKey; waiting in a lock call
    | AtLock                                        // top of the loop of KeyMutex.lock
    | Fetched(ch: Chan)                             // has the holder's channel, not yet blocked on it
    | Blocked(ch: Chan)                             // receiving from it
    | Acquired                                      // owns the key; deferred reattach still to run
    | Receiving                                     // in ReceiveGrant
    | Finishing(out: Outcome)                       // Handle terminated
    | Counted(out: Outcome)                         // tasksHandled incremented

  datatype Call =
    | Inform(front: bool, keys: seq<Key>, wait: bool)   // Inform, InformFront, Get, Collect
    | SetLimit(limit: int)
    | DequeueAll
    | AwaitAll                                          // Wait
    | Stats

  datatype Proc =
    | Done
    | Caller(call: Call)
    | Scheduling(front: bool, keys: seq<Key>, wanted: seq<TaskId>)   // between the two critical sections
    | HandingOut(keys: seq<Key>, sends: nat, wanted: seq<TaskId>)    // holds a grant for each
    | Awaiting(wanted: seq<TaskId>)
    | Ejecting(ejected: seq<TaskId>)
    | AwaitingEmptied(ch: Chan)
    | StatsHalf(seen: nat)
    | StatsRead(seen: nat, total: nat)
    | Starting(key: Key)                                             // a worker with a key
    | Idle                                                           // a worker without one
    | Leaving(duty: Duty)
    | Exiting                                                        // Goexit with a grant held
    | Handling(h: Handler, at: Point)

  /** `started` is the history of handler runs; `panicked` records a runtime panic in the map itself. */
  datatype Shared = Shared(
    w: WorkState, t: Table, m: Mutexes,
    emptiedMade: nat, emptiedClosed: set<Chan>,
    started: seq<Key>, panicked: bool)

  datatype System = System(g: Shared, procs: seq<Proc>)

  // ---------------------------------------------------------------------------------------
  // Handlers

  /** Locks come in pairs and do not nest. */
  predicate Balanced(code: seq<Instr>, holds: Option<LockKey>) {
    if code == [] then holds.None?
    else match code[0]
      case Lock(m) => holds.None? && Balanced(code[1..], Some(m))
      case Unlock(m) => holds == Some(m) && Balanced(code[1..], None)
      case _ => Balanced(code[1..], holds)
  }

  function OpenGate(g: Shared, id: TaskId): Shared {
    if id >= |g.t.all| || g.t.all[id].stage == Finished then g.(panicked := true)
    else g.(t := SetStage(g.t, id, Finished))
  }

  function CloseChannel(g: Shared, ch: Chan): Shared {
    if ch in g.emptiedClosed then g.(panicked := true)
    else g.(emptiedClosed := g.emptiedClosed + {ch})
  }

  /** The handler once its detach call has returned. */
  function Detached(h: Handler, waiting: Option<Chan>): Proc
    requires h.code != []
  {
    match waiting
    case None => Handling(h.(detached := true).Next(), AtCode)
    case Some(ch) => Handling(h.(detached := true, lockDetached := true), Fetched(ch))
  }

  /** The handler once it has its grant back. */
  function Reattached(h: Handler): Proc
    requires h.code != []
  {
    Handling(h.(detached := false).Next(), AtCode)
  }

  predicate ReattachStep(g: Shared, h: Handler, g': Shared, p': Proc)
    requires h.code != []
  {
    var (w, wait) := WorkStates.Reattach(g.w);
    g' == g.(w := w) && p' == if wait then Handling(h, Receiving) else Reattached(h)
  }

  predicate DetachStep(g: Shared, h: Handler, waiting: Option<Chan>, g': Shared, p': Proc) {
    var (w, duty) := TryGet(g.w);
    g' == g.(w := w) && p' == Handling(h, Detaching(duty, waiting))
  }

  predicate InstrStep(g: Shared, h: Handler, g': Shared, p': Proc)
    requires h.code != []
  {
    match h.code[0]
    case Compute => g' == g && p' == Handling(h.Next(), AtCode)
    case Detach =>
      if h.detached then g' == g && p' == Handling(h.Next(), AtCode)
      else DetachStep(g, h, None, g', p')
    case Reattach =>
      if !h.detached then g' == g && p' == Handling(h.Next(), AtCode)
      else ReattachStep(g, h, g', p')
    case Lock(_) =>
      g' == g && p' == Handling(h.(entry := h.detached, lockDetached := false), AtLock)
    case Unlock(m) =>
      m !in g.m.chans && g' == g.(panicked := true) && p' == Done
  }

  predicate LockStep(g: Shared, h: Handler, m: LockKey, g': Shared, p': Proc) {
    if m in g.m.chans then
      g' == g && p' == Handling(h, Fetched(g.m.chans[m]))
    else
      && g' == g.(m := Taken(g.m, m))
      && p' == Handling(h.(holds := Some(m)), Acquired)
  }

  /** What follows a tryGetQueuedKey that kept nothing back, except a send, which needs a receiver. */
  predicate DutyStep(g: Shared, duty: Duty, g': Shared, spawn: seq<Proc>) {
    match duty
    case NoDuty => g' == g && spawn == []
    case SendGrant => false
    case CloseEmptied(ch) => g' == CloseChannel(g, ch) && spawn == []
    case Work(key) => g' == g && spawn == [Starting(key)]
  }

  predicate HandlerStep(g: Shared, h: Handler, at: Point, g': Shared, p': Proc, spawn: seq<Proc>) {
    match at
    case AtCode =>
      && spawn == []
      && if h.code == [] then
           g' == g && (p' == Handling(h, Finishing(Returned)) || p' == Handling(h, Finishing(Goexited)))
         else InstrStep(g, h, g', p')
    case Detaching(duty, waiting) =>
      h.code != [] && DutyStep(g, duty, g', spawn) && p' == Detached(h, waiting)
    case AtLock =>
      h.code != [] && h.code[0].Lock? && spawn == [] && LockStep(g, h, h.code[0].m, g', p')
    case Fetched(ch) =>
      && spawn == []
      && if h.lockDetached || h.detached then g' == g && p' == Handling(h, Blocked(ch))
         else DetachStep(g, h, Some(ch), g', p')
    case Blocked(ch) =>
      ch in g.m.closed && spawn == [] && g' == g && p' == Handling(h, AtLock)
    case Acquired =>
      && h.code != [] && spawn == []
      && if h.lockDetached && h.detached then ReattachStep(g, h, g', p')
         else g' == g && p' == Handling(h.Next(), AtCode)
    case Receiving => false
    case Finishing(out) =>
      && spawn == [] && p' == Handling(h, Counted(out))
      && g' == if h.task < |g.t.all| then g.(t := SetStage(g.t, h.task, Handled).(handled := g.t.handled + 1))
               else g.(panicked := true)
    case Counted(out) =>
      && spawn == [] && g' == OpenGate(g, h.task)
      && p' == if h.detached then Done else if out == Returned then Idle else Exiting
  }

  // ---------------------------------------------------------------------------------------
  // Callers and workers

  predicate CallStep(g: Shared, call: Call, g': Shared, p': Proc) {
    match call
    case Inform(front, keys, wait) =>
      var (t, ids, created) := GetOrCreate(g.t, keys);
      g' == g.(t := t) && p' == Scheduling(front, created, if wait then ids else [])
    case SetLimit(limit) =>
      var (w, keys, transfers) := WorkStates.Limit(g.w, limit);
      g' == g.(w := w) && p' == HandingOut(keys, Max(0, transfers), [])
    case DequeueAll =>
      var (t, ids, missing) := Eject(g.t, g.w.keys);
      if missing then g' == g.(panicked := true) && p' == Done
      else g' == g.(t := t, w := Dequeue(g.w)) && p' == Ejecting(ids)
    case AwaitAll =>
      var (w, ch) := WorkStates.Wait(g.w, g.emptiedMade);
      && g' == g.(w := w, emptiedMade := if w == g.w then g.emptiedMade else g.emptiedMade + 1)
      && p' == if ch.Some? then AwaitingEmptied(ch.value) else Done
    case Stats =>
      g' == g && p' == StatsHalf(g.t.handled)
  }

  predicate StartStep(g: Shared, key: Key, g': Shared, p': Proc) {
    if !(key in g.t.ids && g.t.ids[key] < |g.t.all|) then g' == g.(panicked := true) && p' == Done
    else
      var id := g.t.ids[key];
      && g' == g.(t := SetStage(g.t, id, Running), started := g.started + [key])
      && p'.Handling? && Balanced(p'.h.code, None)
      && p' == Handling(Handler(key, id, p'.h.code, false, false, false, None), AtCode)
  }

  /** A step that one goroutine takes alone, and the goroutines it starts. */
  predicate LocalStep(g: Shared, p: Proc, g': Shared, p': Proc, spawn: seq<Proc>) {
    match p
    case Done => false
    case Caller(call) => spawn == [] && CallStep(g, call, g', p')
    case Scheduling(front, keys, wanted) =>
      && spawn == []
      && if keys == [] then g' == g && p' == Awaiting(wanted)
         else
           var (w, now) := WorkStates.Schedule(g.w, front, keys);
           g' == g.(w := w) && p' == HandingOut(now, 0, wanted)
    case HandingOut(keys, sends, wanted) =>
      && g' == g
      && if keys != [] then p' == HandingOut(keys[1..], sends, wanted) && spawn == [Starting(keys[0])]
         else sends == 0 && p' == Awaiting(wanted) && spawn == []
    case Awaiting(wanted) =>
      && g' == g && spawn == []
      && if wanted == [] then p' == Done
         else At(g.t, wanted[0], Finished) && (p' == Awaiting(wanted[1..]) || p' == Done)
    case Ejecting(ids) =>
      && spawn == []
      && if ids == [] then g' == g && p' == Done
         else g' == OpenGate(g, ids[0]) && p' == Ejecting(ids[1..])
    case AwaitingEmptied(ch) => ch in g.emptiedClosed && g' == g && p' == Done && spawn == []
    case StatsHalf(seen) => g' == g && p' == StatsRead(seen, |g.t.ids|) && spawn == []
    case StatsRead(_, _) => false
    case Starting(key) => spawn == [] && StartStep(g, key, g', p')
    case Idle =>
      var (w, duty) := TryGet(g.w);
      && g' == g.(w := w) && spawn == []
      && p' == if duty.Work? then Starting(duty.key) else Leaving(duty)
    case Leaving(duty) => DutyStep(g, duty, g', spawn) && p' == Done
    case Exiting => g' == g && p' == Done && spawn == [Idle]
    case Handling(h, at) => HandlerStep(g, h, at, g', p', spawn)
  }

  // ---------------------------------------------------------------------------------------
  // Steps that two goroutines take together

  /** p is in SendGrant; the result is p once the send is done. */
  predicate Sends(p: Proc, p': Proc) {
    match p
    case HandingOut(keys, sends, wanted) => keys == [] && sends > 0 && p' == HandingOut([], sends - 1, wanted)
    case Leaving(duty) => duty.SendGrant? && p' == Done
    case Handling(h, Detaching(duty, waiting)) => h.code != [] && duty.SendGrant? && p' == Detached(h, waiting)
    case _ => false
  }

  predicate Receives(q: Proc, q': Proc) {
    q.Handling? && q.at.Receiving? && q.h.code != [] && q' == Reattached(q.h)
  }

  predicate AtUnlock(g: Shared, p: Proc) {
    && p.Handling? && p.at.AtCode? && p.h.code != [] && p.h.code[0].Unlock?
    && p.h.code[0].m in g.m.chans
  }

  function Released(p: Proc): Proc
    requires p.Handling? && p.h.code != []
  {
    Handling(p.h.(holds := None).Next(), AtCode)
  }

  predicate BlockedOn(q: Proc, ch: Chan) {
    q.Handling? && q.at == Blocked(ch)
  }

  /** Unlock hands the key to a goroutine blocked on its channel. */
  predicate Passes(g: Shared, p: Proc, q: Proc, p': Proc, q': Proc) {
    && AtUnlock(g, p) && BlockedOn(q, g.m.chans[p.h.code[0].m])
    && q.h.code != [] && q.h.code[0].Lock?
    && p' == Released(p)
    && q' == Handling(q.h.(holds := Some(q.h.code[0].m)), Acquired)
  }

  /** Unlock finds nobody blocked: it closes the channel and forgets the key. */
  function Forget(g: Shared, m: LockKey): Shared
    requires m in g.m.chans
  {
    g.(m := Forgotten(g.m, m))
  }

  /** Which goroutines move, and what becomes of them and of those they start. */
  datatype Move =
    | Alone(i: nat, p: Proc, spawn: seq<Proc>)
    | PassGrant(i: nat, j: nat, p: Proc, q: Proc)
    | PassLock(i: nat, j: nat, p: Proc, q: Proc)
    | CloseLock(i: nat)

  predicate Moves(s: System, move: Move, s': System) {
    && !s.g.panicked
    && move.i < |s.procs|
    && match move
       case Alone(i, p', spawn) =>
         LocalStep(s.g, s.procs[i], s'.g, p', spawn) && s'.procs == s.procs[i := p'] + spawn
       case PassGrant(i, j, p', q') =>
         && j < |s.procs| && i != j && s' == s.(procs := s.procs[i := p'][j := q'])
         && Sends(s.procs[i], p') && Receives(s.procs[j], q')
       case PassLock(i, j, p', q') =>
         && j < |s.procs| && i != j && s' == s.(procs := s.procs[i := p'][j := q'])
         && Passes(s.g, s.procs[i], s.procs[j], p', q')
       case CloseLock(i) =>
         && AtUnlock(s.g, s.procs[i])
         && var m := s.procs[i].h.code[0].m;
            && (forall q <- s.procs :: !BlockedOn(q, s.g.m.chans[m]))
            && s' == System(Forget(s.g, m), s.procs[i := Released(s.procs[i])])
  }

  ghost predicate Step(s: System, s': System) {
    exists move :: Moves(s, move, s')
  }

  /** A new map, and any callers that will ever call it, each free to begin at any time. */
  ghost predicate Init(s: System) {
    && s.g == Shared(WorkStates.FRESH, Table(map[], [], 0), Mutexes(map[], 0, {}), 0, {}, [], false)
    && forall p <- s.procs :: p.Caller?
  }

  ghost predicate Run(run: seq<System>) {
    && run != [] && Init(run[0])
    && forall n, k {:trigger Step(run[n], run[k])} | 0 <= n < k < |run| && k == n + 1 :: Step(run[n], run[k])
  }
}
