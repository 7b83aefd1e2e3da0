/**
 * What every goroutine holds of each shared resource, and what the shared state says is held in
 * all. The protocol is right when the two agree on every account, in every reachable state.
 */
module Ledger {
  import opened Names
  import opened WorkStates
  import opened Tables
  import opened Sums
  import opened Scheduler

  datatype Account =
    | Grants                              // work grants
    | Receivers                           // goroutines in ReceiveGrant, less sends on their way
    | Unstarted(key: Key)                 // the right, and duty, to see a new key handled
    | Promised(key: Key)                  // a key on its way from its grant to its handler
    | Owner(task: TaskId, stage: Stage)   // the duty to open a task's gate
    | Holder(m: LockKey)                  // a key of the KeyMutex
    | Closer(ch: Chan)                    // the duty to close an emptied channel

  function DutyHeld(a: Account, duty: Duty): int {
    match a
    case Grants => One(duty.SendGrant? || duty.Work?)
    case Receivers => -One(duty.SendGrant?)
    case Unstarted(key) => One(duty == Work(key))
    case Promised(key) => One(duty == Work(key))
    case Owner(_, _) => 0
    case Holder(_) => 0
    case Closer(ch) => One(duty == CloseEmptied(ch))
  }

  function HandlerHeld(a: Account, h: Handler, at: Point): int {
    match a
    case Grants => One(!h.detached && !at.Receiving? && !at.Detaching?)
    case Receivers => One(at.Receiving?)
    case Unstarted(_) => 0
    case Promised(_) => 0
    case Owner(id, stage) => One(h.task == id && stage == if at.Counted? then Handled else Running)
    case Holder(m) => One(h.holds == Some(m))
    case Closer(_) => 0
  }

  function HeldBy(a: Account, p: Proc): int {
    match p
    case Scheduling(_, keys, _) => if a.Unstarted? then Count(keys, a.key) else 0
    case HandingOut(keys, sends, _) =>
      (match a
       case Grants => |keys| + sends
       case Receivers => -(sends as int)
       case Unstarted(key) => Count(keys, key)
       case Promised(key) => Count(keys, key)
       case _ => 0)
    case Ejecting(ids) => if a.Owner? && a.stage == Ejected then Count(ids, a.task) else 0
    case Starting(key) => One(a == Grants || a == Unstarted(key) || a == Promised(key))
    case Idle => One(a == Grants)
    case Exiting => One(a == Grants)
    case Leaving(duty) => DutyHeld(a, duty)
    case Handling(h, at) => HandlerHeld(a, h, at) + if at.Detaching? then DutyHeld(a, at.duty) else 0
    case _ => 0
  }

  function Held(a: Account): Proc -> int {
    p => HeldBy(a, p)
  }

  function Owed(g: Shared, a: Account): int {
    match a
    case Grants => g.w.grants
    case Receivers => g.w.reattachers
    case Unstarted(key) => One(KeyAt(g.t, key, Pending)) - Count(g.w.keys, key)
    case Promised(key) => Count(g.w.granted, key) - One(Begun(g.t, key))
    case Owner(id, stage) => One(stage in {Running, Handled, Ejected} && At(g.t, id, stage))
    case Holder(m) => One(m in g.m.chans)
    case Closer(ch) => One(ch < g.emptiedMade) - One(ch in g.emptiedClosed) - One(g.w.emptied == Some(ch))
  }

  /** The books balance. */
  ghost predicate Balances(s: System) {
    forall a :: Sum(Held(a), s.procs) == Owed(s.g, a)
  }

  /** What a goroutine's offspring, at most one, starts out with. */
  function HeldByNew(a: Account, spawn: seq<Proc>): int {
    if spawn == [] then 0 else HeldBy(a, spawn[0])
  }

  /** On one account, a goroutine and the one it starts take on exactly what the shared state loses. */
  ghost predicate Settled(g: Shared, p: Proc, g': Shared, p': Proc, spawn: seq<Proc>, a: Account) {
    HeldBy(a, p') + HeldByNew(a, spawn) - HeldBy(a, p) == Owed(g', a) - Owed(g, a)
  }

  /** What balanced books guarantee to one goroutine: its holdings are real. */
  ghost predicate Backed(g: Shared, p: Proc) {
    forall a: Account | !a.Receivers? :: HeldBy(a, p) <= Owed(g, a)
  }

  lemma BalancedIsBacked(s: System, i: nat)
    requires Balances(s) && i < |s.procs|
    ensures Backed(s.g, s.procs[i])
  {
    forall a: Account | !a.Receivers? ensures HeldBy(a, s.procs[i]) <= Owed(s.g, a) {
      SumAtLeast(Held(a), s.procs, i);
      assert Held(a)(s.procs[i]) == HeldBy(a, s.procs[i]);
    }
  }

  lemma AloneBalances(s: System, i: nat, p': Proc, spawn: seq<Proc>, s': System)
    requires Balances(s) && i < |s.procs| && |spawn| <= 1 && s'.procs == s.procs[i := p'] + spawn
    requires forall a :: Settled(s.g, s.procs[i], s'.g, p', spawn, a)
    ensures Balances(s')
  {
    forall a ensures Sum(Held(a), s'.procs) == Owed(s'.g, a) {
      SumAppend(Held(a), s.procs[i := p'], spawn);
      SumUpdate(Held(a), s.procs, i, p');
      assert spawn != [] ==> spawn[1..] == [];
      assert Sum(Held(a), spawn) == HeldByNew(a, spawn);
      assert Sum(Held(a), s.procs) == Owed(s.g, a);
      assert Settled(s.g, s.procs[i], s'.g, p', spawn, a);
    }
  }

  lemma PairBalances(s: System, i: nat, j: nat, p': Proc, q': Proc, s': System)
    requires Balances(s) && i < |s.procs| && j < |s.procs| && i != j && s'.g == s.g
    requires s'.procs == s.procs[i := p'][j := q']
    requires forall a :: HeldBy(a, p') + HeldBy(a, q') == HeldBy(a, s.procs[i]) + HeldBy(a, s.procs[j])
    ensures Balances(s')
  {
    forall a ensures Sum(Held(a), s'.procs) == Owed(s'.g, a) {
      SumUpdate(Held(a), s.procs, i, p');
      SumUpdate(Held(a), s.procs[i := p'], j, q');
      assert Sum(Held(a), s.procs) == Owed(s.g, a);
      assert HeldBy(a, p') + HeldBy(a, q') == HeldBy(a, s.procs[i]) + HeldBy(a, s.procs[j]);
    }
  }
}
