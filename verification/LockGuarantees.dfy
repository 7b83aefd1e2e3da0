/** What the KeyMutex promises the handlers that lock through it. */
module LockGuarantees {
  import opened Names
  import opened WorkStates
  import opened Tables
  import opened Sums
  import opened Scheduler
  import opened Ledger
  import opened Safety
  import opened Induct

  predicate Holds(p: Proc, m: LockKey) {
    p.Handling? && p.h.holds == Some(m)
  }

  lemma LedgerExcludes(procs: seq<Proc>, m: LockKey)
    requires Sum(Held(Holder(m)), procs) <= 1
    ensures Sum(Held(Holder(m)), procs) == 1 <==> exists p <- procs :: Holds(p, m)
    ensures forall i, j | 0 <= i < j < |procs| :: !(Holds(procs[i], m) && Holds(procs[j], m))
  {
    var f := Held(Holder(m));
    SumNonNegative(f, procs);
    if Sum(f, procs) == 1 {
      var i := PositiveEntry(f, procs);
      assert Holds(procs[i], m);
    }
    if i: nat :| i < |procs| && Holds(procs[i], m) { SumAtLeast(f, procs, i); }
    forall i, j | 0 <= i < j < |procs| ensures !(Holds(procs[i], m) && Holds(procs[j], m)) {
      SumAtLeastTwo(f, procs, i, j);
    }
  }

  /** A key is in the map of channels exactly when somebody holds it, and never do two hold it. */
  lemma MutualExclusion(run: seq<System>, n: nat, m: LockKey)
    requires Run(run) && n < |run|
    ensures m in run[n].g.m.chans <==> exists p <- run[n].procs :: Holds(p, m)
    ensures forall i, j | 0 <= i < j < |run[n].procs| :: !(Holds(run[n].procs[i], m) && Holds(run[n].procs[j], m))
  {
    RunInv(run, n);
    assert Sum(Held(Holder(m)), run[n].procs) == Owed(run[n].g, Holder(m));
    LedgerExcludes(run[n].procs, m);
  }

  /** No lost wake-up: a waiter's channel is closed, or it is the one the key's present holder will use. */
  lemma WaitersAreReachable(run: seq<System>, n: nat, p: Proc)
    requires Run(run) && n < |run| && p in run[n].procs
    requires p.Handling? && (p.at.Fetched? || p.at.Blocked?)
    ensures p.h.code != [] && p.h.code[0].Lock? && p.h.holds.None?
    ensures var m := p.h.code[0].m;
      p.at.ch in run[n].g.m.closed || (m in run[n].g.m.chans && run[n].g.m.chans[m] == p.at.ch)
  {
    RunInv(run, n);
    assert ProcOk(run[n].g, p);
  }

  /** A goroutine at an Unlock can only hand the key over or close its channel. */
  lemma UnlockEnds(s: System, move: Move, s': System, i: nat)
    requires Moves(s, move, s') && i < |s.procs| && AtUnlock(s.g, s.procs[i]) && !s'.g.panicked
    requires i < |s'.procs| && s'.procs[i] != s.procs[i]
    ensures move.i == i && (move.PassLock? || move.CloseLock?)
  {}

  /**
   * An Unlock that finds a goroutine blocked on its key hands the key to one of those blocked:
   * the key never leaves the map of channels, so no newcomer can take it.
   */
  lemma UnlockHandsOver(s: System, s': System, i: nat, j: nat)
    requires Inv(s) && Step(s, s') && i < |s.procs| && j < |s.procs| && AtUnlock(s.g, s.procs[i])
    requires BlockedOn(s.procs[j], s.g.m.chans[s.procs[i].h.code[0].m])
    requires i < |s'.procs| && s'.procs[i] != s.procs[i]
    ensures var m := s.procs[i].h.code[0].m;
      && s'.g.m == s.g.m && m in s'.g.m.chans && !Holds(s'.procs[i], m)
      && exists k: nat :: k < |s.procs| && k < |s'.procs|
           && BlockedOn(s.procs[k], s.g.m.chans[m]) && Holds(s'.procs[k], m)
  {
    var move :| Moves(s, move, s');
    StepKeeps(s, s');
    UnlockEnds(s, move, s', i);
    assert ProcOk(s.g, s.procs[i]) && s.procs[j] in s.procs;
    assert ProcOk(s.g, s.procs[move.j]);
    PassedKey(s.g, s.procs[i], s.procs[move.j], move.p, move.q);
    assert Holds(s'.procs[move.j], s.procs[i].h.code[0].m);
  }

  // ---------------------------------------------------------------------------------------
  // What a handler's instructions have done once they are over, whatever the others did meanwhile.

  /** What each instruction does to the handler: to its attachment, and to the lock it holds. */
  ghost predicate Does(h: Handler, h': Handler)
    requires h.code != []
  {
    match h.code[0]
    case Compute => h'.detached == h.detached && h'.holds == h.holds
    case Detach => h'.detached && h'.holds == h.holds
    case Reattach => !h'.detached && h'.holds == h.holds
    case Lock(m) => h'.detached == h.detached && h'.holds == Some(m)
    case Unlock(_) => h'.detached == h.detached && h'.holds == None
  }

  /** Half-way through the instruction. */
  ghost predicate Within(h: Handler, p: Proc)
    requires h.code != [] && p.Handling?
  {
    match h.code[0]
    case Lock(_) => LockPoint(p.at) && p.h.entry == h.detached
    case Detach => p.at.Detaching? && p.at.waiting.None? && p.h.holds == h.holds
    case Reattach => p.at.Receiving? && p.h.holds == h.holds
    case _ => false
  }

  /** Where a handler is relative to the instruction at which it was h: before it, in it, just after it, or past. */
  ghost predicate Tracks(g: Shared, h: Handler, p: Proc)
    requires h.code != []
  {
    || At(g.t, h.task, Finished)
    || ( && p.Handling? && p.h.task == h.task
         && ( || (p.h == h && p.at.AtCode?)
              || (p.h.code == h.code && !p.at.AtCode? && Within(h, p))
              || (p.h.code == h.code[1..] && p.at.AtCode? && Does(h, p.h))
              || (|p.h.code| == |h.code| - 1 && !p.at.AtCode?)
              || |p.h.code| < |h.code| - 1))
  }

  predicate LockPoint(at: Point) {
    match at
    case Detaching(_, waiting) => waiting.Some?
    case AtLock => true
    case Fetched(_) => true
    case Blocked(_) => true
    case Acquired => true
    case Receiving => true
    case _ => false
  }

  lemma TracksInstr(g: Shared, h: Handler, p: Proc, g': Shared, p': Proc)
    requires h.code != [] && Tracks(g, h, p) && ProcOk(g, p)
    requires p.Handling? && p.at.AtCode? && p.h.code != [] && InstrStep(g, p.h, g', p') && !g'.panicked
    ensures Tracks(g', h, p')
  {}

  lemma TracksPoint(g: Shared, h: Handler, p: Proc, g': Shared, p': Proc, spawn: seq<Proc>)
    requires h.code != [] && Tracks(g, h, p) && ProcOk(g, p)
    requires p.Handling? && !p.at.AtCode? && HandlerStep(g, p.h, p.at, g', p', spawn) && !g'.panicked
    ensures Tracks(g', h, p') || At(g.t, h.task, Finished)
  {}

  lemma TracksAlone(g: Shared, h: Handler, p: Proc, g': Shared, p': Proc, spawn: seq<Proc>)
    requires h.code != [] && Tracks(g, h, p) && ProcOk(g, p)
    requires Extends(g.t, g'.t) && LocalStep(g, p, g', p', spawn) && !g'.panicked
    ensures Tracks(g', h, p')
  {
    if p.Handling? && p.at.AtCode? {
      if p.h.code != [] { TracksInstr(g, h, p, g', p'); }
    } else if p.Handling? {
      TracksPoint(g, h, p, g', p', spawn);
    }
  }

  lemma TracksPair(g: Shared, h: Handler, p: Proc, q: Proc, p': Proc, q': Proc)
    requires h.code != [] && SharedOk(g) && ProcOk(g, p) && ProcOk(g, q)
    requires (Sends(p, p') && Receives(q, q')) || Passes(g, p, q, p', q')
    ensures Tracks(g, h, p) ==> Tracks(g, h, p')
    ensures Tracks(g, h, q) ==> Tracks(g, h, q')
  {}

  lemma TracksLocal(s: System, move: Move, s': System, i: nat, h: Handler)
    requires Inv(s) && Inv(s') && move.Alone? && Moves(s, move, s') && i < |s.procs|
    requires h.code != [] && Tracks(s.g, h, s.procs[i])
    ensures i < |s'.procs| && Tracks(s'.g, h, s'.procs[i])
  {
    InvReady(s, move.i);
    LocalKept(s.g, s.procs[move.i], s'.g, move.p, move.spawn);
    if move.i == i {
      assert ProcOk(s.g, s.procs[i]);
      TracksAlone(s.g, h, s.procs[i], s'.g, move.p, move.spawn);
    }
  }

  lemma TracksClose(s: System, move: Move, s': System, i: nat, h: Handler)
    requires Inv(s) && move.CloseLock? && Moves(s, move, s') && i < |s.procs|
    requires h.code != [] && Tracks(s.g, h, s.procs[i])
    ensures i < |s'.procs| && Tracks(s'.g, h, s'.procs[i])
  {
    assert ProcOk(s.g, s.procs[i]);
  }

  lemma TracksPass(s: System, move: Move, s': System, i: nat, h: Handler)
    requires Inv(s) && (move.PassGrant? || move.PassLock?) && Moves(s, move, s') && i < |s.procs|
    requires h.code != [] && Tracks(s.g, h, s.procs[i])
    ensures i < |s'.procs| && Tracks(s'.g, h, s'.procs[i])
  {
    if i == move.i || i == move.j {
      assert ProcOk(s.g, s.procs[move.i]) && ProcOk(s.g, s.procs[move.j]);
      TracksPair(s.g, h, s.procs[move.i], s.procs[move.j], move.p, move.q);
    }
  }

  lemma TracksMove(s: System, move: Move, s': System, i: nat, h: Handler)
    requires Inv(s) && Inv(s') && Moves(s, move, s') && i < |s.procs|
    requires h.code != [] && Tracks(s.g, h, s.procs[i])
    ensures i < |s'.procs| && Tracks(s'.g, h, s'.procs[i])
  {
    if move.Alone? {
      TracksLocal(s, move, s', i, h);
    } else if move.CloseLock? {
      TracksClose(s, move, s', i, h);
    } else {
      TracksPass(s, move, s', i, h);
    }
  }

  lemma TracksRunStep(run: seq<System>, n: nat, i: nat, h: Handler)
    requires Run(run) && n + 1 < |run| && i < |run[n].procs|
    requires h.code != [] && Tracks(run[n].g, h, run[n].procs[i])
    ensures i < |run[n + 1].procs| && Tracks(run[n + 1].g, h, run[n + 1].procs[i])
  {
    RunInv(run, n);
    assert Step(run[n], run[n + 1]);
    var move :| Moves(run[n], move, run[n + 1]);
    MoveKeeps(run[n], move, run[n + 1]);
    TracksMove(run[n], move, run[n + 1], i, h);
  }

  lemma TracksRun(run: seq<System>, m: nat, n: nat, i: nat, h: Handler)
    requires Run(run) && m <= n < |run| && i < |run[m].procs| && run[m].procs[i] == Handling(h, AtCode)
    requires h.code != []
    ensures i < |run[n].procs| && Tracks(run[n].g, h, run[n].procs[i])
  {
    var tracked := (k: nat) => k < |run| && i < |run[k].procs| && Tracks(run[k].g, h, run[k].procs[i]);
    forall k: nat, l: nat | m <= k < l <= n && l == k + 1 && tracked(k) ensures tracked(l) {
      TracksRunStep(run, k, i, h);
    }
    Carry(tracked, m, n);
  }

  /**
   * Once a handler is past an instruction, that has done what it is for: Detach has left it
   * detached, Reattach attached, a lock call as it was and with the lock, and Unlock without one.
   */
  lemma InstructionDoes(run: seq<System>, m: nat, n: nat, i: nat, h: Handler, h': Handler)
    requires Run(run) && m <= n < |run| && i < |run[m].procs| && i < |run[n].procs|
    requires h.code != [] && run[m].procs[i] == Handling(h, AtCode)
    requires run[n].procs[i] == Handling(h', AtCode) && h'.task == h.task && h'.code == h.code[1..]
    ensures Does(h, h')
  {
    TracksRun(run, m, n, i, h);
    RunInv(run, n);
    InvReady(run[n], i);
    HandlerBacked(run[n].g, h', AtCode);
  }

  /**
   * A handler that calls LockDetached attached comes back attached, one that calls it detached
   * comes back detached, and either way it comes back with the lock; however often it had to
   * wait, and whatever other goroutines did meanwhile.
   */
  lemma LockKeepsAttachment(run: seq<System>, m: nat, n: nat, i: nat, h: Handler, h': Handler)
    requires Run(run) && m <= n < |run| && i < |run[m].procs| && i < |run[n].procs|
    requires h.code != [] && h.code[0].Lock? && run[m].procs[i] == Handling(h, AtCode)
    requires run[n].procs[i] == Handling(h', AtCode) && h'.task == h.task && h'.code == h.code[1..]
    ensures h'.detached == h.detached && h'.holds == Some(h.code[0].m)
  {
    InstructionDoes(run, m, n, i, h, h');
  }
}
