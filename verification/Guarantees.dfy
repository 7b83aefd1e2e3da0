/** What the map and the KeyMutex promise their users, in every reachable state of every run. */
module Guarantees {
  import opened Names
  import opened WorkStates
  import opened Tables
  import opened Sums
  import opened Scheduler
  import opened Ledger
  import opened Safety
  import opened QueueOrder
  import opened Induct

  /** No gate or channel is closed twice, no task lookup fails, no key is unlocked that is not locked. */
  lemma NeverPanics(run: seq<System>, n: nat)
    requires Run(run) && n < |run|
    ensures !run[n].g.panicked
  {
    RunInv(run, n);
  }

  // ---------------------------------------------------------------------------------------
  // Work grants

  /** The work grants a goroutine holds. */
  function Tokens(p: Proc): int {
    match p
    case HandingOut(keys, sends, _) => |keys| + sends
    case Starting(_) => 1
    case Idle => 1
    case Exiting => 1
    case Leaving(duty) => if duty.SendGrant? then 1 else 0
    case Handling(h, Detaching(duty, _)) => if duty.SendGrant? || duty.Work? then 1 else 0
    case Handling(h, Receiving) => 0
    case Handling(h, _) => if h.detached then 0 else 1
    case _ => 0
  }

  function InReceive(p: Proc): int {
    if p.Handling? && p.at.Receiving? then 1 else 0
  }

  function SendsDue(p: Proc): int {
    match p
    case HandingOut(_, sends, _) => sends
    case Leaving(duty) => if duty.SendGrant? then 1 else 0
    case Handling(_, Detaching(duty, _)) => if duty.SendGrant? then 1 else 0
    case _ => 0
  }

  /** The grant counter counts the grants that goroutines hold, and only hand-outs hold several. */
  lemma GrantsConserved(run: seq<System>, n: nat)
    requires Run(run) && n < |run|
    ensures Sum(Tokens, run[n].procs) == run[n].g.w.grants
    ensures forall p <- run[n].procs :: p.HandingOut? || Tokens(p) <= 1
    ensures forall p <- run[n].procs | p.Handling? && p.at.Blocked? :: Tokens(p) == 0
  {
    var s := run[n];
    RunInv(run, n);
    forall i | 0 <= i < |s.procs| ensures Tokens(s.procs[i]) == Held(Grants)(s.procs[i]) {
      assert ProcOk(s.g, s.procs[i]);
    }
    SumSame(Tokens, Held(Grants), s.procs);
    assert Sum(Held(Grants), s.procs) == Owed(s.g, Grants);
  }

  /** Every grant sent to a reattacher has a goroutine there to receive it. */
  lemma SendsMatched(run: seq<System>, n: nat)
    requires Run(run) && n < |run|
    ensures Sum(InReceive, run[n].procs) == run[n].g.w.reattachers + Sum(SendsDue, run[n].procs)
  {
    RunInv(run, n);
    forall i | 0 <= i < |run[n].procs|
      ensures Held(Receivers)(run[n].procs[i]) == InReceive(run[n].procs[i]) - SendsDue(run[n].procs[i])
    {
      assert ProcOk(run[n].g, run[n].procs[i]);
    }
    SumSplit(InReceive, SendsDue, Held(Receivers), run[n].procs);
    assert Sum(Held(Receivers), run[n].procs) == Owed(run[n].g, Receivers);
  }

  // ---------------------------------------------------------------------------------------
  // Concurrency

  /** Handlers running within the limit. */
  function Attached(p: Proc): int {
    if p.Handling? && !p.h.detached && !p.at.Detaching? then 1 else 0
  }

  lemma AttachedWithinGrants(s: System)
    requires Inv(s)
    ensures Sum(Attached, s.procs) <= s.g.w.grants
  {
    forall i | 0 <= i < |s.procs| ensures Attached(s.procs[i]) <= Held(Grants)(s.procs[i]) {
      assert ProcOk(s.g, s.procs[i]);
    }
    SumMonotone(Attached, Held(Grants), s.procs);
    assert Sum(Held(Grants), s.procs) == Owed(s.g, Grants);
  }

  /** Grants rise, keys are granted and reattachers admitted only within the limit. */
  lemma StepWithinLimit(s: System, s': System)
    requires Inv(s) && Step(s, s')
    ensures s'.g.w.grants > s.g.w.grants || s'.g.w.granted != s.g.w.granted || s'.g.w.reattachers < s.g.w.reattachers
      ==> s'.g.w.grants <= s'.g.w.grantLimit
  {
    var move := StepIsSection(s, s');
    if SectionBy(s, move).Some? { SectionWithinLimit(s.g.w, SectionBy(s, move).value); }
  }

  lemma SectionWithinLimit(w: WorkState, section: Section)
    requires Sound(w)
    ensures var w' := After(w, section);
      w'.grants > w.grants || w'.granted != w.granted || w'.reattachers < w.reattachers ==> w'.grants <= w'.grantLimit
  {
    var w' := After(w, section);
    if w'.granted != w.granted {
      ReattachersFirst(w, section);
    } else if w'.grants > w.grants || w'.reattachers < w.reattachers {
      GrantsWithinLimit(w, section);
    }
  }

  lemma RiseWithinLimit(run: seq<System>, n: nat)
    requires Run(run) && n + 1 < |run|
    ensures run[n + 1].g.w.grants <= Max(run[n].g.w.grants, run[n + 1].g.w.grantLimit)
  {
    var s, s' := run[n], run[n + 1];
    RunInv(run, n);
    assert Step(s, s');
    StepWithinLimit(s, s');
  }

  lemma GrantsBound(run: seq<System>, m: nat, n: nat, L: int)
    requires Run(run) && m <= n < |run| && run[m].g.w.grants <= L
    requires forall i | m <= i <= n :: run[i].g.w.grantLimit <= L
    ensures run[n].g.w.grants <= L
  {
    var within := (k: nat) => k < |run| && run[k].g.w.grants <= L;
    forall k: nat, l: nat | m <= k < l <= n && l == k + 1 && within(k) ensures within(l) { RiseWithinLimit(run, k); }
    Carry(within, m, n);
  }

  /** While the limit stays at or below L, a map within L never runs more than L attached handlers. */
  lemma ConcurrencyBound(run: seq<System>, m: nat, n: nat, L: int)
    requires Run(run) && m <= n < |run| && run[m].g.w.grants <= L
    requires forall i | m <= i <= n :: run[i].g.w.grantLimit <= L
    ensures Sum(Attached, run[n].procs) <= L
  {
    GrantsBound(run, m, n, L);
    RunInv(run, n);
    AttachedWithinGrants(run[n]);
  }

  /** Work conservation: in every reachable state a queue or a reattacher means the limit is used up. */
  lemma WorkConserved(run: seq<System>, n: nat)
    requires Run(run) && n < |run|
    requires run[n].g.w.keys != [] || run[n].g.w.reattachers > 0
    ensures run[n].g.w.grants >= run[n].g.w.grantLimit >= 1
  {
    RunInv(run, n);
  }

  /** No step of any run gives a key a grant and leaves a reattacher waiting. */
  lemma ReattachersGoFirst(run: seq<System>, n: nat)
    requires Run(run) && n + 1 < |run|
    requires run[n + 1].g.w.granted != run[n].g.w.granted
    ensures run[n + 1].g.w.reattachers == 0
  {
    var s, s' := run[n], run[n + 1];
    RunInv(run, n);
    assert Step(s, s');
    var move := StepIsSection(s, s');
    ReattachersFirst(s.g.w, SectionBy(s, move).value);
  }

  // ---------------------------------------------------------------------------------------
  // Tasks

  /** Over a whole run no key's handler starts twice, however often it is ejected and informed again. */
  lemma HandlerStartsOnce(run: seq<System>, n: nat, key: Key)
    requires Run(run) && n < |run|
    ensures Count(run[n].g.started, key) <= 1
  {
    RunInv(run, n);
  }

  /** Where a key may stand between becoming known and its handler starting. */
  function Places(key: Key): Proc -> int {
    (p: Proc) =>
      match p
      case Scheduling(_, keys, _) => Count(keys, key)
      case HandingOut(keys, _, _) => Count(keys, key)
      case Starting(k) => One(k == key)
      case Handling(_, Detaching(duty, _)) => One(duty == Work(key))
      case _ => 0
  }

  /** Every pending key stands in exactly one place, and no other key stands anywhere. */
  lemma OnePlace(run: seq<System>, n: nat, key: Key)
    requires Run(run) && n < |run|
    ensures Count(run[n].g.w.keys, key) + Sum(Places(key), run[n].procs) == One(KeyAt(run[n].g.t, key, Pending))
  {
    var s := run[n];
    RunInv(run, n);
    forall i | 0 <= i < |s.procs| ensures Places(key)(s.procs[i]) == Held(Unstarted(key))(s.procs[i]) {
      assert ProcOk(s.g, s.procs[i]);
    }
    SumSame(Places(key), Held(Unstarted(key)), s.procs);
    assert Sum(Held(Unstarted(key)), s.procs) == Owed(s.g, Unstarted(key));
  }

  /** Whether a goroutine owes the opening of a task's gate, and how often. */
  function Owes(id: TaskId): Proc -> int {
    (p: Proc) =>
      match p
      case Ejecting(ids) => Count(ids, id)
      case Handling(h, _) => One(h.task == id)
      case _ => 0
  }

  /** Every task begun or ejected whose gate is shut has exactly one goroutine that owes its opening, once. */
  lemma OneOwner(run: seq<System>, n: nat, id: TaskId)
    requires Run(run) && n < |run|
    ensures var t := run[n].g.t;
      Sum(Owes(id), run[n].procs) == One(At(t, id, Running) || At(t, id, Handled) || At(t, id, Ejected))
  {
    var s := run[n];
    RunInv(run, n);
    var running, handled, ejected := Owner(id, Running), Owner(id, Handled), Owner(id, Ejected);
    SumOfThree(Held(running), Held(handled), Held(ejected), Owes(id), s.procs);
    assert Sum(Held(running), s.procs) == Owed(s.g, running);
    assert Sum(Held(handled), s.procs) == Owed(s.g, handled);
    assert Sum(Held(ejected), s.procs) == Owed(s.g, ejected);
  }

  /** The result of Stats, read in two steps at any two times, never claims more handled than known. */
  lemma StatsNeverAhead(run: seq<System>, n: nat, p: Proc)
    requires Run(run) && n < |run| && p in run[n].procs && p.StatsRead?
    ensures p.seen <= p.total
  {
    RunInv(run, n);
    assert ProcOk(run[n].g, p);
  }

  // ---------------------------------------------------------------------------------------
  // Wait

  ghost predicate Drained(w: WorkState) {
    w.grants == 0 && w.keys == [] && w.reattachers == 0
  }

  /** The channel has been taken out of the state, for closing. */
  ghost predicate Retired(g: Shared, ch: Chan) {
    ch < g.emptiedMade && g.w.emptied != Some(ch)
  }

  lemma RetiredWhenDrained(s: System, s': System, ch: Chan)
    requires Inv(s) && Step(s, s') && Retired(s'.g, ch) && !Retired(s.g, ch)
    ensures Drained(s'.g.w)
  {
    var move := StepIsSection(s, s');
    MadeOnce(s, move, s');
  }

  /** Channels are made by Wait alone, and go straight into the state. */
  lemma MadeOnce(s: System, move: Move, s': System)
    requires Inv(s) && Moves(s, move, s')
    ensures s'.g.emptiedMade == s.g.emptiedMade
      || (s'.g.emptiedMade == s.g.emptiedMade + 1 && s'.g.w.emptied == Some(s.g.emptiedMade))
  {}

  /** A channel that has been taken out never comes back. */
  lemma RetiredStable(s: System, s': System, ch: Chan)
    requires Inv(s) && Step(s, s') && Retired(s.g, ch)
    ensures Retired(s'.g, ch)
  {
    var move := StepIsSection(s, s');
    MadeOnce(s, move, s');
  }

  /** What the state says of a channel: it is there, so not yet closed, or it is not yet made, or retired. */
  lemma EmptiedIsOpen(s: System, ch: Chan)
    requires Inv(s)
    ensures s.g.w.emptied == Some(ch) ==> ch < s.g.emptiedMade && ch !in s.g.emptiedClosed
    ensures ch in s.g.emptiedClosed ==> Retired(s.g, ch)
  {
    BalancedIsSolvent(s);
    assert One(ch in s.g.emptiedClosed) + One(s.g.w.emptied == Some(ch)) <= One(ch < s.g.emptiedMade);
  }

  /**
   * Each Wait channel is taken for closing once, at a moment with no grant, no queue and no
   * reattacher: it was not retired before, and it is from then on.
   */
  lemma {:induction false} WokenAfterDrained(run: seq<System>, n: nat, ch: Chan) returns (k: nat)
    requires Run(run) && n < |run| && (ch in run[n].g.emptiedClosed || Retired(run[n].g, ch))
    ensures 0 < k <= n && Drained(run[k].g.w)
    ensures forall j | 0 <= j <= n :: Retired(run[j].g, ch) <==> k <= j
  {
    RunInv(run, n);
    EmptiedIsOpen(run[n], ch);
    var m := n - 1;
    assert Step(run[m], run[m + 1]);
    RunInv(run, m);
    if Retired(run[m].g, ch) {
      k := WokenAfterDrained(run, m, ch);
    } else {
      RetiredWhenDrained(run[m], run[n], ch);
      NotRetiredBefore(run, m, ch);
      k := n;
    }
  }

  lemma RunRetiredStable(run: seq<System>, n: nat, ch: Chan)
    requires Run(run) && n + 1 < |run|
    ensures Retired(run[n].g, ch) ==> Retired(run[n + 1].g, ch)
  {
    RunInv(run, n);
    assert Step(run[n], run[n + 1]);
    if Retired(run[n].g, ch) { RetiredStable(run[n], run[n + 1], ch); }
  }

  lemma {:induction false} NotRetiredBefore(run: seq<System>, n: nat, ch: Chan)
    requires Run(run) && n < |run| && !Retired(run[n].g, ch)
    ensures forall j | 0 <= j <= n :: !Retired(run[j].g, ch)
  {
    if n > 0 {
      RunRetiredStable(run, n - 1, ch);
      NotRetiredBefore(run, n - 1, ch);
    }
  }

  // One call of Wait: it is about to begin, or the map has since been drained, or its channel is still in the state.

  ghost predicate DrainedSince(run: seq<System>, m: nat, n: nat) {
    exists k :: m <= k <= n && k < |run| && Drained(run[k].g.w)
  }

  ghost predicate AwaitsDrain(s: System, i: nat) {
    i < |s.procs|
    && (s.procs[i] == Caller(AwaitAll) || (s.procs[i].AwaitingEmptied? && s.g.w.emptied == Some(s.procs[i].ch)))
  }

  lemma AwaitStep(s: System, s': System, i: nat)
    requires Inv(s) && Step(s, s') && AwaitsDrain(s, i)
    ensures AwaitsDrain(s', i) || Drained(s.g.w) || Drained(s'.g.w)
  {
    var move :| Moves(s, move, s');
    if s.procs[i].AwaitingEmptied? {
      var ch := s.procs[i].ch;
      EmptiedIsOpen(s, ch);
      MadeOnce(s, move, s');
      if Retired(s'.g, ch) { RetiredWhenDrained(s, s', ch); }
      AwaiterStays(s, move, s', i);
    } else {
      CallerBegins(s, move, s', i);
    }
  }

  lemma AwaiterStays(s: System, move: Move, s': System, i: nat)
    requires Moves(s, move, s') && i < |s.procs| && s.procs[i].AwaitingEmptied? && s.procs[i].ch !in s.g.emptiedClosed
    ensures i < |s'.procs| && s'.procs[i] == s.procs[i]
  {}

  lemma CallerBegins(s: System, move: Move, s': System, i: nat)
    requires Inv(s) && Moves(s, move, s') && i < |s.procs| && s.procs[i] == Caller(AwaitAll)
    ensures AwaitsDrain(s', i) || Drained(s.g.w)
  {
    WaitSound(s.g.w, s.g.emptiedMade);
  }

  lemma AwaitRunStep(run: seq<System>, m: nat, k: nat, i: nat)
    requires Run(run) && m <= k && k + 1 < |run| && (AwaitsDrain(run[k], i) || DrainedSince(run, m, k))
    ensures AwaitsDrain(run[k + 1], i) || DrainedSince(run, m, k + 1)
  {
    if DrainedSince(run, m, k) {
      var j :| m <= j <= k && j < |run| && Drained(run[j].g.w);
    } else {
      RunInv(run, k);
      assert Step(run[k], run[k + 1]);
      AwaitStep(run[k], run[k + 1], i);
    }
  }

  /** No early wake-up: between a call of Wait and its return the map was drained at some moment. */
  lemma WaitSeesDrained(run: seq<System>, m: nat, n: nat, i: nat) returns (k: nat)
    requires Run(run) && m <= n < |run| && i < |run[m].procs| && i < |run[n].procs|
    requires run[m].procs[i] == Caller(AwaitAll) && run[n].procs[i] == Done
    ensures m <= k <= n && Drained(run[k].g.w)
  {
    var waits := (k: nat) => k < |run| && (AwaitsDrain(run[k], i) || DrainedSince(run, m, k));
    forall k: nat, l: nat | m <= k < l <= n && l == k + 1 && waits(k) ensures waits(l) { AwaitRunStep(run, m, k, i); }
    Carry(waits, m, n);
    k :| m <= k <= n && k < |run| && Drained(run[k].g.w);
  }
}
