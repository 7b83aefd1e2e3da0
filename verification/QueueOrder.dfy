/**
 * The order in which keys are granted. All keys ever enqueued stand in one line with a cursor:
 * granted keys before it, the queue after it. Callers edit the line behind the cursor; workers
 * only move the cursor.
 */
module QueueOrder {
  import opened Names
  import opened WorkStates
  import opened Tables
  import opened Sums
  import opened Scheduler
  import opened Ledger
  import opened Safety
  import opened Induct

  datatype Line = Line(items: seq<Key>, cursor: nat)

  function LineOf(w: WorkState): Line {
    Line(w.granted + w.keys, |w.granted|)
  }

  /** What one critical section does to the line, before the cursor moves on. */
  datatype Edit =
    | Nothing
    | Append(keys: seq<Key>)         // Inform
    | Insert(keys: seq<Key>)         // InformFront
    | Cut                            // DequeueAll

  function Edited(line: Line, edit: Edit): Line
    requires line.cursor <= |line.items|
  {
    match edit
    case Nothing => line
    case Append(keys) => line.(items := line.items + keys)
    case Insert(keys) => line.(items := line.items[..line.cursor] + keys + line.items[line.cursor..])
    case Cut => line.(items := line.items[..line.cursor])
  }

  function Advanced(line: Line, n: nat): Line {
    line.(cursor := line.cursor + n)
  }

  /** The critical sections that hold stateMu. */
  datatype Section =
    | LimitSection(limit: int)
    | ScheduleSection(front: bool, keys: seq<Key>)
    | TryGetSection
    | ReattachSection
    | WaitSection(ch: Chan)
    | DequeueSection

  function After(w: WorkState, section: Section): WorkState {
    match section
    case LimitSection(limit) => Limit(w, limit).0
    case ScheduleSection(front, keys) => Schedule(w, front, keys).0
    case TryGetSection => TryGet(w).0
    case ReattachSection => WorkStates.Reattach(w).0
    case WaitSection(ch) => Wait(w, ch).0
    case DequeueSection => Dequeue(w)
  }

  function EditOf(section: Section): Edit {
    match section
    case ScheduleSection(front, keys) => if front then Insert(keys) else Append(keys)
    case DequeueSection => Cut
    case _ => Nothing
  }

  lemma Rejoin<T>(before: seq<T>, keys: seq<T>, n: nat, after: seq<T>)
    requires n <= |keys|
    ensures before + keys[..n] + (keys[n..] + after) == before + keys + after
    ensures before + keys[..n] + ([] + keys[n..]) == before + [] + keys
    ensures before + keys[..0] + (after + keys[0..]) == before + after + keys
  {}

  /**
   * Inform may start keys at once, without queueing them, only because free grants imply an
   * empty queue.
   */
  lemma ScheduleEditsLine(w: WorkState, front: bool, keys: seq<Key>)
    requires Sound(w)
    ensures var w' := Schedule(w, front, keys).0;
      |w.granted| <= |w'.granted|
      && LineOf(w') == Advanced(Edited(LineOf(w), EditOf(ScheduleSection(front, keys))), |w'.granted| - |w.granted|)
  {
    var n := |Schedule(w, front, keys).1|;
    Rejoin(w.granted, keys, n, w.keys);
    LineParts(w);
    assert n == 0 || w.keys == [];
  }

  lemma LineParts(w: WorkState)
    ensures LineOf(w).items[..|w.granted|] == w.granted && LineOf(w).items[|w.granted|..] == w.keys
  {}

  lemma Shifted<T>(before: seq<T>, keys: seq<T>, n: nat)
    requires n <= |keys|
    ensures before + keys[..n] + keys[n..] == before + keys
    ensures n == 1 ==> keys[..n] == [keys[0]]
  {}

  lemma GrantEditsLine(w: WorkState, section: Section)
    requires Sound(w) && (section.LimitSection? || section.TryGetSection?)
    ensures var w' := After(w, section);
      |w.granted| <= |w'.granted| && LineOf(w') == Advanced(LineOf(w), |w'.granted| - |w.granted|)
  {
    var n := |After(w, section).granted| - |w.granted|;
    Shifted(w.granted, w.keys, n);
  }

  /**
   * Each section edits the line as its caller was promised and otherwise only grants keys from
   * just behind the cursor.
   */
  lemma SectionEditsLine(w: WorkState, section: Section)
    requires Sound(w)
    ensures var w' := After(w, section);
      && |w.granted| <= |w'.granted|
      && LineOf(w') == Advanced(Edited(LineOf(w), EditOf(section)), |w'.granted| - |w.granted|)
  {
    match section
    case LimitSection(_) => GrantEditsLine(w, section);
    case TryGetSection => GrantEditsLine(w, section);
    case ScheduleSection(front, keys) => ScheduleEditsLine(w, front, keys);
    case DequeueSection => LineParts(w); assert w.granted + [] == w.granted;
    case _ =>
  }

  /** No key is granted while a reattacher is left waiting, and none beyond the limit. */
  lemma ReattachersFirst(w: WorkState, section: Section)
    requires Sound(w) && After(w, section).granted != w.granted
    ensures After(w, section).reattachers == 0
    ensures After(w, section).grants <= After(w, section).grantLimit
  {}

  /** The outstanding grants grow, or reach a reattacher, only within the limit. */
  lemma GrantsWithinLimit(w: WorkState, section: Section)
    requires Sound(w)
    requires After(w, section).grants > w.grants || After(w, section).reattachers < w.reattachers
    ensures After(w, section).grants <= After(w, section).grantLimit
  {}

  /** The section that a goroutine's next step runs, if it is one. */
  function SectionOf(g: Shared, p: Proc): Option<Section> {
    match p
    case Caller(SetLimit(limit)) => Some(LimitSection(limit))
    case Caller(DequeueAll) => Some(DequeueSection)
    case Caller(AwaitAll) => Some(WaitSection(g.emptiedMade))
    case Scheduling(front, keys, _) => if keys == [] then None else Some(ScheduleSection(front, keys))
    case Idle => Some(TryGetSection)
    case Handling(h, AtCode) =>
      if h.code == [] then None
      else if h.code[0].Detach? && !h.detached then Some(TryGetSection)
      else if h.code[0].Reattach? && h.detached then Some(ReattachSection)
      else None
    case Handling(h, Fetched(_)) => if h.lockDetached || h.detached then None else Some(TryGetSection)
    case Handling(h, Acquired) => if h.lockDetached && h.detached then Some(ReattachSection) else None
    case _ => None
  }

  function SectionBy(s: System, move: Move): Option<Section>
    requires move.i < |s.procs|
  {
    if move.Alone? then SectionOf(s.g, s.procs[move.i]) else None
  }

  function AfterAny(w: WorkState, section: Option<Section>): WorkState {
    if section.None? then w else After(w, section.value)
  }

  lemma HandlerSection(g: Shared, h: Handler, at: Point, g': Shared, p': Proc, spawn: seq<Proc>)
    requires HandlerStep(g, h, at, g', p', spawn) && !g'.panicked
    ensures g'.w == AfterAny(g.w, SectionOf(g, Handling(h, at)))
  {}

  lemma LocalSection(g: Shared, p: Proc, g': Shared, p': Proc, spawn: seq<Proc>)
    requires LocalStep(g, p, g', p', spawn) && !g'.panicked
    ensures g'.w == AfterAny(g.w, SectionOf(g, p))
  {
    if p.Handling? { HandlerSection(g, p.h, p.at, g', p', spawn); }
  }

  /** Every step of the system is the one section of the goroutine that moves, or changes no work state. */
  lemma MoveIsSection(s: System, move: Move, s': System)
    requires Inv(s) && Moves(s, move, s')
    ensures s'.g.w == AfterAny(s.g.w, SectionBy(s, move))
  {
    MoveKeeps(s, move, s');
    if move.Alone? { LocalSection(s.g, s.procs[move.i], s'.g, move.p, move.spawn); }
  }

  lemma StepIsSection(s: System, s': System) returns (move: Move)
    requires Inv(s) && Step(s, s')
    ensures Moves(s, move, s') && s'.g.w == AfterAny(s.g.w, SectionBy(s, move))
  {
    move :| Moves(s, move, s');
    MoveIsSection(s, move, s');
  }

  /** What a goroutine's next step may do to the line: an Inform enqueues the keys it created itself. */
  function EditBy(p: Proc): Edit {
    match p
    case Scheduling(front, keys, _) => if keys == [] then Nothing else if front then Insert(keys) else Append(keys)
    case Caller(DequeueAll) => Cut
    case _ => Nothing
  }

  /**
   * Step by step: the goroutine that moves edits the line as its own call was promised, and
   * otherwise the cursor only moves on.
   */
  lemma MoveEditsLine(s: System, move: Move, s': System)
    requires Inv(s) && Moves(s, move, s')
    ensures |s.g.w.granted| <= |s'.g.w.granted|
    ensures var edit := if move.Alone? then EditBy(s.procs[move.i]) else Nothing;
      LineOf(s'.g.w) == Advanced(Edited(LineOf(s.g.w), edit), |s'.g.w.granted| - |s.g.w.granted|)
  {
    MoveIsSection(s, move, s');
    var section := SectionBy(s, move);
    if move.Alone? { EditOfSection(s.g, s.procs[move.i]); }
    if section.Some? { SectionEditsLine(s.g.w, section.value); }
  }

  lemma EditOfSection(g: Shared, p: Proc)
    ensures EditBy(p) == if SectionOf(g, p).None? then Nothing else EditOf(SectionOf(g, p).value)
  {}

  // ---------------------------------------------------------------------------------------
  // No overtaking

  /** A key stands in the line at most once, over the whole life of the map. */
  lemma LineDistinct(s: System, key: Key)
    requires Inv(s)
    ensures Count(LineOf(s.g.w).items, key) <= 1
  {
    forall i | 0 <= i < |s.procs| ensures HeldBy(Promised(key), s.procs[i]) <= HeldBy(Unstarted(key), s.procs[i]) {
      assert ProcOk(s.g, s.procs[i]);
    }
    SumMonotone(Held(Promised(key)), Held(Unstarted(key)), s.procs);
    assert Sum(Held(Promised(key)), s.procs) == Owed(s.g, Promised(key));
    assert Sum(Held(Unstarted(key)), s.procs) == Owed(s.g, Unstarted(key));
  }

  ghost predicate Before(line: Line, x: Key, y: Key) {
    exists i, j :: 0 <= i < j < |line.items| && line.items[i] == x && line.items[j] == y
  }

  lemma EditKeepsOrder(line: Line, edit: Edit, x: Key, y: Key)
    requires line.cursor <= |line.items| && Before(line, x, y) && edit != Cut
    ensures Before(Edited(line, edit), x, y)
  {
    var i, j :| 0 <= i < j < |line.items| && line.items[i] == x && line.items[j] == y;
    var line' := Edited(line, edit);
    var shift := if edit.Insert? then |edit.keys| else 0;
    var i' := if i < line.cursor then i else i + shift;
    var j' := if j < line.cursor then j else j + shift;
    assert line'.items[i'] == x && line'.items[j'] == y;
  }

  /** DequeueAll has emptied a queue. */
  ghost predicate Dequeues(s: System, s': System) {
    s.g.w.keys != [] && s'.g.w == Dequeue(s.g.w)
  }

  lemma StepKeepsOrder(s: System, s': System, x: Key, y: Key)
    requires Inv(s) && Step(s, s') && !Dequeues(s, s') && Before(LineOf(s.g.w), x, y)
    ensures Before(LineOf(s'.g.w), x, y)
  {
    var move := StepIsSection(s, s');
    MoveEditsLine(s, move, s');
    var edit := if move.Alone? then EditBy(s.procs[move.i]) else Nothing;
    if edit == Cut {
      LineParts(s.g.w);
    } else {
      EditKeepsOrder(LineOf(s.g.w), edit, x, y);
      var i, j :| 0 <= i < j < |LineOf(s'.g.w).items| && LineOf(s'.g.w).items[i] == x && LineOf(s'.g.w).items[j] == y;
    }
  }

  /** What has been granted stays granted. */
  lemma GrantedStays(s: System, s': System)
    requires Inv(s) && Step(s, s')
    ensures s.g.w.granted <= s'.g.w.granted
  {
    var move := StepIsSection(s, s');
  }

  /** x has been granted, or stands ahead of y. */
  ghost predicate Ahead(w: WorkState, x: Key, y: Key) {
    x in w.granted || Before(LineOf(w), x, y)
  }

  lemma RunStepKeepsAhead(run: seq<System>, n: nat, x: Key, y: Key)
    requires Run(run) && n + 1 < |run| && Ahead(run[n].g.w, x, y)
    requires Dequeues(run[n], run[n + 1]) ==> x !in run[n].g.w.keys
    ensures Ahead(run[n + 1].g.w, x, y)
  {
    var s, s' := run[n], run[n + 1];
    RunInv(run, n);
    assert Step(s, s');
    GrantedStays(s, s');
    if x !in s.g.w.granted {
      assert x in LineOf(s.g.w).items;
      StepKeepsOrder(s, s', x, y);
    }
  }

  lemma TwoPlaces(s: seq<Key>, i: nat, j: nat)
    requires i < j < |s| && s[i] == s[j]
    ensures Count(s, s[i]) >= 2
  {
    assert s == s[..i] + [s[i]] + s[i + 1..j] + [s[j]] + s[j + 1..];
  }

  /**
   * No overtaking: whatever callers inform, at the front or the back, and however the limit
   * moves, a queued key is not granted before the keys that were ahead of it, unless DequeueAll
   * has taken the latter out of the queue.
   */
  lemma NoOvertaking(run: seq<System>, m: nat, n: nat, x: Key, y: Key)
    requires Run(run) && m <= n < |run| && Before(LineOf(run[m].g.w), x, y)
    requires forall i | m <= i < n :: Dequeues(run[i], run[i + 1]) ==> x !in run[i].g.w.keys
    ensures y in run[n].g.w.granted ==> x in run[n].g.w.granted
  {
    var ahead := (k: nat) => k < |run| && Ahead(run[k].g.w, x, y);
    forall k: nat, l: nat | m <= k < l <= n && l == k + 1 && ahead(k) ensures ahead(l) {
      RunStepKeepsAhead(run, k, x, y);
    }
    Carry(ahead, m, n);
    RunInv(run, n);
    if y in run[n].g.w.granted && x !in run[n].g.w.granted { BehindIsQueued(run[n], x, y); }
  }

  lemma BehindIsQueued(s: System, x: Key, y: Key)
    requires Inv(s) && Before(LineOf(s.g.w), x, y) && y in s.g.w.granted
    ensures x in s.g.w.granted
  {
    var line := LineOf(s.g.w);
    var i: nat, j: nat :| i < j < |line.items| && line.items[i] == x && line.items[j] == y;
    var k: nat :| k < line.cursor && s.g.w.granted[k] == y;
    assert line.items[k] == y;
    LineDistinct(s, y);
    if j < k { TwoPlaces(line.items, j, k); } else if k < j { TwoPlaces(line.items, k, j); }
  }
}
