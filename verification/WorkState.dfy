/** Names the goroutines of a map share: comparable keys, and identities of tasks and channels. */
module Names {
  type Key(==, !new)
  type LockKey(==, !new)
  type TaskId = nat
  type Chan = nat

  datatype Option<+T> = None | Some(value: T)

  function Max(a: int, b: int): int { if a < b then b else a }
  function Min(a: int, b: int): int { if a < b then a else b }
}

/**
 * The work state of a map, and the effect of each critical section that holds stateMu.
 * The queue's front is the head of `keys`. `granted` is the history of the keys that have
 * been handed a work grant, in order.
 */
module WorkStates {
  import opened Names

  datatype WorkState = WorkState(
    grants: int,
    grantLimit: int,
    reattachers: int,
    keys: seq<Key>,
    emptied: Option<Chan>,
    granted: seq<Key>)

  /** What a goroutine must still do once it has left tryGetQueuedKey. */
  datatype Duty =
    | NoDuty                    // its grant is retired
    | SendGrant                 // its grant goes to a reattacher
    | CloseEmptied(ch: Chan)    // its grant is retired, and waiters must be released
    | Work(key: Key)            // its grant must be used for this key

  /** Limit, up to the unlock: the new state, the keys to start and the grants to send. */
  function Limit(w: WorkState, limit: int): (WorkState, seq<Key>, int) {
    var grantLimit := Max(1, limit);
    var issuable := Max(0, grantLimit - w.grants);
    var transfers := Min(issuable, w.reattachers);
    var workable := Min(issuable - transfers, |w.keys|);
    (w.(grantLimit := grantLimit,
        grants := w.grants + transfers + workable,
        reattachers := w.reattachers - transfers,
        keys := w.keys[workable..],
        granted := w.granted + w.keys[..workable]),
     w.keys[..workable],
     transfers)
  }

  /** scheduleNewKeys, up to the unlock: the new state and the keys to start at once. */
  function Schedule(w: WorkState, front: bool, keys: seq<Key>): (WorkState, seq<Key>) {
    var newGrants := Max(0, Min(w.grantLimit - w.grants, |keys|));
    var queued := keys[newGrants..];
    (w.(grants := w.grants + newGrants,
        keys := if front then queued + w.keys else w.keys + queued,
        granted := w.granted + keys[..newGrants]),
     keys[..newGrants])
  }

  /** tryGetQueuedKey, up to the unlock. */
  function TryGet(w: WorkState): (WorkState, Duty) {
    if w.grants > w.grantLimit then
      (w.(grants := w.grants - 1), NoDuty)
    else if w.reattachers > 0 then
      (w.(reattachers := w.reattachers - 1), SendGrant)
    else if w.keys == [] then
      if w.grants - 1 == 0 && w.emptied.Some? then
        (w.(grants := 0, emptied := None), CloseEmptied(w.emptied.value))
      else
        (w.(grants := w.grants - 1), NoDuty)
    else
      (w.(keys := w.keys[1..], granted := w.granted + [w.keys[0]]), Work(w.keys[0]))
  }

  /** handleReattach, up to the unlock: the new state, and whether a grant must be awaited. */
  function Reattach(w: WorkState): (WorkState, bool) {
    if w.grants < w.grantLimit then
      (w.(grants := w.grants + 1), false)
    else
      (w.(reattachers := w.reattachers + 1), true)
  }

  /** Wait, up to the unlock; `ch` is the channel made if one is needed. */
  function Wait(w: WorkState, ch: Chan): (WorkState, Option<Chan>) {
    if w.grants == 0 then (w, None)
    else if w.emptied.None? then (w.(emptied := Some(ch)), Some(ch))
    else (w, w.emptied)
  }

  /** The work-state half of DequeueAll. */
  function Dequeue(w: WorkState): WorkState {
    w.(keys := [])
  }

  // ---------------------------------------------------------------------------------------
  // What every critical section keeps.

  /** Work conservation: nothing waits, neither key nor reattacher, unless the limit is used up. */
  ghost predicate Busy(w: WorkState) {
    w.keys != [] || w.reattachers > 0 ==> w.grants >= w.grantLimit
  }

  ghost predicate Sound(w: WorkState) {
    && w.grantLimit >= 1
    && w.grants >= 0
    && w.reattachers >= 0
    && Busy(w)
    && (w.emptied.Some? ==> w.grants > 0)
  }

  const FRESH: WorkState := WorkState(0, MAX_INT, 0, [], None, [])

  const MAX_INT := 0x7fff_ffff_ffff_ffff

  /** A new map is idle, and starts at once as many keys as it will ever be given. */
  lemma FreshStartsAll(front: bool, keys: seq<Key>)
    requires |keys| <= 9223372036854775807
    ensures Sound(FRESH) && FRESH.grants == 0 && FRESH.keys == []
    ensures var (w', now) := Schedule(FRESH, front, keys); now == keys && w'.keys == [] && w'.grants == |keys|
  {
    assert keys[..|keys|] == keys;
  }

  lemma LimitSound(w: WorkState, limit: int)
    requires Sound(w)
    ensures var (w', toStart, transfers) := Limit(w, limit);
      && Sound(w') && w'.grantLimit == Max(1, limit)
      && w'.grants == w.grants + transfers + |toStart| && w'.reattachers == w.reattachers - transfers
      && 0 <= transfers && w.keys == toStart + w'.keys
      && (toStart != [] ==> w'.reattachers == 0)
  {}

  lemma ScheduleSound(w: WorkState, front: bool, keys: seq<Key>)
    requires Sound(w)
    ensures var (w', now) := Schedule(w, front, keys);
      && Sound(w') && now <= keys && w'.grants == w.grants + |now|
      && w'.keys == (if front then keys[|now|..] + w.keys else w.keys + keys[|now|..])
      && (now != [] ==> w'.grants <= w.grantLimit && w.reattachers == 0 && w.keys == [])
  {}

  lemma TryGetSound(w: WorkState)
    requires Sound(w) && w.grants >= 1
    ensures var (w', duty) := TryGet(w);
      && Sound(w')
      && (duty.Work? ==> w'.grants <= w.grantLimit && w'.reattachers == 0 && w.keys == [duty.key] + w'.keys)
      && (duty.SendGrant? ==> w'.grants <= w.grantLimit && w'.keys == w.keys)
      && (duty.CloseEmptied? ==> w'.grants == 0 && w'.keys == [] && w'.reattachers == 0 && w'.emptied.None?)
  {}

  lemma WaitSound(w: WorkState, ch: Chan)
    requires Sound(w)
    ensures var (w', done) := Wait(w, ch);
      Sound(w') && (done.None? <==> w.grants == 0) && (done.Some? ==> w'.emptied == done)
  {}
}
