/** The task table of a map, and the critical sections that hold tasksMu. */
module Tables {
  import opened Names
  import opened Sums

  /** How far a task has come. Its gate is open exactly when it is Finished. */
  datatype Stage =
    | Pending   // known to the map, handler not started
    | Running   // a worker has looked the task up and runs its handler
    | Handled   // counted in tasksHandled, gate still shut
    | Ejected   // taken out of the map by DequeueAll, gate still shut
    | Finished

  datatype Task = Task(key: Key, stage: Stage)

  /** `ids` is the map's tasks field; `all` holds every task ever made, by identity. */
  datatype Table = Table(ids: map<Key, TaskId>, all: seq<Task>, handled: nat)

  predicate At(t: Table, id: TaskId, stage: Stage) {
    id < |t.all| && t.all[id].stage == stage
  }

  predicate KeyAt(t: Table, key: Key, stage: Stage) {
    key in t.ids && At(t, t.ids[key], stage)
  }

  function SetStage(t: Table, id: TaskId, stage: Stage): Table
    requires id < |t.all|
  {
    t.(all := t.all[id := t.all[id].(stage := stage)])
  }

  /** getOrCreateTasks: the new table, the task of each key, and the keys that were new. */
  function GetOrCreate(t: Table, keys: seq<Key>): (r: (Table, seq<TaskId>, seq<Key>))
    ensures |r.1| == |keys| && |r.2| <= |keys|
  {
    if keys == [] then (t, [], [])
    else
      var (t', ids, created) := GetOrCreate(t, keys[..|keys| - 1]);
      var key := keys[|keys| - 1];
      if key in t'.ids then (t', ids + [t'.ids[key]], created)
      else (AddTask(t', key), ids + [|t'.all|], created + [key])
  }

  function AddTask(t: Table, key: Key): Table {
    t.(ids := t.ids[key := |t.all|], all := t.all + [Task(key, Pending)])
  }

  function EjectTask(t: Table, key: Key): Table
    requires key in t.ids && t.ids[key] < |t.all|
  {
    SetStage(t, t.ids[key], Ejected).(ids := t.ids - {key})
  }

  /** The table half of DequeueAll. The flag tells whether a queued key had no task. */
  function Eject(t: Table, keys: seq<Key>): (r: (Table, seq<TaskId>, bool))
    ensures |r.1| <= |keys|
  {
    if keys == [] then (t, [], false)
    else
      var (t', ids, missing) := Eject(t, keys[..|keys| - 1]);
      var key := keys[|keys| - 1];
      if key !in t'.ids || t'.ids[key] >= |t'.all| then (t', ids, true)
      else (EjectTask(t', key), ids + [t'.ids[key]], missing)
  }

  // ---------------------------------------------------------------------------------------

  /** The map knows every task by its own key, and only unfinished business leaves by ejection. */
  ghost predicate TableOk(t: Table) {
    && (forall k <- t.ids :: t.ids[k] < |t.all| && t.all[t.ids[k]].key == k && t.all[t.ids[k]].stage != Ejected)
    && (forall id: TaskId | id < |t.all| && t.all[id].stage in {Pending, Running, Handled} ::
          t.all[id].key in t.ids && t.ids[t.all[id].key] == id)
    && t.handled == |HandledKeys(t)|
  }

  ghost function HandledKeys(t: Table): set<Key> {
    set k <- t.ids | KeyAt(t, k, Handled) || KeyAt(t, k, Finished)
  }

  /** Tasks are never forgotten or renamed, open gates stay open, and the count of handled keys never falls. */
  ghost predicate Extends(t: Table, t': Table) {
    && |t.all| <= |t'.all|
    && (forall id: TaskId | id < |t.all| :: t'.all[id].key == t.all[id].key)
    && (forall id: TaskId :: At(t, id, Finished) ==> At(t', id, Finished))
    && t.handled <= t'.handled
  }

  function One(b: bool): int { if b then 1 else 0 }

  function Count<T(==)>(s: seq<T>, x: T): int { multiset(s)[x] }

  lemma CountSplit<T>(s: seq<T>, n: nat)
    requires n <= |s|
    ensures forall x :: Count(s, x) == Count(s[..n], x) + Count(s[n..], x)
  {
    assert s == s[..n] + s[n..];
  }

  /** The handler of this key has been started. */
  predicate Begun(t: Table, key: Key) {
    key in t.ids && !KeyAt(t, key, Pending)
  }

  /** A change that starts, counts and opens nothing. */
  ghost predicate SameProgress(t: Table, t': Table) {
    && t'.handled == t.handled
    && (forall k :: Begun(t, k) == Begun(t', k))
    && (forall id: TaskId :: At(t, id, Running) == At(t', id, Running) && At(t, id, Handled) == At(t', id, Handled))
  }

  /** No more keys are handled than are in the map. */
  lemma HandledKnown(t: Table)
    requires TableOk(t)
    ensures t.handled <= |t.ids|
  {
    SubsetSize(HandledKeys(t), t.ids.Keys);
  }

  lemma SplitLast<T>(s: seq<T>)
    requires s != []
    ensures s == s[..|s| - 1] + [s[|s| - 1]]
  {}

  lemma AddKeeps(t: Table, key: Key)
    requires TableOk(t) && key !in t.ids
    ensures var t' := AddTask(t, key);
      && TableOk(t') && Extends(t, t') && SameProgress(t, t')
      && (forall k :: KeyAt(t', k, Pending) == (KeyAt(t, k, Pending) || k == key))
      && (forall id: TaskId :: At(t', id, Ejected) == At(t, id, Ejected))
  {
    assert HandledKeys(AddTask(t, key)) == HandledKeys(t);
  }

  lemma EjectKeeps(t: Table, key: Key)
    requires TableOk(t) && KeyAt(t, key, Pending)
    ensures var t' := EjectTask(t, key);
      && TableOk(t') && Extends(t, t') && SameProgress(t, t')
      && (forall k :: KeyAt(t', k, Pending) == (KeyAt(t, k, Pending) && k != key))
      && (forall id: TaskId :: At(t', id, Ejected) == (At(t, id, Ejected) || id == t.ids[key]))
  {
    var t' := EjectTask(t, key);
    assert forall k <- t.ids | k != key :: t.ids[k] != t.ids[key];
    assert HandledKeys(t') == HandledKeys(t);
  }

  /** New keys get a pending task, once each, and the others keep the task they have. */
  lemma {:induction false} CreateTasks(t: Table, keys: seq<Key>)
    requires TableOk(t)
    ensures var (t', ids, created) := GetOrCreate(t, keys);
      && TableOk(t') && Extends(t, t') && SameProgress(t, t')
      && (forall k :: Count(created, k) == One(KeyAt(t', k, Pending)) - One(KeyAt(t, k, Pending)))
      && (forall id: TaskId :: At(t', id, Ejected) == At(t, id, Ejected))
  {
    if keys != [] {
      var init, key := keys[..|keys| - 1], keys[|keys| - 1];
      CreateTasks(t, init);
      var (t1, ids, created) := GetOrCreate(t, init);
      if key !in t1.ids { AddKeeps(t1, key); }
    }
  }

  /** The tasks handed back are those of the keys asked for, in the order asked. */
  lemma {:induction false} CreateFinds(t: Table, keys: seq<Key>)
    requires TableOk(t)
    ensures var (t', ids, created) := GetOrCreate(t, keys);
      && (forall i | 0 <= i < |keys| :: keys[i] in t'.ids && ids[i] == t'.ids[keys[i]])
      && (forall k <- t.ids :: k in t'.ids && t'.ids[k] == t.ids[k])
      && (forall k :: Count(created, k) == One(k in keys && k !in t.ids))
      && (forall k :: k in t'.ids <==> k in t.ids || k in keys)
  {
    if keys != [] {
      var init, key := keys[..|keys| - 1], keys[|keys| - 1];
      CreateFinds(t, init);
      SplitLast(keys);
    }
  }

  /** The key at this position is unknown to the map and has not come up before. */
  ghost predicate NewAt(t: Table, keys: seq<Key>, i: nat) {
    i < |keys| && keys[i] !in t.ids && keys[i] !in keys[..i]
  }

  /** The keys made are those at all such positions, in the order given. */
  ghost predicate MadeAt(t: Table, keys: seq<Key>, made: seq<Key>, at: seq<nat>) {
    && |at| == |made| && (forall k, l | 0 <= k < l < |at| :: at[k] < at[l])
    && (forall k | 0 <= k < |at| :: NewAt(t, keys, at[k]) && keys[at[k]] == made[k])
    && forall i: nat | NewAt(t, keys, i) :: i in at
  }

  ghost predicate NewInOrder(t: Table, keys: seq<Key>, made: seq<Key>) {
    exists at :: MadeAt(t, keys, made, at)
  }

  lemma NewAtGrows(t: Table, init: seq<Key>, key: Key, i: nat)
    requires i <= |init|
    ensures NewAt(t, init + [key], i) == if i < |init| then NewAt(t, init, i) else key !in t.ids && key !in init
  {
    assert (init + [key])[..i] == init[..i];
    assert init[..|init|] == init;
  }

  lemma NewAtSnoc(t: Table, init: seq<Key>, key: Key)
    ensures forall i: nat | i < |init| :: (init + [key])[i] == init[i] && NewAt(t, init + [key], i) == NewAt(t, init, i)
    ensures NewAt(t, init + [key], |init|) == (key !in t.ids && key !in init) && (init + [key])[|init|] == key
  {
    forall i: nat | i < |init| ensures NewAt(t, init + [key], i) == NewAt(t, init, i) { NewAtGrows(t, init, key, i); }
    NewAtGrows(t, init, key, |init|);
  }

  lemma MadeAtKnown(t: Table, init: seq<Key>, key: Key, made: seq<Key>, at: seq<nat>)
    requires MadeAt(t, init, made, at) && (key in t.ids || key in init)
    ensures MadeAt(t, init + [key], made, at)
  {
    NewAtSnoc(t, init, key);
  }

  lemma MadeAtUnknown(t: Table, init: seq<Key>, key: Key, made: seq<Key>, at: seq<nat>)
    requires MadeAt(t, init, made, at) && key !in t.ids && key !in init
    ensures MadeAt(t, init + [key], made + [key], at + [|init|])
  {
    NewAtSnoc(t, init, key);
    forall i: nat | NewAt(t, init + [key], i) ensures i in at + [|init|] {
      if i < |init| { assert NewAt(t, init, i); }
    }
  }

  /** The new keys come out in the order in which they first occur among those given, and all of them do. */
  lemma {:induction false} CreateInOrder(t: Table, keys: seq<Key>) returns (at: seq<nat>)
    requires TableOk(t)
    ensures MadeAt(t, keys, GetOrCreate(t, keys).2, at)
  {
    at := [];
    if keys != [] {
      var init, key := keys[..|keys| - 1], keys[|keys| - 1];
      at := CreateInOrder(t, init);
      CreateFinds(t, init);
      SplitLast(keys);
      if key in t.ids || key in init {
        MadeAtKnown(t, init, key, GetOrCreate(t, init).2, at);
      } else {
        MadeAtUnknown(t, init, key, GetOrCreate(t, init).2, at);
        at := at + [|init|];
      }
    }
  }

  /** CreateTasks, for one task at a time. */
  lemma CreateCountsTask(t: Table, keys: seq<Key>, id: TaskId, stage: Stage)
    requires TableOk(t) && stage in {Running, Handled, Ejected}
    ensures At(GetOrCreate(t, keys).0, id, stage) == At(t, id, stage)
  {
    CreateTasks(t, keys);
  }

  /** CreateTasks, for one key at a time. */
  lemma CreateCountsKey(t: Table, keys: seq<Key>, key: Key)
    requires TableOk(t)
    ensures var (t', ids, created) := GetOrCreate(t, keys);
      && Begun(t', key) == Begun(t, key)
      && One(KeyAt(t', key, Pending)) == One(KeyAt(t, key, Pending)) + Count(created, key)
  {
    CreateTasks(t, keys);
  }

  /** Every queued key leaves the map, its task ejected, and nothing else changes. */
  lemma {:induction false} EjectTasks(t: Table, keys: seq<Key>)
    requires TableOk(t)
    requires forall k :: Count(keys, k) <= One(KeyAt(t, k, Pending))
    ensures var (t', ids, missing) := Eject(t, keys);
      && !missing && TableOk(t') && Extends(t, t') && SameProgress(t, t')
      && (forall k :: One(KeyAt(t', k, Pending)) == One(KeyAt(t, k, Pending)) - Count(keys, k))
      && (forall id: TaskId :: One(At(t', id, Ejected)) == One(At(t, id, Ejected)) + Count(ids, id))
  {
    if keys != [] {
      var init, key := keys[..|keys| - 1], keys[|keys| - 1];
      SplitLast(keys);
      assert forall k :: Count(keys, k) == Count(init, k) + One(k == key);
      EjectTasks(t, init);
      var (t1, ids, _) := Eject(t, init);
      assert Count(keys, key) <= One(KeyAt(t, key, Pending));
      EjectKeeps(t1, key);
    }
  }

  /** The tasks taken out are those of the keys given, in that order, and the map forgets these keys and no others. */
  lemma {:induction false} EjectFinds(t: Table, keys: seq<Key>)
    requires TableOk(t)
    requires forall k :: Count(keys, k) <= One(KeyAt(t, k, Pending))
    ensures var (t', ids, missing) := Eject(t, keys);
      && |ids| == |keys| && (forall i | 0 <= i < |keys| :: keys[i] in t.ids && ids[i] == t.ids[keys[i]])
      && (forall k :: k in t'.ids <==> k in t.ids && k !in keys)
      && (forall k <- t'.ids :: t'.ids[k] == t.ids[k])
  {
    if keys != [] {
      var init, key := keys[..|keys| - 1], keys[|keys| - 1];
      SplitLast(keys);
      assert forall k :: Count(keys, k) == Count(init, k) + One(k == key);
      EjectFinds(t, init);
      EjectTasks(t, init);
      assert Count(keys, key) <= One(KeyAt(t, key, Pending));
    }
  }

  /** EjectTasks, for one task at a time. */
  lemma EjectCountsTask(t: Table, keys: seq<Key>, id: TaskId, stage: Stage)
    requires TableOk(t) && stage in {Running, Handled, Ejected}
    requires forall k :: Count(keys, k) <= One(KeyAt(t, k, Pending))
    ensures var (t', ids, missing) := Eject(t, keys);
      !missing && One(At(t', id, stage)) == One(At(t, id, stage)) + if stage == Ejected then Count(ids, id) else 0
  {
    EjectTasks(t, keys);
  }

  /** EjectTasks, for one key at a time. */
  lemma EjectCountsKey(t: Table, keys: seq<Key>, key: Key)
    requires TableOk(t)
    requires forall k :: Count(keys, k) <= One(KeyAt(t, k, Pending))
    ensures var (t', ids, missing) := Eject(t, keys);
      && !missing && Begun(t', key) == Begun(t, key)
      && One(KeyAt(t', key, Pending)) == One(KeyAt(t, key, Pending)) - Count(keys, key)
  {
    EjectTasks(t, keys);
  }

  /** Half-way through, the next key is still pending. */
  lemma EjectPrefix(t: Table, keys: seq<Key>, i: nat)
    requires TableOk(t) && i < |keys|
    requires forall k :: Count(keys, k) <= One(KeyAt(t, k, Pending))
    ensures var t' := Eject(t, keys[..i]).0;
      KeyAt(t', keys[i], Pending) && Eject(t, keys[..i + 1])
        == (EjectTask(t', keys[i]), Eject(t, keys[..i]).1 + [t'.ids[keys[i]]], false)
  {
    var init := keys[..i];
    assert keys == init + [keys[i]] + keys[i + 1..];
    assert forall k :: Count(keys, k) == Count(init, k) + One(k == keys[i]) + Count(keys[i + 1..], k);
    EjectTasks(t, init);
    assert Count(keys, keys[i]) <= One(KeyAt(t, keys[i], Pending));
    assert keys[..i + 1][..i] == init && keys[..i + 1][i] == keys[i];
  }

  lemma StartTask(t: Table, key: Key)
    requires TableOk(t) && KeyAt(t, key, Pending)
    ensures var t' := SetStage(t, t.ids[key], Running);
      TableOk(t') && Extends(t, t') && forall k :: Begun(t', k) == (Begun(t, k) || k == key)
  {
    var t' := SetStage(t, t.ids[key], Running);
    assert HandledKeys(t') == HandledKeys(t);
    forall k ensures Begun(t', k) == (Begun(t, k) || k == key) {
      if k in t.ids && k != key { assert t.ids[k] != t.ids[key]; }
    }
  }

  lemma CountTask(t: Table, id: TaskId)
    requires TableOk(t) && At(t, id, Running)
    ensures var t' := SetStage(t, id, Handled).(handled := t.handled + 1);
      TableOk(t') && Extends(t, t') && forall k :: Begun(t', k) == Begun(t, k)
  {
    var t' := SetStage(t, id, Handled).(handled := t.handled + 1);
    var key := t.all[id].key;
    assert key !in HandledKeys(t);
    assert HandledKeys(t') == HandledKeys(t) + {key};
  }

  lemma OpenTask(t: Table, id: TaskId)
    requires TableOk(t) && (At(t, id, Handled) || At(t, id, Ejected))
    ensures var t' := SetStage(t, id, Finished);
      TableOk(t') && Extends(t, t') && forall k :: Begun(t', k) == Begun(t, k)
  {
    var t' := SetStage(t, id, Finished);
    assert HandledKeys(t') == HandledKeys(t);
  }
}
