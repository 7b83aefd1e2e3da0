/**
 * The map as an object: the fields that internal/parka/map.go keeps under tasksMu and stateMu, and
 * its critical sections as methods that change them in place. Each is proved to do what the
 * corresponding step of the transition system does.
 */
module ParkaMap {
  import opened Names
  import opened WorkStates
  import opened Tables

  /** Queueing some of the keys just created leaves each pending key in the queue once. */
  lemma QueuedOnce(t: Table, queue: seq<Key>, ks: seq<Key>, n: nat)
    requires n <= |ks| && forall k :: Count(queue, k) + Count(ks, k) <= One(KeyAt(t, k, Pending))
    ensures forall k :: Count(ks[n..] + queue, k) <= One(KeyAt(t, k, Pending))
    ensures forall k :: Count(queue + ks[n..], k) <= One(KeyAt(t, k, Pending))
  {
    CountSplit(ks, n);
  }

  class Map {
    var tasks: map<Key, TaskId>
    var all: seq<Task>
    var handled: nat

    var grants: int
    var grantLimit: int
    var reattachers: int
    var keys: seq<Key>
    var emptied: Option<Chan>
    var emptiedMade: nat
    ghost var granted: seq<Key>

    ghost function Work(): WorkState
      reads this
    {
      WorkState(grants, grantLimit, reattachers, keys, emptied, granted)
    }

    ghost function Known(): Table
      reads this
    {
      Table(tasks, all, handled)
    }

    /** Every queued key has a pending task, and stands in the queue once. */
    ghost predicate Valid()
      reads this
    {
      && Sound(Work()) && TableOk(Known())
      && forall k :: Count(keys, k) <= One(KeyAt(Known(), k, Pending))
    }

    constructor ()
      ensures Valid() && Work() == WorkStates.FRESH && Known() == Table(map[], [], 0)
    {
      tasks, all, handled := map[], [], 0;
      grants, grantLimit, reattachers, keys, emptied, emptiedMade := 0, MAX_INT, 0, [], None, 0;
      granted := [];
    }

    /** The first n keys of the queue, popped one by one. */
    method PopFront(n: nat) returns (popped: seq<Key>)
      requires n <= |keys|
      modifies this`keys
      ensures popped == old(keys)[..n] && keys == old(keys)[n..]
    {
      ghost var queue := keys;
      popped := [];
      while |popped| < n
        invariant |popped| <= n && popped == queue[..|popped|] && keys == queue[|popped|..]
      {
        popped := popped + [keys[0]];
        keys := keys[1..];
      }
    }

    /** The critical section of Limit. */
    method Limit(limit: int) returns (toStart: seq<Key>, transfers: int)
      requires Valid()
      modifies this`grants, this`grantLimit, this`reattachers, this`keys, this`granted
      ensures Work() == WorkStates.Limit(old(Work()), limit).0
      ensures toStart == WorkStates.Limit(old(Work()), limit).1 && transfers == WorkStates.Limit(old(Work()), limit).2
      ensures Valid() && old(keys) == toStart + keys && (toStart != [] ==> reattachers == 0)
    {
      LimitSound(Work(), limit);
      grantLimit := Max(1, limit);
      var issuable := Max(0, grantLimit - grants);

      transfers := Min(issuable, reattachers);
      grants := grants + transfers;
      reattachers := reattachers - transfers;
      issuable := issuable - transfers;

      var workable := Min(issuable, |keys|);
      grants := grants + workable;
      CountSplit(keys, workable);
      toStart := PopFront(workable);
      granted := granted + toStart;
    }

    /** getOrCreateTasks. */
    method GetOrCreateTasks(ks: seq<Key>) returns (ids: seq<TaskId>, newKeys: seq<Key>)
      requires Valid()
      modifies this`tasks, this`all
      ensures (Known(), ids, newKeys) == GetOrCreate(old(Known()), ks)
      ensures Valid() && |ids| == |ks| && forall i | 0 <= i < |ks| :: ks[i] in tasks && tasks[ks[i]] == ids[i]
      ensures forall k :: Count(newKeys, k) == One(k in ks && k !in old(tasks))
      ensures NewInOrder(old(Known()), ks, newKeys)
    {
      ghost var t := Known();
      ids, newKeys := [], [];
      for i := 0 to |ks|
        invariant (Known(), ids, newKeys) == GetOrCreate(t, ks[..i])
      {
        assert ks[..i + 1][..i] == ks[..i];
        var key := ks[i];
        if key in tasks {
          ids := ids + [tasks[key]];
        } else {
          var id := |all|;
          all := all + [Task(key, Pending)];
          tasks := tasks[key := id];
          ids := ids + [id];
          newKeys := newKeys + [key];
        }
      }
      assert ks[..|ks|] == ks;
      CreateTasks(t, ks);
      CreateFinds(t, ks);
      ghost var at := CreateInOrder(t, ks);
      assert MadeAt(t, ks, newKeys, at);
    }

    /** pushAllBack. */
    method PushAllBack(ks: seq<Key>)
      modifies this`keys
      ensures keys == old(keys) + ks
    {
      ghost var queue := keys;
      for i := 0 to |ks|
        invariant keys == queue + ks[..i]
      {
        keys := keys + [ks[i]];
      }
    }

    /** pushAllFront: backwards, so that the block keeps its order. */
    method PushAllFront(ks: seq<Key>)
      modifies this`keys
      ensures keys == ks + old(keys)
    {
      ghost var queue := keys;
      for i := |ks| downto 0
        invariant keys == ks[i..] + queue
      {
        keys := [ks[i]] + keys;
      }
    }

    /** The critical section of scheduleNewKeys. The keys are ones this caller has just created. */
    method ScheduleNewKeys(front: bool, ks: seq<Key>) returns (immediate: seq<Key>)
      requires Valid() && forall k :: Count(keys, k) + Count(ks, k) <= One(KeyAt(Known(), k, Pending))
      modifies this`grants, this`keys, this`granted
      ensures Work() == Schedule(old(Work()), front, ks).0 && immediate == Schedule(old(Work()), front, ks).1
      ensures Valid() && immediate <= ks
      ensures keys == if front then ks[|immediate|..] + old(keys) else old(keys) + ks[|immediate|..]
      ensures immediate != [] ==> grants <= grantLimit && reattachers == 0 && old(keys) == []
    {
      ScheduleSound(Work(), front, ks);
      var newGrants := Max(0, Min(grantLimit - grants, |ks|));
      grants := grants + newGrants;
      immediate := ks[..newGrants];
      var queued := ks[newGrants..];
      QueuedOnce(Known(), keys, ks, newGrants);
      if front { PushAllFront(queued); } else { PushAllBack(queued); }
      granted := granted + immediate;
    }

    /** The loop of DequeueAll, over the keys that were in the queue. */
    method EjectAll(swapped: seq<Key>) returns (dequeued: seq<Key>, ids: seq<TaskId>)
      requires TableOk(Known()) && forall k :: Count(swapped, k) <= One(KeyAt(Known(), k, Pending))
      modifies this`tasks, this`all
      ensures (Known(), ids, false) == Eject(old(Known()), swapped)
      ensures dequeued == swapped && |ids| == |swapped|
    {
      ghost var t := Known();
      dequeued, ids := [], [];
      for i := 0 to |swapped|
        invariant dequeued == swapped[..i] && |ids| == i
        invariant (Known(), ids, false) == Eject(t, swapped[..i])
      {
        var key := swapped[i];
        EjectPrefix(t, swapped, i);
        dequeued := dequeued + [key];
        ids := ids + [tasks[key]];
        all := all[tasks[key] := all[tasks[key]].(stage := Ejected)];
        tasks := tasks - {key};
      }
      assert swapped[..|swapped|] == swapped;
    }

    /** The critical section of DequeueAll: the queued keys and their tasks, both gone from the map. */
    method DequeueAll() returns (dequeued: seq<Key>, ids: seq<TaskId>)
      requires Valid()
      modifies this`tasks, this`all, this`keys
      ensures Work() == Dequeue(old(Work())) && (Known(), ids, false) == Eject(old(Known()), old(keys))
      ensures Valid() && dequeued == old(keys) && keys == [] && |ids| == |dequeued|
    {
      EjectTasks(Known(), keys);
      var swapped := keys;
      keys := [];
      dequeued, ids := EjectAll(swapped);
    }

    /** The critical section of Wait; the channel to wait on, if there is anything to wait for. */
    method Wait() returns (done: Option<Chan>)
      requires Valid()
      modifies this`emptied, this`emptiedMade
      ensures (Work(), done) == WorkStates.Wait(old(Work()), old(emptiedMade))
      ensures Valid() && (done.None? <==> grants == 0) && (done.Some? ==> emptied == done)
    {
      if grants == 0 {
        return None;
      }
      if emptied == None {
        emptied := Some(emptiedMade);
        emptiedMade := emptiedMade + 1;
      }
      done := emptied;
    }

    /** tryGetQueuedKey, for a caller that holds a grant. */
    method TryGetQueuedKey() returns (duty: Duty)
      requires Valid() && grants >= 1
      modifies this`grants, this`reattachers, this`keys, this`emptied, this`granted
      ensures Work() == TryGet(old(Work())).0 && duty == TryGet(old(Work())).1
      ensures Valid()
      ensures duty.Work? ==> grants <= grantLimit && reattachers == 0 && old(keys) == [duty.key] + keys
      ensures duty.CloseEmptied? ==> grants == 0 && keys == [] && reattachers == 0 && emptied == None
    {
      TryGetSound(Work());
      duty := NoDuty;
      if grants > grantLimit {
        grants := grants - 1;
      } else if reattachers > 0 {
        reattachers := reattachers - 1;
        duty := SendGrant;
      } else if |keys| == 0 {
        grants := grants - 1;
        if grants == 0 {
          if emptied.Some? { duty := CloseEmptied(emptied.value); }
          emptied := None;
        }
      } else {
        assert keys == [keys[0]] + keys[1..];
        duty := Duty.Work(keys[0]);
        granted := granted + [keys[0]];
        keys := keys[1..];
      }
    }

    /** The critical section of handleReattach; whether the caller must wait for a grant. */
    method HandleReattach() returns (mustReceive: bool)
      requires Valid()
      modifies this`grants, this`reattachers
      ensures (Work(), mustReceive) == WorkStates.Reattach(old(Work()))
      ensures Valid() && (mustReceive <==> old(grants) >= grantLimit)
    {
      mustReceive := false;
      if grants < grantLimit {
        grants := grants + 1;
      } else {
        reattachers := reattachers + 1;
        mustReceive := true;
      }
    }
  }
}
