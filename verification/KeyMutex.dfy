/** Handle and KeyMutex as objects, and the retry loop by which a handler obtains a key. */
module KeyMutexes {
  import opened Names
  import opened Locks

  /** What a Handle asks of its map. */
  datatype Callback = Relinquish | Obtain

  /**
   * A Handle: two flags under its own mutex. `holding` is whether it has a work grant, and `calls`
   * the history of its callbacks into the map, which give the grant up and take it back.
   */
  class Handle {
    var detached: bool
    var terminated: bool
    ghost var holding: bool
    ghost var calls: seq<Callback>

    /** The flags tell whether there is a grant: it is gone once given up, or once the worker has it back. */
    ghost predicate Valid()
      reads this
    {
      holding <==> !detached && !terminated
    }

    constructor ()
      ensures Valid() && holding && !detached && !terminated && calls == []
    {
      detached, terminated, holding, calls := false, false, true, [];
    }

    /** None stands for the panic outside the handler's lifetime. */
    method Detach() returns (r: Option<bool>)
      requires Valid()
      modifies this
      ensures Valid() && terminated == old(terminated)
      ensures r == if old(terminated) then None else Some(!old(detached))
      ensures detached <==> (old(detached) || !terminated)
      ensures calls == old(calls) + if r == Some(true) then [Relinquish] else []
    {
      if terminated {
        return None;
      }
      if !detached {
        assert holding;
        holding, calls := false, calls + [Relinquish];
        detached := true;
        return Some(true);
      }
      return Some(false);
    }

    method Reattach() returns (ok: bool)
      requires Valid()
      modifies this
      ensures Valid() && terminated == old(terminated) && ok == !terminated
      ensures detached <==> (old(detached) && terminated)
      ensures calls == old(calls) + if ok && old(detached) then [Obtain] else []
    {
      if terminated {
        return false;
      }
      if detached {
        assert !holding;
        holding, calls := true, calls + [Obtain];
        detached := false;
      }
      return true;
    }

    /** The worker takes back the grant it lent, unless the handler gave it away. */
    method Terminate() returns (wasDetached: bool)
      requires Valid() && !terminated
      modifies this
      ensures Valid() && terminated && !holding && detached == old(detached) && calls == old(calls)
      ensures wasDetached <==> !old(holding)
    {
      terminated := true;
      holding := false;
      return detached;
    }
  }

  /** What the others did before a waiter's next look at the mutex, and how its wait then ended. */
  datatype Turn = Turn(mutexes: Mutexes, passed: bool)

  /** The key is free, or is passed on to the waiter. */
  predicate Gets(key: LockKey, turn: Turn) {
    key !in turn.mutexes.chans || turn.passed
  }

  predicate GetsFirst(key: LockKey, turns: seq<Turn>, i: int) {
    0 <= i < |turns| && Gets(key, turns[i]) && forall j | 0 <= j < i :: !Gets(key, turns[j])
  }

  function After(key: LockKey, turn: Turn): Mutexes {
    if key in turn.mutexes.chans then turn.mutexes else Taken(turn.mutexes, key)
  }

  datatype Unlocked = Panicked | Passed | Closed

  class KeyMutex {
    var chans: map<LockKey, Chan>
    var made: nat
    var closed: set<Chan>

    ghost function State(): Mutexes
      reads this
    {
      Mutexes(chans, made, closed)
    }

    constructor ()
      ensures State() == Mutexes(map[], 0, {}) && LocksOk(State())
    {
      chans, made, closed := map[], 0, {};
    }

    /** One pass through the critical section of lock: the key, or its holder's channel. */
    method TryLock(key: LockKey) returns (holder: Option<Chan>)
      requires LocksOk(State())
      modifies this`chans, this`made
      ensures LocksOk(State()) && key in chans
      ensures holder == if key in old(chans) then Some(old(chans)[key]) else None
      ensures State() == if holder.Some? then old(State()) else Taken(old(State()), key)
    {
      if key in chans {
        return Some(chans[key]);
      }
      chans := chans[key := made];
      made := made + 1;
      return None;
    }

    /** Unlock; `waiting` tells whether a goroutine is blocked on the key's channel. */
    method Unlock(key: LockKey, waiting: bool) returns (r: Unlocked)
      requires LocksOk(State())
      modifies this`chans, this`closed
      ensures LocksOk(State())
      ensures r == if key !in old(chans) then Panicked else if waiting then Passed else Closed
      ensures State() == if r == Closed then Forgotten(old(State()), key) else old(State())
    {
      if key !in chans {
        return Panicked;
      }
      if waiting {
        return Passed;
      }
      closed := closed + {chans[key]};
      chans := chans - {key};
      return Closed;
    }

    /** Other goroutines use the mutex. */
    method Interfere(m: Mutexes)
      modifies this
      ensures State() == m
    {
      chans, made, closed := m.chans, m.made, m.closed;
    }

    /**
     * LockDetached. Each turn is one trip round the loop: the others act, the caller looks, and if
     * it must wait its wait ends with the key passed to it or with the channel closed. `locked` is
     * false when the turns run out with the caller still waiting.
     */
    method LockDetached(h: Handle, key: LockKey, turns: seq<Turn>) returns (locked: bool)
      requires h.Valid() && !h.terminated
      requires LocksOk(State()) && forall turn <- turns :: LocksOk(turn.mutexes)
      modifies this, h
      ensures LocksOk(State()) && h.Valid() && !h.terminated
      ensures locked ==> key in chans
      // The handle is attached on return exactly if it was on entry.
      ensures locked ==> h.detached == old(h.detached) && h.holding == old(h.holding)
      // It gave up its grant at most once, and took it back just if it had.
      ensures locked ==> h.calls == old(h.calls) || h.calls == old(h.calls) + [Relinquish, Obtain]
      ensures locked && h.calls != old(h.calls) ==> !old(h.detached)
      // While it waits it holds no grant.
      ensures !locked && turns != [] ==> h.detached && !h.holding
      ensures !locked ==> h.calls == old(h.calls) + if old(h.detached) || turns == [] then [] else [Relinquish]
      // It gets the key exactly if it finds it free, or is passed it, in some turn; in the first such, it stops.
      ensures locked <==> exists i :: 0 <= i < |turns| && Gets(key, turns[i])
      ensures locked ==> exists i :: GetsFirst(key, turns, i) && State() == After(key, turns[i])
      // It detaches if it finds the key taken at first, unless it was detached.
      ensures locked && key in turns[0].mutexes.chans && !old(h.detached) ==>
        h.calls == old(h.calls) + [Relinquish, Obtain]
      // It returns at once, and undisturbed, if it finds the key free.
      ensures turns != [] && key !in turns[0].mutexes.chans ==> locked && h.calls == old(h.calls)
    {
      var detached := false;
      locked := false;
      var i := 0;
      while i < |turns| && !locked
        invariant i <= |turns| && LocksOk(State()) && h.Valid() && !h.terminated
        invariant i > 0 ==> key in chans
        invariant detached ==> !old(h.detached)
        invariant h.detached == (old(h.detached) || detached)
        invariant h.calls == old(h.calls) + if detached then [Relinquish] else []
        invariant i > 0 && !locked ==> h.detached
        invariant i > 0 && key !in turns[0].mutexes.chans ==> locked && !detached
        invariant i == 0 ==> !locked && !detached
        invariant forall j | 0 <= j < i :: Gets(key, turns[j]) <==> locked && j == i - 1
        invariant i > 0 ==> State() == After(key, turns[i - 1])
        invariant i > 0 && key in turns[0].mutexes.chans ==> detached || old(h.detached)
        decreases |turns| - i
      {
        Interfere(turns[i].mutexes);
        var holder := TryLock(key);
        if holder.None? {
          locked := true;
        } else {
          if !detached {
            var r := h.Detach();
            detached := r.value;
          }
          assert !h.holding;
          locked := turns[i].passed;
        }
        i := i + 1;
      }
      if locked && detached {
        var _ := h.Reattach();
      }
    }
  }
}
