/** The state of a KeyMutex: which keys are locked, and the channels their waiters block on. */
module Locks {
  import opened Names

  /** `made` counts the channels ever made; a channel is in `closed` once it has been closed. */
  datatype Mutexes = Mutexes(chans: map<LockKey, Chan>, made: nat, closed: set<Chan>)

  /** lock, finding the key free: a new channel for waiters to block on. */
  function Taken(m: Mutexes, key: LockKey): Mutexes {
    m.(chans := m.chans[key := m.made], made := m.made + 1)
  }

  /** Unlock, finding nobody blocked: the channel is closed and the key forgotten. */
  function Forgotten(m: Mutexes, key: LockKey): Mutexes
    requires key in m.chans
  {
    m.(chans := m.chans - {key}, closed := m.closed + {m.chans[key]})
  }

  /** Every channel in the map is open and belongs to one key. */
  ghost predicate LocksOk(m: Mutexes) {
    && (forall k <- m.chans :: m.chans[k] < m.made && m.chans[k] !in m.closed)
    && (forall k, l | k in m.chans && l in m.chans && m.chans[k] == m.chans[l] :: k == l)
    && (forall ch <- m.closed :: ch < m.made)
  }
}
