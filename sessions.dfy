/** Several helper calls made one after another by the same owner. */
module Sessions {
  import opened Outcomes
  import opened LockKey
  import opened LockStore
  import opened DistributeLock

  /** One call of a run helper, with its arguments and what the store's
      other holders do while it waits. */
  datatype Call =
    | TryLockRunCall(lockName: Option<string>, runnable: Option<Work>)
    | TryLockRunWaitCall(lockName: Option<string>, runnable: Option<Work>, waitTime: int, contention: Contention)
    | TryLockRunWaitLeaseCall(lockName: Option<string>, runnable: Option<Work>, waitTime: int, leaseTime: int,
                              contention: Contention)
    | LockRunCall(lockName: Option<string>, runnable: Option<Work>, released: bool)
    | LockRunLeaseCall(lockName: Option<string>, runnable: Option<Work>, leaseTime: int, released: bool)

  /** The effect of one call, whichever helper it is. Every helper leaves the
      caller's own holds as they were and takes nothing from anyone except a
      key whose holder let go during the wait. */
  function Invoke(name: Option<string>, h: Holders, owner: Owner, c: Call): (e: Effect)
    ensures KeepsHolds(h, e.holders, owner)
    ensures e.events == [] ==> e.holders == h && e.outcome.Threw?
    ensures e.events != [] ==> c.lockName.Some? && c.runnable.Some?
    ensures c.lockName.Some? && RanWork(GetLockKey(name, c.lockName.value), owner) in e.events ==>
      exists i, j :: 0 <= i < j < |e.events| && e.events[i] == RanWork(GetLockKey(name, c.lockName.value), owner)
                                             && e.events[j] == Unlocked(GetLockKey(name, c.lockName.value), true)
  {
    var e :=
      match c
      case TryLockRunCall(lockName, runnable) =>
        TryLockRunSpec(name, h, lockName, runnable, owner)
      case TryLockRunWaitCall(lockName, runnable, waitTime, contention) =>
        TryLockRunWaitSpec(name, h, lockName, runnable, waitTime, contention, owner)
      case TryLockRunWaitLeaseCall(lockName, runnable, waitTime, leaseTime, contention) =>
        TryLockRunWaitLeaseSpec(name, h, lockName, runnable, waitTime, leaseTime, contention, owner)
      case LockRunCall(lockName, runnable, released) =>
        LockRunSpec(name, h, lockName, runnable, released, owner)
      case LockRunLeaseCall(lockName, runnable, leaseTime, released) =>
        LockRunLeaseSpec(name, h, lockName, runnable, leaseTime, released, owner);
    if c.lockName.Some? && e.events != [] then
      ScopedRunPrecedesUnlock(e.events, GetLockKey(name, c.lockName.value), owner);
      e
    else
      e
  }

  /** The store after `owner` makes `calls` in order, whatever each one
      returns or throws; a call that never returns ends the session. */
  function Session(name: Option<string>, h: Holders, owner: Owner, calls: seq<Call>): (after: Holders)
    decreases |calls|
  {
    if calls == [] then h
    else
      var e := Invoke(name, h, owner, calls[0]);
      if e.outcome.Hangs? then e.holders else Session(name, e.holders, owner, calls[1..])
  }

  /** No sequence of helper calls leaks a lock or steals one: afterwards the
      owner holds exactly the keys it held before, and every other entry is
      either unchanged or gone. */
  lemma {:induction false} SessionKeepsHolds(name: Option<string>, h: Holders, owner: Owner, calls: seq<Call>)
    ensures KeepsHolds(h, Session(name, h, owner, calls), owner)
    decreases |calls|
  {
    if calls != [] {
      var e := Invoke(name, h, owner, calls[0]);
      if !e.outcome.Hangs? {
        SessionKeepsHolds(name, e.holders, owner, calls[1..]);
      }
    }
  }

  /** In particular a key that was free before a session is free after it,
      so another owner's immediate attempt on it then succeeds. */
  lemma {:induction false} SessionLeavesFreeKeysFree(name: Option<string>, h: Holders, owner: Owner,
                                                     calls: seq<Call>, key: string, other: Owner)
    requires key !in h
    ensures key !in Session(name, h, owner, calls)
    ensures Acquire(Session(name, h, owner, calls), key, other, Immediate).result == Acquired
  {
    SessionKeepsHolds(name, h, owner, calls);
  }
}
