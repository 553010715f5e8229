/** The lock store the helpers acquire keys from and release them to: a map
    from each held key to its holder. It stands for Redisson's `RLock`
    operations `tryLock`, `lock` and `unlock` on the backend. */
module LockStore {

  /** The holder of a key (Redisson identifies it by client id and thread). */
  type Owner = string

  /** Which keys are held, and by whom. */
  type Holders = map<string, Owner>

  /** What happens, during a bounded wait, to a key that is already held. */
  datatype Contention = ReleasedInTime | HeldThroughout | InterruptedWhileWaiting

  /** How an acquisition waits. */
  datatype Mode =
    | Immediate                        // tryLock(): one attempt
    | Waiting(contention: Contention)  // tryLock(waitTime, ...): a bounded wait
    | Blocking(released: bool)         // lock(...): waits until the holder lets go, if it ever does

  datatype Acquisition = Acquired | NotAcquired | Interrupted | Blocked

  /** The result of an acquisition and the store afterwards. */
  datatype Attempt = Attempt(result: Acquisition, holders: Holders)

  /** The result of an unlock and the store afterwards. */
  datatype Unlocking = Unlocking(released: bool, holders: Holders)

  /** One acquisition of `key` by `owner`. A free key is taken at once. A held
      key is taken only when its holder, another owner, releases it during
      the wait; the store is not reentrant, so a key the caller itself holds
      is never released to it. */
  function Acquire(h: Holders, key: string, owner: Owner, mode: Mode): (a: Attempt)
    ensures key !in h ==> a.result == Acquired
    ensures mode == Immediate ==> (a.result == Acquired <==> key !in h)
    ensures a.result == Acquired ==> a.holders == h[key := owner]
    ensures a.result != Acquired ==> a.holders == h
    ensures a.result == Acquired && key in h ==> h[key] != owner
    ensures a.result == Interrupted ==> mode == Waiting(InterruptedWhileWaiting)
    ensures a.result == Blocked <==> mode.Blocking? && a.result != Acquired
  {
    if key !in h then Attempt(Acquired, h[key := owner])
    else
      match mode
      case Immediate => Attempt(NotAcquired, h)
      case Waiting(contention) =>
        if contention == InterruptedWhileWaiting then Attempt(Interrupted, h)
        else if contention == ReleasedInTime && h[key] != owner then Attempt(Acquired, h[key := owner])
        else Attempt(NotAcquired, h)
      case Blocking(released) =>
        if released && h[key] != owner then Attempt(Acquired, h[key := owner])
        else Attempt(Blocked, h)
  }

  /** Unlock of `key` by `owner`: removes the entry only when `owner` holds
      it, and never touches another holder's entry. */
  function Release(h: Holders, key: string, owner: Owner): (u: Unlocking)
    ensures u.released <==> key in h && h[key] == owner
    ensures u.released ==> key !in u.holders && forall k :: k in h && k != key ==> k in u.holders && u.holders[k] == h[k]
    ensures u.released ==> forall k :: k in u.holders ==> k in h
    ensures !u.released ==> u.holders == h
  {
    if key in h && h[key] == owner then Unlocking(true, h - {key}) else Unlocking(false, h)
  }

  /** The store as a mutable object: the calls the helpers make on a lock. */
  class Store {
    var holders: Holders

    /** A handle on a store that may already hold keys of other clients. */
    constructor (initial: Holders)
      ensures holders == initial
    {
      holders := initial;
    }

    /** tryLock(): one attempt, no waiting. */
    method TryLock(key: string, owner: Owner) returns (acquired: bool)
      modifies this
      ensures Attempt(if acquired then Acquired else NotAcquired, holders) == Acquire(old(holders), key, owner, Immediate)
    {
      acquired := key !in holders;
      if acquired {
        holders := holders[key := owner];
      }
    }

    /** tryLock(waitTime, unit) and tryLock(waitTime, leaseTime, unit): a
        bounded wait that ends in success, failure or an interruption. */
    method TryLockWaiting(key: string, owner: Owner, contention: Contention) returns (result: Acquisition)
      modifies this
      ensures Attempt(result, holders) == Acquire(old(holders), key, owner, Waiting(contention))
    {
      if key !in holders {
        holders := holders[key := owner];
        result := Acquired;
      } else if contention == InterruptedWhileWaiting {
        result := Interrupted;
      } else if contention == ReleasedInTime && holders[key] != owner {
        holders := holders[key := owner];
        result := Acquired;
      } else {
        result := NotAcquired;
      }
    }

    /** lock() and lock(leaseTime, unit): waits with no bound. `Blocked`
        stands for a wait that never ends. */
    method Lock(key: string, owner: Owner, released: bool) returns (result: Acquisition)
      modifies this
      ensures Attempt(result, holders) == Acquire(old(holders), key, owner, Blocking(released))
    {
      if key !in holders || (released && holders[key] != owner) {
        holders := holders[key := owner];
        result := Acquired;
      } else {
        result := Blocked;
      }
    }

    /** unlock(): releases the key when `owner` holds it. */
    method Unlock(key: string, owner: Owner) returns (released: bool)
      modifies this
      ensures Unlocking(released, holders) == Release(old(holders), key, owner)
    {
      released := key in holders && holders[key] == owner;
      if released {
        holders := holders - {key};
      }
    }
  }
}
