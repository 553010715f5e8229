/** The run-with-lock helpers of RedisDistributeLock: validate the arguments,
    derive the key, acquire it from the store, run the caller's work only
    when the acquisition succeeded, and release the key in a `finally` block
    only when it was acquired.

    Each helper has a specification function (`...Spec`) giving its outcome,
    the store afterwards and the events it causes, and a method of the class
    `RedisDistributeLock` that performs the same steps on a `Store` object. */
module DistributeLock {
  import opened Outcomes
  import opened LockKey
  import opened LockStore

  const WaitTimeMessage: string := "waitTime > 0"
  const LeaseTimeMessage: string := "leaseTime > 0"

  /** What a helper does to the store, in order. */
  datatype Event =
    | TriedLock(key: string, result: Acquisition)  // a tryLock or lock call and its result
    | RanWork(key: string, holder: Owner)          // runnable.run(), and who held the key meanwhile
    | Unlocked(key: string, released: bool)        // an unlock call and whether it released

  /** What one helper call produces: its outcome, the store afterwards and
      its events. */
  datatype Effect = Effect(outcome: Outcome, holders: Holders, events: seq<Event>)

  /** `after` is `before` less, at most, entries of other holders: every key
      `owner` held it still holds, and no key was gained or reassigned. */
  predicate KeepsHolds(before: Holders, after: Holders, owner: Owner)
  {
    && (forall k :: k in after ==> k in before && after[k] == before[k])
    && (forall k :: k in before && before[k] == owner ==> k in after)
  }

  /** The release discipline of one call on `key`: either the acquisition did
      not succeed and nothing else happened, or the key was acquired, the
      work ran once while `owner` held the key, and one unlock released it. */
  predicate Scoped(events: seq<Event>, key: string, owner: Owner)
  {
    || events == [TriedLock(key, Acquired), RanWork(key, owner), Unlocked(key, true)]
    || (|events| == 1 && events[0].TriedLock? && events[0].key == key && events[0].result != Acquired)
  }

  /** Under the release discipline, the work's run comes before the unlock
      that releases the key. */
  lemma ScopedRunPrecedesUnlock(events: seq<Event>, key: string, owner: Owner)
    requires Scoped(events, key, owner)
    ensures RanWork(key, owner) in events ==>
      exists i, j :: 0 <= i < j < |events| && events[i] == RanWork(key, owner) && events[j] == Unlocked(key, true)
  {
    if RanWork(key, owner) in events {
      assert events[1] == RanWork(key, owner);
      assert events[2] == Unlocked(key, true);
    }
  }

  /** One acquisition of `key` under `mode` followed by the release
      discipline: the store ends as it began, except that a key taken over
      from another holder during the wait is gone. */
  predicate AttemptContract(e: Effect, h: Holders, key: string, owner: Owner, mode: Mode)
  {
    var acquisition := Acquire(h, key, owner, mode).result;
    && Scoped(e.events, key, owner)
    && e.events[0] == TriedLock(key, acquisition)
    && e.holders == (if acquisition == Acquired then h - {key} else h)
    && KeepsHolds(h, e.holders, owner)
  }

  /** The contract of a tryLockRun that returns the acquisition's outcome:
      true after the work completed, false when the key was not acquired, the
      work's exception after the unlock, and a RuntimeException when the wait
      was interrupted. */
  predicate TryRunContract(e: Effect, h: Holders, key: string, owner: Owner, mode: Mode, work: Work)
  {
    var acquisition := Acquire(h, key, owner, mode).result;
    && AttemptContract(e, h, key, owner, mode)
    && (acquisition == Acquired ==> e.outcome == WorkOutcome(work, Returned(true)))
    && (acquisition == NotAcquired ==> e.outcome == Returned(false))
    && (acquisition == Interrupted ==> e.outcome == Threw(InterruptedWait))
  }

  /** The contract of a lockRun: the work runs once lock() has returned and
      its exception, if any, propagates after the unlock; a wait that never
      ends runs nothing and never returns. */
  predicate BlockingRunContract(e: Effect, h: Holders, key: string, owner: Owner, released: bool, work: Work)
  {
    var acquisition := Acquire(h, key, owner, Blocking(released)).result;
    && AttemptContract(e, h, key, owner, Blocking(released))
    && (acquisition == Acquired ==> e.outcome == WorkOutcome(work, Completed))
    && (acquisition == Blocked ==> e.outcome == Hangs)
  }

  /** The try/finally block shared by the tryLockRun overloads: `flag` is the
      acquisition, a false flag returns false, a true flag runs the work, an
      interrupted wait is rethrown, and the finally block unlocks only when
      the flag is true. */
  function TryScoped(h: Holders, key: string, owner: Owner, mode: Mode, work: Work): (e: Effect)
    requires !mode.Blocking?
    ensures TryRunContract(e, h, key, owner, mode, work)
  {
    var a := Acquire(h, key, owner, mode);
    if a.result == Acquired then
      var u := Release(a.holders, key, owner);
      Effect(WorkOutcome(work, Returned(true)), u.holders,
             [TriedLock(key, Acquired), RanWork(key, a.holders[key]), Unlocked(key, u.released)])
    else if a.result == Interrupted then
      Effect(Threw(InterruptedWait), a.holders, [TriedLock(key, Interrupted)])
    else
      Effect(Returned(false), a.holders, [TriedLock(key, a.result)])
  }

  /** The body of the lockRun overloads: lock() outside the try block, then
      the work, then an unconditional unlock in the finally block. */
  function LockScoped(h: Holders, key: string, owner: Owner, released: bool, work: Work): (e: Effect)
    ensures BlockingRunContract(e, h, key, owner, released, work)
  {
    var a := Acquire(h, key, owner, Blocking(released));
    if a.result == Blocked then
      Effect(Hangs, h, [TriedLock(key, Blocked)])
    else
      var u := Release(a.holders, key, owner);
      Effect(WorkOutcome(work, Completed), u.holders,
             [TriedLock(key, a.result), RanWork(key, a.holders[key]), Unlocked(key, u.released)])
  }

  /** tryLockRun(lockKey, runnable): one immediate attempt. */
  function TryLockRunSpec(name: Option<string>, h: Holders, lockName: Option<string>, runnable: Option<Work>,
                          owner: Owner): (e: Effect)
    ensures lockName.None? || runnable.None? ==> e == Effect(Threw(NullPointer), h, [])
    ensures lockName.Some? && runnable.Some? ==>
      var key := GetLockKey(name, lockName.value);
      && TryRunContract(e, h, key, owner, Immediate, runnable.value)
      && e.holders == h
      && (e.outcome == Returned(false) <==> key in h)
      && (e.outcome == Returned(true) <==> key !in h && runnable.value.Completes?)
  {
    if lockName.None? || runnable.None? then Effect(Threw(NullPointer), h, [])
    else TryScoped(h, GetLockKey(name, lockName.value), owner, Immediate, runnable.value)
  }

  /** tryLockRun(lockKey, runnable, waitTime, unit): a bounded wait. */
  function TryLockRunWaitSpec(name: Option<string>, h: Holders, lockName: Option<string>, runnable: Option<Work>,
                              waitTime: int, contention: Contention, owner: Owner): (e: Effect)
    ensures lockName.None? || runnable.None? ==> e == Effect(Threw(NullPointer), h, [])
    ensures lockName.Some? && runnable.Some? && waitTime <= 0 ==>
      e == Effect(Threw(IllegalArgument(WaitTimeMessage)), h, [])
    ensures lockName.Some? && runnable.Some? && waitTime > 0 ==>
      TryRunContract(e, h, GetLockKey(name, lockName.value), owner, Waiting(contention), runnable.value)
  {
    if lockName.None? || runnable.None? then Effect(Threw(NullPointer), h, [])
    else if waitTime <= 0 then Effect(Threw(IllegalArgument(WaitTimeMessage)), h, [])
    else TryScoped(h, GetLockKey(name, lockName.value), owner, Waiting(contention), runnable.value)
  }

  /** tryLockRun(lockKey, runnable, waitTime, leaseTime, unit) as written: the
      `return true` of its finally block replaces the `return false` of a
      failed acquisition and discards any exception, so every call that
      passes the argument checks returns true. */
  function TryLockRunWaitLeaseSpec(name: Option<string>, h: Holders, lockName: Option<string>,
                                   runnable: Option<Work>, waitTime: int, leaseTime: int,
                                   contention: Contention, owner: Owner): (e: Effect)
    ensures lockName.None? || runnable.None? ==> e == Effect(Threw(NullPointer), h, [])
    ensures lockName.Some? && runnable.Some? && waitTime <= 0 ==>
      e == Effect(Threw(IllegalArgument(WaitTimeMessage)), h, [])
    ensures lockName.Some? && runnable.Some? && waitTime > 0 && leaseTime <= 0 ==>
      e == Effect(Threw(IllegalArgument(LeaseTimeMessage)), h, [])
    ensures lockName.Some? && runnable.Some? && waitTime > 0 && leaseTime > 0 ==>
      && e.outcome == Returned(true)
      && AttemptContract(e, h, GetLockKey(name, lockName.value), owner, Waiting(contention))
  {
    if lockName.None? || runnable.None? then Effect(Threw(NullPointer), h, [])
    else if waitTime <= 0 then Effect(Threw(IllegalArgument(WaitTimeMessage)), h, [])
    else if leaseTime <= 0 then Effect(Threw(IllegalArgument(LeaseTimeMessage)), h, [])
    else
      var e := TryScoped(h, GetLockKey(name, lockName.value), owner, Waiting(contention), runnable.value);
      Effect(Returned(true), e.holders, e.events)
  }

  /** The five-argument tryLockRun as its documentation describes it: the
      acquisition's outcome is returned and the work's exception propagates. */
  function TryLockRunWaitLeaseCorrectedSpec(name: Option<string>, h: Holders, lockName: Option<string>,
                                            runnable: Option<Work>, waitTime: int, leaseTime: int,
                                            contention: Contention, owner: Owner): (e: Effect)
    ensures lockName.None? || runnable.None? ==> e == Effect(Threw(NullPointer), h, [])
    ensures lockName.Some? && runnable.Some? && waitTime <= 0 ==>
      e == Effect(Threw(IllegalArgument(WaitTimeMessage)), h, [])
    ensures lockName.Some? && runnable.Some? && waitTime > 0 && leaseTime <= 0 ==>
      e == Effect(Threw(IllegalArgument(LeaseTimeMessage)), h, [])
    ensures lockName.Some? && runnable.Some? && waitTime > 0 && leaseTime > 0 ==>
      TryRunContract(e, h, GetLockKey(name, lockName.value), owner, Waiting(contention), runnable.value)
  {
    if lockName.None? || runnable.None? then Effect(Threw(NullPointer), h, [])
    else if waitTime <= 0 then Effect(Threw(IllegalArgument(WaitTimeMessage)), h, [])
    else if leaseTime <= 0 then Effect(Threw(IllegalArgument(LeaseTimeMessage)), h, [])
    else TryScoped(h, GetLockKey(name, lockName.value), owner, Waiting(contention), runnable.value)
  }

  /** lockRun(lockName, runnable): waits with no bound. */
  function LockRunSpec(name: Option<string>, h: Holders, lockName: Option<string>, runnable: Option<Work>,
                       released: bool, owner: Owner): (e: Effect)
    ensures lockName.None? || runnable.None? ==> e == Effect(Threw(NullPointer), h, [])
    ensures lockName.Some? && runnable.Some? ==>
      BlockingRunContract(e, h, GetLockKey(name, lockName.value), owner, released, runnable.value)
  {
    if lockName.None? || runnable.None? then Effect(Threw(NullPointer), h, [])
    else LockScoped(h, GetLockKey(name, lockName.value), owner, released, runnable.value)
  }

  /** lockRun(lockName, runnable, leaseTime, unit): waits with no bound after
      checking the lease. */
  function LockRunLeaseSpec(name: Option<string>, h: Holders, lockName: Option<string>, runnable: Option<Work>,
                            leaseTime: int, released: bool, owner: Owner): (e: Effect)
    ensures lockName.None? || runnable.None? ==> e == Effect(Threw(NullPointer), h, [])
    ensures lockName.Some? && runnable.Some? && leaseTime <= 0 ==>
      e == Effect(Threw(IllegalArgument(LeaseTimeMessage)), h, [])
    ensures lockName.Some? && runnable.Some? && leaseTime > 0 ==>
      BlockingRunContract(e, h, GetLockKey(name, lockName.value), owner, released, runnable.value)
  {
    if lockName.None? || runnable.None? then Effect(Threw(NullPointer), h, [])
    else if leaseTime <= 0 then Effect(Threw(IllegalArgument(LeaseTimeMessage)), h, [])
    else LockScoped(h, GetLockKey(name, lockName.value), owner, released, runnable.value)
  }

  /** The return in the finally block hides a failed acquisition: with the
      key held by another owner for the whole wait, the written method runs
      nothing and still returns true, where the documented one returns
      false. */
  lemma ReturnInFinallyHidesFailure()
    ensures var h := map["app_lock1" := "T1"];
      && TryLockRunWaitLeaseSpec(Some("app"), h, Some("lock1"), Some(Completes), 1, 5, HeldThroughout, "T2")
         == Effect(Returned(true), h, [TriedLock("app_lock1", NotAcquired)])
      && TryLockRunWaitLeaseCorrectedSpec(Some("app"), h, Some("lock1"), Some(Completes), 1, 5, HeldThroughout, "T2")
         == Effect(Returned(false), h, [TriedLock("app_lock1", NotAcquired)])
  {
    assert GetLockKey(Some("app"), "lock1") == "app_lock1";
  }

  /** The return in the finally block swallows the work's exception, for
      every input where the work runs and throws. */
  lemma ReturnInFinallySwallowsWorkError(name: Option<string>, h: Holders, lockName: string,
                                         error: string, waitTime: int, leaseTime: int,
                                         contention: Contention, owner: Owner)
    requires waitTime > 0 && leaseTime > 0
    requires Acquire(h, GetLockKey(name, lockName), owner, Waiting(contention)).result == Acquired
    ensures TryLockRunWaitLeaseSpec(name, h, Some(lockName), Some(Throws(error)), waitTime, leaseTime, contention, owner).outcome
            == Returned(true)
    ensures TryLockRunWaitLeaseCorrectedSpec(name, h, Some(lockName), Some(Throws(error)), waitTime, leaseTime, contention, owner).outcome
            == Threw(WorkFailed(error))
  {
  }

  /** The written and the corrected five-argument tryLockRun touch the store
      identically and differ only in what they report. */
  lemma ReturnInFinallyOnlyChangesOutcome(name: Option<string>, h: Holders, lockName: Option<string>,
                                          runnable: Option<Work>, waitTime: int, leaseTime: int,
                                          contention: Contention, owner: Owner)
    ensures var written := TryLockRunWaitLeaseSpec(name, h, lockName, runnable, waitTime, leaseTime, contention, owner);
            var corrected := TryLockRunWaitLeaseCorrectedSpec(name, h, lockName, runnable, waitTime, leaseTime, contention, owner);
            && written.holders == corrected.holders
            && written.events == corrected.events
            && (written.outcome != corrected.outcome ==> written.outcome == Returned(true))
  {
  }

  /** The lock helper object: a store handle and the configured key name,
      plus a record of the events its calls have caused. */
  class RedisDistributeLock {
    const store: Store
    const name: Option<string>
    ghost var trace: seq<Event>

    constructor (store: Store, name: Option<string>)
      ensures this.store == store && this.name == name && trace == []
    {
      this.store := store;
      this.name := name;
      trace := [];
    }

    method TryLockRun(lockName: Option<string>, runnable: Option<Work>, owner: Owner) returns (r: Outcome)
      modifies this`trace, store
      ensures var e := TryLockRunSpec(name, old(store.holders), lockName, runnable, owner);
              r == e.outcome && store.holders == e.holders && trace == old(trace) + e.events
    {
      if lockName.None? || runnable.None? {
        return Threw(NullPointer);
      }
      var key := GetLockKey(name, lockName.value);
      var flag := false;
      // try
      flag := store.TryLock(key, owner);
      trace := trace + [TriedLock(key, if flag then Acquired else NotAcquired)];
      if !flag {
        r := Returned(false);
      } else {
        trace := trace + [RanWork(key, store.holders[key])];
        r := WorkOutcome(runnable.value, Returned(true));
      }
      // finally
      if flag {
        var released := store.Unlock(key, owner);
        trace := trace + [Unlocked(key, released)];
      }
    }

    method TryLockRunWait(lockName: Option<string>, runnable: Option<Work>, waitTime: int,
                          contention: Contention, owner: Owner) returns (r: Outcome)
      modifies this`trace, store
      ensures var e := TryLockRunWaitSpec(name, old(store.holders), lockName, runnable, waitTime, contention, owner);
              r == e.outcome && store.holders == e.holders && trace == old(trace) + e.events
    {
      if lockName.None? || runnable.None? {
        return Threw(NullPointer);
      }
      if waitTime <= 0 {
        return Threw(IllegalArgument(WaitTimeMessage));
      }
      var key := GetLockKey(name, lockName.value);
      var flag := false;
      // try
      var acquisition := store.TryLockWaiting(key, owner, contention);
      trace := trace + [TriedLock(key, acquisition)];
      if acquisition == Interrupted {
        // catch (InterruptedException e): rethrown as a RuntimeException
        r := Threw(InterruptedWait);
      } else {
        flag := acquisition == Acquired;
        if !flag {
          r := Returned(false);
        } else {
          trace := trace + [RanWork(key, store.holders[key])];
          r := WorkOutcome(runnable.value, Returned(true));
        }
      }
      // finally
      if flag {
        var released := store.Unlock(key, owner);
        trace := trace + [Unlocked(key, released)];
      }
    }

    method TryLockRunWaitLease(lockName: Option<string>, runnable: Option<Work>, waitTime: int, leaseTime: int,
                               contention: Contention, owner: Owner) returns (r: Outcome)
      modifies this`trace, store
      ensures var e := TryLockRunWaitLeaseSpec(name, old(store.holders), lockName, runnable, waitTime, leaseTime,
                                               contention, owner);
              r == e.outcome && store.holders == e.holders && trace == old(trace) + e.events
    {
      if lockName.None? || runnable.None? {
        return Threw(NullPointer);
      }
      if waitTime <= 0 {
        return Threw(IllegalArgument(WaitTimeMessage));
      }
      if leaseTime <= 0 {
        return Threw(IllegalArgument(LeaseTimeMessage));
      }
      var key := GetLockKey(name, lockName.value);
      var flag := false;
      // try
      var acquisition := store.TryLockWaiting(key, owner, contention);
      trace := trace + [TriedLock(key, acquisition)];
      if acquisition == Interrupted {
        r := Threw(InterruptedWait);
      } else {
        flag := acquisition == Acquired;
        if !flag {
          r := Returned(false);
        } else {
          trace := trace + [RanWork(key, store.holders[key])];
          r := WorkOutcome(runnable.value, Returned(true));
        }
      }
      // finally
      if flag {
        var released := store.Unlock(key, owner);
        trace := trace + [Unlocked(key, released)];
      }
      // the finally block's own return replaces the pending result or exception
      r := Returned(true);
    }

    method LockRun(lockName: Option<string>, runnable: Option<Work>, released: bool, owner: Owner)
      returns (r: Outcome)
      modifies this`trace, store
      ensures var e := LockRunSpec(name, old(store.holders), lockName, runnable, released, owner);
              r == e.outcome && store.holders == e.holders && trace == old(trace) + e.events
    {
      if lockName.None? || runnable.None? {
        return Threw(NullPointer);
      }
      var key := GetLockKey(name, lockName.value);
      var acquisition := store.Lock(key, owner, released);
      trace := trace + [TriedLock(key, acquisition)];
      if acquisition == Blocked {
        return Hangs;
      }
      // try
      trace := trace + [RanWork(key, store.holders[key])];
      r := WorkOutcome(runnable.value, Completed);
      // finally
      var unlocked := store.Unlock(key, owner);
      trace := trace + [Unlocked(key, unlocked)];
    }

    method LockRunLease(lockName: Option<string>, runnable: Option<Work>, leaseTime: int, released: bool,
                        owner: Owner) returns (r: Outcome)
      modifies this`trace, store
      ensures var e := LockRunLeaseSpec(name, old(store.holders), lockName, runnable, leaseTime, released, owner);
              r == e.outcome && store.holders == e.holders && trace == old(trace) + e.events
    {
      if lockName.None? || runnable.None? {
        return Threw(NullPointer);
      }
      if leaseTime <= 0 {
        return Threw(IllegalArgument(LeaseTimeMessage));
      }
      var key := GetLockKey(name, lockName.value);
      var acquisition := store.Lock(key, owner, released);
      trace := trace + [TriedLock(key, acquisition)];
      if acquisition == Blocked {
        return Hangs;
      }
      // try
      trace := trace + [RanWork(key, store.holders[key])];
      r := WorkOutcome(runnable.value, Completed);
      // finally
      var unlocked := store.Unlock(key, owner);
      trace := trace + [Unlocked(key, unlocked)];
    }
  }
}
