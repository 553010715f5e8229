# Run-with-lock helpers of a Redis distributed lock

This project models `RedisDistributeLock`, the class that wraps a Redisson lock
into five "run while holding the lock" helpers: `tryLockRun` with two, four and
five arguments, and `lockRun` with two and four arguments. Each helper:

1. rejects a null lock name or runnable (`NullPointerException`) and a
   non-positive `waitTime` / `leaseTime` (`IllegalArgumentException`);
2. derives the backend key as the configured name, `_`, and the lock name;
3. acquires the key from the lock store: once (`tryLock()`), with a bounded wait
   (`tryLock(waitTime, ...)`) or with an unbounded wait (`lock(...)`);
4. runs the caller's work only if the key was acquired;
5. unlocks in a `finally` block, and in the `tryLockRun` overloads only when the
   key was acquired.

Redisson is replaced by an abstract store (`LockStore.Store`): a map from each
held key to its holder. A key is acquired at once when it is free. When it is
held, what happens during a wait is a parameter of the call: the holder lets go
in time, holds on throughout, or the waiting thread is interrupted. The caller's
`Runnable` is a parameter too (`Work`): it completes or throws. Null Java
references are `Option.None`.

Files and modules:

- `outcomes.dfy` (`Outcomes`): nullable values, the work, the exceptions a
  helper lets escape, and how a call ends (`Returned(b)`, `Completed`,
  `Threw(f)`, `Hangs` for a wait that never ends).
- `lock_key.dfy` (`LockKey`): `getLockKey` and its inverse.
- `lock_store.dfy` (`LockStore`): the store's acquire and unlock, as functions
  and as the methods of the mutable `Store` class.
- `distribute_lock.dfy` (`DistributeLock`): one specification function per
  helper, the contracts they satisfy, and the class `RedisDistributeLock` whose
  methods perform the same steps on a `Store` and keep a ghost event trace
  (`TriedLock`, `RanWork`, `Unlocked`). Each method's postcondition equates its
  result, the store afterwards and the new trace events with the specification
  function.
- `sessions.dfy` (`Sessions`): any sequence of helper calls by one owner.

Properties one might expect of the key and of the helpers that the code does not have:

- The key is not one-to-one with (configured name, lock name) pairs. It is
  one-to-one in the lock name for a fixed configured name (`KeyInjective`). But
  `("a_b", "c")` and `("a", "b_c")` give the same key, and a null configured
  name is rendered as `"null"`.
- An empty lock name is accepted; only null is rejected.
- The five-argument `tryLockRun` returns `true` from its `finally` block. See
  Findings.

## Model

| member | source | states |
|---|---|---|
| `LockKey.GetLockKey` | src/main/java/com/gjy/project/lock/RedisDistributeLock.java:200-202 | the key is the configured name (or "null" for a null name), then `_`, then the lock name, and its length is the sum |
| `LockKey.KeyRoundTrip` | src/main/java/com/gjy/project/lock/RedisDistributeLock.java:200-202 | stripping the configured name and `_` from a derived key gives back the lock name |
| `LockKey.LockNameOfSound` | src/main/java/com/gjy/project/lock/RedisDistributeLock.java:200-202 | every key that strips to a lock name is exactly that lock name's key |
| `LockKey.KeyInjective` | src/main/java/com/gjy/project/lock/RedisDistributeLock.java:200-202 | under one configured name, two lock names give the same key if and only if they are equal |
| `LockKey.KeysCollideAcrossNames` | src/main/java/com/gjy/project/lock/RedisDistributeLock.java:200-202 | configured name "a_b" with lock "c" and configured name "a" with lock "b_c" give the same key |
| `LockKey.NullNameCollides` | src/main/java/com/gjy/project/lock/RedisDistributeLock.java:200-202 | a null configured name and the configured name "null" give the same key for every lock name |
| `LockStore.Acquire` | src/main/java/com/gjy/project/lock/RedisDistributeLock.java:42 | a free key is always acquired; an immediate attempt succeeds iff the key is free; success makes the caller the key's holder and changes nothing else; failure changes nothing; a key the caller already holds is never taken again; interruption happens only in a bounded wait, and only an unbounded wait can block forever |
| `LockStore.Release` | src/main/java/com/gjy/project/lock/RedisDistributeLock.java:52 | unlock releases iff the caller holds the key; it then removes only that key; otherwise the store is unchanged |
| `LockStore.Store.constructor` | src/main/java/com/gjy/project/lock/DistributeLockConfiguration.java:15-19 | the client connects to a store that may already hold keys: the new handle holds exactly the given initial entries |
| `LockStore.Store.TryLock` | src/main/java/com/gjy/project/lock/RedisDistributeLock.java:42 | the store's holders after tryLock() and the boolean it returns are those of `Acquire` in immediate mode |
| `LockStore.Store.TryLockWaiting` | src/main/java/com/gjy/project/lock/RedisDistributeLock.java:81 | the store's holders after a bounded-wait tryLock and its result are those of `Acquire` in waiting mode |
| `LockStore.Store.Lock` | src/main/java/com/gjy/project/lock/RedisDistributeLock.java:159 | the store's holders after lock() and its result are those of `Acquire` in blocking mode |
| `LockStore.Store.Unlock` | src/main/java/com/gjy/project/lock/RedisDistributeLock.java:52 | the store's holders after unlock() and whether it released are those of `Release` |
| `DistributeLock.ScopedRunPrecedesUnlock` | src/main/java/com/gjy/project/lock/RedisDistributeLock.java:49-54 | when the work runs, it runs before the unlock in the finally block, and that unlock releases the key |
| `DistributeLock.TryScoped` | src/main/java/com/gjy/project/lock/RedisDistributeLock.java:79-96 | the try/finally of the tryLockRun overloads: on success the work runs once while the caller holds the key, one unlock releases it, the store ends without the key, and the result is true or the work's exception; on failure it returns false, on interruption it throws RuntimeException, and in both cases the work does not run, unlock is not called and the store is unchanged |
| `DistributeLock.LockScoped` | src/main/java/com/gjy/project/lock/RedisDistributeLock.java:157-164 | the work runs only after lock() returned, exactly once, while the caller holds the key; one unlock releases it; the work's exception propagates after that; a lock() that never returns runs nothing and leaves the store alone |
| `DistributeLock.TryLockRunSpec` | src/main/java/com/gjy/project/lock/RedisDistributeLock.java:35-56 | null lockKey or runnable throws NullPointerException with no store access and the store unchanged; otherwise the store ends exactly as it began, the result is false iff the key was held, and true iff the key was free and the work completed |
| `DistributeLock.TryLockRunWaitSpec` | src/main/java/com/gjy/project/lock/RedisDistributeLock.java:71-97 | null arguments throw NullPointerException, and waitTime <= 0 throws IllegalArgumentException("waitTime > 0"), both before any store access; otherwise the try/finally contract holds with a bounded wait |
| `DistributeLock.TryLockRunWaitLeaseSpec` | src/main/java/com/gjy/project/lock/RedisDistributeLock.java:113-142 | as written: null arguments, then waitTime, then leaseTime, are rejected before any store access; past those checks the result is always true (failed acquisition, thrown work, interrupted wait), while unlock still happens exactly when the key was acquired |
| `DistributeLock.TryLockRunWaitLeaseCorrectedSpec` | src/main/java/com/gjy/project/lock/DistributeLock.java:21-28 | corrected five-argument tryLockRun: the same checks, then true only when the key was acquired and the work completed, false when it was not acquired, the work's exception propagated after unlock, RuntimeException on interruption |
| `DistributeLock.LockRunSpec` | src/main/java/com/gjy/project/lock/RedisDistributeLock.java:154-165 | null arguments throw NullPointerException with the store unchanged; otherwise the lockRun contract of `LockScoped` holds |
| `DistributeLock.LockRunLeaseSpec` | src/main/java/com/gjy/project/lock/RedisDistributeLock.java:182-197 | null arguments throw NullPointerException, and leaseTime <= 0 throws IllegalArgumentException("leaseTime > 0"), both before any store access; otherwise the lockRun contract holds |
| `DistributeLock.ReturnInFinallyHidesFailure` | src/main/java/com/gjy/project/lock/RedisDistributeLock.java:124-141 | with "app_lock1" held by T1 for the whole wait, T2's five-argument call as written runs nothing and returns true; the corrected one returns false |
| `DistributeLock.ReturnInFinallySwallowsWorkError` | src/main/java/com/gjy/project/lock/RedisDistributeLock.java:133-141 | whenever the key is acquired and the work throws, the written method returns true and the corrected one throws the work's exception |
| `DistributeLock.ReturnInFinallyOnlyChangesOutcome` | src/main/java/com/gjy/project/lock/RedisDistributeLock.java:136-141 | the written and corrected five-argument methods leave the same store and events, and differ only where the written one returns true |
| `DistributeLock.RedisDistributeLock.constructor` | src/main/java/com/gjy/project/lock/RedisDistributeLock.java:22-25 | the helper object keeps the given store and configured name, and its trace starts empty |
| `DistributeLock.RedisDistributeLock.TryLockRun` | src/main/java/com/gjy/project/lock/RedisDistributeLock.java:35-56 | result, store afterwards and new trace events are those of `TryLockRunSpec` |
| `DistributeLock.RedisDistributeLock.TryLockRunWait` | src/main/java/com/gjy/project/lock/RedisDistributeLock.java:71-97 | result, store afterwards and new trace events are those of `TryLockRunWaitSpec` |
| `DistributeLock.RedisDistributeLock.TryLockRunWaitLease` | src/main/java/com/gjy/project/lock/RedisDistributeLock.java:113-142 | result, store afterwards and new trace events are those of `TryLockRunWaitLeaseSpec` |
| `DistributeLock.RedisDistributeLock.LockRun` | src/main/java/com/gjy/project/lock/RedisDistributeLock.java:154-165 | result, store afterwards and new trace events are those of `LockRunSpec` |
| `DistributeLock.RedisDistributeLock.LockRunLease` | src/main/java/com/gjy/project/lock/RedisDistributeLock.java:182-197 | result, store afterwards and new trace events are those of `LockRunLeaseSpec` |
| `Sessions.Invoke` | src/main/java/com/gjy/project/lock/RedisDistributeLock.java:35-197 | every helper keeps the caller's own holds and gives it no new key; a call with no store access changes nothing and throws; a call with store access had non-null arguments; work that ran is always followed, later in the events, by a successful unlock |
| `Sessions.SessionKeepsHolds` | src/main/java/com/gjy/project/lock/RedisDistributeLock.java:35-197 | after any sequence of helper calls, however each returns or throws, the owner holds exactly the keys it held before, and every other entry is unchanged or gone |
| `Sessions.SessionLeavesFreeKeysFree` | src/main/java/com/gjy/project/lock/RedisDistributeLock.java:50-54 | a key free before a session is free after it, so another owner's immediate attempt then succeeds |

## Left out

- Redisson internals: lease expiry and timing, watchdog lease renewal,
  pub/sub-based waiting, and reentrancy counts. The store is not reentrant.
  So an immediate `tryLock()` on a key the caller already holds returns false,
  a bounded wait on it fails, and an unbounded wait on it never returns
  (`Hangs`). Redisson would let the holding thread in again.
- Lease expiry: because a lease never runs out in the model, every unlock after
  a successful acquisition releases. In Redisson, work that outlasts
  `leaseTime` loses the lock, and the `unlock()` at line 138 of
  `RedisDistributeLock.java` then throws `IllegalMonitorStateException` before
  the `return true` at line 140 is reached, so that exception escapes the
  five-argument `tryLockRun`. The same exception would escape `lockRun`'s
  `unlock()` at line 194. `TryLockRunWaitLeaseSpec` returning true on every
  path past the argument checks holds only in this lease-free model.
- Time: `waitTime` and `leaseTime` are integers that are only checked for being
  positive. `TimeUnit` is not modelled, so a null `unit` is not modelled either.
  What a wait runs into is a parameter of the call (`Contention`, or `released`
  for an unbounded wait).
- `LockStore.Store.Unlock`: Redisson's unlock throws `IllegalMonitorStateException`
  when the caller does not hold the key. Here it reports `false` instead. In
  every helper the unlock provably releases, so that exception cannot arise in
  the model.
- Store failures (an unreachable Redis) and exceptions thrown by `tryLock` or
  `lock` themselves are not modelled. Neither is cross-process mutual
  exclusion, which is the store's job. Thread interleavings appear only as the
  wait parameters.
- The work does not touch the store. A runnable that takes or releases locks
  itself is not modelled.
- Debug logging at lines 43-45, 82-84 and 127-129 of `RedisDistributeLock.java`
  has no behavioural effect and is left out.
- `DistributeLockProperties` is only the configured `name`. It is fixed when the
  helper object is built, whereas Java reads it through a mutable bean on
  every call.
- `DistributeLockConfiguration` (the Redis address and Spring wiring) and
  `TestController` (HTTP endpoints, sleeps, timing logs) are I/O and
  configuration.

## Findings

| source | as written | input that shows it | evidently intended | confidence | as-written member | corrected member |
|---|---|---|---|---|---|---|
| src/main/java/com/gjy/project/lock/RedisDistributeLock.java:140 | `return true` inside `finally` replaces the `return false` of a failed acquisition, and it also discards the work's exception and the RuntimeException of an interrupted wait | configured name "app", lock "lock1", key "app_lock1" held by T1 for the whole wait, caller T2, waitTime 1, leaseTime 5: returns true without running the work | return false when the key was not acquired, and propagate exceptions, as the interface documentation and the four-argument overload do | high (not executed) | `DistributeLock.ReturnInFinallyHidesFailure` | `DistributeLock.TryLockRunWaitLeaseCorrectedSpec` |
