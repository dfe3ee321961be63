# Round-robin queue dispatcher, modelled in Dafny

This project models the `RoundRobinQueue` queue driver of `biigle/laravel-round-robin-queue`.
The driver stores no jobs. It holds an ordered list of connection names and a default
queue name. Every `push`, `pushRaw` and `later` goes to the connection at the current
index. The current index is a counter kept in the application cache under
`round-robin-queue-<own connection name>`, reduced modulo the number of connections.
After the call returns, the counter moves to the next index. `size` adds up the sizes
that all connections report, and `pop` always returns null. Each of `size`, `push`,
`pushRaw` and `later` first checks that the driver does not list its own connection name
as a target; `pop` does not.

Files:

- `externals.dfy`, module `Externals`: the two collaborators the driver calls.
  `Cache` is a `map<string, nat>` with `get(key, default)` and `forever(key, value)`.
  `QueueManager` forwards a call to a named connection and records it in `sent`.
  A backend's reply and its reported size are supplied as functions of everything sent
  so far, since the backends are not part of this model.
- `round_robin_queue.dfy`, module `RoundRobin`: the arithmetic of the counter
  (`CurrentIndex`, `NextIndex`, `Advance`), the queue-name resolution, the size fold
  (`SumSizes`), the rotation trace (`Targets`) with its lemmas, and the class
  `RoundRobinQueue` whose methods read and write the shared `Cache` object.
- `round_robin_queue_test.dfy`, module `RoundRobinScenarios`: client methods that rely only
  on the method contracts and the function definitions. They hold the scenarios of
  `tests/RoundRobinQueueTest.php`: the rotation q1, q2, q1 with replies 1, 2, 3; sizes
  2 + 3 = 5 for the default queue and for a named queue; and `pop` returning null.
  They also hold scenarios that the test suite does not exercise: a driver that lists
  itself, an empty connection list, two instances sharing one rotation, a stale counter,
  and a run of five pushes. `PushAll` pushes a whole list of jobs in a loop and follows
  the rotation trace.

Edge cases, as the code handles them:

- The code does not reject an empty connection list when the driver is constructed.
  A mutating call then reduces the counter modulo zero, which throws in PHP 7 and later
  (`src/RoundRobinQueue.php:176`). The model returns `Failure(ModuloByZero)` before any
  backend call and before any cache write. `size` over an empty list returns 0, because
  `array_reduce` on an empty array yields its initial value.
- The code resolves the queue name with `$queue ?: $this->default`. Under PHP's
  truthiness, null, `""` and `"0"` all fall back to the default (`IsFalsy`).
- The code checks for a self-reference at the start of every call of `size`, `push`,
  `pushRaw` and `later`, not at construction; `pop` does no check. The model does the same.

## Model

| member | source | states |
|---|---|---|
| `RoundRobin.ResolveQueue` | src/RoundRobinQueue.php:147-150 | a null, `""` or `"0"` queue name resolves to the default; any other name is used as given |
| `RoundRobin.CacheKey` | src/RoundRobinQueue.php:159-162 | the key is the prefix, a `-`, then the connection name, and each part can be read back from the key |
| `RoundRobin.CacheKeyInjective` | src/RoundRobinQueue.php:159-162 | dispatchers with different names use different cache keys, so they never share a counter |
| `Externals.Lookup` | src/RoundRobinQueue.php:171 | a cache read yields the stored value, or 0 when the key is absent |
| `Externals.Cache.Get` | src/RoundRobinQueue.php:171 | a cache `get(key, default)` returns the stored value, or the default when the key is absent |
| `RoundRobin.CurrentIndex` | src/RoundRobinQueue.php:169-177 | the effective index is in `[0, n)` for any stored counter, and it is the counter itself when the counter is already in range |
| `RoundRobin.CurrentIndexPeriodic` | src/RoundRobinQueue.php:173-176 | a counter that is a whole round larger selects the same connection |
| `RoundRobin.NextIndex` | src/RoundRobinQueue.php:196-201 | the next index is in `[0, n)`: one past the current index, or 0 after the last connection |
| `RoundRobin.Advance` | src/RoundRobinQueue.php:208-214 | advancing adds or overwrites only this dispatcher's key, with the next index; every other cache entry is unchanged |
| `RoundRobin.AdvanceStep` | src/RoundRobinQueue.php:196-214 | after an advance, the current index is the old current index plus one, modulo `n` |
| `RoundRobin.Targets` | src/RoundRobinQueue.php:184-189 | the trace of `k` consecutive successful calls has exactly `k` entries |
| `RoundRobin.TargetsRotate` | src/RoundRobinQueue.php:184-214 | call `j` of a run of consecutive calls goes to connection `(current + j) mod n` |
| `RoundRobin.AdvanceTimes` | src/RoundRobinQueue.php:208-214 | the cache after `j` successful calls: with `j = 0` it is the cache as it was; otherwise it holds this dispatcher's key in addition to the keys it held before; every other dispatcher's entry survives the `j` calls unchanged |
| `RoundRobin.AdvanceTimesStep` | src/RoundRobinQueue.php:208-214 | one more call advances the cache left by `j` calls exactly once more |
| `RoundRobin.AdvanceTimesCounter` | src/RoundRobinQueue.php:169-214 | after `j >= 1` calls the stored counter is `(current + j) mod n`, where `current` is the effective index before the first call |
| `RoundRobin.TargetsAfter` | src/RoundRobinQueue.php:184-214 | call `j` of a run goes to the connection that is current after the first `j` calls have advanced the counter |
| `RoundRobin.TargetsFromFresh` | src/RoundRobinQueue.php:171 | with no counter in the cache, call `j` goes to `connections[j mod n]`; for `[q1, q2]` that is q1, q2, q1 |
| `RoundRobin.FirstRoundVisitsAll` | src/RoundRobinQueue.php:184-214 | with no counter in the cache, the first `n` calls go to the list positions 0 to `n - 1` in order, each position once: the trace of `n` calls is the connection list itself |
| `RoundRobin.RoundReturns` | src/RoundRobinQueue.php:200 | a call and the call `n` places later go to the same connection |
| `RoundRobin.SumSizes` | src/RoundRobinQueue.php:47-49 | the `array_reduce` fold: an empty list gives the initial value 0, and a single connection gives that connection's size |
| `RoundRobin.SumSizesAppend` | src/RoundRobinQueue.php:47-49 | the size fold over a concatenation is the sum of the folds over the parts |
| `RoundRobin.SumSizesPermutation` | src/RoundRobinQueue.php:47-49 | the order of the connections does not change the total size |
| `RoundRobin.SumSizesBound` | src/RoundRobinQueue.php:47-49 | every connection's reported size is at most the total |
| `RoundRobin.SumSizesZero` | src/RoundRobinQueue.php:47-49 | the total is zero exactly when every connection reports zero |
| `Externals.Cache.Forever` | src/RoundRobinQueue.php:211 | `forever` stores the value under the key, replaces any earlier value and leaves every other entry alone |
| `Externals.QueueManager.Send` | src/RoundRobinQueue.php:64-65 | the call goes to the named connection: it is appended to the dispatch history, and the result is that backend's reply |
| `RoundRobin.RoundRobinQueue.constructor` | src/RoundRobinQueue.php:30-34 | the driver keeps the connection list as given, and the default queue, which is `"default"` unless another is passed |
| `RoundRobin.RoundRobinQueue.Key` | src/RoundRobinQueue.php:159-162 | the counter's key is `round-robin-queue`, a `-`, then the own connection name |
| `RoundRobin.RoundRobinQueue.CheckForInfiniteRecursion` | src/RoundRobinQueue.php:221-226 | the guard fails, with the infinite-recursion error, exactly when the own name is in the list |
| `RoundRobin.RoundRobinQueue.Target` | src/RoundRobinQueue.php:62-64 | the next call fails with infinite recursion exactly when the own name is listed; it fails modulo zero exactly when the list is otherwise empty; otherwise it targets a listed connection other than the own name, the one at the current index |
| `RoundRobin.RoundRobinQueue.SuccessiveCalls` | src/RoundRobinQueue.php:62-66 | without self-reference and with a non-empty list, the call made on the cache that `j` successful calls left behind (`AdvanceTimes`) goes to entry `j` of the rotation trace, so `Push`, `PushRaw` and `Later` follow `Targets` |
| `RoundRobin.RoundRobinQueue.Forwarded` | src/RoundRobinQueue.php:62-68 | the effect of one mutating call: on failure nothing is sent and the cache is unchanged; on success exactly one dispatch is added, holding the call for the target, the result is that backend's reply, and the counter is advanced. The same lines recur at 81-87 and 101-107 |
| `Externals.QueueManager.Size` | src/RoundRobinQueue.php:48 | a backend's `size($queue)` is what that backend reports for the queue, given everything sent so far |
| `RoundRobin.RoundRobinQueue.ReportedSizes` | src/RoundRobinQueue.php:48 | each connection is asked for the size of the resolved queue |
| `RoundRobin.RoundRobinQueue.Size` | src/RoundRobinQueue.php:42-50 | fails exactly when the own name is listed; otherwise never fails, bounds every connection's size, and is zero exactly when all connections report zero; it reads no cache state |
| `RoundRobin.RoundRobinQueue.SizeIsSum` | src/RoundRobinQueue.php:42-50 | without self-reference, the size is the sum of what each connection reports for the resolved queue, in any order of the connections |
| `RoundRobin.RoundRobinQueue.Pop` | src/RoundRobinQueue.php:116-119 | pop always returns null |
| `RoundRobin.RoundRobinQueue.CurrentConnectionIndex` | src/RoundRobinQueue.php:169-177 | reads the counter from the cache and returns its effective index; on an empty list it fails modulo zero |
| `RoundRobin.RoundRobinQueue.CurrentConnection` | src/RoundRobinQueue.php:184-189 | returns the connection at the current index; on an empty list it fails modulo zero |
| `RoundRobin.RoundRobinQueue.NextConnectionIndex` | src/RoundRobinQueue.php:196-201 | re-reads the cache and returns the next index; on an empty list it fails modulo zero |
| `RoundRobin.RoundRobinQueue.AdvanceCurrentConnectionIndex` | src/RoundRobinQueue.php:208-214 | stores the next index under the own key forever and returns it; no other cache entry changes |
| `RoundRobin.RoundRobinQueue.Push` | src/RoundRobinQueue.php:60-69 | on self-reference or an empty list: fails, sends nothing and leaves the cache alone; otherwise sends the job, the data and the resolved queue unchanged to the current connection, returns that backend's reply unchanged, and advances the counter |
| `RoundRobin.RoundRobinQueue.PushRaw` | src/RoundRobinQueue.php:79-88 | as `Push`, forwarding the payload, the resolved queue and the options unchanged |
| `RoundRobin.RoundRobinQueue.Later` | src/RoundRobinQueue.php:99-108 | as `Push`, forwarding the delay, the job, the data and the resolved queue unchanged |
| `RoundRobinScenarios.PushAll` | src/RoundRobinQueue.php:60-69 | pushing a list of jobs one after another, push `m` reaches entry `m` of the rotation trace with the job unchanged, nothing sent earlier changes, and the counter has advanced once per job |
| `RoundRobinScenarios.PushAllFromFresh` | src/RoundRobinQueue.php:169-214 | from a cache without the counter, push `m` of a run goes to `connections[m mod n]` |

## Left out

- The Laravel container, `queueManager()` and `cacheManager()` (src/RoundRobinQueue.php:126-139) are foreign calls. They become the injected `QueueManager` and `Cache` objects. The case with no container, where both return null, is not modelled.
- The own connection name (`getConnectionName`) is assigned by Laravel's queue manager after construction. Here it is a constructor argument.
- Looking up an unknown connection name, and errors thrown by a backend's `push`, `pushRaw`, `later` or `size`, are not modelled. In the code, such an error propagates before the counter is advanced (lines 66, 85, 105). In the model, a backend always returns.
- Concurrent callers and re-entrant calls are not modelled. Every call runs alone, so re-reading the cache in `advanceCurrentConnectionIndex` (line 198) gives the index the call was sent to. The model re-reads too, and the frame of `QueueManager.Send` shows that the cache is untouched in between. In the code, a backend such as Laravel's `sync` driver runs the job inside `push`. A job that itself pushes to the same round-robin connection would move the counter before line 198 re-reads it. The frame of `QueueManager.Send` rules this out in the model.
- `in_array` compares loosely in PHP (line 223), so for example numeric strings compare as numbers. The model compares names exactly.
- Cache values are natural numbers. A negative or non-integer value written into the cache by something else, and PHP's truncating `%` on it, are not modelled.
- A job passed as an object, the contents of payloads and data, and the kind of delay (`DateTimeInterface`, `DateInterval` or int) are not modelled. They are opaque values that are passed through unchanged.
- `connections` is modelled as a list indexed from 0. A PHP array with other keys is not modelled.
- The registration glue in src/RoundRobinQueueServiceProvider.php and src/RoundRobinConnector.php is not modelled. The connector only passes `connections` and `queue` from the configuration to the constructor.
