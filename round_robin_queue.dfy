/** A queue driver that stores no jobs itself: every push, raw push and delayed
    push goes to the next connection of a fixed list, in strict rotation, and
    size queries add up the sizes of all connections. The rotation counter lives
    in the application cache, so dispatchers sharing a name and a cache share
    one rotation. */
module RoundRobin {
  import opened Externals

  /** The two ways a dispatcher operation can throw before reaching a backend:
      the dispatcher lists itself as a target, or its connection list is empty
      and the counter is reduced modulo zero. */
  datatype Error = InfiniteRecursion | ModuloByZero

  datatype Option<T> = None | Some(value: T)

  datatype Outcome = Pass | Fail(error: Error)

  datatype Result<T> = Success(value: T) | Failure(error: Error) {
    predicate IsFailure() { Failure? }
    function PropagateFailure<U>(): Result<U> requires Failure? { Failure(error) }
    function Extract(): T requires Success? { value }
  }

  /** The data a job is pushed with when the caller gives none (PHP's `''`). */
  const EmptyData := Str("")

  /** The options of a raw push when the caller gives none. */
  const NoOptions: map<string, Value> := map[]

  /** Prefix of the cache key under which a dispatcher keeps its counter. */
  const CachePrefix := "round-robin-queue"

  // ---------------------------------------------------------------------------
  // Queue-name resolution

  /** PHP truthiness of an optional queue name: null, "" and "0" are falsy. */
  predicate IsFalsy(queue: Option<string>)
  {
    queue.None? || queue.value == "" || queue.value == "0"
  }

  /** The queue name a call uses: the given one when it is truthy, the
      dispatcher's default otherwise. */
  function ResolveQueue(queue: Option<string>, default: string): (r: string)
    ensures IsFalsy(queue) ==> r == default
    ensures !IsFalsy(queue) ==> r == queue.value
  {
    if IsFalsy(queue) then default else queue.value
  }

  // ---------------------------------------------------------------------------
  // The counter in the cache

  /** The cache key `prefix-name`. */
  function CacheKey(prefix: string, name: string): (key: string)
    ensures |key| == |prefix| + 1 + |name|
    ensures key[..|prefix|] == prefix && key[|prefix|] == '-'
    ensures key[|prefix| + 1..] == name
  {
    prefix + "-" + name
  }

  /** Dispatchers registered under different names never share a counter. */
  lemma CacheKeyInjective(prefix: string, a: string, b: string)
    requires CacheKey(prefix, a) == CacheKey(prefix, b)
    ensures a == b
  {
  }

  /** The index used for the current call: the stored counter reduced modulo the
      number of connections, so a counter left over from a longer list still
      selects a valid connection. */
  function CurrentIndex(stored: nat, n: nat): (i: nat)
    requires n > 0
    ensures i < n
    ensures stored < n ==> i == stored
  {
    stored % n
  }

  /** Adding a whole round to the stored counter selects the same connection. */
  lemma CurrentIndexPeriodic(stored: nat, n: nat)
    requires n > 0
    ensures CurrentIndex(stored + n, n) == CurrentIndex(stored, n)
  {
    DivModUnique(stored + n, n, stored / n + 1, stored % n);
  }

  /** The index stored after a call: one past the current index, wrapping to 0
      after the last connection. */
  function NextIndex(stored: nat, n: nat): (j: nat)
    requires n > 0
    ensures j < n
    ensures CurrentIndex(stored, n) < n - 1 ==> j == CurrentIndex(stored, n) + 1
    ensures CurrentIndex(stored, n) == n - 1 ==> j == 0
  {
    (CurrentIndex(stored, n) + 1) % n
  }

  /** The cache entries after the counter under `key` has been advanced for a
      list of `n` connections; every other entry stays as it was. */
  function Advance(entries: map<string, nat>, key: string, n: nat): (r: map<string, nat>)
    requires n > 0
    ensures r.Keys == entries.Keys + {key}
    ensures r[key] == NextIndex(Lookup(entries, key, 0), n)
    ensures forall k :: k in entries && k != key ==> r[k] == entries[k]
  {
    entries[key := NextIndex(Lookup(entries, key, 0), n)]
  }

  /** Advancing moves the current index one step around the list. */
  lemma AdvanceStep(entries: map<string, nat>, key: string, n: nat)
    requires n > 0
    ensures CurrentIndex(Lookup(Advance(entries, key, n), key, 0), n)
         == (CurrentIndex(Lookup(entries, key, 0), n) + 1) % n
  {
  }

  /** The connections that `k` consecutive successful mutating calls go to,
      starting from the cache entries `entries`. */
  function Targets(connections: seq<string>, entries: map<string, nat>, key: string, k: nat): (t: seq<string>)
    requires |connections| > 0
    ensures |t| == k
    decreases k
  {
    if k == 0 then []
    else [connections[CurrentIndex(Lookup(entries, key, 0), |connections|)]]
         + Targets(connections, Advance(entries, key, |connections|), key, k - 1)
  }

  lemma MulAtLeast(a: int, n: int)
    requires a >= 1 && n > 0
    ensures a * n >= n
  {
  }

  /** Euclidean division has one remainder: `q * n + r` with `0 <= r < n`
      leaves `r` modulo `n`. */
  lemma DivModUnique(x: int, n: int, q: int, r: int)
    requires n > 0 && 0 <= r < n && x == q * n + r
    ensures x % n == r
  {
    var q', r' := x / n, x % n;
    assert x == q' * n + r';
    if q > q' {
      assert (q - q') * n == r' - r;
      MulAtLeast(q - q', n);
    } else if q < q' {
      assert (q' - q) * n == r - r';
      MulAtLeast(q' - q, n);
    }
  }

  lemma ModShift(a: nat, b: nat, n: nat)
    requires n > 0
    ensures (a % n + b) % n == (a + b) % n
  {
    var r, q := (a % n + b) % n, (a % n + b) / n;
    assert a % n + b == q * n + r;
    assert a == (a / n) * n + a % n;
    assert a + b == (q + a / n) * n + r;
    DivModUnique(a + b, n, q + a / n, r);
  }

  /** The first call of a run goes to the current connection. */
  lemma TargetsHead(connections: seq<string>, entries: map<string, nat>, key: string, k: nat)
    requires |connections| > 0 && 0 < k
    ensures Targets(connections, entries, key, k)[0]
         == connections[CurrentIndex(Lookup(entries, key, 0), |connections|)]
  {
  }

  /** The calls after the first form the run that starts from the advanced cache. */
  lemma TargetsTail(connections: seq<string>, entries: map<string, nat>, key: string, k: nat, j: nat)
    requires |connections| > 0 && 0 < j < k
    ensures Targets(connections, entries, key, k)[j]
         == Targets(connections, Advance(entries, key, |connections|), key, k - 1)[j - 1]
  {
  }

  /** One step forward, then `j - 1` more, is `j` steps forward. */
  lemma StepThenShift(c: nat, j: nat, n: nat)
    requires n > 0 && 0 < j
    ensures ((c + 1) % n + (j - 1)) % n == (c + j) % n
  {
    ModShift(c + 1, j - 1, n);
  }

  /** Call `j` of a run of consecutive calls goes to the connection `j` places
      after the current one, modulo the length of the list. */
  lemma {:induction false} TargetsRotate(connections: seq<string>, entries: map<string, nat>, key: string, k: nat, j: nat)
    requires |connections| > 0 && j < k
    ensures Targets(connections, entries, key, k)[j]
         == connections[(CurrentIndex(Lookup(entries, key, 0), |connections|) + j) % |connections|]
    decreases k
  {
    var n := |connections|;
    var c := CurrentIndex(Lookup(entries, key, 0), n);
    if j == 0 {
      TargetsHead(connections, entries, key, k);
      DivModUnique(c, n, 0, c);
    } else {
      var e := Advance(entries, key, n);
      var c' := CurrentIndex(Lookup(e, key, 0), n);
      TargetsTail(connections, entries, key, k, j);
      TargetsRotate(connections, e, key, k - 1, j - 1);
      AdvanceStep(entries, key, n);
      StepThenShift(c, j, n);
      assert (c' + (j - 1)) % n == (c + j) % n;
    }
  }

  /** The cache entries after `j` successful mutating calls starting from `entries`. */
  function AdvanceTimes(entries: map<string, nat>, key: string, n: nat, j: nat): (r: map<string, nat>)
    requires n > 0
    ensures j == 0 ==> r == entries
    ensures r.Keys == if j == 0 then entries.Keys else entries.Keys + {key}
    ensures forall k :: k in entries && k != key ==> r[k] == entries[k]
    decreases j
  {
    if j == 0 then entries else AdvanceTimes(Advance(entries, key, n), key, n, j - 1)
  }

  /** One more call advances the cache once more. */
  lemma {:induction false} AdvanceTimesStep(entries: map<string, nat>, key: string, n: nat, j: nat)
    requires n > 0
    ensures AdvanceTimes(entries, key, n, j + 1) == Advance(AdvanceTimes(entries, key, n, j), key, n)
    decreases j
  {
    if j > 0 {
      AdvanceTimesStep(Advance(entries, key, n), key, n, j - 1);
    }
  }

  /** After `j >= 1` calls the stored counter is the starting index plus `j`,
      modulo the number of connections. */
  lemma {:induction false} AdvanceTimesCounter(entries: map<string, nat>, key: string, n: nat, j: nat)
    requires n > 0 && j >= 1
    ensures Lookup(AdvanceTimes(entries, key, n, j), key, 0)
         == (CurrentIndex(Lookup(entries, key, 0), n) + j) % n
    decreases j
  {
    var c := CurrentIndex(Lookup(entries, key, 0), n);
    var e := Advance(entries, key, n);
    AdvanceStep(entries, key, n);
    var next := Lookup(e, key, 0);
    assert next < n;
    assert CurrentIndex(next, n) == next;
    assert AdvanceTimes(entries, key, n, j) == AdvanceTimes(e, key, n, j - 1);
    if j > 1 {
      AdvanceTimesCounter(e, key, n, j - 1);
      StepThenShift(c, j, n);
    }
  }

  /** Call `j` of a run goes to the connection that is current once the first
      `j` calls have advanced the counter. */
  lemma {:induction false} TargetsAfter(connections: seq<string>, entries: map<string, nat>, key: string, k: nat, j: nat)
    requires |connections| > 0 && j < k
    ensures Targets(connections, entries, key, k)[j]
         == connections[CurrentIndex(Lookup(AdvanceTimes(entries, key, |connections|, j), key, 0), |connections|)]
    decreases j
  {
    if j == 0 {
      TargetsHead(connections, entries, key, k);
    } else {
      TargetsTail(connections, entries, key, k, j);
      TargetsAfter(connections, Advance(entries, key, |connections|), key, k - 1, j - 1);
    }
  }

  /** With no counter in the cache yet, call `j` goes to connection `j mod n`. */
  lemma TargetsFromFresh(connections: seq<string>, entries: map<string, nat>, key: string, k: nat, j: nat)
    requires |connections| > 0 && key !in entries && j < k
    ensures Targets(connections, entries, key, k)[j] == connections[j % |connections|]
  {
    TargetsRotate(connections, entries, key, k, j);
  }

  /** With no counter in the cache yet, the first round of calls visits every
      connection exactly once, in list order. */
  lemma FirstRoundVisitsAll(connections: seq<string>, entries: map<string, nat>, key: string)
    requires |connections| > 0 && key !in entries
    ensures Targets(connections, entries, key, |connections|) == connections
  {
    var t := Targets(connections, entries, key, |connections|);
    forall j | 0 <= j < |connections|
      ensures t[j] == connections[j]
    {
      TargetsFromFresh(connections, entries, key, |connections|, j);
      DivModUnique(j, |connections|, 0, j);
    }
  }

  /** A call and the call one whole round later go to the same connection. */
  lemma RoundReturns(connections: seq<string>, entries: map<string, nat>, key: string, k: nat, j: nat)
    requires |connections| > 0 && j + |connections| < k
    ensures Targets(connections, entries, key, k)[j + |connections|]
         == Targets(connections, entries, key, k)[j]
  {
    var n := |connections|;
    var c := CurrentIndex(Lookup(entries, key, 0), n);
    TargetsRotate(connections, entries, key, k, j + n);
    TargetsRotate(connections, entries, key, k, j);
    CurrentIndexPeriodic(c + j, n);
    assert c + (j + n) == (c + j) + n;
  }

  // ---------------------------------------------------------------------------
  // Size aggregation

  /** The total of the sizes of `connections`, folded from left to right as
      `array_reduce` does. */
  function SumSizes(connections: seq<string>, sizeOf: string -> nat): (total: nat)
    ensures connections == [] ==> total == 0
    ensures |connections| == 1 ==> total == sizeOf(connections[0])
    decreases |connections|
  {
    if connections == [] then 0
    else SumSizes(connections[..|connections| - 1], sizeOf) + sizeOf(connections[|connections| - 1])
  }

  /** The fold splits over concatenation. */
  lemma {:induction false} SumSizesAppend(a: seq<string>, b: seq<string>, sizeOf: string -> nat)
    ensures SumSizes(a + b, sizeOf) == SumSizes(a, sizeOf) + SumSizes(b, sizeOf)
    decreases |b|
  {
    if b == [] {
      assert a + b == a;
    } else {
      var b' := b[..|b| - 1];
      SumSizesAppend(a, b', sizeOf);
      assert (a + b)[..|a + b| - 1] == a + b';
    }
  }

  /** Taking one connection out of the list takes its size out of the total. */
  lemma SumSizesRemove(b: seq<string>, i: nat, sizeOf: string -> nat)
    requires i < |b|
    ensures SumSizes(b, sizeOf) == SumSizes(b[..i] + b[i + 1..], sizeOf) + sizeOf(b[i])
  {
    var b1, x, b2 := b[..i], b[i], b[i + 1..];
    assert b == (b1 + [x]) + b2;
    SumSizesAppend(b1 + [x], b2, sizeOf);
    SumSizesAppend(b1, [x], sizeOf);
    SumSizesAppend(b1, b2, sizeOf);
    assert [x][..0] == [];
  }

  lemma MultisetRemove(a: seq<string>, b: seq<string>, i: nat)
    requires a != [] && i < |b| && multiset(a) == multiset(b) && b[i] == a[|a| - 1]
    ensures multiset(a[..|a| - 1]) == multiset(b[..i] + b[i + 1..])
  {
    var x := a[|a| - 1];
    assert a == a[..|a| - 1] + [x];
    assert b == b[..i] + [x] + b[i + 1..];
    calc {
      multiset(a[..|a| - 1]);
      multiset(a) - multiset{x};
      multiset(b) - multiset{x};
      multiset(b[..i]) + multiset(b[i + 1..]);
      multiset(b[..i] + b[i + 1..]);
    }
  }

  /** The order of the connections does not affect the total. */
  lemma {:induction false} SumSizesPermutation(a: seq<string>, b: seq<string>, sizeOf: string -> nat)
    requires multiset(a) == multiset(b)
    ensures SumSizes(a, sizeOf) == SumSizes(b, sizeOf)
    decreases |a|
  {
    if a == [] {
      assert |b| == |multiset(b)| == 0;
    } else {
      var x := a[|a| - 1];
      assert x in multiset(b) by {
        assert x in multiset(a);
      }
      var i :| 0 <= i < |b| && b[i] == x;
      MultisetRemove(a, b, i);
      SumSizesPermutation(a[..|a| - 1], b[..i] + b[i + 1..], sizeOf);
      SumSizesRemove(b, i, sizeOf);
    }
  }

  /** Every connection's size is part of the total. */
  lemma {:induction false} SumSizesBound(connections: seq<string>, sizeOf: string -> nat, i: nat)
    requires i < |connections|
    ensures sizeOf(connections[i]) <= SumSizes(connections, sizeOf)
    decreases |connections|
  {
    if i < |connections| - 1 {
      SumSizesBound(connections[..|connections| - 1], sizeOf, i);
    }
  }

  /** The total is zero exactly when every connection reports zero. */
  lemma {:induction false} SumSizesZero(connections: seq<string>, sizeOf: string -> nat)
    ensures SumSizes(connections, sizeOf) == 0
        <==> forall i :: 0 <= i < |connections| ==> sizeOf(connections[i]) == 0
    decreases |connections|
  {
    if connections != [] {
      var init := connections[..|connections| - 1];
      SumSizesZero(init, sizeOf);
      assert forall i :: 0 <= i < |init| ==> init[i] == connections[i];
    }
  }

  // ---------------------------------------------------------------------------
  // The dispatcher

  class RoundRobinQueue {
    /** The connections jobs are pushed to, in rotation order. */
    const connections: seq<string>
    /** The queue used when a call names none. */
    const defaultQueue: string
    /** The name this dispatcher is registered under. */
    const name: string
    const cache: Cache
    const manager: QueueManager

    constructor (connections: seq<string>, name: string, cache: Cache, manager: QueueManager,
                 defaultQueue: string := "default")
      ensures this.connections == connections && this.defaultQueue == defaultQueue
      ensures this.name == name && this.cache == cache && this.manager == manager
    {
      this.connections := connections;
      this.defaultQueue := defaultQueue;
      this.name := name;
      this.cache := cache;
      this.manager := manager;
    }

    /** The cache key of this dispatcher's counter. */
    function Key(): (key: string)
      ensures |key| == |CachePrefix| + 1 + |name|
      ensures key[..|CachePrefix|] == CachePrefix && key[|CachePrefix|] == '-'
      ensures key[|CachePrefix| + 1..] == name
    {
      CacheKey(CachePrefix, name)
    }

    /** Fails exactly when the dispatcher lists itself as a target. */
    function CheckForInfiniteRecursion(): (o: Outcome)
      ensures o.Fail? <==> name in connections
      ensures o.Fail? ==> o.error == InfiniteRecursion
    {
      if name in connections then Fail(InfiniteRecursion) else Pass
    }

    /** Where the next mutating call goes when the cache holds `entries`:
        the connection at the current index, or the error the call throws. */
    function Target(entries: map<string, nat>): (r: Result<string>)
      ensures r == Failure(InfiniteRecursion) <==> name in connections
      ensures r == Failure(ModuloByZero) <==> name !in connections && |connections| == 0
      ensures r.Success? ==> r.value in connections && r.value != name
      ensures r.Success? ==>
        r.value == connections[CurrentIndex(Lookup(entries, Key(), 0), |connections|)]
    {
      if name in connections then Failure(InfiniteRecursion)
      else if |connections| == 0 then Failure(ModuloByZero)
      else Success(connections[CurrentIndex(Lookup(entries, Key(), 0), |connections|)])
    }

    /** After `j` successful mutating calls from the cache entries `entries`,
        the next call goes to entry `j` of the rotation trace. */
    lemma SuccessiveCalls(entries: map<string, nat>, k: nat, j: nat)
      requires name !in connections && |connections| > 0 && j < k
      ensures Target(AdvanceTimes(entries, Key(), |connections|, j))
           == Success(Targets(connections, entries, Key(), k)[j])
    {
      TargetsAfter(connections, entries, Key(), k, j);
    }

    /** The effect of one mutating call, given the cache entries and the
        dispatch history before it: on failure nothing was sent and the cache is
        as it was; otherwise `call` went to the target, its reply is the result,
        and the counter was advanced. */
    ghost predicate Forwarded(call: Call, r: Result<Value>,
                              entries0: map<string, nat>, sent0: seq<Dispatch>)
      reads cache, manager
      ensures Forwarded(call, r, entries0, sent0) ==>
        |manager.sent| == |sent0| + (if r.Success? then 1 else 0)
    {
      match Target(entries0)
      case Failure(e) =>
        r == Failure(e) && cache.entries == entries0 && manager.sent == sent0
      case Success(c) =>
        var d := Dispatch(c, call);
        && r == Success(manager.reply(sent0, d))
        && manager.sent == sent0 + [d]
        && cache.entries == Advance(entries0, Key(), |connections|)
    }

    /** What each connection reports, right now, as the size of `queue`. */
    function ReportedSizes(queue: string): (sizeOf: string -> nat)
      reads manager
      ensures forall c :: sizeOf(c) == manager.Size(c, queue)
    {
      var sent, reportedSize := manager.sent, manager.reportedSize;
      (c: string) => reportedSize(sent, c, queue)
    }

    /** The total size of `queue` (or of the default queue) over all
        connections. It never reads or writes the counter. */
    function Size(queue: Option<string> := None): (r: Result<nat>)
      reads manager
      ensures r == Failure(InfiniteRecursion) <==> name in connections
      ensures r.Failure? ==> r.error == InfiniteRecursion
      ensures r.Success? ==>
        var q := ResolveQueue(queue, defaultQueue);
        forall i :: 0 <= i < |connections| ==> manager.Size(connections[i], q) <= r.value
      ensures r.Success? ==>
        (r.value == 0 <==> forall i :: 0 <= i < |connections| ==>
           manager.Size(connections[i], ResolveQueue(queue, defaultQueue)) == 0)
    {
      if name in connections then Failure(InfiniteRecursion)
      else
        var q := ResolveQueue(queue, defaultQueue);
        var size := ReportedSizes(q);
        var total := SumSizes(connections, size);
        assert forall i :: 0 <= i < |connections| ==> size(connections[i]) <= total by {
          forall i | 0 <= i < |connections| ensures size(connections[i]) <= total {
            SumSizesBound(connections, size, i);
          }
        }
        SumSizesZero(connections, size);
        Success(total)
    }

    /** The total is the sum of what every connection reports for the resolved
        queue name, whatever order the connections are listed in. */
    lemma SizeIsSum(queue: Option<string>, reordered: seq<string>)
      requires name !in connections && multiset(reordered) == multiset(connections)
      ensures Size(queue) == Success(SumSizes(reordered, ReportedSizes(ResolveQueue(queue, defaultQueue))))
    {
      SumSizesPermutation(connections, reordered, ReportedSizes(ResolveQueue(queue, defaultQueue)));
    }

    /** `pop` never yields a job: this queue is not meant to be read from. */
    function Pop(queue: Option<string> := None): (r: Value)
      ensures r == Null
    {
      Null
    }

    /** The current index, read from the cache; throws modulo by zero on an
        empty connection list. */
    method CurrentConnectionIndex() returns (r: Result<nat>)
      ensures |connections| == 0 ==> r == Failure(ModuloByZero)
      ensures |connections| > 0 ==>
        r == Success(CurrentIndex(Lookup(cache.entries, Key(), 0), |connections|))
    {
      var current := cache.Get(Key(), 0);
      if |connections| == 0 {
        return Failure(ModuloByZero);
      }
      return Success(current % |connections|);
    }

    /** The connection the current call goes to. */
    method CurrentConnection() returns (r: Result<string>)
      ensures |connections| == 0 ==> r == Failure(ModuloByZero)
      ensures |connections| > 0 ==>
        r == Success(connections[CurrentIndex(Lookup(cache.entries, Key(), 0), |connections|)])
    {
      var index :- CurrentConnectionIndex();
      return Success(connections[index]);
    }

    /** The index the counter moves to, computed from a fresh read of the cache. */
    method NextConnectionIndex() returns (r: Result<nat>)
      ensures |connections| == 0 ==> r == Failure(ModuloByZero)
      ensures |connections| > 0 ==>
        r == Success(NextIndex(Lookup(cache.entries, Key(), 0), |connections|))
    {
      var current :- CurrentConnectionIndex();
      return Success((current + 1) % |connections|);
    }

    /** Stores the next index under this dispatcher's key and returns it. */
    method AdvanceCurrentConnectionIndex() returns (r: Result<nat>)
      modifies cache
      ensures |connections| == 0 ==> r == Failure(ModuloByZero) && cache.entries == old(cache.entries)
      ensures |connections| > 0 ==>
        && r == Success(NextIndex(Lookup(old(cache.entries), Key(), 0), |connections|))
        && cache.entries == Advance(old(cache.entries), Key(), |connections|)
    {
      var next :- NextConnectionIndex();
      cache.Forever(Key(), next);
      return Success(next);
    }

    /** Pushes a job to the current connection and advances the rotation. */
    method Push(job: string, data: Value := EmptyData, queue: Option<string> := None) returns (r: Result<Value>)
      modifies cache, manager
      ensures Forwarded(PushCall(job, data, ResolveQueue(queue, defaultQueue)), r,
                        old(cache.entries), old(manager.sent))
    {
      var guard := CheckForInfiniteRecursion();
      if guard.Fail? {
        return Failure(guard.error);
      }
      var q := ResolveQueue(queue, defaultQueue);
      var connection :- CurrentConnection();
      var result := manager.Send(connection, PushCall(job, data, q));
      var _ := AdvanceCurrentConnectionIndex();
      return Success(result);
    }

    /** Pushes a raw payload to the current connection and advances the rotation. */
    method PushRaw(payload: string, queue: Option<string> := None, options: map<string, Value> := NoOptions)
      returns (r: Result<Value>)
      modifies cache, manager
      ensures Forwarded(PushRawCall(payload, ResolveQueue(queue, defaultQueue), options), r,
                        old(cache.entries), old(manager.sent))
    {
      var guard := CheckForInfiniteRecursion();
      if guard.Fail? {
        return Failure(guard.error);
      }
      var q := ResolveQueue(queue, defaultQueue);
      var connection :- CurrentConnection();
      var result := manager.Send(connection, PushRawCall(payload, q, options));
      var _ := AdvanceCurrentConnectionIndex();
      return Success(result);
    }

    /** Pushes a delayed job to the current connection and advances the rotation. */
    method Later(delay: Delay, job: string, data: Value := EmptyData, queue: Option<string> := None)
      returns (r: Result<Value>)
      modifies cache, manager
      ensures Forwarded(LaterCall(delay, job, data, ResolveQueue(queue, defaultQueue)), r,
                        old(cache.entries), old(manager.sent))
    {
      var guard := CheckForInfiniteRecursion();
      if guard.Fail? {
        return Failure(guard.error);
      }
      var q := ResolveQueue(queue, defaultQueue);
      var connection :- CurrentConnection();
      var result := manager.Send(connection, LaterCall(delay, job, data, q));
      var _ := AdvanceCurrentConnectionIndex();
      return Success(result);
    }
  }
}
