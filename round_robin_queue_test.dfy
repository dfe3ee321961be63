/** Client code over a dispatcher "rr" with the connections "q1" and "q2" and the
    default queue "default". It relies only on the method contracts and the
    function definitions. It covers the package's own test scenarios (rotation,
    sizes, pop), plus scenarios that test suite does not exercise: self-listing,
    an empty list, a shared rotation, a stale counter and a longer run. */
module RoundRobinScenarios {
  import opened Externals
  import opened RoundRobin

  /** A backend that answers the n-th call sent to any backend with n. */
  function Counting(sent: seq<Dispatch>, d: Dispatch): (r: Value)
  {
    Int(|sent| + 1)
  }

  /** q1 holds 2 jobs and every other connection 3 jobs on `queue`, none elsewhere. */
  function SizesOn(queue: string): (sizes: (seq<Dispatch>, string, string) -> nat)
  {
    (sent: seq<Dispatch>, c: string, q: string) => if q != queue then 0 else if c == "q1" then 2 else 3
  }

  method Setup(initial: map<string, nat>, sizes: (seq<Dispatch>, string, string) -> nat)
    returns (rr: RoundRobinQueue)
    ensures fresh(rr) && fresh(rr.cache) && fresh(rr.manager)
    ensures rr.connections == ["q1", "q2"] && rr.defaultQueue == "default" && rr.name == "rr"
    ensures rr.cache.entries == initial && rr.manager.sent == []
    ensures rr.manager.reply == Counting && rr.manager.reportedSize == sizes
  {
    var cache := new Cache(initial);
    var manager := new QueueManager(Counting, sizes);
    rr := new RoundRobinQueue(["q1", "q2"], "rr", cache, manager);
  }

  /** The rotation of "rr" over q1 and q2 from an empty cache: q1, q2, q1. */
  lemma RotationOfTwo(rr: RoundRobinQueue)
    requires rr.connections == ["q1", "q2"] && rr.name == "rr"
    ensures rr.Target(map[]) == Success("q1")
    ensures Advance(map[], rr.Key(), 2) == map[rr.Key() := 1]
    ensures rr.Target(map[rr.Key() := 1]) == Success("q2")
    ensures Advance(map[rr.Key() := 1], rr.Key(), 2) == map[rr.Key() := 0]
    ensures rr.Target(map[rr.Key() := 0]) == Success("q1")
  {
  }

  method SizeSumsDefaultQueue()
  {
    var rr := Setup(map[], SizesOn("default"));
    rr.SizeIsSum(None, ["q1", "q2"]);
    assert ["q1", "q2"][..1] == ["q1"];
    assert rr.Size() == Success(5);
    assert rr.Size(Some("myqueue")) == Success(0);
  }

  method SizeForwardsQueueName()
  {
    var rr := Setup(map[], SizesOn("myqueue"));
    rr.SizeIsSum(Some("myqueue"), ["q1", "q2"]);
    assert ["q1", "q2"][..1] == ["q1"];
    assert rr.Size(Some("myqueue")) == Success(5);
    assert rr.Size() == Success(0);
  }

  method PushRotates()
  {
    var rr := Setup(map[], SizesOn("default"));
    var key := rr.Key();
    RotationOfTwo(rr);
    var r1 := rr.Push("job1");
    assert rr.cache.entries == map[key := 1];
    var r2 := rr.Push("job2");
    assert rr.cache.entries == map[key := 0];
    var r3 := rr.Push("job3");
    assert r1 == Success(Int(1)) && r2 == Success(Int(2)) && r3 == Success(Int(3));
    assert rr.manager.sent == [
      Dispatch("q1", PushCall("job1", Str(""), "default")),
      Dispatch("q2", PushCall("job2", Str(""), "default")),
      Dispatch("q1", PushCall("job3", Str(""), "default"))];
  }

  method PushRawRotates()
  {
    var rr := Setup(map[], SizesOn("default"));
    var key := rr.Key();
    RotationOfTwo(rr);
    var r1 := rr.PushRaw("job1");
    assert rr.cache.entries == map[key := 1];
    var r2 := rr.PushRaw("job2");
    assert rr.cache.entries == map[key := 0];
    var r3 := rr.PushRaw("job3");
    assert r1 == Success(Int(1)) && r2 == Success(Int(2)) && r3 == Success(Int(3));
    assert rr.manager.sent == [
      Dispatch("q1", PushRawCall("job1", "default", map[])),
      Dispatch("q2", PushRawCall("job2", "default", map[])),
      Dispatch("q1", PushRawCall("job3", "default", map[]))];
  }

  method LaterRotates()
  {
    var rr := Setup(map[], SizesOn("default"));
    var key := rr.Key();
    RotationOfTwo(rr);
    var r1 := rr.Later(Seconds(1), "job1");
    assert rr.cache.entries == map[key := 1];
    var r2 := rr.Later(Seconds(1), "job2");
    assert rr.cache.entries == map[key := 0];
    var r3 := rr.Later(Seconds(1), "job3");
    assert r1 == Success(Int(1)) && r2 == Success(Int(2)) && r3 == Success(Int(3));
    assert rr.manager.sent == [
      Dispatch("q1", LaterCall(Seconds(1), "job1", Str(""), "default")),
      Dispatch("q2", LaterCall(Seconds(1), "job2", Str(""), "default")),
      Dispatch("q1", LaterCall(Seconds(1), "job3", Str(""), "default"))];
  }

  /** A push whose target `c` is known in advance: it goes to `c`, returns
      that backend's reply, and moves the counter on. */
  method PushTo(rr: RoundRobinQueue, job: string, ghost c: string) returns (r: Result<Value>)
    requires rr.Target(rr.cache.entries) == Success(c)
    modifies rr.cache, rr.manager
    ensures r == Success(rr.manager.reply(old(rr.manager.sent), Dispatch(c, PushCall(job, EmptyData, rr.defaultQueue))))
    ensures rr.manager.sent == old(rr.manager.sent) + [Dispatch(c, PushCall(job, EmptyData, rr.defaultQueue))]
    ensures rr.cache.entries == Advance(old(rr.cache.entries), rr.Key(), |rr.connections|)
  {
    r := rr.Push(job);
  }

  /** Pushes `jobs` one after another through `rr`: push `m` goes to entry `m`
      of the rotation trace that starts from the cache as it was, and the
      counter ends up advanced once per job. */
  method PushAll(rr: RoundRobinQueue, jobs: seq<string>)
    requires rr.name !in rr.connections && |rr.connections| > 0
    modifies rr.cache, rr.manager
    ensures rr.cache.entries == AdvanceTimes(old(rr.cache.entries), rr.Key(), |rr.connections|, |jobs|)
    ensures |rr.manager.sent| == |old(rr.manager.sent)| + |jobs|
    ensures old(rr.manager.sent) <= rr.manager.sent
    ensures forall m :: 0 <= m < |jobs| ==>
      rr.manager.sent[|old(rr.manager.sent)| + m]
        == Dispatch(Targets(rr.connections, old(rr.cache.entries), rr.Key(), |jobs|)[m],
                    PushCall(jobs[m], EmptyData, rr.defaultQueue))
  {
    ghost var e0, s0 := rr.cache.entries, rr.manager.sent;
    ghost var trace := Targets(rr.connections, e0, rr.Key(), |jobs|);
    ghost var pushed: seq<Dispatch> := [];
    var n := |rr.connections|;
    var i := 0;
    while i < |jobs|
      invariant 0 <= i <= |jobs|
      invariant rr.cache.entries == AdvanceTimes(e0, rr.Key(), n, i)
      invariant rr.manager.sent == s0 + pushed
      invariant |pushed| == i
      invariant forall m :: 0 <= m < i ==>
        pushed[m] == Dispatch(trace[m], PushCall(jobs[m], EmptyData, rr.defaultQueue))
    {
      rr.SuccessiveCalls(e0, |jobs|, i);
      AdvanceTimesStep(e0, rr.Key(), n, i);
      var _ := PushTo(rr, jobs[i], trace[i]);
      pushed := pushed + [Dispatch(trace[i], PushCall(jobs[i], EmptyData, rr.defaultQueue))];
      i := i + 1;
    }
  }

  /** From a cache without the counter, push `m` of a run goes to connection
      `m mod n`. */
  method PushAllFromFresh(rr: RoundRobinQueue, jobs: seq<string>)
    requires rr.name !in rr.connections && |rr.connections| > 0 && rr.Key() !in rr.cache.entries
    modifies rr.cache, rr.manager
    ensures |rr.manager.sent| == |old(rr.manager.sent)| + |jobs|
    ensures forall m :: 0 <= m < |jobs| ==>
      rr.manager.sent[|old(rr.manager.sent)| + m].connection == rr.connections[m % |rr.connections|]
  {
    ghost var e0, s0 := rr.cache.entries, rr.manager.sent;
    PushAll(rr, jobs);
    forall m | 0 <= m < |jobs|
      ensures rr.manager.sent[|s0| + m].connection == rr.connections[m % |rr.connections|]
    {
      TargetsFromFresh(rr.connections, e0, rr.Key(), |jobs|, m);
    }
  }

  /** Five pushes over q1 and q2 from an empty cache alternate q1, q2, q1, q2, q1. */
  method PushManyAlternates()
  {
    var rr := Setup(map[], SizesOn("default"));
    PushAllFromFresh(rr, ["a", "b", "c", "d", "e"]);
    assert rr.manager.sent[3].connection == rr.connections[3 % 2] == "q2";
    assert rr.manager.sent[4].connection == rr.connections[4 % 2] == "q1";
  }

  method PopIsNull()
  {
    var rr := Setup(map[], SizesOn("default"));
    assert rr.Pop() == Null;
  }

  /** A dispatcher that lists itself fails every call and leaves the cache and
      the backends untouched. */
  method SelfTargetFails()
  {
    var cache := new Cache(map[]);
    var manager := new QueueManager(Counting, SizesOn("default"));
    var rr := new RoundRobinQueue(["q1", "rr"], "rr", cache, manager);
    assert rr.Size() == Failure(InfiniteRecursion);
    var r1 := rr.Push("job1");
    var r2 := rr.PushRaw("job1");
    var r3 := rr.Later(Seconds(1), "job1");
    assert r1 == r2 == r3 == Failure(InfiniteRecursion);
    assert cache.entries == map[] && manager.sent == [];
  }

  /** An empty connection list makes a mutating call throw modulo by zero, while
      its size is 0. */
  method NoConnections()
  {
    var cache := new Cache(map[]);
    var manager := new QueueManager(Counting, SizesOn("default"));
    var rr := new RoundRobinQueue([], "rr", cache, manager);
    assert rr.Size() == Success(0);
    var r := rr.Push("job1");
    assert r == Failure(ModuloByZero);
    assert cache.entries == map[] && manager.sent == [];
  }

  /** Two dispatcher instances with the same name and cache share one rotation. */
  method SharedRotation()
  {
    var cache := new Cache(map[]);
    var manager := new QueueManager(Counting, SizesOn("default"));
    var a := new RoundRobinQueue(["q1", "q2"], "rr", cache, manager);
    var b := new RoundRobinQueue(["q1", "q2"], "rr", cache, manager);
    RotationOfTwo(a);
    var _ := a.Push("job1");
    var _ := b.Push("job2");
    assert manager.sent == [
      Dispatch("q1", PushCall("job1", Str(""), "default")),
      Dispatch("q2", PushCall("job2", Str(""), "default"))];
  }

  /** A counter left over from a longer connection list still selects a valid
      connection and is brought back into range. */
  method StaleCounter()
  {
    var rr := Setup(map[CacheKey(CachePrefix, "rr") := 5], SizesOn("default"));
    var key := rr.Key();
    var r := rr.Push("job1");
    assert rr.manager.sent == [Dispatch("q2", PushCall("job1", Str(""), "default"))];
    assert rr.cache.entries == map[key := 0];
  }
}
