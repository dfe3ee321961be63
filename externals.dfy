/** The collaborators a round-robin queue talks to: the application cache that
    holds the rotation counter, and the queue manager that resolves connection
    names to backend queues. Neither is part of the dispatcher; they are modelled
    only as far as the dispatcher observes them. */
module Externals {

  /** A PHP value passed through the dispatcher without being looked at
      (job data, backend replies, option values). */
  datatype Value = Null | Int(i: int) | Str(s: string)

  /** The delay argument of `later`: seconds, a point in time or an interval. */
  datatype Delay = Seconds(n: int) | At(timestamp: int) | Interval(seconds: int)

  /** A mutating call as a backend queue receives it. */
  datatype Call =
    | PushCall(job: string, data: Value, queue: string)
    | PushRawCall(payload: string, queue: string, options: map<string, Value>)
    | LaterCall(delay: Delay, job: string, data: Value, queue: string)

  /** One forwarded call: the connection it went to and the call itself. */
  datatype Dispatch = Dispatch(connection: string, call: Call)

  /** The value a cache `get(key, default)` yields for the given entries. */
  function Lookup(entries: map<string, nat>, key: string, default: nat): (v: nat)
    ensures key in entries ==> v == entries[key]
    ensures key !in entries ==> v == default
  {
    if key in entries then entries[key] else default
  }

  /** The application cache, shared by every dispatcher of the application.
      Entries never expire. */
  class Cache {
    var entries: map<string, nat>

    constructor (initial: map<string, nat>)
      ensures entries == initial
    {
      entries := initial;
    }

    method Get(key: string, default: nat) returns (v: nat)
      ensures v == Lookup(entries, key, default)
    {
      v := if key in entries then entries[key] else default;
    }

    /** Stores `value` under `key` with no expiry, replacing any previous value. */
    method Forever(key: string, value: nat)
      modifies this
      ensures entries == old(entries)[key := value]
    {
      entries := entries[key := value];
    }
  }

  /** The queue manager with the backend connections behind it. What a backend
      answers to a call, and the size it reports, may depend on everything that
      has been sent to the backends before; `sent` records those calls in order. */
  class QueueManager {
    const reply: (seq<Dispatch>, Dispatch) -> Value
    const reportedSize: (seq<Dispatch>, string, string) -> nat
    var sent: seq<Dispatch>

    constructor (reply: (seq<Dispatch>, Dispatch) -> Value,
                 reportedSize: (seq<Dispatch>, string, string) -> nat)
      ensures this.reply == reply && this.reportedSize == reportedSize
      ensures sent == []
    {
      this.reply := reply;
      this.reportedSize := reportedSize;
      sent := [];
    }

    /** Forwards `call` to the backend named `connection` and returns its reply. */
    method Send(connection: string, call: Call) returns (r: Value)
      modifies this
      ensures sent == old(sent) + [Dispatch(connection, call)]
      ensures r == reply(old(sent), Dispatch(connection, call))
    {
      r := reply(sent, Dispatch(connection, call));
      sent := sent + [Dispatch(connection, call)];
    }

    /** The size the backend named `connection` reports for `queue` now. */
    function Size(connection: string, queue: string): (size: nat)
      reads this
      ensures size == reportedSize(sent, connection, queue)
    {
      reportedSize(sent, connection, queue)
    }
  }
}
