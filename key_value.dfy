/**
 * The Redis client the core talks to, reduced to what it uses: `get(key)` and
 * `set(key, value, ex=ttl)`. The store records every operation it receives, so that
 * the callers' contracts can say which reads and writes happened. Expiry is not
 * simulated; the `ex` argument of each write is recorded instead.
 */
module KeyValue {
  import opened Wrappers

  datatype Op<V> = GetOp(key: string) | SetOp(key: string, value: V, ex: Option<nat>)

  /** The error every operation raises while the server is unreachable. */
  const Unreachable := Error(ExternalError, "redis connection refused")

  class Store<V> {
    var entries: map<string, V>
    /** When false, the server is down and every operation raises. */
    var reachable: bool
    /** Every operation received, in order. */
    var ops: seq<Op<V>>

    constructor (initial: map<string, V>, up: bool)
      ensures entries == initial && reachable == up && ops == []
    {
      entries := initial;
      reachable := up;
      ops := [];
    }

    /** `await redis.get(key)`: the stored value, `None` when absent. */
    method Get(key: string) returns (r: Result<Option<V>>)
      modifies this`ops
      ensures ops == old(ops) + [GetOp(key)]
      ensures reachable ==> r == Ok(if key in entries then Some(entries[key]) else None)
      ensures !reachable ==> r == Err(Unreachable)
    {
      ops := ops + [GetOp(key)];
      if !reachable {
        return Err(Unreachable);
      }
      r := Ok(if key in entries then Some(entries[key]) else None);
    }

    /** `await redis.set(key, value, ex=ex)`: overwrites the entry. */
    method Set(key: string, value: V, ex: Option<nat>) returns (r: Result<()>)
      modifies this`ops, this`entries
      ensures ops == old(ops) + [SetOp(key, value, ex)]
      ensures reachable ==> r == Ok(()) && entries == old(entries)[key := value]
      ensures !reachable ==> r == Err(Unreachable) && entries == old(entries)
    {
      ops := ops + [SetOp(key, value, ex)];
      if !reachable {
        return Err(Unreachable);
      }
      entries := entries[key := value];
      r := Ok(());
    }
  }
}
