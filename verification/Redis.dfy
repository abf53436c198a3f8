/** The Redis store: scope locks, cache versions and cached results, under string keys. */
module Redis {
  import opened Common
  import opened Ordering
  import opened Keys
  import opened Protocol
  import Calls

  /** The value of INCR: an absent key counts as zero. */
  function Next(versions: map<string, nat>, key: string): nat {
    if key in versions then versions[key] + 1 else 1
  }

  /** GetVersion: GET, and on nil an unconditional SET of version 1. */
  function Versioned(versions: map<string, nat>, slug: string, ok: bool, init: Reply): (map<string, nat>, Result<nat>) {
    var key := VersionKey(slug);
    if !ok then (versions, Failure(Internal))
    else if key in versions then (versions, Success(versions[key]))
    else (if init.Applied() then versions[key := 1] else versions, if init.Ok? then Success(1) else Failure(Internal))
  }

  /** The calls of GetVersion: GET, and SET on nil. */
  function VersionCalls(versions: map<string, nat>, slug: string, ok: bool, init: Reply): seq<Calls.Remote> {
    [Calls.AskVersion(slug, ok)]
    + if ok && VersionKey(slug) !in versions then [Calls.InitVersion(slug, init)] else []
  }

  class Store {
    const trace: Calls.Trace
    var locks: map<string, Lock>
    var versions: map<string, nat>
    var entries: map<string, seq<ResultRow>>
    var now: nat

    constructor (trace: Calls.Trace)
      ensures this.trace == trace && locks == map[] && versions == map[] && entries == map[]
    {
      this.trace, locks, versions, entries := trace, map[], map[], map[];
    }

    /** SET NX with a TTL. */
    method TryAcquire(key: string, token: Token, ttl: nat, reply: Reply) returns (r: Result<bool>)
      modifies this`locks, trace
      ensures trace.calls == old(trace.calls) + [Calls.SetLock(key, token, reply)]
      ensures locks ==
        if key !in old(locks) && reply.Applied() then old(locks)[key := Lock(token, now + ttl)] else old(locks)
      ensures r == if reply.Ok? then Success(key !in old(locks)) else Failure(Internal)
    {
      trace.calls := trace.calls + [Calls.SetLock(key, token, reply)];
      var free := key !in locks;
      if free && reply.Applied() {
        locks := locks[key := Lock(token, now + ttl)];
      }
      r := if reply.Ok? then Success(free) else Failure(Internal);
    }

    /** The release script: compare the token, then delete. */
    method Release(key: string, token: Token, reply: Reply) returns (ok: bool)
      modifies this`locks, trace
      ensures trace.calls == old(trace.calls) + [Calls.FreeLock(key, token, reply)]
      ensures ok == reply.Ok?
      ensures reply.Applied() && key in old(locks) && old(locks)[key].token == token ==> locks == old(locks) - {key}
      ensures !reply.Applied() || key !in old(locks) || old(locks)[key].token != token ==> locks == old(locks)
    {
      trace.calls := trace.calls + [Calls.FreeLock(key, token, reply)];
      if reply.Applied() {
        if key in locks && locks[key].token == token {
          locks := locks - {key};
        }
      }
      ok := reply.Ok?;
    }

    method Get(key: string, ok: bool) returns (r: Result<Option<seq<ResultRow>>>)
      modifies trace
      ensures trace.calls == old(trace.calls) + [Calls.GetEntry(key, ok)]
      ensures r == if !ok then Failure(Internal) else Success(if key in entries then Some(entries[key]) else None)
    {
      trace.calls := trace.calls + [Calls.GetEntry(key, ok)];
      if !ok { return Failure(Internal); }
      if key !in entries { return Success(None); }
      return Success(Some(entries[key]));
    }

    method Set(key: string, rows: seq<ResultRow>, reply: Reply) returns (ok: bool)
      modifies this`entries, trace
      ensures trace.calls == old(trace.calls) + [Calls.PutEntry(key, reply)]
      ensures entries == if reply.Applied() then old(entries)[key := rows] else old(entries)
      ensures ok == reply.Ok?
    {
      trace.calls := trace.calls + [Calls.PutEntry(key, reply)];
      if reply.Applied() {
        entries := entries[key := rows];
      }
      ok := reply.Ok?;
    }

    method GetVersion(slug: string, ok: bool, init: Reply) returns (r: Result<nat>)
      modifies this`versions, trace
      ensures trace.calls == old(trace.calls) + VersionCalls(old(versions), slug, ok, init)
      ensures (versions, r) == Versioned(old(versions), slug, ok, init)
      ensures versions == if ok && VersionKey(slug) !in old(versions) && init.Applied()
                          then old(versions)[VersionKey(slug) := 1] else old(versions)
      ensures r.Success? <==> ok && (VersionKey(slug) in old(versions) || init.Ok?)
      ensures r.Success? ==> VersionKey(slug) in versions && r.value == versions[VersionKey(slug)]
    {
      trace.calls := trace.calls + VersionCalls(versions, slug, ok, init);
      if !ok { return Failure(Internal); }
      var key := VersionKey(slug);
      if key !in versions {
        if init.Applied() {
          versions := versions[key := 1];
        }
        if !init.Ok? { return Failure(Internal); }
        return Success(1);
      }
      return Success(versions[key]);
    }

    method BumpVersion(slug: string, reply: Reply) returns (r: Result<nat>)
      modifies this`versions, trace
      ensures trace.calls == old(trace.calls) + [Calls.RaiseVersion(slug, reply)]
      ensures versions ==
        if reply.Applied() then old(versions)[VersionKey(slug) := Next(old(versions), VersionKey(slug))]
        else old(versions)
      ensures r == if reply.Ok? then Success(Next(old(versions), VersionKey(slug))) else Failure(Internal)
    {
      trace.calls := trace.calls + [Calls.RaiseVersion(slug, reply)];
      var key := VersionKey(slug);
      var next := Next(versions, key);
      if reply.Applied() {
        versions := versions[key := next];
      }
      r := if reply.Ok? then Success(next) else Failure(Internal);
    }
  }
}
