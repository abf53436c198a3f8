/**
 The report service: serve a report from the versioned cache or from the snapshot table.
 RunReport is specified by a function on the stored state, and ReadIsRun shows that it is
 a run of the reader machine of Coherence over string-keyed entries.
 */
module Report {
  import opened Common
  import opened Ordering
  import opened Snapshots
  import opened Reports
  import opened Keys
  import Calls
  import Postgres
  import Redis

  /** What the service reads and writes. */
  datatype State = State(versions: map<string, nat>, entries: map<string, seq<ResultRow>>, table: Table)

  /** A served report; its source system is redis on a hit and postgres otherwise. */
  datatype Answer = Answer(rows: seq<ResultRow>, cacheHit: bool)

  /** How the outside world answers the calls of one cacheKey. */
  datatype VersionReplies = VersionReplies(ok: bool, init: Reply)

  /** How it answers the calls of one RunReport; lookup is the error of the definition query, caching its TTL > 0. */
  datatype RunReplies = RunReplies(lookup: Option<Error>, caching: bool, read: VersionReplies, get: bool, query: bool,
                                   badRow: Option<nat>, again: VersionReplies, put: Reply)

  /** The hash of the normal form, in hexadecimal. */
  type Digest = RunParams -> string

  function EntryKey(digest: Digest, slug: Slug, version: nat, p: RunParams): string {
    ReportKeyText(SlugName(slug), version, digest(Normalize(p)))
  }

  /** cacheKey, then Get: the new versions, and a hit, a miss or an error. */
  function Looked(st: State, digest: Digest, slug: Slug, p: RunParams, replies: RunReplies)
    : (State, Result<Option<seq<ResultRow>>>)
  {
    var (versions, version) := Redis.Versioned(st.versions, SlugName(slug), replies.read.ok, replies.read.init);
    var st' := st.(versions := versions);
    if version.Failure? || !replies.get then (st', Failure(Internal))
    else
      var key := EntryKey(digest, slug, version.value, p);
      (st', Success(if key in st.entries then Some(st.entries[key]) else None))
  }

  predicate IsHit(r: Result<Option<seq<ResultRow>>>) {
    r.Success? && r.value.Some?
  }

  /** cacheKey again, then Set. */
  function Cached(st: State, digest: Digest, slug: Slug, p: RunParams, rows: seq<ResultRow>,
                  replies: RunReplies): State {
    var (versions, version) := Redis.Versioned(st.versions, SlugName(slug), replies.again.ok, replies.again.init);
    var st' := st.(versions := versions);
    if version.Success? && replies.put.Applied()
    then st'.(entries := st.entries[EntryKey(digest, slug, version.value, p) := rows]) else st'
  }

  predicate ScanOk(table: Table, slug: Slug, p: RunParams, replies: RunReplies) {
    replies.query && (replies.badRow.Some? ==> replies.badRow.value >= |RunQuery(table, slug, p)|)
  }

  /** Query the table and, if caching, store the result. */
  function Fetched(st: State, digest: Digest, slug: Slug, p: RunParams, replies: RunReplies): (State, Result<Answer>) {
    if !Supported(slug) then (st, Failure(NotFound))
    else if !ScanOk(st.table, slug, p, replies) then (st, Failure(Internal))
    else
      var rows := RunQuery(st.table, slug, p);
      (if replies.caching then Cached(st, digest, slug, p, rows, replies) else st, Success(Answer(rows, false)))
  }

  function Answered(st: State, digest: Digest, slug: Slug, raw: RawParams, maxRangeDays: int, replies: RunReplies)
    : (State, Result<Answer>)
  {
    if replies.lookup.Some? then (st, Failure(replies.lookup.value))
    else
      match Validate(raw, maxRangeDays)
      case Failure(error) => (st, Failure(error))
      case Success(p) =>
        if replies.caching then Sought(st, digest, slug, p, replies) else Fetched(st, digest, slug, p, replies)
  }

  /** Try the cache, then the table. */
  function Sought(st: State, digest: Digest, slug: Slug, p: RunParams, replies: RunReplies): (State, Result<Answer>) {
    var (st', hit) := Looked(st, digest, slug, p, replies);
    if IsHit(hit) then (st', Success(Answer(hit.value.value, true))) else Fetched(st', digest, slug, p, replies)
  }

  // ----- what the methods call -----

  /** The calls of cacheKey. */
  function KeyCalls(versions: map<string, nat>, slug: Slug, replies: VersionReplies): seq<Calls.Remote> {
    Redis.VersionCalls(versions, SlugName(slug), replies.ok, replies.init)
  }

  function LookCalls(st: State, digest: Digest, slug: Slug, p: RunParams, replies: RunReplies): seq<Calls.Remote> {
    var version := Redis.Versioned(st.versions, SlugName(slug), replies.read.ok, replies.read.init).1;
    KeyCalls(st.versions, slug, replies.read)
    + if version.Success? then [Calls.GetEntry(EntryKey(digest, slug, version.value, p), replies.get)] else []
  }

  function StoreCalls(st: State, digest: Digest, slug: Slug, p: RunParams, replies: RunReplies): seq<Calls.Remote> {
    var version := Redis.Versioned(st.versions, SlugName(slug), replies.again.ok, replies.again.init).1;
    KeyCalls(st.versions, slug, replies.again)
    + if version.Success? then [Calls.PutEntry(EntryKey(digest, slug, version.value, p), replies.put)] else []
  }

  function FetchCalls(st: State, digest: Digest, slug: Slug, p: RunParams, replies: RunReplies): seq<Calls.Remote> {
    var ok := ScanOk(st.table, slug, p, replies);
    if !Supported(slug) then []
    else [Calls.Select(slug, p, ok)] + if ok && replies.caching then StoreCalls(st, digest, slug, p, replies) else []
  }

  function SoughtCalls(st: State, digest: Digest, slug: Slug, p: RunParams, replies: RunReplies): seq<Calls.Remote> {
    var (st', hit) := Looked(st, digest, slug, p, replies);
    LookCalls(st, digest, slug, p, replies) + if IsHit(hit) then [] else FetchCalls(st', digest, slug, p, replies)
  }

  /** The remote calls of RunReport, in order, after the definition query. */
  function AnswerCalls(st: State, digest: Digest, slug: Slug, raw: RawParams, maxRangeDays: int, replies: RunReplies)
    : seq<Calls.Remote>
  {
    match Validate(raw, maxRangeDays)
    case Failure(_) => []
    case Success(p) =>
      if replies.lookup.Some? then []
      else if replies.caching then SoughtCalls(st, digest, slug, p, replies)
      else FetchCalls(st, digest, slug, p, replies)
  }

  class ReportService {
    const store: Postgres.Store
    const redis: Redis.Store
    const digest: Digest
    const maxRangeDays: int

    constructor (store: Postgres.Store, redis: Redis.Store, digest: Digest, maxRangeDays: int)
      ensures this.store == store && this.redis == redis && this.digest == digest && this.maxRangeDays == maxRangeDays
    {
      this.store, this.redis, this.digest, this.maxRangeDays := store, redis, digest, maxRangeDays;
    }

    function Contents(): State
      reads store, redis
    {
      State(redis.versions, redis.entries, store.snapshots)
    }

    /** Both stores record their calls in one trace. */
    predicate Traced() {
      store.trace == redis.trace
    }

    /** The key of an entry under the version that is current now. */
    method BuildKey(slug: Slug, p: RunParams, replies: VersionReplies) returns (key: Result<string>)
      modifies redis`versions, redis.trace
      ensures redis.trace.calls == old(redis.trace.calls) + KeyCalls(old(redis.versions), slug, replies)
      ensures
        var (versions, version) := Redis.Versioned(old(redis.versions), SlugName(slug), replies.ok, replies.init);
        && redis.versions == versions
        && key == if version.Success? then Success(EntryKey(digest, slug, version.value, p)) else Failure(Internal)
    {
      var version := redis.GetVersion(SlugName(slug), replies.ok, replies.init);
      if version.Failure? { return Failure(Internal); }
      return Success(EntryKey(digest, slug, version.value, p));
    }

    method GetCachedResult(slug: Slug, p: RunParams, replies: RunReplies) returns (r: Result<Option<seq<ResultRow>>>)
      modifies redis`versions, redis.trace
      ensures redis.trace.calls == old(redis.trace.calls) + LookCalls(old(Contents()), digest, slug, p, replies)
      ensures (Contents(), r) == Looked(old(Contents()), digest, slug, p, replies)
    {
      var key := BuildKey(slug, p, replies.read);
      if key.Failure? { return Failure(Internal); }
      r := redis.Get(key.value, replies.get);
    }

    method StoreCachedResult(slug: Slug, p: RunParams, rows: seq<ResultRow>, replies: RunReplies) returns (ok: bool)
      modifies redis`versions, redis`entries, redis.trace
      ensures redis.trace.calls == old(redis.trace.calls) + StoreCalls(old(Contents()), digest, slug, p, replies)
      ensures Contents() == Cached(old(Contents()), digest, slug, p, rows, replies)
    {
      var key := BuildKey(slug, p, replies.again);
      if key.Failure? { return false; }
      ok := redis.Set(key.value, rows, replies.put);
    }

    /** Look up, validate, try the cache, else query and try to store; cache errors are ignored. */
    method RunReport(slug: Slug, raw: RawParams, replies: RunReplies) returns (r: Result<Answer>)
      requires Traced()
      modifies redis`versions, redis`entries, redis.trace
      ensures redis.trace.calls
              == old(redis.trace.calls) + AnswerCalls(old(Contents()), digest, slug, raw, maxRangeDays, replies)
      ensures (Contents(), r) == Answered(old(Contents()), digest, slug, raw, maxRangeDays, replies)
    {
      if replies.lookup.Some? { return Failure(replies.lookup.value); }
      var params := Validate(raw, maxRangeDays);
      if params.Failure? { return Failure(params.error); }
      var p := params.value;
      if replies.caching {
        ghost var calls, look := redis.trace.calls, LookCalls(Contents(), digest, slug, p, replies);
        var cached := GetCachedResult(slug, p, replies);
        if IsHit(cached) {
          Calls.Chain(calls, look, []);
          return Success(Answer(cached.value.value, true));
        }
        ghost var fetch := FetchCalls(Contents(), digest, slug, p, replies);
        r := Fetch(slug, p, replies);
        Calls.Chain(calls, look, fetch);
      } else {
        r := Fetch(slug, p, replies);
      }
    }

    /** The rest of RunReport: query, and try to store. */
    method Fetch(slug: Slug, p: RunParams, replies: RunReplies) returns (r: Result<Answer>)
      requires Traced()
      modifies redis`versions, redis`entries, redis.trace
      ensures redis.trace.calls == old(redis.trace.calls) + FetchCalls(old(Contents()), digest, slug, p, replies)
      ensures (Contents(), r) == Fetched(old(Contents()), digest, slug, p, replies)
    {
      var rows := store.RunReportQuery(slug, p, replies.query, replies.badRow);
      if rows.Failure? { return Failure(rows.error); }
      if replies.caching {
        var _ := StoreCachedResult(slug, p, rows.value, replies);
      }
      return Success(Answer(rows.value, false));
    }
  }
}
