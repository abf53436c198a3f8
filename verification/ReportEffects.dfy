/**
 What RunReport answers and leaves behind, for every combination of replies, from the
 parameters as they were sent. Nothing here goes through the functions that specify the
 methods in Report and Redis.
 */
module ReportEffects {
  import opened Common
  import opened Time
  import opened Ordering
  import opened Snapshots
  import opened Reports
  import opened Keys
  import opened Report
  import Redis
  import Protocol
  import Recompute
  import RecomputeEffects

  // ----- the version -----

  predicate HasVersion(versions: map<string, nat>, slug: Slug) {
    VersionKey(SlugName(slug)) in versions
  }

  /** The version of a report; one that was never set counts as 1. */
  function VersionOf(versions: map<string, nat>, slug: Slug): nat {
    if HasVersion(versions, slug) then versions[VersionKey(SlugName(slug))] else 1
  }

  /** The call learns the version: the read succeeds, and so does the initialisation of an absent one. */
  predicate Learns(versions: map<string, nat>, slug: Slug, replies: VersionReplies) {
    replies.ok && (HasVersion(versions, slug) || replies.init.Ok?)
  }

  /** An absent version is set to 1 when the read succeeds and the write takes effect. */
  function Initialised(versions: map<string, nat>, slug: Slug, replies: VersionReplies): map<string, nat> {
    if replies.ok && !HasVersion(versions, slug) && replies.init.Applied()
    then versions[VersionKey(SlugName(slug)) := 1] else versions
  }

  lemma VersionedExact(versions: map<string, nat>, slug: Slug, replies: VersionReplies)
    ensures
      var (versions', r) := Redis.Versioned(versions, SlugName(slug), replies.ok, replies.init);
      && versions' == Initialised(versions, slug, replies)
      && r == if Learns(versions, slug, replies) then Success(VersionOf(versions, slug)) else Failure(Internal)
  {}

  // ----- the answer -----

  /** The key of an entry: report, version, and the hash of the parameters with dates cut to days. */
  function EntryText(digest: Digest, slug: Slug, version: nat, p: RunParams): string {
    "report:" + SlugName(slug) + ":v" + Decimal(version) + ":"
    + digest(p.(dateFrom := Midnight(p.dateFrom), dateTo := Midnight(p.dateTo)))
  }

  /** A definition query that fails decides the answer, and then the checks of the parameters; nothing changes. */
  lemma AnswerRefused(st: State, digest: Digest, slug: Slug, raw: RawParams, maxRangeDays: int, replies: RunReplies)
    requires replies.lookup.Some? || !Admissible(raw, maxRangeDays)
    ensures Answered(st, digest, slug, raw, maxRangeDays, replies)
            == (st, Failure(if replies.lookup.Some? then replies.lookup.value else Invalid))
  {
    ValidateExact(raw, maxRangeDays);
  }

  /** The answer of the snapshot table. */
  function TableAnswer(st: State, slug: Slug, p: RunParams, replies: RunReplies): Result<Answer> {
    var rows := RunQuery(st.table, slug, p);
    if slug.Unsupported? then Failure(NotFound)
    else if replies.query && (replies.badRow.None? || replies.badRow.value >= |rows|) then Success(Answer(rows, false))
    else Failure(Internal)
  }

  /** The parameters are admissible, the definition is found, and these are the parameters. */
  predicate Accepted(raw: RawParams, p: RunParams, maxRangeDays: int, replies: RunReplies) {
    Admissible(raw, maxRangeDays) && AskedFor(raw, p) && replies.lookup.None?
  }

  lemma AcceptedValidated(raw: RawParams, p: RunParams, maxRangeDays: int, replies: RunReplies)
    requires Accepted(raw, p, maxRangeDays, replies)
    ensures Validate(raw, maxRangeDays) == Success(p)
  {
    ValidateExact(raw, maxRangeDays);
  }

  /** Without caching the table answers, and nothing changes. */
  lemma AnswerUncached(st: State, digest: Digest, slug: Slug, raw: RawParams, p: RunParams, maxRangeDays: int,
                       replies: RunReplies)
    requires Accepted(raw, p, maxRangeDays, replies) && !replies.caching
    ensures Answered(st, digest, slug, raw, maxRangeDays, replies) == (st, TableAnswer(st, slug, p, replies))
  {
    AcceptedValidated(raw, p, maxRangeDays, replies);
  }

  /** The call finds an entry under the version that it learns first. */
  predicate Hits(st: State, digest: Digest, slug: Slug, p: RunParams, replies: RunReplies) {
    && Learns(st.versions, slug, replies.read) && replies.get
    && EntryText(digest, slug, VersionOf(st.versions, slug), p) in st.entries
  }

  /** A hit answers with the entry; only an absent version may be initialised. */
  lemma AnswerHit(st: State, digest: Digest, slug: Slug, raw: RawParams, p: RunParams, maxRangeDays: int,
                  replies: RunReplies)
    requires Accepted(raw, p, maxRangeDays, replies) && replies.caching && Hits(st, digest, slug, p, replies)
    ensures
      var entry := st.entries[EntryText(digest, slug, VersionOf(st.versions, slug), p)];
      Answered(st, digest, slug, raw, maxRangeDays, replies)
      == (st.(versions := Initialised(st.versions, slug, replies.read)), Success(Answer(entry, true)))
  {
    AcceptedValidated(raw, p, maxRangeDays, replies);
    VersionedExact(st.versions, slug, replies.read);
  }

  /** The entries after a miss: the answer of the table is stored under the version that the call learns last. */
  function StoredEntries(st: State, versions: map<string, nat>, digest: Digest, slug: Slug, p: RunParams,
                         replies: RunReplies): map<string, seq<ResultRow>> {
    var text := EntryText(digest, slug, VersionOf(versions, slug), p);
    if Learns(versions, slug, replies.again) && replies.put.Applied()
    then st.entries[text := RunQuery(st.table, slug, p)] else st.entries
  }

  /** A miss answers with the table, and stores a successful answer under the version as it is then. */
  lemma AnswerMiss(st: State, digest: Digest, slug: Slug, raw: RawParams, p: RunParams, maxRangeDays: int,
                   replies: RunReplies)
    requires Accepted(raw, p, maxRangeDays, replies) && replies.caching && !Hits(st, digest, slug, p, replies)
    ensures
      var (st', r) := Answered(st, digest, slug, raw, maxRangeDays, replies);
      var versions := Initialised(st.versions, slug, replies.read);
      && r == TableAnswer(st, slug, p, replies)
      && st' == if r.Failure? then st.(versions := versions)
                else st.(versions := Initialised(versions, slug, replies.again),
                         entries := StoredEntries(st, versions, digest, slug, p, replies))
  {
    AcceptedValidated(raw, p, maxRangeDays, replies);
    VersionedExact(st.versions, slug, replies.read);
    VersionedExact(Initialised(st.versions, slug, replies.read), slug, replies.again);
  }

  // ----- after a rebuild -----

  /**
   After a job whose rebuild commits and whose bump takes effect, the next cached read of its
   report looks under the next version: it never answers from an entry of an earlier one, and
   without an entry of the new one it answers from the table.
   */
  lemma NextReadIsNew(before: Recompute.State, job: Protocol.Job, jobReplies: Recompute.JobReplies, st: State,
                      digest: Digest, raw: RawParams, p: RunParams, maxRangeDays: int, replies: RunReplies)
    requires Dated(job.claim.request) && RecomputeEffects.Rebuilds(job, jobReplies) && jobReplies.bump.Applied()
    requires st.versions == Recompute.Processed(before, job, jobReplies).versions
    requires Accepted(raw, p, maxRangeDays, replies) && replies.caching
    ensures
      var slug := job.claim.request.slug;
      var earlier := if HasVersion(before.versions, slug) then VersionOf(before.versions, slug) else 0;
      var r := Answered(st, digest, slug, raw, maxRangeDays, replies).1;
      r == if replies.read.ok && replies.get && EntryText(digest, slug, earlier + 1, p) in st.entries
           then Success(Answer(st.entries[EntryText(digest, slug, earlier + 1, p)], true))
           else TableAnswer(st, slug, p, replies)
  {
    var slug := job.claim.request.slug;
    RecomputeEffects.VersionsAfterJob(before, job, jobReplies, SlugName(slug));
    if Hits(st, digest, slug, p, replies) {
      AnswerHit(st, digest, slug, raw, p, maxRangeDays, replies);
    } else {
      AnswerMiss(st, digest, slug, raw, p, maxRangeDays, replies);
    }
  }
}
