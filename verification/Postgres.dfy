/** The PostgreSQL store: the tables and the statements that read and change them. */
module Postgres {
  import opened Common
  import opened Aggregate
  import opened Ordering
  import opened Snapshots
  import opened Reports
  import opened Protocol
  import Calls

  /** Where a recompute transaction fails; every failure rolls it back. */
  datatype TxFault = NoFault | AtBegin | AtDelete | AtInsert | AtCount | AtCommit

  /** The row of this run got these statuses; no other row, and no request, changed. */
  ghost predicate Moved(before: map<RunId, Run>, after: map<RunId, Run>, run: RunId, statuses: seq<Status>) {
    && after.Keys == before.Keys
    && (forall x :: x in before && x != run ==> after[x] == before[x])
    && (run in before ==>
          after[run].history == before[run].history + statuses && after[run].request == before[run].request)
  }

  /** What the three updates of a run row do, and the insert of an audit entry. */
  lemma UpdatesMove(runs: map<RunId, Run>, run: RunId, status: Status, summary: Summary, reply: Reply)
    ensures Moved(runs, Mark(runs, run, status, reply), run, if reply.Applied() then [status] else [])
    ensures run in runs ==> Mark(runs, run, status, reply)[run].summary == runs[run].summary
    ensures Moved(runs, MarkDone(runs, run, summary, reply), run, if reply.Applied() then [Completed] else [])
    ensures run in runs ==>
              MarkDone(runs, run, summary, reply)[run].summary
              == if reply.Applied() then Some(summary) else runs[run].summary
  {}

  class Store {
    const trace: Calls.Trace
    var sources: Sources
    var events: seq<Event>
    var snapshots: Table
    var runs: map<RunId, Run>
    var audits: seq<AuditEntry>

    constructor (sources: Sources, trace: Calls.Trace)
      ensures this.trace == trace && this.sources == sources
      ensures events == [] && snapshots == [] && runs == map[] && audits == []
    {
      this.trace, this.sources, events, snapshots, runs, audits := trace, sources, [], [], map[], [];
    }

    /**
     Delete the cleared interval, insert the grouped counts, count the buckets, commit.
     The transaction works on its own copy of the table until the commit.
     */
    method RecomputeReport(q: Request, run: RunId, fault: TxFault) returns (r: Result<Summary>)
      modifies this`snapshots, trace
      ensures trace.calls == old(trace.calls) + [Calls.Rebuild(q, run, r.Success?)]
      ensures r.Success? <==> Supported(q.slug) && fault == NoFault
      ensures r.Success? ==>
                snapshots == Rebuilt(old(snapshots), q, Facts(q.slug, sources, events), run)
                && r.value == SummaryOf(old(snapshots), q, Facts(q.slug, sources, events), run)
      ensures r.Failure? ==> snapshots == old(snapshots)
      ensures r.Failure? ==>
                r.error == if !Supported(q.slug) && fault != AtBegin && fault != AtDelete then Invalid else Internal
    {
      trace.calls := trace.calls + [Calls.Rebuild(q, run, Supported(q.slug) && fault == NoFault)];
      if fault == AtBegin { return Failure(Internal); }
      var tx := snapshots;
      if fault == AtDelete { return Failure(Internal); }
      var rowsDeleted := |Project(tx, DropLabel(q))|;
      tx := Project(tx, KeepLabel(q));
      if !Supported(q.slug) { return Failure(Invalid); }
      if fault == AtInsert { return Failure(Internal); }
      var selected := Group(Project(Facts(q.slug, sources, events), ToCell(q)));
      var inserted := Project(selected, ToLabel(q, run));
      tx := tx + inserted;
      if fault == AtCount { return Failure(Internal); }
      var buckets := |Group(Project(tx, ToBucket(q)))|;
      if fault == AtCommit { return Failure(Internal); }
      snapshots := tx;
      return Success(Summary(rowsDeleted, |inserted|, buckets));
    }

    /** INSERT a run row under a fresh id. */
    method CreateRun(q: Request, status: Status, id: RunId, reply: Reply) returns (r: Result<RunId>)
      requires id !in runs
      modifies this`runs, trace
      ensures trace.calls == old(trace.calls) + [Calls.InsertRun(id, status, reply)]
      ensures runs == if reply.Applied() then old(runs)[id := Run(q, [status], None)] else old(runs)
      ensures r == if reply.Ok? then Success(id) else Failure(Internal)
    {
      trace.calls := trace.calls + [Calls.InsertRun(id, status, reply)];
      if reply.Applied() {
        runs := runs[id := Run(q, [status], None)];
      }
      r := if reply.Ok? then Success(id) else Failure(Internal);
    }

    method MarkRunRunning(run: RunId, reply: Reply) returns (ok: bool)
      modifies this`runs, trace
      ensures trace.calls == old(trace.calls) + [Calls.UpdateRun(run, Running, reply)]
      ensures runs == Mark(old(runs), run, Running, reply) && ok == reply.Ok?
    {
      trace.calls := trace.calls + [Calls.UpdateRun(run, Running, reply)];
      if run in runs && reply.Applied() {
        runs := runs[run := runs[run].(history := runs[run].history + [Running])];
      }
      ok := reply.Ok?;
    }

    method MarkRunCompleted(run: RunId, summary: Summary, reply: Reply) returns (ok: bool)
      modifies this`runs, trace
      ensures trace.calls == old(trace.calls) + [Calls.UpdateRun(run, Completed, reply)]
      ensures runs == MarkDone(old(runs), run, summary, reply) && ok == reply.Ok?
    {
      trace.calls := trace.calls + [Calls.UpdateRun(run, Completed, reply)];
      if run in runs && reply.Applied() {
        runs := runs[run := Run(runs[run].request, runs[run].history + [Completed], Some(summary))];
      }
      ok := reply.Ok?;
    }

    method MarkRunFailed(run: RunId, reply: Reply) returns (ok: bool)
      modifies this`runs, trace
      ensures trace.calls == old(trace.calls) + [Calls.UpdateRun(run, Failed, reply)]
      ensures runs == Mark(old(runs), run, Failed, reply) && ok == reply.Ok?
    {
      trace.calls := trace.calls + [Calls.UpdateRun(run, Failed, reply)];
      if run in runs && reply.Applied() {
        runs := runs[run := runs[run].(history := runs[run].history + [Failed])];
      }
      ok := reply.Ok?;
    }

    method CreateEntry(run: RunId, action: Action, reply: Reply) returns (ok: bool)
      modifies this`audits, trace
      ensures trace.calls == old(trace.calls) + [Calls.InsertAudit(run, action, reply)]
      ensures audits == Log(old(audits), run, action, reply) && ok == reply.Ok?
    {
      trace.calls := trace.calls + [Calls.InsertAudit(run, action, reply)];
      if reply.Applied() {
        audits := audits + [AuditEntry(run, action)];
      }
      ok := reply.Ok?;
    }

    /** One of the three run queries; a scan that fails part-way returns no rows. */
    method RunReportQuery(slug: Slug, p: RunParams, queryOk: bool, badRow: Option<nat>)
      returns (r: Result<seq<ResultRow>>)
      modifies trace
      ensures trace.calls == old(trace.calls) + if Supported(slug) then [Calls.Select(slug, p, r.Success?)] else []
      ensures r ==
        if !Supported(slug) then Failure(NotFound)
        else if !queryOk || (badRow.Some? && badRow.value < |RunQuery(snapshots, slug, p)|) then Failure(Internal)
        else Success(RunQuery(snapshots, slug, p))
    {
      if !Supported(slug) { return Failure(NotFound); }
      if queryOk {
        r := CollectRows(RunQuery(snapshots, slug, p), badRow);
      } else {
        r := Failure(Internal);
      }
      trace.calls := trace.calls + [Calls.Select(slug, p, r.Success?)];
    }
  }

  /** Scan a result set row by row. */
  method CollectRows(rows: seq<ResultRow>, badRow: Option<nat>) returns (r: Result<seq<ResultRow>>)
    ensures r == if badRow.Some? && badRow.value < |rows| then Failure(Internal) else Success(rows)
  {
    var result := [];
    var i := 0;
    while i < |rows|
      invariant 0 <= i <= |rows|
      invariant result == rows[..i]
      invariant badRow.Some? ==> i <= badRow.value || |rows| <= badRow.value
    {
      if badRow == Some(i) { return Failure(Internal); }
      result := result + [rows[i]];
      i := i + 1;
    }
    assert rows[..i] == rows;
    return Success(result);
  }
}
