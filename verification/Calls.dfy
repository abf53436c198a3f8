/** The remote calls of the service in the order in which they are made, as the stores see them. */
module Calls {
  import opened Common
  import opened Snapshots
  import opened Reports
  import opened Protocol

  /** One call, with the answer that it gets. */
  datatype Remote =
    | SetLock(key: string, token: Token, reply: Reply)
    | FreeLock(key: string, token: Token, reply: Reply)
    | AskVersion(name: string, ok: bool)
    | InitVersion(name: string, reply: Reply)
    | RaiseVersion(name: string, reply: Reply)
    | GetEntry(key: string, ok: bool)
    | PutEntry(key: string, reply: Reply)
    | InsertRun(run: RunId, status: Status, reply: Reply)
    | UpdateRun(run: RunId, status: Status, reply: Reply)
    | InsertAudit(run: RunId, action: Action, reply: Reply)
    | Rebuild(q: Request, run: RunId, ok: bool)
    | Select(slug: Slug, p: RunParams, ok: bool)

  lemma Chain(before: seq<Remote>, some: seq<Remote>, more: seq<Remote>)
    ensures before + some + more == before + (some + more)
    ensures before + (some + []) == before + some
  {
    assert some + [] == some;
  }

  lemma Follow(before: seq<Remote>, first: Remote, second: Remote, more: seq<Remote>)
    ensures before + [first] + [second] + more == before + ([first] + ([second] + more))
  {}

  /** The calls so far, of all the stores that share it. */
  class Trace {
    ghost var calls: seq<Remote>

    constructor ()
      ensures calls == []
    {
      calls := [];
    }
  }
}
