/** Reading the executions of a session page by page while the control plane keeps running. */
module Listings {
  import opened Common
  import opened Records
  import opened Protocol
  import opened Runs
  import opened Paging

  /** The execution records as a list sees them; `dump` prints one. */
  function ExecutionTable(executions: map<Id, Execution>, dump: Execution -> string): Table {
    map id | id in executions :: Record(executions[id].sessionId, executions[id].taskId, dump(executions[id]))
  }

  /** Page `k` is read after `moments[k]` steps of the run. */
  ghost function TablesAt(w: World, labels: seq<Label>, moments: seq<nat>, dump: Execution -> string): (t: seq<Table>)
    requires forall k | 0 <= k < |moments| :: moments[k] <= |labels|
  {
    seq(|moments|, k requires 0 <= k < |moments| =>
      ExecutionTable(Run(w, labels[..moments[k]]).db.executions, dump))
  }

  function OfSession(session: Id): Filter {
    Filter(Some(session), None)
  }

  lemma NextIdsProper(w: World, s: System, l: Label, id: Id)
    requires id in Next(w, s, l).db.executions
    ensures id in s.db.executions || Proper(id)
  {
    if id !in s.db.executions {
      NewExecutionsComeFromBegin(w, s, l, id);
      BeginCases(w, s.enforce, s.db, l.req, l.env);
    }
  }

  lemma {:induction false} RunIdsProper(w: World, labels: seq<Label>, id: Id)
    requires id in Run(w, labels).db.executions
    ensures 1 <= |id| <= 256
  {
    var n := |labels| - 1;
    RunLast(w, labels);
    NextIdsProper(w, Run(w, labels[..n]), labels[n], id);
    if id in Run(w, labels[..n]).db.executions {
      RunIdsProper(w, labels[..n], id);
    }
  }

  /** An execution keeps its session for the rest of the run. */
  lemma SessionStays(w: World, labels: seq<Label>, i: nat, j: nat, id: Id)
    requires i <= j <= |labels| && id in Run(w, labels[..i]).db.executions
    ensures id in Run(w, labels[..j]).db.executions
    ensures Run(w, labels[..j]).db.executions[id].sessionId == Run(w, labels[..i]).db.executions[id].sessionId
  {
    RunEvolves(w, labels, i, j);
    assert ExecutionLater(Run(w, labels[..i]).db.executions[id], Run(w, labels[..j]).db.executions[id]);
  }

  /** Every execution that the session had when the first page was read is returned, and no id twice. */
  lemma SessionListingIsComplete(w: World, labels: seq<Label>, moments: seq<nat>, dump: Execution -> string,
                                 session: Id, limit: nat, id: Id)
    requires limit > 0 && moments != []
    requires forall k | 0 <= k < |moments| :: moments[0] <= moments[k] <= |labels|
    requires var executions := Run(w, labels[..moments[0]]).db.executions;
             id in executions && executions[id].sessionId == session
    ensures var crawled := Crawl(TablesAt(w, labels, moments, dump), OfSession(session), "", limit);
            IdsIncrease(crawled.items) && (crawled.finished ==> HasId(crawled.items, id))
  {
    var tables := TablesAt(w, labels, moments, dump);
    RunIdsProper(w, labels[..moments[0]], id);
    forall k | 0 <= k < |tables| ensures id in tables[k] && Matches(tables[k][id], OfSession(session)) {
      SessionStays(w, labels, moments[0], moments[k], id);
    }
    if Crawl(tables, OfSession(session), "", limit).finished {
      CrawlMissesNothing(tables, OfSession(session), "", limit, id);
    }
    CrawlNeverRepeats(tables, OfSession(session), "", limit);
  }

  lemma RowIsExecution(w: World, labels: seq<Label>, i: nat, dump: Execution -> string, session: Id, e: Entry)
    requires i <= |labels|
    requires IsRow(ExecutionTable(Run(w, labels[..i]).db.executions, dump), OfSession(session), e)
    ensures var executions := Run(w, labels).db.executions;
            e.id in executions && executions[e.id].sessionId == session
  {
    SessionStays(w, labels, i, |labels|, e.id);
    assert labels[..|labels|] == labels;
  }

  /** Everything returned is an execution of the session. */
  lemma SessionListingIsSound(w: World, labels: seq<Label>, moments: seq<nat>, dump: Execution -> string,
                              session: Id, limit: nat, e: Entry)
    requires limit > 0 && forall k | 0 <= k < |moments| :: moments[k] <= |labels|
    ensures e in Crawl(TablesAt(w, labels, moments, dump), OfSession(session), "", limit).items ==>
              var executions := Run(w, labels).db.executions;
              e.id in executions && executions[e.id].sessionId == session
  {
    var tables := TablesAt(w, labels, moments, dump);
    if e in Crawl(tables, OfSession(session), "", limit).items {
      CrawlReturnsStored(tables, OfSession(session), "", limit, e);
      var k :| 0 <= k < |tables| && IsRow(tables[k], OfSession(session), e);
      RowIsExecution(w, labels, moments[k], dump, session, e);
    }
  }

  /** In every reachable state the pages of the executions are the plain list, whatever the filter and the limit. */
  lemma ExecutionPagesArePlainList(w: World, labels: seq<Label>, dump: Execution -> string, f: Filter, limit: nat)
    requires limit > 0
    ensures var table := ExecutionTable(Run(w, labels).db.executions, dump);
            Pages(table, f, "", limit) == PlainList(table, true, f)
  {
    var executions := Run(w, labels).db.executions;
    PagesArePlainListExactly(ExecutionTable(executions, dump), true, f, limit);
    if "" in executions {
      RunIdsProper(w, labels, "");
      assert false;
    }
  }

  /** And they hold exactly the executions of the session and of the task that the reader asks for. */
  lemma ExecutionPagesShowExactly(w: World, labels: seq<Label>, dump: Execution -> string, session: Option<Id>,
                                  task: Option<string>, limit: nat, e: Entry)
    requires limit > 0
    ensures var executions := Run(w, labels).db.executions;
            e in Pages(ExecutionTable(executions, dump), Filter(session, task), "", limit) <==>
              && e.id in executions
              && e.record == Record(executions[e.id].sessionId, executions[e.id].taskId, dump(executions[e.id]))
              && (session.Some? ==> executions[e.id].sessionId == session.value)
              && (task.Some? ==> executions[e.id].taskId == task.value)
  {
    FiltersShowExactly(ExecutionTable(Run(w, labels).db.executions, dump), session, task, limit, e);
    if e.id in Run(w, labels).db.executions {
      RunIdsProper(w, labels, e.id);
    }
  }
}
