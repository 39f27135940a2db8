/** Whole lives of one import job: tries that fail or die anywhere, locks that expire, and a last clean try. */
module ImportJobs {
  import opened Wrappers
  import opened Ceiling
  import opened SheetParser
  import opened SheetAccounts
  import opened ImportTable
  import opened ImportRuns

  datatype Step = Try(fault: Fault) | LockExpires

  function Next(s: Importer, lib: Library, id: nat, step: Step): Importer {
    match step
    case Try(fault) => RunImport(s, lib, id, fault)
    case LockExpires => s.(locks := s.locks - {id})
  }

  function Run(s: Importer, lib: Library, id: nat, steps: seq<Step>): Importer {
    if steps == [] then s
    else Next(Run(s, lib, id, steps[..|steps| - 1]), lib, id, steps[|steps| - 1])
  }

  predicate Loaded(s: Importer, id: nat) {
    id in s.jobs && s.jobs[id].fileId in s.files
  }

  function ResultOf(s: Importer, lib: Library, id: nat): ParseResult
    requires Loaded(s, id)
  {
    Parse(lib, s.files[s.jobs[id].fileId].content, true)
  }

  function JobItems(s: Importer, lib: Library, id: nat): seq<Item>
    requires Loaded(s, id)
  {
    ItemsOf(id, s.jobs[id].fileId, ResultOf(s, lib, id).transactions)
  }

  /** The job's file and content never change, so every try works on the same items. */
  predicate SameWork(s: Importer, s': Importer, id: nat) {
    && Loaded(s, id) && Loaded(s', id)
    && s'.jobs[id].fileId == s.jobs[id].fileId
    && s'.files[s.jobs[id].fileId].content == s.files[s.jobs[id].fileId].content
  }

  lemma NextSameWork(s: Importer, lib: Library, id: nat, step: Step)
    requires Loaded(s, id)
    ensures SameWork(s, Next(s, lib, id, step), id)
  {
  }

  lemma {:induction false} RunSameWork(s: Importer, lib: Library, id: nat, steps: seq<Step>)
    requires Loaded(s, id)
    ensures SameWork(s, Run(s, lib, id, steps), id)
  {
    if steps != [] {
      RunSameWork(s, lib, id, steps[..|steps| - 1]);
      NextSameWork(Run(s, lib, id, steps[..|steps| - 1]), lib, id, steps[|steps| - 1]);
    }
  }

  /** A try moves the books as one pass over the chunks does, or not at all. */
  lemma TryIsPass(s: Importer, lib: Library, id: nat, fault: Fault)
    requires Loaded(s, id)
    ensures var s' := RunImport(s, lib, id, fault);
            s'.finance.books == if id in s.locks || fault.StorageDown? then s.finance.books
                                else Send(s.finance, JobItems(s, lib, id), CHUNK, fault).finance.books
  {
  }

  lemma StepStoresPrefix(s: Importer, mid: Importer, lib: Library, id: nat, step: Step, m: nat) returns (n: nat)
    requires SameWork(s, mid, id) && m <= |JobItems(s, lib, id)|
    requires PlacesDistinct(mid.finance.books.rows)
    requires mid.finance.books == Apply(s.finance.books, JobItems(s, lib, id)[..m])
    ensures n <= |JobItems(s, lib, id)|
    ensures Next(mid, lib, id, step).finance.books == Apply(s.finance.books, JobItems(s, lib, id)[..n])
    ensures PlacesDistinct(Next(mid, lib, id, step).finance.books.rows)
  {
    n := m;
    if step.Try? {
      TryIsPass(mid, lib, id, step.fault);
      if id !in mid.locks && !step.fault.StorageDown? {
        var items := JobItems(s, lib, id);
        var k := PassStoresPrefix(mid.finance, items, CHUNK, step.fault);
        PrefixesJoin(s.finance.books, items, m, k);
        n := if m < k then k else m;
      }
    }
  }

  lemma {:induction false} RunStoresPrefix(s: Importer, lib: Library, id: nat, steps: seq<Step>) returns (n: nat)
    requires Loaded(s, id) && PlacesDistinct(s.finance.books.rows)
    ensures n <= |JobItems(s, lib, id)|
    ensures Run(s, lib, id, steps).finance.books == Apply(s.finance.books, JobItems(s, lib, id)[..n])
    ensures PlacesDistinct(Run(s, lib, id, steps).finance.books.rows)
  {
    var items := JobItems(s, lib, id);
    if steps == [] {
      n := 0;
      assert items[..0] == [];
    } else {
      var before, step := steps[..|steps| - 1], steps[|steps| - 1];
      RunSameWork(s, lib, id, before);
      var m := RunStoresPrefix(s, lib, id, before);
      n := StepStoresPrefix(s, Run(s, lib, id, before), lib, id, step, m);
    }
  }

  predicate DatedRows(ts: seq<Transaction>) {
    forall i :: 0 <= i < |ts| ==> Dated(ts[i])
  }

  /** Whether the finance service takes the rows of a result: all have dates and none clash in their places. */
  ghost predicate Accepted(r: ParseResult, all: Books) {
    DatedRows(r.transactions) && PlacesDistinct(all.rows)
  }

  /** The counts and states of a job whose rows were sent or not. */
  predicate Recorded(end: Importer, id: nat, r: ParseResult, raised: bool) {
    && Loaded(end, id)
    && var job := end.jobs[id];
    && var file := end.files[job.fileId].status;
    && job.finished
    && (raised ==> job.status == Failed && file == Unparsed)
    && (!raised ==>
          && job.status == Verdict(r) && job.totalRows == r.totalRows
          && job.parsedRows == |r.transactions| && job.failedRows == FailedRows(r.errors)
          && file == if Verdict(r) == Failed then Unparsed else Parsed)
  }

  /**
   * How a job ends on the books `all`: if the rows are accepted they are stored and the job has the verdict
   * and counts of its parse result; otherwise it has failed.
   */
  ghost predicate EndsWith(end: Importer, id: nat, r: ParseResult, all: Books) {
    Recorded(end, id, r, !Accepted(r, all)) && (Accepted(r, all) ==> end.finance.books == all)
  }

  lemma DatedItems(importId: nat, fileId: nat, ts: seq<Transaction>)
    ensures AllDated(ItemsOf(importId, fileId, ts)) <==> DatedRows(ts)
  {
    var items := ItemsOf(importId, fileId, ts);
    assert forall i :: 0 <= i < |ts| ==> items[i].tx == ts[i];
  }

  lemma CleanTryRecords(s: Importer, lib: Library, id: nat)
    requires Loaded(s, id) && id !in s.locks
    ensures var sent := Send(s.finance, JobItems(s, lib, id), CHUNK, NoFault);
            var end := RunImport(s, lib, id, NoFault);
            end.finance.books == sent.finance.books && Recorded(end, id, ResultOf(s, lib, id), sent.raised)
  {
  }

  lemma CleanTryEnds(s: Importer, lib: Library, id: nat)
    requires Loaded(s, id) && id !in s.locks && PlacesDistinct(s.finance.books.rows)
    ensures EndsWith(RunImport(s, lib, id, NoFault), id, ResultOf(s, lib, id),
                     Apply(s.finance.books, JobItems(s, lib, id)))
  {
    CleanTryRecords(s, lib, id);
    DatedItems(id, s.jobs[id].fileId, ResultOf(s, lib, id).transactions);
    BatchingIsIrrelevant(s.finance, JobItems(s, lib, id), CHUNK);
  }

  /**
   * Crash and rerun: after any tries of a job, failed, rejected or dead at any chunk, one clean try on an
   * unlocked job ends as a single clean try at the start would have.
   */
  lemma JobConverges(s: Importer, lib: Library, id: nat, steps: seq<Step>)
    requires Loaded(s, id) && PlacesDistinct(s.finance.books.rows)
    requires id !in Run(s, lib, id, steps).locks
    ensures EndsWith(RunImport(Run(s, lib, id, steps), lib, id, NoFault), id,
                     ResultOf(s, lib, id), Apply(s.finance.books, JobItems(s, lib, id)))
  {
    var mid, items := Run(s, lib, id, steps), JobItems(s, lib, id);
    var n := RunStoresPrefix(s, lib, id, steps);
    PrefixesJoin(s.finance.books, items, n, |items|);
    assert items[..|items|] == items;
    RunSameWork(s, lib, id, steps);
    CleanTryEnds(mid, lib, id);
  }

  /**
   * No import moves the transactions without moving the data version, whatever happens to it on the way,
   * so the caches that are keyed by the version never outlive an import; and a try that ends well moves
   * the version even when every row was there already.
   */
  lemma TryMovesVersion(s: Importer, lib: Library, id: nat, fault: Fault)
    requires Loaded(s, id) && PlacesDistinct(s.finance.books.rows)
    ensures var end := RunImport(s, lib, id, fault);
            && s.finance.version <= end.finance.version
            && (|end.finance.books.rows| != |s.finance.books.rows| ==> s.finance.version < end.finance.version)
            && (id !in s.locks && end.jobs[id].status in {Completed, PartiallyCompleted} ==>
                  s.finance.version < end.finance.version)
  {
    var _ := PassStoresPrefix(s.finance, JobItems(s, lib, id), CHUNK, fault);
  }

  /**
   * The verdict of a clean try whose rows are taken: the job is completed exactly when the try stored no
   * issue, partially completed exactly when it stored one and parsed a row, and failed, with the first
   * issue as its error, exactly when it stored one and parsed none. The file counts as parsed, the end is
   * announced and the version bumped once more exactly unless the job failed.
   */
  lemma VerdictExactly(s: Importer, lib: Library, id: nat)
    requires Loaded(s, id) && id !in s.locks && !Send(s.finance, JobItems(s, lib, id), CHUNK, NoFault).raised
    ensures var end := RunImport(s, lib, id, NoFault);
            && Loaded(end, id) && s.issues <= end.issues
            && var job := end.jobs[id];
            && (job.status == Completed <==> end.issues == s.issues)
            && (job.status == PartiallyCompleted <==> end.issues != s.issues && job.parsedRows > 0)
            && (job.status == Failed <==> end.issues != s.issues && job.parsedRows == 0)
            && (job.status == Failed ==> job.error == Some(end.issues[|s.issues|].issue.code))
            && (job.status != Failed ==> job.error.None?)
            && (end.files[job.fileId].status == Parsed <==> job.status != Failed)
            && end.events == s.events + [Started(id)] + (if job.status == Failed then [] else [Finished(id)])
            && end.finance.version == Send(s.finance, JobItems(s, lib, id), CHUNK, NoFault).finance.version
                                      + (if job.status == Failed then 0 else 1)
            && end.locks == s.locks
  {
    var r := ResultOf(s, lib, id);
    var added := IssuesOf(id, r.errors);
    if r.errors != [] { assert (s.issues + added)[|s.issues|] == added[0]; }
  }

  /** A try that raises leaves the job and the file failed, says so, and keeps the issues it stored. */
  lemma RaisedTryFails(s: Importer, lib: Library, id: nat, fault: Fault)
    requires Loaded(s, id) && id !in s.locks && !fault.Dies?
    requires fault.StorageDown? || Send(s.finance, JobItems(s, lib, id), CHUNK, fault).raised
    ensures var end := RunImport(s, lib, id, fault);
            && Loaded(end, id) && end.jobs[id].status == Failed && end.jobs[id].finished && end.jobs[id].error.Some?
            && end.files[end.jobs[id].fileId].status == Unparsed
            && end.events == s.events + [Started(id)] + [Broke(id)]
            && end.issues == s.issues + (if fault.StorageDown? then [] else IssuesOf(id, ResultOf(s, lib, id).errors))
            && end.locks == s.locks
  {
  }

  /** Other jobs and files are as they were, and every issue that was added names the import. */
  predicate KeepsOthers(s: Importer, end: Importer, id: nat)
    requires id in s.jobs
  {
    && s.jobs.Keys == end.jobs.Keys && s.files.Keys == end.files.Keys
    && (forall other <- s.jobs :: other != id ==> end.jobs[other] == s.jobs[other])
    && (forall file <- s.files :: file != s.jobs[id].fileId ==> end.files[file] == s.files[file])
  }

  predicate OwnIssues(s: Importer, end: Importer, id: nat) {
    s.issues <= end.issues && forall k :: |s.issues| <= k < |end.issues| ==> end.issues[k].importId == id
  }

  lemma EndKeepsOthers(s: Importer, mid: Importer, id: nat, r: ParseResult)
    requires Loaded(s, id) && Loaded(mid, id) && mid.jobs[id].fileId == s.jobs[id].fileId && KeepsOthers(s, mid, id)
    ensures KeepsOthers(s, Break(mid, id), id) && KeepsOthers(s, Conclude(mid, id, r), id)
  {
  }

  lemma TryKeepsOthers(s: Importer, lib: Library, id: nat, fault: Fault)
    requires id in s.jobs
    ensures KeepsOthers(s, RunImport(s, lib, id, fault), id)
  {
    if Loaded(s, id) && id !in s.locks {
      var begun, r := Begin(s, id), ResultOf(s, lib, id);
      var sent := Send(s.finance, JobItems(s, lib, id), CHUNK, fault);
      EndKeepsOthers(s, begun, id, r);
      EndKeepsOthers(s, begun.(issues := s.issues + IssuesOf(id, r.errors), finance := sent.finance), id, r);
    }
  }

  lemma TryOwnsIssues(s: Importer, lib: Library, id: nat, fault: Fault)
    requires id in s.jobs
    ensures OwnIssues(s, RunImport(s, lib, id, fault), id)
  {
    if Loaded(s, id) {
      var added := IssuesOf(id, ResultOf(s, lib, id).errors);
      assert RunImport(s, lib, id, fault).issues in {s.issues, s.issues + added};
    }
  }

  /**
   * What any try touches: its own job and file only, with issues of its own. A job whose file is there is
   * started, and finished unless the process died, when it holds the lock; one whose file is gone fails and
   * nothing else happens.
   */
  lemma TryMarksItsJob(s: Importer, lib: Library, id: nat, fault: Fault)
    requires id in s.jobs && id !in s.locks
    ensures KeepsOthers(s, RunImport(s, lib, id, fault), id) && OwnIssues(s, RunImport(s, lib, id, fault), id)
    ensures var end := RunImport(s, lib, id, fault);
            var job, died := end.jobs[id], fault.Dies?;
            if Loaded(s, id)
            then job.started && (id in end.locks <==> died)
                 && (if died then job.status == Running && job.error.None? else job.finished)
            else job.status == Failed && job.finished && job.error.Some? && end == s.(jobs := end.jobs)
  {
    TryKeepsOthers(s, lib, id, fault);
    TryOwnsIssues(s, lib, id, fault);
  }

  lemma NothingSent(f: Finance, size: nat)
    requires size > 0
    ensures Send(f, [], size, NoFault) == Sent(f, 0, false)
  {
    assert CeilDiv(0, size) == 0;
  }

  /**
   * From the file to the table: a user's first import of dated rows stores as many rows as it reports as
   * parsed; what it reports adds up to the file's rows; and if it reports completion there is a stored row
   * for every non-empty row of the file. With a row that has no date it fails.
   */
  lemma FirstImportAddsUp(s: Importer, lib: Library, id: nat)
    requires Loaded(s, id) && id !in s.locks && s.finance.books.rows == map[]
    requires LibraryOk(lib)
    requires var w := s.files[s.jobs[id].fileId].content; w.Workbook? ==> DistinctNames(w.sheets)
    ensures var end := RunImport(s, lib, id, NoFault);
            && Loaded(end, id) && end.jobs[id].finished
            && (!DatedRows(ResultOf(s, lib, id).transactions) ==> end.jobs[id].status == Failed)
    ensures var end := RunImport(s, lib, id, NoFault);
            var job, stored := end.jobs[id], |end.finance.books.rows|;
            DatedRows(ResultOf(s, lib, id).transactions) ==>
              && stored == job.parsedRows <= job.totalRows <= job.parsedRows + job.failedRows
              && (job.status == Completed ==> stored == job.totalRows && job.failedRows == 0)
              && (job.status == Failed ==> stored == 0)
  {
    var w := s.files[s.jobs[id].fileId].content;
    TransactionsWithinRows(lib, w);
    TotalsBound(lib, w);
    CleanTryRecords(s, lib, id);
    DatedItems(id, s.jobs[id].fileId, ResultOf(s, lib, id).transactions);
    if w.Workbook? {
      FirstImportInsertsAll(lib, w, s.finance, id, s.jobs[id].fileId, CHUNK);
    } else {
      NothingSent(s.finance, CHUNK);
    }
  }

  lemma ChunkOf(n: nat, k: nat)
    requires k < n
    ensures Reach(n, CHUNK, k / CHUNK) == k / CHUNK * CHUNK <= k < Reach(n, CHUNK, k / CHUNK + 1)
  {
    ReachIs(n, CHUNK, k / CHUNK);
  }

  /**
   * The parser takes a time without a date and the finance service does not: a first import whose k-th row
   * is the first such row fails, and leaves exactly the rows of the full chunks before it in the table.
   */
  lemma UndatedImportFails(s: Importer, lib: Library, id: nat, k: nat)
    requires Loaded(s, id) && id !in s.locks && s.finance.books.rows == map[]
    requires LibraryOk(lib)
    requires var w := s.files[s.jobs[id].fileId].content; w.Workbook? ==> DistinctNames(w.sheets)
    requires var ts := ResultOf(s, lib, id).transactions; k < |ts| && DatedRows(ts[..k]) && !Dated(ts[k])
    ensures var end := RunImport(s, lib, id, NoFault);
            && Loaded(end, id) && end.jobs[id].status == Failed
            && |end.finance.books.rows| == k / CHUNK * CHUNK
            && forall i :: 0 <= i < k / CHUNK * CHUNK ==>
                 StoredAs(end.finance.books.rows, ResultOf(s, lib, id).transactions[i])
  {
    var w, f, fileId := s.files[s.jobs[id].fileId].content, s.finance, s.jobs[id].fileId;
    var ts, items := ResultOf(s, lib, id).transactions, JobItems(s, lib, id);
    ChunkOf(|ts|, k);
    FirstRows(lib, w, f.books.accounts, id, fileId, |ts|);
    FirstRows(lib, w, f.books.accounts, id, fileId, k / CHUNK * CHUNK);
    assert items[..|ts|] == items;
    forall i | 0 <= i < k ensures Dated(items[i].tx) { assert ts[..k][i] == ts[i]; }
    UndatedStops(f, items, CHUNK, k, k / CHUNK);
    CleanTryRecords(s, lib, id);
  }

  /** A job whose process died is turned away until its lock expires, and shows as running. */
  lemma {:induction false} DeadJobWaits(s: Importer, lib: Library, id: nat, chunk: nat, steps: seq<Step>)
    requires Loaded(s, id) && id !in s.locks && forall step <- steps :: step.Try?
    ensures var dead := RunImport(s, lib, id, Dies(chunk));
            dead.jobs[id].status == Running && Run(dead, lib, id, steps) == dead
  {
    if steps != [] {
      DeadJobWaits(s, lib, id, chunk, steps[..|steps| - 1]);
      assert steps[|steps| - 1] in steps;
    }
  }

  /* ----- stored issues ----- */

  predicate Stores(s: Importer, id: nat, step: Step) {
    step.Try? && !step.fault.StorageDown? && !step.fault.Dies? && id !in s.locks
  }

  /** Tries that get as far as storing the parse issues and commit. */
  function Storings(s: Importer, lib: Library, id: nat, steps: seq<Step>): nat {
    if steps == [] then 0
    else
      var before, last := steps[..|steps| - 1], steps[|steps| - 1];
      Storings(s, lib, id, before)
      + if Stores(Run(s, lib, id, before), id, last) then 1 else 0
  }

  function Repeat(xs: seq<StoredIssue>, k: nat): seq<StoredIssue> {
    if k == 0 then [] else Repeat(xs, k - 1) + xs
  }

  lemma NextStores(s: Importer, lib: Library, id: nat, step: Step)
    requires Loaded(s, id)
    ensures Next(s, lib, id, step).issues ==
            s.issues + if Stores(s, id, step) then IssuesOf(id, ResultOf(s, lib, id).errors) else []
  {
  }

  /** Rows are stored once, but every such try stores the file's issues again. */
  lemma {:induction false} IssuesRepeat(s: Importer, lib: Library, id: nat, steps: seq<Step>)
    requires Loaded(s, id)
    ensures Run(s, lib, id, steps).issues ==
            s.issues + Repeat(IssuesOf(id, ResultOf(s, lib, id).errors), Storings(s, lib, id, steps))
  {
    if steps != [] {
      var before, mid := steps[..|steps| - 1], Run(s, lib, id, steps[..|steps| - 1]);
      IssuesRepeat(s, lib, id, before);
      assert Loaded(mid, id) && ResultOf(mid, lib, id) == ResultOf(s, lib, id) by { RunSameWork(s, lib, id, before); }
      NextStores(mid, lib, id, steps[|steps| - 1]);
    }
  }
}
