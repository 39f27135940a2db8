/**
 * When an import fits into the table: rows of parsed files never clash with each other, whatever their jobs
 * go through; a transaction created by hand can block a file for good.
 */
module ImportFiles {
  import opened Wrappers
  import opened SheetParser
  import opened SheetAccounts
  import opened ImportTable
  import opened ImportRuns
  import opened ImportJobs

  /* ----- exactly when rows fit ----- */

  /** A row's key is there already, or its place is free. */
  predicate Fits(t: map<string, Row>, item: Item) {
    item.tx.dedupeKey in t || !Taken(t, PlaceOf(Row(item, None)))
  }

  predicate AllFit(t: map<string, Row>, items: seq<Item>) {
    forall i :: 0 <= i < |items| ==> Fits(t, items[i])
  }

  lemma {:induction false} FirstIsMember(rows: seq<Row>, key: string)
    ensures FirstWith(rows, key).Some? ==> FirstWith(rows, key).value in rows
    ensures FirstWith(rows, key).Some? ==> FirstWith(rows, key).value.item.tx.dedupeKey == key
  {
    if rows != [] {
      FirstIsMember(rows[..|rows| - 1], key);
      assert rows == rows[..|rows| - 1] + [rows[|rows| - 1]];
    }
  }

  lemma {:induction false} NewKeyAbsent(rows: seq<Row>, key: string)
    requires forall i :: 0 <= i < |rows| ==> rows[i].item.tx.dedupeKey != key
    ensures FirstWith(rows, key).None?
  {
    FirstIsMember(rows, key);
  }

  /** Rows at other places and with other keys do not matter for the next one. */
  lemma MergeLeavesFree(t: map<string, Row>, before: seq<Row>, last: Row)
    requires AllNew(before + [last])
    ensures last.item.tx.dedupeKey in Merge(t, before) <==> last.item.tx.dedupeKey in t
    ensures Taken(Merge(t, before), PlaceOf(last)) <==>
            exists key <- t :: PlaceOf(t[key]) == PlaceOf(last)
  {
    var rows, key, t' := before + [last], last.item.tx.dedupeKey, Merge(t, before);
    forall i | 0 <= i < |before|
      ensures before[i].item.tx.dedupeKey != key && PlaceOf(before[i]) != PlaceOf(last)
    {
      assert rows[i] == before[i] && rows[|before|] == last;
    }
    NewKeyAbsent(before, key);
    MergeLookup(t, before, key);
    if other :| other in t' && PlaceOf(t'[other]) == PlaceOf(last) {
      MergeLookup(t, before, other);
      FirstIsMember(before, other);
      assert other in t;
    }
    if other :| other in t && PlaceOf(t[other]) == PlaceOf(last) {
      MergeLookup(t, before, other);
      assert PlaceOf(t'[other]) == PlaceOf(last);
    }
  }

  lemma PlaceIsOfItem(t: map<string, Row>, r: Row)
    ensures Fits(t, r.item) <==> r.item.tx.dedupeKey in t || !Taken(t, PlaceOf(r))
  {
    assert PlaceOf(Row(r.item, None)) == PlaceOf(r);
  }

  /** Rows with keys and places of their own fit together exactly when each of them fits. */
  lemma {:induction false} MergeFits(t: map<string, Row>, rows: seq<Row>)
    requires PlacesDistinct(t) && AllNew(rows)
    ensures PlacesDistinct(Merge(t, rows)) <==> forall i :: 0 <= i < |rows| ==> Fits(t, rows[i].item)
  {
    if rows != [] {
      var before, last := rows[..|rows| - 1], rows[|rows| - 1];
      assert rows == before + [last];
      AllNewPrefix(rows, |before|);
      MergeFits(t, before);
      MergeLeavesFree(t, before, last);
      PlaceIsOfItem(t, last);
      if PlacesDistinct(Merge(t, before)) {
        KeepPlaces(Merge(t, before), last);
      } else if PlacesDistinct(Merge(t, rows)) {
        ExtensionPlaces(Merge(t, before), Merge(t, rows));
      }
    }
  }

  /** The items of a parsed file are accepted exactly when each of them fits. */
  lemma ImportFits(lib: Library, w: Workbook, b: Books, importId: nat, fileId: nat)
    requires LibraryOk(lib) && (w.Workbook? ==> DistinctNames(w.sheets)) && PlacesDistinct(b.rows)
    ensures var items := ItemsOf(importId, fileId, Parse(lib, w, true).transactions);
            PlacesDistinct(Apply(b, items).rows) <==> AllFit(b.rows, items)
  {
    var items := ItemsOf(importId, fileId, Parse(lib, w, true).transactions);
    var rows := PrepareAll(b.accounts, items).1;
    if w.Workbook? {
      ParsedRowsAreNew(lib, w, b.accounts, importId, fileId);
      MergeFits(b.rows, rows);
      assert forall i :: 0 <= i < |rows| ==> rows[i].item == items[i];
    }
  }

  /**
   * Exactly how a job ends, whatever tries came before: a clean try on an unlocked job stores the file and
   * gives the verdict and counts of the parse if and only if every row has its dates and, when the job
   * started, had its key stored or its place free; otherwise the job has failed.
   */
  lemma JobEndsExactly(s: Importer, lib: Library, id: nat, steps: seq<Step>)
    requires Loaded(s, id) && PlacesDistinct(s.finance.books.rows) && LibraryOk(lib)
    requires var w := s.files[s.jobs[id].fileId].content; w.Workbook? ==> DistinctNames(w.sheets)
    requires id !in Run(s, lib, id, steps).locks
    ensures var end := RunImport(Run(s, lib, id, steps), lib, id, NoFault);
            var r, items := ResultOf(s, lib, id), JobItems(s, lib, id);
            var accepted := DatedRows(r.transactions) && AllFit(s.finance.books.rows, items);
            && Recorded(end, id, r, !accepted)
            && (accepted ==> end.finance.books == Apply(s.finance.books, items))
  {
    JobConverges(s, lib, id, steps);
    ImportFits(lib, s.files[s.jobs[id].fileId].content, s.finance.books, id, s.jobs[id].fileId);
  }

  /* ----- a hand-made row in the way ----- */

  /**
   * A transaction created by hand at the place of a file's row, under another key, is accepted by an empty
   * table; from then on no try of the file's job ends well.
   */
  lemma HandMadeRowBlocks(s: Importer, lib: Library, id: nat, k: nat, d: Draft, steps: seq<Step>)
    requires Loaded(s, id) && s.finance.books.rows == map[] && LibraryOk(lib)
    requires var w := s.files[s.jobs[id].fileId].content; w.Workbook? ==> DistinctNames(w.sheets)
    requires k < |JobItems(s, lib, id)|
    requires var item := JobItems(s, lib, id)[k];
             && d.complete && d.account.None? && Dated(d.item.tx)
             && PlaceOf(Row(d.item, None)) == PlaceOf(Row(item, None)) && Keyed(d).tx.dedupeKey != item.tx.dedupeKey
    ensures CreateOne(s.finance, d).Some?
    ensures var s' := s.(finance := CreateOne(s.finance, d).value);
            id !in Run(s', lib, id, steps).locks ==>
              var end := RunImport(Run(s', lib, id, steps), lib, id, NoFault);
              Loaded(end, id) && end.jobs[id].status == Failed
  {
    var row := PrepareDraft(s.finance.books.accounts, d).1.value;
    var item := JobItems(s, lib, id)[k];
    assert PlaceOf(row) == PlaceOf(Row(item, None));
    var f := CreateOne(s.finance, d).value;
    var s' := s.(finance := f);
    var key := row.item.tx.dedupeKey;
    assert f.books.rows == map[key := row];
    assert Taken(f.books.rows, PlaceOf(Row(item, None))) by { assert PlaceOf(f.books.rows[key]) == PlaceOf(row); }
    assert !Fits(f.books.rows, item);
    if id !in Run(s', lib, id, steps).locks {
      JobEndsExactly(s', lib, id, steps);
    }
  }

  /* ----- tables filled by imports ----- */

  /** The row is a parsed row of the file it names. */
  predicate FileRow(lib: Library, files: map<nat, UploadedFile>, item: Item) {
    && item.fileId in files
    && item.tx in Parse(lib, files[item.fileId].content, true).transactions
  }

  predicate FromFiles(lib: Library, files: map<nat, UploadedFile>, t: map<string, Row>) {
    forall key <- t :: t[key].item.tx.dedupeKey == key && FileRow(lib, files, t[key].item)
  }

  predicate FilesOk(files: map<nat, UploadedFile>) {
    forall id <- files :: files[id].content.Workbook? ==> DistinctNames(files[id].content.sheets)
  }

  /** In a parsed file the position determines the transaction. */
  lemma PositionDetermines(lib: Library, w: Workbook, a: Transaction, b: Transaction)
    requires LibraryOk(lib) && (w.Workbook? ==> DistinctNames(w.sheets))
    requires a in Parse(lib, w, true).transactions && b in Parse(lib, w, true).transactions
    requires a.sheet == b.sheet && a.row == b.row
    ensures a == b
  {
    var ts := Parse(lib, w, true).transactions;
    var i, j :| 0 <= i < |ts| && 0 <= j < |ts| && ts[i] == a && ts[j] == b;
    if i < j { KeysDistinct(lib, w, i, j); } else if j < i { KeysDistinct(lib, w, j, i); }
  }

  /** A table that holds rows of files only has no two in one place. */
  lemma FilesNeverClash(lib: Library, files: map<nat, UploadedFile>, t: map<string, Row>)
    requires LibraryOk(lib) && FilesOk(files) && FromFiles(lib, files, t)
    ensures PlacesDistinct(t)
  {
    forall a, b ensures Apart(t, a, b) {
      if a in t && b in t && PlaceOf(t[a]) == PlaceOf(t[b]) {
        var file := t[a].item.fileId;
        PositionDetermines(lib, files[file].content, t[a].item.tx, t[b].item.tx);
      }
    }
  }

  lemma {:induction false} MergeFromFiles(lib: Library, files: map<nat, UploadedFile>, t: map<string, Row>,
                                          rows: seq<Row>)
    requires FromFiles(lib, files, t) && forall i :: 0 <= i < |rows| ==> FileRow(lib, files, rows[i].item)
    ensures FromFiles(lib, files, Merge(t, rows))
  {
    if rows != [] { MergeFromFiles(lib, files, t, rows[..|rows| - 1]); }
  }

  /* ----- every history of uploads and jobs ----- */

  /** An upload stores a file it has not seen and queues a job for it; jobs are then tried in any order. */
  datatype Action = Upload(job: nat, file: nat, content: Workbook) | Work(job: nat, step: Step)

  function Do(s: Importer, lib: Library, a: Action): Importer {
    match a
    case Upload(id, file, content) =>
      if id in s.jobs then s
      else
        s.(files := if file in s.files then s.files else s.files[file := UploadedFile(Uploaded, content)],
           jobs := s.jobs[id := Job(file, Queued, false, false, None, 0, 0, 0)])
    case Work(id, step) => Next(s, lib, id, step)
  }

  const NO_IMPORTS := Importer(map[], map[], [], {}, [], Finance(Books(map[], []), 0))

  function History(lib: Library, actions: seq<Action>): Importer {
    if actions == [] then NO_IMPORTS
    else Do(History(lib, actions[..|actions| - 1]), lib, actions[|actions| - 1])
  }

  predicate NamesDistinct(a: Action) {
    a.Upload? && a.content.Workbook? ==> DistinctNames(a.content.sheets)
  }

  /** A later state has every file, with its content. */
  predicate ContentsStay(files: map<nat, UploadedFile>, files': map<nat, UploadedFile>) {
    forall id <- files :: id in files' && files'[id].content == files[id].content
  }

  lemma RowsStayFromFiles(lib: Library, files: map<nat, UploadedFile>, files': map<nat, UploadedFile>,
                          t: map<string, Row>)
    requires FromFiles(lib, files, t) && ContentsStay(files, files')
    ensures FromFiles(lib, files', t)
  {
  }

  /** A try changes no file but the status of its own. */
  lemma TryKeepsFiles(s: Importer, lib: Library, id: nat, fault: Fault) returns (status: FileStatus)
    requires Loaded(s, id)
    ensures var file := s.jobs[id].fileId;
            RunImport(s, lib, id, fault).files == s.files[file := s.files[file].(status := status)]
  {
    var file := s.jobs[id].fileId;
    status := RunImport(s, lib, id, fault).files[file].status;
  }

  lemma WorkKeepsContents(s: Importer, lib: Library, id: nat, step: Step)
    ensures var s' := Next(s, lib, id, step);
            ContentsStay(s.files, s'.files) && s'.files.Keys == s.files.Keys
  {
    if step.Try? && Loaded(s, id) { var _ := TryKeepsFiles(s, lib, id, step.fault); }
  }

  lemma WorkKeepsFromFiles(s: Importer, lib: Library, id: nat, step: Step)
    requires LibraryOk(lib) && FilesOk(s.files) && FromFiles(lib, s.files, s.finance.books.rows)
    ensures FromFiles(lib, s.files, Next(s, lib, id, step).finance.books.rows)
  {
    if Loaded(s, id) {
      var items := JobItems(s, lib, id);
      FilesNeverClash(lib, s.files, s.finance.books.rows);
      assert items[..0] == [];
      var n := StepStoresPrefix(s, s, lib, id, step, 0);
      var rows := PrepareAll(s.finance.books.accounts, items[..n]).1;
      forall i | 0 <= i < n ensures FileRow(lib, s.files, rows[i].item) {
        assert rows[i].item == items[i];
      }
      MergeFromFiles(lib, s.files, s.finance.books.rows, rows);
    }
  }

  lemma DoKeepsFromFiles(s: Importer, lib: Library, a: Action)
    requires LibraryOk(lib) && FilesOk(s.files) && FromFiles(lib, s.files, s.finance.books.rows) && NamesDistinct(a)
    ensures var s' := Do(s, lib, a); FilesOk(s'.files) && FromFiles(lib, s'.files, s'.finance.books.rows)
  {
    var s' := Do(s, lib, a);
    if a.Work? {
      WorkKeepsContents(s, lib, a.job, a.step);
      WorkKeepsFromFiles(s, lib, a.job, a.step);
    }
    RowsStayFromFiles(lib, s.files, s'.files, s'.finance.books.rows);
  }

  /**
   * Over every history of uploads, tries, deaths and reruns of any number of files and jobs, the table holds
   * rows of the files only, and no two of them clash.
   */
  lemma {:induction false} ImportsNeverClash(lib: Library, actions: seq<Action>)
    requires LibraryOk(lib) && forall a <- actions :: NamesDistinct(a)
    ensures var s := History(lib, actions);
            && FilesOk(s.files) && FromFiles(lib, s.files, s.finance.books.rows)
            && PlacesDistinct(s.finance.books.rows)
  {
    if actions != [] {
      var before, last := actions[..|actions| - 1], actions[|actions| - 1];
      ImportsNeverClash(lib, before);
      assert last in actions;
      DoKeepsFromFiles(History(lib, before), lib, last);
    }
    var s := History(lib, actions);
    FilesNeverClash(lib, s.files, s.finance.books.rows);
  }

  /** Every row of a file fits into a table of such rows. */
  lemma FileRowsFit(s: Importer, lib: Library, id: nat)
    requires Loaded(s, id) && LibraryOk(lib) && FilesOk(s.files) && FromFiles(lib, s.files, s.finance.books.rows)
    ensures AllFit(s.finance.books.rows, JobItems(s, lib, id))
  {
    var t, items := s.finance.books.rows, JobItems(s, lib, id);
    forall i | 0 <= i < |items| ensures Fits(t, items[i]) {
      if other :| other in t && PlaceOf(t[other]) == PlaceOf(Row(items[i], None)) {
        PositionDetermines(lib, s.files[items[i].fileId].content, t[other].item.tx, items[i].tx);
      }
    }
  }

  /**
   * After every such history, and then any tries of a job, a clean try on the unlocked job stores its file
   * and has the verdict and counts of the parse if and only if every row has its dates.
   */
  lemma JobsAlwaysEnd(lib: Library, actions: seq<Action>, id: nat, steps: seq<Step>)
    requires LibraryOk(lib) && (forall a <- actions :: NamesDistinct(a)) && Loaded(History(lib, actions), id)
    requires id !in Run(History(lib, actions), lib, id, steps).locks
    ensures var s := History(lib, actions);
            var end, r := RunImport(Run(s, lib, id, steps), lib, id, NoFault), ResultOf(s, lib, id);
            && Recorded(end, id, r, !DatedRows(r.transactions))
            && (DatedRows(r.transactions) ==> end.finance.books == Apply(s.finance.books, JobItems(s, lib, id)))
  {
    var s := History(lib, actions);
    ImportsNeverClash(lib, actions);
    FileRowsFit(s, lib, id);
    JobEndsExactly(s, lib, id, steps);
  }

  lemma CleanSendTaken(s: Importer, lib: Library, id: nat)
    requires Loaded(s, id) && LibraryOk(lib) && FilesOk(s.files) && FromFiles(lib, s.files, s.finance.books.rows)
    ensures Send(s.finance, JobItems(s, lib, id), CHUNK, NoFault).raised <==>
            !DatedRows(ResultOf(s, lib, id).transactions)
  {
    var items := JobItems(s, lib, id);
    FilesNeverClash(lib, s.files, s.finance.books.rows);
    FileRowsFit(s, lib, id);
    ImportFits(lib, s.files[s.jobs[id].fileId].content, s.finance.books, id, s.jobs[id].fileId);
    BatchingIsIrrelevant(s.finance, items, CHUNK);
    DatedItems(id, s.jobs[id].fileId, ResultOf(s, lib, id).transactions);
  }

  /**
   * After every history of uploads, tries and deaths, a clean try on an unlocked job completes it exactly when
   * every row has its dates and the try stores no issue, completes it in part exactly when every row has its
   * dates, an issue is stored and a row was parsed, and otherwise fails it.
   */
  lemma HistoryVerdict(lib: Library, actions: seq<Action>, id: nat)
    requires LibraryOk(lib) && forall a <- actions :: NamesDistinct(a)
    requires Loaded(History(lib, actions), id) && id !in History(lib, actions).locks
    ensures var s := History(lib, actions);
            var end, ts := RunImport(s, lib, id, NoFault), ResultOf(s, lib, id).transactions;
            && Loaded(end, id)
            && (end.jobs[id].status == Completed <==> DatedRows(ts) && end.issues == s.issues)
            && (end.jobs[id].status == PartiallyCompleted <==> DatedRows(ts) && end.issues != s.issues && ts != [])
            && (end.jobs[id].status == Failed <==> !DatedRows(ts) || (end.issues != s.issues && ts == []))
  {
    var s := History(lib, actions);
    ImportsNeverClash(lib, actions);
    CleanSendTaken(s, lib, id);
    CleanTryRecords(s, lib, id);
    if DatedRows(ResultOf(s, lib, id).transactions) {
      VerdictExactly(s, lib, id);
    } else {
      RaisedTryFails(s, lib, id, NoFault);
    }
  }
}
