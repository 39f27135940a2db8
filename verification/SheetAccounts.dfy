/** No row of an accepted sheet is silently lost, the counters add up, and keys do not collide. */
module SheetAccounts {
  import opened Wrappers
  import opened DedupeKey
  import opened SheetParser

  /* ----- what a result says about one row ----- */

  function TxAt(ts: seq<Transaction>, sheet: string, n: nat): nat {
    if ts == [] then 0
    else
      var last := ts[|ts| - 1];
      TxAt(ts[..|ts| - 1], sheet, n) + if last.sheet == sheet && last.row == n then 1 else 0
  }

  function IssuesAt(es: seq<Issue>, sheet: string, n: nat): nat {
    if es == [] then 0
    else
      var last := es[|es| - 1];
      IssuesAt(es[..|es| - 1], sheet, n) + if last.sheet == Some(sheet) && last.row == Some(n) then 1 else 0
  }

  lemma {:induction false} IssuesConcat(a: seq<Issue>, b: seq<Issue>, sheet: string, n: nat)
    ensures IssuesAt(a + b, sheet, n) == IssuesAt(a, sheet, n) + IssuesAt(b, sheet, n)
    ensures FailedRows(a + b) == FailedRows(a) + FailedRows(b)
  {
    if b == [] {
      assert a + b == a;
    } else {
      IssuesConcat(a, b[..|b| - 1], sheet, n);
      assert (a + b)[..|a + b| - 1] == a + b[..|b| - 1];
    }
  }

  lemma TxAppend(ts: seq<Transaction>, t: Transaction, sheet: string, n: nat)
    ensures TxAt(ts + [t], sheet, n) == TxAt(ts, sheet, n) + if t.sheet == sheet && t.row == n then 1 else 0
  {
  }

  predicate AllAbout(es: seq<Issue>, sheet: string, n: nat) {
    forall i :: 0 <= i < |es| ==> es[i].sheet == Some(sheet) && es[i].row == Some(n)
  }

  lemma {:induction false} AboutCounts(es: seq<Issue>, sheet: string, n: nat, sheet': string, n': nat)
    requires AllAbout(es, sheet, n)
    ensures IssuesAt(es, sheet', n') == if sheet' == sheet && n' == n then |es| else 0
    ensures FailedRows(es) == |es|
  {
    if es != [] { AboutCounts(es[..|es| - 1], sheet, n, sheet', n'); }
  }

  lemma AboutConcat(a: seq<Issue>, b: seq<Issue>, sheet: string, n: nat)
    requires AllAbout(a, sheet, n) && AllAbout(b, sheet, n)
    ensures AllAbout(a + b, sheet, n)
  {
  }

  lemma RowIssuesAbout(lib: Library, sheet: string, n: nat, row: seq<Cell>)
    ensures AllAbout(RowIssues(lib, sheet, n, row), sheet, n)
  {
    var a, b := ReadDate(lib, At(row, 0), 0, sheet, n, true).1, ReadDate(lib, At(row, 1), 1, sheet, n, false).1;
    var c, d := ReadMoney(lib, At(row, 4), 4, sheet, n, true).1, ReadMoney(lib, At(row, 6), 6, sheet, n, false).1;
    var e, f := ReadMoney(lib, At(row, 8), 8, sheet, n, false).1, ReadMoney(lib, At(row, 12), 12, sheet, n, false).1;
    var g, h := ReadMoney(lib, At(row, 13), 13, sheet, n, false).1, ReadMoney(lib, At(row, 14), 14, sheet, n, false).1;
    AboutConcat(a, b, sheet, n);
    AboutConcat(a + b, c, sheet, n);
    AboutConcat(a + b + c, d, sheet, n);
    AboutConcat(a + b + c + d, e, sheet, n);
    AboutConcat(a + b + c + d + e, f, sheet, n);
    AboutConcat(a + b + c + d + e + f, g, sheet, n);
    AboutConcat(a + b + c + d + e + f + g, h, sheet, n);
  }

  /* ----- one row ----- */

  function RowTx(lib: Library, sheet: string, n: nat, row: seq<Cell>): nat {
    if !EmptyRow(row) && NormalizeRow(lib, sheet, n, row).0.Some? then 1 else 0
  }

  function RowFaults(lib: Library, sheet: string, n: nat, row: seq<Cell>): nat {
    if EmptyRow(row) then 0 else |NormalizeRow(lib, sheet, n, row).1|
  }

  /** A row that holds anything gives a transaction and no issue, or issues and no transaction. */
  lemma EitherOr(lib: Library, sheet: string, n: nat, row: seq<Cell>)
    ensures EmptyRow(row) ==> RowTx(lib, sheet, n, row) == 0 == RowFaults(lib, sheet, n, row)
    ensures !EmptyRow(row) ==> (RowTx(lib, sheet, n, row) == 1 <==> RowFaults(lib, sheet, n, row) == 0)
  {
  }

  lemma AddRowCounts(lib: Library, r: ParseResult, sheet: string, n: nat, row: seq<Cell>, sheet': string, n': nat)
    ensures var r' := AddRow(lib, r, sheet, n, row);
            var mine := sheet' == sheet && n' == n;
            && TxAt(r'.transactions, sheet', n') ==
               TxAt(r.transactions, sheet', n') + (if mine then RowTx(lib, sheet, n, row) else 0)
            && IssuesAt(r'.errors, sheet', n') ==
               IssuesAt(r.errors, sheet', n') + (if mine then RowFaults(lib, sheet, n, row) else 0)
            && |r'.transactions| == |r.transactions| + RowTx(lib, sheet, n, row)
            && FailedRows(r'.errors) == FailedRows(r.errors) + RowFaults(lib, sheet, n, row)
            && r'.totalRows == r.totalRows + if EmptyRow(row) then 0 else 1
  {
    if !EmptyRow(row) {
      var (t, issues) := NormalizeRow(lib, sheet, n, row);
      EitherOr(lib, sheet, n, row);
      if issues != [] {
        RowIssuesAbout(lib, sheet, n, row);
        AboutCounts(issues, sheet, n, sheet', n');
        IssuesConcat(r.errors, issues, sheet', n');
      } else {
        TxAppend(r.transactions, t.value, sheet', n');
      }
    }
  }

  /* ----- the rows of one sheet ----- */

  function PartTx(lib: Library, sheet: string, rows: seq<seq<Cell>>, sheet': string, n': nat): nat {
    if sheet' == sheet && 2 <= n' < |rows| + 2 then RowTx(lib, sheet, n', rows[n' - 2]) else 0
  }

  function PartFaults(lib: Library, sheet: string, rows: seq<seq<Cell>>, sheet': string, n': nat): nat {
    if sheet' == sheet && 2 <= n' < |rows| + 2 then RowFaults(lib, sheet, n', rows[n' - 2]) else 0
  }

  lemma PartStep(lib: Library, sheet: string, rows: seq<seq<Cell>>, sheet': string, n': nat)
    requires rows != []
    ensures var k, mine := |rows| - 1, sheet' == sheet && n' == |rows| + 1;
            && PartTx(lib, sheet, rows, sheet', n') ==
               PartTx(lib, sheet, rows[..k], sheet', n') + (if mine then RowTx(lib, sheet, |rows| + 1, rows[k]) else 0)
            && PartFaults(lib, sheet, rows, sheet', n') ==
               PartFaults(lib, sheet, rows[..k], sheet', n')
               + if mine then RowFaults(lib, sheet, |rows| + 1, rows[k]) else 0
  {
  }

  lemma {:induction false} AddRowsCounts(lib: Library, r: ParseResult, sheet: string, rows: seq<seq<Cell>>,
                                         sheet': string, n': nat)
    ensures var r' := AddRows(lib, r, sheet, rows);
            && TxAt(r'.transactions, sheet', n')
               == TxAt(r.transactions, sheet', n') + PartTx(lib, sheet, rows, sheet', n')
            && IssuesAt(r'.errors, sheet', n')
               == IssuesAt(r.errors, sheet', n') + PartFaults(lib, sheet, rows, sheet', n')
  {
    if rows != [] {
      var k := |rows| - 1;
      AddRowsCounts(lib, r, sheet, rows[..k], sheet', n');
      PartStep(lib, sheet, rows, sheet', n');
      AddRowCounts(lib, AddRows(lib, r, sheet, rows[..k]), sheet, |rows| + 1, rows[k], sheet', n');
    }
  }

  /* ----- the sheets of a workbook ----- */

  predicate DistinctNames(sheets: seq<Sheet>) {
    forall i, j :: 0 <= i < j < |sheets| ==> sheets[i].name != sheets[j].name
  }

  lemma {:induction false} MatchingDistinct(lib: Library, sheets: seq<Sheet>)
    requires DistinctNames(sheets)
    ensures DistinctNames(Matching(lib, sheets))
    ensures forall s <- Matching(lib, sheets) :: s in sheets && SheetMatches(lib.digit, s.name)
  {
    if sheets != [] {
      var before := sheets[..|sheets| - 1];
      MatchingDistinct(lib, before);
      forall s <- Matching(lib, before) ensures s.name != sheets[|sheets| - 1].name {
        assert s in before;
      }
    }
  }

  /** What one sheet gives for a row number: nothing if its header is not supported. */
  function SheetTx(lib: Library, s: Sheet, sheet: string, n: nat): nat {
    if HeaderOk(lib, s.header) then PartTx(lib, s.name, s.rows, sheet, n) else 0
  }

  function SheetFaults(lib: Library, s: Sheet, sheet: string, n: nat): nat {
    if HeaderOk(lib, s.header) then PartFaults(lib, s.name, s.rows, sheet, n) else 0
  }

  function SheetsTx(lib: Library, sheets: seq<Sheet>, sheet: string, n: nat): nat {
    if sheets == [] then 0
    else SheetsTx(lib, sheets[..|sheets| - 1], sheet, n) + SheetTx(lib, sheets[|sheets| - 1], sheet, n)
  }

  function SheetsFaults(lib: Library, sheets: seq<Sheet>, sheet: string, n: nat): nat {
    if sheets == [] then 0
    else SheetsFaults(lib, sheets[..|sheets| - 1], sheet, n) + SheetFaults(lib, sheets[|sheets| - 1], sheet, n)
  }

  lemma AddSheetCounts(lib: Library, r: ParseResult, s: Sheet, sheet: string, n: nat)
    requires n >= 2
    ensures var r' := AddSheet(lib, r, s, true);
            && TxAt(r'.transactions, sheet, n) == TxAt(r.transactions, sheet, n) + SheetTx(lib, s, sheet, n)
            && IssuesAt(r'.errors, sheet, n) == IssuesAt(r.errors, sheet, n) + SheetFaults(lib, s, sheet, n)
  {
    if HeaderOk(lib, s.header) {
      AddRowsCounts(lib, r, s.name, s.rows, sheet, n);
    } else {
      var e := Issue(Some(s.name), Some(1), None, "unsupported_header");
      assert (r.errors + [e])[..|r.errors|] == r.errors;
    }
  }

  lemma {:induction false} AddSheetsCounts(lib: Library, r: ParseResult, sheets: seq<Sheet>, sheet: string, n: nat)
    requires r.transactions == [] && r.errors == [] && n >= 2
    ensures TxAt(AddSheets(lib, r, sheets, true).transactions, sheet, n) == SheetsTx(lib, sheets, sheet, n)
    ensures IssuesAt(AddSheets(lib, r, sheets, true).errors, sheet, n) == SheetsFaults(lib, sheets, sheet, n)
  {
    if sheets != [] {
      var before, last := sheets[..|sheets| - 1], sheets[|sheets| - 1];
      AddSheetsCounts(lib, r, before, sheet, n);
      AddSheetCounts(lib, AddSheets(lib, r, before, true), last, sheet, n);
    }
  }

  /** Sheets that do not have the row contribute nothing to it. */
  lemma {:induction false} OtherSheets(lib: Library, sheets: seq<Sheet>, sheet: string, n: nat)
    requires forall k :: 0 <= k < |sheets| && sheets[k].name == sheet ==>
      !HeaderOk(lib, sheets[k].header) || n < 2 || n >= |sheets[k].rows| + 2
    ensures SheetsTx(lib, sheets, sheet, n) == 0 == SheetsFaults(lib, sheets, sheet, n)
  {
    if sheets != [] { OtherSheets(lib, sheets[..|sheets| - 1], sheet, n); }
  }

  /** With distinct names only one sheet contributes. */
  lemma {:induction false} OwnSheet(lib: Library, sheets: seq<Sheet>, k: nat, n: nat)
    requires k < |sheets| && DistinctNames(sheets)
    ensures SheetsTx(lib, sheets, sheets[k].name, n) == SheetTx(lib, sheets[k], sheets[k].name, n)
    ensures SheetsFaults(lib, sheets, sheets[k].name, n) == SheetFaults(lib, sheets[k], sheets[k].name, n)
  {
    var before := sheets[..|sheets| - 1];
    if k == |before| {
      OtherSheets(lib, before, sheets[k].name, n);
    } else {
      OwnSheet(lib, before, k, n);
    }
  }

  /** An empty row leaves no trace; any other leaves one transaction and no issue, or issues only. */
  predicate Accounted(empty: bool, found: nat, faults: nat) {
    if empty then found == 0 && faults == 0 else (found == 1 && faults == 0) || (found == 0 && faults >= 1)
  }

  lemma SheetAccounted(lib: Library, s: Sheet, i: nat)
    requires i < |s.rows| && HeaderOk(lib, s.header)
    ensures Accounted(EmptyRow(s.rows[i]), SheetTx(lib, s, s.name, i + 2), SheetFaults(lib, s, s.name, i + 2))
  {
    EitherOr(lib, s.name, i + 2, s.rows[i]);
  }

  lemma SheetsAccounted(lib: Library, r: ParseResult, sheets: seq<Sheet>, j: nat, i: nat)
    requires r.transactions == [] && r.errors == [] && DistinctNames(sheets)
    requires j < |sheets| && HeaderOk(lib, sheets[j].header) && i < |sheets[j].rows|
    ensures var r', s := AddSheets(lib, r, sheets, true), sheets[j];
            Accounted(EmptyRow(s.rows[i]), TxAt(r'.transactions, s.name, i + 2), IssuesAt(r'.errors, s.name, i + 2))
  {
    AddSheetsCounts(lib, r, sheets, sheets[j].name, i + 2);
    OwnSheet(lib, sheets, j, i + 2);
    SheetAccounted(lib, sheets[j], i);
  }

  /**
   * No row is silently lost: in an accepted sheet, row number i + 2 has exactly one transaction and no
   * issue, or no transaction and at least one issue, unless it is empty and has neither.
   */
  lemma NoRowLost(lib: Library, w: Workbook, j: nat, i: nat)
    requires w.Workbook? && DistinctNames(w.sheets)
    requires j < |Matching(lib, w.sheets)| && HeaderOk(lib, Matching(lib, w.sheets)[j].header)
    requires i < |Matching(lib, w.sheets)[j].rows|
    ensures var r, s := Parse(lib, w, true), Matching(lib, w.sheets)[j];
            Accounted(EmptyRow(s.rows[i]), TxAt(r.transactions, s.name, i + 2), IssuesAt(r.errors, s.name, i + 2))
  {
    var sheets := Matching(lib, w.sheets);
    MatchingDistinct(lib, w.sheets);
    SheetsAccounted(lib, ParseResult(Names(sheets), 0, [], []), sheets, j, i);
  }

  /** And nothing is made up: a row number that no accepted sheet has carries no transaction and no issue. */
  lemma NothingInvented(lib: Library, w: Workbook, sheet: string, n: nat)
    requires w.Workbook? && n >= 2
    requires forall k :: 0 <= k < |Matching(lib, w.sheets)| && Matching(lib, w.sheets)[k].name == sheet ==>
      !HeaderOk(lib, Matching(lib, w.sheets)[k].header) || n >= |Matching(lib, w.sheets)[k].rows| + 2
    ensures var r := Parse(lib, w, true); TxAt(r.transactions, sheet, n) == 0 == IssuesAt(r.errors, sheet, n)
  {
    var sheets := Matching(lib, w.sheets);
    AddSheetsCounts(lib, ParseResult(Names(sheets), 0, [], []), sheets, sheet, n);
    OtherSheets(lib, sheets, sheet, n);
  }

  /* ----- the counters ----- */

  /** By how much transactions and row errors together exceed the rows. */
  function RowSurplus(lib: Library, sheet: string, rows: seq<seq<Cell>>): nat {
    if rows == [] then 0
    else
      var faults := RowFaults(lib, sheet, |rows| + 1, rows[|rows| - 1]);
      RowSurplus(lib, sheet, rows[..|rows| - 1]) + if faults > 1 then faults - 1 else 0
  }

  function Surplus(lib: Library, sheets: seq<Sheet>): nat {
    if sheets == [] then 0
    else
      var last := sheets[|sheets| - 1];
      Surplus(lib, sheets[..|sheets| - 1])
      + if HeaderOk(lib, last.header) then RowSurplus(lib, last.name, last.rows) else 1
  }

  lemma {:induction false} AddRowsTotals(lib: Library, r: ParseResult, sheet: string, rows: seq<seq<Cell>>)
    ensures var r' := AddRows(lib, r, sheet, rows);
            |r'.transactions| + FailedRows(r'.errors) - r'.totalRows ==
            |r.transactions| + FailedRows(r.errors) - r.totalRows + RowSurplus(lib, sheet, rows)
  {
    if rows != [] {
      var k := |rows| - 1;
      AddRowsTotals(lib, r, sheet, rows[..k]);
      AddRowCounts(lib, AddRows(lib, r, sheet, rows[..k]), sheet, |rows| + 1, rows[k], sheet, 0);
      EitherOr(lib, sheet, |rows| + 1, rows[k]);
    }
  }

  lemma {:induction false} AddSheetsTotals(lib: Library, r: ParseResult, sheets: seq<Sheet>)
    ensures var r' := AddSheets(lib, r, sheets, true);
            |r'.transactions| + FailedRows(r'.errors) - r'.totalRows ==
            |r.transactions| + FailedRows(r.errors) - r.totalRows + Surplus(lib, sheets)
  {
    if sheets != [] {
      var before, last := sheets[..|sheets| - 1], sheets[|sheets| - 1];
      AddSheetsTotals(lib, r, before);
      var mid := AddSheets(lib, r, before, true);
      if HeaderOk(lib, last.header) {
        AddRowsTotals(lib, mid, last.name, last.rows);
      } else {
        var e := Issue(Some(last.name), Some(1), None, "unsupported_header");
        assert (mid.errors + [e])[..|mid.errors|] == mid.errors;
      }
    }
  }

  lemma {:induction false} RowSurplusZero(lib: Library, sheet: string, rows: seq<seq<Cell>>)
    ensures RowSurplus(lib, sheet, rows) == 0 <==>
            forall i :: 0 <= i < |rows| ==> RowFaults(lib, sheet, i + 2, rows[i]) <= 1
  {
    if rows != [] {
      var before := rows[..|rows| - 1];
      RowSurplusZero(lib, sheet, before);
      assert forall i :: 0 <= i < |before| ==> before[i] == rows[i];
      assert RowSurplus(lib, sheet, rows) == 0 <==>
        RowSurplus(lib, sheet, before) == 0 && RowFaults(lib, sheet, |rows| + 1, rows[|rows| - 1]) <= 1;
    }
  }

  /** The header is supported and every failing row has a single issue. */
  predicate OneIssueEach(lib: Library, s: Sheet) {
    HeaderOk(lib, s.header) && forall i :: 0 <= i < |s.rows| ==> RowFaults(lib, s.name, i + 2, s.rows[i]) <= 1
  }

  predicate AllOneIssueEach(lib: Library, sheets: seq<Sheet>) {
    forall j :: 0 <= j < |sheets| ==> OneIssueEach(lib, sheets[j])
  }

  lemma {:induction false} SurplusZero(lib: Library, sheets: seq<Sheet>)
    ensures Surplus(lib, sheets) == 0 <==> AllOneIssueEach(lib, sheets)
  {
    if sheets != [] {
      var before, last := sheets[..|sheets| - 1], sheets[|sheets| - 1];
      SurplusZero(lib, before);
      RowSurplusZero(lib, last.name, last.rows);
      assert forall j :: 0 <= j < |before| ==> before[j] == sheets[j];
      assert AllOneIssueEach(lib, sheets) <==> AllOneIssueEach(lib, before) && OneIssueEach(lib, last);
    }
  }

  /**
   * total_rows <= parsed_rows + failed_rows for every file, with equality exactly when every matched
   * sheet has the supported header and every failing row has one issue.
   */
  lemma TotalsBound(lib: Library, w: Workbook)
    ensures var r := Parse(lib, w, true);
            && r.totalRows <= |r.transactions| + FailedRows(r.errors)
            && (r.totalRows == |r.transactions| + FailedRows(r.errors) <==>
                  w.Unreadable? || AllOneIssueEach(lib, Matching(lib, w.sheets)))
  {
    if w.Workbook? {
      var sheets := Matching(lib, w.sheets);
      AddSheetsTotals(lib, ParseResult(Names(sheets), 0, [], []), sheets);
      SurplusZero(lib, sheets);
    }
  }

  lemma {:induction false} AddRowsWithin(lib: Library, r: ParseResult, sheet: string, rows: seq<seq<Cell>>)
    ensures var r' := AddRows(lib, r, sheet, rows);
            |r'.transactions| - r'.totalRows <= |r.transactions| - r.totalRows
  {
    if rows != [] { AddRowsWithin(lib, r, sheet, rows[..|rows| - 1]); }
  }

  lemma {:induction false} AddSheetsWithin(lib: Library, r: ParseResult, sheets: seq<Sheet>)
    ensures var r' := AddSheets(lib, r, sheets, true);
            |r'.transactions| - r'.totalRows <= |r.transactions| - r.totalRows
  {
    if sheets != [] {
      var before, last := sheets[..|sheets| - 1], sheets[|sheets| - 1];
      AddSheetsWithin(lib, r, before);
      AddRowsWithin(lib, AddSheets(lib, r, before, true), last.name, last.rows);
    }
  }

  /** No row gives two transactions; and without errors every row gives one. */
  lemma TransactionsWithinRows(lib: Library, w: Workbook)
    ensures var r := Parse(lib, w, true);
            && |r.transactions| <= r.totalRows
            && (r.errors == [] ==> |r.transactions| == r.totalRows)
  {
    TotalsBound(lib, w);
    if w.Workbook? {
      var sheets := Matching(lib, w.sheets);
      AddSheetsWithin(lib, ParseResult(Names(sheets), 0, [], []), sheets);
    }
  }

  /* ----- keys ----- */

  /** Dates that are read are in range. */
  ghost predicate DatesOk(lib: Library) {
    forall raw :: lib.date(raw).Some? ==> ValidDateTime(lib.date(raw).value)
  }

  /** Dates are in range, the hash is injective, and the separator is no digit. */
  ghost predicate LibraryOk(lib: Library) {
    DatesOk(lib) && (forall x, y :: lib.hash(x) == lib.hash(y) ==> x == y) && !lib.digit('|')
  }

  function FieldsOf(t: Transaction): Fields {
    Fields(t.sheet, t.row, t.operationAt, t.operationAmount, t.description)
  }

  predicate Genuine(lib: Library, t: Transaction) {
    Proper(FieldsOf(t)) && t.dedupeKey == lib.hash(Payload(FieldsOf(t)))
  }

  predicate AllGenuine(lib: Library, ts: seq<Transaction>) {
    forall i :: 0 <= i < |ts| ==> Genuine(lib, ts[i])
  }

  lemma MatchingIsPlain(lib: Library, name: string)
    requires LibraryOk(lib) && SheetMatches(lib.digit, name)
    ensures Plain(name)
  {
    forall i | 0 <= i < |name| ensures name[i] != '|' {
      assert i in {2, 3, 5, 6} || i in {0, 1, 4, 7};
    }
  }

  lemma NormalizedIsGenuine(lib: Library, sheet: string, n: nat, row: seq<Cell>)
    requires DatesOk(lib) && Plain(sheet) && NormalizeRow(lib, sheet, n, row).0.Some?
    ensures Genuine(lib, NormalizeRow(lib, sheet, n, row).0.value)
  {
    var t := NormalizeRow(lib, sheet, n, row).0.value;
    var f := KeyFields(lib, sheet, n, t.operationAt, t.operationAmount, row);
    assert FieldsOf(t) == f && t.dedupeKey == lib.hash(Payload(f));
    assert Proper(f);
  }

  lemma {:induction false} AddRowsGenuine(lib: Library, r: ParseResult, sheet: string, rows: seq<seq<Cell>>)
    requires DatesOk(lib) && Plain(sheet) && AllGenuine(lib, r.transactions)
    ensures AllGenuine(lib, AddRows(lib, r, sheet, rows).transactions)
  {
    if rows != [] {
      AddRowsGenuine(lib, r, sheet, rows[..|rows| - 1]);
      var (t, _) := NormalizeRow(lib, sheet, |rows| + 1, rows[|rows| - 1]);
      if t.Some? { NormalizedIsGenuine(lib, sheet, |rows| + 1, rows[|rows| - 1]); }
    }
  }

  lemma {:induction false} AddSheetsGenuine(lib: Library, r: ParseResult, sheets: seq<Sheet>)
    requires DatesOk(lib) && AllGenuine(lib, r.transactions)
    requires forall s <- sheets :: Plain(s.name)
    ensures AllGenuine(lib, AddSheets(lib, r, sheets, true).transactions)
  {
    if sheets != [] {
      var last := sheets[|sheets| - 1];
      AddSheetsGenuine(lib, r, sheets[..|sheets| - 1]);
      assert last in sheets;
      if HeaderOk(lib, last.header) {
        AddRowsGenuine(lib, AddSheets(lib, r, sheets[..|sheets| - 1], true), last.name, last.rows);
      }
    }
  }

  lemma {:induction false} OccursOnce(ts: seq<Transaction>, i: nat)
    requires i < |ts|
    ensures TxAt(ts, ts[i].sheet, ts[i].row) >= 1
  {
    if i < |ts| - 1 { OccursOnce(ts[..|ts| - 1], i); }
  }

  lemma {:induction false} OccursTwice(ts: seq<Transaction>, i: nat, j: nat)
    requires i < j < |ts| && ts[i].sheet == ts[j].sheet && ts[i].row == ts[j].row
    ensures TxAt(ts, ts[i].sheet, ts[i].row) >= 2
    decreases |ts|
  {
    var before := ts[..|ts| - 1];
    if j < |ts| - 1 { OccursTwice(before, i, j); } else { OccursOnce(before, i); }
  }

  lemma {:induction false} RowsFromTwo(lib: Library, r: ParseResult, sheet: string, rows: seq<seq<Cell>>)
    requires forall i :: 0 <= i < |r.transactions| ==> r.transactions[i].row >= 2
    ensures forall i :: 0 <= i < |AddRows(lib, r, sheet, rows).transactions| ==>
      AddRows(lib, r, sheet, rows).transactions[i].row >= 2
  {
    if rows != [] { RowsFromTwo(lib, r, sheet, rows[..|rows| - 1]); }
  }

  lemma {:induction false} AllFromTwo(lib: Library, r: ParseResult, sheets: seq<Sheet>)
    requires r.transactions == []
    ensures forall i :: 0 <= i < |AddSheets(lib, r, sheets, true).transactions| ==>
      AddSheets(lib, r, sheets, true).transactions[i].row >= 2
  {
    if sheets != [] {
      var before, last := sheets[..|sheets| - 1], sheets[|sheets| - 1];
      AllFromTwo(lib, r, before);
      RowsFromTwo(lib, AddSheets(lib, r, before, true), last.name, last.rows);
    }
  }

  /** Within one file all positions are distinct, and with an injective hash so are all dedupe keys. */
  lemma KeysDistinct(lib: Library, w: Workbook, i: nat, j: nat)
    requires LibraryOk(lib) && w.Workbook? && DistinctNames(w.sheets)
    requires i < j < |Parse(lib, w, true).transactions|
    ensures var ts := Parse(lib, w, true).transactions;
            && (ts[i].sheet, ts[i].row) != (ts[j].sheet, ts[j].row)
            && ts[i].dedupeKey != ts[j].dedupeKey
  {
    var sheets := Matching(lib, w.sheets);
    var start := ParseResult(Names(sheets), 0, [], []);
    var ts := Parse(lib, w, true).transactions;
    MatchingDistinct(lib, w.sheets);
    AllFromTwo(lib, start, sheets);
    AddSheetsCounts(lib, start, sheets, ts[i].sheet, ts[i].row);
    assert TxAt(ts, ts[i].sheet, ts[i].row) <= 1 by {
      if k :| 0 <= k < |sheets| && sheets[k].name == ts[i].sheet {
        OwnSheet(lib, sheets, k, ts[i].row);
      } else {
        OtherSheets(lib, sheets, ts[i].sheet, ts[i].row);
      }
    }
    if ts[i].sheet == ts[j].sheet && ts[i].row == ts[j].row {
      OccursTwice(ts, i, j);
    }
    forall s <- sheets ensures Plain(s.name) { MatchingIsPlain(lib, s.name); }
    AddSheetsGenuine(lib, start, sheets);
    assert Genuine(lib, ts[i]) && Genuine(lib, ts[j]);
    if ts[i].dedupeKey == ts[j].dedupeKey {
      PayloadInjective(FieldsOf(ts[i]), FieldsOf(ts[j]));
    }
  }
}
