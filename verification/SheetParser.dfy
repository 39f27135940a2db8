/**
 * The family-budget workbook parser: which sheets are read, how a row becomes a transaction or a list
 * of issues, and how the results add up.
 */
module SheetParser {
  import opened Wrappers
  import opened DedupeKey

  /** A cell; None and "" are both `Blank`, and `raw` stands for any other value. */
  datatype Cell = Blank | Filled(raw: string)

  /**
   * What the parser leaves to libraries: reading a date, reading an amount (None where they raise),
   * `str(value).strip()`, `_stringify`, `_normalize_mcc`, the hash, and which characters are digits.
   */
  datatype Library = Library(
    date: string -> Option<DateTime>,
    money: string -> Option<Amount>,
    strip: string -> string,
    show: string -> string,
    mcc: string -> string,
    hash: string -> string,
    digit: char -> bool)

  datatype Issue = Issue(sheet: Option<string>, row: Option<nat>, column: Option<nat>, code: string)

  datatype Transaction = Transaction(
    sheet: string, row: nat, expense: bool,
    operationAt: DateTime, paymentAt: Option<DateTime>,
    operationAmount: Amount, paymentAmount: Option<Amount>, cashback: Option<Amount>,
    bonus: Option<Amount>, investmentRounding: Option<Amount>, roundedAmount: Option<Amount>,
    cardMask: Option<string>, cardLast4: Option<string>, status: Option<string>,
    operationCurrency: Option<string>, paymentCurrency: Option<string>,
    category: Option<string>, mcc: Option<string>, description: Option<string>,
    raw: seq<Option<string>>, dedupeKey: string)

  datatype Sheet = Sheet(name: string, header: seq<Cell>, rows: seq<seq<Cell>>)
  datatype Workbook = Unreadable | Workbook(sheets: seq<Sheet>)

  datatype ParseResult = ParseResult(
    matched: seq<string>, totalRows: nat, transactions: seq<Transaction>, errors: seq<Issue>)

  const COLUMNS: nat := 15

  const EXPECTED_HEADER: seq<string> := [
    "Дата операции", "Дата платежа", "Номер карты", "Статус", "Сумма операции", "Валюта операции",
    "Сумма платежа", "Валюта платежа", "Кэшбэк", "Категория", "MCC", "Описание",
    "Бонусы (включая кэшбэк)", "Округление на инвесткопилку", "Сумма операции с округлением"]

  /* ----- cells ----- */

  /** The value in a column: missing columns read as blank, further ones are cut off. */
  function At(row: seq<Cell>, column: nat): Cell {
    if column < |row| then row[column] else Blank
  }

  predicate EmptyRow(row: seq<Cell>) {
    forall i :: 0 <= i < |row| && i < COLUMNS ==> row[i].Blank?
  }

  function Text(lib: Library, c: Cell): Option<string> {
    if c.Blank? || lib.strip(c.raw) == "" then None else Some(lib.strip(c.raw))
  }

  function Shown(lib: Library, c: Cell): Option<string> {
    if c.Blank? || lib.show(c.raw) == "" then None else Some(lib.show(c.raw))
  }

  function Digits(digit: char -> bool, s: string): string {
    if s == "" then ""
    else Digits(digit, s[..|s| - 1]) + if digit(s[|s| - 1]) then [s[|s| - 1]] else ""
  }

  function Last4(digit: char -> bool, s: string): Option<string> {
    var digits := Digits(digit, s);
    if |digits| >= 4 then Some(digits[|digits| - 4..]) else None
  }

  /** The last four digits of a card mask, if it has as many. */
  function CardLast4(digit: char -> bool, mask: Option<string>): Option<string> {
    if mask.None? then None else Last4(digit, mask.value)
  }

  /** `raw_payload`: all columns as text. */
  function RawPayload(lib: Library, row: seq<Cell>): seq<Option<string>> {
    seq(COLUMNS, i requires 0 <= i < COLUMNS => Shown(lib, At(row, i)))
  }

  function Mcc(lib: Library, c: Cell): Option<string> {
    if c.Blank? then None else Some(lib.mcc(c.raw))
  }

  /**
   * A sheet name of the form that is imported: a Cyrillic letter, then `_MM.YY` in digits of any script;
   * the pattern also lets a line feed follow.
   */
  predicate SheetMatches(digit: char -> bool, name: string) {
    && (|name| == 7 || (|name| == 8 && name[7] == '\n'))
    && name[0] in {'\U{0420}', '\U{0414}'} && name[1] == '_' && name[4] == '.'
    && (forall i <- {2, 3, 5, 6} :: digit(name[i]))
  }

  function TrimTrailing(cells: seq<Cell>): seq<Cell> {
    if cells != [] && cells[|cells| - 1].Blank? then TrimTrailing(cells[..|cells| - 1]) else cells
  }

  predicate HeaderOk(lib: Library, header: seq<Cell>) {
    var trimmed := TrimTrailing(header);
    |trimmed| == COLUMNS && forall i :: 0 <= i < COLUMNS ==> Shown(lib, trimmed[i]) == Some(EXPECTED_HEADER[i])
  }

  function CellIssue(sheet: string, row: nat, column: nat, code: string): Issue {
    Issue(Some(sheet), Some(row), Some(column), code)
  }

  function ReadDate(lib: Library, value: Cell, column: nat, sheet: string, n: nat, required: bool)
    : (Option<DateTime>, seq<Issue>)
  {
    match value
    case Blank => (None, if required then [CellIssue(sheet, n, column, "missing_datetime")] else [])
    case Filled(raw) =>
      (lib.date(raw), if lib.date(raw).None? then [CellIssue(sheet, n, column, "invalid_datetime")] else [])
  }

  function ReadMoney(lib: Library, value: Cell, column: nat, sheet: string, n: nat, required: bool)
    : (Option<Amount>, seq<Issue>)
  {
    match value
    case Blank => (None, if required then [CellIssue(sheet, n, column, "missing_decimal")] else [])
    case Filled(raw) =>
      (lib.money(raw), if lib.money(raw).None? then [CellIssue(sheet, n, column, "invalid_decimal")] else [])
  }

  /* ----- rows, sheets, workbooks ----- */

  function RowIssues(lib: Library, sheet: string, n: nat, row: seq<Cell>): seq<Issue> {
    ReadDate(lib, At(row, 0), 0, sheet, n, true).1 + ReadDate(lib, At(row, 1), 1, sheet, n, false).1
    + ReadMoney(lib, At(row, 4), 4, sheet, n, true).1 + ReadMoney(lib, At(row, 6), 6, sheet, n, false).1
    + ReadMoney(lib, At(row, 8), 8, sheet, n, false).1 + ReadMoney(lib, At(row, 12), 12, sheet, n, false).1
    + ReadMoney(lib, At(row, 13), 13, sheet, n, false).1 + ReadMoney(lib, At(row, 14), 14, sheet, n, false).1
  }

  function KeyFields(lib: Library, sheet: string, n: nat, at: DateTime, amount: Amount, row: seq<Cell>): Fields {
    Fields(sheet, n, at, amount, Text(lib, At(row, 11)))
  }

  function NormalizeRow(lib: Library, sheet: string, n: nat, row: seq<Cell>): (Option<Transaction>, seq<Issue>) {
    var issues := RowIssues(lib, sheet, n, row);
    var at, amount := ReadDate(lib, At(row, 0), 0, sheet, n, true).0, ReadMoney(lib, At(row, 4), 4, sheet, n, true).0;
    if issues != [] || at.None? || amount.None? then (None, issues)
    else
      (Some(Transaction(
         sheet, n, "\U{0420}_" <= sheet,
         at.value, ReadDate(lib, At(row, 1), 1, sheet, n, false).0,
         amount.value, ReadMoney(lib, At(row, 6), 6, sheet, n, false).0,
         ReadMoney(lib, At(row, 8), 8, sheet, n, false).0,
         ReadMoney(lib, At(row, 12), 12, sheet, n, false).0, ReadMoney(lib, At(row, 13), 13, sheet, n, false).0,
         ReadMoney(lib, At(row, 14), 14, sheet, n, false).0,
         Text(lib, At(row, 2)), CardLast4(lib.digit, Text(lib, At(row, 2))), Text(lib, At(row, 3)),
         Text(lib, At(row, 5)), Text(lib, At(row, 7)),
         Text(lib, At(row, 9)), Mcc(lib, At(row, 10)), Text(lib, At(row, 11)), RawPayload(lib, row),
         lib.hash(Payload(KeyFields(lib, sheet, n, at.value, amount.value, row))))), [])
  }

  function AddRow(lib: Library, r: ParseResult, sheet: string, n: nat, row: seq<Cell>): ParseResult {
    if EmptyRow(row) then r
    else
      var (t, issues) := NormalizeRow(lib, sheet, n, row);
      var r1 := r.(totalRows := r.totalRows + 1);
      if issues != [] then r1.(errors := r.errors + issues)
      else if t.Some? then r1.(transactions := r.transactions + [t.value])
      else r1
  }

  /** Data rows are numbered from 2. */
  function AddRows(lib: Library, r: ParseResult, sheet: string, rows: seq<seq<Cell>>): ParseResult {
    if rows == [] then r
    else AddRow(lib, AddRows(lib, r, sheet, rows[..|rows| - 1]), sheet, |rows| + 1, rows[|rows| - 1])
  }

  function AddSheet(lib: Library, r: ParseResult, s: Sheet, withRows: bool): ParseResult {
    if !HeaderOk(lib, s.header) then r.(errors := r.errors + [Issue(Some(s.name), Some(1), None, "unsupported_header")])
    else if withRows then AddRows(lib, r, s.name, s.rows)
    else r
  }

  function AddSheets(lib: Library, r: ParseResult, sheets: seq<Sheet>, withRows: bool): ParseResult {
    if sheets == [] then r
    else AddSheet(lib, AddSheets(lib, r, sheets[..|sheets| - 1], withRows), sheets[|sheets| - 1], withRows)
  }

  function Matching(lib: Library, sheets: seq<Sheet>): seq<Sheet> {
    if sheets == [] then []
    else
      var last := sheets[|sheets| - 1];
      Matching(lib, sheets[..|sheets| - 1]) + if SheetMatches(lib.digit, last.name) then [last] else []
  }

  function Names(sheets: seq<Sheet>): seq<string> {
    seq(|sheets|, i requires 0 <= i < |sheets| => sheets[i].name)
  }

  function Parse(lib: Library, w: Workbook, withRows: bool): ParseResult {
    if w.Unreadable? then ParseResult([], 0, [], [Issue(None, None, None, "invalid_workbook")])
    else
      var matching := Matching(lib, w.sheets);
      if matching == [] then ParseResult([], 0, [], [Issue(None, None, None, "no_supported_sheets")])
      else AddSheets(lib, ParseResult(Names(matching), 0, [], []), matching, withRows)
  }

  /** `failed_rows`: the errors that name a row. */
  function FailedRows(errors: seq<Issue>): nat {
    if errors == [] then 0
    else FailedRows(errors[..|errors| - 1]) + if errors[|errors| - 1].row.Some? then 1 else 0
  }

  /* ----- the parser ----- */

  method ParseDatetime(lib: Library, value: Cell, column: nat, sheet: string, n: nat, issues: seq<Issue>,
                       required: bool)
    returns (parsed: Option<DateTime>, issues': seq<Issue>)
    ensures parsed == ReadDate(lib, value, column, sheet, n, required).0
    ensures issues' == issues + ReadDate(lib, value, column, sheet, n, required).1
  {
    issues' := issues;
    if value.Blank? {
      if required { issues' := issues + [CellIssue(sheet, n, column, "missing_datetime")]; }
      return None, issues';
    }
    parsed := lib.date(value.raw);
    if parsed.None? { issues' := issues + [CellIssue(sheet, n, column, "invalid_datetime")]; }
  }

  method ParseDecimal(lib: Library, value: Cell, column: nat, sheet: string, n: nat, issues: seq<Issue>,
                      required: bool)
    returns (parsed: Option<Amount>, issues': seq<Issue>)
    ensures parsed == ReadMoney(lib, value, column, sheet, n, required).0
    ensures issues' == issues + ReadMoney(lib, value, column, sheet, n, required).1
  {
    issues' := issues;
    if value.Blank? {
      if required { issues' := issues + [CellIssue(sheet, n, column, "missing_decimal")]; }
      return None, issues';
    }
    parsed := lib.money(value.raw);
    if parsed.None? { issues' := issues + [CellIssue(sheet, n, column, "invalid_decimal")]; }
  }

  method NormalizeOneRow(lib: Library, sheet: string, n: nat, row: seq<Cell>)
    returns (t: Option<Transaction>, issues: seq<Issue>)
    ensures t == NormalizeRow(lib, sheet, n, row).0 && issues == NormalizeRow(lib, sheet, n, row).1
  {
    issues := [];
    var at, paymentAt, amount, paymentAmount, cashback, bonus, investment, rounded;
    at, issues := ParseDatetime(lib, At(row, 0), 0, sheet, n, issues, true);
    assert issues == ReadDate(lib, At(row, 0), 0, sheet, n, true).1;
    paymentAt, issues := ParseDatetime(lib, At(row, 1), 1, sheet, n, issues, false);
    amount, issues := ParseDecimal(lib, At(row, 4), 4, sheet, n, issues, true);
    paymentAmount, issues := ParseDecimal(lib, At(row, 6), 6, sheet, n, issues, false);
    cashback, issues := ParseDecimal(lib, At(row, 8), 8, sheet, n, issues, false);
    bonus, issues := ParseDecimal(lib, At(row, 12), 12, sheet, n, issues, false);
    investment, issues := ParseDecimal(lib, At(row, 13), 13, sheet, n, issues, false);
    rounded, issues := ParseDecimal(lib, At(row, 14), 14, sheet, n, issues, false);
    assert issues == RowIssues(lib, sheet, n, row);
    if issues != [] || at.None? || amount.None? {
      return None, issues;
    }
    var key := lib.hash(Payload(KeyFields(lib, sheet, n, at.value, amount.value, row)));
    var mask := Text(lib, At(row, 2));
    t := Some(Transaction(sheet, n, "\U{0420}_" <= sheet, at.value, paymentAt, amount.value, paymentAmount,
                          cashback, bonus, investment, rounded, mask, CardLast4(lib.digit, mask),
                          Text(lib, At(row, 3)), Text(lib, At(row, 5)), Text(lib, At(row, 7)), Text(lib, At(row, 9)),
                          Mcc(lib, At(row, 10)), Text(lib, At(row, 11)), RawPayload(lib, row), key));
  }

  method ParseRows(lib: Library, start: ParseResult, s: Sheet) returns (result: ParseResult)
    ensures result == AddRows(lib, start, s.name, s.rows)
  {
    result := start;
    for i := 0 to |s.rows|
      invariant result == AddRows(lib, start, s.name, s.rows[..i])
    {
      assert s.rows[..i + 1][..i] == s.rows[..i];
      if EmptyRow(s.rows[i]) { continue; }
      result := result.(totalRows := result.totalRows + 1);
      var t, issues := NormalizeOneRow(lib, s.name, i + 2, s.rows[i]);
      if issues != [] {
        result := result.(errors := result.errors + issues);
      } else if t.Some? {
        result := result.(transactions := result.transactions + [t.value]);
      }
    }
    assert s.rows[..|s.rows|] == s.rows;
  }

  method ParseWorkbook(lib: Library, w: Workbook, withRows: bool) returns (result: ParseResult)
    ensures result == Parse(lib, w, withRows)
  {
    if w.Unreadable? {
      return ParseResult([], 0, [], [Issue(None, None, None, "invalid_workbook")]);
    }
    var matching := Matching(lib, w.sheets);
    if matching == [] {
      return ParseResult([], 0, [], [Issue(None, None, None, "no_supported_sheets")]);
    }
    result := ParseResult(Names(matching), 0, [], []);
    ghost var start := result;
    for j := 0 to |matching|
      invariant result == AddSheets(lib, start, matching[..j], withRows)
    {
      assert matching[..j + 1][..j] == matching[..j];
      var s := matching[j];
      if !HeaderOk(lib, s.header) {
        result := result.(errors := result.errors + [Issue(Some(s.name), Some(1), None, "unsupported_header")]);
        continue;
      }
      if !withRows { continue; }
      result := ParseRows(lib, result, s);
    }
    assert matching[..|matching|] == matching;
  }
}
