/** Which cell each field of a parsed transaction comes from, which issue each bad cell leaves, and what is income. */
module SheetFields {
  import opened Wrappers
  import opened DedupeKey
  import opened SheetParser

  /* ----- what is read ----- */

  /**
   * Exactly the sheet names that are imported: a Cyrillic R or D, an underscore, two digits, a dot, two
   * digits, and at most a line feed.
   */
  lemma NamesExactly(digit: char -> bool, name: string, letter: char, a: char, b: char, c: char, d: char, tail: string)
    ensures SheetMatches(digit, [letter, '_', a, b, '.', c, d] + tail) <==>
            letter in {'\U{0420}', '\U{0414}'} && digit(a) && digit(b) && digit(c) && digit(d) && tail in {"", "\n"}
    ensures SheetMatches(digit, name) ==>
            |name| >= 7 && name == [name[0], '_', name[2], name[3], '.', name[5], name[6]] + name[7..]
  {
    var made := [letter, '_', a, b, '.', c, d] + tail;
    assert made[0] == letter && made[2] == a && made[3] == b && made[5] == c && made[6] == d && made[7..] == tail;
    if |tail| == 1 { assert made[7] == tail[0] && tail == [tail[0]]; }
  }

  lemma {:induction false} TrimmedIs(cells: seq<Cell>)
    ensures var n := |TrimTrailing(cells)|;
            && n <= |cells| && TrimTrailing(cells) == cells[..n] && (n > 0 ==> cells[n - 1].Filled?)
            && forall k :: n <= k < |cells| ==> cells[k].Blank?
  {
    if cells != [] && cells[|cells| - 1].Blank? { TrimmedIs(cells[..|cells| - 1]); }
  }

  predicate ColumnHeaded(lib: Library, header: seq<Cell>, k: nat)
    requires k < COLUMNS
  {
    At(header, k).Filled? && lib.show(At(header, k).raw) == EXPECTED_HEADER[k]
  }

  /** A header is supported exactly when its 15 columns have the expected names, and no further one has any. */
  lemma HeaderExactly(lib: Library, header: seq<Cell>)
    ensures HeaderOk(lib, header) <==>
            && (forall k: nat | k < COLUMNS :: ColumnHeaded(lib, header, k))
            && (forall k | COLUMNS <= k < |header| :: header[k].Blank?)
  {
    TrimmedIs(header);
    var trimmed := TrimTrailing(header);
    if forall k: nat | k < COLUMNS :: ColumnHeaded(lib, header, k) {
      assert ColumnHeaded(lib, header, COLUMNS - 1);
    }
    if |trimmed| == COLUMNS {
      forall k: nat | k < COLUMNS
        ensures Shown(lib, trimmed[k]) == Some(EXPECTED_HEADER[k]) <==> ColumnHeaded(lib, header, k)
      {
        assert trimmed[k] == At(header, k) && EXPECTED_HEADER[k] != "";
      }
    }
  }

  /** A row is passed over exactly when its 15 columns are blank, whatever follows them. */
  lemma PassedOverExactly(lib: Library, r: ParseResult, sheet: string, n: nat, row: seq<Cell>)
    ensures AddRow(lib, r, sheet, n, row) == r <==> forall k: nat | k < COLUMNS :: At(row, k).Blank?
  {
    if EmptyRow(row) {
      forall k: nat | k < COLUMNS ensures At(row, k).Blank? {}
    } else {
      var k :| 0 <= k < |row| && k < COLUMNS && row[k].Filled?;
      assert At(row, k).Filled?;
    }
  }

  lemma {:induction false} DigitsWithin(digit: char -> bool, s: string)
    ensures |Digits(digit, s)| <= |s|
    ensures (forall i :: 0 <= i < |s| ==> digit(s[i])) ==> Digits(digit, s) == s
  {
    if s != "" {
      DigitsWithin(digit, s[..|s| - 1]);
      assert s == s[..|s| - 1] + [s[|s| - 1]];
    }
  }

  lemma DigitsAppend(digit: char -> bool, s: string, x: char)
    ensures Digits(digit, s + [x]) == if digit(x) then Digits(digit, s) + [x] else Digits(digit, s)
  {
    var longer := s + [x];
    assert longer[..|longer| - 1] == s && longer[|longer| - 1] == x;
  }

  /** Fewer than four characters have no last four digits, and four digits are their own. */
  lemma FourDigits(digit: char -> bool, s: string)
    ensures |s| < 4 ==> Last4(digit, s).None?
    ensures |s| == 4 && (forall i :: 0 <= i < 4 ==> digit(s[i])) ==> Last4(digit, s) == Some(s)
  {
    DigitsWithin(digit, s);
    if Digits(digit, s) == s && |s| == 4 { assert s[0..] == s; }
  }

  lemma LastOf(digits: string, digits': string, x: char)
    requires |digits| >= 4 && digits' == digits + [x]
    ensures digits'[|digits'| - 4..] == digits[|digits| - 4..][1..] + [x]
  {
    var rest := digits[|digits| - 3..];
    assert digits[|digits| - 4..][1..] == rest;
    assert digits'[|digits| - 3..] == rest + [x];
  }

  /** The last four digits: one more digit moves them on, and any other character leaves them. */
  lemma LastFour(digit: char -> bool, s: string, x: char)
    ensures !digit(x) ==> Last4(digit, s + [x]) == Last4(digit, s)
    ensures digit(x) && Last4(digit, s).Some? ==> Last4(digit, s + [x]) == Some(Last4(digit, s).value[1..] + [x])
  {
    DigitsAppend(digit, s, x);
    var digits, digits' := Digits(digit, s), Digits(digit, s + [x]);
    if digit(x) && |digits| >= 4 { LastOf(digits, digits', x); }
  }

  /* ----- columns and fields ----- */

  predicate Headed(column: nat, name: string) {
    column < COLUMNS && EXPECTED_HEADER[column] == name
  }

  /** The columns that carry dates and amounts, by the names a supported header has there. */
  lemma HeaderNames()
    ensures Headed(0, "Дата операции") && Headed(1, "Дата платежа")
    ensures Headed(2, "Номер карты") && Headed(3, "Статус")
    ensures Headed(4, "Сумма операции") && Headed(5, "Валюта операции")
    ensures Headed(6, "Сумма платежа") && Headed(7, "Валюта платежа")
    ensures Headed(8, "Кэшбэк") && Headed(9, "Категория")
    ensures Headed(10, "MCC") && Headed(11, "Описание")
    ensures Headed(12, "Бонусы (включая кэшбэк)") && Headed(13, "Округление на инвесткопилку")
    ensures Headed(14, "Сумма операции с округлением")
  {
  }

  /** A required cell: filled, and read to the value. */
  predicate MustRead<T(==)>(read: string -> Option<T>, c: Cell, value: T) {
    c.Filled? && read(c.raw) == Some(value)
  }

  /** An optional cell: blank and absent, or filled and read to the value. */
  predicate MayRead<T(==)>(read: string -> Option<T>, c: Cell, value: Option<T>) {
    if c.Blank? then value.None? else value.Some? && read(c.raw) == value
  }

  /** A text cell: its stripped text, absent when nothing is left of it. */
  predicate IsText(lib: Library, c: Cell, value: Option<string>) {
    match value
    case None => c.Filled? ==> lib.strip(c.raw) == ""
    case Some(text) => text != "" && c.Filled? && lib.strip(c.raw) == text
  }

  predicate IsShown(lib: Library, c: Cell, value: Option<string>) {
    match value
    case None => c.Filled? ==> lib.show(c.raw) == ""
    case Some(text) => text != "" && c.Filled? && lib.show(c.raw) == text
  }

  predicate GivesReadings(lib: Library, row: seq<Cell>, t: Transaction) {
    && MustRead(lib.date, At(row, 0), t.operationAt) && MayRead(lib.date, At(row, 1), t.paymentAt)
    && MustRead(lib.money, At(row, 4), t.operationAmount) && MayRead(lib.money, At(row, 6), t.paymentAmount)
    && MayRead(lib.money, At(row, 8), t.cashback) && MayRead(lib.money, At(row, 12), t.bonus)
    && MayRead(lib.money, At(row, 13), t.investmentRounding) && MayRead(lib.money, At(row, 14), t.roundedAmount)
  }

  predicate GivesTexts(lib: Library, row: seq<Cell>, t: Transaction) {
    && IsText(lib, At(row, 2), t.cardMask) && IsText(lib, At(row, 3), t.status)
    && IsText(lib, At(row, 5), t.operationCurrency) && IsText(lib, At(row, 7), t.paymentCurrency)
    && IsText(lib, At(row, 9), t.category) && IsText(lib, At(row, 11), t.description)
    && t.cardLast4 == (if t.cardMask.Some? then Last4(lib.digit, t.cardMask.value) else None)
    && (t.mcc.Some? <==> At(row, 10).Filled?) && (t.mcc.Some? ==> t.mcc.value == lib.mcc(At(row, 10).raw))
  }

  predicate GivesRaw(lib: Library, row: seq<Cell>, t: Transaction) {
    |t.raw| == COLUMNS && forall k :: 0 <= k < COLUMNS ==> IsShown(lib, At(row, k), t.raw[k])
  }

  /** The transaction is the row's, field by field. */
  predicate RowGives(lib: Library, sheet: string, n: nat, row: seq<Cell>, t: Transaction) {
    && t.sheet == sheet && t.row == n && (t.expense <==> "\U{0420}_" <= sheet)
    && GivesReadings(lib, row, t) && GivesTexts(lib, row, t) && GivesRaw(lib, row, t)
  }

  /** A row without issues has no filled cell that cannot be read. */
  lemma NoIssueMeansRead(lib: Library, sheet: string, n: nat, row: seq<Cell>)
    requires RowIssues(lib, sheet, n, row) == []
    ensures At(row, 1).Filled? ==> lib.date(At(row, 1).raw).Some?
    ensures forall k <- {6, 8, 12, 13, 14} :: At(row, k).Filled? ==> lib.money(At(row, k).raw).Some?
  {
    assert ReadDate(lib, At(row, 1), 1, sheet, n, false).1 == [];
    assert ReadMoney(lib, At(row, 6), 6, sheet, n, false).1 == [];
    assert ReadMoney(lib, At(row, 8), 8, sheet, n, false).1 == [];
    assert ReadMoney(lib, At(row, 12), 12, sheet, n, false).1 == [];
    assert ReadMoney(lib, At(row, 13), 13, sheet, n, false).1 == [];
    assert ReadMoney(lib, At(row, 14), 14, sheet, n, false).1 == [];
  }

  lemma AcceptedReadings(lib: Library, sheet: string, n: nat, row: seq<Cell>)
    requires NormalizeRow(lib, sheet, n, row).0.Some?
    ensures GivesReadings(lib, row, NormalizeRow(lib, sheet, n, row).0.value)
  {
    assert RowIssues(lib, sheet, n, row) == [];
    NoIssueMeansRead(lib, sheet, n, row);
  }

  lemma TextIsText(lib: Library, c: Cell)
    ensures IsText(lib, c, Text(lib, c)) && IsShown(lib, c, Shown(lib, c))
  {
  }

  lemma AcceptedTexts(lib: Library, sheet: string, n: nat, row: seq<Cell>)
    requires NormalizeRow(lib, sheet, n, row).0.Some?
    ensures GivesTexts(lib, row, NormalizeRow(lib, sheet, n, row).0.value)
  {
    TextIsText(lib, At(row, 2));
    TextIsText(lib, At(row, 3));
    TextIsText(lib, At(row, 5));
    TextIsText(lib, At(row, 7));
    TextIsText(lib, At(row, 9));
    TextIsText(lib, At(row, 11));
  }

  lemma AcceptedRaw(lib: Library, sheet: string, n: nat, row: seq<Cell>)
    requires NormalizeRow(lib, sheet, n, row).0.Some?
    ensures GivesRaw(lib, row, NormalizeRow(lib, sheet, n, row).0.value)
  {
    var raw := RawPayload(lib, row);
    forall k: nat | k < COLUMNS ensures IsShown(lib, At(row, k), raw[k]) { TextIsText(lib, At(row, k)); }
  }

  /** An accepted row gives a transaction that reads every field from the column headed for it. */
  lemma AcceptedRowGives(lib: Library, sheet: string, n: nat, row: seq<Cell>)
    requires NormalizeRow(lib, sheet, n, row).0.Some?
    ensures RowGives(lib, sheet, n, row, NormalizeRow(lib, sheet, n, row).0.value)
  {
    AcceptedReadings(lib, sheet, n, row);
    AcceptedTexts(lib, sheet, n, row);
    AcceptedRaw(lib, sheet, n, row);
  }

  predicate SameReadings(k: nat, t: Transaction, u: Transaction) {
    && (k != 0 ==> t.operationAt == u.operationAt) && (k != 1 ==> t.paymentAt == u.paymentAt)
    && (k != 4 ==> t.operationAmount == u.operationAmount) && (k != 6 ==> t.paymentAmount == u.paymentAmount)
    && (k != 8 ==> t.cashback == u.cashback) && (k != 12 ==> t.bonus == u.bonus)
    && (k != 13 ==> t.investmentRounding == u.investmentRounding) && (k != 14 ==> t.roundedAmount == u.roundedAmount)
  }

  predicate SameTexts(k: nat, t: Transaction, u: Transaction) {
    && (k != 2 ==> t.cardMask == u.cardMask && t.cardLast4 == u.cardLast4) && (k != 3 ==> t.status == u.status)
    && (k != 5 ==> t.operationCurrency == u.operationCurrency) && (k != 7 ==> t.paymentCurrency == u.paymentCurrency)
    && (k != 9 ==> t.category == u.category) && (k != 10 ==> t.mcc == u.mcc)
    && (k != 11 ==> t.description == u.description)
  }

  predicate SameRaw(k: nat, t: Transaction, u: Transaction) {
    |t.raw| == |u.raw| && forall i :: 0 <= i < |t.raw| && i != k ==> t.raw[i] == u.raw[i]
  }

  /** All fields but the column's own, and the key unless it is hashed from that column. */
  predicate SameBut(k: nat, t: Transaction, u: Transaction) {
    && t.sheet == u.sheet && t.row == u.row && t.expense == u.expense
    && SameReadings(k, t, u) && SameTexts(k, t, u) && SameRaw(k, t, u)
    && (k !in {0, 4, 11} ==> t.dedupeKey == u.dedupeKey)
  }

  /** Rows that agree at every column but one. */
  predicate AgreeBut(k: nat, row: seq<Cell>, row': seq<Cell>) {
    forall i: nat | i < COLUMNS && i != k :: At(row, i) == At(row', i)
  }

  lemma AgreeReadings(lib: Library, sheet: string, n: nat, row: seq<Cell>, row': seq<Cell>, k: nat)
    requires AgreeBut(k, row, row')
    requires NormalizeRow(lib, sheet, n, row).0.Some? && NormalizeRow(lib, sheet, n, row').0.Some?
    ensures SameReadings(k, NormalizeRow(lib, sheet, n, row).0.value, NormalizeRow(lib, sheet, n, row').0.value)
  {
  }

  lemma AgreeTexts(lib: Library, sheet: string, n: nat, row: seq<Cell>, row': seq<Cell>, k: nat)
    requires AgreeBut(k, row, row')
    requires NormalizeRow(lib, sheet, n, row).0.Some? && NormalizeRow(lib, sheet, n, row').0.Some?
    ensures SameTexts(k, NormalizeRow(lib, sheet, n, row).0.value, NormalizeRow(lib, sheet, n, row').0.value)
  {
  }

  lemma AgreeRaw(lib: Library, sheet: string, n: nat, row: seq<Cell>, row': seq<Cell>, k: nat)
    requires AgreeBut(k, row, row')
    requires NormalizeRow(lib, sheet, n, row).0.Some? && NormalizeRow(lib, sheet, n, row').0.Some?
    ensures SameRaw(k, NormalizeRow(lib, sheet, n, row).0.value, NormalizeRow(lib, sheet, n, row').0.value)
  {
  }

  lemma AgreeKey(lib: Library, sheet: string, n: nat, row: seq<Cell>, row': seq<Cell>, k: nat)
    requires AgreeBut(k, row, row') && k !in {0, 4, 11}
    requires NormalizeRow(lib, sheet, n, row).0.Some? && NormalizeRow(lib, sheet, n, row').0.Some?
    ensures NormalizeRow(lib, sheet, n, row).0.value.dedupeKey == NormalizeRow(lib, sheet, n, row').0.value.dedupeKey
  {
    assert At(row, 0) == At(row', 0) && At(row, 4) == At(row', 4) && At(row, 11) == At(row', 11);
  }

  lemma AgreeRest(lib: Library, sheet: string, n: nat, row: seq<Cell>, row': seq<Cell>)
    requires NormalizeRow(lib, sheet, n, row).0.Some? && NormalizeRow(lib, sheet, n, row').0.Some?
    ensures var t, u := NormalizeRow(lib, sheet, n, row).0.value, NormalizeRow(lib, sheet, n, row').0.value;
            t.sheet == u.sheet && t.row == u.row && t.expense == u.expense
  {
  }

  lemma ChangedAgrees(row: seq<Cell>, k: nat, c: Cell)
    requires k < |row|
    ensures AgreeBut(k, row, row[k := c])
  {
  }

  /** Rows that agree at every column but one give the same fields but for that column's. */
  lemma AgreeGivesSame(lib: Library, sheet: string, n: nat, row: seq<Cell>, row': seq<Cell>, k: nat)
    requires AgreeBut(k, row, row')
    requires NormalizeRow(lib, sheet, n, row).0.Some? && NormalizeRow(lib, sheet, n, row').0.Some?
    ensures SameBut(k, NormalizeRow(lib, sheet, n, row).0.value, NormalizeRow(lib, sheet, n, row').0.value)
  {
    AgreeReadings(lib, sheet, n, row, row', k);
    AgreeTexts(lib, sheet, n, row, row', k);
    AgreeRaw(lib, sheet, n, row, row', k);
    AgreeRest(lib, sheet, n, row, row');
    if k !in {0, 4, 11} { AgreeKey(lib, sheet, n, row, row', k); }
  }

  /** Changing one cell of an accepted row changes no field but that column's, and the key if it is hashed from it. */
  lemma OneCellOneField(lib: Library, sheet: string, n: nat, row: seq<Cell>, k: nat, c: Cell)
    requires k < |row|
    requires NormalizeRow(lib, sheet, n, row).0.Some? && NormalizeRow(lib, sheet, n, row[k := c]).0.Some?
    ensures SameBut(k, NormalizeRow(lib, sheet, n, row).0.value, NormalizeRow(lib, sheet, n, row[k := c]).0.value)
  {
    ChangedAgrees(row, k, c);
    AgreeGivesSame(lib, sheet, n, row, row[k := c], k);
  }

  /* ----- issues ----- */

  predicate IsMissing(c: Cell, required: bool) {
    required && c.Blank?
  }

  predicate IsInvalid<T>(read: string -> Option<T>, c: Cell) {
    c.Filled? && read(c.raw).None?
  }

  /** The issue names the row and one of its date or amount columns, and what is wrong with the cell there. */
  predicate Explained(lib: Library, sheet: string, n: nat, row: seq<Cell>, e: Issue) {
    && e.sheet == Some(sheet) && e.row == Some(n) && e.column.Some?
    && var k := e.column.value;
    && k in {0, 1, 4, 6, 8, 12, 13, 14}
    && (k in {0, 1} ==>
          || (e.code == "missing_datetime" && IsMissing(At(row, k), k == 0))
          || (e.code == "invalid_datetime" && IsInvalid(lib.date, At(row, k))))
    && (k !in {0, 1} ==>
          || (e.code == "missing_decimal" && IsMissing(At(row, k), k == 4))
          || (e.code == "invalid_decimal" && IsInvalid(lib.money, At(row, k))))
  }

  lemma DateIssue(lib: Library, sheet: string, n: nat, row: seq<Cell>, k: nat, e: Issue)
    requires k in {0, 1}
    ensures e in ReadDate(lib, At(row, k), k, sheet, n, k == 0).1 <==>
            Explained(lib, sheet, n, row, e) && e.column == Some(k)
  {
  }

  lemma MoneyIssue(lib: Library, sheet: string, n: nat, row: seq<Cell>, k: nat, e: Issue)
    requires k in {4, 6, 8, 12, 13, 14}
    ensures e in ReadMoney(lib, At(row, k), k, sheet, n, k == 4).1 <==>
            Explained(lib, sheet, n, row, e) && e.column == Some(k)
  {
  }

  /** A row's issues are exactly those its cells call for. */
  lemma IssuesExactly(lib: Library, sheet: string, n: nat, row: seq<Cell>, e: Issue)
    ensures e in NormalizeRow(lib, sheet, n, row).1 <==> Explained(lib, sheet, n, row, e)
  {
    DateIssue(lib, sheet, n, row, 0, e);
    DateIssue(lib, sheet, n, row, 1, e);
    MoneyIssue(lib, sheet, n, row, 4, e);
    MoneyIssue(lib, sheet, n, row, 6, e);
    MoneyIssue(lib, sheet, n, row, 8, e);
    MoneyIssue(lib, sheet, n, row, 12, e);
    MoneyIssue(lib, sheet, n, row, 13, e);
    MoneyIssue(lib, sheet, n, row, 14, e);
  }

  /* ----- over a whole workbook ----- */

  predicate GivenBy(lib: Library, s: Sheet, i: nat, t: Transaction) {
    i < |s.rows| && HeaderOk(lib, s.header) && !EmptyRow(s.rows[i]) && RowGives(lib, s.name, i + 2, s.rows[i], t)
  }

  ghost predicate Given(lib: Library, sheets: seq<Sheet>, t: Transaction) {
    exists j, i :: 0 <= j < |sheets| && GivenBy(lib, sheets[j], i, t)
  }

  ghost predicate AllGiven(lib: Library, sheets: seq<Sheet>, ts: seq<Transaction>) {
    forall k :: 0 <= k < |ts| ==> Given(lib, sheets, ts[k])
  }

  lemma GivenStays(lib: Library, sheets: seq<Sheet>, s: Sheet, ts: seq<Transaction>)
    requires AllGiven(lib, sheets, ts)
    ensures AllGiven(lib, sheets + [s], ts)
  {
    forall k | 0 <= k < |ts| ensures Given(lib, sheets + [s], ts[k]) {
      var j, i :| 0 <= j < |sheets| && GivenBy(lib, sheets[j], i, ts[k]);
      assert (sheets + [s])[j] == sheets[j];
    }
  }

  lemma GivenOne(lib: Library, sheets: seq<Sheet>, s: Sheet, i: nat, ts: seq<Transaction>, t: Transaction)
    requires AllGiven(lib, sheets + [s], ts) && GivenBy(lib, s, i, t)
    ensures AllGiven(lib, sheets + [s], ts + [t])
  {
    assert (sheets + [s])[|sheets|] == s;
    assert Given(lib, sheets + [s], t);
  }

  lemma AddRowGiven(lib: Library, r: ParseResult, sheets: seq<Sheet>, s: Sheet, i: nat)
    requires AllGiven(lib, sheets + [s], r.transactions) && HeaderOk(lib, s.header) && i < |s.rows|
    ensures AllGiven(lib, sheets + [s], AddRow(lib, r, s.name, i + 2, s.rows[i]).transactions)
  {
    var t := NormalizeRow(lib, s.name, i + 2, s.rows[i]).0;
    if !EmptyRow(s.rows[i]) && t.Some? {
      AcceptedRowGives(lib, s.name, i + 2, s.rows[i]);
      GivenOne(lib, sheets, s, i, r.transactions, t.value);
    }
  }

  lemma {:induction false} AddRowsGiven(lib: Library, r: ParseResult, sheets: seq<Sheet>, s: Sheet, n: nat)
    requires AllGiven(lib, sheets + [s], r.transactions) && HeaderOk(lib, s.header) && n <= |s.rows|
    ensures AllGiven(lib, sheets + [s], AddRows(lib, r, s.name, s.rows[..n]).transactions)
  {
    if n == 0 {
      assert s.rows[..0] == [];
    } else {
      var i: nat := n - 1;
      AddRowsGiven(lib, r, sheets, s, i);
      assert s.rows[..n][..i] == s.rows[..i] && s.rows[..n][i] == s.rows[i];
      var before := AddRows(lib, r, s.name, s.rows[..i]);
      assert AddRows(lib, r, s.name, s.rows[..n]) == AddRow(lib, before, s.name, i + 2, s.rows[i]);
      AddRowGiven(lib, before, sheets, s, i);
    }
  }

  lemma {:induction false} RowsKeepMatched(lib: Library, r: ParseResult, sheet: string, rows: seq<seq<Cell>>)
    ensures AddRows(lib, r, sheet, rows).matched == r.matched
  {
    if rows != [] { RowsKeepMatched(lib, r, sheet, rows[..|rows| - 1]); }
  }

  lemma {:induction false} AddSheetsGiven(lib: Library, r: ParseResult, sheets: seq<Sheet>)
    requires r.transactions == []
    ensures AllGiven(lib, sheets, AddSheets(lib, r, sheets, true).transactions)
    ensures AddSheets(lib, r, sheets, true).matched == r.matched
  {
    if sheets != [] {
      var before, last := sheets[..|sheets| - 1], sheets[|sheets| - 1];
      assert sheets == before + [last];
      AddSheetsGiven(lib, r, before);
      var mid := AddSheets(lib, r, before, true);
      GivenStays(lib, before, last, mid.transactions);
      RowsKeepMatched(lib, mid, last.name, last.rows);
      if HeaderOk(lib, last.header) {
        AddRowsGiven(lib, mid, before, last, |last.rows|);
        assert last.rows[..|last.rows|] == last.rows;
      }
    }
  }

  lemma {:induction false} MatchingMatch(lib: Library, sheets: seq<Sheet>)
    ensures forall s <- Matching(lib, sheets) :: s in sheets && SheetMatches(lib.digit, s.name)
    ensures forall s <- sheets :: SheetMatches(lib.digit, s.name) ==> s in Matching(lib, sheets)
  {
    if sheets != [] {
      MatchingMatch(lib, sheets[..|sheets| - 1]);
      assert sheets == sheets[..|sheets| - 1] + [sheets[|sheets| - 1]];
    }
  }

  lemma NamePrefix(digit: char -> bool, name: string)
    requires SheetMatches(digit, name)
    ensures "\U{0420}_" <= name <==> name[0] == '\U{0420}'
    ensures name[0] == '\U{0420}' || name[0] == '\U{0414}'
  {
    assert name[..2] == [name[0], name[1]];
  }

  /**
   * Over any workbook: each transaction is given, field by field, by a non-empty row of a sheet of the
   * workbook with the supported header and a name of the form that is imported; it names one of the matched
   * sheets, and is an expense exactly when that name starts with a Cyrillic R and an income exactly when it
   * starts with a Cyrillic D.
   */
  lemma TransactionsComeFromRows(lib: Library, w: Workbook, k: nat)
    requires k < |Parse(lib, w, true).transactions|
    ensures var r := Parse(lib, w, true);
            var t := r.transactions[k];
            && w.Workbook?
            && (exists s, i :: s in w.sheets && SheetMatches(lib.digit, s.name) && GivenBy(lib, s, i, t))
            && t.sheet in r.matched && t.sheet != ""
            && (t.expense <==> t.sheet[0] == '\U{0420}') && (!t.expense <==> t.sheet[0] == '\U{0414}')
  {
    var sheets := Matching(lib, w.sheets);
    var start := ParseResult(Names(sheets), 0, [], []);
    var t := Parse(lib, w, true).transactions[k];
    AddSheetsGiven(lib, start, sheets);
    MatchingMatch(lib, w.sheets);
    assert Given(lib, sheets, t);
    var j, i :| 0 <= j < |sheets| && GivenBy(lib, sheets[j], i, t);
    assert sheets[j] in sheets && Names(sheets)[j] == t.sheet;
    NamePrefix(lib.digit, t.sheet);
  }

  /* ----- the order of the results ----- */

  /** What `x` adds to `r`, after what `r` has. */
  function Plus(r: ParseResult, x: ParseResult): ParseResult {
    ParseResult(r.matched, r.totalRows + x.totalRows, r.transactions + x.transactions, r.errors + x.errors)
  }

  lemma AddRowPlus(lib: Library, r: ParseResult, x: ParseResult, sheet: string, n: nat, row: seq<Cell>)
    ensures AddRow(lib, Plus(r, x), sheet, n, row) == Plus(r, AddRow(lib, x, sheet, n, row))
  {
    var (t, issues) := NormalizeRow(lib, sheet, n, row);
    Associates(r.errors, x.errors, issues);
    if t.Some? { Associates(r.transactions, x.transactions, [t.value]); }
  }

  lemma {:induction false} AddRowsPlus(lib: Library, r: ParseResult, x: ParseResult, sheet: string,
                                       rows: seq<seq<Cell>>)
    ensures AddRows(lib, Plus(r, x), sheet, rows) == Plus(r, AddRows(lib, x, sheet, rows))
  {
    if rows != [] {
      var before, last := rows[..|rows| - 1], rows[|rows| - 1];
      AddRowsPlus(lib, r, x, sheet, before);
      AddRowPlus(lib, r, AddRows(lib, x, sheet, before), sheet, |rows| + 1, last);
    }
  }

  lemma AddSheetPlus(lib: Library, r: ParseResult, x: ParseResult, s: Sheet)
    ensures AddSheet(lib, Plus(r, x), s, true) == Plus(r, AddSheet(lib, x, s, true))
  {
    var issue := Issue(Some(s.name), Some(1), None, "unsupported_header");
    Associates(r.errors, x.errors, [issue]);
    AddRowsPlus(lib, r, x, s.name, s.rows);
  }

  lemma {:induction false} AddSheetsPlus(lib: Library, r: ParseResult, x: ParseResult, sheets: seq<Sheet>)
    ensures AddSheets(lib, Plus(r, x), sheets, true) == Plus(r, AddSheets(lib, x, sheets, true))
  {
    if sheets != [] {
      AddSheetsPlus(lib, r, x, sheets[..|sheets| - 1]);
      AddSheetPlus(lib, r, AddSheets(lib, x, sheets[..|sheets| - 1], true), sheets[|sheets| - 1]);
    }
  }

  lemma {:induction false} AddSheetsConcat(lib: Library, r: ParseResult, a: seq<Sheet>, b: seq<Sheet>)
    ensures AddSheets(lib, r, a + b, true) == AddSheets(lib, AddSheets(lib, r, a, true), b, true)
  {
    if b == [] {
      assert a + b == a;
    } else {
      var before, last := b[..|b| - 1], b[|b| - 1];
      AddSheetsConcat(lib, r, a, before);
      assert (a + b)[..|a + b| - 1] == a + before && (a + b)[|a + b| - 1] == last;
    }
  }

  lemma {:induction false} MatchingConcat(lib: Library, a: seq<Sheet>, b: seq<Sheet>)
    ensures Matching(lib, a + b) == Matching(lib, a) + Matching(lib, b)
  {
    if b == [] {
      assert a + b == a;
    } else {
      var before, last := b[..|b| - 1], b[|b| - 1];
      MatchingConcat(lib, a, before);
      assert (a + b)[..|a + b| - 1] == a + before && (a + b)[|a + b| - 1] == last;
    }
  }

  lemma {:induction false} SheetsFrom(lib: Library, m: seq<string>, m': seq<string>, sheets: seq<Sheet>)
    ensures AddSheets(lib, ParseResult(m, 0, [], []), sheets, true) ==
            AddSheets(lib, ParseResult(m', 0, [], []), sheets, true).(matched := m)
  {
    var x := ParseResult(m', 0, [], []);
    AddSheetsPlus(lib, ParseResult(m, 0, [], []), x, sheets);
    assert Plus(ParseResult(m, 0, [], []), x) == ParseResult(m, 0, [], []);
    var y := AddSheets(lib, x, sheets, true);
    assert Plus(ParseResult(m, 0, [], []), y) == y.(matched := m);
  }

  function Imported(lib: Library, sheets: seq<Sheet>): ParseResult {
    AddSheets(lib, ParseResult(Names(sheets), 0, [], []), sheets, true)
  }

  lemma ImportedConcat(lib: Library, a: seq<Sheet>, b: seq<Sheet>)
    ensures Imported(lib, a + b) == Plus(Imported(lib, a), Imported(lib, b)).(matched := Names(a) + Names(b))
  {
    var names := Names(a + b);
    assert names == Names(a) + Names(b);
    var start := ParseResult(names, 0, [], []);
    AddSheetsConcat(lib, start, a, b);
    var mid := AddSheets(lib, start, a, true);
    AddSheetsPlus(lib, mid, start, b);
    assert Plus(mid, start) == mid;
    SheetsFrom(lib, names, Names(a), a);
    SheetsFrom(lib, names, Names(b), b);
  }

  lemma ParseIsImported(lib: Library, sheets: seq<Sheet>)
    requires Matching(lib, sheets) != []
    ensures Parse(lib, Workbook(sheets), true) == Imported(lib, Matching(lib, sheets))
    ensures Imported(lib, Matching(lib, sheets)).matched == Names(Matching(lib, sheets))
  {
    var m := Matching(lib, sheets);
    AddSheetsGiven(lib, ParseResult(Names(m), 0, [], []), m);
  }

  /**
   * Results come in the order of the sheets: of two lists of sheets that have some to import, the names,
   * transactions and issues of the first come before those of the second, and the rows add up.
   */
  lemma PartsConcatenate(lib: Library, a: seq<Sheet>, b: seq<Sheet>)
    requires Matching(lib, a) != [] && Matching(lib, b) != []
    ensures var p, q := Parse(lib, Workbook(a), true), Parse(lib, Workbook(b), true);
            Parse(lib, Workbook(a + b), true) ==
            ParseResult(p.matched + q.matched, p.totalRows + q.totalRows, p.transactions + q.transactions,
                        p.errors + q.errors)
  {
    MatchingConcat(lib, a, b);
    ParseIsImported(lib, a);
    ParseIsImported(lib, b);
    ParseIsImported(lib, a + b);
    ImportedConcat(lib, Matching(lib, a), Matching(lib, b));
  }

  predicate Ascending(ts: seq<Transaction>, n: nat) {
    && (forall i :: 0 <= i < |ts| ==> ts[i].row < n)
    && (forall i, j :: 0 <= i < j < |ts| ==> ts[i].row < ts[j].row)
  }

  lemma AscendingAppend(ts: seq<Transaction>, n: nat, t: Transaction)
    requires Ascending(ts, n) && t.row == n
    ensures Ascending(ts, n + 1) && Ascending(ts + [t], n + 1)
  {
  }

  lemma AddRowAscends(lib: Library, r: ParseResult, sheet: string, n: nat, row: seq<Cell>)
    requires Ascending(r.transactions, n)
    ensures Ascending(AddRow(lib, r, sheet, n, row).transactions, n + 1)
  {
    var t := NormalizeRow(lib, sheet, n, row).0;
    if t.Some? { AscendingAppend(r.transactions, n, t.value); }
  }

  lemma {:induction false} AddRowsAscend(lib: Library, r: ParseResult, sheet: string, rows: seq<seq<Cell>>)
    requires r.transactions == []
    ensures Ascending(AddRows(lib, r, sheet, rows).transactions, |rows| + 2)
  {
    if rows != [] {
      var before := rows[..|rows| - 1];
      AddRowsAscend(lib, r, sheet, before);
      AddRowAscends(lib, AddRows(lib, r, sheet, before), sheet, |rows| + 1, rows[|rows| - 1]);
    }
  }

  lemma OneSheet(lib: Library, r: ParseResult, s: Sheet)
    ensures AddSheets(lib, r, [s], true) == AddSheet(lib, r, s, true)
    ensures Matching(lib, [s]) == if SheetMatches(lib.digit, s.name) then [s] else []
  {
    assert [s][..0] == [];
  }

  /** Within a sheet, transactions come in the order of their rows. */
  lemma RowsAscend(lib: Library, s: Sheet, i: nat, j: nat)
    requires i < j < |Parse(lib, Workbook([s]), true).transactions|
    ensures var ts := Parse(lib, Workbook([s]), true).transactions; ts[i].row < ts[j].row
  {
    var start := ParseResult(Names([s]), 0, [], []);
    OneSheet(lib, start, s);
    AddRowsAscend(lib, start, s.name, s.rows);
  }

  /* ----- the issues of a whole workbook ----- */

  /** A non-empty row of the sheet calls for the issue. */
  predicate RowBlamed(lib: Library, s: Sheet, n: nat, e: Issue)
    requires n <= |s.rows|
  {
    exists i :: 0 <= i < n && !EmptyRow(s.rows[i]) && Explained(lib, s.name, i + 2, s.rows[i], e)
  }

  /** The sheet's header is not supported and the issue says so, or it is and one of its rows calls for it. */
  predicate Blamed(lib: Library, s: Sheet, e: Issue) {
    if HeaderOk(lib, s.header) then RowBlamed(lib, s, |s.rows|, e)
    else e == Issue(Some(s.name), Some(1), None, "unsupported_header")
  }

  predicate SomeBlamed(lib: Library, sheets: seq<Sheet>, e: Issue) {
    exists j :: 0 <= j < |sheets| && Blamed(lib, sheets[j], e)
  }

  lemma RowBlamedNext(lib: Library, s: Sheet, n: nat, e: Issue)
    requires n < |s.rows|
    ensures RowBlamed(lib, s, n + 1, e) <==>
            RowBlamed(lib, s, n, e) || (!EmptyRow(s.rows[n]) && Explained(lib, s.name, n + 2, s.rows[n], e))
  {
  }

  lemma {:induction false} AddRowsBlamed(lib: Library, r: ParseResult, s: Sheet, n: nat, e: Issue)
    requires n <= |s.rows|
    ensures e in AddRows(lib, r, s.name, s.rows[..n]).errors <==> e in r.errors || RowBlamed(lib, s, n, e)
  {
    if n == 0 {
      assert s.rows[..0] == [];
    } else {
      var i: nat := n - 1;
      AddRowsBlamed(lib, r, s, i, e);
      assert s.rows[..n][..i] == s.rows[..i] && s.rows[..n][i] == s.rows[i];
      assert AddRows(lib, r, s.name, s.rows[..n]) ==
             AddRow(lib, AddRows(lib, r, s.name, s.rows[..i]), s.name, i + 2, s.rows[i]);
      IssuesExactly(lib, s.name, i + 2, s.rows[i], e);
      RowBlamedNext(lib, s, i, e);
    }
  }

  lemma SomeBlamedNext(lib: Library, before: seq<Sheet>, last: Sheet, e: Issue)
    ensures SomeBlamed(lib, before + [last], e) <==> SomeBlamed(lib, before, e) || Blamed(lib, last, e)
  {
    assert (before + [last])[|before|] == last;
    if j :| 0 <= j < |before| && Blamed(lib, before[j], e) { assert (before + [last])[j] == before[j]; }
  }

  lemma {:induction false} AddSheetsBlamed(lib: Library, r: ParseResult, sheets: seq<Sheet>, e: Issue)
    ensures e in AddSheets(lib, r, sheets, true).errors <==> e in r.errors || SomeBlamed(lib, sheets, e)
  {
    if sheets != [] {
      var before, last := sheets[..|sheets| - 1], sheets[|sheets| - 1];
      assert sheets == before + [last];
      AddSheetsBlamed(lib, r, before, e);
      SomeBlamedNext(lib, before, last, e);
      if HeaderOk(lib, last.header) {
        AddRowsBlamed(lib, AddSheets(lib, r, before, true), last, |last.rows|, e);
        assert last.rows[..|last.rows|] == last.rows;
      }
    }
  }

  /**
   * The issues of a workbook: the one that it cannot be read, the one that it has no sheet to import, or
   * exactly those that the headers and rows of the sheets to import call for.
   */
  lemma WorkbookIssuesExactly(lib: Library, w: Workbook, e: Issue)
    ensures var r := Parse(lib, w, true);
            e in r.errors <==>
            if w.Unreadable? then e == Issue(None, None, None, "invalid_workbook")
            else if forall s <- w.sheets :: !SheetMatches(lib.digit, s.name)
            then e == Issue(None, None, None, "no_supported_sheets")
            else exists s <- w.sheets :: SheetMatches(lib.digit, s.name) && Blamed(lib, s, e)
  {
    if w.Workbook? {
      var sheets := Matching(lib, w.sheets);
      MatchingMatch(lib, w.sheets);
      if sheets != [] {
        assert sheets[0] in sheets;
        AddSheetsBlamed(lib, ParseResult(Names(sheets), 0, [], []), sheets, e);
        if j :| 0 <= j < |sheets| && Blamed(lib, sheets[j], e) { assert sheets[j] in sheets; }
        if s :| s in sheets && Blamed(lib, s, e) {
          var j :| 0 <= j < |sheets| && sheets[j] == s;
          assert SomeBlamed(lib, sheets, e);
        }
      }
    }
  }
}
