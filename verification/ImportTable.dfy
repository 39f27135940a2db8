/**
 * Storing imported transactions: the finance service resolves the account of every row and inserts
 * the rows it has not seen, the file service sends a parsed file in chunks.
 *
 * All data belong to one user. `Bulk` is one `transactions.bulk_create`, `Send` one pass over the
 * chunks; `FinanceService` and `ImportService` are the imperative services.
 */
module ImportTable {
  import opened Wrappers
  import opened DedupeKey
  import opened SheetParser
  import opened Ceiling

  /** A transaction as the file service sends it. */
  datatype Item = Item(importId: nat, fileId: nat, tx: Transaction)

  /** An item as any caller may send it: fields may be missing, the key too, and it may name an account. */
  datatype Draft = Draft(item: Item, complete: bool, keyed: bool, account: Option<nat>)

  /** A stored transaction; the table is keyed by dedupe key. */
  datatype Row = Row(item: Item, account: Option<nat>)

  /** An account's id is its position. */
  datatype Account = Account(card: Option<string>, archived: bool)

  datatype Books = Books(rows: map<string, Row>, accounts: seq<Account>)
  datatype Finance = Finance(books: Books, version: nat)

  /** What the second unique constraint ranges over. */
  datatype Place = Place(file: nat, sheet: string, row: nat)

  function PlaceOf(r: Row): Place {
    Place(r.item.fileId, r.item.tx.sheet, r.item.tx.row)
  }

  /* ----- accounts ----- */

  /** The first account of that card that is not archived. */
  function FindActive(accounts: seq<Account>, card: string): (i: Option<nat>)
    ensures i.Some? ==> i.value < |accounts| && accounts[i.value] == Account(Some(card), false)
    ensures i.Some? ==> forall k :: 0 <= k < i.value ==> accounts[k] != Account(Some(card), false)
    ensures i.None? ==> forall k :: 0 <= k < |accounts| ==> accounts[k] != Account(Some(card), false)
  {
    if accounts == [] then None
    else
      var earlier := FindActive(accounts[..|accounts| - 1], card);
      if earlier.Some? then earlier
      else if accounts[|accounts| - 1] == Account(Some(card), false) then Some(|accounts| - 1)
      else None
  }

  /** Reuses the card's account; without a card, or when it has none in use, opens one. */
  function Resolve(accounts: seq<Account>, card: Option<string>): (seq<Account>, nat) {
    var found := if card.Some? then FindActive(accounts, card.value) else None;
    if found.Some? then (accounts, found.value) else (accounts + [Account(card, false)], |accounts|)
  }

  function Prepare(accounts: seq<Account>, item: Item): (seq<Account>, Row) {
    var card := item.tx.cardLast4;
    if card.None? then (accounts, Row(item, None))
    else var (accounts', id) := Resolve(accounts, card); (accounts', Row(item, Some(id)))
  }

  function PrepareAll(accounts: seq<Account>, items: seq<Item>): (r: (seq<Account>, seq<Row>))
    ensures |r.1| == |items| && forall i :: 0 <= i < |items| ==> r.1[i].item == items[i]
  {
    if items == [] then (accounts, [])
    else
      var (before, rows) := PrepareAll(accounts, items[..|items| - 1]);
      var (after, row) := Prepare(before, items[|items| - 1]);
      (after, rows + [row])
  }

  /** Both times carry a date; `_parse_datetime` raises on one that does not. */
  predicate Dated(tx: Transaction) {
    tx.operationAt.DateTime? && (tx.paymentAt.Some? ==> tx.paymentAt.value.DateTime?)
  }

  predicate AllDated(items: seq<Item>) {
    forall i :: 0 <= i < |items| ==> Dated(items[i].tx)
  }

  /** The item to store; without a key it gets one from its sheet and row. */
  function Keyed(d: Draft): Item {
    if d.keyed then d.item
    else d.item.(tx := d.item.tx.(dedupeKey := d.item.tx.sheet + ":" + Decimal(d.item.tx.row)))
  }

  /** No row when a required field is missing or a time has no date; an account it names is taken as it is. */
  function PrepareDraft(accounts: seq<Account>, d: Draft): (seq<Account>, Option<Row>) {
    if !d.complete then (accounts, None)
    else
      var (accounts', row) :=
        if d.account.Some? then (accounts, Row(Keyed(d), d.account)) else Prepare(accounts, Keyed(d));
      (accounts', if Dated(d.item.tx) then Some(row) else None)
  }

  /* ----- INSERT ... ON CONFLICT (user_id, dedupe_key) DO NOTHING ----- */

  predicate Taken(t: map<string, Row>, place: Place) {
    exists key :: key in t && PlaceOf(t[key]) == place
  }

  /** None: a row that is new by key sits at a place another row holds, and the statement is rolled back. */
  function Insert(t: map<string, Row>, rows: seq<Row>): Option<map<string, Row>> {
    if rows == [] then Some(t)
    else
      var last := rows[|rows| - 1];
      match Insert(t, rows[..|rows| - 1])
      case None => None
      case Some(t') =>
        if last.item.tx.dedupeKey in t' then Some(t')
        else if Taken(t', PlaceOf(last)) then None
        else Some(t'[last.item.tx.dedupeKey := last])
  }

  lemma {:induction false} InsertFailsOn(t: map<string, Row>, rows: seq<Row>, k: nat)
    requires k <= |rows| && Insert(t, rows[..k]).None?
    ensures Insert(t, rows).None?
  {
    if k < |rows| {
      assert rows[..|rows| - 1][..k] == rows[..k];
      InsertFailsOn(t, rows[..|rows| - 1], k);
    } else {
      assert rows[..k] == rows;
    }
  }

  lemma {:induction false} InsertGrows(t: map<string, Row>, rows: seq<Row>)
    ensures Insert(t, rows).Some? ==> |Insert(t, rows).value| >= |t|
  {
    if rows != [] { InsertGrows(t, rows[..|rows| - 1]); }
  }

  /** The statement's row count: by how much the table grew. */
  function Added(t: map<string, Row>, t': map<string, Row>): nat {
    if |t'| > |t| then |t'| - |t| else 0
  }

  /** Whether a row may be added: its key and its place are free, and an account it names exists. */
  predicate Insertable(b: Books, r: Row) {
    && r.item.tx.dedupeKey !in b.rows && !Taken(b.rows, PlaceOf(r))
    && (r.account.Some? ==> r.account.value < |b.accounts|)
  }

  /** `transactions.create`; None when it raises and is rolled back. */
  function CreateOne(f: Finance, d: Draft): Option<Finance> {
    var (accounts, row) := PrepareDraft(f.books.accounts, d);
    if row.None? || !Insertable(Books(f.books.rows, accounts), row.value) then None
    else Some(Finance(Books(f.books.rows[row.value.item.tx.dedupeKey := row.value], accounts), f.version + 1))
  }

  datatype Reply = Rejected | Done(finance: Finance, received: nat, inserted: nat)

  function Bulk(f: Finance, items: seq<Item>): Reply {
    if items == [] then Done(f, 0, 0)
    else if !AllDated(items) then Rejected
    else
      var (accounts, rows) := PrepareAll(f.books.accounts, items);
      match Insert(f.books.rows, rows)
      case None => Rejected
      case Some(t) =>
        var inserted := Added(f.books.rows, t);
        Done(Finance(Books(t, accounts), if inserted > 0 then f.version + 1 else f.version), |items|, inserted)
  }

  /* ----- the reference: first writer wins, row by row ----- */

  function Keep(t: map<string, Row>, r: Row): map<string, Row> {
    if r.item.tx.dedupeKey in t then t else t[r.item.tx.dedupeKey := r]
  }

  function Merge(t: map<string, Row>, rows: seq<Row>): map<string, Row> {
    if rows == [] then t else Keep(Merge(t, rows[..|rows| - 1]), rows[|rows| - 1])
  }

  /** The books after all items, were they taken one at a time. */
  function Apply(b: Books, items: seq<Item>): Books {
    var (accounts, rows) := PrepareAll(b.accounts, items);
    Books(Merge(b.rows, rows), accounts)
  }

  predicate Apart(t: map<string, Row>, a: string, b: string) {
    a in t && b in t && a != b ==> PlaceOf(t[a]) != PlaceOf(t[b])
  }

  /** The second unique constraint: no two rows hold the same place. */
  ghost predicate PlacesDistinct(t: map<string, Row>) {
    forall a, b :: Apart(t, a, b)
  }

  /* ----- _send_transactions ----- */

  /** What can go wrong with one pass; chunks count from 0. */
  datatype Fault = NoFault | StorageDown | RequestLost(chunk: nat) | ReplyLost(chunk: nat) | Dies(chunk: nat)

  datatype Sent = Sent(finance: Finance, inserted: nat, raised: bool)

  /** The k-th chunk starts where the chunks before it end. */
  function ChunkAt(items: seq<Item>, size: nat, k: nat): seq<Item> {
    var from := Reach(|items|, size, k);
    items[from..if from + size < |items| then from + size else |items|]
  }

  /** The k-th chunk, after those before it came to s. */
  function SendNext(s: Sent, chunk: seq<Item>, fault: Fault, k: nat): Sent {
    if s.raised then s
    else if fault == RequestLost(k) || fault == Dies(k) then s.(raised := true)
    else
      match Bulk(s.finance, chunk)
      case Rejected => s.(raised := true)
      case Done(f', _, inserted) =>
        if fault == ReplyLost(k) then Sent(f', s.inserted, true) else Sent(f', s.inserted + inserted, false)
  }

  /** The first k chunks. */
  function SendChunks(f: Finance, items: seq<Item>, size: nat, fault: Fault, k: nat): Sent {
    if k == 0 then Sent(f, 0, false)
    else SendNext(SendChunks(f, items, size, fault, k - 1), ChunkAt(items, size, k - 1), fault, k - 1)
  }

  lemma {:induction false} RaisedStays(f: Finance, items: seq<Item>, size: nat, fault: Fault, k: nat, n: nat)
    requires k <= n && SendChunks(f, items, size, fault, k).raised
    ensures SendChunks(f, items, size, fault, n) == SendChunks(f, items, size, fault, k)
  {
    if k < n {
      RaisedStays(f, items, size, fault, k, n - 1);
      var s := SendChunks(f, items, size, fault, n - 1);
      assert SendChunks(f, items, size, fault, n) == SendNext(s, ChunkAt(items, size, n - 1), fault, n - 1);
    }
  }

  function Send(f: Finance, items: seq<Item>, size: nat, fault: Fault): Sent
    requires size > 0
  {
    SendChunks(f, items, size, fault, CeilDiv(|items|, size))
  }

  const CHUNK: nat := 500

  /* ----- process_import_job ----- */

  datatype JobStatus = Queued | Running | Completed | PartiallyCompleted | Failed

  datatype Job = Job(fileId: nat, status: JobStatus, started: bool, finished: bool, error: Option<string>,
                     totalRows: nat, parsedRows: nat, failedRows: nat)

  datatype FileStatus = Uploaded | Parsed | Unparsed
  datatype UploadedFile = UploadedFile(status: FileStatus, content: Workbook)
  datatype StoredIssue = StoredIssue(importId: nat, issue: Issue)
  datatype Event = Started(importId: nat) | Finished(importId: nat) | Broke(importId: nat)

  datatype Importer = Importer(
    jobs: map<nat, Job>, files: map<nat, UploadedFile>, issues: seq<StoredIssue>,
    locks: set<nat>, events: seq<Event>, finance: Finance)

  function ItemsOf(importId: nat, fileId: nat, ts: seq<Transaction>): seq<Item> {
    seq(|ts|, i requires 0 <= i < |ts| => Item(importId, fileId, ts[i]))
  }

  function IssuesOf(importId: nat, es: seq<Issue>): seq<StoredIssue> {
    seq(|es|, i requires 0 <= i < |es| => StoredIssue(importId, es[i]))
  }

  function Verdict(r: ParseResult): JobStatus {
    if r.errors != [] && r.transactions != [] then PartiallyCompleted
    else if r.errors != [] then Failed
    else Completed
  }

  function Begin(s: Importer, id: nat): Importer
    requires id in s.jobs
  {
    s.(jobs := s.jobs[id := s.jobs[id].(status := Running, started := true, error := None)],
       events := s.events + [Started(id)])
  }

  /** The job after an exception. */
  function Break(s: Importer, id: nat): Importer
    requires id in s.jobs && s.jobs[id].fileId in s.files
  {
    var job := s.jobs[id];
    s.(jobs := s.jobs[id := job.(status := Failed, error := Some("raised"), finished := true)],
       files := s.files[job.fileId := s.files[job.fileId].(status := Unparsed)],
       events := s.events + [Broke(id)])
  }

  /** The job after all chunks were sent. */
  function Conclude(s: Importer, id: nat, r: ParseResult): Importer
    requires id in s.jobs && s.jobs[id].fileId in s.files
  {
    var v, job := Verdict(r), s.jobs[id];
    var job' := Job(job.fileId, v, job.started, true, if v == Failed then Some(r.errors[0].code) else job.error,
                    r.totalRows, |r.transactions|, FailedRows(r.errors));
    var file := s.files[job.fileId].(status := if v == Failed then Unparsed else Parsed);
    var s' := s.(jobs := s.jobs[id := job'], files := s.files[job.fileId := file]);
    if v == Failed then s'
    else s'.(events := s.events + [Finished(id)], finance := s.finance.(version := s.finance.version + 1))
  }

  function RunUnlocked(s: Importer, lib: Library, id: nat, fault: Fault): Importer
    requires id in s.jobs && s.jobs[id].fileId in s.files
  {
    var begun, fileId := Begin(s, id), s.jobs[id].fileId;
    if fault.StorageDown? then Break(begun, id)
    else
      var r := Parse(lib, s.files[fileId].content, true);
      var sent := Send(s.finance, ItemsOf(id, fileId, r.transactions), CHUNK, fault);
      if fault.Dies? then begun.(locks := s.locks + {id}, finance := sent.finance)
      else
        var stored := begun.(issues := s.issues + IssuesOf(id, r.errors), finance := sent.finance);
        if sent.raised then Break(stored, id) else Conclude(stored, id, r)
  }

  lemma LockIsBracket(s: Importer, lib: Library, id: nat, fault: Fault)
    requires id in s.jobs && s.jobs[id].fileId in s.files && !fault.Dies?
    ensures RunUnlocked(s.(locks := s.locks + {id}), lib, id, fault) ==
            RunUnlocked(s, lib, id, fault).(locks := s.locks + {id})
    ensures RunUnlocked(s, lib, id, fault).locks == s.locks
  {
  }

  function RunImport(s: Importer, lib: Library, id: nat, fault: Fault): Importer {
    if id in s.locks || id !in s.jobs then s
    else if s.jobs[id].fileId !in s.files then
      s.(jobs := s.jobs[id := s.jobs[id].(status := Failed, error := Some("no file"), finished := true)])
    else RunUnlocked(s, lib, id, fault)
  }

  /* ----- the services ----- */

  class FinanceService {
    var rows: map<string, Row>
    var accounts: seq<Account>
    var version: nat

    ghost function View(): Finance
      reads this
    {
      Finance(Books(rows, accounts), version)
    }

    constructor ()
      ensures View() == Finance(Books(map[], []), 0)
    {
      rows, accounts, version := map[], [], 0;
    }

    /** `_resolve_account` after the cut to four digits: reuse the card's active account or open one. */
    method ResolveAccount(card: Option<string>) returns (id: nat)
      modifies `accounts
      ensures accounts == Resolve(old(accounts), card).0 && id == Resolve(old(accounts), card).1
    {
      if card.Some? {
        var i := 0;
        while i < |accounts|
          invariant i <= |accounts|
          invariant forall k :: 0 <= k < i ==> accounts[k] != Account(card, false)
        {
          if accounts[i] == Account(card, false) { return i; }
          i := i + 1;
        }
      }
      id := |accounts|;
      accounts := accounts + [Account(card, false)];
    }

    /** accounts.resolve_by_card: cut the card to four digits, then resolve it. */
    method ResolveByCard(digit: char -> bool, card: Option<string>) returns (id: nat)
      modifies `accounts
      ensures var (accounts', i) := Resolve(old(accounts), CardLast4(digit, card)); accounts == accounts' && id == i
    {
      id := ResolveAccount(CardLast4(digit, card));
    }

    /** `_prepare_transaction_row`; it has resolved the account when it raises on a time without a date. */
    method PrepareTransactionRow(d: Draft) returns (row: Option<Row>)
      modifies `accounts
      ensures (accounts, row) == PrepareDraft(old(accounts), d)
    {
      if !d.complete { return None; }
      var account := d.account;
      if account.None? && d.item.tx.cardLast4.Some? {
        var id := ResolveAccount(d.item.tx.cardLast4);
        account := Some(id);
      }
      if d.item.tx.operationAt.TimeOfDay? { return None; }
      if d.item.tx.paymentAt.Some? && d.item.tx.paymentAt.value.TimeOfDay? { return None; }
      row := Some(Row(Keyed(d), account));
    }

    /** `transactions.create`; ok is false when it raised and was rolled back. */
    method CreateTransaction(d: Draft) returns (ok: bool)
      modifies this
      ensures ok <==> CreateOne(old(View()), d).Some?
      ensures View() == if ok then CreateOne(old(View()), d).value else old(View())
    {
      var kept := accounts;
      var row := PrepareTransactionRow(d);
      if row.None? || row.value.item.tx.dedupeKey in rows
         || (exists other <- rows.Keys :: PlaceOf(rows[other]) == PlaceOf(row.value))
         || (row.value.account.Some? && row.value.account.value >= |accounts|)
      {
        accounts := kept;
        return false;
      }
      rows := rows[row.value.item.tx.dedupeKey := row.value];
      version := version + 1;
      ok := true;
    }

    /** None when a row cannot be prepared; the accounts opened so far are then in the session. */
    method PrepareRows(items: seq<Item>) returns (prepared: Option<seq<Row>>)
      modifies `accounts
      ensures prepared.Some? <==> AllDated(items)
      ensures prepared.Some? ==> (accounts, prepared.value) == PrepareAll(old(accounts), items)
    {
      var rows := [];
      for i := 0 to |items|
        invariant (accounts, rows) == PrepareAll(old(accounts), items[..i])
        invariant forall k :: 0 <= k < i ==> Dated(items[k].tx)
      {
        assert items[..i + 1][..i] == items[..i];
        var row := PrepareTransactionRow(Draft(items[i], true, true, None));
        if row.None? { return None; }
        rows := rows + [row.value];
      }
      assert items[..|items|] == items;
      prepared := Some(rows);
    }

    /** The insert statement; None when it raises. */
    method InsertRows(prepared: seq<Row>) returns (table: Option<map<string, Row>>)
      ensures table == Insert(rows, prepared)
    {
      var t := rows;
      for i := 0 to |prepared|
        invariant Insert(rows, prepared[..i]) == Some(t)
      {
        assert prepared[..i + 1][..i] == prepared[..i];
        var key := prepared[i].item.tx.dedupeKey;
        if key !in t {
          if exists other <- t.Keys :: PlaceOf(t[other]) == PlaceOf(prepared[i]) {
            InsertFailsOn(rows, prepared, i + 1);
            return None;
          }
          t := t[key := prepared[i]];
        }
      }
      assert prepared[..|prepared|] == prepared;
      table := Some(t);
    }

    /** One `transactions.bulk_create`; ok is false when it raised and was rolled back. */
    method BulkCreate(items: seq<Item>) returns (ok: bool, received: nat, inserted: nat)
      modifies this
      ensures ok <==> Bulk(old(View()), items).Done?
      ensures ok ==> Bulk(old(View()), items) == Done(View(), received, inserted)
      ensures !ok ==> View() == old(View()) && received == inserted == 0
    {
      ok, received, inserted := true, 0, 0;
      if items == [] { return; }
      var kept := accounts;
      var prepared := PrepareRows(items);
      if prepared.None? {
        accounts := kept;
        return false, 0, 0;
      }
      var table := InsertRows(prepared.value);
      if table.None? {
        accounts := kept;
        return false, 0, 0;
      }
      InsertGrows(rows, prepared.value);
      received, inserted := |items|, |table.value| - |rows|;
      rows := table.value;
      if inserted > 0 { version := version + 1; }
    }
  }

  class ImportService {
    const lib: Library
    const finance: FinanceService
    var jobs: map<nat, Job>
    var files: map<nat, UploadedFile>
    var issues: seq<StoredIssue>
    var locks: set<nat>
    var events: seq<Event>

    ghost function View(): Importer
      reads this, finance
    {
      Importer(jobs, files, issues, locks, events, finance.View())
    }

    constructor (lib: Library, finance: FinanceService)
      ensures this.lib == lib && this.finance == finance
      ensures View() == Importer(map[], map[], [], {}, [], finance.View())
    {
      this.lib, this.finance := lib, finance;
      jobs, files, issues, locks, events := map[], map[], [], {}, [];
    }

    method SendChunk(chunk: seq<Item>, fault: Fault, k: nat, inserted: nat) returns (inserted': nat, raised: bool)
      requires !fault.Dies?
      modifies finance
      ensures Sent(finance.View(), inserted', raised)
              == SendNext(Sent(old(finance.View()), inserted, false), chunk, fault, k)
    {
      if fault == RequestLost(k) { return inserted, true; }
      var ok, _, added := finance.BulkCreate(chunk);
      if !ok || fault == ReplyLost(k) { return inserted, true; }
      return inserted + added, false;
    }

    /** `_send_transactions`: sends the chunks in order and stops at the first that fails. */
    method SendTransactions(items: seq<Item>, fault: Fault) returns (inserted: nat, raised: bool)
      requires !fault.Dies?
      modifies finance
      ensures Sent(finance.View(), inserted, raised) == Send(old(finance.View()), items, CHUNK, fault)
    {
      inserted, raised := 0, false;
      var k := 0;
      while k < CeilDiv(|items|, CHUNK) && !raised
        invariant k <= CeilDiv(|items|, CHUNK)
        invariant SendChunks(old(finance.View()), items, CHUNK, fault, k) == Sent(finance.View(), inserted, raised)
      {
        inserted, raised := SendChunk(ChunkAt(items, CHUNK, k), fault, k, inserted);
        k := k + 1;
      }
      if raised { RaisedStays(old(finance.View()), items, CHUNK, fault, k, CeilDiv(|items|, CHUNK)); }
    }

    method FailJob(id: nat, message: string)
      requires id in jobs
      modifies `jobs
      ensures jobs == old(jobs)[id := old(jobs)[id].(status := Failed, error := Some(message), finished := true)]
    {
      jobs := jobs[id := jobs[id].(status := Failed, error := Some(message), finished := true)];
    }

    method ProcessImportJob(id: nat, fault: Fault)
      requires !fault.Dies?
      modifies this, finance
      ensures View() == RunImport(old(View()), lib, id, fault)
    {
      if id in locks { return; }
      ghost var before := View();
      locks := locks + {id};
      if id in jobs {
        if jobs[id].fileId !in files {
          FailJob(id, "no file");
        } else {
          RunLocked(id, fault);
          LockIsBracket(before, lib, id, fault);
        }
      }
      locks := locks - {id};
      assert before.locks + {id} - {id} == before.locks;
    }

    /** The part of process_import_job that the lock covers. */
    method RunLocked(id: nat, fault: Fault)
      requires !fault.Dies?
      requires id in jobs && jobs[id].fileId in files
      modifies this, finance
      ensures View() == RunUnlocked(old(View()), lib, id, fault)
    {
      var fileId := jobs[id].fileId;
      jobs := jobs[id := jobs[id].(status := Running, started := true, error := None)];
      events := events + [Started(id)];
      if fault.StorageDown? {
        Abort(id);
        return;
      }
      var result := ParseWorkbook(lib, files[fileId].content, true);
      issues := issues + IssuesOf(id, result.errors);
      var _, raised := SendTransactions(ItemsOf(id, fileId, result.transactions), fault);
      if raised { Abort(id); } else { Finish(id, result); }
    }

    method Abort(id: nat)
      requires id in jobs && jobs[id].fileId in files
      modifies this
      ensures View() == Break(old(View()), id)
    {
      var fileId := jobs[id].fileId;
      FailJob(id, "raised");
      files := files[fileId := files[fileId].(status := Unparsed)];
      events := events + [Broke(id)];
    }

    method Finish(id: nat, result: ParseResult)
      requires id in jobs && jobs[id].fileId in files
      modifies this, finance
      ensures View() == Conclude(old(View()), id, result)
    {
      var job := jobs[id].(totalRows := result.totalRows, parsedRows := |result.transactions|,
                           failedRows := FailedRows(result.errors));
      if result.errors != [] && result.transactions != [] {
        job := job.(status := PartiallyCompleted);
      } else if result.errors != [] {
        job := job.(status := Failed, error := Some(result.errors[0].code));
      } else {
        job := job.(status := Completed);
      }
      var parsed := job.status in {Completed, PartiallyCompleted};
      files := files[job.fileId := files[job.fileId].(status := if parsed then Parsed else Unparsed)];
      if parsed {
        events := events + [Finished(id)];
        finance.version := finance.version + 1;
      }
      jobs := jobs[id := job.(finished := true)];
    }
  }
}
