/** First writer wins: batching does not matter, reruns converge, and a first import inserts every parsed row. */
module ImportRuns {
  import opened Wrappers
  import opened Ceiling
  import opened SheetParser
  import opened SheetAccounts
  import opened ImportTable

  /* ----- the table after a merge ----- */

  /** The first row with the key. */
  function FirstWith(rows: seq<Row>, key: string): Option<Row> {
    if rows == [] then None
    else
      var earlier := FirstWith(rows[..|rows| - 1], key);
      if earlier.Some? then earlier
      else if rows[|rows| - 1].item.tx.dedupeKey == key then Some(rows[|rows| - 1])
      else None
  }

  /** First writer wins: a key keeps the row it has, and otherwise gets the first row sent with it. */
  lemma {:induction false} MergeLookup(t: map<string, Row>, rows: seq<Row>, key: string)
    ensures key in Merge(t, rows) <==> key in t || FirstWith(rows, key).Some?
    ensures key in t ==> Merge(t, rows)[key] == t[key]
    ensures key !in t && FirstWith(rows, key).Some? ==> Merge(t, rows)[key] == FirstWith(rows, key).value
  {
    if rows != [] { MergeLookup(t, rows[..|rows| - 1], key); }
  }

  predicate Extends(t': map<string, Row>, t: map<string, Row>) {
    forall key <- t :: key in t' && t'[key] == t[key]
  }

  lemma {:induction false} MergeGrows(t: map<string, Row>, rows: seq<Row>)
    ensures Extends(Merge(t, rows), t) && |Merge(t, rows)| >= |t|
  {
    if rows != [] { MergeGrows(t, rows[..|rows| - 1]); }
  }

  lemma KeepPlaces(t: map<string, Row>, r: Row)
    requires PlacesDistinct(t)
    ensures PlacesDistinct(Keep(t, r)) <==> r.item.tx.dedupeKey in t || !Taken(t, PlaceOf(r))
  {
    var key, t' := r.item.tx.dedupeKey, Keep(t, r);
    if key !in t {
      if Taken(t, PlaceOf(r)) {
        var other :| other in t && PlaceOf(t[other]) == PlaceOf(r);
        assert !Apart(t', other, key);
      } else {
        forall a, b ensures Apart(t', a, b) {
          assert Apart(t, a, b);
        }
      }
    }
  }

  lemma ExtensionPlaces(t: map<string, Row>, t': map<string, Row>)
    requires Extends(t', t) && PlacesDistinct(t')
    ensures PlacesDistinct(t)
  {
    forall a, b ensures Apart(t, a, b) {
      assert Apart(t', a, b);
    }
  }

  /**
   * The insert statement succeeds exactly when no two rows of the merged table share a place, and then
   * it stores the merge: the constraint on places, which ON CONFLICT does not name, is the only way to fail.
   */
  lemma {:induction false} InsertIffPlaces(t: map<string, Row>, rows: seq<Row>)
    requires PlacesDistinct(t)
    ensures Insert(t, rows) == if PlacesDistinct(Merge(t, rows)) then Some(Merge(t, rows)) else None
  {
    if rows != [] {
      var before, last := rows[..|rows| - 1], rows[|rows| - 1];
      InsertIffPlaces(t, before);
      if PlacesDistinct(Merge(t, before)) {
        KeepPlaces(Merge(t, before), last);
      } else if PlacesDistinct(Merge(t, rows)) {
        ExtensionPlaces(Merge(t, before), Merge(t, rows));
      }
    }
  }

  /* ----- one batch after another ----- */

  lemma {:induction false} PrepareConcat(accounts: seq<Account>, a: seq<Item>, c: seq<Item>)
    ensures var (mid, rows) := PrepareAll(accounts, a);
            var (end, more) := PrepareAll(mid, c);
            PrepareAll(accounts, a + c) == (end, rows + more)
  {
    if c == [] {
      assert a + c == a && PrepareAll(accounts, a).1 + [] == PrepareAll(accounts, a).1;
    } else {
      var before := c[..|c| - 1];
      PrepareConcat(accounts, a, before);
      assert (a + c)[..|a + c| - 1] == a + before;
      var (mid, rows) := PrepareAll(accounts, a);
      var (near, more) := PrepareAll(mid, before);
      var (end, last) := Prepare(near, c[|c| - 1]);
      assert (a + c)[|a + c| - 1] == c[|c| - 1];
      assert PrepareAll(accounts, a + c) == (end, (rows + more) + [last]);
      assert PrepareAll(mid, c) == (end, more + [last]);
      assert (rows + more) + [last] == rows + (more + [last]);
    }
  }

  lemma {:induction false} MergeConcat(t: map<string, Row>, a: seq<Row>, c: seq<Row>)
    ensures Merge(t, a + c) == Merge(Merge(t, a), c)
  {
    if c == [] {
      assert a + c == a;
    } else {
      MergeConcat(t, a, c[..|c| - 1]);
      assert (a + c)[..|a + c| - 1] == a + c[..|c| - 1];
    }
  }

  lemma ApplyConcat(b: Books, a: seq<Item>, c: seq<Item>)
    ensures Apply(b, a + c) == Apply(Apply(b, a), c)
  {
    PrepareConcat(b.accounts, a, c);
    var (mid, rows) := PrepareAll(b.accounts, a);
    MergeConcat(b.rows, rows, PrepareAll(mid, c).1);
  }

  lemma ApplyGrows(b: Books, items: seq<Item>)
    ensures Extends(Apply(b, items).rows, b.rows) && |Apply(b, items).rows| >= |b.rows|
  {
    MergeGrows(b.rows, PrepareAll(b.accounts, items).1);
  }

  /** A batch is stored whole or not at all. */
  lemma BulkIsApply(f: Finance, items: seq<Item>)
    requires PlacesDistinct(f.books.rows)
    ensures var b' := Apply(f.books, items);
            var added := Added(f.books.rows, b'.rows);
            Bulk(f, items) == if AllDated(items) && PlacesDistinct(b'.rows)
                              then Done(Finance(b', f.version + if added > 0 then 1 else 0), |items|, added)
                              else Rejected
  {
    ApplyGrows(f.books, items);
    InsertIffPlaces(f.books.rows, PrepareAll(f.books.accounts, items).1);
  }

  /* ----- what has been stored already ----- */

  predicate Known(b: Books, item: Item) {
    && item.tx.dedupeKey in b.rows
    && (item.tx.cardLast4.Some? ==> FindActive(b.accounts, item.tx.cardLast4.value).Some?)
  }

  /** Every item's key is stored, and every card has an account that is not archived. */
  predicate Settled(b: Books, items: seq<Item>) {
    forall i :: 0 <= i < |items| ==> Known(b, items[i])
  }

  lemma {:induction false} AccountsGrow(accounts: seq<Account>, items: seq<Item>)
    ensures accounts <= PrepareAll(accounts, items).0
  {
    if items != [] { AccountsGrow(accounts, items[..|items| - 1]); }
  }

  lemma {:induction false} FindActiveStays(accounts: seq<Account>, more: seq<Account>, card: string)
    requires accounts <= more && FindActive(accounts, card).Some?
    ensures FindActive(more, card) == FindActive(accounts, card)
  {
  }

  predicate AllDigits(digit: char -> bool, s: string) {
    forall i :: 0 <= i < |s| ==> digit(s[i])
  }

  lemma {:induction false} DigitsAre(digit: char -> bool, s: string)
    ensures AllDigits(digit, Digits(digit, s)) && (AllDigits(digit, s) ==> Digits(digit, s) == s)
  {
    if s != "" {
      DigitsAre(digit, s[..|s| - 1]);
      assert s == s[..|s| - 1] + [s[|s| - 1]];
    }
  }

  /**
   * Both services cut a card to its last four digits, the finance service with a wider notion of a digit:
   * the second cut changes nothing.
   */
  lemma Last4Again(digit: char -> bool, wider: char -> bool, s: string)
    requires Last4(digit, s).Some? && forall c :: digit(c) ==> wider(c)
    ensures var card := Last4(digit, s).value;
            |card| == 4 && AllDigits(digit, card) && Last4(wider, card) == Some(card)
  {
    DigitsAre(digit, s);
    DigitsAre(wider, Last4(digit, s).value);
  }

  /** Every prepared row is linked to the first account in use of its card, and to none if it names no card. */
  lemma {:induction false} RowsLinked(accounts: seq<Account>, items: seq<Item>, i: nat)
    requires i < |items|
    ensures var (accounts', rows) := PrepareAll(accounts, items);
            match items[i].tx.cardLast4
            case None => rows[i].account.None?
            case Some(card) => rows[i].account.Some? && rows[i].account == FindActive(accounts', card)
  {
    var before, last := items[..|items| - 1], items[|items| - 1];
    var mid := PrepareAll(accounts, before).0;
    if i < |before| {
      RowsLinked(accounts, before, i);
      if items[i].tx.cardLast4.Some? {
        AccountsGrow(mid, [last]);
        assert [last][..0] == [];
        FindActiveStays(mid, Prepare(mid, last).0, items[i].tx.cardLast4.value);
      }
    }
  }

  predicate OnePerCard(accounts: seq<Account>) {
    forall i, j :: 0 <= i < j < |accounts| && accounts[i].card.Some? && !accounts[i].archived ==>
      accounts[i] != accounts[j]
  }

  /** Preparing rows never opens a second account for a card that has one in use. */
  lemma {:induction false} CardsStayUnique(accounts: seq<Account>, items: seq<Item>)
    requires OnePerCard(accounts)
    ensures OnePerCard(PrepareAll(accounts, items).0)
  {
    if items != [] { CardsStayUnique(accounts, items[..|items| - 1]); }
  }

  lemma ApplyOne(b: Books, items: seq<Item>)
    requires items != []
    ensures var before, last := Apply(b, items[..|items| - 1]), items[|items| - 1];
            var (accounts, row) := Prepare(before.accounts, last);
            Apply(b, items) == Books(Keep(before.rows, row), accounts)
  {
  }

  lemma StoredIsKnown(b: Books, item: Item)
    ensures Known(Books(Keep(b.rows, Prepare(b.accounts, item).1), Prepare(b.accounts, item).0), item)
  {
  }

  lemma KnownStaysOne(b: Books, last: Item, item: Item)
    requires Known(b, item)
    ensures Known(Books(Keep(b.rows, Prepare(b.accounts, last).1), Prepare(b.accounts, last).0), item)
  {
    if item.tx.cardLast4.Some? { FindActiveStays(b.accounts, Prepare(b.accounts, last).0, item.tx.cardLast4.value); }
  }

  lemma {:induction false} ApplySettles(b: Books, items: seq<Item>)
    ensures Settled(Apply(b, items), items)
  {
    if items != [] {
      var before, last := items[..|items| - 1], items[|items| - 1];
      ApplySettles(b, before);
      ApplyOne(b, items);
      StoredIsKnown(Apply(b, before), last);
      forall i | 0 <= i < |items| ensures Known(Apply(b, items), items[i]) {
        if i < |before| { KnownStaysOne(Apply(b, before), last, before[i]); }
      }
    }
  }

  lemma {:induction false} SettledIsFixed(b: Books, items: seq<Item>)
    requires Settled(b, items)
    ensures Apply(b, items) == b
  {
    if items != [] {
      var before, last := items[..|items| - 1], items[|items| - 1];
      forall i | 0 <= i < |before| ensures Known(b, before[i]) { assert Known(b, items[i]); }
      SettledIsFixed(b, before);
      ApplyOne(b, items);
      assert Known(b, last);
    }
  }

  /** Sending items again changes nothing exactly when each is stored and its card still has an account in use. */
  lemma ResendIsQuiet(b: Books, items: seq<Item>)
    ensures Apply(b, items) == b <==> Settled(b, items)
  {
    ApplySettles(b, items);
    if Settled(b, items) { SettledIsFixed(b, items); }
  }

  /** Prefixes of one list in any order come to the longer of the two. */
  lemma PrefixesJoin(b: Books, items: seq<Item>, m: nat, n: nat)
    requires m <= |items| && n <= |items|
    ensures Apply(Apply(b, items[..m]), items[..n]) == Apply(b, items[..if m < n then n else m])
  {
    var low, high := if m < n then m else n, if m < n then n else m;
    var mid, rest := Apply(b, items[..m]), items[low..high];
    assert items[..high] == items[..low] + rest;
    ApplySettles(b, items[..m]);
    if m < n {
      ResendIsQuiet(mid, items[..m]);
      ApplyConcat(mid, items[..m], rest);
      ApplyConcat(b, items[..m], rest);
    } else {
      assert Settled(mid, items[..n]) by {
        forall i | 0 <= i < n ensures Known(mid, items[..n][i]) { assert Known(mid, items[..m][i]); }
      }
      ResendIsQuiet(mid, items[..n]);
    }
  }

  /* ----- one pass over the chunks ----- */

  lemma AddedSums(t: map<string, Row>, mid: map<string, Row>, end: map<string, Row>)
    requires |t| <= |mid| <= |end|
    ensures Added(t, mid) + Added(mid, end) == Added(t, end)
  {
  }

  predicate DatedTo(items: seq<Item>, n: nat) {
    forall i :: 0 <= i < n && i < |items| ==> Dated(items[i].tx)
  }

  lemma DatedParts(items: seq<Item>, chunk: seq<Item>, from: nat, to: nat)
    requires from <= to <= |items| && items[..from] + chunk == items[..to]
    ensures DatedTo(items, to) <==> DatedTo(items, from) && AllDated(chunk)
  {
    assert |chunk| == to - from;
    forall i | 0 <= i < |chunk| ensures chunk[i] == items[from + i] {
      assert items[..to][from + i] == items[from + i];
    }
    if DatedTo(items, from) && AllDated(chunk) {
      forall i | 0 <= i < to ensures Dated(items[i].tx) {
        if i >= from { assert chunk[i - from] == items[i]; }
      }
    }
  }

  /** What holds after a part of a pass that has stored n items. */
  ghost predicate PassState(f: Finance, items: seq<Item>, s: Sent, n: nat, reached: nat) {
    && n <= reached <= |items|
    && s.finance.books == Apply(f.books, items[..n])
    && PlacesDistinct(s.finance.books.rows) && DatedTo(items, n)
    && (!s.raised ==> n == reached && s.inserted == Added(f.books.rows, s.finance.books.rows))
    && s.inserted <= Added(f.books.rows, s.finance.books.rows)
    && f.version <= s.finance.version
    && (s.finance.version == f.version <==> |s.finance.books.rows| == |f.books.rows|)
  }

  lemma NextPassState(f: Finance, items: seq<Item>, s: Sent, n: nat, chunk: seq<Item>, from: nat, to: nat,
                      fault: Fault, k: nat)
    returns (n': nat)
    requires from <= to <= |items| && items[..from] + chunk == items[..to] && PassState(f, items, s, n, from)
    ensures PassState(f, items, SendNext(s, chunk, fault, k), n', to)
  {
    n' := n;
    ApplyGrows(f.books, items[..n]);
    if !s.raised && fault != RequestLost(k) && fault != Dies(k) {
      BulkIsApply(s.finance, chunk);
      ApplyGrows(s.finance.books, chunk);
      if AllDated(chunk) && PlacesDistinct(Apply(s.finance.books, chunk).rows) {
        n' := to;
        DatedParts(items, chunk, from, to);
        ApplyConcat(f.books, items[..from], chunk);
        AddedSums(f.books.rows, s.finance.books.rows, Apply(s.finance.books, chunk).rows);
      }
    }
  }

  lemma PrefixPlaces(b: Books, items: seq<Item>, n: nat)
    requires n <= |items| && PlacesDistinct(Apply(b, items).rows)
    ensures PlacesDistinct(Apply(b, items[..n]).rows)
  {
    assert items[..n] + items[n..] == items;
    ApplyConcat(b, items[..n], items[n..]);
    ApplyGrows(Apply(b, items[..n]), items[n..]);
    ExtensionPlaces(Apply(b, items[..n]).rows, Apply(b, items).rows);
  }

  /** A chunk is rejected only if it has a time without a date or brings two rows to one place. */
  lemma NextPassClean(f: Finance, items: seq<Item>, s: Sent, n: nat, chunk: seq<Item>, from: nat, to: nat, k: nat)
    requires from <= to <= |items| && items[..from] + chunk == items[..to] && PassState(f, items, s, n, from)
    requires !s.raised && DatedTo(items, to) && PlacesDistinct(Apply(f.books, items).rows)
    ensures !SendNext(s, chunk, NoFault, k).raised
  {
    DatedParts(items, chunk, from, to);
    BulkIsApply(s.finance, chunk);
    ApplyConcat(f.books, items[..from], chunk);
    PrefixPlaces(f.books, items, to);
  }

  lemma ChunkJoins(items: seq<Item>, size: nat, k: nat)
    ensures Reach(|items|, size, k) <= Reach(|items|, size, k + 1)
    ensures items[..Reach(|items|, size, k)] + ChunkAt(items, size, k) == items[..Reach(|items|, size, k + 1)]
  {
  }

  lemma StepReaches(f: Finance, items: seq<Item>, size: nat, fault: Fault, k: nat, m: nat) returns (n: nat)
    requires PassState(f, items, SendChunks(f, items, size, fault, k), m, Reach(|items|, size, k))
    ensures PassState(f, items, SendChunks(f, items, size, fault, k + 1), n, Reach(|items|, size, k + 1))
  {
    var chunk := ChunkAt(items, size, k);
    ChunkJoins(items, size, k);
    n := NextPassState(f, items, SendChunks(f, items, size, fault, k), m, chunk,
                       Reach(|items|, size, k), Reach(|items|, size, k + 1), fault, k);
  }

  lemma {:induction false} PassReaches(f: Finance, items: seq<Item>, size: nat, fault: Fault, k: nat) returns (n: nat)
    requires PlacesDistinct(f.books.rows)
    ensures PassState(f, items, SendChunks(f, items, size, fault, k), n, Reach(|items|, size, k))
  {
    if k == 0 {
      n := 0;
      assert items[..0] == [];
    } else {
      var j: nat := k - 1;
      var m := PassReaches(f, items, size, fault, j);
      n := StepReaches(f, items, size, fault, j, m);
    }
  }

  lemma StepClean(f: Finance, items: seq<Item>, size: nat, k: nat)
    requires PlacesDistinct(f.books.rows) && PlacesDistinct(Apply(f.books, items).rows)
    requires DatedTo(items, Reach(|items|, size, k + 1)) && !SendChunks(f, items, size, NoFault, k).raised
    ensures !SendChunks(f, items, size, NoFault, k + 1).raised
  {
    var n := PassReaches(f, items, size, NoFault, k);
    ChunkJoins(items, size, k);
    NextPassClean(f, items, SendChunks(f, items, size, NoFault, k), n, ChunkAt(items, size, k),
                  Reach(|items|, size, k), Reach(|items|, size, k + 1), k);
  }

  lemma {:induction false} CleanPass(f: Finance, items: seq<Item>, size: nat, k: nat)
    requires PlacesDistinct(f.books.rows) && PlacesDistinct(Apply(f.books, items).rows)
    requires DatedTo(items, Reach(|items|, size, k))
    ensures !SendChunks(f, items, size, NoFault, k).raised
  {
    if k > 0 {
      var j: nat := k - 1;
      ChunkJoins(items, size, j);
      CleanPass(f, items, size, j);
      StepClean(f, items, size, j);
    }
  }

  /**
   * Wherever a pass stops, it has stored a prefix of the list and nothing else, no matter how the list is
   * cut; the inserted rows it reports never exceed the growth of the table, and equal it when the pass
   * completes; and the data version has moved exactly if a row was stored.
   */
  lemma PassStoresPrefix(f: Finance, items: seq<Item>, size: nat, fault: Fault) returns (n: nat)
    requires size > 0 && PlacesDistinct(f.books.rows)
    ensures PassState(f, items, Send(f, items, size, fault), n, |items|)
  {
    n := PassReaches(f, items, size, fault, CeilDiv(|items|, size));
    ReachAll(|items|, size, CeilDiv(|items|, size));
  }

  /**
   * Batching independence: with no fault, a pass with chunks of any size completes exactly when every item
   * is dated and the rows keep their places distinct, and then it leaves the same table and accounts as
   * taking the items one at a time and reports exactly the growth of the table.
   */
  lemma BatchingIsIrrelevant(f: Finance, items: seq<Item>, size: nat)
    requires size > 0 && PlacesDistinct(f.books.rows)
    ensures var s := Send(f, items, size, NoFault);
            && (!s.raised <==> AllDated(items) && PlacesDistinct(Apply(f.books, items).rows))
            && (!s.raised ==> s.finance.books == Apply(f.books, items)
                              && s.inserted == |s.finance.books.rows| - |f.books.rows|)
  {
    var _ := PassStoresPrefix(f, items, size, NoFault);
    assert items[..|items|] == items;
    ApplyGrows(f.books, items);
    if AllDated(items) && PlacesDistinct(Apply(f.books, items).rows) {
      CleanPass(f, items, size, CeilDiv(|items|, size));
    }
  }

  lemma ChunkRejected(f: Finance, items: seq<Item>, size: nat, k: nat, m: nat)
    requires PlacesDistinct(f.books.rows) && !SendChunks(f, items, size, NoFault, m).raised
    requires Reach(|items|, size, m) <= k < Reach(|items|, size, m + 1) && !Dated(items[k].tx)
    ensures SendChunks(f, items, size, NoFault, m + 1) == SendChunks(f, items, size, NoFault, m).(raised := true)
  {
    var chunk := ChunkAt(items, size, m);
    assert chunk[k - Reach(|items|, size, m)] == items[k];
    assert Bulk(SendChunks(f, items, size, NoFault, m).finance, chunk) == Rejected;
  }

  /** The books after m chunks of dated items. */
  lemma CleanPrefix(f: Finance, items: seq<Item>, size: nat, m: nat)
    requires PlacesDistinct(f.books.rows) && PlacesDistinct(Apply(f.books, items).rows)
    requires DatedTo(items, Reach(|items|, size, m))
    ensures var s := SendChunks(f, items, size, NoFault, m);
            !s.raised && s.finance.books == Apply(f.books, items[..Reach(|items|, size, m)])
            && s.inserted == |s.finance.books.rows| - |f.books.rows|
  {
    CleanPass(f, items, size, m);
    var _ := PassReaches(f, items, size, NoFault, m);
    ApplyGrows(f.books, items[..Reach(|items|, size, m)]);
  }

  lemma RaisedEnds(f: Finance, items: seq<Item>, size: nat, k: nat)
    requires size > 0 && k <= CeilDiv(|items|, size) && SendChunks(f, items, size, NoFault, k).raised
    ensures Send(f, items, size, NoFault) == SendChunks(f, items, size, NoFault, k)
  {
    RaisedStays(f, items, size, NoFault, k, CeilDiv(|items|, size));
  }

  /**
   * Exactly where a pass stops at the first item without a date: the chunks before that item's chunk are
   * stored and counted, and nothing of it or after it.
   */
  lemma UndatedStops(f: Finance, items: seq<Item>, size: nat, k: nat, m: nat)
    requires size > 0 && PlacesDistinct(f.books.rows) && PlacesDistinct(Apply(f.books, items).rows)
    requires Reach(|items|, size, m) <= k < Reach(|items|, size, m + 1)
    requires DatedTo(items, k) && !Dated(items[k].tx)
    ensures var s := Send(f, items, size, NoFault);
            s.raised && s.finance.books == Apply(f.books, items[..Reach(|items|, size, m)])
            && s.inserted == |s.finance.books.rows| - |f.books.rows|
  {
    CleanPrefix(f, items, size, m);
    ChunkRejected(f, items, size, k, m);
    ReachAll(|items|, size, m);
    RaisedEnds(f, items, size, m + 1);
  }

  /* ----- many passes ----- */

  datatype Pass = Pass(size: nat, fault: Fault)

  function Passes(f: Finance, items: seq<Item>, passes: seq<Pass>): Finance
    requires forall p <- passes :: p.size > 0
  {
    if passes == [] then f
    else
      var last := passes[|passes| - 1];
      Send(Passes(f, items, passes[..|passes| - 1]), items, last.size, last.fault).finance
  }

  lemma {:induction false} PassesStorePrefix(f: Finance, items: seq<Item>, passes: seq<Pass>) returns (n: nat)
    requires PlacesDistinct(f.books.rows) && forall p <- passes :: p.size > 0
    ensures n <= |items| && Passes(f, items, passes).books == Apply(f.books, items[..n])
    ensures PlacesDistinct(Passes(f, items, passes).books.rows)
  {
    if passes == [] {
      n := 0;
      assert items[..0] == [];
    } else {
      var last := passes[|passes| - 1];
      var m := PassesStorePrefix(f, items, passes[..|passes| - 1]);
      var mid := Passes(f, items, passes[..|passes| - 1]);
      assert last in passes;
      var k := PassStoresPrefix(mid, items, last.size, last.fault);
      PrefixesJoin(f.books, items, m, k);
      n := if m < k then k else m;
    }
  }

  /**
   * Convergence: after any number of passes, cut and interrupted in any way, one clean pass leaves exactly
   * what a single clean pass would have left at the start, provided the items are dated and the rows keep
   * their places distinct.
   */
  lemma RerunsConverge(f: Finance, items: seq<Item>, passes: seq<Pass>, size: nat)
    requires size > 0 && PlacesDistinct(f.books.rows) && forall p <- passes :: p.size > 0
    ensures var s := Send(Passes(f, items, passes), items, size, NoFault);
            && (!s.raised <==> AllDated(items) && PlacesDistinct(Apply(f.books, items).rows))
            && (!s.raised ==> s.finance.books == Apply(f.books, items))
  {
    var n := PassesStorePrefix(f, items, passes);
    PrefixesJoin(f.books, items, n, |items|);
    assert items[..|items|] == items;
    BatchingIsIrrelevant(Passes(f, items, passes), items, size);
  }

  /** After a completed pass another one inserts nothing, changes nothing and leaves the data version alone. */
  lemma SecondPassIsQuiet(f: Finance, items: seq<Item>, size: nat, size': nat)
    requires size > 0 && size' > 0 && PlacesDistinct(f.books.rows)
    requires !Send(f, items, size, NoFault).raised
    ensures var s := Send(f, items, size, NoFault); Send(s.finance, items, size', NoFault) == Sent(s.finance, 0, false)
  {
    var mid := Send(f, items, size, NoFault).finance;
    BatchingIsIrrelevant(f, items, size);
    ApplySettles(f.books, items);
    ResendIsQuiet(mid.books, items);
    BatchingIsIrrelevant(mid, items, size');
    var _ := PassStoresPrefix(mid, items, size', NoFault);
    assert Send(mid, items, size', NoFault).finance.version == mid.version;
  }

  /* ----- the first import of a file ----- */

  predicate AllNew(rows: seq<Row>) {
    forall i, j :: 0 <= i < j < |rows| ==>
      rows[i].item.tx.dedupeKey != rows[j].item.tx.dedupeKey && PlaceOf(rows[i]) != PlaceOf(rows[j])
  }

  predicate From(t: map<string, Row>, rows: seq<Row>) {
    forall key <- t :: t[key].item.tx.dedupeKey == key && t[key] in rows
  }

  predicate Holds(t: map<string, Row>, r: Row) {
    r.item.tx.dedupeKey in t && t[r.item.tx.dedupeKey] == r
  }

  lemma {:induction false} MergeFrom(rows: seq<Row>)
    ensures From(Merge(map[], rows), rows)
  {
    if rows != [] {
      MergeFrom(rows[..|rows| - 1]);
      assert rows == rows[..|rows| - 1] + [rows[|rows| - 1]];
    }
  }

  lemma {:induction false} AllNewMerge(rows: seq<Row>)
    requires AllNew(rows)
    ensures |Merge(map[], rows)| == |rows|
    ensures forall i :: 0 <= i < |rows| ==> Holds(Merge(map[], rows), rows[i])
  {
    if rows != [] {
      var before, last := rows[..|rows| - 1], rows[|rows| - 1];
      AllNewMerge(before);
      MergeFrom(before);
      var t := Merge(map[], before);
      assert last.item.tx.dedupeKey !in t;
      forall i | 0 <= i < |rows| ensures Holds(Keep(t, last), rows[i]) {
        if i < |before| { assert Holds(t, before[i]); }
      }
    }
  }

  lemma AllNewPlaces(rows: seq<Row>)
    requires AllNew(rows)
    ensures PlacesDistinct(Merge(map[], rows))
  {
    var t := Merge(map[], rows);
    MergeFrom(rows);
    forall a, b ensures Apart(t, a, b) {
      if a in t && b in t && a != b {
        var i, j :| 0 <= i < |rows| && 0 <= j < |rows| && rows[i] == t[a] && rows[j] == t[b];
        assert i < j || j < i;
      }
    }
  }

  lemma AllNewPrefix(rows: seq<Row>, n: nat)
    requires AllNew(rows) && n <= |rows|
    ensures AllNew(rows[..n])
  {
  }

  lemma {:induction false} PreparePrefix(accounts: seq<Account>, items: seq<Item>, n: nat)
    requires n <= |items|
    ensures PrepareAll(accounts, items[..n]).1 == PrepareAll(accounts, items).1[..n]
  {
    if n < |items| {
      PreparePrefix(accounts, items[..|items| - 1], n);
      assert items[..|items| - 1][..n] == items[..n];
    } else {
      assert items[..n] == items;
    }
  }

  /** The rows of a parsed file share neither keys nor places. */
  lemma ParsedRowsAreNew(lib: Library, w: Workbook, accounts: seq<Account>, importId: nat, fileId: nat)
    requires LibraryOk(lib) && w.Workbook? && DistinctNames(w.sheets)
    ensures AllNew(PrepareAll(accounts, ItemsOf(importId, fileId, Parse(lib, w, true).transactions)).1)
  {
    var ts := Parse(lib, w, true).transactions;
    var rows := PrepareAll(accounts, ItemsOf(importId, fileId, ts)).1;
    forall i, j | 0 <= i < j < |rows|
      ensures rows[i].item.tx.dedupeKey != rows[j].item.tx.dedupeKey && PlaceOf(rows[i]) != PlaceOf(rows[j])
    {
      KeysDistinct(lib, w, i, j);
    }
  }

  predicate StoredAs(t: map<string, Row>, tx: Transaction) {
    tx.dedupeKey in t && t[tx.dedupeKey].item.tx == tx
  }

  /** What n items of a parsed file leave in an empty table. */
  lemma FirstRows(lib: Library, w: Workbook, accounts: seq<Account>, importId: nat, fileId: nat, n: nat)
    requires LibraryOk(lib) && w.Workbook? && DistinctNames(w.sheets) && n <= |Parse(lib, w, true).transactions|
    ensures var ts := Parse(lib, w, true).transactions;
            var t := Apply(Books(map[], accounts), ItemsOf(importId, fileId, ts)[..n]).rows;
            |t| == n && PlacesDistinct(t) && forall i :: 0 <= i < n ==> StoredAs(t, ts[i])
  {
    var ts := Parse(lib, w, true).transactions;
    var items := ItemsOf(importId, fileId, ts);
    var all := PrepareAll(accounts, items).1;
    ParsedRowsAreNew(lib, w, accounts, importId, fileId);
    PreparePrefix(accounts, items, n);
    AllNewPrefix(all, n);
    AllNewMerge(all[..n]);
    AllNewPlaces(all[..n]);
    forall i | 0 <= i < n ensures StoredAs(Merge(map[], all[..n]), ts[i]) {
      assert all[..n][i].item.tx == ts[i] && Holds(Merge(map[], all[..n]), all[..n][i]);
    }
  }

  /**
   * A user's first import, whatever the chunk size, completes exactly when every row is dated, and then it
   * inserts exactly the parsed rows and stores every one of them.
   */
  lemma FirstImportInsertsAll(lib: Library, w: Workbook, f: Finance, importId: nat, fileId: nat, size: nat)
    requires LibraryOk(lib) && w.Workbook? && DistinctNames(w.sheets)
    requires size > 0 && f.books.rows == map[]
    ensures var ts := Parse(lib, w, true).transactions;
            var s := Send(f, ItemsOf(importId, fileId, ts), size, NoFault);
            && (!s.raised <==> AllDated(ItemsOf(importId, fileId, ts)))
            && (!s.raised ==> s.inserted == |ts| == |s.finance.books.rows|
                              && forall i :: 0 <= i < |ts| ==> StoredAs(s.finance.books.rows, ts[i]))
  {
    var ts := Parse(lib, w, true).transactions;
    var items := ItemsOf(importId, fileId, ts);
    FirstRows(lib, w, f.books.accounts, importId, fileId, |ts|);
    assert items[..|ts|] == items;
    BatchingIsIrrelevant(f, items, size);
  }
}
