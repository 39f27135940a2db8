/**
 * The available-balance cache of the analytics service: a per-user data version used as a key suffix,
 * bumped by the writers that remember to, over the tables the balance is computed from.
 */
module BalanceCache {
  import opened Wrappers

  /* ----- the tables of one user ----- */

  datatype Account = Account(initialBalance: real, archived: bool)
  datatype Transaction = Transaction(amount: real, day: int, income: bool)
  datatype Regular = Regular(expectedAmount: Option<real>, averageAmount: real, active: bool, nextDay: Option<int>)
  datatype Planned = Planned(amount: real, day: Option<int>)

  /** Everything but the accounts. */
  datatype Ledger = Ledger(
    transactions: seq<Transaction>,
    regular: seq<Regular>,
    expectedIncomes: seq<Planned>,
    expectedExpenses: seq<Planned>)

  datatype Books = Books(accounts: seq<Account>, ledger: Ledger)

  /** `finance.income_expected_candidates`, as a function of the user's transactions and the period. */
  type Candidates = (seq<Transaction>, int, int) -> real

  function Contribution(a: Account): real {
    if a.archived then 0.0 else a.initialBalance
  }

  function Balances(accounts: seq<Account>): real {
    if accounts == [] then 0.0 else Contribution(accounts[0]) + Balances(accounts[1..])
  }

  function MovedBefore(ts: seq<Transaction>, start: int): real {
    if ts == [] then 0.0 else (if ts[0].day < start then ts[0].amount else 0.0) + MovedBefore(ts[1..], start)
  }

  function PlannedIn(ps: seq<Planned>, start: int, end: int): real {
    if ps == [] then 0.0
    else (if ps[0].day.None? || start <= ps[0].day.value <= end then ps[0].amount else 0.0)
         + PlannedIn(ps[1..], start, end)
  }

  function RegularIn(rs: seq<Regular>, start: int, end: int): real {
    if rs == [] then 0.0
    else
      var r := rs[0];
      (if r.active && r.nextDay.Some? && start <= r.nextDay.value <= end
       then (if r.expectedAmount.Some? then r.expectedAmount.value else r.averageAmount) else 0.0)
      + RegularIn(rs[1..], start, end)
  }

  /** The money fields of a balance reply. */
  datatype Money = Money(actual: real, income: real, expense: real, available: real)

  function Fresh(f: Candidates, b: Books, start: int, end: int): Money {
    var actual := Balances(b.accounts) + MovedBefore(b.ledger.transactions, start);
    var storedIncome := PlannedIn(b.ledger.expectedIncomes, start, end);
    var income := if storedIncome != 0.0 then storedIncome else f(b.ledger.transactions, start, end);
    var storedExpense := PlannedIn(b.ledger.expectedExpenses, start, end);
    var expense := if storedExpense != 0.0 then storedExpense else RegularIn(b.ledger.regular, start, end);
    Money(actual, income, expense, actual + income - expense)
  }

  /* ----- tables, versions and cache ----- */

  datatype Key = Key(user: nat, start: int, end: int, version: nat)
  datatype Entry = Entry(money: Money, expiry: nat)

  /** A read that has computed its result and not yet stored it; `version` is the version at that time. */
  datatype Computed = Computed(user: nat, start: int, end: int, money: Money, version: nat)

  datatype State = State(
    books: map<nat, Books>,
    versions: map<nat, nat>,
    cache: map<Key, Entry>,
    computed: seq<Computed>,
    now: nat)

  const NO_BOOKS := Books([], Ledger([], [], [], []))

  function BooksOf(s: State, user: nat): Books {
    if user in s.books then s.books[user] else NO_BOOKS
  }

  function Version(s: State, user: nat): nat {
    if user in s.versions then s.versions[user] else 0
  }

  predicate Live(s: State, k: Key) {
    k in s.cache && s.now < s.cache[k].expiry
  }

  function CurrentKey(s: State, user: nat, start: int, end: int): Key {
    Key(user, start, end, Version(s, user))
  }

  /** A writer that commits new books and then bumps the version. */
  function Write(s: State, user: nat, books: Books): State {
    s.(books := s.books[user := books], versions := s.versions[user := Version(s, user) + 1])
  }

  /** accounts.create, accounts.update and accounts.resolve_by_card store an account and bump nothing. */
  function PutAccount(s: State, user: nat, i: nat, a: Account): State {
    var b := BooksOf(s, user);
    if i < |b.accounts| then s.(books := s.books[user := b.(accounts := b.accounts[i := a])])
    else s.(books := s.books[user := b.(accounts := b.accounts + [a])])
  }

  /** JsonRedisCache.set: nothing is stored for a TTL that is not positive. */
  function Store(s: State, k: Key, m: Money, ttl: int): State {
    if ttl <= 0 then s else s.(cache := s.cache[k := Entry(m, s.now + ttl)])
  }

  predicate Hits(s: State, user: nat, start: int, end: int, refresh: bool) {
    !refresh && Live(s, CurrentKey(s, user, start, end))
  }

  function ReadResult(f: Candidates, s: State, user: nat, start: int, end: int, refresh: bool): Money {
    if Hits(s, user, start, end, refresh) then s.cache[CurrentKey(s, user, start, end)].money
    else Fresh(f, BooksOf(s, user), start, end)
  }

  /** A read that nothing interleaves with. */
  function Read(f: Candidates, ttl: int, s: State, user: nat, start: int, end: int, refresh: bool): State {
    if Hits(s, user, start, end, refresh) then s
    else Store(s, CurrentKey(s, user, start, end), Fresh(f, BooksOf(s, user), start, end), ttl)
  }

  datatype Step =
    | Committed(user: nat, books: Books)
    | QuietAccount(user: nat, i: nat, account: Account)
    | ReadWhole(user: nat, start: int, end: int, refresh: bool)
    | Compute(user: nat, start: int, end: int)
    | Fill(i: nat)
    | Tick(d: nat)

  function Next(f: Candidates, ttl: int, s: State, step: Step): State {
    match step
    case Committed(user, books) => Write(s, user, books)
    case QuietAccount(user, i, a) => PutAccount(s, user, i, a)
    case ReadWhole(user, start, end, refresh) => Read(f, ttl, s, user, start, end, refresh)
    case Compute(user, start, end) =>
      var money := Fresh(f, BooksOf(s, user), start, end);
      s.(computed := s.computed + [Computed(user, start, end, money, Version(s, user))])
    case Fill(i) =>
      if i >= |s.computed| then s
      else
        var c := s.computed[i];
        var stored := Store(s, CurrentKey(s, c.user, c.start, c.end), c.money, ttl);
        stored.(computed := s.computed[..i] + s.computed[i + 1..])
    case Tick(d) => s.(now := s.now + d)
  }

  const EMPTY := State(map[], map[], map[], [], 0)

  function Run(f: Candidates, ttl: int, steps: seq<Step>): State {
    if steps == [] then EMPTY else Next(f, ttl, Run(f, ttl, steps[..|steps| - 1]), steps[|steps| - 1])
  }

  /** A run that goes on from a state. */
  function After(f: Candidates, ttl: int, s: State, steps: seq<Step>): State {
    if steps == [] then s else Next(f, ttl, After(f, ttl, s, steps[..|steps| - 1]), steps[|steps| - 1])
  }

  /* ----- the service ----- */

  function ReadEach(f: Candidates, ttl: int, s: State, users: seq<nat>, start: int, end: int): (r: (seq<Money>, State))
    ensures |r.0| == |users|
  {
    if users == [] then ([], s)
    else
      var (budgets, s') := ReadEach(f, ttl, s, users[..|users| - 1], start, end);
      var last := users[|users| - 1];
      (budgets + [ReadResult(f, s', last, start, end, false)], Read(f, ttl, s', last, start, end, false))
  }

  class AnalyticsService {
    const candidates: Candidates
    const ttlSeconds: int
    var books: map<nat, Books>
    var versions: map<nat, nat>
    var cache: map<Key, Entry>
    var now: nat
    ghost var computed: seq<Computed>

    ghost function View(): State
      reads this
    {
      State(books, versions, cache, computed, now)
    }

    constructor (candidates: Candidates, ttlSeconds: int)
      ensures View() == EMPTY && this.candidates == candidates && this.ttlSeconds == ttlSeconds
    {
      this.candidates, this.ttlSeconds := candidates, ttlSeconds;
      books, versions, cache, now, computed := map[], map[], map[], 0, [];
    }

    method VersionGet(user: nat) returns (v: nat)
      ensures v == Version(View(), user)
    {
      v := if user in versions then versions[user] else 0;
    }

    method VersionBump(user: nat) returns (v: nat)
      modifies this`versions
      ensures v == Version(old(View()), user) + 1 && versions == old(versions)[user := v]
    {
      v := VersionGet(user);
      v := v + 1;
      versions := versions[user := v];
    }

    method CacheSet(k: Key, m: Money, ttl: int)
      modifies this`cache
      ensures View() == Store(old(View()), k, m, ttl)
    {
      if ttl <= 0 { return; }
      cache := cache[k := Entry(m, now + ttl)];
    }

    method CommitBooks(user: nat, b: Books)
      modifies this`books, this`versions
      ensures View() == Write(old(View()), user, b)
    {
      books := books[user := b];
      var _ := VersionBump(user);
    }

    method AvailableBalance(user: nat, start: int, end: int, refresh: bool) returns (m: Money)
      modifies this`cache
      ensures m == ReadResult(candidates, old(View()), user, start, end, refresh)
      ensures View() == Read(candidates, ttlSeconds, old(View()), user, start, end, refresh)
    {
      var version := VersionGet(user);
      var k := Key(user, start, end, version);
      if !refresh && k in cache && now < cache[k].expiry {
        return cache[k].money;
      }
      m := Fresh(candidates, if user in books then books[user] else NO_BOOKS, start, end);
      var current := VersionGet(user);
      CacheSet(Key(user, start, end, current), m, ttlSeconds);
    }

    /** member_budget.batch: one balance read after the other. */
    method MemberBudgets(users: seq<nat>, start: int, end: int) returns (budgets: seq<Money>)
      modifies this`cache
      ensures budgets == ReadEach(candidates, ttlSeconds, old(View()), users, start, end).0
      ensures View() == ReadEach(candidates, ttlSeconds, old(View()), users, start, end).1
    {
      budgets := [];
      for k := 0 to |users|
        invariant (budgets, View()) == ReadEach(candidates, ttlSeconds, old(View()), users[..k], start, end)
      {
        var m := AvailableBalance(users[k], start, end, false);
        budgets := budgets + [m];
        assert users[..k + 1][..k] == users[..k];
      }
      assert users[..|users|] == users;
    }
  }

  /* ----- coherence ----- */

  /** No entry lies above its user's version; this needs no assumption. */
  predicate NoneAbove(s: State) {
    && (forall k <- s.cache :: k.version <= Version(s, k.user))
    && (forall i :: 0 <= i < |s.computed| ==> s.computed[i].version <= Version(s, s.computed[i].user))
  }

  /** Whatever the cache holds, its available amount is the one its other fields give. */
  predicate Balanced(m: Money) {
    m.available == m.actual + m.income - m.expense
  }

  predicate AllBalanced(s: State) {
    && (forall k <- s.cache :: Balanced(s.cache[k].money))
    && (forall i :: 0 <= i < |s.computed| ==> Balanced(s.computed[i].money))
  }

  lemma StoreKeepsBelow(s: State, k: Key, m: Money, ttl: int)
    requires NoneAbove(s) && AllBalanced(s) && k.version <= Version(s, k.user) && Balanced(m)
    ensures NoneAbove(Store(s, k, m, ttl)) && AllBalanced(Store(s, k, m, ttl))
  {
  }

  function Dropped(s: State, i: nat): State
    requires i < |s.computed|
  {
    s.(computed := s.computed[..i] + s.computed[i + 1..])
  }

  lemma DroppedAt(s: State, i: nat, k: nat)
    requires i < |s.computed| && k < |Dropped(s, i).computed|
    ensures Dropped(s, i).computed[k] == s.computed[if k < i then k else k + 1]
  {
  }

  lemma DropKeepsBelow(s: State, i: nat)
    requires NoneAbove(s) && AllBalanced(s) && i < |s.computed|
    ensures NoneAbove(Dropped(s, i)) && AllBalanced(Dropped(s, i))
  {
    forall k | 0 <= k < |Dropped(s, i).computed|
      ensures var c := Dropped(s, i).computed[k]; c.version <= Version(s, c.user) && Balanced(c.money)
    {
      DroppedAt(s, i, k);
    }
  }

  lemma FillKeepsBelow(f: Candidates, ttl: int, s: State, i: nat)
    requires NoneAbove(s) && AllBalanced(s) && i < |s.computed|
    ensures NoneAbove(Next(f, ttl, s, Fill(i))) && AllBalanced(Next(f, ttl, s, Fill(i)))
  {
    var c := s.computed[i];
    DropKeepsBelow(s, i);
    StoreKeepsBelow(Dropped(s, i), CurrentKey(s, c.user, c.start, c.end), c.money, ttl);
  }

  lemma NextKeepsNoneAbove(f: Candidates, ttl: int, s: State, step: Step)
    requires NoneAbove(s) && AllBalanced(s)
    ensures NoneAbove(Next(f, ttl, s, step)) && AllBalanced(Next(f, ttl, s, step))
  {
    match step
    case ReadWhole(user, start, end, _) =>
      StoreKeepsBelow(s, CurrentKey(s, user, start, end), Fresh(f, BooksOf(s, user), start, end), ttl);
    case Fill(i) =>
      if i < |s.computed| { FillKeepsBelow(f, ttl, s, i); }
    case _ =>
  }

  /** In every run: no entry lies above its user's current version, and every cached balance adds up. */
  lemma {:induction false} AlwaysNoneAbove(f: Candidates, ttl: int, steps: seq<Step>)
    ensures NoneAbove(Run(f, ttl, steps)) && AllBalanced(Run(f, ttl, steps))
  {
    if steps != [] {
      AlwaysNoneAbove(f, ttl, steps[..|steps| - 1]);
      NextKeepsNoneAbove(f, ttl, Run(f, ttl, steps[..|steps| - 1]), steps[|steps| - 1]);
    }
  }

  /** Every live entry at its user's current version has the money a fresh computation would give. */
  predicate Coherent(f: Candidates, s: State) {
    forall k <- s.cache :: Live(s, k) && k.version == Version(s, k.user) ==>
      s.cache[k].money == Fresh(f, BooksOf(s, k.user), k.start, k.end)
  }

  predicate UpToDate(f: Candidates, s: State, c: Computed) {
    c.money == Fresh(f, BooksOf(s, c.user), c.start, c.end)
  }

  /** A computed result is up to date as long as the version it was computed at is. */
  predicate ComputedOk(f: Candidates, s: State) {
    forall i :: 0 <= i < |s.computed| ==>
      var c := s.computed[i]; c.version == Version(s, c.user) ==> UpToDate(f, s, c)
  }

  function AccountAt(b: Books, i: nat): Account {
    if i < |b.accounts| then b.accounts[i] else Account(0.0, true)
  }

  /** What a quiet write changes the account's share of the balance by. */
  function Shift(s: State, user: nat, i: nat, a: Account): real {
    Contribution(a) - Contribution(AccountAt(BooksOf(s, user), i))
  }

  lemma {:induction false} BalancesUpdate(accounts: seq<Account>, i: nat, a: Account)
    requires i < |accounts|
    ensures Balances(accounts[i := a]) == Balances(accounts) + Contribution(a) - Contribution(accounts[i])
  {
    if i == 0 {
      assert accounts[i := a][1..] == accounts[1..];
    } else {
      BalancesUpdate(accounts[1..], i - 1, a);
      assert accounts[i := a][1..] == accounts[1..][i - 1 := a];
    }
  }

  lemma {:induction false} BalancesAppend(accounts: seq<Account>, a: Account)
    ensures Balances(accounts + [a]) == Balances(accounts) + Contribution(a)
  {
    if accounts == [] {
      assert accounts + [a] == [a];
    } else {
      BalancesAppend(accounts[1..], a);
      assert (accounts + [a])[1..] == accounts[1..] + [a];
    }
  }

  /** A quiet write moves every fresh balance of its user by the same amount. */
  lemma QuietWriteShifts(f: Candidates, s: State, user: nat, i: nat, a: Account, start: int, end: int)
    ensures var s' := PutAccount(s, user, i, a);
            var before := Fresh(f, BooksOf(s, user), start, end);
            var after := Fresh(f, BooksOf(s', user), start, end);
            after.actual == before.actual + Shift(s, user, i, a)
            && after.available == before.available + Shift(s, user, i, a)
            && after.income == before.income && after.expense == before.expense
  {
    var b := BooksOf(s, user);
    if i < |b.accounts| {
      BalancesUpdate(b.accounts, i, a);
    } else {
      BalancesAppend(b.accounts, a);
    }
  }

  /** A write that bumps the version keeps the cache coherent whatever it writes. */
  lemma BumpedWriteCoherence(f: Candidates, s: State, user: nat, books: Books)
    requires Coherent(f, s) && NoneAbove(s)
    ensures Coherent(f, Write(s, user, books))
  {
  }

  /** The steps coherence rests on: quiet writes that move no money, and fills at the version computed at. */
  predicate Careful(s: State, step: Step) {
    match step
    case QuietAccount(user, i, a) => Shift(s, user, i, a) == 0.0
    case Fill(i) => i < |s.computed| ==> s.computed[i].version == Version(s, s.computed[i].user)
    case _ => true
  }

  predicate CarefulRun(f: Candidates, ttl: int, steps: seq<Step>) {
    steps == [] || (CarefulRun(f, ttl, steps[..|steps| - 1])
                    && Careful(Run(f, ttl, steps[..|steps| - 1]), steps[|steps| - 1]))
  }

  predicate HasLiveEntry(s: State, user: nat) {
    exists k <- s.cache :: Live(s, k) && k.user == user && k.version == Version(s, user)
  }

  /** A read of the user has computed its result at this version and not stored it yet. */
  predicate InFlight(s: State, user: nat) {
    exists i :: 0 <= i < |s.computed| && s.computed[i].user == user && s.computed[i].version == Version(s, user)
  }

  /** What a write without a bump does to the entries. */
  lemma QuietWriteEntries(f: Candidates, s: State, user: nat, i: nat, a: Account)
    requires Coherent(f, s)
    ensures Coherent(f, PutAccount(s, user, i, a)) <==> Shift(s, user, i, a) == 0.0 || !HasLiveEntry(s, user)
  {
    var s' := PutAccount(s, user, i, a);
    forall k <- s.cache | k.user == user && k.version == Version(s, user) && Live(s, k)
      ensures s'.cache[k].money == Fresh(f, BooksOf(s', user), k.start, k.end) <==> Shift(s, user, i, a) == 0.0
    {
      QuietWriteShifts(f, s, user, i, a, k.start, k.end);
    }
    if Shift(s, user, i, a) != 0.0 && HasLiveEntry(s, user) {
      var k :| k in s.cache && Live(s, k) && k.user == user && k.version == Version(s, user);
      assert Live(s', k);
    }
  }

  /** What it does to the reads in flight. */
  lemma QuietWriteResults(f: Candidates, s: State, user: nat, i: nat, a: Account)
    requires ComputedOk(f, s)
    ensures ComputedOk(f, PutAccount(s, user, i, a)) <==> Shift(s, user, i, a) == 0.0 || !InFlight(s, user)
  {
    var s' := PutAccount(s, user, i, a);
    forall k | 0 <= k < |s.computed| && s.computed[k].user == user && s.computed[k].version == Version(s, user)
      ensures UpToDate(f, s', s.computed[k]) <==> Shift(s, user, i, a) == 0.0
    {
      QuietWriteShifts(f, s, user, i, a, s.computed[k].start, s.computed[k].end);
    }
    if Shift(s, user, i, a) != 0.0 && InFlight(s, user) {
      var k :| 0 <= k < |s.computed| && s.computed[k].user == user && s.computed[k].version == Version(s, user);
      assert s'.computed[k] == s.computed[k];
    }
  }

  /**
   * Exactly when a write that does not bump the version keeps cache and reads in flight up to date: when it
   * leaves the account's unarchived initial balance as it was, or the user has neither a live entry nor a
   * read in flight at this version.
   */
  lemma QuietWriteCoherence(f: Candidates, s: State, user: nat, i: nat, a: Account)
    requires Coherent(f, s)
    ensures var s' := PutAccount(s, user, i, a);
            && (Coherent(f, s') <==> Shift(s, user, i, a) == 0.0 || !HasLiveEntry(s, user))
            && (ComputedOk(f, s) ==>
                  (Coherent(f, s') && ComputedOk(f, s') <==>
                   Shift(s, user, i, a) == 0.0 || (!HasLiveEntry(s, user) && !InFlight(s, user))))
  {
    QuietWriteEntries(f, s, user, i, a);
    if ComputedOk(f, s) { QuietWriteResults(f, s, user, i, a); }
  }

  lemma StoreCoherence(f: Candidates, s: State, k: Key, m: Money, ttl: int)
    requires Coherent(f, s) && m == Fresh(f, BooksOf(s, k.user), k.start, k.end)
    ensures Coherent(f, Store(s, k, m, ttl))
  {
  }

  lemma DropKeepsComputed(f: Candidates, s: State, i: nat)
    requires ComputedOk(f, s) && i < |s.computed|
    ensures ComputedOk(f, Dropped(s, i))
  {
    forall k | 0 <= k < |Dropped(s, i).computed|
      ensures var c := Dropped(s, i).computed[k]; c.version == Version(s, c.user) ==> UpToDate(f, s, c)
    {
      DroppedAt(s, i, k);
    }
  }

  /** Storing a result that is up to date, at whatever version it was computed. */
  lemma FillCoherence(f: Candidates, ttl: int, s: State, i: nat)
    requires Coherent(f, s) && ComputedOk(f, s) && i < |s.computed| && UpToDate(f, s, s.computed[i])
    ensures Coherent(f, Next(f, ttl, s, Fill(i))) && ComputedOk(f, Next(f, ttl, s, Fill(i)))
  {
    var c, dropped := s.computed[i], Dropped(s, i);
    DropKeepsComputed(f, s, i);
    StoreCoherence(f, dropped, CurrentKey(s, c.user, c.start, c.end), c.money, ttl);
    assert Next(f, ttl, s, Fill(i)) == Store(dropped, CurrentKey(s, c.user, c.start, c.end), c.money, ttl);
  }

  lemma CarefulStepCoherence(f: Candidates, ttl: int, s: State, step: Step)
    requires Coherent(f, s) && ComputedOk(f, s) && NoneAbove(s) && Careful(s, step)
    ensures Coherent(f, Next(f, ttl, s, step)) && ComputedOk(f, Next(f, ttl, s, step))
  {
    match step
    case QuietAccount(user, i, a) =>
      QuietWriteCoherence(f, s, user, i, a);
    case Committed(user, books) =>
      BumpedWriteCoherence(f, s, user, books);
    case Fill(i) =>
      if i < |s.computed| { FillCoherence(f, ttl, s, i); }
    case _ =>
  }

  /**
   * Coherence over whole runs: with quiet writes that move no money and no fill after a bump, every read,
   * at any time and with any interleaving of other users' and periods' steps, returns what a fresh
   * computation would.
   */
  lemma {:induction false} CarefulRunsAreCoherent(f: Candidates, ttl: int, steps: seq<Step>)
    requires CarefulRun(f, ttl, steps)
    ensures Coherent(f, Run(f, ttl, steps)) && ComputedOk(f, Run(f, ttl, steps))
    ensures var s := Run(f, ttl, steps);
            forall user: nat, start: int, end: int, refresh: bool ::
              ReadResult(f, s, user, start, end, refresh) == Fresh(f, BooksOf(s, user), start, end)
  {
    if steps != [] {
      CarefulRunsAreCoherent(f, ttl, steps[..|steps| - 1]);
      AlwaysNoneAbove(f, ttl, steps[..|steps| - 1]);
      CarefulStepCoherence(f, ttl, Run(f, ttl, steps[..|steps| - 1]), steps[|steps| - 1]);
    }
  }

  /* ----- exactly which writes spoil later reads ----- */

  predicate CarefulFrom(f: Candidates, ttl: int, s: State, steps: seq<Step>) {
    steps == [] || (CarefulFrom(f, ttl, s, steps[..|steps| - 1])
                    && Careful(After(f, ttl, s, steps[..|steps| - 1]), steps[|steps| - 1]))
  }

  /** Careful steps keep an up-to-date state up to date. */
  lemma {:induction false} CarefulGoesOn(f: Candidates, ttl: int, s: State, steps: seq<Step>)
    requires Coherent(f, s) && ComputedOk(f, s) && NoneAbove(s) && AllBalanced(s) && CarefulFrom(f, ttl, s, steps)
    ensures var end := After(f, ttl, s, steps);
            Coherent(f, end) && ComputedOk(f, end) && NoneAbove(end) && AllBalanced(end)
  {
    if steps != [] {
      CarefulGoesOn(f, ttl, s, steps[..|steps| - 1]);
      CarefulStepCoherence(f, ttl, After(f, ttl, s, steps[..|steps| - 1]), steps[|steps| - 1]);
      NextKeepsNoneAbove(f, ttl, After(f, ttl, s, steps[..|steps| - 1]), steps[|steps| - 1]);
    }
  }

  predicate ReadIsFresh(f: Candidates, s: State, user: nat, start: int, end: int) {
    ReadResult(f, s, user, start, end, false) == Fresh(f, BooksOf(s, user), start, end)
  }

  /** Every read, at every point of every careful continuation, returns what a fresh computation would. */
  ghost predicate StaysFresh(f: Candidates, ttl: int, s: State) {
    forall later: seq<Step>, user: nat, start: int, end: int ::
      CarefulFrom(f, ttl, s, later) ==> ReadIsFresh(f, After(f, ttl, s, later), user, start, end)
  }

  lemma AfterNone(f: Candidates, ttl: int, s: State)
    ensures After(f, ttl, s, []) == s && CarefulFrom(f, ttl, s, [])
  {
  }

  lemma AfterOne(f: Candidates, ttl: int, s: State, step: Step)
    ensures After(f, ttl, s, [step]) == Next(f, ttl, s, step)
    ensures CarefulFrom(f, ttl, s, [step]) <==> Careful(s, step)
  {
    assert [step][..0] == [];
  }

  /** The read after a fill is right exactly when what was computed still is, whatever happened in between. */
  lemma FillServes(f: Candidates, ttl: int, s: State, i: nat)
    requires ttl > 0 && i < |s.computed|
    ensures var c := s.computed[i];
            ReadIsFresh(f, Next(f, ttl, s, Fill(i)), c.user, c.start, c.end) <==> UpToDate(f, s, c)
  {
  }

  /** Reads stay fresh from exactly those states in which entries and reads in flight are up to date. */
  lemma StaysFreshExactly(f: Candidates, ttl: int, s: State)
    requires ttl > 0 && NoneAbove(s) && AllBalanced(s)
    ensures StaysFresh(f, ttl, s) <==> Coherent(f, s) && ComputedOk(f, s)
  {
    if Coherent(f, s) && ComputedOk(f, s) {
      forall later: seq<Step>, user: nat, start: int, end: int | CarefulFrom(f, ttl, s, later)
        ensures ReadIsFresh(f, After(f, ttl, s, later), user, start, end)
      {
        CarefulGoesOn(f, ttl, s, later);
      }
    } else if !Coherent(f, s) {
      var k :| k in s.cache && Live(s, k) && k.version == Version(s, k.user)
               && s.cache[k].money != Fresh(f, BooksOf(s, k.user), k.start, k.end);
      AfterNone(f, ttl, s);
      assert k == CurrentKey(s, k.user, k.start, k.end);
      assert !ReadIsFresh(f, After(f, ttl, s, []), k.user, k.start, k.end);
    } else {
      var i :| 0 <= i < |s.computed| && s.computed[i].version == Version(s, s.computed[i].user)
               && !UpToDate(f, s, s.computed[i]);
      var c := s.computed[i];
      FillServes(f, ttl, s, i);
      AfterOne(f, ttl, s, Fill(i));
      assert !ReadIsFresh(f, After(f, ttl, s, [Fill(i)]), c.user, c.start, c.end);
    }
  }

  /**
   * An account write without a bump, after any careful run: every later read of every careful continuation
   * is right if and only if the write leaves the account's unarchived initial balance as it was, or the user
   * has neither a live entry nor a read in flight at this version.
   */
  lemma QuietWriteExactly(f: Candidates, ttl: int, steps: seq<Step>, user: nat, i: nat, a: Account)
    requires ttl > 0 && CarefulRun(f, ttl, steps)
    ensures var s := Run(f, ttl, steps);
            StaysFresh(f, ttl, Next(f, ttl, s, QuietAccount(user, i, a))) <==>
            Shift(s, user, i, a) == 0.0 || (!HasLiveEntry(s, user) && !InFlight(s, user))
  {
    var s := Run(f, ttl, steps);
    CarefulRunsAreCoherent(f, ttl, steps);
    AlwaysNoneAbove(f, ttl, steps);
    NextKeepsNoneAbove(f, ttl, s, QuietAccount(user, i, a));
    QuietWriteCoherence(f, s, user, i, a);
    StaysFreshExactly(f, ttl, PutAccount(s, user, i, a));
  }

  /**
   * The second version read of a read in flight, after any careful run: every later read of every careful
   * continuation is right if and only if the result it stores is still what a fresh computation gives,
   * however the version has moved.
   */
  lemma FillExactly(f: Candidates, ttl: int, steps: seq<Step>, i: nat)
    requires ttl > 0 && CarefulRun(f, ttl, steps) && i < |Run(f, ttl, steps).computed|
    ensures var s := Run(f, ttl, steps);
            StaysFresh(f, ttl, Next(f, ttl, s, Fill(i))) <==> UpToDate(f, s, s.computed[i])
  {
    var s := Run(f, ttl, steps);
    var s' := Next(f, ttl, s, Fill(i));
    CarefulRunsAreCoherent(f, ttl, steps);
    AlwaysNoneAbove(f, ttl, steps);
    NextKeepsNoneAbove(f, ttl, s, Fill(i));
    StaysFreshExactly(f, ttl, s');
    if UpToDate(f, s, s.computed[i]) {
      FillCoherence(f, ttl, s, i);
    } else {
      FillServes(f, ttl, s, i);
      AfterNone(f, ttl, s');
    }
  }

  /** Where the i-th read in flight is after the steps, unless they store its result. */
  function Waits(i: nat, steps: seq<Step>): Option<nat> {
    if steps == [] then Some(i)
    else
      var last := steps[|steps| - 1];
      match Waits(i, steps[..|steps| - 1])
      case None => None
      case Some(j) =>
        if !last.Fill? || last.i > j then Some(j) else if last.i == j then None else Some(j - 1)
  }

  lemma NextWaiting(f: Candidates, ttl: int, s: State, j: nat, step: Step)
    requires j < |s.computed| && !(step.Fill? && step.i == j)
    ensures var j' := if step.Fill? && step.i < j then j - 1 else j;
            j' < |Next(f, ttl, s, step).computed| && Next(f, ttl, s, step).computed[j'] == s.computed[j]
  {
    if step.Fill? && step.i < |s.computed| { DroppedAt(s, step.i, if step.i < j then j - 1 else j); }
  }

  lemma {:induction false} WaitingResult(f: Candidates, ttl: int, s: State, i: nat, steps: seq<Step>)
    requires i < |s.computed| && Waits(i, steps).Some?
    ensures var j, end := Waits(i, steps).value, After(f, ttl, s, steps);
            j < |end.computed| && end.computed[j] == s.computed[i]
  {
    if steps != [] {
      var before, last := steps[..|steps| - 1], steps[|steps| - 1];
      WaitingResult(f, ttl, s, i, before);
      NextWaiting(f, ttl, After(f, ttl, s, before), Waits(i, before).value, last);
    }
  }

  /**
   * A read that is in flight while anything else happens, writes with and without a bump, other reads and
   * fills, expiries: what it stores in the end is what the next read of the period gets, which is right
   * exactly when the period's numbers are what they were at its computation.
   */
  lemma InterleavedWrite(f: Candidates, ttl: int, s: State, user: nat, start: int, end: int, between: seq<Step>)
    requires ttl > 0 && Waits(|s.computed|, between).Some?
    ensures var late := After(f, ttl, Next(f, ttl, s, Compute(user, start, end)), between);
            var j := Waits(|s.computed|, between).value;
            && j < |late.computed|
            && (ReadIsFresh(f, Next(f, ttl, late, Fill(j)), user, start, end) <==>
                Fresh(f, BooksOf(s, user), start, end) == Fresh(f, BooksOf(late, user), start, end))
  {
    var s1 := Next(f, ttl, s, Compute(user, start, end));
    WaitingResult(f, ttl, s1, |s.computed|, between);
    FillServes(f, ttl, After(f, ttl, s1, between), Waits(|s.computed|, between).value);
  }

  /* ----- the failures, in a run ----- */

  lemma RunAppend(f: Candidates, ttl: int, steps: seq<Step>, step: Step)
    ensures Run(f, ttl, steps + [step]) == Next(f, ttl, Run(f, ttl, steps), step)
  {
    assert (steps + [step])[..|steps|] == steps;
  }

  lemma RunOne(f: Candidates, ttl: int, step: Step)
    ensures Run(f, ttl, [step]) == Next(f, ttl, EMPTY, step)
  {
    assert [step][..0] == [];
  }

  /** A balance is read, an account is opened, and the balance is read again. */
  function OpenAccount(user: nat, start: int, end: int): seq<Step> {
    [ReadWhole(user, start, end, false)] + [QuietAccount(user, 0, Account(1.0, false))]
  }

  /** The second read misses the new account. */
  lemma QuietWriteBreaks(f: Candidates, ttl: int, user: nat, start: int, end: int)
    requires ttl > 0
    ensures var s := Run(f, ttl, OpenAccount(user, start, end));
            var seen, due := ReadResult(f, s, user, start, end, false), Fresh(f, BooksOf(s, user), start, end);
            seen != due && due.actual == seen.actual + 1.0
  {
    var read, write := ReadWhole(user, start, end, false), QuietAccount(user, 0, Account(1.0, false));
    var s1 := Run(f, ttl, [read]);
    RunOne(f, ttl, read);
    RunAppend(f, ttl, [read], write);
    QuietWriteShifts(f, s1, user, 0, Account(1.0, false), start, end);
  }

  /** A balance is computed, an account is opened with a version bump, and the computed balance is stored. */
  function WriteMeanwhile(user: nat, start: int, end: int): seq<Step> {
    [Compute(user, start, end)] + [Committed(user, NO_BOOKS.(accounts := [Account(1.0, false)]))] + [Fill(0)]
  }

  /** The next read serves the balance from before the write, under the version after it. */
  lemma InterleavedWriteBreaks(f: Candidates, ttl: int, user: nat, start: int, end: int)
    requires ttl > 0
    ensures var s := Run(f, ttl, WriteMeanwhile(user, start, end));
            var seen, due := ReadResult(f, s, user, start, end, false), Fresh(f, BooksOf(s, user), start, end);
            seen != due && due.actual == seen.actual + 1.0
  {
    var compute, write := Compute(user, start, end), Committed(user, NO_BOOKS.(accounts := [Account(1.0, false)]));
    RunOne(f, ttl, compute);
    RunAppend(f, ttl, [compute], write);
    RunAppend(f, ttl, [compute] + [write], Fill(0));
  }

  /** A balance is computed, an account is opened without a bump, and the computed balance is stored. */
  function OpenMeanwhile(user: nat, start: int, end: int): seq<Step> {
    [Compute(user, start, end)] + [QuietAccount(user, 0, Account(1.0, false))] + [Fill(0)]
  }

  /**
   * At the write nothing is cached and everything is coherent before and after it, and the balance is stored
   * under the version it was computed at; yet the next read misses the account.
   */
  lemma QuietWriteInFlightBreaks(f: Candidates, ttl: int, user: nat, start: int, end: int)
    requires ttl > 0
    ensures var read, write := Compute(user, start, end), QuietAccount(user, 0, Account(1.0, false));
            var s1, s2 := Run(f, ttl, [read]), Run(f, ttl, [read] + [write]);
            Coherent(f, s1) && !HasLiveEntry(s1, user) && InFlight(s1, user) && Coherent(f, s2) && Careful(s2, Fill(0))
    ensures var s := Run(f, ttl, OpenMeanwhile(user, start, end));
            var seen, due := ReadResult(f, s, user, start, end, false), Fresh(f, BooksOf(s, user), start, end);
            seen != due && due.actual == seen.actual + 1.0
  {
    var read, write := Compute(user, start, end), QuietAccount(user, 0, Account(1.0, false));
    var s1 := Run(f, ttl, [read]);
    RunOne(f, ttl, read);
    assert s1.computed[0].user == user;
    RunAppend(f, ttl, [read], write);
    RunAppend(f, ttl, [read] + [write], Fill(0));
    QuietWriteShifts(f, s1, user, 0, Account(1.0, false), start, end);
  }
}
