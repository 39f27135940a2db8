/**
 * What a balance is made of, told by what one more row of each table does to the balance that is read next,
 * from the cache or not, after any careful run.
 */
module BalanceLaws {
  import opened Wrappers
  import opened BalanceCache

  function Booked(b: Books, t: Transaction): Books {
    b.(ledger := b.ledger.(transactions := b.ledger.transactions + [t]))
  }

  function IncomePlanned(b: Books, p: Planned): Books {
    b.(ledger := b.ledger.(expectedIncomes := b.ledger.expectedIncomes + [p]))
  }

  function ExpensePlanned(b: Books, p: Planned): Books {
    b.(ledger := b.ledger.(expectedExpenses := b.ledger.expectedExpenses + [p]))
  }

  function RegularAdded(b: Books, r: Regular): Books {
    b.(ledger := b.ledger.(regular := b.ledger.regular + [r]))
  }

  function NoRegular(b: Books): Books {
    b.(ledger := b.ledger.(regular := []))
  }

  function NoPlannedExpenses(b: Books): Books {
    b.(ledger := b.ledger.(expectedExpenses := []))
  }

  /** Without any candidates only planned incomes are left. */
  function NoCandidates(): Candidates {
    (_, _, _) => 0.0
  }

  /* ----- one more row, in a fresh computation ----- */

  lemma {:induction false} MovedAppend(ts: seq<Transaction>, t: Transaction, start: int)
    ensures MovedBefore(ts + [t], start) == MovedBefore(ts, start) + if t.day < start then t.amount else 0.0
  {
    if ts == [] {
      assert ts + [t] == [t];
    } else {
      MovedAppend(ts[1..], t, start);
      assert (ts + [t])[1..] == ts[1..] + [t];
    }
  }

  /** A planned amount counts when it has no date or one within the period. */
  predicate Counts(day: Option<int>, start: int, end: int) {
    day.None? || start <= day.value <= end
  }

  lemma {:induction false} PlannedAppend(ps: seq<Planned>, p: Planned, start: int, end: int)
    ensures PlannedIn(ps + [p], start, end) ==
            PlannedIn(ps, start, end) + if Counts(p.day, start, end) then p.amount else 0.0
  {
    if ps == [] {
      assert ps + [p] == [p];
    } else {
      PlannedAppend(ps[1..], p, start, end);
      assert (ps + [p])[1..] == ps[1..] + [p];
    }
  }

  /** A regular expense is due when it is active and dated within the period. */
  predicate DueIn(r: Regular, start: int, end: int) {
    r.active && r.nextDay.Some? && start <= r.nextDay.value <= end
  }

  function AmountDue(r: Regular): real {
    match r.expectedAmount
    case Some(amount) => amount
    case None => r.averageAmount
  }

  lemma {:induction false} RegularAppend(rs: seq<Regular>, r: Regular, start: int, end: int)
    ensures RegularIn(rs + [r], start, end) ==
            RegularIn(rs, start, end) + if DueIn(r, start, end) then AmountDue(r) else 0.0
  {
    if rs == [] {
      assert rs + [r] == [r];
    } else {
      RegularAppend(rs[1..], r, start, end);
      assert (rs + [r])[1..] == rs[1..] + [r];
    }
  }

  /** Nothing adds up to nothing. */
  lemma EmptyBooks(f: Candidates, start: int, end: int)
    ensures Fresh(f, NO_BOOKS, start, end) == Money(0.0, f([], start, end), 0.0, f([], start, end))
  {
  }

  lemma FreshBooked(f: Candidates, b: Books, t: Transaction, start: int, end: int)
    ensures var before, after := Fresh(f, b, start, end), Fresh(f, Booked(b, t), start, end);
            && after.actual == before.actual + (if t.day < start then t.amount else 0.0)
            && after.expense == before.expense
  {
    MovedAppend(b.ledger.transactions, t, start);
  }

  lemma FreshIncomePlanned(f: Candidates, b: Books, p: Planned, start: int, end: int)
    ensures Fresh(NoCandidates(), IncomePlanned(b, p), start, end).income ==
            Fresh(NoCandidates(), b, start, end).income + if Counts(p.day, start, end) then p.amount else 0.0
    ensures var before, after := Fresh(f, b, start, end), Fresh(f, IncomePlanned(b, p), start, end);
            after.actual == before.actual && after.expense == before.expense
  {
    PlannedAppend(b.ledger.expectedIncomes, p, start, end);
  }

  /** Expected income is what is planned, and what the candidates say when the plans come to zero. */
  lemma IncomeChosen(f: Candidates, b: Books, start: int, end: int)
    ensures var planned := Fresh(NoCandidates(), b, start, end).income;
            Fresh(f, b, start, end).income == if planned != 0.0 then planned else f(b.ledger.transactions, start, end)
  {
  }

  lemma FreshExpensePlanned(f: Candidates, b: Books, p: Planned, start: int, end: int)
    ensures Fresh(f, NoRegular(ExpensePlanned(b, p)), start, end).expense ==
            Fresh(f, NoRegular(b), start, end).expense + if Counts(p.day, start, end) then p.amount else 0.0
    ensures var before, after := Fresh(f, b, start, end), Fresh(f, ExpensePlanned(b, p), start, end);
            after.actual == before.actual && after.income == before.income
  {
    PlannedAppend(b.ledger.expectedExpenses, p, start, end);
  }

  lemma FreshRegularAdded(f: Candidates, b: Books, r: Regular, start: int, end: int)
    ensures Fresh(f, NoPlannedExpenses(RegularAdded(b, r)), start, end).expense ==
            Fresh(f, NoPlannedExpenses(b), start, end).expense + if DueIn(r, start, end) then AmountDue(r) else 0.0
    ensures var before, after := Fresh(f, b, start, end), Fresh(f, RegularAdded(b, r), start, end);
            after.actual == before.actual && after.income == before.income
  {
    RegularAppend(b.ledger.regular, r, start, end);
  }

  /** Expected expense is what is planned, and the regular expenses when the plans come to zero. */
  lemma ExpenseChosen(f: Candidates, b: Books, start: int, end: int)
    ensures var planned := Fresh(f, NoRegular(b), start, end).expense;
            Fresh(f, b, start, end).expense ==
            if planned != 0.0 then planned else Fresh(f, NoPlannedExpenses(b), start, end).expense
  {
  }

  /* ----- one more row, in the balance that is read next ----- */

  /** What a user reads for a period, from the cache or not. */
  function Reads(f: Candidates, s: State, user: nat, start: int, end: int): Money {
    ReadResult(f, s, user, start, end, false)
  }

  /** After a careful run and a committed change the next read of every period is that of the new books. */
  lemma NextRead(f: Candidates, ttl: int, steps: seq<Step>, user: nat, books: Books, start: int, end: int)
    requires CarefulRun(f, ttl, steps)
    ensures var s := Run(f, ttl, steps);
            && Reads(f, s, user, start, end) == Fresh(f, BooksOf(s, user), start, end)
            && Reads(f, Next(f, ttl, s, Committed(user, books)), user, start, end) == Fresh(f, books, start, end)
  {
    var s := Run(f, ttl, steps);
    CarefulRunsAreCoherent(f, ttl, steps);
    AlwaysNoneAbove(f, ttl, steps);
    BumpedWriteCoherence(f, s, user, books);
  }

  /**
   * A committed transaction moves the actual balance of every period that begins after its day, by its
   * amount, and of no other.
   */
  lemma TransactionMovesBalance(f: Candidates, ttl: int, steps: seq<Step>, user: nat, t: Transaction,
                                start: int, end: int)
    requires CarefulRun(f, ttl, steps)
    ensures var s := Run(f, ttl, steps);
            var s' := Next(f, ttl, s, Committed(user, Booked(BooksOf(s, user), t)));
            var before, after := Reads(f, s, user, start, end), Reads(f, s', user, start, end);
            && after.actual == before.actual + (if t.day < start then t.amount else 0.0)
            && after.expense == before.expense
            && after.available == after.actual + after.income - after.expense
  {
    var s := Run(f, ttl, steps);
    NextRead(f, ttl, steps, user, Booked(BooksOf(s, user), t), start, end);
    FreshBooked(f, BooksOf(s, user), t, start, end);
  }

  /**
   * A committed planned income moves the expected income of exactly the periods it counts in, as long as the
   * plans do not come to zero before or after, and nothing else.
   */
  lemma PlannedIncomeMovesBalance(f: Candidates, ttl: int, steps: seq<Step>, user: nat, p: Planned,
                                  start: int, end: int)
    requires CarefulRun(f, ttl, steps)
    ensures var s := Run(f, ttl, steps);
            var b := BooksOf(s, user);
            var s' := Next(f, ttl, s, Committed(user, IncomePlanned(b, p)));
            var before, after := Reads(f, s, user, start, end), Reads(f, s', user, start, end);
            var plans := Fresh(NoCandidates(), b, start, end).income;
            var moved := if Counts(p.day, start, end) then p.amount else 0.0;
            && after.actual == before.actual && after.expense == before.expense
            && after.income == (if plans + moved != 0.0 then plans + moved else f(b.ledger.transactions, start, end))
            && (plans != 0.0 && plans + moved != 0.0 ==> after.income == before.income + moved)
  {
    var b := BooksOf(Run(f, ttl, steps), user);
    NextRead(f, ttl, steps, user, IncomePlanned(b, p), start, end);
    FreshIncomePlanned(f, b, p, start, end);
    IncomeChosen(f, b, start, end);
    IncomeChosen(f, IncomePlanned(b, p), start, end);
  }

  /** A committed planned expense, in the same way; when the plans come to zero the regular expenses count. */
  lemma PlannedExpenseMovesBalance(f: Candidates, ttl: int, steps: seq<Step>, user: nat, p: Planned,
                                   start: int, end: int)
    requires CarefulRun(f, ttl, steps)
    ensures var s := Run(f, ttl, steps);
            var b := BooksOf(s, user);
            var s' := Next(f, ttl, s, Committed(user, ExpensePlanned(b, p)));
            var before, after := Reads(f, s, user, start, end), Reads(f, s', user, start, end);
            var plans := Fresh(f, NoRegular(b), start, end).expense;
            var moved := if Counts(p.day, start, end) then p.amount else 0.0;
            && after.actual == before.actual && after.income == before.income
            && after.expense == (if plans + moved != 0.0 then plans + moved
                                 else Fresh(f, NoPlannedExpenses(b), start, end).expense)
            && (plans != 0.0 && plans + moved != 0.0 ==> after.expense == before.expense + moved)
  {
    var b := BooksOf(Run(f, ttl, steps), user);
    NextRead(f, ttl, steps, user, ExpensePlanned(b, p), start, end);
    FreshExpensePlanned(f, b, p, start, end);
    ExpenseChosen(f, b, start, end);
    ExpenseChosen(f, ExpensePlanned(b, p), start, end);
    assert NoPlannedExpenses(ExpensePlanned(b, p)) == NoPlannedExpenses(b);
  }

  /**
   * A regular expense moves the expected expense exactly when the planned ones come to zero and it is active
   * and due in the period, by its expected amount or else its average.
   */
  lemma RegularMovesBalance(f: Candidates, ttl: int, steps: seq<Step>, user: nat, r: Regular, start: int, end: int)
    requires CarefulRun(f, ttl, steps)
    ensures var s := Run(f, ttl, steps);
            var b := BooksOf(s, user);
            var s' := Next(f, ttl, s, Committed(user, RegularAdded(b, r)));
            var before, after := Reads(f, s, user, start, end), Reads(f, s', user, start, end);
            var plans := Fresh(f, NoRegular(b), start, end).expense;
            && after.actual == before.actual && after.income == before.income
            && after.expense ==
               before.expense + if plans == 0.0 && DueIn(r, start, end) then AmountDue(r) else 0.0
  {
    var b := BooksOf(Run(f, ttl, steps), user);
    NextRead(f, ttl, steps, user, RegularAdded(b, r), start, end);
    FreshRegularAdded(f, b, r, start, end);
    ExpenseChosen(f, b, start, end);
    ExpenseChosen(f, RegularAdded(b, r), start, end);
    assert NoRegular(RegularAdded(b, r)) == NoRegular(b);
  }

  /* ----- what the cache serves, and for how long ----- */

  /** A refresh answers with what the tables say, whatever is cached, and caches it for exactly the TTL. */
  lemma RefreshLasts(f: Candidates, ttl: int, s: State, user: nat, start: int, end: int, d: nat)
    ensures ReadResult(f, s, user, start, end, true) == Fresh(f, BooksOf(s, user), start, end)
    ensures var read := Next(f, ttl, s, ReadWhole(user, start, end, true));
            var later, k := Next(f, ttl, read, Tick(d)), CurrentKey(s, user, start, end);
            && (ttl <= 0 ==> read == s)
            && (ttl > 0 ==>
                  && (Live(later, k) <==> d < ttl)
                  && read.cache[k].money == Fresh(f, BooksOf(s, user), start, end))
  {
  }

  /** How many changes of the user's were committed with a bump. */
  function Commits(steps: seq<Step>, user: nat): nat {
    if steps == [] then 0
    else
      var last := steps[|steps| - 1];
      Commits(steps[..|steps| - 1], user) + if last.Committed? && last.user == user then 1 else 0
  }

  /** In every run a user's version counts the bumped changes, and nothing else moves it. */
  lemma {:induction false} VersionCountsCommits(f: Candidates, ttl: int, steps: seq<Step>, user: nat)
    ensures Version(Run(f, ttl, steps), user) == Commits(steps, user)
  {
    if steps != [] { VersionCountsCommits(f, ttl, steps[..|steps| - 1], user); }
  }

  /** An account keeps its place: a quiet write replaces the one it names or adds one at the end, and that is all. */
  lemma QuietWritePuts(s: State, user: nat, i: nat, a: Account, other: nat)
    ensures var b, s' := BooksOf(s, user), PutAccount(s, user, i, a);
            var b' := BooksOf(s', user);
            && b'.ledger == b.ledger && (other != user ==> BooksOf(s', other) == BooksOf(s, other))
            && |b'.accounts| == (if i < |b.accounts| then |b.accounts| else |b.accounts| + 1)
            && (forall k :: 0 <= k < |b.accounts| && k != i ==> b'.accounts[k] == b.accounts[k])
            && b'.accounts[if i < |b.accounts| then i else |b.accounts|] == a
            && s'.cache == s.cache && s'.versions == s.versions
  {
  }
}
