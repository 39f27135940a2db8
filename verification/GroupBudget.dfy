/**
 * The family budget: the members' balances, read in one batch or one by one, added up, and cached under a
 * key with the highest member version.
 */
module GroupBudget {
  import opened BalanceCache

  /* ----- the family budget ----- */

  function Total(ms: seq<Money>): Money {
    if ms == [] then Money(0.0, 0.0, 0.0, 0.0)
    else
      var t, m := Total(ms[..|ms| - 1]), ms[|ms| - 1];
      Money(t.actual + m.actual, t.income + m.income, t.expense + m.expense, t.available + m.available)
  }

  function FreshEach(f: Candidates, s: State, users: seq<nat>, start: int, end: int): seq<Money> {
    seq(|users|, i requires 0 <= i < |users| => Fresh(f, BooksOf(s, users[i]), start, end))
  }

  /** A member's reply on the fallback path: its budget, or None when the request fails. */
  function Fallback(f: Candidates, ttl: int, s: State, users: seq<nat>, ok: seq<bool>, start: int, end: int)
    : (seq<Money>, State)
    requires |ok| == |users|
  {
    if users == [] then ([], s)
    else
      var n := |users| - 1;
      var (budgets, s') := Fallback(f, ttl, s, users[..n], ok[..n], start, end);
      if ok[n] then
        (budgets + [ReadResult(f, s', users[n], start, end, false)], Read(f, ttl, s', users[n], start, end, false))
      else (budgets, s')
  }

  /* ----- the cached summary ----- */

  /** `group_budget_cache_key`; the members' hash stands for their sorted list. */
  datatype GroupKey = GroupKey(group: nat, start: int, end: int, members: multiset<nat>, version: nat)
  datatype GroupEntry = GroupEntry(total: Money, expiry: nat)

  datatype Family = Family(state: State, cache: map<GroupKey, GroupEntry>)

  /** max_user_data_version. */
  function MaxVersion(s: State, users: seq<nat>): nat {
    if users == [] then 0
    else
      var rest, last := MaxVersion(s, users[..|users| - 1]), Version(s, users[|users| - 1]);
      if last > rest then last else rest
  }

  function KeyOf(s: State, group: nat, users: seq<nat>, start: int, end: int): GroupKey {
    GroupKey(group, start, end, multiset(users), MaxVersion(s, users))
  }

  predicate GroupLive(g: Family, k: GroupKey) {
    k in g.cache && g.state.now < g.cache[k].expiry
  }

  /** A request for a summary: whether the batch succeeds, and which of the single requests do if it does not. */
  datatype Request = Request(group: nat, users: seq<nat>, batchOk: bool, ok: seq<bool>, start: int, end: int)

  predicate WellFormed(q: Request) {
    |q.ok| == |q.users|
  }

  function Budgets(f: Candidates, ttl: int, s: State, q: Request): (seq<Money>, State)
    requires WellFormed(q)
  {
    if q.batchOk then ReadEach(f, ttl, s, q.users, q.start, q.end)
    else Fallback(f, ttl, s, q.users, q.ok, q.start, q.end)
  }

  predicate GroupHits(g: Family, q: Request, refresh: bool) {
    !refresh && GroupLive(g, KeyOf(g.state, q.group, q.users, q.start, q.end))
  }

  function GroupResult(f: Candidates, ttl: int, g: Family, q: Request, refresh: bool): Money
    requires WellFormed(q)
  {
    if GroupHits(g, q, refresh) then g.cache[KeyOf(g.state, q.group, q.users, q.start, q.end)].total
    else Total(Budgets(f, ttl, g.state, q).0)
  }

  /** The key is made before the members' balances are read. */
  function GroupRead(f: Candidates, ttl: int, g: Family, q: Request, refresh: bool): Family
    requires WellFormed(q)
  {
    if GroupHits(g, q, refresh) then g
    else
      var (budgets, s') := Budgets(f, ttl, g.state, q);
      var k := KeyOf(g.state, q.group, q.users, q.start, q.end);
      Family(s', if ttl <= 0 then g.cache else g.cache[k := GroupEntry(Total(budgets), s'.now + ttl)])
  }

  datatype FamilyStep = Base(step: Step) | Summarise(request: Request, refresh: bool)

  function FamilyNext(f: Candidates, ttl: int, g: Family, step: FamilyStep): Family {
    match step
    case Base(s) => g.(state := Next(f, ttl, g.state, s))
    case Summarise(q, refresh) => if WellFormed(q) then GroupRead(f, ttl, g, q, refresh) else g
  }

  const NO_FAMILY := Family(EMPTY, map[])

  function FamilyRun(f: Candidates, ttl: int, steps: seq<FamilyStep>): Family {
    if steps == [] then NO_FAMILY else FamilyNext(f, ttl, FamilyRun(f, ttl, steps[..|steps| - 1]), steps[|steps| - 1])
  }

  /** The group handler, with its cache; both caches have the same TTL setting. */
  class GroupService {
    const analytics: AnalyticsService
    var cache: map<GroupKey, GroupEntry>

    ghost function View(): Family
      reads this, analytics
    {
      Family(analytics.View(), cache)
    }

    constructor (analytics: AnalyticsService)
      ensures this.analytics == analytics && View() == Family(analytics.View(), map[])
    {
      this.analytics, cache := analytics, map[];
    }

    method MaxUserDataVersion(users: seq<nat>) returns (version: nat)
      ensures version == MaxVersion(analytics.View(), users)
    {
      version := 0;
      for k := 0 to |users|
        invariant version == MaxVersion(analytics.View(), users[..k])
      {
        assert users[..k + 1][..k] == users[..k];
        var v := analytics.VersionGet(users[k]);
        if v > version { version := v; }
      }
      assert users[..|users|] == users;
    }

    method MemberBudgets(q: Request) returns (budgets: seq<Money>)
      requires WellFormed(q)
      modifies analytics
      ensures (budgets, analytics.View())
              == Budgets(analytics.candidates, analytics.ttlSeconds, old(analytics.View()), q)
    {
      if q.batchOk {
        budgets := analytics.MemberBudgets(q.users, q.start, q.end);
        return;
      }
      var users, ok := q.users, q.ok;
      budgets := [];
      for k := 0 to |users|
        invariant (budgets, analytics.View()) ==
                  Fallback(analytics.candidates, analytics.ttlSeconds, old(analytics.View()),
                           users[..k], ok[..k], q.start, q.end)
      {
        if ok[k] {
          var m := analytics.AvailableBalance(users[k], q.start, q.end, false);
          budgets := budgets + [m];
        }
        assert users[..k + 1][..k] == users[..k] && ok[..k + 1][..k] == ok[..k];
      }
      assert users[..|users|] == users && ok[..|ok|] == ok;
    }

    method AddUp(budgets: seq<Money>) returns (totals: Money)
      ensures totals == Total(budgets)
    {
      totals := Money(0.0, 0.0, 0.0, 0.0);
      for k := 0 to |budgets|
        invariant totals == Total(budgets[..k])
      {
        totals := Money(totals.actual + budgets[k].actual, totals.income + budgets[k].income,
                        totals.expense + budgets[k].expense, totals.available + budgets[k].available);
        assert budgets[..k + 1][..k] == budgets[..k];
      }
      assert budgets[..|budgets|] == budgets;
    }

    method BudgetGet(q: Request, refresh: bool) returns (totals: Money)
      requires WellFormed(q)
      modifies this, analytics
      ensures totals == GroupResult(analytics.candidates, analytics.ttlSeconds, old(View()), q, refresh)
      ensures View() == GroupRead(analytics.candidates, analytics.ttlSeconds, old(View()), q, refresh)
    {
      var version := MaxUserDataVersion(q.users);
      var k := GroupKey(q.group, q.start, q.end, multiset(q.users), version);
      if !refresh && k in cache && analytics.now < cache[k].expiry {
        return cache[k].total;
      }
      var budgets := MemberBudgets(q);
      totals := AddUp(budgets);
      if analytics.ttlSeconds > 0 {
        cache := cache[k := GroupEntry(totals, analytics.now + analytics.ttlSeconds)];
      }
    }
  }

  /* ----- batch, fallback and conservation ----- */

  lemma {:induction false} TotalBalanced(ms: seq<Money>)
    requires forall i :: 0 <= i < |ms| ==> Balanced(ms[i])
    ensures Balanced(Total(ms))
  {
    if ms != [] { TotalBalanced(ms[..|ms| - 1]); }
  }

  lemma ReadKeepsBalanced(f: Candidates, ttl: int, s: State, user: nat, start: int, end: int)
    requires AllBalanced(s) && NoneAbove(s)
    ensures var s' := Read(f, ttl, s, user, start, end, false);
            AllBalanced(s') && NoneAbove(s') && s'.versions == s.versions && s'.books == s.books && s'.now == s.now
    ensures Balanced(ReadResult(f, s, user, start, end, false))
  {
    StoreKeepsBelow(s, CurrentKey(s, user, start, end), Fresh(f, BooksOf(s, user), start, end), ttl);
  }

  lemma {:induction false} FallbackBalanced(f: Candidates, ttl: int, s: State, users: seq<nat>, ok: seq<bool>,
                                            start: int, end: int)
    requires |ok| == |users| && AllBalanced(s) && NoneAbove(s)
    ensures var (budgets, s') := Fallback(f, ttl, s, users, ok, start, end);
            && AllBalanced(s') && NoneAbove(s') && s'.versions == s.versions && s'.books == s.books && s'.now == s.now
            && forall i :: 0 <= i < |budgets| ==> Balanced(budgets[i])
  {
    if users != [] {
      var n := |users| - 1;
      FallbackBalanced(f, ttl, s, users[..n], ok[..n], start, end);
      ReadKeepsBalanced(f, ttl, Fallback(f, ttl, s, users[..n], ok[..n], start, end).1, users[n], start, end);
    }
  }

  /** The batch is the fallback in which every request succeeds. */
  lemma {:induction false} BatchIsFallback(f: Candidates, ttl: int, s: State, users: seq<nat>, ok: seq<bool>,
                                           start: int, end: int)
    requires |ok| == |users| && forall i :: 0 <= i < |ok| ==> ok[i]
    ensures Fallback(f, ttl, s, users, ok, start, end) == ReadEach(f, ttl, s, users, start, end)
  {
    if users != [] {
      BatchIsFallback(f, ttl, s, users[..|users| - 1], ok[..|users| - 1], start, end);
    }
  }

  lemma ReadOneFresh(f: Candidates, ttl: int, s: State, user: nat, start: int, end: int)
    requires Coherent(f, s) && NoneAbove(s)
    ensures ReadResult(f, s, user, start, end, false) == Fresh(f, BooksOf(s, user), start, end)
    ensures var s' := Read(f, ttl, s, user, start, end, false); Coherent(f, s') && NoneAbove(s') && s'.books == s.books
  {
    StoreCoherence(f, s, CurrentKey(s, user, start, end), Fresh(f, BooksOf(s, user), start, end), ttl);
  }

  lemma {:induction false} ReadEachFresh(f: Candidates, ttl: int, s: State, users: seq<nat>, start: int, end: int)
    requires Coherent(f, s) && NoneAbove(s)
    ensures var (budgets, s') := ReadEach(f, ttl, s, users, start, end);
            && budgets == FreshEach(f, s, users, start, end)
            && Coherent(f, s') && NoneAbove(s') && s'.books == s.books
  {
    if users != [] {
      var before := users[..|users| - 1];
      ReadEachFresh(f, ttl, s, before, start, end);
      ReadOneFresh(f, ttl, ReadEach(f, ttl, s, before, start, end).1, users[|users| - 1], start, end);
      assert FreshEach(f, s, users, start, end) ==
             FreshEach(f, s, before, start, end) + [Fresh(f, BooksOf(s, users[|users| - 1]), start, end)];
    }
  }

  /**
   * Batch and fallback agree: from a coherent state, even when the fallback starts in the state that a
   * batch which failed after its first k members has left, both totals are the sum of fresh balances.
   */
  lemma BatchAndFallbackAgree(f: Candidates, ttl: int, s: State, users: seq<nat>, ok: seq<bool>,
                              start: int, end: int, k: nat)
    requires Coherent(f, s) && NoneAbove(s) && k <= |users|
    requires |ok| == |users| && forall i :: 0 <= i < |ok| ==> ok[i]
    ensures var failed := ReadEach(f, ttl, s, users[..k], start, end).1;
            var expected := Total(FreshEach(f, s, users, start, end));
            && Total(ReadEach(f, ttl, s, users, start, end).0) == expected
            && Total(Fallback(f, ttl, failed, users, ok, start, end).0) == expected
  {
    var failed := ReadEach(f, ttl, s, users[..k], start, end).1;
    ReadEachFresh(f, ttl, s, users, start, end);
    ReadEachFresh(f, ttl, s, users[..k], start, end);
    ReadEachFresh(f, ttl, failed, users, start, end);
    BatchIsFallback(f, ttl, failed, users, ok, start, end);
    assert FreshEach(f, failed, users, start, end) == FreshEach(f, s, users, start, end);
  }

  lemma {:induction false} MaxVersionBound(s: State, users: seq<nat>, user: nat)
    requires user in users
    ensures Version(s, user) <= MaxVersion(s, users)
  {
    if user != users[|users| - 1] {
      assert user in users[..|users| - 1];
      MaxVersionBound(s, users[..|users| - 1], user);
    }
  }

  lemma {:induction false} MaxVersionAfterBump(s: State, users: seq<nat>, user: nat, books: Books)
    ensures MaxVersion(Write(s, user, books), users) ==
            if user in users && Version(s, user) + 1 > MaxVersion(s, users) then Version(s, user) + 1
            else MaxVersion(s, users)
  {
    if users != [] {
      var before, last := users[..|users| - 1], users[|users| - 1];
      MaxVersionAfterBump(s, before, user, books);
      assert users == before + [last];
      if user in before { MaxVersionBound(s, before, user); }
    }
  }

  /**
   * Exactly when a member's bumped write moves the family budget's cache key: when that member holds the
   * highest version. SummaryAfterWrite below says what is then served.
   */
  lemma GroupKeyMoves(s: State, users: seq<nat>, user: nat, books: Books)
    requires user in users
    ensures MaxVersion(Write(s, user, books), users) != MaxVersion(s, users) <==>
            Version(s, user) == MaxVersion(s, users)
  {
    MaxVersionBound(s, users, user);
    MaxVersionAfterBump(s, users, user, books);
  }

  /* ----- what the cached summary serves ----- */

  /** A stored key's version is one that some member has reached. */
  predicate KeyReached(s: State, k: GroupKey) {
    k.version == 0 || exists u <- k.members :: k.version <= Version(s, u)
  }

  predicate GroupBelow(g: Family) {
    forall k <- g.cache :: KeyReached(g.state, k)
  }

  predicate GroupBalanced(g: Family) {
    forall k <- g.cache :: Balanced(g.cache[k].total)
  }

  /** A request whose budgets come in is like a fallback. */
  lemma BudgetsBalanced(f: Candidates, ttl: int, s: State, q: Request) returns (budgets: seq<Money>, s': State)
    requires WellFormed(q) && AllBalanced(s) && NoneAbove(s)
    ensures (budgets, s') == Budgets(f, ttl, s, q)
    ensures AllBalanced(s') && NoneAbove(s') && s'.versions == s.versions && s'.books == s.books && s'.now == s.now
    ensures Balanced(Total(budgets))
  {
    var ok := if q.batchOk then seq(|q.users|, i => true) else q.ok;
    var result := Fallback(f, ttl, s, q.users, ok, q.start, q.end);
    budgets, s' := result.0, result.1;
    FallbackBalanced(f, ttl, s, q.users, ok, q.start, q.end);
    if q.batchOk { BatchIsFallback(f, ttl, s, q.users, ok, q.start, q.end); }
    TotalBalanced(budgets);
  }

  lemma {:induction false} MaxVersionReached(s: State, users: seq<nat>)
    ensures MaxVersion(s, users) == 0 || exists u :: u in users && Version(s, u) == MaxVersion(s, users)
  {
    if users != [] {
      var before, last := users[..|users| - 1], users[|users| - 1];
      MaxVersionReached(s, before);
      if MaxVersion(s, before) != 0 {
        var u :| u in before && Version(s, u) == MaxVersion(s, before);
        assert u in users;
      }
      assert last in users;
    }
  }

  /** What every run of base steps and summaries keeps. */
  predicate FamilyInv(g: Family) {
    GroupBelow(g) && GroupBalanced(g) && NoneAbove(g.state) && AllBalanced(g.state)
  }

  lemma KeyStaysReached(s: State, s': State, k: GroupKey)
    requires KeyReached(s, k) && forall u <- k.members :: Version(s, u) <= Version(s', u)
    ensures KeyReached(s', k)
  {
    if k.version != 0 {
      var u :| u in k.members && k.version <= Version(s, u);
      assert k.version <= Version(s', u);
    }
  }

  lemma VersionGrows(f: Candidates, ttl: int, s: State, step: Step, u: nat)
    ensures Version(s, u) <= Version(Next(f, ttl, s, step), u)
  {
  }

  lemma BaseKeepsFamily(f: Candidates, ttl: int, g: Family, step: Step)
    requires FamilyInv(g)
    ensures FamilyInv(FamilyNext(f, ttl, g, Base(step)))
  {
    var g' := FamilyNext(f, ttl, g, Base(step));
    NextKeepsNoneAbove(f, ttl, g.state, step);
    forall k <- g'.cache ensures KeyReached(g'.state, k) {
      forall u <- k.members ensures Version(g.state, u) <= Version(g'.state, u) {
        VersionGrows(f, ttl, g.state, step, u);
      }
      KeyStaysReached(g.state, g'.state, k);
    }
  }

  /** What a request that misses leaves. */
  function Missed(g: Family, k: GroupKey, s': State, total: Money, ttl: int): Family {
    Family(s', if ttl <= 0 then g.cache else g.cache[k := GroupEntry(total, s'.now + ttl)])
  }

  lemma MissIs(f: Candidates, ttl: int, g: Family, q: Request, refresh: bool)
    requires WellFormed(q) && !GroupHits(g, q, refresh)
    ensures var (budgets, s') := Budgets(f, ttl, g.state, q);
            && GroupRead(f, ttl, g, q, refresh) ==
               Missed(g, KeyOf(g.state, q.group, q.users, q.start, q.end), s', Total(budgets), ttl)
            && GroupResult(f, ttl, g, q, refresh) == Total(budgets)
  {
  }

  lemma KeyIsReached(s: State, q: Request)
    ensures KeyReached(s, KeyOf(s, q.group, q.users, q.start, q.end))
  {
    MaxVersionReached(s, q.users);
  }

  lemma MissYields(f: Candidates, ttl: int, g: Family, q: Request, refresh: bool)
    returns (k: GroupKey, s': State, total: Money)
    requires WellFormed(q) && FamilyInv(g) && !GroupHits(g, q, refresh)
    ensures GroupRead(f, ttl, g, q, refresh) == Missed(g, k, s', total, ttl)
    ensures GroupResult(f, ttl, g, q, refresh) == total
    ensures KeyReached(g.state, k) && Balanced(total)
    ensures NoneAbove(s') && AllBalanced(s') && s'.versions == g.state.versions
  {
    var budgets;
    MissIs(f, ttl, g, q, refresh);
    budgets, s' := BudgetsBalanced(f, ttl, g.state, q);
    KeyIsReached(g.state, q);
    k, total := KeyOf(g.state, q.group, q.users, q.start, q.end), Total(budgets);
  }

  lemma EntryKeepsFamily(g: Family, s': State, k: GroupKey, total: Money, ttl: int)
    requires FamilyInv(g) && KeyReached(g.state, k) && Balanced(total)
    requires NoneAbove(s') && AllBalanced(s') && s'.versions == g.state.versions
    ensures FamilyInv(Family(s', g.cache))
    ensures ttl > 0 ==> FamilyInv(Family(s', g.cache[k := GroupEntry(total, s'.now + ttl)]))
  {
    forall j <- g.cache.Keys + {k} ensures KeyReached(s', j) {
      KeyStaysReached(g.state, s', j);
    }
  }

  lemma MissKeepsFamily(f: Candidates, ttl: int, g: Family, q: Request, refresh: bool)
    requires WellFormed(q) && FamilyInv(g) && !GroupHits(g, q, refresh)
    ensures FamilyInv(GroupRead(f, ttl, g, q, refresh))
    ensures Balanced(GroupResult(f, ttl, g, q, refresh))
  {
    var k, s', total := MissYields(f, ttl, g, q, refresh);
    EntryKeepsFamily(g, s', k, total, ttl);
    assert FamilyInv(Missed(g, k, s', total, ttl));
  }

  lemma SummaryKeepsFamily(f: Candidates, ttl: int, g: Family, q: Request, refresh: bool)
    requires WellFormed(q) && FamilyInv(g)
    ensures FamilyInv(GroupRead(f, ttl, g, q, refresh))
    ensures Balanced(GroupResult(f, ttl, g, q, refresh))
  {
    if !GroupHits(g, q, refresh) { MissKeepsFamily(f, ttl, g, q, refresh); }
  }

  /**
   * Conservation: over every run, careful or not, whichever requests fail, and from the cache or not, a
   * family summary's available amount is its actual balance plus expected income minus expected expense.
   */
  lemma {:induction false} SummaryConserves(f: Candidates, ttl: int, steps: seq<FamilyStep>, q: Request, refresh: bool)
    requires WellFormed(q)
    ensures FamilyInv(FamilyRun(f, ttl, steps))
    ensures Balanced(GroupResult(f, ttl, FamilyRun(f, ttl, steps), q, refresh))
  {
    if steps != [] {
      var before, last := steps[..|steps| - 1], steps[|steps| - 1];
      SummaryConserves(f, ttl, before, q, refresh);
      match last
      case Base(s) => BaseKeepsFamily(f, ttl, FamilyRun(f, ttl, before), s);
      case Summarise(r, again) =>
        if WellFormed(r) { SummaryKeepsFamily(f, ttl, FamilyRun(f, ttl, before), r, again); }
    }
    SummaryKeepsFamily(f, ttl, FamilyRun(f, ttl, steps), q, refresh);
  }

  /** The members whose single request succeeds, and the others. */
  function Answering(users: seq<nat>, ok: seq<bool>, wanted: bool): seq<nat>
    requires |ok| == |users|
  {
    if users == [] then []
    else
      var n := |users| - 1;
      Answering(users[..n], ok[..n], wanted) + if ok[n] == wanted then [users[n]] else []
  }

  lemma FreshAppend(f: Candidates, s: State, users: seq<nat>, user: nat, start: int, end: int)
    ensures FreshEach(f, s, users + [user], start, end) ==
            FreshEach(f, s, users, start, end) + [Fresh(f, BooksOf(s, user), start, end)]
  {
  }

  lemma {:induction false} FallbackFresh(f: Candidates, ttl: int, s: State, users: seq<nat>, ok: seq<bool>,
                                         start: int, end: int)
    requires Coherent(f, s) && NoneAbove(s) && |ok| == |users|
    ensures var (budgets, s') := Fallback(f, ttl, s, users, ok, start, end);
            && budgets == FreshEach(f, s, Answering(users, ok, true), start, end)
            && Coherent(f, s') && NoneAbove(s') && s'.books == s.books && s'.versions == s.versions && s'.now == s.now
  {
    if users != [] {
      var n := |users| - 1;
      FallbackFresh(f, ttl, s, users[..n], ok[..n], start, end);
      if ok[n] {
        ReadOneFresh(f, ttl, Fallback(f, ttl, s, users[..n], ok[..n], start, end).1, users[n], start, end);
        FreshAppend(f, s, Answering(users[..n], ok[..n], true), users[n], start, end);
      }
    }
  }

  function Plus(a: Money, b: Money): Money {
    Money(a.actual + b.actual, a.income + b.income, a.expense + b.expense, a.available + b.available)
  }

  lemma TotalAppend(ms: seq<Money>, m: Money)
    ensures Total(ms + [m]) == Plus(Total(ms), m)
  {
    assert (ms + [m])[..|ms|] == ms;
  }

  function FreshTotal(f: Candidates, s: State, users: seq<nat>, start: int, end: int): Money {
    Total(FreshEach(f, s, users, start, end))
  }

  /** The sum of the members' values. */
  function Sum(value: nat -> Money, users: seq<nat>): Money {
    if users == [] then ZERO else Plus(Sum(value, users[..|users| - 1]), value(users[|users| - 1]))
  }

  lemma SumAppend(value: nat -> Money, users: seq<nat>, user: nat)
    ensures Sum(value, users + [user]) == Plus(Sum(value, users), value(user))
  {
    assert (users + [user])[..|users|] == users;
  }

  lemma PlusMoves(a: Money, b: Money, m: Money)
    ensures Plus(Plus(a, b), m) == Plus(Plus(a, m), b) == Plus(a, Plus(b, m))
  {
  }

  lemma AnsweringStep(users: seq<nat>, ok: seq<bool>)
    requires |ok| == |users| > 0
    ensures var n := |users| - 1;
            var yes, no := Answering(users[..n], ok[..n], true), Answering(users[..n], ok[..n], false);
            && Answering(users, ok, true) == (if ok[n] then yes + [users[n]] else yes)
            && Answering(users, ok, false) == (if ok[n] then no else no + [users[n]])
  {
  }

  lemma {:induction false} SumSplits(value: nat -> Money, users: seq<nat>, ok: seq<bool>)
    requires |ok| == |users|
    ensures Sum(value, users) == Plus(Sum(value, Answering(users, ok, true)), Sum(value, Answering(users, ok, false)))
  {
    if users != [] {
      var n := |users| - 1;
      var yes, no := Answering(users[..n], ok[..n], true), Answering(users[..n], ok[..n], false);
      SumSplits(value, users[..n], ok[..n]);
      AnsweringStep(users, ok);
      if ok[n] { SumAppend(value, yes, users[n]); } else { SumAppend(value, no, users[n]); }
      PlusMoves(Sum(value, yes), Sum(value, no), value(users[n]));
    }
  }

  lemma {:induction false} FreshIsSum(f: Candidates, s: State, users: seq<nat>, start: int, end: int,
                                      value: nat -> Money)
    requires forall u: nat :: value(u) == Fresh(f, BooksOf(s, u), start, end)
    ensures FreshTotal(f, s, users, start, end) == Sum(value, users)
  {
    if users != [] {
      var n := |users| - 1;
      FreshIsSum(f, s, users[..n], start, end, value);
      assert users == users[..n] + [users[n]];
      FreshAppend(f, s, users[..n], users[n], start, end);
      TotalAppend(FreshEach(f, s, users[..n], start, end), Fresh(f, BooksOf(s, users[n]), start, end));
    }
  }

  /** The fresh total is that of the members who answered plus that of those who did not. */
  lemma TotalSplits(f: Candidates, s: State, users: seq<nat>, ok: seq<bool>, start: int, end: int)
    requires |ok| == |users|
    ensures FreshTotal(f, s, users, start, end) ==
            Plus(FreshTotal(f, s, Answering(users, ok, true), start, end),
                 FreshTotal(f, s, Answering(users, ok, false), start, end))
  {
    var value := (u: nat) => Fresh(f, BooksOf(s, u), start, end);
    SumSplits(value, users, ok);
    FreshIsSum(f, s, users, start, end, value);
    FreshIsSum(f, s, Answering(users, ok, true), start, end, value);
    FreshIsSum(f, s, Answering(users, ok, false), start, end, value);
  }

  function Due(f: Candidates, s: State, q: Request): Money {
    FreshTotal(f, s, q.users, q.start, q.end)
  }

  const ZERO := Money(0.0, 0.0, 0.0, 0.0)

  /** What a refreshing request stores and leaves, in full or in part. */
  lemma StoredSummary(f: Candidates, ttl: int, g: Family, q: Request)
    requires WellFormed(q) && Coherent(f, g.state) && NoneAbove(g.state) && ttl > 0
    ensures var g' := GroupRead(f, ttl, g, q, true);
            var k := KeyOf(g.state, q.group, q.users, q.start, q.end);
            && g'.state.books == g.state.books && g'.state.versions == g.state.versions && g'.state.now == g.state.now
            && Coherent(f, g'.state) && NoneAbove(g'.state)
            && k in g'.cache && g'.cache[k].expiry == g.state.now + ttl
            && g'.cache[k].total == (if q.batchOk then Due(f, g.state, q)
                                     else FreshTotal(f, g.state, Answering(q.users, q.ok, true), q.start, q.end))
  {
    if q.batchOk {
      var ok := seq(|q.users|, i => true);
      BatchIsFallback(f, ttl, g.state, q.users, ok, q.start, q.end);
      FallbackFresh(f, ttl, g.state, q.users, ok, q.start, q.end);
      ReadEachFresh(f, ttl, g.state, q.users, q.start, q.end);
    } else {
      FallbackFresh(f, ttl, g.state, q.users, q.ok, q.start, q.end);
    }
  }

  lemma {:induction false} MaxVersionSame(s: State, s': State, users: seq<nat>)
    requires s.versions == s'.versions
    ensures MaxVersion(s, users) == MaxVersion(s', users)
  {
    if users != [] { MaxVersionSame(s, s', users[..|users| - 1]); }
  }

  /** Within the TTL, and while no version moves, a stored summary is what a request is served. */
  lemma StoredIsServed(f: Candidates, ttl: int, g: Family, q: Request, s': State, later: Request)
    requires WellFormed(q) && Coherent(f, g.state) && NoneAbove(g.state) && ttl > 0
    requires WellFormed(later) && later.group == q.group && later.users == q.users
    requires later.start == q.start && later.end == q.end
    requires s'.versions == g.state.versions && s'.now < g.state.now + ttl
    ensures var k, g1 := KeyOf(g.state, q.group, q.users, q.start, q.end), GroupRead(f, ttl, g, q, true);
            k in g1.cache && GroupResult(f, ttl, Family(s', g1.cache), later, false) == g1.cache[k].total
  {
    StoredSummary(f, ttl, g, q);
    MaxVersionSame(g.state, s', q.users);
  }

  lemma SameBooks(f: Candidates, s: State, s': State, q: Request)
    requires s.books == s'.books
    ensures Due(f, s, q) == Due(f, s', q)
  {
    assert FreshEach(f, s, q.users, q.start, q.end) == FreshEach(f, s', q.users, q.start, q.end);
  }

  lemma PlusZero(a: Money, b: Money)
    ensures a == Plus(a, b) <==> b == ZERO
  {
  }

  /**
   * A partial total stays: after a fallback in which some members did not answer, every request within the
   * TTL is served the total of those who did, although all would answer now; and that is the family's
   * total exactly when the others' balances add up to nothing.
   */
  lemma PartialTotalStays(f: Candidates, ttl: int, g: Family, q: Request, d: nat, later: Request)
    requires WellFormed(q) && Coherent(f, g.state) && NoneAbove(g.state) && !q.batchOk && d < ttl
    requires WellFormed(later) && later.group == q.group && later.users == q.users
    requires later.start == q.start && later.end == q.end
    ensures var g' := FamilyNext(f, ttl, GroupRead(f, ttl, g, q, true), Base(Tick(d)));
            var served := GroupResult(f, ttl, g', later, false);
            && served == FreshTotal(f, g.state, Answering(q.users, q.ok, true), q.start, q.end)
            && (served == Due(f, g'.state, later) <==>
                FreshTotal(f, g.state, Answering(q.users, q.ok, false), q.start, q.end) == ZERO)
  {
    var g1 := GroupRead(f, ttl, g, q, true);
    var s' := Next(f, ttl, g1.state, Tick(d));
    StoredSummary(f, ttl, g, q);
    StoredIsServed(f, ttl, g, q, s', later);
    TotalSplits(f, g.state, q.users, q.ok, q.start, q.end);
    SameBooks(f, g.state, s', q);
    PlusZero(FreshTotal(f, g.state, Answering(q.users, q.ok, true), q.start, q.end),
             FreshTotal(f, g.state, Answering(q.users, q.ok, false), q.start, q.end));
  }

  /** No entry waits under the key that a bump by the member with the highest version leads to. */
  lemma NewKeyIsFree(g: Family, q: Request, user: nat, books: Books)
    requires GroupBelow(g) && user in q.users && Version(g.state, user) == MaxVersion(g.state, q.users)
    ensures KeyOf(Write(g.state, user, books), q.group, q.users, q.start, q.end) !in g.cache
  {
    var k := KeyOf(Write(g.state, user, books), q.group, q.users, q.start, q.end);
    MaxVersionAfterBump(g.state, q.users, user, books);
    forall u | u in q.users ensures Version(g.state, u) < k.version { MaxVersionBound(g.state, q.users, u); }
  }

  /**
   * Exactly when the cached summary is right after a member's bumped write: when that member held the
   * highest version, so that the key moves and the summary is made anew, or the write left the family's
   * total as it was. Otherwise the old summary is served until it expires.
   */
  lemma SummaryAfterWrite(f: Candidates, ttl: int, g: Family, q: Request, user: nat, books: Books)
    requires FamilyInv(g) && Coherent(f, g.state) && WellFormed(q) && q.batchOk && ttl > 0 && user in q.users
    ensures var g' := FamilyNext(f, ttl, GroupRead(f, ttl, g, q, true), Base(Committed(user, books)));
            GroupResult(f, ttl, g', q, false) == Due(f, g'.state, q) <==>
            Version(g.state, user) == MaxVersion(g.state, q.users) || Due(f, g'.state, q) == Due(f, g.state, q)
  {
    var g1 := GroupRead(f, ttl, g, q, true);
    var g' := FamilyNext(f, ttl, g1, Base(Committed(user, books)));
    StoredSummary(f, ttl, g, q);
    SummaryKeepsFamily(f, ttl, g, q, true);
    MaxVersionSame(g.state, g1.state, q.users);
    GroupKeyMoves(g1.state, q.users, user, books);
    MaxVersionAfterBump(g1.state, q.users, user, books);
    if Version(g.state, user) == MaxVersion(g.state, q.users) {
      NewKeyIsFree(g1, q, user, books);
      BumpedWriteCoherence(f, g1.state, user, books);
      NextKeepsNoneAbove(f, ttl, g1.state, Committed(user, books));
      ReadEachFresh(f, ttl, g'.state, q.users, q.start, q.end);
    }
  }

  /* ----- where a cached summary comes from ----- */

  /** The request asks for the summary that the key stands for, whatever the version. */
  predicate AsksFor(q: Request, k: GroupKey) {
    q.group == k.group && q.start == k.start && q.end == k.end && multiset(q.users) == k.members
  }

  /** The i-th step asked for that summary and was answered with the total. */
  predicate AnsweredAt(f: Candidates, ttl: int, steps: seq<FamilyStep>, i: nat, k: GroupKey, total: Money) {
    && i < |steps| && steps[i].Summarise? && WellFormed(steps[i].request) && AsksFor(steps[i].request, k)
    && GroupResult(f, ttl, FamilyRun(f, ttl, steps[..i]), steps[i].request, steps[i].refresh) == total
  }

  ghost predicate Answered(f: Candidates, ttl: int, steps: seq<FamilyStep>, k: GroupKey, total: Money) {
    exists i: nat :: AnsweredAt(f, ttl, steps, i, k, total)
  }

  lemma AnsweredStays(f: Candidates, ttl: int, steps: seq<FamilyStep>, last: FamilyStep, k: GroupKey, total: Money)
    requires Answered(f, ttl, steps, k, total)
    ensures Answered(f, ttl, steps + [last], k, total)
  {
    var i: nat :| AnsweredAt(f, ttl, steps, i, k, total);
    assert (steps + [last])[..i] == steps[..i] && (steps + [last])[i] == steps[i];
    assert AnsweredAt(f, ttl, steps + [last], i, k, total);
  }

  lemma AnsweredNow(f: Candidates, ttl: int, steps: seq<FamilyStep>, last: FamilyStep, k: GroupKey)
    requires last.Summarise? && WellFormed(last.request) && AsksFor(last.request, k)
    ensures Answered(f, ttl, steps + [last], k,
                     GroupResult(f, ttl, FamilyRun(f, ttl, steps), last.request, last.refresh))
  {
    assert (steps + [last])[..|steps|] == steps && (steps + [last])[|steps|] == last;
    assert AnsweredAt(f, ttl, steps + [last], |steps|, k,
                      GroupResult(f, ttl, FamilyRun(f, ttl, steps), last.request, last.refresh));
  }

  /** A step leaves an entry as it is, or stores the answer to its own request. */
  lemma NextEntry(f: Candidates, ttl: int, g: Family, step: FamilyStep, k: GroupKey)
    requires k in FamilyNext(f, ttl, g, step).cache
    ensures var total := FamilyNext(f, ttl, g, step).cache[k].total;
            || (k in g.cache && g.cache[k].total == total)
            || (step.Summarise? && WellFormed(step.request) && AsksFor(step.request, k)
                && GroupResult(f, ttl, g, step.request, step.refresh) == total)
  {
  }

  /**
   * No summary is served in place of another: over every run each cached total was once the answer to a
   * request for the same group, period and members.
   */
  lemma {:induction false} SummariesWereAsked(f: Candidates, ttl: int, steps: seq<FamilyStep>, k: GroupKey)
    requires k in FamilyRun(f, ttl, steps).cache
    ensures Answered(f, ttl, steps, k, FamilyRun(f, ttl, steps).cache[k].total)
  {
    if steps != [] {
      var before, last := steps[..|steps| - 1], steps[|steps| - 1];
      var g := FamilyRun(f, ttl, before);
      assert steps == before + [last];
      NextEntry(f, ttl, g, last, k);
      if k in g.cache && g.cache[k].total == FamilyRun(f, ttl, steps).cache[k].total {
        SummariesWereAsked(f, ttl, before, k);
        AnsweredStays(f, ttl, before, last, k, g.cache[k].total);
      } else {
        AnsweredNow(f, ttl, before, last, k);
      }
    }
  }

  /** A refresh adds up what the members read, whatever is cached, and caches the total for exactly the TTL. */
  lemma SummaryLasts(f: Candidates, ttl: int, g: Family, q: Request, d: nat)
    requires WellFormed(q) && ttl > 0
    ensures var read := FamilyNext(f, ttl, g, Summarise(q, true));
            var later, k := FamilyNext(f, ttl, read, Base(Tick(d))), KeyOf(g.state, q.group, q.users, q.start, q.end);
            && (GroupLive(later, k) <==> d < ttl)
            && read.cache[k].total == Total(Budgets(f, ttl, g.state, q).0) == GroupResult(f, ttl, g, q, true)
  {
  }
}
