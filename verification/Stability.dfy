/**
 * The income stability score: income is totalled by month, and the score falls from 100 to 0 as the
 * coefficient of variation of the monthly totals rises from 0 to one half. Amounts are exact reals and
 * the square root is a parameter.
 */
module Stability {
  import opened Wrappers
  import opened Reals

  /** `month` is the transaction's "YYYY-MM". */
  datatype Transaction = Transaction(income: bool, month: string, amount: real)

  /** One entry of the `monthly` dictionary, which keeps the order of first insertion. */
  datatype MonthTotal = MonthTotal(month: string, total: real)

  function Abs(x: real): real {
    if x < 0.0 then -x else x
  }

  function Find(monthly: seq<MonthTotal>, month: string): (i: Option<nat>)
    ensures i.Some? ==> i.value < |monthly| && monthly[i.value].month == month
    ensures i.None? ==> forall k :: 0 <= k < |monthly| ==> monthly[k].month != month
  {
    if monthly == [] then None
    else if monthly[|monthly| - 1].month == month then Some(|monthly| - 1)
    else Find(monthly[..|monthly| - 1], month)
  }

  function Add(monthly: seq<MonthTotal>, month: string, amount: real): seq<MonthTotal> {
    match Find(monthly, month)
    case Some(i) => monthly[i := MonthTotal(month, monthly[i].total + amount)]
    case None => monthly + [MonthTotal(month, amount)]
  }

  function Entered(m: seq<MonthTotal>, t: Transaction): seq<MonthTotal> {
    if t.income then Add(m, t.month, Abs(t.amount)) else m
  }

  function Monthly(ts: seq<Transaction>): seq<MonthTotal> {
    if ts == [] then []
    else Entered(Monthly(ts[..|ts| - 1]), ts[|ts| - 1])
  }

  function Positive(monthly: seq<MonthTotal>): seq<real> {
    if monthly == [] then []
    else
      var last := monthly[|monthly| - 1].total;
      Positive(monthly[..|monthly| - 1]) + if last > 0.0 then [last] else []
  }

  function Square(x: real): real {
    x * x
  }

  function SumSquares(vs: seq<real>): real {
    if vs == [] then 0.0 else SumSquares(vs[..|vs| - 1]) + Square(vs[|vs| - 1])
  }

  function Deviations(vs: seq<real>, average: real): real {
    if vs == [] then 0.0
    else Deviations(vs[..|vs| - 1], average) + Square(vs[|vs| - 1] - average)
  }

  function Average(vs: seq<real>): real
    requires vs != []
  {
    Sum(vs) / (|vs| as real)
  }

  function Variance(vs: seq<real>): real
    requires vs != []
  {
    Deviations(vs, Average(vs)) / (|vs| as real)
  }

  function ScoreOf(root: real -> real, vs: seq<real>): real
    requires vs != []
  {
    var average := Average(vs);
    var coefficient := if average > 0.0 then root(Variance(vs)) / average else 1.0;
    Clamp((0.5 - coefficient) / 0.5 * 100.0)
  }

  /** None: fewer than two months with income. */
  function Score(root: real -> real, ts: seq<Transaction>): Option<real> {
    var vs := Positive(Monthly(ts));
    if |vs| < 2 then None else Some(ScoreOf(root, vs))
  }

  method AddToMonth(monthly: seq<MonthTotal>, month: string, amount: real) returns (monthly': seq<MonthTotal>)
    ensures monthly' == Add(monthly, month, amount)
  {
    var i := Find(monthly, month);
    if i.Some? {
      monthly' := monthly[i.value := MonthTotal(month, monthly[i.value].total + amount)];
    } else {
      monthly' := monthly + [MonthTotal(month, amount)];
    }
  }

  /** `_income_stability`, with the gap it reports. */
  method IncomeStability(root: real -> real, ts: seq<Transaction>, gaps: seq<string>)
    returns (score: Option<real>, gaps': seq<string>)
    ensures score == Score(root, ts)
    ensures gaps' == gaps + if score.None? then ["income_stability_score"] else []
  {
    gaps' := gaps;
    var monthly: seq<MonthTotal> := [];
    for i := 0 to |ts|
      invariant monthly == Monthly(ts[..i])
    {
      assert ts[..i + 1][..i] == ts[..i];
      if ts[i].income { monthly := AddToMonth(monthly, ts[i].month, Abs(ts[i].amount)); }
    }
    assert ts[..|ts|] == ts;
    var vs: seq<real> := [];
    for i := 0 to |monthly|
      invariant vs == Positive(monthly[..i])
    {
      assert monthly[..i + 1][..i] == monthly[..i];
      if monthly[i].total > 0.0 { vs := vs + [monthly[i].total]; }
    }
    assert monthly[..|monthly|] == monthly;
    if |vs| < 2 {
      return None, gaps + ["income_stability_score"];
    }
    var sum := SumOf(vs);
    var average := sum / (|vs| as real);
    var squares := DeviationsOf(vs, average);
    var variance := squares / (|vs| as real);
    var coefficient := if average > 0.0 then root(variance) / average else 1.0;
    score := Some(Clamp((0.5 - coefficient) / 0.5 * 100.0));
  }

  method SumOf(vs: seq<real>) returns (sum: real)
    ensures sum == Sum(vs)
  {
    sum := 0.0;
    for i := 0 to |vs|
      invariant sum == Sum(vs[..i])
    {
      assert vs[..i + 1][..i] == vs[..i];
      sum := sum + vs[i];
    }
    assert vs[..|vs|] == vs;
  }

  method DeviationsOf(vs: seq<real>, average: real) returns (squares: real)
    ensures squares == Deviations(vs, average)
  {
    squares := 0.0;
    for i := 0 to |vs|
      invariant squares == Deviations(vs[..i], average)
    {
      assert vs[..i + 1][..i] == vs[..i];
      squares := squares + Square(vs[i] - average);
    }
    assert vs[..|vs|] == vs;
  }

  /* ----- monthly totals ----- */

  function IncomeOf(ts: seq<Transaction>, month: string): real {
    if ts == [] then 0.0
    else
      var last := ts[|ts| - 1];
      IncomeOf(ts[..|ts| - 1], month) + if last.income && last.month == month then Abs(last.amount) else 0.0
  }

  predicate OneEach(monthly: seq<MonthTotal>) {
    forall i, j :: 0 <= i < j < |monthly| ==> monthly[i].month != monthly[j].month
  }

  function TotalOf(monthly: seq<MonthTotal>, month: string): real {
    match Find(monthly, month)
    case Some(i) => monthly[i].total
    case None => 0.0
  }

  lemma {:induction false} FindUnique(monthly: seq<MonthTotal>, i: nat)
    requires OneEach(monthly) && i < |monthly|
    ensures Find(monthly, monthly[i].month) == Some(i)
  {
  }

  lemma AddTotals(monthly: seq<MonthTotal>, month: string, amount: real, other: string)
    requires OneEach(monthly)
    ensures OneEach(Add(monthly, month, amount))
    ensures TotalOf(Add(monthly, month, amount), other)
            == TotalOf(monthly, other) + if other == month then amount else 0.0
  {
    var after, i := Add(monthly, month, amount), Find(monthly, month);
    assert OneEach(after);
    if i.Some? {
      var j := Find(monthly, other);
      if j.Some? { FindUnique(after, j.value); }
    } else {
      assert after[..|monthly|] == monthly;
    }
  }

  /** Each month has one total, which is the income of that month; a month without one had no income. */
  lemma {:induction false} TotalsAreIncome(ts: seq<Transaction>, month: string)
    ensures OneEach(Monthly(ts)) && TotalOf(Monthly(ts), month) == IncomeOf(ts, month)
  {
    if ts != [] {
      var last := ts[|ts| - 1];
      TotalsAreIncome(ts[..|ts| - 1], month);
      AddTotals(Monthly(ts[..|ts| - 1]), last.month, Abs(last.amount), month);
    }
  }

  /* ----- the score ----- */

  ghost predicate IsSquareRoot(root: real -> real) {
    forall x :: x >= 0.0 ==> root(x) >= 0.0 && Square(root(x)) == x
  }

  predicate AllPositive(vs: seq<real>) {
    forall i :: 0 <= i < |vs| ==> vs[i] > 0.0
  }

  predicate AllEqual(vs: seq<real>) {
    forall i :: 0 <= i < |vs| ==> vs[i] == vs[0]
  }

  lemma {:induction false} PositiveArePositive(monthly: seq<MonthTotal>)
    ensures AllPositive(Positive(monthly))
  {
    if monthly != [] { PositiveArePositive(monthly[..|monthly| - 1]); }
  }

  lemma {:induction false} SumPositive(vs: seq<real>)
    requires AllPositive(vs)
    ensures Sum(vs) >= 0.0 && (vs != [] ==> Sum(vs) > 0.0)
  {
    if vs != [] { SumPositive(vs[..|vs| - 1]); }
  }

  /** The sum of squared deviations from a, by the moments of n values. */
  function Expansion(q: real, s: real, n: real, a: real): real {
    q - 2.0 * a * s + n * a * a
  }

  lemma ExpandStep(d: real, q: real, s: real, n: real, v: real, a: real, d': real, q': real, s': real)
    requires d == Expansion(q, s, n - 1.0, a)
    requires d' == d + Square(v - a) && q' == q + Square(v) && s' == s + v
    ensures d' == Expansion(q', s', n, a)
  {
    assert Square(v - a) == v * v - 2.0 * a * v + a * a;
    assert 2.0 * a * (s + v) == 2.0 * a * s + 2.0 * a * v;
    assert n * a * a == (n - 1.0) * a * a + a * a;
  }

  lemma {:induction false} DeviationsExpand(vs: seq<real>, a: real, n: real)
    requires n == |vs| as real
    ensures Deviations(vs, a) == Expansion(SumSquares(vs), Sum(vs), n, a)
  {
    if vs != [] {
      var before, v := vs[..|vs| - 1], vs[|vs| - 1];
      DeviationsExpand(before, a, n - 1.0);
      ExpandStep(Deviations(before, a), SumSquares(before), Sum(before), n, v, a,
                 Deviations(vs, a), SumSquares(vs), Sum(vs));
    }
  }

  lemma SquarePositive(d: real)
    requires d > 0.0
    ensures Square(d) > 0.0
  {
    calc {
      Square(d);
    ==
      d * d;
    >
      0.0;
    }
  }

  lemma NegatedSquare(d: real)
    ensures Square(-d) == Square(d)
  {
  }

  lemma SquareSign(d: real)
    ensures Square(d) >= 0.0 && (Square(d) == 0.0 <==> d == 0.0)
  {
    if d > 0.0 {
      SquarePositive(d);
    } else if d < 0.0 {
      SquarePositive(-d);
      NegatedSquare(d);
    }
  }

  lemma {:induction false} DeviationsZero(vs: seq<real>, a: real)
    ensures Deviations(vs, a) >= 0.0
    ensures Deviations(vs, a) == 0.0 <==> forall i :: 0 <= i < |vs| ==> vs[i] == a
  {
    if vs != [] {
      var before, d := vs[..|vs| - 1], vs[|vs| - 1] - a;
      DeviationsZero(before, a);
      SquareSign(d);
      assert forall i :: 0 <= i < |before| ==> before[i] == vs[i];
    }
  }

  lemma AddOne(k: real, n: real, a: real)
    requires n == k + 1.0
    ensures n * a == k * a + a
  {
  }

  lemma {:induction false} SumOfEqual(vs: seq<real>, a: real)
    requires forall i :: 0 <= i < |vs| ==> vs[i] == a
    ensures Sum(vs) == |vs| as real * a
  {
    if vs != [] {
      var before := vs[..|vs| - 1];
      SumOfEqual(before, a);
      assert |vs| as real == |before| as real + 1.0;
      AddOne(|before| as real, |vs| as real, a);
    }
  }

  lemma VarianceArithmetic(n: real, s: real, q: real, a: real, d: real, v: real)
    requires n > 0.0 && a == s / n && v == d / n && d == Expansion(q, s, n, a)
    ensures n * n * v == n * q - s * s
  {
    assert n * a == s && n * v == d;
    assert n * a * a == a * s;
    assert d == q - a * s;
    assert n * n * v == n * d;
    assert n * d == n * q - (n * a) * s;
  }

  lemma QuotientSign(x: real, n: real)
    requires x >= 0.0 && n > 0.0
    ensures x / n >= 0.0 && (x / n == 0.0 <==> x == 0.0)
  {
  }

  lemma VarianceNonNegative(vs: seq<real>)
    requires vs != []
    ensures Variance(vs) >= 0.0
    ensures Variance(vs) == 0.0 <==> forall i :: 0 <= i < |vs| ==> vs[i] == Average(vs)
  {
    DeviationsZero(vs, Average(vs));
    QuotientSign(Deviations(vs, Average(vs)), |vs| as real);
  }

  /** n squared times the variance. */
  lemma VarianceExpand(vs: seq<real>, n: real, s: real, q: real, a: real, d: real, v: real)
    requires vs != [] && n == |vs| as real && s == Sum(vs) && q == SumSquares(vs)
    requires a == s / n && d == Deviations(vs, a) && v == d / n
    ensures n * n * v == n * q - s * s
  {
    DeviationsExpand(vs, a, n);
    VarianceArithmetic(n, s, q, a, d, v);
  }

  lemma MulLess(r: real, h: real)
    requires 0.0 <= r < h
    ensures r * r < h * h
  {
    MulPositive(h - r, h + r);
    assert (h - r) * (h + r) == h * h - r * r;
  }

  lemma RootCompare(r: real, h: real)
    requires r >= 0.0 && h >= 0.0
    ensures r >= h <==> Square(r) >= Square(h)
  {
    if r > h { MulLess(h, r); } else if r < h { MulLess(r, h); }
  }

  /** The clamp acts below one half. */
  lemma ScoreByCoefficient(root: real -> real, vs: seq<real>)
    requires IsSquareRoot(root) && vs != [] && AllPositive(vs)
    ensures Average(vs) > 0.0 && root(Variance(vs)) >= 0.0
    ensures var c := root(Variance(vs)) / Average(vs);
            && c >= 0.0
            && ScoreOf(root, vs) == if c >= 0.5 then 0.0 else 100.0 - 200.0 * c
  {
    SumPositive(vs);
    VarianceNonNegative(vs);
  }

  /** 100 exactly when all months are equal. */
  lemma FullScoreIff(root: real -> real, vs: seq<real>)
    requires IsSquareRoot(root) && vs != [] && AllPositive(vs)
    ensures ScoreOf(root, vs) == 100.0 <==> AllEqual(vs)
  {
    var a, v := Average(vs), Variance(vs);
    ScoreByCoefficient(root, vs);
    VarianceNonNegative(vs);
    QuotientSign(root(v), a);
    SquareSign(root(v));
    if AllEqual(vs) {
      SumOfEqual(vs, vs[0]);
      assert a == vs[0];
    }
  }

  /** For n values with sum s and sum of squares q: their spread is half of their average or more. */
  predicate Spread(n: real, s: real, q: real) {
    4.0 * (n * q - s * s) >= s * s
  }

  predicate HalfOrMore(vs: seq<real>) {
    Spread(|vs| as real, Sum(vs), SumSquares(vs))
  }

  lemma HalfQuotient(r: real, a: real)
    requires a > 0.0
    ensures r / a >= 0.5 <==> r >= 0.5 * a
  {
    var c := r / a;
    assert r == a * c;
    ScaleCompare(a, c, 0.5);
  }

  lemma HalfSquare(a: real)
    ensures (0.5 * a) * (0.5 * a) == a * a / 4.0
  {
  }

  lemma QuotientSquare(n: real, s: real, a: real)
    requires n > 0.0 && a == s / n
    ensures s * s == n * n * (a * a)
  {
    assert s == n * a;
  }

  lemma Regroup(k: real, v: real)
    ensures k * (4.0 * v) == 4.0 * (k * v)
  {
  }

  lemma HalfArithmetic(n: real, s: real, q: real, a: real, v: real, r: real)
    requires n > 0.0 && a > 0.0 && a == s / n && n * n * v == n * q - s * s && r >= 0.0 && Square(r) == v
    ensures r / a >= 0.5 <==> Spread(n, s, q)
  {
    HalfQuotient(r, a);
    RootCompare(r, 0.5 * a);
    HalfSquare(a);
    QuotientSquare(n, s, a);
    MulPositive(n, n);
    ScaleCompare(n * n, 4.0 * v, a * a);
    Regroup(n * n, v);
  }

  lemma ZeroByMoments(root: real -> real, vs: seq<real>, n: real, s: real, q: real, a: real, d: real, v: real)
    requires IsSquareRoot(root) && vs != [] && v >= 0.0 && a > 0.0
    requires n == |vs| as real && s == Sum(vs) && q == SumSquares(vs)
    requires a == s / n && d == Deviations(vs, a) && v == d / n
    ensures root(v) / a >= 0.5 <==> Spread(n, s, q)
  {
    VarianceExpand(vs, n, s, q, a, d, v);
    HalfArithmetic(n, s, q, a, v, root(v));
  }

  /** 0 exactly when four times n times the sum of squares less the squared sum reaches the squared sum. */
  lemma ZeroScoreIff(root: real -> real, vs: seq<real>)
    requires IsSquareRoot(root) && vs != [] && AllPositive(vs)
    ensures ScoreOf(root, vs) == 0.0 <==> HalfOrMore(vs)
  {
    ScoreByCoefficient(root, vs);
    assert Variance(vs) >= 0.0 by { VarianceNonNegative(vs); }
    ZeroByMoments(root, vs, |vs| as real, Sum(vs), SumSquares(vs), Average(vs),
                  Deviations(vs, Average(vs)), Variance(vs));
  }

  lemma SquareOfProduct(x: real, y: real)
    ensures Square(x * y) == Square(x) * Square(y)
  {
    assert (x * y) * (x * y) == (x * x) * (y * y);
  }

  lemma BetweenArithmetic(n: real, s: real, q: real, a: real, v: real, r: real, c: real)
    requires n > 0.0 && a > 0.0 && a == s / n && n * n * v == n * q - s * s && Square(r) == v && c == r / a
    ensures Square(200.0 * c) * Square(s) == 40000.0 * (n * q - s * s)
  {
    assert s == n * a && r == c * a;
    SquareOfProduct(200.0, c);
    SquareOfProduct(n, a);
    SquareOfProduct(c, a);
    assert Square(c) * (Square(n) * Square(a)) == Square(n) * (Square(c) * Square(a));
    assert Square(200.0) == 40000.0;
    assert Square(n) * v == n * q - s * s;
  }

  lemma BetweenByMoments(root: real -> real, vs: seq<real>, n: real, s: real, q: real, a: real, d: real, v: real)
    requires IsSquareRoot(root) && vs != [] && v >= 0.0 && a > 0.0
    requires n == |vs| as real && s == Sum(vs) && q == SumSquares(vs)
    requires a == s / n && d == Deviations(vs, a) && v == d / n
    ensures Square(200.0 * (root(v) / a)) * Square(s) == 40000.0 * (n * q - s * s)
  {
    VarianceExpand(vs, n, s, q, a, d, v);
    BetweenArithmetic(n, s, q, a, v, root(v), root(v) / a);
  }

  /**
   * The score above 0, without the root: what is missing to 100 is 200 times the coefficient of variation,
   * so its square times the squared sum is 40000 times n times the sum of squares less the squared sum.
   */
  lemma ScoreBetween(root: real -> real, vs: seq<real>)
    requires IsSquareRoot(root) && vs != [] && AllPositive(vs) && ScoreOf(root, vs) > 0.0
    ensures ScoreOf(root, vs) <= 100.0
    ensures Square(100.0 - ScoreOf(root, vs)) * Square(Sum(vs)) ==
            40000.0 * (|vs| as real * SumSquares(vs) - Sum(vs) * Sum(vs))
  {
    ScoreByCoefficient(root, vs);
    assert Variance(vs) >= 0.0 by { VarianceNonNegative(vs); }
    BetweenByMoments(root, vs, |vs| as real, Sum(vs), SumSquares(vs), Average(vs),
                     Deviations(vs, Average(vs)), Variance(vs));
  }

  /**
   * The score of any transactions: there is one exactly when two months have income, it lies in [0, 100],
   * it is 100 exactly when those months are equal, and 0 exactly when they vary by half or more.
   */
  lemma ScoreCharacterised(root: real -> real, ts: seq<Transaction>)
    requires IsSquareRoot(root)
    ensures var vs, score := Positive(Monthly(ts)), Score(root, ts);
            && (score.Some? <==> |vs| >= 2)
            && (score.Some? ==> 0.0 <= score.value <= 100.0)
            && (score == Some(100.0) <==> |vs| >= 2 && AllEqual(vs))
            && (score == Some(0.0) <==> |vs| >= 2 && HalfOrMore(vs))
  {
    var vs := Positive(Monthly(ts));
    PositiveArePositive(Monthly(ts));
    if |vs| >= 2 {
      FullScoreIff(root, vs);
      ZeroScoreIff(root, vs);
    }
  }

  /* ----- scaling ----- */

  /** What scaling amounts by f, and squares by g, keeps. */
  ghost predicate Keeps(f: real -> real, g: real -> real, x: real, y: real) {
    && f(x + y) == f(x) + f(y)
    && g(x + y) == g(x) + g(y)
    && Abs(f(x)) == f(Abs(x))
    && (f(x) > 0.0 <==> x > 0.0)
    && Square(f(x) - f(y)) == g(Square(x - y))
    && (y > 0.0 ==> f(x) / y == f(x / y) && g(x) / y == g(x / y) && f(y) > 0.0 && f(x) / f(y) == x / y)
  }

  ghost predicate Scaling(f: real -> real, g: real -> real) {
    f(0.0) == 0.0 == g(0.0) && forall x, y :: Keeps(f, g, x, y)
  }

  lemma SumOfTimes(c: real, x: real, y: real)
    ensures c * (x + y) == c * x + c * y
  {
  }

  lemma AbsOfTimes(c: real, x: real)
    requires c > 0.0
    ensures Abs(c * x) == c * Abs(x) && (c * x > 0.0 <==> x > 0.0)
  {
    if x > 0.0 { MulPositive(c, x); } else if x < 0.0 { MulPositive(c, -x); }
  }

  lemma SquareOfTimes(c: real, x: real, y: real)
    ensures Square(c * x - c * y) == Square(c) * Square(x - y)
  {
    var d := x - y;
    assert c * x - c * y == c * d;
    assert Square(c * d) == Square(c) * Square(d);
  }

  lemma QuotientOfTimes(c: real, x: real, y: real)
    requires c > 0.0 && y > 0.0
    ensures (c * x) / y == c * (x / y) && c * y > 0.0 && (c * x) / (c * y) == x / y
  {
    var q := x / y;
    assert x == q * y;
    assert c * x == (c * q) * y == q * (c * y);
    MulPositive(c, y);
  }

  lemma TimesKeepsSigns(c: real, k: real, f: real -> real, g: real -> real, x: real, y: real)
    requires c > 0.0 && f == (z => c * z) && k == Square(c) && g == (z => k * z)
    ensures Abs(f(x)) == f(Abs(x)) && (f(x) > 0.0 <==> x > 0.0)
    ensures Square(f(x) - f(y)) == g(Square(x - y))
  {
    AbsOfTimes(c, x);
    SquareOfTimes(c, x, y);
  }

  lemma TimesKeepsQuotients(c: real, f: real -> real, x: real, y: real)
    requires c > 0.0 && f == (z => c * z)
    ensures f(x + y) == f(x) + f(y)
    ensures y > 0.0 ==> f(x) / y == f(x / y) && f(y) > 0.0 && f(x) / f(y) == x / y
  {
    SumOfTimes(c, x, y);
    if y > 0.0 { QuotientOfTimes(c, x, y); }
  }

  lemma TimesIsScaling(c: real, k: real) returns (f: real -> real, g: real -> real)
    requires c > 0.0 && k == Square(c) && k > 0.0
    ensures Scaling(f, g) && f == (z => c * z)
  {
    f, g := z => c * z, z => k * z;
    forall x, y ensures Keeps(f, g, x, y) {
      TimesKeepsSigns(c, k, f, g, x, y);
      TimesKeepsQuotients(c, f, x, y);
      TimesKeepsQuotients(k, g, x, y);
    }
  }

  predicate Scales(ts: seq<Transaction>, us: seq<Transaction>, f: real -> real) {
    |us| == |ts| && forall i :: 0 <= i < |ts| ==> us[i] == ts[i].(amount := f(ts[i].amount))
  }

  predicate TotalsScale(m: seq<MonthTotal>, m': seq<MonthTotal>, f: real -> real) {
    |m'| == |m| && forall i :: 0 <= i < |m| ==> m'[i] == MonthTotal(m[i].month, f(m[i].total))
  }

  predicate ValuesScale(vs: seq<real>, ws: seq<real>, f: real -> real) {
    |ws| == |vs| && forall i :: 0 <= i < |vs| ==> ws[i] == f(vs[i])
  }

  lemma {:induction false} FindScaled(m: seq<MonthTotal>, m': seq<MonthTotal>, month: string, f: real -> real)
    requires TotalsScale(m, m', f)
    ensures Find(m', month) == Find(m, month)
  {
    if m != [] { FindScaled(m[..|m| - 1], m'[..|m| - 1], month, f); }
  }

  lemma EnteredScaled(m: seq<MonthTotal>, m': seq<MonthTotal>, t: Transaction, f: real -> real, g: real -> real)
    requires Scaling(f, g) && TotalsScale(m, m', f)
    ensures TotalsScale(Entered(m, t), Entered(m', t.(amount := f(t.amount))), f)
  {
    FindScaled(m, m', t.month, f);
    assert Keeps(f, g, t.amount, 0.0);
    var i := Find(m, t.month);
    if i.Some? { assert Keeps(f, g, m[i.value].total, Abs(t.amount)); }
  }

  lemma {:induction false} MonthlyScaled(ts: seq<Transaction>, us: seq<Transaction>, f: real -> real, g: real -> real)
    requires Scaling(f, g) && Scales(ts, us, f)
    ensures TotalsScale(Monthly(ts), Monthly(us), f)
  {
    if ts != [] {
      var k := |ts| - 1;
      MonthlyScaled(ts[..k], us[..k], f, g);
      EnteredScaled(Monthly(ts[..k]), Monthly(us[..k]), ts[k], f, g);
    }
  }

  lemma {:induction false} PositiveScaled(m: seq<MonthTotal>, m': seq<MonthTotal>, f: real -> real, g: real -> real)
    requires Scaling(f, g) && TotalsScale(m, m', f)
    ensures ValuesScale(Positive(m), Positive(m'), f)
  {
    if m != [] {
      PositiveScaled(m[..|m| - 1], m'[..|m| - 1], f, g);
      assert Keeps(f, g, m[|m| - 1].total, 0.0);
    }
  }

  lemma {:induction false} SumsScaled(vs: seq<real>, ws: seq<real>, a: real, f: real -> real, g: real -> real)
    requires Scaling(f, g) && ValuesScale(vs, ws, f)
    ensures Sum(ws) == f(Sum(vs)) && Deviations(ws, f(a)) == g(Deviations(vs, a))
  {
    if vs != [] {
      var k := |vs| - 1;
      SumsScaled(vs[..k], ws[..k], a, f, g);
      assert Keeps(f, g, Sum(vs[..k]), vs[k]);
      assert Keeps(f, g, vs[k], a);
      assert Keeps(f, g, Deviations(vs[..k], a), Square(vs[k] - a));
    }
  }

  lemma RootScaled(root: real -> real, v: real, f: real -> real, g: real -> real)
    requires IsSquareRoot(root) && v >= 0.0 && Scaling(f, g)
    ensures root(g(v)) == f(root(v))
  {
    var r := root(v);
    assert r >= 0.0 && Square(r) == v;
    assert Keeps(f, g, r, 0.0) && Keeps(f, g, v, 0.0);
    var x := f(r);
    assert r == 0.0 || r > 0.0;
    assert Square(x) == g(v);
    SquareSign(x);
    var q := root(g(v));
    assert q >= 0.0 && Square(q) == g(v);
    RootCompare(q, x);
    RootCompare(x, q);
  }

  lemma ScoreOfScaled(root: real -> real, vs: seq<real>, ws: seq<real>, f: real -> real, g: real -> real)
    requires IsSquareRoot(root) && vs != [] && AllPositive(vs) && Scaling(f, g) && ValuesScale(vs, ws, f)
    ensures ScoreOf(root, ws) == ScoreOf(root, vs)
  {
    var n, a, v := |vs| as real, Average(vs), Variance(vs);
    ScoreByCoefficient(root, vs);
    VarianceNonNegative(vs);
    SumsScaled(vs, ws, a, f, g);
    assert Keeps(f, g, Sum(vs), n);
    assert Average(ws) == f(a);
    assert Keeps(f, g, Deviations(vs, a), n);
    assert Variance(ws) == g(v);
    RootScaled(root, v, f, g);
    assert Keeps(f, g, root(v), a) && Keeps(f, g, a, a);
  }

  /** The score depends on proportions only: scaling every amount by a positive factor changes nothing. */
  lemma ScaleInvariant(root: real -> real, ts: seq<Transaction>, us: seq<Transaction>, c: real)
    requires IsSquareRoot(root) && c > 0.0
    requires |us| == |ts| && forall i :: 0 <= i < |ts| ==> us[i] == ts[i].(amount := c * ts[i].amount)
    ensures Score(root, us) == Score(root, ts)
  {
    SquarePositive(c);
    var f, g := TimesIsScaling(c, Square(c));
    var vs, ws := Positive(Monthly(ts)), Positive(Monthly(us));
    MonthlyScaled(ts, us, f, g);
    PositiveScaled(Monthly(ts), Monthly(us), f, g);
    PositiveArePositive(Monthly(ts));
    if |vs| >= 2 { ScoreOfScaled(root, vs, ws, f, g); }
  }
}
