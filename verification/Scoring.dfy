/**
 * The health score: a weighted mean of the components that are available, with the weights renormalised
 * over them, and the credit load index, which is built the same way. Numbers are exact reals.
 */
module Scoring {
  import opened Wrappers
  import opened Reals
  import Stability

  /** A component with its nominal weight; None is a data gap. */
  datatype Component = Component(weight: real, score: Option<real>)

  datatype Part = Part(weight: real, score: real)

  function Percent(numerator: real, denominator: real): Option<real> {
    if denominator == 0.0 then None else Some(numerator / denominator * 100.0)
  }

  function PercentOr(numerator: real, denominator: real, default: real): real {
    if Percent(numerator, denominator).None? then default else Percent(numerator, denominator).value
  }

  function Available(cs: seq<Component>): seq<Part> {
    if cs == [] then []
    else
      var last := cs[|cs| - 1];
      Available(cs[..|cs| - 1]) + if last.score.Some? then [Part(last.weight, last.score.value)] else []
  }

  function TotalWeight(ps: seq<Part>): real {
    if ps == [] then 0.0 else TotalWeight(ps[..|ps| - 1]) + ps[|ps| - 1].weight
  }

  function Applied(ps: seq<Part>, total: real): seq<real>
    requires total != 0.0
  {
    if ps == [] then [] else Applied(ps[..|ps| - 1], total) + [ps[|ps| - 1].weight / total]
  }

  function Term(p: Part, total: real): real
    requires total != 0.0
  {
    p.score * (p.weight / total)
  }

  function Blend(ps: seq<Part>, total: real): real
    requires total != 0.0
  {
    if ps == [] then 0.0 else Blend(ps[..|ps| - 1], total) + Term(ps[|ps| - 1], total)
  }

  function Mean(ps: seq<Part>): real
    requires TotalWeight(ps) != 0.0
  {
    Blend(ps, TotalWeight(ps))
  }

  /** What `_weighted_score` returns first. */
  function Weighted(cs: seq<Component>): Option<real> {
    var ps := Available(cs);
    if TotalWeight(ps) == 0.0 then None else Some(Clamp(Mean(ps)))
  }

  method TotalOf(ps: seq<Part>) returns (total: real)
    ensures total == TotalWeight(ps)
  {
    total := 0.0;
    for i := 0 to |ps|
      invariant total == TotalWeight(ps[..i])
    {
      assert ps[..i + 1][..i] == ps[..i];
      total := total + ps[i].weight;
    }
    assert ps[..|ps|] == ps;
  }

  method WeightedScore(cs: seq<Component>) returns (score: Option<real>, applied: seq<real>)
    ensures score == Weighted(cs)
    ensures applied == if score.None? then [] else Applied(Available(cs), TotalWeight(Available(cs)))
  {
    var ps := [];
    for i := 0 to |cs|
      invariant ps == Available(cs[..i])
    {
      assert cs[..i + 1][..i] == cs[..i];
      if cs[i].score.Some? { ps := ps + [Part(cs[i].weight, cs[i].score.value)]; }
    }
    assert cs[..|cs|] == cs;
    var total := TotalOf(ps);
    if total == 0.0 {
      return None, [];
    }
    applied := [];
    var sum := 0.0;
    for i := 0 to |ps|
      invariant applied == Applied(ps[..i], total) && sum == Blend(ps[..i], total)
    {
      assert ps[..i + 1][..i] == ps[..i];
      var weight := ps[i].weight / total;
      applied := applied + [weight];
      sum := sum + Term(ps[i], total);
    }
    assert ps[..|ps|] == ps;
    score := Some(Clamp(sum));
  }

  /* ----- the credit load index ----- */

  datatype Credit = Credit(
    debtRatio: Option<real>, netCashflow: real, payments: real, count: nat,
    utilisation: Option<real>, overdueDays: Option<int>)

  /** The parts of the index, of which only the number of credits is always there. */
  function CreditComponents(c: Credit): seq<Component> {
    [Component(0.55, if c.debtRatio.None? then None else Some(Clamp(c.debtRatio.value / 50.0 * 100.0))),
     Component(0.10,
               if c.payments <= 0.0 then None else Some(if c.netCashflow - c.payments < 0.0 then 100.0 else 25.0)),
     Component(0.05, Some(Clamp(c.count as real * 25.0))),
     Component(0.15, if c.utilisation.None? then None else Some(Clamp(c.utilisation.value))),
     Component(0.15, if c.overdueDays.None? then None else Some(Clamp(c.overdueDays.value as real * 10.0)))]
  }

  function CreditParts(c: Credit): seq<Part> {
    Available(CreditComponents(c))
  }

  lemma NextAvailable(cs: seq<Component>, k: nat)
    requires k < |cs|
    ensures Available(cs[..0]) == []
    ensures Available(cs[..k + 1]) ==
            Available(cs[..k]) + if cs[k].score.Some? then [Part(cs[k].weight, cs[k].score.value)] else []
  {
    assert cs[..k + 1][..k] == cs[..k];
  }

  method BuildCreditParts(c: Credit) returns (parts: seq<Part>)
    ensures parts == CreditParts(c)
  {
    ghost var cs := CreditComponents(c);
    parts := [];
    NextAvailable(cs, 0);
    if c.debtRatio.Some? { parts := parts + [Part(0.55, Clamp(c.debtRatio.value / 50.0 * 100.0))]; }
    assert parts == Available(cs[..1]);
    var free := c.netCashflow - c.payments;
    NextAvailable(cs, 1);
    if c.payments > 0.0 { parts := parts + [Part(0.10, if free < 0.0 then 100.0 else 25.0)]; }
    assert parts == Available(cs[..2]);
    NextAvailable(cs, 2);
    parts := parts + [Part(0.05, Clamp(c.count as real * 25.0))];
    assert parts == Available(cs[..3]);
    NextAvailable(cs, 3);
    if c.utilisation.Some? { parts := parts + [Part(0.15, Clamp(c.utilisation.value))]; }
    assert parts == Available(cs[..4]);
    NextAvailable(cs, 4);
    if c.overdueDays.Some? { parts := parts + [Part(0.15, Clamp(c.overdueDays.value as real * 10.0))]; }
    assert cs[..5] == cs;
  }

  method BlendOf(ps: seq<Part>, total: real) returns (sum: real)
    requires total != 0.0
    ensures sum == Blend(ps, total)
  {
    sum := 0.0;
    for i := 0 to |ps|
      invariant sum == Blend(ps[..i], total)
    {
      assert ps[..i + 1][..i] == ps[..i];
      sum := sum + Term(ps[i], total);
    }
    assert ps[..|ps|] == ps;
  }

  /* ----- the components of a profile ----- */

  datatype Goal = Goal(current: real, target: real, required: real)

  datatype Inputs = Inputs(
    netCashflow: real, totalIncome: real, debtRatio: Option<real>, reserveMonths: Option<real>,
    unclearExpenses: real, totalExpenses: real, goal: Option<Goal>, stability: Option<real>)

  function CashflowScore(net: real, income: real): Option<real> {
    if income == 0.0 then None else Some(Clamp((net / income + 0.10) / 0.30 * 100.0))
  }

  function DebtScore(ratio: Option<real>): Option<real> {
    if ratio.None? then None else Some(Clamp(100.0 - (ratio.value - 10.0) / 40.0 * 100.0))
  }

  function ReserveScore(months: Option<real>): Option<real> {
    if months.None? then None else Some(Clamp(months.value / 3.0 * 100.0))
  }

  function ClarityScore(unclear: real, expenses: real): real {
    Clamp(100.0 - PercentOr(unclear, expenses, 0.0))
  }

  /** `required` is the saving still required per month. */
  function GoalScore(goal: Option<Goal>, net: real): Option<real> {
    if goal.None? then None
    else
      var g := goal.value;
      var progress := PercentOr(g.current, g.target, 100.0);
      var affordability := if g.required > 0.0 then PercentOr(net, g.required, 100.0) else 100.0;
      Some(Clamp(Clamp(progress) * 0.60 + Clamp(affordability) * 0.40))
  }

  /** The list of category limits the budget score is given is empty in every case, so there is never a budget score. */
  function Components(i: Inputs): seq<Component> {
    [Component(0.25, CashflowScore(i.netCashflow, i.totalIncome)),
     Component(0.20, DebtScore(i.debtRatio)),
     Component(0.15, ReserveScore(i.reserveMonths)),
     Component(0.15, None),
     Component(0.10, Some(ClarityScore(i.unclearExpenses, i.totalExpenses))),
     Component(0.10, GoalScore(i.goal, i.netCashflow)),
     Component(0.05, i.stability)]
  }

  /* ----- weighted means ----- */

  predicate PositiveWeights(ps: seq<Part>) {
    forall i :: 0 <= i < |ps| ==> ps[i].weight > 0.0
  }

  predicate Between(lo: real, ps: seq<Part>, hi: real) {
    forall i :: 0 <= i < |ps| ==> lo <= ps[i].score <= hi
  }

  lemma {:induction false} TotalPositive(ps: seq<Part>)
    requires PositiveWeights(ps)
    ensures TotalWeight(ps) >= 0.0 && (ps != [] ==> TotalWeight(ps) > 0.0)
  {
    if ps != [] { TotalPositive(ps[..|ps| - 1]); }
  }

  lemma SplitQuotient(a: real, b: real, t: real)
    requires t != 0.0
    ensures (a + b) / t == a / t + b / t
  {
  }

  lemma AppliedStep(sum: real, sum': real, weight: real, weight': real, w: real, t: real)
    requires t != 0.0 && sum == weight / t && sum' == sum + w / t && weight' == weight + w
    ensures sum' == weight' / t
  {
    SplitQuotient(weight, w, t);
  }

  lemma SumAppend(xs: seq<real>, x: real)
    ensures Sum(xs + [x]) == Sum(xs) + x
  {
    assert (xs + [x])[..|xs|] == xs;
  }

  lemma {:induction false} AppliedSum(ps: seq<Part>, total: real)
    requires total != 0.0
    ensures Sum(Applied(ps, total)) == TotalWeight(ps) / total
  {
    if ps != [] {
      var before, last := ps[..|ps| - 1], ps[|ps| - 1];
      AppliedSum(before, total);
      SumAppend(Applied(before, total), last.weight / total);
      AppliedStep(Sum(Applied(before, total)), Sum(Applied(ps, total)), TotalWeight(before), TotalWeight(ps),
                  last.weight, total);
    }
  }

  lemma SelfQuotient(t: real)
    requires t > 0.0
    ensures t / t == 1.0
  {
  }

  /** The weights that are applied sum to 1 whichever components are available. */
  lemma AppliedSumToOne(ps: seq<Part>)
    requires ps != [] && PositiveWeights(ps)
    ensures TotalWeight(ps) > 0.0 && Sum(Applied(ps, TotalWeight(ps))) == 1.0
  {
    TotalPositive(ps);
    AppliedSum(ps, TotalWeight(ps));
    SelfQuotient(TotalWeight(ps));
  }

  /** The same weights, and no score lower. */
  predicate AtLeast(qs: seq<Part>, ps: seq<Part>) {
    |qs| == |ps| && forall i :: 0 <= i < |ps| ==> qs[i].weight == ps[i].weight && qs[i].score >= ps[i].score
  }

  lemma TermMonotone(p: Part, q: Part, total: real)
    requires total > 0.0 && p.weight > 0.0 && q.weight == p.weight && q.score >= p.score
    ensures Term(q, total) >= Term(p, total)
    ensures q.score > p.score ==> Term(q, total) > Term(p, total)
  {
    assert p.weight / total > 0.0;
    Scale(p.score, q.score, p.weight / total);
  }

  lemma {:induction false} BlendMonotone(ps: seq<Part>, qs: seq<Part>, total: real)
    requires PositiveWeights(ps) && total > 0.0 && AtLeast(qs, ps)
    ensures TotalWeight(qs) == TotalWeight(ps)
    ensures Blend(qs, total) >= Blend(ps, total)
    ensures Blend(qs, total) == Blend(ps, total) <==> qs == ps
  {
    if ps != [] {
      var k := |ps| - 1;
      BlendMonotone(ps[..k], qs[..k], total);
      TermMonotone(ps[k], qs[k], total);
      assert ps == ps[..k] + [ps[k]] && qs == qs[..k] + [qs[k]];
    }
  }

  /** Raising any score raises the mean, and the mean is unchanged only if every score is. */
  lemma MeanMonotone(ps: seq<Part>, qs: seq<Part>)
    requires ps != [] && PositiveWeights(ps) && AtLeast(qs, ps)
    ensures TotalWeight(ps) > 0.0 && TotalWeight(qs) > 0.0
    ensures Mean(qs) >= Mean(ps) && (Mean(qs) == Mean(ps) <==> qs == ps)
  {
    TotalPositive(ps);
    BlendMonotone(ps, qs, TotalWeight(ps));
  }

  /* ----- the mean as a quotient, its range, and losing a component ----- */

  function Product(p: Part): real {
    p.score * p.weight
  }

  function Raw(ps: seq<Part>): real {
    if ps == [] then 0.0 else Raw(ps[..|ps| - 1]) + Product(ps[|ps| - 1])
  }

  lemma ProductQuotient(x: real, w: real, t: real)
    requires t > 0.0
    ensures x * (w / t) == x * w / t
  {
    assert w == (w / t) * t;
  }

  lemma {:induction false} BlendIsRaw(ps: seq<Part>, total: real)
    requires total > 0.0
    ensures Blend(ps, total) == Raw(ps) / total
  {
    if ps != [] {
      var before, last := ps[..|ps| - 1], ps[|ps| - 1];
      BlendIsRaw(before, total);
      SplitQuotient(Raw(before), Product(last), total);
      ProductQuotient(last.score, last.weight, total);
    }
  }

  /** The parts of ps with every score set to x. */
  predicate Flat(qs: seq<Part>, ps: seq<Part>, x: real) {
    |qs| == |ps| && forall i :: 0 <= i < |ps| ==> qs[i] == Part(ps[i].weight, x)
  }

  lemma RawStep(x: real, t: real, w: real, u: real, raw: real, p: Part) returns (sum: real)
    requires raw == x * t && u == t + w && p == Part(w, x)
    ensures sum == raw + Product(p) && sum == x * u
  {
    sum := raw + Product(p);
    Distribute(x, t, w);
  }

  lemma {:induction false} FlatRaw(qs: seq<Part>, ps: seq<Part>, x: real, t: real)
    requires Flat(qs, ps, x) && t == TotalWeight(ps)
    ensures TotalWeight(qs) == t && Raw(qs) == x * t
  {
    if ps != [] {
      var k := |ps| - 1;
      var before := TotalWeight(ps[..k]);
      FlatRaw(qs[..k], ps[..k], x, before);
      var _ := RawStep(x, before, ps[k].weight, t, Raw(qs[..k]), qs[k]);
    }
  }

  lemma CancelQuotient(x: real, t: real)
    requires t > 0.0
    ensures x * t / t == x
  {
  }

  lemma FlatMean(qs: seq<Part>, ps: seq<Part>, x: real, t: real)
    requires Flat(qs, ps, x) && t == TotalWeight(ps) > 0.0
    ensures Blend(qs, t) == x
  {
    FlatRaw(qs, ps, x, t);
    BlendIsRaw(qs, t);
    CancelQuotient(x, t);
  }

  /** The mean lies between the smallest and the largest score. */
  lemma MeanBetween(ps: seq<Part>, lo: real, hi: real)
    requires ps != [] && PositiveWeights(ps) && Between(lo, ps, hi)
    ensures TotalWeight(ps) > 0.0 && lo <= Mean(ps) <= hi
  {
    TotalPositive(ps);
    var low := seq(|ps|, i requires 0 <= i < |ps| => Part(ps[i].weight, lo));
    var high := seq(|ps|, i requires 0 <= i < |ps| => Part(ps[i].weight, hi));
    FlatMean(low, ps, lo, TotalWeight(ps));
    FlatMean(high, ps, hi, TotalWeight(ps));
    BlendMonotone(low, ps, TotalWeight(ps));
    BlendMonotone(ps, high, TotalWeight(ps));
  }

  function Without(ps: seq<Part>, i: nat): seq<Part>
    requires i < |ps|
  {
    ps[..i] + ps[i + 1..]
  }

  lemma {:induction false} WithoutSums(ps: seq<Part>, i: nat)
    requires i < |ps|
    ensures TotalWeight(Without(ps, i)) == TotalWeight(ps) - ps[i].weight
    ensures Raw(Without(ps, i)) == Raw(ps) - Product(ps[i])
  {
    var k := |ps| - 1;
    var rest := Without(ps, i);
    if i == k {
      assert rest == ps[..k];
    } else {
      WithoutSums(ps[..k], i);
      assert rest[..k - 1] == Without(ps[..k], i);
      assert rest[k - 1] == ps[k] && ps[..k][i] == ps[i];
    }
  }

  lemma ProductSign(x: real, w: real)
    requires w > 0.0
    ensures (x * w > 0.0 <==> x > 0.0) && (x * w == 0.0 <==> x == 0.0)
  {
  }

  /** Taking a part of weight w and score x out of a mean m of total weight t leaves the mean n of weight u. */
  lemma RemovalSign(t: real, w: real, u: real, x: real, raw: real, left: real, m: real, n: real)
    requires u == t - w && u > 0.0 && w > 0.0 && left == raw - x * w && m == raw / t && n == left / u
    ensures n > m <==> x < m
    ensures n == m <==> x == m
  {
    assert raw == m * t && left == n * u;
    assert m * t == m * u + m * w;
    assert (n - m) * u == (m - x) * w;
    ProductSign(n - m, u);
    ProductSign(m - x, w);
  }

  lemma RemovalFacts(ps: seq<Part>, i: nat, t: real, u: real) returns (raw: real, left: real)
    requires i < |ps| && t == TotalWeight(ps) > 0.0 && u == TotalWeight(Without(ps, i)) > 0.0
    ensures u == t - ps[i].weight && left == raw - Product(ps[i])
    ensures Blend(ps, t) == raw / t && Blend(Without(ps, i), u) == left / u
  {
    raw, left := Raw(ps), Raw(Without(ps, i));
    assert u == t - ps[i].weight && left == raw - Product(ps[i]) by { WithoutSums(ps, i); }
    assert Blend(ps, t) == raw / t by { BlendIsRaw(ps, t); }
    assert Blend(Without(ps, i), u) == left / u by { BlendIsRaw(Without(ps, i), u); }
  }

  lemma LosingValues(ps: seq<Part>, i: nat, t: real, u: real, m: real, n: real, w: real, x: real)
    requires i < |ps| && w == ps[i].weight > 0.0 && x == ps[i].score
    requires t == TotalWeight(ps) > 0.0 && u == TotalWeight(Without(ps, i)) > 0.0
    requires m == Blend(ps, t) && n == Blend(Without(ps, i), u)
    ensures n > m <==> x < m
    ensures n == m <==> x == m
  {
    var raw, left := RemovalFacts(ps, i, t, u);
    RemovalSign(t, w, u, x, raw, left, m, n);
  }

  /** Losing a component raises the mean exactly when the component was below it. */
  lemma LosingAComponent(ps: seq<Part>, i: nat)
    requires |ps| >= 2 && PositiveWeights(ps) && i < |ps|
    ensures TotalWeight(ps) > 0.0 && TotalWeight(Without(ps, i)) > 0.0
    ensures Mean(Without(ps, i)) > Mean(ps) <==> ps[i].score < Mean(ps)
    ensures Mean(Without(ps, i)) == Mean(ps) <==> ps[i].score == Mean(ps)
  {
    var rest := Without(ps, i);
    TotalPositive(ps);
    TotalPositive(rest);
    LosingValues(ps, i, TotalWeight(ps), TotalWeight(rest), Mean(ps), Mean(rest), ps[i].weight, ps[i].score);
  }

  /* ----- the profile's score ----- */

  predicate Sound(ps: seq<Part>) {
    ps != [] && PositiveWeights(ps) && Between(0.0, ps, 100.0)
  }

  predicate SoundComponents(cs: seq<Component>) {
    forall i :: 0 <= i < |cs| ==> cs[i].weight > 0.0 && (cs[i].score.Some? ==> 0.0 <= cs[i].score.value <= 100.0)
  }

  lemma {:induction false} AvailableSound(cs: seq<Component>)
    requires SoundComponents(cs)
    ensures PositiveWeights(Available(cs)) && Between(0.0, Available(cs), 100.0)
    ensures (exists i :: 0 <= i < |cs| && cs[i].score.Some?) ==> Available(cs) != []
  {
    if cs != [] {
      var before := cs[..|cs| - 1];
      AvailableSound(before);
      if i :| 0 <= i < |cs| && cs[i].score.Some? {
        if i < |before| { assert before[i].score.Some?; }
      }
    }
  }

  /**
   * A profile always has a score, so the fallback to 0 is never taken: clarity is always available. The
   * score is the unclamped mean of the available components, and the applied weights sum to 1.
   */
  lemma ProfileAlwaysScored(i: Inputs)
    requires i.stability.Some? ==> 0.0 <= i.stability.value <= 100.0
    ensures var ps := Available(Components(i));
            && Sound(ps) && TotalWeight(ps) > 0.0
            && Weighted(Components(i)) == Some(Mean(ps)) && 0.0 <= Mean(ps) <= 100.0
            && Sum(Applied(ps, TotalWeight(ps))) == 1.0
  {
    var cs := Components(i);
    assert cs[4].score.Some?;
    AvailableSound(cs);
    AppliedSumToOne(Available(cs));
    MeanBetween(Available(cs), 0.0, 100.0);
  }

  /** The same for the stability score of any transactions, which is in range or missing. */
  lemma ProfileOfTransactionsScored(i: Inputs, root: real -> real, ts: seq<Stability.Transaction>)
    requires Stability.IsSquareRoot(root) && i.stability == Stability.Score(root, ts)
    ensures Weighted(Components(i)).Some? && 0.0 <= Weighted(Components(i)).value <= 100.0
    ensures TotalWeight(Available(Components(i))) > 0.0
    ensures Weighted(Components(i)).value == Mean(Available(Components(i)))
  {
    Stability.ScoreCharacterised(root, ts);
    ProfileAlwaysScored(i);
  }

  /** The same components are available in both, and none is lower in the second. */
  predicate Raised(cs: seq<Component>, ds: seq<Component>) {
    |ds| == |cs| && forall k :: 0 <= k < |cs| ==>
      && ds[k].weight == cs[k].weight && (ds[k].score.Some? <==> cs[k].score.Some?)
      && (cs[k].score.Some? ==> ds[k].score.value >= cs[k].score.value)
  }

  lemma {:induction false} AvailableRaised(cs: seq<Component>, ds: seq<Component>)
    requires Raised(cs, ds)
    ensures AtLeast(Available(ds), Available(cs))
  {
    if cs != [] { AvailableRaised(cs[..|cs| - 1], ds[..|ds| - 1]); }
  }

  /** With the same gaps, a profile none of whose components is lower never scores lower. */
  lemma ProfileMonotone(i: Inputs, j: Inputs)
    requires i.stability.Some? ==> 0.0 <= i.stability.value <= 100.0
    requires j.stability.Some? ==> 0.0 <= j.stability.value <= 100.0
    requires Raised(Components(i), Components(j))
    ensures Weighted(Components(i)).Some? && Weighted(Components(j)).Some?
    ensures Weighted(Components(j)).value >= Weighted(Components(i)).value
  {
    ProfileAlwaysScored(i);
    ProfileAlwaysScored(j);
    AvailableRaised(Components(i), Components(j));
    MeanMonotone(Available(Components(i)), Available(Components(j)));
  }

  lemma ClampMonotone(x: real, y: real)
    requires x <= y
    ensures Clamp(x) <= Clamp(y)
  {
  }

  /** A lower debt ratio, more months of reserve and a steadier income, all else equal, never lower the score. */
  lemma BetterInputsNeverHurt(i: Inputs, ratio: real, months: real, stability: real)
    requires i.debtRatio.Some? && i.reserveMonths.Some? && i.stability.Some?
    requires 0.0 <= i.stability.value <= stability <= 100.0
    requires ratio <= i.debtRatio.value && months >= i.reserveMonths.value
    ensures var j := i.(debtRatio := Some(ratio), reserveMonths := Some(months), stability := Some(stability));
            && Weighted(Components(i)).Some? && Weighted(Components(j)).Some?
            && Weighted(Components(j)).value >= Weighted(Components(i)).value
  {
    var j := i.(debtRatio := Some(ratio), reserveMonths := Some(months), stability := Some(stability));
    ClampMonotone(100.0 - (i.debtRatio.value - 10.0) / 40.0 * 100.0, 100.0 - (ratio - 10.0) / 40.0 * 100.0);
    ClampMonotone(i.reserveMonths.value / 3.0 * 100.0, months / 3.0 * 100.0);
    ProfileMonotone(i, j);
  }

  /** Where the component scores reach their ends. */
  lemma ScoreEnds(net: real, income: real, ratio: real, months: real)
    requires income > 0.0
    ensures CashflowScore(net, income) == Some(100.0) <==> net / income >= 0.2
    ensures CashflowScore(net, income) == Some(0.0) <==> net / income <= -0.1
    ensures DebtScore(Some(ratio)) == Some(100.0) <==> ratio <= 10.0
    ensures DebtScore(Some(ratio)) == Some(0.0) <==> ratio >= 50.0
    ensures ReserveScore(Some(months)) == Some(100.0) <==> months >= 3.0
    ensures ReserveScore(Some(months)) == Some(0.0) <==> months <= 0.0
  {
  }

  /** Between the ends the component scores are linear. */
  lemma ScoresBetween(net: real, income: real, ratio: real, months: real)
    requires income != 0.0
    ensures -0.1 <= net / income <= 0.2 ==>
              CashflowScore(net, income).Some?
              && 3.0 * CashflowScore(net, income).value == 1000.0 * (net / income) + 100.0
    ensures 10.0 <= ratio <= 50.0 ==> 2.0 * DebtScore(Some(ratio)).value == 250.0 - 5.0 * ratio
    ensures 0.0 <= months <= 3.0 ==> 3.0 * ReserveScore(Some(months)).value == 100.0 * months
  {
  }

  /** Clarity is the share of the expenses that is clear, and 100 without expenses. */
  lemma ClarityBetween(unclear: real, expenses: real)
    ensures expenses == 0.0 ==> ClarityScore(unclear, expenses) == 100.0
    ensures expenses != 0.0 && 0.0 <= unclear / expenses <= 1.0 ==>
              ClarityScore(unclear, expenses) == 100.0 - 100.0 * (unclear / expenses)
  {
  }

  /**
   * The goal score is three fifths of how much is saved and two fifths of how much of the required saving the
   * cash flow covers, each bounded; without a target all is saved, and without a required saving all covered.
   */
  lemma GoalExactly(g: Goal, net: real)
    ensures var saved := if g.target == 0.0 then 100.0 else Clamp(100.0 * (g.current / g.target));
            var covered := if g.required <= 0.0 then 100.0 else Clamp(100.0 * (net / g.required));
            GoalScore(Some(g), net).Some? && 5.0 * GoalScore(Some(g), net).value == 3.0 * saved + 2.0 * covered
  {
  }

  function Present(score: Option<real>, weight: real): real {
    if score.Some? then weight else 0.0
  }

  lemma {:induction false} AvailableWeight(cs: seq<Component>)
    requires cs != []
    ensures TotalWeight(Available(cs)) ==
            TotalWeight(Available(cs[..|cs| - 1])) + Present(cs[|cs| - 1].score, cs[|cs| - 1].weight)
  {
    var before := Available(cs[..|cs| - 1]);
    assert Available(cs)[..|before|] == before;
    assert cs[|cs| - 1].score.None? ==> Available(cs) == before;
  }

  lemma WeightUpTo(cs: seq<Component>, k: nat)
    requires 1 <= k <= |cs|
    ensures TotalWeight(Available(cs[..k]))
            == TotalWeight(Available(cs[..k - 1])) + Present(cs[k - 1].score, cs[k - 1].weight)
  {
    assert cs[..k][..k - 1] == cs[..k - 1];
    AvailableWeight(cs[..k]);
  }

  /** Sums of up to seven steps. */
  lemma SevenSteps(f: nat -> real, g: nat -> real, n: nat)
    requires n <= 7 && f(0) == 0.0 && forall k: nat :: k < n ==> f(k + 1) == f(k) + g(k)
    ensures n == 5 ==> f(5) == g(0) + g(1) + g(2) + g(3) + g(4)
    ensures n == 7 ==> f(7) == g(0) + g(1) + g(2) + g(3) + g(4) + g(5) + g(6)
  {
    if n >= 5 { assert f(0 + 1) == g(0) && f(1 + 1) == g(0) + g(1) && f(2 + 1) == g(0) + g(1) + g(2); }
    if n >= 5 { assert f(3 + 1) == g(0) + g(1) + g(2) + g(3) && f(4 + 1) == f(4) + g(4); }
    if n >= 7 { assert f(5 + 1) == f(5) + g(5) && f(6 + 1) == f(6) + g(6); }
  }

  function WeightsOf(cs: seq<Component>): nat -> real {
    (k: nat) => if k < |cs| then Present(cs[k].score, cs[k].weight) else 0.0
  }

  lemma WeightsAddUp(cs: seq<Component>, g: nat -> real)
    requires |cs| in {5, 7} && forall k: nat :: k < |cs| ==> g(k) == Present(cs[k].score, cs[k].weight)
    ensures |cs| == 5 ==> TotalWeight(Available(cs)) == g(0) + g(1) + g(2) + g(3) + g(4)
    ensures |cs| == 7 ==> TotalWeight(Available(cs)) == g(0) + g(1) + g(2) + g(3) + g(4) + g(5) + g(6)
  {
    var f := (k: nat) => if k <= |cs| then TotalWeight(Available(cs[..k])) else 0.0;
    forall k: nat | k < |cs| ensures f(k + 1) == f(k) + g(k) { WeightUpTo(cs, k + 1); }
    SevenSteps(f, g, |cs|);
    assert cs[..|cs|] == cs;
  }

  /**
   * The nominal weights that are applied: a tenth for clarity always, and never more than 0.85, since the
   * budget score is never there; 0.85 exactly when nothing else is missing.
   */
  lemma NominalWeight(i: Inputs)
    ensures var w := TotalWeight(Available(Components(i)));
            && w == 0.10 + Present(CashflowScore(i.netCashflow, i.totalIncome), 0.25) + Present(i.debtRatio, 0.20)
                    + Present(i.reserveMonths, 0.15) + Present(GoalScore(i.goal, i.netCashflow), 0.10)
                    + Present(i.stability, 0.05)
            && 0.10 <= w <= 0.85
            && (w == 0.85 <==> i.totalIncome != 0.0 && i.debtRatio.Some? && i.reserveMonths.Some? && i.goal.Some?
                               && i.stability.Some?)
  {
    var cs := Components(i);
    WeightsAddUp(cs, WeightsOf(cs));
  }

  /* ----- the mean, term by term ----- */

  function ShareOf(score: Option<real>, weight: real): real {
    if score.Some? then score.value * weight else 0.0
  }

  function Share(c: Component): real {
    ShareOf(c.score, c.weight)
  }

  lemma {:induction false} AvailableShare(cs: seq<Component>)
    requires cs != []
    ensures Raw(Available(cs)) == Raw(Available(cs[..|cs| - 1])) + Share(cs[|cs| - 1])
  {
    var before := Available(cs[..|cs| - 1]);
    assert Available(cs)[..|before|] == before;
    assert cs[|cs| - 1].score.None? ==> Available(cs) == before;
  }

  lemma ShareUpTo(cs: seq<Component>, k: nat)
    requires 1 <= k <= |cs|
    ensures Raw(Available(cs[..k])) == Raw(Available(cs[..k - 1])) + Share(cs[k - 1])
  {
    assert cs[..k][..k - 1] == cs[..k - 1];
    AvailableShare(cs[..k]);
  }

  lemma SharesAddUp(cs: seq<Component>, g: nat -> real)
    requires |cs| in {5, 7} && forall k: nat :: k < |cs| ==> g(k) == Share(cs[k])
    ensures |cs| == 5 ==> Raw(Available(cs)) == g(0) + g(1) + g(2) + g(3) + g(4)
    ensures |cs| == 7 ==> Raw(Available(cs)) == g(0) + g(1) + g(2) + g(3) + g(4) + g(5) + g(6)
  {
    var f := (k: nat) => if k <= |cs| then Raw(Available(cs[..k])) else 0.0;
    forall k: nat | k < |cs| ensures f(k + 1) == f(k) + g(k) { ShareUpTo(cs, k + 1); }
    SevenSteps(f, g, |cs|);
    assert cs[..|cs|] == cs;
  }

  function SharesOf(cs: seq<Component>): nat -> real {
    (k: nat) => if k < |cs| then Share(cs[k]) else 0.0
  }

  lemma QuotientShareOf(x: real, t: real)
    requires t > 0.0
    ensures x / t * t == x
  {
  }

  /** The mean times the total weight is the sum of scores times weights. */
  lemma MeanTimesWeight(ps: seq<Part>)
    requires TotalWeight(ps) > 0.0
    ensures Mean(ps) * TotalWeight(ps) == Raw(ps)
  {
    BlendIsRaw(ps, TotalWeight(ps));
    QuotientShareOf(Raw(ps), TotalWeight(ps));
  }

  /** The terms of a profile with these component scores. */
  lemma SevenTerms(cs: seq<Component>, s0: Option<real>, s1: Option<real>, s2: Option<real>, s4: real,
                   s5: Option<real>, s6: Option<real>)
    requires cs == [Component(0.25, s0), Component(0.20, s1), Component(0.15, s2), Component(0.15, None),
                    Component(0.10, Some(s4)), Component(0.10, s5), Component(0.05, s6)]
    ensures Raw(Available(cs)) == ShareOf(s0, 0.25) + ShareOf(s1, 0.20) + ShareOf(s2, 0.15) + 0.10 * s4
                                  + ShareOf(s5, 0.10) + ShareOf(s6, 0.05)
  {
    SharesAddUp(cs, SharesOf(cs));
  }

  /** The component scores that are present, each times its weight. */
  function WeightedSum(i: Inputs): real {
    ShareOf(CashflowScore(i.netCashflow, i.totalIncome), 0.25) + ShareOf(DebtScore(i.debtRatio), 0.20)
    + ShareOf(ReserveScore(i.reserveMonths), 0.15) + 0.10 * ClarityScore(i.unclearExpenses, i.totalExpenses)
    + ShareOf(GoalScore(i.goal, i.netCashflow), 0.10) + ShareOf(i.stability, 0.05)
  }

  /** What a profile's mean adds up: times the weight that is present it is this sum, by MeanTimesWeight. */
  lemma ProfileTerms(i: Inputs)
    ensures Raw(Available(Components(i))) == WeightedSum(i)
  {
    SevenTerms(Components(i), CashflowScore(i.netCashflow, i.totalIncome), DebtScore(i.debtRatio),
               ReserveScore(i.reserveMonths), ClarityScore(i.unclearExpenses, i.totalExpenses),
               GoalScore(i.goal, i.netCashflow), i.stability);
  }

  /* ----- the credit load index: range and monotonicity ----- */

  /** The number of active credits always counts, so the total weight is positive, and the mean is in range. */
  lemma IndexInRange(c: Credit)
    ensures Sound(CreditParts(c)) && TotalWeight(CreditParts(c)) > 0.0
    ensures 0.0 <= Mean(CreditParts(c)) <= 100.0
  {
    assert CreditComponents(c)[2].score.Some?;
    AvailableSound(CreditComponents(c));
    MeanBetween(CreditParts(c), 0.0, 100.0);
  }

  method CreditLoadIndex(c: Credit) returns (index: real)
    ensures TotalWeight(CreditParts(c)) > 0.0
    ensures index == Clamp(Mean(CreditParts(c)))
  {
    var parts := BuildCreditParts(c);
    IndexInRange(c);
    var total := TotalOf(parts);
    var sum := BlendOf(parts, total);
    index := Clamp(sum);
  }

  lemma CreditWeight(c: Credit)
    ensures TotalWeight(CreditParts(c)) ==
            0.05 + (if c.debtRatio.Some? then 0.55 else 0.0) + (if c.payments > 0.0 then 0.10 else 0.0)
            + (if c.utilisation.Some? then 0.15 else 0.0) + (if c.overdueDays.Some? then 0.15 else 0.0)
  {
    var cs := CreditComponents(c);
    WeightsAddUp(cs, WeightsOf(cs));
  }

  lemma CreditTerms(c: Credit)
    ensures Raw(CreditParts(c)) ==
            (if c.debtRatio.Some? then 0.55 * Clamp(2.0 * c.debtRatio.value) else 0.0)
            + (if c.payments > 0.0 then if c.netCashflow < c.payments then 10.0 else 2.5 else 0.0)
            + 0.05 * Clamp(25.0 * c.count as real)
            + (if c.utilisation.Some? then 0.15 * Clamp(c.utilisation.value) else 0.0)
            + (if c.overdueDays.Some? then 0.15 * Clamp(10.0 * c.overdueDays.value as real) else 0.0)
  {
    var cs := CreditComponents(c);
    SharesAddUp(cs, SharesOf(cs));
  }

  /**
   * The index, term by term: times the weight that is present it is 0.55 of twice the debt ratio, 0.10 of 100
   * or 25 as payments exceed the cash flow or not, 0.05 of 25 per credit, 0.15 of the utilisation and 0.15 of
   * 10 per overdue day, each bounded, as far as they are present.
   */
  lemma IndexEquation(c: Credit)
    ensures var w := 0.05 + (if c.debtRatio.Some? then 0.55 else 0.0) + (if c.payments > 0.0 then 0.10 else 0.0)
                     + (if c.utilisation.Some? then 0.15 else 0.0) + (if c.overdueDays.Some? then 0.15 else 0.0);
            && w > 0.0 && TotalWeight(CreditParts(c)) == w
            && Mean(CreditParts(c)) * w ==
               (if c.debtRatio.Some? then 0.55 * Clamp(2.0 * c.debtRatio.value) else 0.0)
               + (if c.payments > 0.0 then if c.netCashflow < c.payments then 10.0 else 2.5 else 0.0)
               + 0.05 * Clamp(25.0 * c.count as real)
               + (if c.utilisation.Some? then 0.15 * Clamp(c.utilisation.value) else 0.0)
               + (if c.overdueDays.Some? then 0.15 * Clamp(10.0 * c.overdueDays.value as real) else 0.0)
  {
    CreditWeight(c);
    CreditTerms(c);
    MeanTimesWeight(CreditParts(c));
  }

  /** At least as heavy a load, with the same inputs present. */
  predicate Heavier(c: Credit, d: Credit) {
    && (d.debtRatio.Some? <==> c.debtRatio.Some?) && (c.debtRatio.Some? ==> d.debtRatio.value >= c.debtRatio.value)
    && (d.payments > 0.0 <==> c.payments > 0.0) && d.netCashflow - d.payments <= c.netCashflow - c.payments
    && d.count >= c.count
    && (d.utilisation.Some? <==> c.utilisation.Some?)
    && (c.utilisation.Some? ==> d.utilisation.value >= c.utilisation.value)
    && (d.overdueDays.Some? <==> c.overdueDays.Some?)
    && (c.overdueDays.Some? ==> d.overdueDays.value >= c.overdueDays.value)
  }

  lemma HeavierRaised(c: Credit, d: Credit)
    requires Heavier(c, d)
    ensures Raised(CreditComponents(c), CreditComponents(d))
  {
  }

  /**
   * The index is monotone in the debt ratio, the number of credits, card utilisation and overdue days,
   * and falls with the money left after payments, for fixed present inputs; it stays the same only if
   * every part does.
   */
  lemma IndexMonotone(c: Credit, d: Credit)
    requires Heavier(c, d)
    ensures TotalWeight(CreditParts(c)) > 0.0 && TotalWeight(CreditParts(d)) > 0.0
    ensures Mean(CreditParts(d)) >= Mean(CreditParts(c))
    ensures Mean(CreditParts(d)) == Mean(CreditParts(c)) <==> CreditParts(d) == CreditParts(c)
  {
    IndexInRange(c);
    HeavierRaised(c, d);
    AvailableRaised(CreditComponents(c), CreditComponents(d));
    MeanMonotone(CreditParts(c), CreditParts(d));
  }
}
