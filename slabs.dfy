/** The slab engine shared by the tax pages.

    A slab table is the pair of Python lists every slab function builds:
    `slabs`, the ascending lower bounds with the unbounded top appended
    (`float('inf')`), and `rates`, the percent charged on the income that
    falls between `slabs[k]` and `slabs[k+1]`. The specification of every
    table walk is `MarginalTax`: the sum over ALL slabs of
    rate * max(0, min(income, upper) - lower). The two loop idioms of the
    pages (the plain marginal loop and the fixed-amount loop) are methods
    proved against it. */
module Slabs {

  /** An upper bound of a slab: a rupee amount or the unbounded top. */
  datatype Bound = At(amount: int) | Inf

  /** A slab table; `slabs` already carries the appended top bound. */
  datatype Table = Table(slabs: seq<Bound>, rates: seq<int>)

  /** min(x, b), where min(x, inf) is x. */
  function Cap(x: int, b: Bound): int
  {
    match b
    case At(v) => if x < v then x else v
    case Inf => x
  }

  /** x <= b, where every amount is below inf. */
  predicate Within(x: int, b: Bound)
  {
    b.Inf? || x <= b.amount
  }

  /** max(x, 0) */
  function Clamp0(x: int): int
  {
    if x < 0 then 0 else x
  }

  /** Tax at `p` percent on `x` rupees, computed exactly. */
  function Percent(x: int, p: int): real
  {
    (x * p) as real / 100.0
  }

  /** The shape every table of the pages has: a first bound of 0, strictly
      increasing finite bounds, the unbounded top last, one rate per slab,
      rates between 0 and 100 percent. */
  predicate WellFormed(t: Table)
  {
    && |t.slabs| >= 2
    && |t.rates| == |t.slabs| - 1
    && t.slabs[0] == At(0)
    && t.slabs[|t.slabs| - 1] == Inf
    && (forall k :: 0 <= k < |t.slabs| - 1 ==> t.slabs[k].At?)
    && (forall k :: 0 < k < |t.slabs| - 1 ==> t.slabs[k - 1].amount < t.slabs[k].amount)
    && (forall k :: 0 <= k < |t.rates| ==> 0 <= t.rates[k] <= 100)
  }

  /** The tax on the part of `income` that falls inside slab `k`. */
  function Part(income: int, t: Table, k: int): real
    requires WellFormed(t) && 0 <= k < |t.rates|
  {
    Percent(Clamp0(Cap(income, t.slabs[k + 1]) - t.slabs[k].amount), t.rates[k])
  }

  /** The tax on the first `n` slabs; it is never negative. */
  function MarginalUpTo(income: int, t: Table, n: int): (r: real)
    requires WellFormed(t) && 0 <= n <= |t.rates|
    ensures 0.0 <= r
    decreases n
  {
    if n == 0 then 0.0
    else
      PercentMonotone(0, Clamp0(Cap(income, t.slabs[n]) - t.slabs[n - 1].amount), t.rates[n - 1]);
      MarginalUpTo(income, t, n - 1) + Part(income, t, n - 1)
  }

  /** The marginal tax of `income` under table `t`: every slab's rate times
      the portion of income inside it. */
  function MarginalTax(income: int, t: Table): real
    requires WellFormed(t)
  {
    MarginalUpTo(income, t, |t.rates|)
  }

  // ---------------------------------------------------------------------
  // Arithmetic of Percent

  lemma PercentMonotone(a: int, b: int, p: int)
    requires a <= b && 0 <= p
    ensures Percent(a, p) <= Percent(b, p)
  {
    assert a * p <= b * p by {
      assert (b - a) * p >= 0;
    }
  }

  lemma PercentRateMonotone(a: int, p: int, q: int)
    requires 0 <= a && p <= q
    ensures Percent(a, p) <= Percent(a, q)
  {
    assert a * p <= a * q by {
      assert a * (q - p) >= 0;
    }
  }

  lemma PercentAdd(a: int, b: int, p: int)
    ensures Percent(a, p) + Percent(b, p) == Percent(a + b, p)
  {
    assert a * p + b * p == (a + b) * p;
  }

  // ---------------------------------------------------------------------
  // Where the slab structure makes parts vanish or saturate

  /** Bounds are ordered: a finite bound at index j is below every later
      finite bound. */
  lemma {:induction false} BoundsOrdered(t: Table, j: int, k: int)
    requires WellFormed(t) && 0 <= j <= k < |t.rates|
    ensures t.slabs[j].amount <= t.slabs[k].amount
    ensures j < k ==> t.slabs[j].amount < t.slabs[k].amount
    decreases k
  {
    if j < k {
      BoundsOrdered(t, j, k - 1);
    }
  }

  /** Once the income is within the upper bound of slab m - 1, slabs m and
      above add nothing: this is why the loop may stop there. */
  lemma {:induction false} TailZero(income: int, t: Table, m: int, n: int)
    requires WellFormed(t) && 0 <= m <= n <= |t.rates|
    requires Within(income, t.slabs[m])
    ensures MarginalUpTo(income, t, n) == MarginalUpTo(income, t, m)
    decreases n
  {
    if n > m {
      TailZero(income, t, m, n - 1);
      var k := n - 1;
      BoundsOrdered(t, m, k);
      assert Cap(income, t.slabs[k + 1]) - t.slabs[k].amount <= 0;
      assert Part(income, t, k) == 0.0;
    }
  }

  /** Two incomes at or above the lower bound of slab m pay the same tax on
      the slabs below m. */
  lemma {:induction false} Saturated(x: int, y: int, t: Table, m: int, n: int)
    requires WellFormed(t) && 0 <= n <= m < |t.rates|
    requires x >= t.slabs[m].amount && y >= t.slabs[m].amount
    ensures MarginalUpTo(x, t, n) == MarginalUpTo(y, t, n)
    decreases n
  {
    if n > 0 {
      Saturated(x, y, t, m, n - 1);
      BoundsOrdered(t, n, m);
      assert Cap(x, t.slabs[n]) == Cap(y, t.slabs[n]);
    }
  }

  /** Inside slab k the marginal tax is the tax at the slab's lower bound
      plus the slab's rate on the excess. */
  lemma WithinSlab(income: int, t: Table, k: int)
    requires WellFormed(t) && 0 <= k < |t.rates|
    requires t.slabs[k].amount <= income && Within(income, t.slabs[k + 1])
    ensures MarginalTax(income, t)
         == MarginalTax(t.slabs[k].amount, t) + Percent(income - t.slabs[k].amount, t.rates[k])
  {
    var lo := t.slabs[k].amount;
    TailZero(income, t, k + 1, |t.rates|);
    Saturated(income, lo, t, k, k);
    TailZero(lo, t, k, |t.rates|);
    assert Cap(income, t.slabs[k + 1]) == income;
  }

  /** Income 0 owes no tax under any table. */
  lemma ZeroIncome(t: Table)
    requires WellFormed(t)
    ensures MarginalTax(0, t) == 0.0
  {
    TailZero(0, t, 0, |t.rates|);
  }

  /** No tax is due exactly when income stays inside a 0% first slab, when
      the second slab charges something. */
  lemma TaxFreeBand(income: int, t: Table)
    requires WellFormed(t) && 2 <= |t.rates| && t.rates[0] == 0 && 0 < t.rates[1]
    requires 0 <= income
    ensures MarginalTax(income, t) == 0.0 <==> income <= t.slabs[1].amount
  {
    if income <= t.slabs[1].amount {
      TailZero(income, t, 1, |t.rates|);
    } else {
      var d := Clamp0(Cap(income, t.slabs[2]) - t.slabs[1].amount);
      assert d >= 1;
      PercentMonotone(1, d, t.rates[1]);
      PartsAccumulate(income, t, 2, |t.rates|);
    }
  }

  /** Adding slabs never lowers the tax. */
  lemma {:induction false} PartsAccumulate(income: int, t: Table, m: int, n: int)
    requires WellFormed(t) && 0 <= m <= n <= |t.rates|
    ensures MarginalUpTo(income, t, m) <= MarginalUpTo(income, t, n)
    decreases n
  {
    if n > m {
      PartsAccumulate(income, t, m, n - 1);
    }
  }

  // ---------------------------------------------------------------------
  // Monotonicity and continuity

  lemma {:induction false} MonotoneUpTo(x: int, y: int, t: Table, n: int)
    requires WellFormed(t) && 0 <= n <= |t.rates| && x <= y
    ensures MarginalUpTo(x, t, n) <= MarginalUpTo(y, t, n)
    decreases n
  {
    if n > 0 {
      MonotoneUpTo(x, y, t, n - 1);
      var k := n - 1;
      PercentMonotone(Clamp0(Cap(x, t.slabs[n]) - t.slabs[k].amount),
                      Clamp0(Cap(y, t.slabs[n]) - t.slabs[k].amount), t.rates[k]);
    }
  }

  /** Marginal tax is non-decreasing in income. */
  lemma Monotone(x: int, y: int, t: Table)
    requires WellFormed(t) && x <= y
    ensures MarginalTax(x, t) <= MarginalTax(y, t)
  {
    MonotoneUpTo(x, y, t, |t.rates|);
  }

  /** The part of x below bound k + 1 is the part below bound k plus the
      part inside slab k. */
  lemma CapSplit(x: int, t: Table, k: int)
    requires WellFormed(t) && 0 <= k < |t.rates|
    ensures Cap(x, t.slabs[k + 1]) == Cap(x, t.slabs[k]) + Clamp0(Cap(x, t.slabs[k + 1]) - t.slabs[k].amount)
  {
    if k + 1 < |t.rates| {
      BoundsOrdered(t, k, k + 1);
    }
  }

  lemma PercentDiffBound(a: int, b: int, r: int, p: int)
    requires a <= b && 0 <= r <= p
    ensures Percent(b, r) - Percent(a, r) <= Percent(b - a, p)
  {
    assert b * r - a * r == (b - a) * r;
    PercentRateMonotone(b - a, r, p);
  }

  lemma {:induction false} LipschitzUpTo(x: int, y: int, t: Table, p: int, n: int)
    requires WellFormed(t) && 0 <= n <= |t.rates| && 0 <= x <= y
    requires forall k :: 0 <= k < |t.rates| ==> t.rates[k] <= p
    ensures MarginalUpTo(y, t, n) - MarginalUpTo(x, t, n)
         <= Percent(Cap(y, t.slabs[n]) - Cap(x, t.slabs[n]), p)
    decreases n
  {
    if n > 0 {
      var k := n - 1;
      LipschitzUpTo(x, y, t, p, k);
      var v := t.slabs[k].amount;
      var a := Clamp0(Cap(x, t.slabs[n]) - v);
      var b := Clamp0(Cap(y, t.slabs[n]) - v);
      CapSplit(x, t, k);
      CapSplit(y, t, k);
      assert a <= b;
      PercentDiffBound(a, b, t.rates[k], p);
      PercentAdd(Cap(y, t.slabs[k]) - Cap(x, t.slabs[k]), b - a, p);
    }
  }

  /** No jump anywhere: when every rate is at most p percent, raising the
      income from x to y raises the tax by at most p percent of y - x. */
  lemma NoJump(x: int, y: int, t: Table, p: int)
    requires WellFormed(t) && 0 <= x <= y
    requires forall k :: 0 <= k < |t.rates| ==> t.rates[k] <= p
    ensures MarginalTax(y, t) - MarginalTax(x, t) <= Percent(y - x, p)
  {
    LipschitzUpTo(x, y, t, p, |t.rates|);
  }

  // ---------------------------------------------------------------------
  // The plain marginal loop

  /** The loop of the salaried and business slab functions: walk the slabs,
      add min(income, upper) - lower at the slab's rate, stop once income is
      within the upper bound. The rate is read through the slab functions'
      `min(i - 1, len(rates) - 1)` guard; the contract, stated with
      `rates[k]` directly, shows the guard never changes the index. Negative
      income is taxed at the first rate and stops in the first slab. */
  method MarginalLoop(income: int, t: Table) returns (tax: real)
    requires WellFormed(t)
    ensures 0 <= income ==> tax == MarginalTax(income, t)
    ensures income < 0 ==> tax == Percent(income, t.rates[0])
  {
    var slabs, rates := t.slabs, t.rates;
    tax := 0.0;
    for i := 1 to |slabs|
      invariant 0 <= income ==> tax == MarginalUpTo(income, t, i - 1)
      invariant 1 < i < |slabs| ==> income > slabs[i - 1].amount
      invariant income < 0 ==> i == 1 && tax == 0.0
    {
      var slabDiff := Cap(income, slabs[i]) - slabs[i - 1].amount;
      var k := if i - 1 < |rates| - 1 then i - 1 else |rates| - 1;
      tax := tax + Percent(slabDiff, rates[k]);
      if Within(income, slabs[i]) {
        if 0 <= income {
          TailZero(income, t, i, |rates|);
        }
        break;
      }
    }
  }

  // ---------------------------------------------------------------------
  // The fixed-amount loop

  predicate FixedFits(t: Table, fixed: seq<int>)
  {
    WellFormed(t) && |fixed| == |t.rates|
  }

  /** Slab k is visited by a loop that stops once income is within a slab's
      upper bound: the first slab always, a later one when income exceeds
      its lower bound. */
  predicate Visited(income: int, t: Table, k: int)
    requires WellFormed(t) && 0 <= k < |t.rates|
  {
    k == 0 || income > t.slabs[k].amount
  }

  /** The sum of the fixed amounts of the visited slabs among the first n. */
  function VisitedFixedUpTo(income: int, t: Table, fixed: seq<int>, n: int): int
    requires FixedFits(t, fixed) && 0 <= n <= |t.rates|
    decreases n
  {
    if n == 0 then 0
    else VisitedFixedUpTo(income, t, fixed, n - 1) + (if Visited(income, t, n - 1) then fixed[n - 1] else 0)
  }

  function VisitedFixed(income: int, t: Table, fixed: seq<int>): int
    requires FixedFits(t, fixed)
  {
    VisitedFixedUpTo(income, t, fixed, |t.rates|)
  }

  lemma {:induction false} FixedTail(income: int, t: Table, fixed: seq<int>, m: int, n: int)
    requires FixedFits(t, fixed) && 1 <= m <= n <= |t.rates|
    requires Within(income, t.slabs[m])
    ensures VisitedFixedUpTo(income, t, fixed, n) == VisitedFixedUpTo(income, t, fixed, m)
    decreases n
  {
    if n > m {
      FixedTail(income, t, fixed, m, n - 1);
      BoundsOrdered(t, m, n - 1);
    }
  }

  /** The loop of the senior-citizen slab functions: the plain walk, except
      that every visited slab also adds its fixed amount. It computes the
      marginal tax PLUS the fixed amounts of all visited slabs. */
  method FixedAmountLoop(income: int, t: Table, fixed: seq<int>) returns (tax: real)
    requires FixedFits(t, fixed)
    ensures 0 <= income ==> tax == MarginalTax(income, t) + VisitedFixed(income, t, fixed) as real
    ensures income < 0 ==> tax == fixed[0] as real + Percent(income, t.rates[0])
  {
    var slabs, rates := t.slabs, t.rates;
    tax := 0.0;
    for i := 1 to |slabs|
      invariant 0 <= income ==>
        tax == MarginalUpTo(income, t, i - 1) + VisitedFixedUpTo(income, t, fixed, i - 1) as real
      invariant 1 < i < |slabs| ==> income > slabs[i - 1].amount
      invariant income < 0 ==> i == 1 && tax == 0.0
    {
      var slabDiff := Cap(income, slabs[i]) - slabs[i - 1].amount;
      tax := tax + (fixed[i - 1] as real + Percent(slabDiff, rates[i - 1]));
      if Within(income, slabs[i]) {
        if 0 <= income {
          TailZero(income, t, i, |rates|);
          if i < |rates| {
            FixedTail(income, t, fixed, i, |rates|);
          }
        }
        break;
      }
    }
  }

  /** fixed[k] is the marginal tax owed at slab k's lower bound. */
  predicate Cumulative(t: Table, fixed: seq<int>)
    requires FixedFits(t, fixed)
  {
    forall k :: 0 <= k < |fixed| ==> fixed[k] as real == MarginalTax(t.slabs[k].amount, t)
  }

  lemma {:induction false} VisitedFixedMonotoneUpTo(x: int, y: int, t: Table, fixed: seq<int>, n: int)
    requires FixedFits(t, fixed) && 0 <= n <= |t.rates| && x <= y
    requires forall k :: 0 <= k < |fixed| ==> 0 <= fixed[k]
    ensures VisitedFixedUpTo(x, t, fixed, n) <= VisitedFixedUpTo(y, t, fixed, n)
    decreases n
  {
    if n > 0 {
      VisitedFixedMonotoneUpTo(x, y, t, fixed, n - 1);
    }
  }

  /** With non-negative fixed amounts the fixed-amount loop is
      non-decreasing in income. */
  lemma FixedLoopMonotone(x: int, y: int, t: Table, fixed: seq<int>)
    requires FixedFits(t, fixed) && x <= y
    requires forall k :: 0 <= k < |fixed| ==> 0 <= fixed[k]
    ensures MarginalTax(x, t) + VisitedFixed(x, t, fixed) as real
         <= MarginalTax(y, t) + VisitedFixed(y, t, fixed) as real
  {
    Monotone(x, y, t);
    VisitedFixedMonotoneUpTo(x, y, t, fixed, |t.rates|);
  }

  lemma {:induction false} VisitedFixedStep(t: Table, fixed: seq<int>, k: int, n: int)
    requires FixedFits(t, fixed) && 1 <= k < |t.rates| && 0 <= n <= |t.rates|
    ensures VisitedFixedUpTo(t.slabs[k].amount + 1, t, fixed, n)
         == VisitedFixedUpTo(t.slabs[k].amount, t, fixed, n) + (if k < n then fixed[k] else 0)
    decreases n
  {
    if n > 0 {
      VisitedFixedStep(t, fixed, k, n - 1);
      var j := n - 1;
      if 1 <= j < k {
        BoundsOrdered(t, j, k);
      } else if k < j {
        BoundsOrdered(t, k, j);
      }
    }
  }

  /** The fixed-amount loop is discontinuous: one rupee past the lower bound
      of slab k (k >= 1) its result jumps by the whole fixed amount of slab
      k on top of the rupee's marginal tax. */
  lemma FixedLoopJump(t: Table, fixed: seq<int>, k: int)
    requires FixedFits(t, fixed) && 1 <= k < |t.rates|
    ensures var lo := t.slabs[k].amount;
      (MarginalTax(lo + 1, t) + VisitedFixed(lo + 1, t, fixed) as real)
      - (MarginalTax(lo, t) + VisitedFixed(lo, t, fixed) as real)
      == fixed[k] as real + Percent(1, t.rates[k])
  {
    var lo := t.slabs[k].amount;
    BoundsOrdered(t, 0, k);
    if k + 1 < |t.rates| {
      BoundsOrdered(t, k, k + 1);
    }
    WithinSlab(lo + 1, t, k);
    VisitedFixedStep(t, fixed, k, |t.rates|);
  }

  // ---------------------------------------------------------------------
  // The fixed-plus-remainder formula a cumulative table is meant for

  /** The index of the slab that contains `income`, searching from slab k. */
  function ContainingSlab(income: int, t: Table, k: int): (r: int)
    requires WellFormed(t) && 0 <= k < |t.rates|
    requires k == 0 || income > t.slabs[k].amount
    ensures k <= r < |t.rates|
    ensures r == 0 || income > t.slabs[r].amount
    ensures Within(income, t.slabs[r + 1])
    decreases |t.rates| - k
  {
    if Within(income, t.slabs[k + 1]) then k
    else ContainingSlab(income, t, k + 1)
  }

  /** The fixed amount of the containing slab plus that slab's rate on the
      income above its lower bound. */
  function FixedPlusRemainder(income: int, t: Table, fixed: seq<int>): real
    requires FixedFits(t, fixed)
  {
    var k := ContainingSlab(income, t, 0);
    fixed[k] as real + Percent(income - t.slabs[k].amount, t.rates[k])
  }

  /** On a cumulative table the fixed-plus-remainder formula and the
      marginal walk agree for every non-negative income. */
  lemma FixedPlusRemainderIsMarginal(income: int, t: Table, fixed: seq<int>)
    requires FixedFits(t, fixed) && Cumulative(t, fixed) && 0 <= income
    ensures FixedPlusRemainder(income, t, fixed) == MarginalTax(income, t)
  {
    var k := ContainingSlab(income, t, 0);
    WithinSlab(income, t, k);
  }
}
