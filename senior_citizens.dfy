/** The senior and super-senior citizen page: four slab functions that walk
    their tables with the fixed-amount loop, and `calculate_tax`, which
    dispatches on age below 80 and on the regime string.

    Each table carries a correct cumulative column (`fixed_amounts[k]` is
    the marginal tax owed at `slabs[k]`), but the loop adds that column on
    EVERY visited slab on top of the marginal portions, so what it returns
    is the marginal tax plus the fixed amounts of all visited slabs. */
module SeniorCitizens {
  import opened Slabs
  import opened Assessment

  // ---------------------------------------------------------------------
  // Tables

  function SeniorOldTable(): Table
  {
    Table([At(0), At(300000), At(500000), At(1000000), Inf], [0, 5, 20, 30])
  }

  function SeniorOldFixed(): seq<int>
  {
    [0, 0, 10000, 110000]
  }

  function SeniorNewTable(): Table
  {
    Table([At(0), At(250000), At(500000), At(750000), At(1000000), At(1250000), At(1500000), Inf],
          [0, 5, 10, 15, 20, 25, 30])
  }

  function SeniorNewFixed(): seq<int>
  {
    [0, 0, 12500, 37500, 75000, 125000, 187500]
  }

  function SuperSeniorOldTable(): Table
  {
    Table([At(0), At(500000), At(1000000), Inf], [0, 20, 30])
  }

  function SuperSeniorOldFixed(): seq<int>
  {
    [0, 0, 100000]
  }

  function SuperSeniorNewTable(): Table
  {
    Table([At(0), At(250000), At(500000), At(750000), At(1000000), At(1250000), At(1500000), Inf],
          [0, 5, 10, 15, 20, 25, 30])
  }

  function SuperSeniorNewFixed(): seq<int>
  {
    [0, 0, 12500, 37500, 75000, 125000, 187500]
  }

  /** `rates` and `fixed_amounts` have one entry per slab, so every index
      the loop uses is in range. */
  lemma TablesFit()
    ensures FixedFits(SeniorOldTable(), SeniorOldFixed())
    ensures FixedFits(SeniorNewTable(), SeniorNewFixed())
    ensures FixedFits(SuperSeniorOldTable(), SuperSeniorOldFixed())
    ensures FixedFits(SuperSeniorNewTable(), SuperSeniorNewFixed())
  {
  }

  /** The table and fixed column `calculate_tax` picks: below 80 the senior
      tables, otherwise the super-senior ones; the exact string
      'New Tax Regime' picks new, any other string old. */
  function SelectedTable(age: int, taxRegime: string): (t: Table)
    ensures WellFormed(t)
  {
    TablesFit();
    if age < 80 then
      if taxRegime == "New Tax Regime" then SeniorNewTable() else SeniorOldTable()
    else
      if taxRegime == "New Tax Regime" then SuperSeniorNewTable() else SuperSeniorOldTable()
  }

  function SelectedFixed(age: int, taxRegime: string): (f: seq<int>)
    ensures FixedFits(SelectedTable(age, taxRegime), f)
  {
    TablesFit();
    if age < 80 then
      if taxRegime == "New Tax Regime" then SeniorNewFixed() else SeniorOldFixed()
    else
      if taxRegime == "New Tax Regime" then SuperSeniorNewFixed() else SuperSeniorOldFixed()
  }

  /** What the fixed-amount loop returns for a non-negative income: the
      marginal tax plus the fixed amounts of every visited slab. */
  function LoopTax(income: int, t: Table, fixed: seq<int>): real
    requires FixedFits(t, fixed)
  {
    MarginalTax(income, t) + VisitedFixed(income, t, fixed) as real
  }

  // ---------------------------------------------------------------------
  // Slab functions (the `age` parameter is accepted and never read)

  method SeniorCitizenOldTaxRegime(taxableIncome: int, age: int) returns (tax: real)
    ensures 0 <= taxableIncome ==> tax == LoopTax(taxableIncome, SeniorOldTable(), SeniorOldFixed())
    ensures taxableIncome < 0 ==> tax == 0.0
  {
    TablesFit();
    tax := FixedAmountLoop(taxableIncome, SeniorOldTable(), SeniorOldFixed());
  }

  method SeniorCitizenNewTaxRegime(taxableIncome: int, age: int) returns (tax: real)
    ensures 0 <= taxableIncome ==> tax == LoopTax(taxableIncome, SeniorNewTable(), SeniorNewFixed())
    ensures taxableIncome < 0 ==> tax == 0.0
  {
    TablesFit();
    tax := FixedAmountLoop(taxableIncome, SeniorNewTable(), SeniorNewFixed());
  }

  method SuperSeniorCitizenOldTaxRegime(taxableIncome: int, age: int) returns (tax: real)
    ensures 0 <= taxableIncome ==> tax == LoopTax(taxableIncome, SuperSeniorOldTable(), SuperSeniorOldFixed())
    ensures taxableIncome < 0 ==> tax == 0.0
  {
    TablesFit();
    tax := FixedAmountLoop(taxableIncome, SuperSeniorOldTable(), SuperSeniorOldFixed());
  }

  method SuperSeniorCitizenNewTaxRegime(taxableIncome: int, age: int) returns (tax: real)
    ensures 0 <= taxableIncome ==> tax == LoopTax(taxableIncome, SuperSeniorNewTable(), SuperSeniorNewFixed())
    ensures taxableIncome < 0 ==> tax == 0.0
  {
    TablesFit();
    tax := FixedAmountLoop(taxableIncome, SuperSeniorNewTable(), SuperSeniorNewFixed());
  }

  // ---------------------------------------------------------------------
  // calculate_tax

  /** The eight validated inputs, in the order of the source's list. */
  function Validated(age: int, pension: int, houseProperty: int, capitalGains: int, otherIncome: int,
                     totalDeductions: int, tds: int, advanceTax: int): seq<int>
  {
    [age, pension, houseProperty, capitalGains, otherIncome, totalDeductions, tds, advanceTax]
  }

  method CalculateTax(age: int, taxRegime: string,
                      pension: int, houseProperty: int, capitalGains: int, otherIncome: int,
                      totalDeductions: int, tds: int, advanceTax: int) returns (r: Result)
    ensures var ok := AllNonNegative(Validated(age, pension, houseProperty, capitalGains, otherIncome,
                                               totalDeductions, tds, advanceTax));
            var income := pension + houseProperty + capitalGains + otherIncome;
            && (!ok ==> r == Err(NegativeInput))
            && (ok && income < totalDeductions ==> r == Err(NegativeTaxableIncome))
            && (r.Ok? <==> ok && totalDeductions <= income)
            && (r.Ok? ==>
                  && r.summary.totalIncome == income
                  && r.summary.totalDeductions == totalDeductions
                  && r.summary.taxableIncome == income - totalDeductions
                  && r.summary.netTaxPayable
                     == LoopTax(income - totalDeductions, SelectedTable(age, taxRegime), SelectedFixed(age, taxRegime)) * 1.04
                        - (tds + advanceTax) as real)
  {
    var inputs := Validated(age, pension, houseProperty, capitalGains, otherIncome, totalDeductions, tds, advanceTax);
    if !AllNonNegative(inputs) {
      return Err(NegativeInput);
    }
    var totalIncome := pension + houseProperty + capitalGains + otherIncome;
    var taxableIncome := totalIncome - totalDeductions;
    if taxableIncome < 0 {
      return Err(NegativeTaxableIncome);
    }
    var tax: real;
    if age < 80 {
      if taxRegime == "New Tax Regime" {
        tax := SeniorCitizenNewTaxRegime(taxableIncome, age);
      } else {
        tax := SeniorCitizenOldTaxRegime(taxableIncome, age);
      }
    } else {
      if taxRegime == "New Tax Regime" {
        tax := SuperSeniorCitizenNewTaxRegime(taxableIncome, age);
      } else {
        tax := SuperSeniorCitizenOldTaxRegime(taxableIncome, age);
      }
    }
    var net := NetPayable(tax, tds, advanceTax);
    r := Ok(Summary(net, totalIncome, totalDeductions, taxableIncome));
  }

  // ---------------------------------------------------------------------
  // Properties

  /** The fixed columns are correct cumulative tables: fixed_amounts[k] is
      the marginal tax at slabs[k] (10,000 at 500,000 and 110,000 at
      1,000,000 in the senior old table, and so on). */
  lemma FixedColumnsCumulative()
    ensures Cumulative(SeniorOldTable(), SeniorOldFixed())
    ensures Cumulative(SeniorNewTable(), SeniorNewFixed())
    ensures Cumulative(SuperSeniorOldTable(), SuperSeniorOldFixed())
    ensures Cumulative(SuperSeniorNewTable(), SuperSeniorNewFixed())
  {
    SeniorOldCumulative();
    SeniorNewCumulative();
    SuperSeniorOldCumulative();
  }

  lemma SeniorOldCumulative()
    ensures FixedFits(SeniorOldTable(), SeniorOldFixed())
    ensures Cumulative(SeniorOldTable(), SeniorOldFixed())
  {
    TablesFit();
    var t := SeniorOldTable();
    ZeroIncome(t);
    TaxFreeBand(300000, t);
    WithinSlab(500000, t, 1);
    WithinSlab(1000000, t, 2);
  }

  lemma SeniorNewCumulative()
    ensures FixedFits(SeniorNewTable(), SeniorNewFixed())
    ensures Cumulative(SeniorNewTable(), SeniorNewFixed())
  {
    TablesFit();
    var t := SeniorNewTable();
    ZeroIncome(t);
    TaxFreeBand(250000, t);
    WithinSlab(500000, t, 1);
    WithinSlab(750000, t, 2);
    WithinSlab(1000000, t, 3);
    WithinSlab(1250000, t, 4);
    WithinSlab(1500000, t, 5);
  }

  lemma SuperSeniorOldCumulative()
    ensures FixedFits(SuperSeniorOldTable(), SuperSeniorOldFixed())
    ensures Cumulative(SuperSeniorOldTable(), SuperSeniorOldFixed())
  {
    TablesFit();
    var t := SuperSeniorOldTable();
    ZeroIncome(t);
    TaxFreeBand(500000, t);
    WithinSlab(1000000, t, 1);
  }

  /** Fixed columns that start with two zeros and are never negative: the
      shape the four tables share. */
  predicate ZeroHeaded(fixed: seq<int>)
  {
    && 3 <= |fixed| && fixed[0] == 0 && fixed[1] == 0 && 0 < fixed[2]
    && forall k :: 0 <= k < |fixed| ==> 0 <= fixed[k]
  }

  lemma {:induction false} VisitedFixedBelow(income: int, t: Table, fixed: seq<int>, n: int)
    requires FixedFits(t, fixed) && ZeroHeaded(fixed) && 0 <= n <= 2
    ensures VisitedFixedUpTo(income, t, fixed, n) == 0
    decreases n
  {
    if n > 0 {
      VisitedFixedBelow(income, t, fixed, n - 1);
    }
  }

  lemma {:induction false} VisitedFixedAbove(income: int, t: Table, fixed: seq<int>, k: int, n: int)
    requires FixedFits(t, fixed) && 0 <= k < n <= |t.rates|
    requires forall j :: 0 <= j < |fixed| ==> 0 <= fixed[j]
    requires Visited(income, t, k)
    ensures fixed[k] <= VisitedFixedUpTo(income, t, fixed, n)
    decreases n
  {
    if k < n - 1 {
      VisitedFixedAbove(income, t, fixed, k, n - 1);
    } else {
      VisitedFixedNonNegative(income, t, fixed, n - 1);
    }
  }

  lemma {:induction false} VisitedFixedNonNegative(income: int, t: Table, fixed: seq<int>, n: int)
    requires FixedFits(t, fixed) && 0 <= n <= |t.rates|
    requires forall j :: 0 <= j < |fixed| ==> 0 <= fixed[j]
    ensures 0 <= VisitedFixedUpTo(income, t, fixed, n)
    decreases n
  {
    if n > 0 {
      VisitedFixedNonNegative(income, t, fixed, n - 1);
    }
  }

  /** The loop agrees with the marginal tax exactly up to the third slab
      bound; above it, it is higher by at least fixed_amounts[2]. */
  lemma LoopMatchesMarginalUpToThirdBound(income: int, t: Table, fixed: seq<int>)
    requires FixedFits(t, fixed) && ZeroHeaded(fixed) && 0 <= income
    ensures LoopTax(income, t, fixed) == MarginalTax(income, t) <==> income <= t.slabs[2].amount
    ensures t.slabs[2].amount < income ==> LoopTax(income, t, fixed) >= MarginalTax(income, t) + fixed[2] as real
  {
    if income <= t.slabs[2].amount {
      FixedTail(income, t, fixed, 2, |t.rates|);
      VisitedFixedBelow(income, t, fixed, 2);
    } else {
      VisitedFixedAbove(income, t, fixed, 2, |t.rates|);
    }
  }

  lemma TablesZeroHeaded()
    ensures ZeroHeaded(SeniorOldFixed()) && ZeroHeaded(SeniorNewFixed())
    ensures ZeroHeaded(SuperSeniorOldFixed()) && ZeroHeaded(SuperSeniorNewFixed())
  {
  }

  /** The third slab bound of the selected table: 1,000,000 for the super
      senior old table, 500,000 for the other three. */
  function DivergenceBound(age: int, taxRegime: string): int
  {
    if 80 <= age && taxRegime != "New Tax Regime" then 1000000 else 500000
  }

  /** For every selectable table: the loop equals the marginal tax exactly
      when income is at most the third slab bound, and it is non-decreasing
      in income, starting from 0 at income 0. */
  lemma SelectedLoopShape(age: int, taxRegime: string, x: int, y: int)
    requires 0 <= x <= y
    ensures var t, f := SelectedTable(age, taxRegime), SelectedFixed(age, taxRegime);
      && (LoopTax(x, t, f) == MarginalTax(x, t) <==> x <= DivergenceBound(age, taxRegime))
      && 0.0 <= LoopTax(x, t, f) <= LoopTax(y, t, f)
  {
    var t, f := SelectedTable(age, taxRegime), SelectedFixed(age, taxRegime);
    TablesZeroHeaded();
    LoopMatchesMarginalUpToThirdBound(x, t, f);
    LoopMatchesMarginalUpToThirdBound(0, t, f);
    ZeroIncome(t);
    FixedLoopMonotone(0, x, t, f);
    FixedLoopMonotone(x, y, t, f);
  }

  /** The loop jumps at the bounds where the fixed column is positive: one
      rupee past 500,000 the senior old result rises by 10,000.20, one rupee
      past 1,000,000 by 110,000.30. */
  lemma SeniorOldJumps()
    ensures LoopTax(500000, SeniorOldTable(), SeniorOldFixed()) == 10000.0
    ensures LoopTax(500001, SeniorOldTable(), SeniorOldFixed()) == 20000.20
    ensures LoopTax(1000001, SeniorOldTable(), SeniorOldFixed())
         - LoopTax(1000000, SeniorOldTable(), SeniorOldFixed()) == 110000.30
  {
    TablesFit();
    var t, f := SeniorOldTable(), SeniorOldFixed();
    FixedColumnsCumulative();
    assert MarginalTax(500000, t) == 10000.0;
    FixedLoopJump(t, f, 2);
    FixedLoopJump(t, f, 3);
    FixedTail(500000, t, f, 2, |t.rates|);
  }

  /** At 3,000,000 the loop returns 830,000 (senior, old), 800,000 (super
      senior, old) and 1,075,000 (new, both ages), where the marginal tax is
      710,000, 700,000 and 637,500. */
  lemma ThreeMillion()
    ensures LoopTax(3000000, SeniorOldTable(), SeniorOldFixed()) == 830000.0
    ensures MarginalTax(3000000, SeniorOldTable()) == 710000.0
    ensures LoopTax(3000000, SuperSeniorOldTable(), SuperSeniorOldFixed()) == 800000.0
    ensures MarginalTax(3000000, SuperSeniorOldTable()) == 700000.0
    ensures LoopTax(3000000, SeniorNewTable(), SeniorNewFixed()) == 1075000.0
    ensures MarginalTax(3000000, SeniorNewTable()) == 637500.0
  {
    TablesFit();
    FixedColumnsCumulative();
    var so, sn, uo := SeniorOldTable(), SeniorNewTable(), SuperSeniorOldTable();
    WithinSlab(3000000, so, 3);
    WithinSlab(3000000, sn, 6);
    WithinSlab(3000000, uo, 2);
  }

  /** The senior and super-senior new tables are the same table, so the two
      new-regime slab functions agree on every income. */
  lemma NewTablesIdentical()
    ensures SeniorNewTable() == SuperSeniorNewTable() && SeniorNewFixed() == SuperSeniorNewFixed()
  {
  }

  /** The fixed-plus-remainder formula the fixed columns were written for
      agrees with the marginal tax; at 3,000,000 it gives the 710,000 and
      700,000 of the learning manual. */
  function CorrectedTax(income: int, age: int, taxRegime: string): (r: real)
    requires 0 <= income
    ensures r == MarginalTax(income, SelectedTable(age, taxRegime))
  {
    FixedColumnsCumulative();
    FixedPlusRemainderIsMarginal(income, SelectedTable(age, taxRegime), SelectedFixed(age, taxRegime));
    FixedPlusRemainder(income, SelectedTable(age, taxRegime), SelectedFixed(age, taxRegime))
  }

  lemma CorrectedMatchesManual()
    ensures CorrectedTax(3000000, 65, "Old Tax Regime") == 710000.0
    ensures CorrectedTax(3000000, 82, "Old Tax Regime") == 700000.0
    ensures CorrectedTax(3000000, 65, "New Tax Regime") == 637500.0
  {
    ThreeMillion();
  }
}
