/** The Hindu Undivided Family page: a single `calculate_tax` whose two slab
    loops walk `zip(slab_amounts, tax_rates)` and add, per slab,
    max(min(income, slab) - max(slab - width, 0), 0) * rate, where width is
    `slab_amounts[0]` (250,000) in the old regime and the literal 250,000 in
    the new one. There is no 0% slab, and since the old slabs are not
    250,000 wide the old loop leaves gaps. */
module HufTax {
  import opened Slabs
  import opened Assessment

  const OldSlabAmounts: seq<int> := [250000, 500000, 1000000]
  const OldTaxRates: seq<int> := [5, 20, 30]
  const NewSlabAmounts: seq<int> := [250000, 500000, 750000, 1000000, 1250000, 1500000]
  const NewTaxRates: seq<int> := [5, 10, 15, 20, 25, 30]

  function Min(a: int, b: int): int
  {
    if a < b then a else b
  }

  /** One term of the loop: the income between slab - width and slab, at
      the slab's rate. */
  function ClampTerm(income: int, slab: int, width: int, rate: int): real
  {
    Percent(Clamp0(Min(income, slab) - Clamp0(slab - width)), rate)
  }

  /** The first n terms of the loop; never negative when the rates are not. */
  function ClampSum(income: int, amounts: seq<int>, rates: seq<int>, width: int, n: int): (r: real)
    requires 0 <= n <= |amounts| && n <= |rates|
    ensures (forall k :: 0 <= k < n ==> 0 <= rates[k]) ==> 0.0 <= r
    decreases n
  {
    if n == 0 then 0.0
    else
      ClampTermSign(income, amounts[n - 1], width, rates[n - 1]);
      ClampSum(income, amounts, rates, width, n - 1) + ClampTerm(income, amounts[n - 1], width, rates[n - 1])
  }

  lemma ClampTermSign(income: int, slab: int, width: int, rate: int)
    ensures 0 <= rate ==> 0.0 <= ClampTerm(income, slab, width, rate)
  {
    if 0 <= rate {
      PercentMonotone(0, Clamp0(Min(income, slab) - Clamp0(slab - width)), rate);
    }
  }

  /** The gross tax `calculate_tax` computes before cess: the old loop for
      the exact string 'Old Tax Regime', the new loop for any other. */
  function GrossTax(taxRegime: string, income: int): (r: real)
    ensures 0.0 <= r
  {
    if taxRegime == "Old Tax Regime" then ClampSum(income, OldSlabAmounts, OldTaxRates, OldSlabAmounts[0], 3)
    else ClampSum(income, NewSlabAmounts, NewTaxRates, 250000, 6)
  }

  /** The seven validated inputs, in the order of the source's list. */
  function Validated(business: int, houseProperty: int, capitalGains: int, otherIncome: int,
                     totalDeductions: int, tds: int, advanceTax: int): seq<int>
  {
    [business, houseProperty, capitalGains, otherIncome, totalDeductions, tds, advanceTax]
  }

  method CalculateTax(taxRegime: string,
                      business: int, houseProperty: int, capitalGains: int, otherIncome: int,
                      totalDeductions: int, tds: int, advanceTax: int) returns (r: Result)
    ensures var ok := AllNonNegative(Validated(business, houseProperty, capitalGains, otherIncome,
                                               totalDeductions, tds, advanceTax));
            var income := business + houseProperty + capitalGains + otherIncome;
            && (!ok ==> r == Err(NegativeInput))
            && (ok && income < totalDeductions ==> r == Err(NegativeTaxableIncome))
            && (r.Ok? <==> ok && totalDeductions <= income)
            && (r.Ok? ==>
                  && r.summary.totalIncome == income
                  && r.summary.totalDeductions == totalDeductions
                  && r.summary.taxableIncome == income - totalDeductions
                  && r.summary.netTaxPayable
                     == GrossTax(taxRegime, income - totalDeductions) * 1.04 - (tds + advanceTax) as real)
  {
    var inputs := Validated(business, houseProperty, capitalGains, otherIncome, totalDeductions, tds, advanceTax);
    if !AllNonNegative(inputs) {
      return Err(NegativeInput);
    }
    var totalIncome := business + houseProperty + capitalGains + otherIncome;
    var taxableIncome := totalIncome - totalDeductions;
    if taxableIncome < 0 {
      return Err(NegativeTaxableIncome);
    }
    var tax := 0.0;
    if taxRegime == "Old Tax Regime" {
      var slabAmounts, taxRates := OldSlabAmounts, OldTaxRates;
      for k := 0 to Min(|slabAmounts|, |taxRates|)
        invariant tax == ClampSum(taxableIncome, slabAmounts, taxRates, slabAmounts[0], k)
      {
        var slab, rate := slabAmounts[k], taxRates[k];
        tax := tax + Percent(Clamp0(Min(taxableIncome, slab) - Clamp0(slab - slabAmounts[0])), rate);
      }
    } else {
      var slabAmounts, taxRates := NewSlabAmounts, NewTaxRates;
      for k := 0 to Min(|slabAmounts|, |taxRates|)
        invariant tax == ClampSum(taxableIncome, slabAmounts, taxRates, 250000, k)
      {
        var slab, rate := slabAmounts[k], taxRates[k];
        tax := tax + Percent(Clamp0(Min(taxableIncome, slab) - Clamp0(slab - 250000)), rate);
      }
    }
    var net := NetPayable(tax, tds, advanceTax);
    r := Ok(Summary(net, totalIncome, totalDeductions, taxableIncome));
  }

  // ---------------------------------------------------------------------
  // The loops as marginal tables with 0% gaps

  /** The old loop's effective table: 5% on 0 to 250,000, 20% on 250,000 to
      500,000, nothing on 500,000 to 750,000, 30% on 750,000 to 1,000,000
      and nothing above. */
  function OldEffectiveTable(): Table
  {
    Table([At(0), At(250000), At(500000), At(750000), At(1000000), Inf], [5, 20, 0, 30, 0])
  }

  /** The new loop's effective table: six 250,000-wide slabs at 5% to 30%
      and nothing above 1,500,000. */
  function NewEffectiveTable(): Table
  {
    Table([At(0), At(250000), At(500000), At(750000), At(1000000), At(1250000), At(1500000), Inf],
          [5, 10, 15, 20, 25, 30, 0])
  }

  lemma EffectiveTablesWellFormed()
    ensures WellFormed(OldEffectiveTable()) && WellFormed(NewEffectiveTable())
  {
  }

  /** The old loop computes the marginal tax of its effective table, for
      every income. */
  lemma OldLoopIsMarginal(income: int)
    ensures WellFormed(OldEffectiveTable())
    ensures GrossTax("Old Tax Regime", income) == MarginalTax(income, OldEffectiveTable())
  {
    EffectiveTablesWellFormed();
  }

  /** The new loop computes the marginal tax of its effective table, for
      every income. */
  lemma NewLoopIsMarginal(taxRegime: string, income: int)
    requires taxRegime != "Old Tax Regime"
    ensures WellFormed(NewEffectiveTable())
    ensures GrossTax(taxRegime, income) == MarginalTax(income, NewEffectiveTable())
  {
    EffectiveTablesWellFormed();
    var t := NewEffectiveTable();
    assert MarginalUpTo(income, t, 2) == Part(income, t, 0) + Part(income, t, 1);
    assert MarginalUpTo(income, t, 4) == MarginalUpTo(income, t, 2) + Part(income, t, 2) + Part(income, t, 3);
    assert MarginalUpTo(income, t, 6) == MarginalUpTo(income, t, 4) + Part(income, t, 4) + Part(income, t, 5);
    assert MarginalTax(income, t) == MarginalUpTo(income, t, 6) + Part(income, t, 6);
    assert Part(income, t, 6) == 0.0;
  }

  // ---------------------------------------------------------------------
  // Properties

  /** Either regime: gross tax is never negative and never falls as income
      rises. */
  lemma GrossMonotone(taxRegime: string, x: int, y: int)
    requires x <= y
    ensures 0.0 <= GrossTax(taxRegime, x) <= GrossTax(taxRegime, y)
  {
    EffectiveTablesWellFormed();
    if taxRegime == "Old Tax Regime" {
      OldLoopIsMarginal(x);
      OldLoopIsMarginal(y);
      Monotone(x, y, OldEffectiveTable());
    } else {
      NewLoopIsMarginal(taxRegime, x);
      NewLoopIsMarginal(taxRegime, y);
      Monotone(x, y, NewEffectiveTable());
    }
  }

  /** There is no 0% slab: up to 250,000 both regimes charge 5% from the
      first rupee, so 250,000 owes 12,500. */
  lemma FivePercentFromFirstRupee(taxRegime: string, income: int)
    requires 0 <= income <= 250000
    ensures GrossTax(taxRegime, income) == Percent(income, 5)
    ensures GrossTax(taxRegime, 250000) == 12500.0
  {
    EffectiveTablesWellFormed();
    if taxRegime == "Old Tax Regime" {
      FirstSlab(OldEffectiveTable(), income);
      OldLoopIsMarginal(income);
      OldLoopIsMarginal(250000);
    } else {
      FirstSlab(NewEffectiveTable(), income);
      NewLoopIsMarginal(taxRegime, income);
      NewLoopIsMarginal(taxRegime, 250000);
    }
  }

  lemma FirstSlab(t: Table, income: int)
    requires WellFormed(t) && 2 <= |t.slabs| && t.slabs[1] == At(250000) && 0 <= income <= 250000
    ensures MarginalTax(income, t) == Percent(income, t.rates[0])
    ensures MarginalTax(250000, t) == Percent(250000, t.rates[0])
  {
    ZeroIncome(t);
    WithinSlab(income, t, 0);
    WithinSlab(250000, t, 0);
  }

  /** The old regime is flat at 62,500 from 500,000 to 750,000 and at
      137,500 from 1,000,000 on. */
  lemma OldRegimePlateaus(income: int)
    ensures 500000 <= income <= 750000 ==> GrossTax("Old Tax Regime", income) == 62500.0
    ensures 1000000 <= income ==> GrossTax("Old Tax Regime", income) == 137500.0
  {
    var t := OldEffectiveTable();
    EffectiveTablesWellFormed();
    OldLoopIsMarginal(income);
    ZeroIncome(t);
    WithinSlab(250000, t, 0);
    WithinSlab(500000, t, 1);
    if 500000 <= income <= 750000 {
      WithinSlab(income, t, 2);
    }
    if 1000000 <= income {
      WithinSlab(750000, t, 2);
      WithinSlab(1000000, t, 3);
      WithinSlab(income, t, 4);
    }
  }

  /** The new regime never exceeds 262,500 and reaches it from 1,500,000 on. */
  lemma NewRegimeCeiling(taxRegime: string, income: int)
    requires taxRegime != "Old Tax Regime"
    ensures GrossTax(taxRegime, income) <= 262500.0
    ensures 1500000 <= income ==> GrossTax(taxRegime, income) == 262500.0
  {
    var t := NewEffectiveTable();
    EffectiveTablesWellFormed();
    NewLoopIsMarginal(taxRegime, income);
    NewLoopIsMarginal(taxRegime, 1500000);
    ZeroIncome(t);
    WithinSlab(250000, t, 0);
    WithinSlab(500000, t, 1);
    WithinSlab(750000, t, 2);
    WithinSlab(1000000, t, 3);
    WithinSlab(1250000, t, 4);
    WithinSlab(1500000, t, 5);
    if 1500000 <= income {
      WithinSlab(income, t, 6);
    } else {
      Monotone(income, 1500000, t);
    }
  }

  /** The regime test is on 'Old Tax Regime': every other string, including
      a misspelt one, takes the new branch. */
  lemma OtherRegimeStringsAreNew(taxRegime: string, income: int)
    requires taxRegime != "Old Tax Regime"
    ensures GrossTax(taxRegime, income) == GrossTax("New Tax Regime", income)
  {
  }
}
