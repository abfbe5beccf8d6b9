/** The business and profession page: an old-regime slab function banded by
    age exactly like the salaried one, a new-regime slab function whose
    1,000,000 to 1,500,000 rate depends on age, and `calculate_tax`, which
    has no residency input. */
module BusinessProfession {
  import opened Slabs
  import opened Assessment
  import Salaried

  function OldBusinessTable(age: int): Table
  {
    if age < 60 then Table([At(0), At(250000), At(500000), At(1000000), Inf], [0, 5, 20, 30])
    else if age < 80 then Table([At(0), At(300000), At(500000), At(1000000), Inf], [0, 5, 20, 30])
    else Table([At(0), At(500000), At(1000000), Inf], [0, 20, 30])
  }

  function NewBusinessTable(age: int): Table
  {
    Table([At(0), At(250000), At(500000), At(750000), At(1000000), At(1500000), Inf],
          if age < 60 then [0, 5, 10, 15, 20, 30] else [0, 5, 10, 15, 30, 30])
  }

  lemma TablesWellFormed(age: int)
    ensures WellFormed(OldBusinessTable(age)) && WellFormed(NewBusinessTable(age))
  {
  }

  /** 'New Tax Regime' picks the new table, any other string the old one. */
  function SelectedTable(taxRegime: string, age: int): (t: Table)
    ensures WellFormed(t)
  {
    TablesWellFormed(age);
    if taxRegime == "New Tax Regime" then NewBusinessTable(age) else OldBusinessTable(age)
  }

  method OldTaxRegimeBusiness(taxableIncome: int, age: int) returns (tax: real)
    ensures 0 <= taxableIncome ==> tax == MarginalTax(taxableIncome, OldBusinessTable(age))
    ensures taxableIncome < 0 ==> tax == 0.0
  {
    TablesWellFormed(age);
    tax := MarginalLoop(taxableIncome, OldBusinessTable(age));
  }

  method NewTaxRegimeBusiness(taxableIncome: int, age: int) returns (tax: real)
    ensures 0 <= taxableIncome ==> tax == MarginalTax(taxableIncome, NewBusinessTable(age))
    ensures taxableIncome < 0 ==> tax == 0.0
  {
    TablesWellFormed(age);
    tax := MarginalLoop(taxableIncome, NewBusinessTable(age));
  }

  /** The ten validated inputs, in the order of the source's list. */
  function Validated(age: int, business: int, houseProperty: int, capitalGains: int, otherIncome: int,
                     deduction80c: int, deduction80d: int, deduction80g: int,
                     tds: int, advanceTax: int): seq<int>
  {
    [age, business, houseProperty, capitalGains, otherIncome, deduction80c, deduction80d, deduction80g, tds, advanceTax]
  }

  method CalculateTax(age: int, taxRegime: string,
                      business: int, houseProperty: int, capitalGains: int, otherIncome: int,
                      deduction80c: int, deduction80d: int, deduction80g: int,
                      tds: int, advanceTax: int) returns (r: Result)
    ensures var ok := AllNonNegative(Validated(age, business, houseProperty, capitalGains, otherIncome,
                                               deduction80c, deduction80d, deduction80g, tds, advanceTax));
            var income := business + houseProperty + capitalGains + otherIncome;
            var deductions := deduction80c + deduction80d + deduction80g;
            && (!ok ==> r == Err(NegativeInput))
            && (ok && income < deductions ==> r == Err(NegativeTaxableIncome))
            && (r.Ok? <==> ok && deductions <= income)
            && (r.Ok? ==>
                  && r.summary.totalIncome == income
                  && r.summary.totalDeductions == deductions
                  && r.summary.taxableIncome == income - deductions
                  && r.summary.netTaxPayable
                     == MarginalTax(income - deductions, SelectedTable(taxRegime, age)) * 1.04
                        - (tds + advanceTax) as real)
  {
    var inputs := Validated(age, business, houseProperty, capitalGains, otherIncome, deduction80c, deduction80d, deduction80g, tds, advanceTax);
    if !AllNonNegative(inputs) {
      return Err(NegativeInput);
    }
    var totalIncome := business + houseProperty + capitalGains + otherIncome;
    var totalDeductions := deduction80c + deduction80d + deduction80g;
    var taxableIncome := totalIncome - totalDeductions;
    if taxableIncome < 0 {
      return Err(NegativeTaxableIncome);
    }
    var tax: real;
    if taxRegime == "New Tax Regime" {
      tax := NewTaxRegimeBusiness(taxableIncome, age);
    } else {
      tax := OldTaxRegimeBusiness(taxableIncome, age);
    }
    var net := NetPayable(tax, tds, advanceTax);
    r := Ok(Summary(net, totalIncome, totalDeductions, taxableIncome));
  }

  // ---------------------------------------------------------------------
  // Properties

  /** The business old regime is the salaried resident old regime, bands at
      60 and 80 included. */
  lemma OldMatchesSalaried(age: int)
    ensures OldBusinessTable(age) == Salaried.OldSalariedTable(age)
  {
  }

  /** From 60 the business new regime is the NRI new regime of the salaried
      page. */
  lemma NewFromSixtyMatchesNri(age: int)
    requires 60 <= age
    ensures NewBusinessTable(age) == Salaried.NewNriTable()
  {
  }

  /** The new regime owes 75,000 at 1,000,000; the next 500,000 is taxed at
      20% below 60 and at 30% from 60; everything above 1,500,000 at 30%. */
  lemma NewRegimeAgeDependentSlab(age: int, income: int)
    requires 1000000 <= income
    ensures var t := NewBusinessTable(age);
      var middle := if age < 60 then 20 else 30;
      && (income <= 1500000 ==> MarginalTax(income, t) == 75000.0 + Percent(income - 1000000, middle))
      && (1500000 <= income ==>
            MarginalTax(income, t) == 75000.0 + Percent(500000, middle) + Percent(income - 1500000, 30))
  {
    var t := NewBusinessTable(age);
    TablesWellFormed(age);
    TaxFreeBand(250000, t);
    WithinSlab(500000, t, 1);
    WithinSlab(750000, t, 2);
    WithinSlab(1000000, t, 3);
    if income <= 1500000 {
      WithinSlab(income, t, 4);
    } else {
      WithinSlab(1500000, t, 4);
      WithinSlab(income, t, 5);
    }
  }

  /** Both tables: 0 at income 0, non-decreasing, and rising at most 30% of
      any increase in income. */
  lemma SelectedTaxShape(taxRegime: string, age: int, x: int, y: int)
    requires 0 <= x <= y
    ensures var t := SelectedTable(taxRegime, age);
      && MarginalTax(0, t) == 0.0
      && 0.0 <= MarginalTax(x, t) <= MarginalTax(y, t)
      && MarginalTax(y, t) - MarginalTax(x, t) <= Percent(y - x, 30)
  {
    var t := SelectedTable(taxRegime, age);
    ZeroIncome(t);
    Monotone(x, y, t);
    NoJump(x, y, t, 30);
  }

  /** The learning manual's figure: 485,000 owes 11,750 under both regimes
      below 60. */
  lemma ManualExample(age: int)
    requires age < 60
    ensures MarginalTax(485000, OldBusinessTable(age)) == 11750.0
    ensures MarginalTax(485000, NewBusinessTable(age)) == 11750.0
  {
    TablesWellFormed(age);
    var o, n := OldBusinessTable(age), NewBusinessTable(age);
    TaxFreeBand(250000, o);
    WithinSlab(485000, o, 1);
    TaxFreeBand(250000, n);
    WithinSlab(485000, n, 1);
  }
}
