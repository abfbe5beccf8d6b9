/** The salaried-individual and non-resident page: four slab functions that
    walk their tables with the plain marginal loop, and `calculate_tax`,
    which validates, totals, deducts, dispatches on residency and regime,
    adds cess and nets prepaid tax. */
module Salaried {
  import opened Slabs
  import opened Assessment

  // ---------------------------------------------------------------------
  // Slab tables (each `slabs` list as it is after the appended inf)

  /** Resident old regime, banded by age at 60 and 80. */
  function OldSalariedTable(age: int): Table
  {
    if age < 60 then Table([At(0), At(250000), At(500000), At(1000000), Inf], [0, 5, 20, 30])
    else if age < 80 then Table([At(0), At(300000), At(500000), At(1000000), Inf], [0, 5, 20, 30])
    else Table([At(0), At(500000), At(1000000), Inf], [0, 20, 30])
  }

  function NewSalariedTable(): Table
  {
    Table([At(0), At(250000), At(500000), At(750000), At(1000000), At(1250000), At(1500000), Inf],
          [0, 5, 10, 15, 20, 25, 30])
  }

  function OldNriTable(): Table
  {
    Table([At(0), At(250000), At(500000), At(1000000), Inf], [0, 5, 20, 30])
  }

  function NewNriTable(): Table
  {
    Table([At(0), At(250000), At(500000), At(750000), At(1000000), At(1500000), Inf],
          [0, 5, 10, 15, 30, 30])
  }

  lemma TablesWellFormed(age: int)
    ensures WellFormed(OldSalariedTable(age)) && WellFormed(NewSalariedTable())
    ensures WellFormed(OldNriTable()) && WellFormed(NewNriTable())
  {
  }

  /** The table `calculate_tax` picks: Resident with the exact string
      'New Tax Regime' gets the new salaried table, any other Resident the
      age-banded old table; every other status gets the NRI tables. */
  function SelectedTable(residentialStatus: string, taxRegime: string, age: int): (t: Table)
    ensures WellFormed(t)
  {
    TablesWellFormed(age);
    if residentialStatus == "Resident" then
      if taxRegime == "New Tax Regime" then NewSalariedTable() else OldSalariedTable(age)
    else
      if taxRegime == "New Tax Regime" then NewNriTable() else OldNriTable()
  }

  // ---------------------------------------------------------------------
  // Slab functions

  method OldTaxRegimeSalaried(taxableIncome: int, age: int) returns (tax: real)
    ensures 0 <= taxableIncome ==> tax == MarginalTax(taxableIncome, OldSalariedTable(age))
    ensures taxableIncome < 0 ==> tax == 0.0
  {
    TablesWellFormed(age);
    tax := MarginalLoop(taxableIncome, OldSalariedTable(age));
  }

  method NewTaxRegimeSalaried(taxableIncome: int) returns (tax: real)
    ensures 0 <= taxableIncome ==> tax == MarginalTax(taxableIncome, NewSalariedTable())
    ensures taxableIncome < 0 ==> tax == 0.0
  {
    TablesWellFormed(0);
    tax := MarginalLoop(taxableIncome, NewSalariedTable());
  }

  method OldTaxRegimeNri(taxableIncome: int) returns (tax: real)
    ensures 0 <= taxableIncome ==> tax == MarginalTax(taxableIncome, OldNriTable())
    ensures taxableIncome < 0 ==> tax == 0.0
  {
    TablesWellFormed(0);
    tax := MarginalLoop(taxableIncome, OldNriTable());
  }

  method NewTaxRegimeNri(taxableIncome: int) returns (tax: real)
    ensures 0 <= taxableIncome ==> tax == MarginalTax(taxableIncome, NewNriTable())
    ensures taxableIncome < 0 ==> tax == 0.0
  {
    TablesWellFormed(0);
    tax := MarginalLoop(taxableIncome, NewNriTable());
  }

  // ---------------------------------------------------------------------
  // calculate_tax

  /** The ten validated inputs, in the order of the source's list. */
  function Validated(age: int, salary: int, houseProperty: int, capitalGains: int, otherIncome: int,
                     deduction80c: int, deduction80d: int, deduction80g: int,
                     tds: int, advanceTax: int): seq<int>
  {
    [age, salary, houseProperty, capitalGains, otherIncome, deduction80c, deduction80d, deduction80g, tds, advanceTax]
  }

  method CalculateTax(residentialStatus: string, taxRegime: string, age: int,
                      salary: int, houseProperty: int, capitalGains: int, otherIncome: int,
                      deduction80c: int, deduction80d: int, deduction80g: int,
                      tds: int, advanceTax: int) returns (r: Result)
    ensures var ok := AllNonNegative(Validated(age, salary, houseProperty, capitalGains, otherIncome,
                                               deduction80c, deduction80d, deduction80g, tds, advanceTax));
            var income := salary + houseProperty + capitalGains + otherIncome;
            var deductions := deduction80c + deduction80d + deduction80g;
            && (!ok ==> r == Err(NegativeInput))
            && (ok && income < deductions ==> r == Err(NegativeTaxableIncome))
            && (r.Ok? <==> ok && deductions <= income)
            && (r.Ok? ==>
                  && r.summary.totalIncome == income
                  && r.summary.totalDeductions == deductions
                  && r.summary.taxableIncome == income - deductions
                  && r.summary.netTaxPayable
                     == MarginalTax(income - deductions, SelectedTable(residentialStatus, taxRegime, age)) * 1.04
                        - (tds + advanceTax) as real)
  {
    var inputs := Validated(age, salary, houseProperty, capitalGains, otherIncome, deduction80c, deduction80d, deduction80g, tds, advanceTax);
    if !AllNonNegative(inputs) {
      return Err(NegativeInput);
    }
    var totalIncome := salary + houseProperty + capitalGains + otherIncome;
    var totalDeductions := deduction80c + deduction80d + deduction80g;
    var taxableIncome := totalIncome - totalDeductions;
    if taxableIncome < 0 {
      return Err(NegativeTaxableIncome);
    }
    var tax: real;
    if residentialStatus == "Resident" {
      if taxRegime == "New Tax Regime" {
        tax := NewTaxRegimeSalaried(taxableIncome);
      } else {
        tax := OldTaxRegimeSalaried(taxableIncome, age);
      }
    } else {
      if taxRegime == "New Tax Regime" {
        tax := NewTaxRegimeNri(taxableIncome);
      } else {
        tax := OldTaxRegimeNri(taxableIncome);
      }
    }
    var net := NetPayable(tax, tds, advanceTax);
    r := Ok(Summary(net, totalIncome, totalDeductions, taxableIncome));
  }

  // ---------------------------------------------------------------------
  // Properties

  /** The tax-free limit of the resident old regime by age band. */
  function TaxFreeLimit(age: int): int
  {
    if age < 60 then 250000 else if age < 80 then 300000 else 500000
  }

  /** Age banding of the resident old regime: no tax is due exactly up to
      250,000 below 60, 300,000 from 60 to 79 and 500,000 from 80. */
  lemma OldRegimeAgeBands(age: int, income: int)
    requires 0 <= income
    ensures MarginalTax(income, OldSalariedTable(age)) == 0.0 <==> income <= TaxFreeLimit(age)
  {
    TablesWellFormed(age);
    TaxFreeBand(income, OldSalariedTable(age));
  }

  /** From 80 there is no 5% slab: income between 500,000 and 1,000,000 is
      taxed at 20% on everything above 500,000. */
  lemma SuperSeniorSkipsFivePercent(age: int, income: int)
    requires 80 <= age && 500000 <= income <= 1000000
    ensures MarginalTax(income, OldSalariedTable(age)) == Percent(income - 500000, 20)
  {
    var t := OldSalariedTable(age);
    TablesWellFormed(age);
    WithinSlab(income, t, 1);
    TaxFreeBand(500000, t);
  }

  /** Only a Resident sees age; the NRI tables ignore it. */
  lemma NriIgnoresAge(residentialStatus: string, taxRegime: string, age1: int, age2: int)
    requires residentialStatus != "Resident"
    ensures SelectedTable(residentialStatus, taxRegime, age1) == SelectedTable(residentialStatus, taxRegime, age2)
  {
  }

  /** Any regime string other than 'New Tax Regime' selects the old table. */
  lemma OtherRegimeStringsAreOld(residentialStatus: string, taxRegime: string, age: int)
    requires taxRegime != "New Tax Regime"
    ensures SelectedTable(residentialStatus, taxRegime, age) == SelectedTable(residentialStatus, "Old Tax Regime", age)
  {
  }

  /** Every selected table: income 0 owes 0, tax never falls as income
      rises, and it never rises faster than the 30% top rate. */
  lemma SelectedTaxShape(residentialStatus: string, taxRegime: string, age: int, x: int, y: int)
    requires 0 <= x <= y
    ensures var t := SelectedTable(residentialStatus, taxRegime, age);
      && MarginalTax(0, t) == 0.0
      && 0.0 <= MarginalTax(x, t) <= MarginalTax(y, t)
      && MarginalTax(y, t) - MarginalTax(x, t) <= Percent(y - x, 30)
  {
    var t := SelectedTable(residentialStatus, taxRegime, age);
    ZeroIncome(t);
    Monotone(0, x, t);
    Monotone(x, y, t);
    NoJump(x, y, t, 30);
  }

  /** The learning manual's figures: 485,000 owes 11,750 under both resident
      regimes, 12,220 with cess and 9,220 after 2,000 TDS and 1,000 advance
      tax; a non-resident with 700,000 owes 52,500 (old) and 32,500 (new). */
  lemma ManualExamples(age: int)
    requires age < 60
    ensures MarginalTax(485000, OldSalariedTable(age)) == 11750.0
    ensures MarginalTax(485000, NewSalariedTable()) == 11750.0
    ensures NetPayable(11750.0, 0, 0) == 12220.0
    ensures NetPayable(11750.0, 2000, 1000) == 9220.0
    ensures MarginalTax(700000, OldNriTable()) == 52500.0
    ensures MarginalTax(700000, NewNriTable()) == 32500.0
  {
    TablesWellFormed(age);
    var oldRes, newRes, oldNri, newNri := OldSalariedTable(age), NewSalariedTable(), OldNriTable(), NewNriTable();
    TaxFreeBand(250000, oldRes);
    WithinSlab(485000, oldRes, 1);
    TaxFreeBand(250000, newRes);
    WithinSlab(485000, newRes, 1);
    TaxFreeBand(250000, oldNri);
    WithinSlab(500000, oldNri, 1);
    WithinSlab(700000, oldNri, 2);
    TaxFreeBand(250000, newNri);
    WithinSlab(500000, newNri, 1);
    WithinSlab(700000, newNri, 2);
  }
}
