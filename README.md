# India income-tax slab engine, modelled in Dafny

This project models the tax engine of the India Tax Consult app. The app has four
calculator pages: salaried individuals and non-residents, senior and super-senior
citizens, business and profession, and Hindu Undivided Families (HUF). Each page has
slab functions, which turn a taxable income into a gross tax by walking a fixed table
of progressive slabs. Each page also has a `calculate_tax` function, which:

- checks that every input is non-negative;
- adds up the income components and subtracts the deductions;
- fails if taxable income is negative;
- picks a table by residency, age or regime string;
- adds the flat 4% health and education cess;
- subtracts TDS (tax deducted at source) and advance tax. The net amount is not
  clamped, so a negative value means a refund.

Modules:

- `Slabs` is the shared engine. A `Table` holds the `slabs` list with the unbounded
  top (`float('inf')`) modelled as `Inf`, plus one integer rate in percent per slab.
  `MarginalTax` is the reference definition: the sum over every slab of
  rate × max(0, min(income, upper) − lower). `MarginalLoop` is the plain loop with
  `break`. `FixedAmountLoop` is the loop that also adds a fixed amount on each slab
  it visits. Both are methods proved against that definition, together with the
  general facts about it: zero at zero, the tax-free band, formulas inside one slab,
  monotonicity, and no jump anywhere.
- `Assessment` holds the result type: a `Summary` tuple, or one of the two
  `ValueError`s.
- `Salaried`, `SeniorCitizens` and `BusinessProfession` each model one page: its
  tables, its slab functions as methods, its `calculate_tax` as a method that returns
  a `Result`, and lemmas about the page. In `SeniorCitizens`, "the loop" means
  `LoopTax`: the value the fixed-amount loop of pages/senior_citizens.py:11-17
  returns for a non-negative income. That value is the marginal tax plus the fixed
  amounts of every visited slab, and `Slabs.FixedAmountLoop` proves it.
- `HufTax` models the HUF page, which has no slab functions. Its two zip loops sit
  inline in `calculate_tax`, and `CalculateTax` keeps them inline as `for` loops.
  `GrossTax` is the value those loops compute.

Amounts of income are `int`, because the input widgets default to integers. Tax
amounts are exact `real`s: `Percent(x, p)` is x·p/100, used where the source
multiplies by `0.05`, `0.20` and so on. Regime and residency are the source's strings,
so the fact that any string other than the tested one falls to the default branch is
modelled too.

## Model

| member | source | states |
|---|---|---|
| `Slabs.MarginalLoop` | pages/salaried.py:17-24 | the plain loop with `break` returns exactly the sum over all slabs of rate × max(0, min(income, upper) − lower) for every income ≥ 0; it reads the rate through the `min(i-1, len(rates)-1)` guard, and because the contract uses `rates[k]` directly, the guard is shown never to change the index; a negative income is taxed at the first rate only |
| `Slabs.MarginalUpTo` | pages/salaried.py:18-21 | the tax accumulated over any prefix of the slabs is never negative |
| `Slabs.TailZero` | pages/salaried.py:22-23 | once income is within a slab's upper bound, every later slab adds nothing, which is why breaking out of the loop is sound |
| `Slabs.WithinSlab` | pages/salaried.py:19-23 | for income inside slab k, the tax is the tax at slab k's lower bound plus slab k's rate on the excess |
| `Slabs.ZeroIncome` | pages/salaried.py:18-24 | taxable income 0 owes 0 under every well-formed table |
| `Slabs.TaxFreeBand` | pages/salaried.py:7-15 | with a 0% first slab and a positive second rate, the tax is 0 if and only if income is at most the first bound |
| `Slabs.Monotone` | pages/salaried.py:19-24 | marginal tax is non-decreasing in income |
| `Slabs.NoJump` | pages/salaried.py:19-24 | when every rate is at most p%, raising income from x to y raises the tax by at most p% of y − x, so there is no jump at any slab bound |
| `Slabs.FixedAmountLoop` | pages/senior_citizens.py:11-17 | the fixed-amount loop returns the marginal tax PLUS the fixed amounts of every slab it visits, for every income ≥ 0; it returns the first slab's fixed amount and rate for a negative income |
| `Slabs.FixedLoopMonotone` | pages/senior_citizens.py:11-17 | with non-negative fixed amounts, the fixed-amount loop's result is non-decreasing in income |
| `Slabs.FixedLoopJump` | pages/senior_citizens.py:14-15 | one rupee above the lower bound of slab k ≥ 1, the fixed-amount loop's result jumps by the whole `fixed_amounts[k]` plus that rupee's marginal tax |
| `Slabs.ContainingSlab` | pages/senior_citizens.py:12-16 | finds the slab whose range (lower, upper] contains the income |
| `Slabs.FixedPlusRemainderIsMarginal` | pages/senior_citizens.py:7-9 | on a cumulative table, the fixed amount of the containing slab plus that slab's rate on the remainder equals the marginal tax |
| `Assessment.NetPayable` | pages/salaried.py:101-105 | adding the cess and subtracting prepaid tax gives gross × 1.04 − (tds + advance tax), with no clamping |
| `Salaried.SelectedTable` | pages/salaried.py:90-99 | the dispatch always yields a well-formed table |
| `Salaried.TablesWellFormed` | pages/salaried.py:7-21 | all four tables are well formed: after the append, `len(slabs) = len(rates) + 1`, so every index the loop uses is in range |
| `Salaried.OldTaxRegimeSalaried` | pages/salaried.py:6-24 | returns the marginal tax of the age-banded resident old table (0 for a negative income) |
| `Salaried.NewTaxRegimeSalaried` | pages/salaried.py:28-39 | returns the marginal tax of the new salaried table |
| `Salaried.OldTaxRegimeNri` | pages/salaried.py:43-54 | returns the marginal tax of the NRI old table |
| `Salaried.NewTaxRegimeNri` | pages/salaried.py:58-69 | returns the marginal tax of the NRI new table |
| `Salaried.CalculateTax` | pages/salaried.py:72-107 | fails with `NegativeInput` if any of the ten inputs is negative. Otherwise it fails with `NegativeTaxableIncome` exactly when the uncapped 80C + 80D + 80G deductions exceed total income. Otherwise it returns the income sum, the deduction sum, taxable = income − deductions, and net = the selected table's tax × 1.04 − tds − advance tax |
| `Salaried.OldRegimeAgeBands` | pages/salaried.py:7-15 | the resident old regime owes nothing exactly up to 250,000 below age 60, up to 300,000 from 60 to 79, and up to 500,000 from 80 |
| `Salaried.SuperSeniorSkipsFivePercent` | pages/salaried.py:13-15 | from age 80 there is no 5% slab: income from 500,000 to 1,000,000 pays 20% of the part above 500,000 |
| `Salaried.NriIgnoresAge` | pages/salaried.py:95-99 | every status other than 'Resident' selects a table that does not depend on age |
| `Salaried.OtherRegimeStringsAreOld` | pages/salaried.py:91-98 | every regime string other than 'New Tax Regime' selects the old table |
| `Salaried.SelectedTaxShape` | pages/salaried.py:6-69 | for every selectable table: income 0 owes 0, the tax is ≥ 0 and non-decreasing, and it rises by at most 30% of any rise in income |
| `Salaried.ManualExamples` | pages/salaried.py:199-245 | 485,000 owes 11,750 under both resident regimes, which is 12,220 with cess and 9,220 after 2,000 TDS and 1,000 advance tax; a non-resident with 700,000 owes 52,500 (old regime) and 32,500 (new regime) |
| `SeniorCitizens.TablesFit` | pages/senior_citizens.py:7-59 | in every table, `len(rates) = len(fixed_amounts) = len(slabs) − 1`, and the tables are well formed |
| `SeniorCitizens.SelectedTable` | pages/senior_citizens.py:83-92 | the dispatch always yields a well-formed table |
| `SeniorCitizens.SelectedFixed` | pages/senior_citizens.py:83-92 | the selected fixed column fits the selected table |
| `SeniorCitizens.SeniorCitizenOldTaxRegime` | pages/senior_citizens.py:6-17 | returns the marginal tax plus the visited fixed amounts of the senior old table; the `age` argument is unused |
| `SeniorCitizens.SeniorCitizenNewTaxRegime` | pages/senior_citizens.py:21-32 | the same, for the senior new table |
| `SeniorCitizens.SuperSeniorCitizenOldTaxRegime` | pages/senior_citizens.py:36-47 | the same, for the super-senior old table |
| `SeniorCitizens.SuperSeniorCitizenNewTaxRegime` | pages/senior_citizens.py:51-62 | the same, for the super-senior new table |
| `SeniorCitizens.CalculateTax` | pages/senior_citizens.py:65-100 | fails with `NegativeInput` if any of the eight inputs is negative, including the pre-summed deductions. Otherwise it fails with `NegativeTaxableIncome` exactly when deductions exceed income. Otherwise net = the loop's tax (age < 80 selects the senior tables, 'New Tax Regime' selects new) × 1.04 − tds − advance tax |
| `SeniorCitizens.FixedColumnsCumulative` | pages/senior_citizens.py:7-54 | each `fixed_amounts[k]` equals the marginal tax at `slabs[k]`, in all four tables |
| `SeniorCitizens.SeniorOldCumulative` | pages/senior_citizens.py:7-9 | 0, 0, 10,000 and 110,000 are the marginal taxes at 0, 300,000, 500,000 and 1,000,000 |
| `SeniorCitizens.SeniorNewCumulative` | pages/senior_citizens.py:22-24 | 0, 0, 12,500, 37,500, 75,000, 125,000 and 187,500 are the marginal taxes at the new-regime bounds |
| `SeniorCitizens.SuperSeniorOldCumulative` | pages/senior_citizens.py:37-39 | 0, 0 and 100,000 are the marginal taxes at 0, 500,000 and 1,000,000 |
| `SeniorCitizens.LoopMatchesMarginalUpToThirdBound` | pages/senior_citizens.py:11-16 | the loop equals the marginal tax if and only if income is at most `slabs[2]`; above that bound it exceeds the marginal tax by at least `fixed_amounts[2]` |
| `SeniorCitizens.SelectedLoopShape` | pages/senior_citizens.py:83-92 | for every selectable table, the loop equals the marginal tax exactly up to the third bound (1,000,000 for super-senior old, 500,000 otherwise), and the result is non-negative and non-decreasing |
| `SeniorCitizens.SeniorOldJumps` | pages/senior_citizens.py:14-15 | the senior old result is 10,000 at 500,000 and 20,000.20 at 500,001, and it rises by 110,000.30 from 1,000,000 to 1,000,001 |
| `SeniorCitizens.ThreeMillion` | pages/senior_citizens.py:216-242 | at 3,000,000 the loop returns 830,000 (senior, old), 800,000 (super-senior, old) and 1,075,000 (new), while the marginal taxes are 710,000, 700,000 and 637,500 |
| `SeniorCitizens.NewTablesIdentical` | pages/senior_citizens.py:21-62 | the senior and super-senior new tables and fixed columns are identical |
| `SeniorCitizens.CorrectedTax` | pages/senior_citizens.py:7-9 | the fixed-plus-remainder formula on the selected table equals its marginal tax for every income ≥ 0 |
| `SeniorCitizens.CorrectedMatchesManual` | pages/senior_citizens.py:216-234 | the corrected formula gives the manual's 710,000 and 700,000 at 3,000,000, and 637,500 under the new regime |
| `BusinessProfession.TablesWellFormed` | pages/business_profession.py:7-30 | both tables are well formed for every age, so the `min` index guard is redundant |
| `BusinessProfession.SelectedTable` | pages/business_profession.py:61-64 | the dispatch always yields a well-formed table |
| `BusinessProfession.OldTaxRegimeBusiness` | pages/business_profession.py:6-24 | returns the marginal tax of the age-banded old table |
| `BusinessProfession.NewTaxRegimeBusiness` | pages/business_profession.py:28-39 | returns the marginal tax of the new table with the age-dependent rates |
| `BusinessProfession.CalculateTax` | pages/business_profession.py:42-72 | there is no residency input. It fails with `NegativeInput` on any negative of the ten inputs, otherwise with `NegativeTaxableIncome` exactly when deductions exceed income. Otherwise net = the selected tax × 1.04 − tds − advance tax |
| `BusinessProfession.OldMatchesSalaried` | pages/business_profession.py:6-24 | the business old table is the salaried resident old table for every age, bands at 60 and 80 included |
| `BusinessProfession.NewFromSixtyMatchesNri` | pages/business_profession.py:29-30 | from age 60, the business new table is the salaried NRI new table |
| `BusinessProfession.NewRegimeAgeDependentSlab` | pages/business_profession.py:29-30 | from 1,000,000, the new regime owes 75,000 plus 20% (age < 60) or 30% (age ≥ 60) up to 1,500,000, then 30% above 1,500,000 |
| `BusinessProfession.SelectedTaxShape` | pages/business_profession.py:17-39 | income 0 owes 0; the tax is ≥ 0, non-decreasing, and rises by at most 30% of any rise in income |
| `BusinessProfession.ManualExample` | pages/business_profession.py:184-192 | 485,000 owes 11,750 under both regimes below age 60 |
| `HufTax.ClampSum` | pages/huf_tax.py:27-33 | the clamped zip sum is never negative when the rates are not |
| `HufTax.GrossTax` | pages/huf_tax.py:23-33 | the clamp sum with bounds offset by `slab_amounts[0]` for exactly 'Old Tax Regime', and the clamp sum with offset 250,000 for any other string; it is never negative |
| `HufTax.ClampTermSign` | pages/huf_tax.py:28 | each clamped term is ≥ 0 for a non-negative rate |
| `HufTax.CalculateTax` | pages/huf_tax.py:5-41 | fails with `NegativeInput` if any of the seven inputs is negative (age is not an input). Otherwise it fails with `NegativeTaxableIncome` exactly when deductions exceed income. Otherwise both zip loops compute the clamp sum, and net = clamp sum × 1.04 − tds − advance tax |
| `HufTax.EffectiveTablesWellFormed` | pages/huf_tax.py:25-33 | the two effective tables with 0% gaps are well formed |
| `HufTax.OldLoopIsMarginal` | pages/huf_tax.py:25-28 | for every income, the old loop equals the marginal tax of 5% on 0–250,000, 20% on 250,000–500,000, 0% on 500,000–750,000, 30% on 750,000–1,000,000 and 0% above |
| `HufTax.NewLoopIsMarginal` | pages/huf_tax.py:30-33 | for every income, the new loop equals the marginal tax of six 250,000-wide slabs at 5% to 30% with 0% above 1,500,000 |
| `HufTax.GrossMonotone` | pages/huf_tax.py:27-33 | under both regimes, gross tax is ≥ 0 and non-decreasing in income |
| `HufTax.FivePercentFromFirstRupee` | pages/huf_tax.py:25-33 | there is no 0% slab: up to 250,000 both regimes charge 5% from the first rupee, so 250,000 owes 12,500 |
| `HufTax.FirstSlab` | pages/huf_tax.py:28 | on a table whose first bound is 250,000, income up to 250,000 pays the first rate on all of it |
| `HufTax.OldRegimePlateaus` | pages/huf_tax.py:25-28 | the old regime is a constant 62,500 from 500,000 to 750,000 and a constant 137,500 from 1,000,000 |
| `HufTax.NewRegimeCeiling` | pages/huf_tax.py:30-33 | the new regime never exceeds 262,500 and equals it from 1,500,000 on |
| `HufTax.OtherRegimeStringsAreNew` | pages/huf_tax.py:24-29 | the test is on 'Old Tax Regime', so every other string takes the new branch, the opposite default from the other pages |

## Findings

| source | as written | input that shows it | evidently intended | confidence | as-written member | corrected member |
|---|---|---|---|---|---|---|
| pages/senior_citizens.py:14 | each visited slab adds `fixed_amounts[i-1]` on top of its own marginal portion, so a correct cumulative column is counted again | a senior (old regime) with taxable income 3,000,000 gets 830,000; the manual at pages/senior_citizens.py:216 says 710,000 | the fixed amount of the containing slab plus that slab's rate on the remainder, which equals the marginal tax | not executed | `SeniorCitizens.ThreeMillion` | `SeniorCitizens.CorrectedTax` |

`SeniorCitizens.CalculateTax` keeps the behaviour as written, because the model follows
the code. The corrected formula is `Slabs.FixedPlusRemainder`. `CorrectedTax` and
`Slabs.FixedPlusRemainderIsMarginal` prove that it equals `Slabs.MarginalTax`, the
engine every other page uses. `CorrectedMatchesManual` shows that it reproduces the
manual's 710,000 and 700,000.

Notes on what the code does:

- On the salaried and business pages, `calculate_tax` adds 80C, 80D and 80G without
  caps. On the senior and HUF pages, the form adds them, also without caps, and
  `calculate_tax` receives the total (pages/senior_citizens.py:138,
  pages/huf_tax.py:78). The 150,000 and 25,000 limits are only the widgets'
  `max_value`s.
- `calculate_tax` raises no error for a combination of profile and table. Every
  residency, regime string and age selects some table.
- The learning manual states 700,000 (pages/senior_citizens.py:234) and 837,500
  (pages/senior_citizens.py:224, 242) at 3,000,000. The code returns 800,000 and
  1,075,000 (`SeniorCitizens.ThreeMillion`). The manual's own new-regime line items
  add up to 637,500.

## Left out

- Streamlit presentation: forms, sidebar navigation, the learning-manual text, the
  `try/except` that renders errors, and the pie and bar charts (including the
  percentage division in the income chart). The entry script and the home page are
  not part of this model.
- `@st.cache_data` memoisation: it has no effect on results.
- Floating point: tax is exact rational arithmetic. `float('inf')` is the `Inf` bound.
  Rounding of `tax * 0.04` and of the 0.05-multiple rates is not modelled.
- Non-integer inputs: the widgets yield integers by default, so amounts are `int`.
- The widget caps on 80C and 80D deductions, the senior page's `min_value=60` on age,
  and the HUF and senior pages' showing of deduction fields only under the old regime.
  They belong to the input forms, and `calculate_tax` does not check them.
- The learning manual's slab tables as text, which sometimes disagree with the code.
  Only its worked figures are modelled.
- Error messages are modelled as the two `TaxError` cases, not as strings.
