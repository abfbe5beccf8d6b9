/** What every page's `calculate_tax` returns or raises. */
module Assessment {

  /** The two `ValueError`s of `calculate_tax`: 'All values must be
      non-negative.' and 'Taxable income is negative after deductions.' */
  datatype TaxError = NegativeInput | NegativeTaxableIncome

  /** The returned tuple (net_tax_payable, total_income, total_deductions,
      taxable_income); the net amount may be negative (a refund). */
  datatype Summary = Summary(netTaxPayable: real, totalIncome: int, totalDeductions: int, taxableIncome: int)

  datatype Result = Ok(summary: Summary) | Err(error: TaxError)

  /** `not any(val < 0 for val in inputs)` */
  predicate AllNonNegative(inputs: seq<int>)
  {
    forall i :: 0 <= i < |inputs| ==> 0 <= inputs[i]
  }

  /** The net amount after the 4% health and education cess and the taxes
      already paid: `tax += tax * 0.04; tax - tds - advance_tax`. */
  function NetPayable(gross: real, tds: int, advanceTax: int): (r: real)
    ensures r == gross * 1.04 - (tds + advanceTax) as real
  {
    var tax := gross + gross * 0.04;
    tax - tds as real - advanceTax as real
  }
}
