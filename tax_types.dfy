/** Record shapes exchanged between the tax calculator and its callers
    (src/types/TaxTypes.ts). Money amounts and rates are exact reals. */
module TaxTypes {

  /** The two business types a freelancer may choose. */
  datatype BusinessType = SoleProprietor | Llc

  /** The caller-supplied input of one calculation. */
  datatype TaxData = TaxData(
    annualIncome: real,
    state: string,
    businessType: BusinessType,
    deductions: real)

  /** One entry of the state table: a code, a display name and a flat rate
      (0.093 stands for 9.3%). The same shape is used for the display copy
      `stateInfo` in the results. */
  datatype USState = USState(code: string, name: string, taxRate: real)

  /** One entry of the federal bracket table: the threshold at which the
      marginal rate begins and that rate. */
  datatype FederalTaxBracket = FederalTaxBracket(min: real, rate: real)

  /** Everything one calculation produces. */
  datatype TaxResults = TaxResults(
    selfEmploymentTax: real,
    federalTax: real,
    stateTax: real,
    totalTax: real,
    quarterlyPayments: seq<real>,
    stateInfo: USState)

  datatype Option<T> = None | Some(value: T)

  function Max(a: real, b: real): real { if a >= b then a else b }

  function Min(a: real, b: real): real { if a <= b then a else b }

  /** Sum of a sequence of amounts. */
  function Sum(s: seq<real>): real
  {
    if s == [] then 0.0 else s[0] + Sum(s[1..])
  }
}
