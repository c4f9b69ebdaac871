/** The TaxCalculator class (src/utils/TaxCalculator.ts). The constructor
    fixes the input record and its clamped net income; the two rate tables,
    module constants in the source, are handed to the constructor and kept
    in constant fields. Every operation is proved to yield the value that
    TaxRules defines for it. */
module TaxCalculation {
  import opened TaxTypes
  import opened FederalBrackets
  import opened StateTable
  import opened TaxRules

  class TaxCalculator {
    const data: TaxData
    const netIncome: real
    /** The state table (US_STATES). */
    const states: seq<USState>
    /** The federal bracket table (FEDERAL_TAX_BRACKETS_2025). */
    const brackets: seq<FederalTaxBracket>

    /** The constructor's promise about the cached net income. */
    ghost predicate Valid()
    {
      netIncome == NetIncome(data)
    }

    constructor (data: TaxData, states: seq<USState>, brackets: seq<FederalTaxBracket>)
      ensures this.data == data && this.states == states && this.brackets == brackets
      ensures netIncome == Max(0.0, data.annualIncome - data.deductions)
      ensures Valid()
    {
      this.data := data;
      this.states := states;
      this.brackets := brackets;
      this.netIncome := Max(0.0, data.annualIncome - data.deductions);
    }

    /** 15.3% of net income. */
    function CalculateSelfEmploymentTax(): (r: real)
      requires Valid()
      ensures r == SelfEmploymentTax(data)
      ensures r >= 0.0 && (r == 0.0 <==> data.deductions >= data.annualIncome)
    {
      netIncome * SE_RATE
    }

    /** The bracket walk: deduct half the self-employment tax and the
        standard deduction, then tax the remaining base bracket by bracket,
        stopping once it is used up and taxing all that is left at the top
        bracket's rate. */
    method CalculateFederalTax() returns (tax: real)
      requires Valid()
      ensures tax == FederalTax(brackets, data)
      ensures AscendingThresholds(brackets) ==> tax == ProgressiveTax(brackets, FederalTaxableBase(data))
      ensures ValidBrackets(brackets) ==> tax >= 0.0
      ensures FederalTaxableBase(data) == 0.0 ==> tax == 0.0
    {
      tax := 0.0;
      var remainingIncome := netIncome;
      var seTax := CalculateSelfEmploymentTax();
      var seDeduction := seTax * SE_DEDUCTIBLE_SHARE;
      remainingIncome := remainingIncome - seDeduction;
      remainingIncome := Max(0.0, remainingIncome - STANDARD_DEDUCTION);
      ghost var base := remainingIncome;
      assert base == FederalTaxableBase(data);

      var i := 0;
      while i < |brackets|
        invariant 0 <= i <= |brackets|
        invariant tax + Walk(brackets, i, remainingIncome) == Walk(brackets, 0, base)
      {
        var bracket := brackets[i];
        if remainingIncome <= 0.0 {
          break;
        }
        if i == |brackets| - 1 {
          tax := tax + remainingIncome * bracket.rate;
          break;
        }
        var nextBracket := brackets[i + 1];
        var incomeInBracket := Min(remainingIncome, nextBracket.min - bracket.min);
        WalkStep(brackets, i, remainingIncome);
        tax := tax + incomeInBracket * bracket.rate;
        remainingIncome := remainingIncome - incomeInBracket;
        i := i + 1;
      }

      if AscendingThresholds(brackets) {
        FederalTaxFacts(brackets, data);
      }
    }

    /** Net income times the flat rate of the first matching state, or zero
        when no state has the input's code. */
    function CalculateStateTax(): (r: real)
      requires Valid()
      ensures r == StateTax(states, data)
      ensures FindState(states, data.state).Some? ==>
                r == netIncome * states[FindState(states, data.state).value].taxRate
      ensures FindState(states, data.state).None? ==> r == 0.0
    {
      match FindState(states, data.state)
      case None => 0.0
      case Some(i) => netIncome * states[i].taxRate
    }

    method CalculateTotalTax() returns (total: real)
      requires Valid()
      ensures total == SelfEmploymentTax(data) + FederalTax(brackets, data) + StateTax(states, data)
      ensures ValidBrackets(brackets) && NonNegativeStateRates(states) ==> total >= 0.0
    {
      var selfEmploymentTax := CalculateSelfEmploymentTax();
      var federalTax := CalculateFederalTax();
      var stateTax := CalculateStateTax();
      total := selfEmploymentTax + federalTax + stateTax;
      if ValidBrackets(brackets) && NonNegativeStateRates(states) {
        TotalTaxNonNegative(states, brackets, data);
      }
    }

    method CalculateQuarterlyPayments() returns (payments: seq<real>)
      requires Valid()
      ensures |payments| == 4
      ensures forall k :: 0 <= k < 4 ==> payments[k] == TotalTax(states, brackets, data) / 4.0
      ensures Sum(payments) == TotalTax(states, brackets, data)
    {
      var totalTax := CalculateTotalTax();
      var quarterlyAmount := totalTax / 4.0;
      payments := [quarterlyAmount, quarterlyAmount, quarterlyAmount, quarterlyAmount];
      assert payments == QuarterlyPayments(totalTax);
      QuarterlyPaymentsSum(totalTax);
    }

    /** All figures together, with a copy of the matched state entry, or of
        the first entry when the code is unknown. The source reads entry 0
        of the table then, so the table must not be empty. */
    method CalculateTaxes() returns (r: TaxResults)
      requires Valid() && |states| > 0
      ensures r == Results(states, brackets, data)
      ensures r.totalTax == r.selfEmploymentTax + r.federalTax + r.stateTax
      ensures Sum(r.quarterlyPayments) == r.totalTax
      ensures FindState(states, data.state).None? ==> r.stateInfo == states[0] && r.stateTax == 0.0
    {
      var selfEmploymentTax := CalculateSelfEmploymentTax();
      var federalTax := CalculateFederalTax();
      var stateTax := CalculateStateTax();
      var totalTax := selfEmploymentTax + federalTax + stateTax;
      var quarterlyPayments := CalculateQuarterlyPayments();

      var state := DisplayState(states, data.state);

      r := TaxResults(
        selfEmploymentTax,
        federalTax,
        stateTax,
        totalTax,
        quarterlyPayments,
        USState(state.code, state.name, state.taxRate));
      ResultsFacts(states, brackets, data);
    }
  }
}
