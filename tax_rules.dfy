/** What each figure of TaxCalculator (src/utils/TaxCalculator.ts) is, as a
    function of the input record and the two rate tables, and the
    relationships between the figures. The class in tax_calculator.dfy is
    proved to compute exactly these values. */
module TaxRules {
  import opened TaxTypes
  import opened FederalBrackets
  import opened StateTable

  /** Combined Social Security and Medicare rate, 15.3%, with no wage-base cap. */
  const SE_RATE: real := 0.153
  /** Share of the self-employment tax deductible for income tax. */
  const SE_DEDUCTIBLE_SHARE: real := 0.5
  /** The fixed standard deduction of the 2025 estimate. */
  const STANDARD_DEDUCTION: real := 14000.0

  /** Income less deductions, clamped at zero. */
  function NetIncome(d: TaxData): (r: real)
    ensures r >= 0.0 && r >= d.annualIncome - d.deductions
    ensures r == 0.0 <==> d.deductions >= d.annualIncome
    ensures r > 0.0 ==> r == d.annualIncome - d.deductions
  {
    Max(0.0, d.annualIncome - d.deductions)
  }

  /** The flat self-employment tax on net income. */
  function SelfEmploymentTax(d: TaxData): (r: real)
    ensures 0.0 <= r <= NetIncome(d)
    ensures r == 0.0 <==> d.deductions >= d.annualIncome
  {
    NetIncome(d) * SE_RATE
  }

  /** The base the federal brackets apply to: net income less half the
      self-employment tax, less the standard deduction, clamped at zero. */
  function FederalTaxableBase(d: TaxData): (r: real)
    ensures 0.0 <= r <= NetIncome(d)
  {
    Max(0.0, NetIncome(d) - SelfEmploymentTax(d) * SE_DEDUCTIBLE_SHARE - STANDARD_DEDUCTION)
  }

  /** The bracket walk over the taxable base. */
  function FederalTax(bs: seq<FederalTaxBracket>, d: TaxData): (r: real)
    ensures FederalTaxableBase(d) == 0.0 ==> r == 0.0
    ensures d.deductions >= d.annualIncome ==> r == 0.0
    ensures ValidBrackets(bs) ==> r >= 0.0
  {
    WalkNonNegative(bs, 0, FederalTaxableBase(d));
    Walk(bs, 0, FederalTaxableBase(d))
  }

  /** Net income at the flat rate of the first state whose code matches. */
  function StateTax(states: seq<USState>, d: TaxData): (r: real)
    ensures (forall j :: 0 <= j < |states| ==> states[j].code != d.state) ==> r == 0.0
    ensures d.deductions >= d.annualIncome ==> r == 0.0
    ensures NonNegativeStateRates(states) ==> r >= 0.0
  {
    match FindState(states, d.state)
    case Some(i) => NetIncome(d) * states[i].taxRate
    case None => 0.0
  }

  /** The three taxes together. */
  function TotalTax(states: seq<USState>, bs: seq<FederalTaxBracket>, d: TaxData): (r: real)
    ensures d.deductions >= d.annualIncome ==> r == 0.0
    ensures ValidBrackets(bs) && NonNegativeStateRates(states) ==> r >= SelfEmploymentTax(d) >= 0.0
  {
    SelfEmploymentTax(d) + FederalTax(bs, d) + StateTax(states, d)
  }

  function QuarterlyPayments(total: real): (q: seq<real>)
    ensures |q| == 4
    ensures forall k :: 0 <= k < |q| ==> q[k] == total / 4.0
  {
    [total / 4.0, total / 4.0, total / 4.0, total / 4.0]
  }

  /** The results record of one calculation. */
  function Results(states: seq<USState>, bs: seq<FederalTaxBracket>, d: TaxData): (r: TaxResults)
    requires |states| > 0
    ensures r.totalTax == r.selfEmploymentTax + r.federalTax + r.stateTax
    ensures |r.quarterlyPayments| == 4
    ensures forall k :: 0 <= k < 4 ==> r.quarterlyPayments[k] == r.totalTax / 4.0
    ensures r.stateInfo in states
  {
    var s := DisplayState(states, d.state);
    TaxResults(
      SelfEmploymentTax(d),
      FederalTax(bs, d),
      StateTax(states, d),
      SelfEmploymentTax(d) + FederalTax(bs, d) + StateTax(states, d),
      QuarterlyPayments(TotalTax(states, bs, d)),
      USState(s.code, s.name, s.taxRate))
  }

  ghost predicate NonNegativeStateRates(states: seq<USState>)
  {
    forall i :: 0 <= i < |states| ==> states[i].taxRate >= 0.0
  }

  /** Self-employment tax is 15.3% of net income, never negative, and zero
      exactly when there is no net income. */
  lemma SelfEmploymentTaxFacts(d: TaxData)
    ensures SelfEmploymentTax(d) == 0.153 * Max(0.0, d.annualIncome - d.deductions)
    ensures SelfEmploymentTax(d) >= 0.0
    ensures SelfEmploymentTax(d) == 0.0 <==> d.deductions >= d.annualIncome
  {
  }

  /** The federal taxable base, written out: 92.35% of net income (net income
      less half of 15.3% of it), less 14000, clamped at zero. */
  lemma FederalTaxableBaseFacts(d: TaxData)
    ensures FederalTaxableBase(d) == Max(0.0, 0.9235 * NetIncome(d) - 14000.0)
    ensures FederalTaxableBase(d) == 0.0 <==> 0.9235 * NetIncome(d) <= 14000.0
  {
  }

  /** With ascending thresholds, federal tax is the progressive tax on the
      taxable base whatever the rates; it is never negative when no rate is,
      and zero when the base is zero. */
  lemma FederalTaxFacts(bs: seq<FederalTaxBracket>, d: TaxData)
    requires AscendingThresholds(bs)
    ensures FederalTax(bs, d) == ProgressiveTax(bs, FederalTaxableBase(d))
    ensures NonNegativeRates(bs) ==> FederalTax(bs, d) >= 0.0
    ensures FederalTaxableBase(d) == 0.0 ==> FederalTax(bs, d) == 0.0
  {
    WalkIsProgressive(bs, FederalTaxableBase(d));
    if NonNegativeRates(bs) {
      ProgressiveNonNegative(bs, FederalTaxableBase(d), 0);
    }
  }

  /** Federal tax never falls when income less deductions rises: in
      particular it is non-decreasing in annual income with deductions fixed. */
  lemma FederalTaxMonotone(bs: seq<FederalTaxBracket>, d1: TaxData, d2: TaxData)
    requires ValidBrackets(bs)
    requires d1.annualIncome - d1.deductions <= d2.annualIncome - d2.deductions
    ensures FederalTax(bs, d1) <= FederalTax(bs, d2)
  {
    var b1, b2 := FederalTaxableBase(d1), FederalTaxableBase(d2);
    assert b1 <= b2;
    WalkIsProgressive(bs, b1);
    WalkIsProgressive(bs, b2);
    ProgressiveMonotone(bs, b1, b2, 0);
  }

  /** Once the taxable base reaches the top bracket, each further unit of
      base is taxed at the top rate, uncapped. */
  lemma FederalTopBracket(bs: seq<FederalTaxBracket>, d1: TaxData, d2: TaxData)
    requires AscendingThresholds(bs) && 0 < |bs|
    requires Offset(bs, |bs| - 1) <= FederalTaxableBase(d1) <= FederalTaxableBase(d2)
    ensures FederalTax(bs, d2) - FederalTax(bs, d1)
            == bs[|bs| - 1].rate * (FederalTaxableBase(d2) - FederalTaxableBase(d1))
  {
    var b1, b2 := FederalTaxableBase(d1), FederalTaxableBase(d2);
    WalkIsProgressive(bs, b1);
    WalkIsProgressive(bs, b2);
    TopBracketMarginal(bs, b1, b2);
  }

  /** State tax is net income times the rate of the first entry whose code
      equals the input's state. */
  lemma StateTaxOfFirstMatch(states: seq<USState>, d: TaxData, i: nat)
    requires i < |states| && states[i].code == d.state
    requires forall j :: 0 <= j < i ==> states[j].code != d.state
    ensures StateTax(states, d) == NetIncome(d) * states[i].taxRate
  {
    assert FindState(states, d.state) == Some(i);
  }

  /** An unknown state code owes no state tax; with no negative rate in the
      table, state tax is never negative. */
  lemma StateTaxFacts(states: seq<USState>, d: TaxData)
    ensures (forall j :: 0 <= j < |states| ==> states[j].code != d.state) ==>
              StateTax(states, d) == 0.0
    ensures NonNegativeStateRates(states) ==> StateTax(states, d) >= 0.0
  {
    match FindState(states, d.state)
    case Some(k) =>
      if NonNegativeStateRates(states) {
        MulLeftMono(NetIncome(d), 0.0, states[k].taxRate);
      }
    case None =>
  }

  /** With no net income every tax is zero and so is every payment. */
  lemma NoNetIncomeNoTax(states: seq<USState>, bs: seq<FederalTaxBracket>, d: TaxData)
    requires d.deductions >= d.annualIncome
    ensures NetIncome(d) == 0.0
    ensures SelfEmploymentTax(d) == 0.0
    ensures FederalTax(bs, d) == 0.0
    ensures StateTax(states, d) == 0.0
    ensures TotalTax(states, bs, d) == 0.0
    ensures QuarterlyPayments(TotalTax(states, bs, d)) == [0.0, 0.0, 0.0, 0.0]
  {
  }

  /** With well-formed tables the total is never negative. */
  lemma TotalTaxNonNegative(states: seq<USState>, bs: seq<FederalTaxBracket>, d: TaxData)
    requires ValidBrackets(bs) && NonNegativeStateRates(states)
    ensures TotalTax(states, bs, d) >= 0.0
  {
    FederalTaxFacts(bs, d);
    StateTaxFacts(states, d);
  }

  /** The four quarterly payments are equal and add up to the total. */
  lemma QuarterlyPaymentsSum(total: real)
    ensures Sum(QuarterlyPayments(total)) == total
    ensures forall k :: 0 <= k < 4 ==> QuarterlyPayments(total)[k] == QuarterlyPayments(total)[0]
  {
    var q := QuarterlyPayments(total);
    assert Sum(q[3..]) == total / 4.0 by {
      assert q[3..][1..] == [];
    }
    assert Sum(q[2..]) == total / 4.0 + Sum(q[3..]) by {
      assert q[2..][1..] == q[3..];
    }
    assert Sum(q[1..]) == total / 4.0 + Sum(q[2..]) by {
      assert q[1..][1..] == q[2..];
    }
  }

  /** The results record: its total is the sum of its three taxes, its four
      payments are a quarter of that total each and add up to it, and its
      state entry is a copy of the matching table entry, or of the first one
      when the code is unknown, in which case the state tax is zero. */
  lemma ResultsFacts(states: seq<USState>, bs: seq<FederalTaxBracket>, d: TaxData)
    requires |states| > 0
    ensures Results(states, bs, d).totalTax ==
              Results(states, bs, d).selfEmploymentTax + Results(states, bs, d).federalTax +
              Results(states, bs, d).stateTax
    ensures Results(states, bs, d).totalTax == TotalTax(states, bs, d)
    ensures |Results(states, bs, d).quarterlyPayments| == 4
    ensures forall k :: 0 <= k < 4 ==>
              Results(states, bs, d).quarterlyPayments[k] == Results(states, bs, d).totalTax / 4.0
    ensures Sum(Results(states, bs, d).quarterlyPayments) == Results(states, bs, d).totalTax
    ensures Results(states, bs, d).stateInfo in states
    ensures (exists j :: 0 <= j < |states| && states[j].code == d.state) ==>
              Results(states, bs, d).stateInfo.code == d.state
    ensures (forall j :: 0 <= j < |states| ==> states[j].code != d.state) ==>
              Results(states, bs, d).stateInfo == states[0] && Results(states, bs, d).stateTax == 0.0
    ensures FindState(states, d.state).Some? ==>
              Results(states, bs, d).stateInfo == states[FindState(states, d.state).value]
    ensures FindState(states, d.state).Some? ==>
              Results(states, bs, d).stateTax == NetIncome(d) * Results(states, bs, d).stateInfo.taxRate
  {
    QuarterlyPaymentsSum(TotalTax(states, bs, d));
  }

  /** The business type is never read: a sole proprietor and an LLC with the
      same income, deductions and state get the same results. */
  lemma BusinessTypeIgnored(states: seq<USState>, bs: seq<FederalTaxBracket>, d: TaxData, b: BusinessType)
    requires |states| > 0
    ensures Results(states, bs, d.(businessType := b)) == Results(states, bs, d)
  {
    var other := d.(businessType := b);
    assert NetIncome(other) == NetIncome(d);
    assert other.state == d.state;
    assert SelfEmploymentTax(other) == SelfEmploymentTax(d);
    assert FederalTax(bs, other) == FederalTax(bs, d);
    assert StateTax(states, other) == StateTax(states, d);
    assert TotalTax(states, bs, other) == TotalTax(states, bs, d);
  }
}
