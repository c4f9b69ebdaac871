/** The progressive federal bracket walk of TaxCalculator.calculateFederalTax
    (src/utils/TaxCalculator.ts), as a recursive specification that mirrors
    the loop step by step, and an independent textbook definition of a
    progressive tax that the walk is proved to agree with. */
module FederalBrackets {
  import opened TaxTypes

  /** Thresholds strictly ascending, so every bracket width is positive.
      This is all the equalities about the walk rely on. An empty table is
      allowed: the walk then taxes nothing. */
  ghost predicate AscendingThresholds(bs: seq<FederalTaxBracket>)
  {
    forall i, j :: 0 <= i < j < |bs| ==> bs[i].min < bs[j].min
  }

  /** No negative rate in the bracket table. */
  ghost predicate NonNegativeRates(bs: seq<FederalTaxBracket>)
  {
    forall i :: 0 <= i < |bs| ==> bs[i].rate >= 0.0
  }

  /** What the sign and order facts rely on in the (unseen) bracket table:
      ascending thresholds and no negative rate. */
  ghost predicate ValidBrackets(bs: seq<FederalTaxBracket>)
  {
    AscendingThresholds(bs) && NonNegativeRates(bs)
  }

  /** The tax the loop still adds from bracket `i` on, when `remaining` of
      the taxable base is left: stop once nothing is left, tax all of it at
      the top bracket's rate, otherwise tax the part that fits in the
      bracket's width and go on with the rest. */
  function Walk(bs: seq<FederalTaxBracket>, i: nat, remaining: real): real
    decreases |bs| - i
  {
    if i >= |bs| || remaining <= 0.0 then 0.0
    else if i == |bs| - 1 then remaining * bs[i].rate
    else
      var inBracket := Min(remaining, bs[i + 1].min - bs[i].min);
      inBracket * bs[i].rate + Walk(bs, i + 1, remaining - inBracket)
  }

  /** One step of the walk below the top bracket, with base left. */
  lemma WalkStep(bs: seq<FederalTaxBracket>, i: nat, remaining: real)
    requires i < |bs| - 1 && remaining > 0.0
    ensures Walk(bs, i, remaining) ==
            Min(remaining, bs[i + 1].min - bs[i].min) * bs[i].rate +
            Walk(bs, i + 1, remaining - Min(remaining, bs[i + 1].min - bs[i].min))
  {
  }

  /** The walk without its early stop on an exhausted base. */
  function WalkNoBreak(bs: seq<FederalTaxBracket>, i: nat, remaining: real): real
    decreases |bs| - i
  {
    if i >= |bs| then 0.0
    else if i == |bs| - 1 then remaining * bs[i].rate
    else
      var inBracket := Min(remaining, bs[i + 1].min - bs[i].min);
      inBracket * bs[i].rate + WalkNoBreak(bs, i + 1, remaining - inBracket)
  }

  /** Where bracket `i` starts, measured from the first threshold: the walk
      only ever uses widths, so the first bracket covers the base from 0. */
  function Offset(bs: seq<FederalTaxBracket>, i: nat): real
    requires i < |bs|
  {
    bs[i].min - bs[0].min
  }

  /** The part of `base` that falls in bracket `i`: between its start and
      the next bracket's start, or everything above its start for the top. */
  function IncomeInBracket(bs: seq<FederalTaxBracket>, i: nat, base: real): real
    requires i < |bs|
  {
    if i == |bs| - 1 then Max(0.0, base - Offset(bs, i))
    else Max(0.0, Min(base, Offset(bs, i + 1)) - Offset(bs, i))
  }

  /** Sum over brackets `i..` of rate times the income in that bracket. */
  function ProgressiveFrom(bs: seq<FederalTaxBracket>, base: real, i: nat): real
    decreases |bs| - i
  {
    if i >= |bs| then 0.0
    else bs[i].rate * IncomeInBracket(bs, i, base) + ProgressiveFrom(bs, base, i + 1)
  }

  /** The progressive tax on `base`. */
  function ProgressiveTax(bs: seq<FederalTaxBracket>, base: real): real
  {
    ProgressiveFrom(bs, base, 0)
  }

  lemma MulLeftMono(a: real, x: real, y: real)
    requires a >= 0.0 && x <= y
    ensures a * x <= a * y
  {
    assert a * y - a * x == a * (y - x);
  }

  /** A base that does not reach bracket `i` owes nothing from `i` on. */
  lemma {:induction false} ProgressiveZeroBelow(bs: seq<FederalTaxBracket>, base: real, i: nat)
    requires AscendingThresholds(bs)
    requires i < |bs| && base <= Offset(bs, i)
    ensures ProgressiveFrom(bs, base, i) == 0.0
    decreases |bs| - i
  {
    assert IncomeInBracket(bs, i, base) == 0.0;
    if i + 1 < |bs| {
      ProgressiveZeroBelow(bs, base, i + 1);
    }
  }

  /** The loop from bracket `i`, with `remaining` left, computes the
      progressive tax from `i` on a base that reached bracket `i` and
      exceeds its start by `remaining`. */
  lemma {:induction false} WalkIsProgressiveFrom(bs: seq<FederalTaxBracket>, i: nat, remaining: real)
    requires AscendingThresholds(bs)
    requires i < |bs| && remaining >= 0.0
    ensures Walk(bs, i, remaining) == ProgressiveFrom(bs, Offset(bs, i) + remaining, i)
    decreases |bs| - i
  {
    var base := Offset(bs, i) + remaining;
    if remaining == 0.0 {
      ProgressiveZeroBelow(bs, base, i);
    } else if i == |bs| - 1 {
      assert IncomeInBracket(bs, i, base) == remaining;
    } else {
      var width := bs[i + 1].min - bs[i].min;
      var inBracket := Min(remaining, width);
      assert IncomeInBracket(bs, i, base) == inBracket;
      WalkIsProgressiveFrom(bs, i + 1, remaining - inBracket);
      if remaining >= width {
        assert Offset(bs, i + 1) + (remaining - inBracket) == base;
      } else {
        ProgressiveZeroBelow(bs, base, i + 1);
        ProgressiveZeroBelow(bs, Offset(bs, i + 1) + (remaining - inBracket), i + 1);
      }
    }
  }

  /** The bracket walk over a non-negative base is the progressive tax. */
  lemma WalkIsProgressive(bs: seq<FederalTaxBracket>, base: real)
    requires AscendingThresholds(bs) && base >= 0.0
    ensures Walk(bs, 0, base) == ProgressiveTax(bs, base)
  {
    if |bs| > 0 {
      WalkIsProgressiveFrom(bs, 0, base);
    }
  }

  /** On a non-negative base the early stop changes nothing: once the base is
      used up, every later bracket would add zero. */
  lemma {:induction false} BreakIsIrrelevant(bs: seq<FederalTaxBracket>, i: nat, remaining: real)
    requires AscendingThresholds(bs) && remaining >= 0.0
    ensures Walk(bs, i, remaining) == WalkNoBreak(bs, i, remaining)
    decreases |bs| - i
  {
    if i < |bs| - 1 {
      assert bs[i].min < bs[i + 1].min;
      var inBracket := Min(remaining, bs[i + 1].min - bs[i].min);
      if remaining == 0.0 {
        assert WalkNoBreak(bs, i, remaining) == 0.0 * bs[i].rate + WalkNoBreak(bs, i + 1, 0.0);
      }
      BreakIsIrrelevant(bs, i + 1, remaining - inBracket);
    } else if i == |bs| - 1 && remaining == 0.0 {
      assert WalkNoBreak(bs, i, remaining) == 0.0 * bs[i].rate;
    }
  }

  /** With positive widths and no negative rate, the walk never yields a
      negative amount. */
  lemma {:induction false} WalkNonNegative(bs: seq<FederalTaxBracket>, i: nat, remaining: real)
    ensures ValidBrackets(bs) ==> Walk(bs, i, remaining) >= 0.0
    decreases |bs| - i
  {
    if ValidBrackets(bs) && i < |bs| - 1 && remaining > 0.0 {
      assert bs[i].min < bs[i + 1].min;
      var inBracket := Min(remaining, bs[i + 1].min - bs[i].min);
      MulLeftMono(bs[i].rate, 0.0, inBracket);
      WalkNonNegative(bs, i + 1, remaining - inBracket);
    } else if ValidBrackets(bs) && i == |bs| - 1 && remaining > 0.0 {
      MulLeftMono(bs[i].rate, 0.0, remaining);
    }
  }

  /** No negative rate, no negative tax. */
  lemma {:induction false} ProgressiveNonNegative(bs: seq<FederalTaxBracket>, base: real, i: nat)
    requires NonNegativeRates(bs)
    ensures ProgressiveFrom(bs, base, i) >= 0.0
    decreases |bs| - i
  {
    if i < |bs| {
      MulLeftMono(bs[i].rate, 0.0, IncomeInBracket(bs, i, base));
      ProgressiveNonNegative(bs, base, i + 1);
    }
  }

  lemma IncomeInBracketMonotone(bs: seq<FederalTaxBracket>, i: nat, b1: real, b2: real)
    requires i < |bs| && b1 <= b2
    ensures IncomeInBracket(bs, i, b1) <= IncomeInBracket(bs, i, b2)
  {
  }

  /** A larger base never owes less. */
  lemma {:induction false} ProgressiveMonotone(bs: seq<FederalTaxBracket>, b1: real, b2: real, i: nat)
    requires NonNegativeRates(bs) && b1 <= b2
    ensures ProgressiveFrom(bs, b1, i) <= ProgressiveFrom(bs, b2, i)
    decreases |bs| - i
  {
    if i < |bs| {
      IncomeInBracketMonotone(bs, i, b1, b2);
      var here1, here2 := bs[i].rate * IncomeInBracket(bs, i, b1), bs[i].rate * IncomeInBracket(bs, i, b2);
      MulLeftMono(bs[i].rate, IncomeInBracket(bs, i, b1), IncomeInBracket(bs, i, b2));
      assert here1 <= here2;
      ProgressiveMonotone(bs, b1, b2, i + 1);
      assert ProgressiveFrom(bs, b1, i) == here1 + ProgressiveFrom(bs, b1, i + 1);
      assert ProgressiveFrom(bs, b2, i) == here2 + ProgressiveFrom(bs, b2, i + 1);
    }
  }

  /** Above the start of the top bracket, every further unit of base is
      taxed at the top rate, with no cap. */
  lemma {:induction false} TopBracketMarginalFrom(bs: seq<FederalTaxBracket>, b1: real, b2: real, i: nat)
    requires AscendingThresholds(bs) && 0 < |bs| && i < |bs|
    requires Offset(bs, |bs| - 1) <= b1 <= b2
    ensures ProgressiveFrom(bs, b2, i) - ProgressiveFrom(bs, b1, i) == bs[|bs| - 1].rate * (b2 - b1)
    decreases |bs| - i
  {
    if i < |bs| - 1 {
      assert Offset(bs, i + 1) <= Offset(bs, |bs| - 1) by {
        if i + 1 < |bs| - 1 {
          assert bs[i + 1].min < bs[|bs| - 1].min;
        }
      }
      assert IncomeInBracket(bs, i, b1) == IncomeInBracket(bs, i, b2);
      var here := bs[i].rate * IncomeInBracket(bs, i, b1);
      assert ProgressiveFrom(bs, b1, i) == here + ProgressiveFrom(bs, b1, i + 1);
      assert ProgressiveFrom(bs, b2, i) == here + ProgressiveFrom(bs, b2, i + 1);
      TopBracketMarginalFrom(bs, b1, b2, i + 1);
    } else {
      var top := bs[i].rate;
      assert IncomeInBracket(bs, i, b2) - IncomeInBracket(bs, i, b1) == b2 - b1;
      assert top * IncomeInBracket(bs, i, b2) - top * IncomeInBracket(bs, i, b1)
          == top * (IncomeInBracket(bs, i, b2) - IncomeInBracket(bs, i, b1));
    }
  }

  lemma TopBracketMarginal(bs: seq<FederalTaxBracket>, b1: real, b2: real)
    requires AscendingThresholds(bs) && 0 < |bs|
    requires Offset(bs, |bs| - 1) <= b1 <= b2
    ensures ProgressiveTax(bs, b2) - ProgressiveTax(bs, b1) == bs[|bs| - 1].rate * (b2 - b1)
  {
    TopBracketMarginalFrom(bs, b1, b2, 0);
  }
}
