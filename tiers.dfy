/**
 * How the two classifiers' outputs relate to each other.
 */
module Tiers {
  import opened Sequences
  import opened Combinations
  import HardTier
  import MediumTier

  /**
   * A hard record with three operators drawn from the four symbols is also a medium
   * record with four distinct digits: with at most one plus or minus among three
   * operators, at least two are multiplications or divisions.
   */
  lemma {:induction false} HardIsMediumUnique(combinations: seq<Record>, c: Record)
    requires c in HardTier.Filtered(combinations)
    requires |c.operators| == 3
    requires forall op :: op in c.operators ==> op in OPERATOR_SYMBOLS
    ensures c in MediumTier.UniqueDigitSubset(MediumTier.Filtered(combinations))
  {
    var ops := c.operators;
    assert NoDuplicates(OPERATOR_SYMBOLS);
    SumOccurrencesTotal(ops, OPERATOR_SYMBOLS);
    assert SumOccurrences(ops, [DIVIDE]) == Occurrences(ops, DIVIDE);
    assert SumOccurrences(ops, [TIMES, DIVIDE]) == Occurrences(ops, TIMES) + Occurrences(ops, DIVIDE);
    assert SumOccurrences(ops, [MINUS, TIMES, DIVIDE]) ==
             Occurrences(ops, MINUS) + Occurrences(ops, TIMES) + Occurrences(ops, DIVIDE);
    assert TIMES in ops || DIVIDE in ops;
    assert MediumTier.IsMediumUnique(c);
    MediumTier.UniqueDigitSubsetOfInput(combinations);
  }
}
