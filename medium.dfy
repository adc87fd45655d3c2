/**
 * The medium-tier classifier: which records `filter-medium-difficulty.js` keeps, the
 * statistics its `analyzeResults` reports, and the unique-digit subset it saves.
 *
 * The script's header comment speaks of "no two pluses or two minuses in a row", but
 * the code counts pluses and minuses anywhere in the operator list; the model follows
 * the code (see `NonAdjacentPlusesRejected`).
 */
module MediumTier {
  import opened Sequences
  import opened Combinations
  import opened Statistics

  /**
   * A record is medium when it uses no digit 1, has at least one multiplication or
   * division, and has fewer than two pluses and fewer than two minuses.
   */
  predicate IsMedium(c: Record) {
    && 1 !in c.numbers
    && (TIMES in c.operators || DIVIDE in c.operators)
    && Occurrences(c.operators, PLUS) < 2
    && Occurrences(c.operators, MINUS) < 2
  }

  /** `validCombinations.filter(...)` with the medium-tier criteria. */
  function Filtered(combinations: seq<Record>): (medium: seq<Record>)
    ensures |medium| <= |combinations|
    ensures forall c :: c in medium <==>
              && c in combinations
              && 1 !in c.numbers
              && (TIMES in c.operators || DIVIDE in c.operators)
              && Occurrences(c.operators, PLUS) < 2
              && Occurrences(c.operators, MINUS) < 2
  {
    Filter(combinations, IsMedium)
  }

  /**
   * The medium tier keeps records in their input order, every copy of a record that
   * passes and no copy of one that fails, and filtering it again changes nothing.
   */
  lemma {:induction false} FilteredIsExactSubsequence(combinations: seq<Record>)
    ensures IsSubsequence(Filtered(combinations), combinations)
    ensures forall c :: Occurrences(Filtered(combinations), c) ==
              if IsMedium(c) then Occurrences(combinations, c) else 0
    ensures Filtered(Filtered(combinations)) == Filtered(combinations)
  {
    FilterIsSubsequence(combinations, IsMedium);
    forall c ensures Occurrences(Filtered(combinations), c) ==
                     if IsMedium(c) then Occurrences(combinations, c) else 0 {
      FilterOccurrences(combinations, IsMedium, c);
    }
    FilterIdempotent(combinations, IsMedium);
  }

  /** One plus together with one minus is allowed, unlike in the hard tier. */
  lemma {:induction false} OnePlusOneMinusKept(c: Record)
    requires 1 !in c.numbers
    requires c.operators == [PLUS, MINUS, TIMES]
    ensures IsMedium(c)
  {
    var ops := c.operators;
    assert ops[1..] == [MINUS, TIMES] && ops[1..][1..] == [TIMES] && ops[1..][1..][1..] == [];
  }

  /** Two pluses are rejected even when they are not next to each other. */
  lemma {:induction false} NonAdjacentPlusesRejected(c: Record)
    requires c.operators == [PLUS, TIMES, PLUS]
    ensures !IsMedium(c)
  {
    var ops := c.operators;
    assert ops[1..] == [TIMES, PLUS] && ops[1..][1..] == [PLUS] && ops[1..][1..][1..] == [];
    assert Occurrences(ops, PLUS) == 2;
  }

  /** Without a multiplication or a division nothing is medium, whatever the digits. */
  lemma {:induction false} AddSubOnlyRejected(c: Record)
    requires TIMES !in c.operators && DIVIDE !in c.operators
    ensures !IsMedium(c)
  {
  }

  // ----- analyzeResults -----

  /** `uniqueDigitCombos`: the medium records whose digits take four distinct values. */
  function UniqueDigitSubset(medium: seq<Record>): (unique: seq<Record>)
    ensures |unique| <= |medium|
    ensures forall c :: c in unique <==> c in medium && |Distinct(c.numbers)| == 4
  {
    Filter(medium, HasFourDistinctDigits)
  }

  predicate IsMediumUnique(c: Record) {
    IsMedium(c) && HasFourDistinctDigits(c)
  }

  /**
   * The unique-digit file holds, in input order, exactly the input records that are
   * medium and have four distinct digits; it is a subsequence of the medium file.
   */
  lemma {:induction false} UniqueDigitSubsetOfInput(combinations: seq<Record>)
    ensures UniqueDigitSubset(Filtered(combinations)) == Filter(combinations, IsMediumUnique)
    ensures IsSubsequence(UniqueDigitSubset(Filtered(combinations)), Filtered(combinations))
  {
    FilterFusion(combinations, IsMedium, HasFourDistinctDigits, IsMediumUnique);
    FilterIsSubsequence(Filtered(combinations), HasFourDistinctDigits);
  }

  /** Everything `analyzeResults` computes for the medium tier, percentages aside. */
  datatype Report = Report(
    digitCounts: map<int, Tally>,
    operatorCounts: map<string, Tally>,
    uniqueDigitCombos: seq<Record>)

  method AnalyzeResults(combinations: seq<Record>) returns (report: Report)
    ensures TalliesOf(report.digitCounts, DIGIT_KEYS, AllDigits(combinations))
    ensures TalliesOf(report.operatorCounts, OPERATOR_KEYS, AllOperators(combinations))
    ensures report.uniqueDigitCombos == UniqueDigitSubset(combinations)
    ensures |report.uniqueDigitCombos| <= |combinations|
    ensures forall c :: c in report.uniqueDigitCombos <==> c in combinations && |Distinct(c.numbers)| == 4
  {
    var digitCounts := CountDigits(combinations);
    var operatorCounts := CountOperators(combinations);
    var uniqueDigitCombos := UniqueDigitSubset(combinations);
    report := Report(digitCounts, operatorCounts, uniqueDigitCombos);
  }

  /** In a file whose digits are all in 1..9, the medium tier's digits are all in 2..9. */
  lemma {:induction false} MediumDigitsInRange(combinations: seq<Record>)
    requires forall c, d :: c in combinations && d in c.numbers ==> 1 <= d <= 9
    ensures forall c, d :: c in Filtered(combinations) && d in c.numbers ==> 2 <= d <= 9
  {
    forall c, d | c in Filtered(combinations) && d in c.numbers ensures 2 <= d <= 9 {
      assert c in combinations && 1 !in c.numbers;
      assert 1 <= d <= 9 && d != 1;
    }
  }

  /**
   * Applied to the medium tier of a file whose digits are all in 1..9 and whose
   * operators are all among the four symbols, the digit counts for 2..9 add up to the
   * number of kept digits and the four operator counts to the number of kept operators.
   */
  lemma {:induction false} MediumCountsTotal(combinations: seq<Record>, digitCounts: map<int, Tally>, operatorCounts: map<string, Tally>)
    requires forall c, d :: c in combinations && d in c.numbers ==> 1 <= d <= 9
    requires forall c, op :: c in combinations && op in c.operators ==> op in OPERATOR_SYMBOLS
    requires TalliesOf(digitCounts, DIGIT_KEYS, AllDigits(Filtered(combinations)))
    requires TalliesOf(operatorCounts, OPERATOR_KEYS, AllOperators(Filtered(combinations)))
    ensures forall d :: d in COUNTED_DIGITS ==> d in digitCounts
    ensures forall op :: op in OPERATOR_SYMBOLS ==> op in operatorCounts
    ensures SumTallies(digitCounts, COUNTED_DIGITS) == |AllDigits(Filtered(combinations))|
    ensures SumTallies(operatorCounts, OPERATOR_SYMBOLS) == |AllOperators(Filtered(combinations))|
  {
    MediumDigitsInRange(combinations);
    DigitCountsTotal(Filtered(combinations), digitCounts);
    OperatorCountsTotal(Filtered(combinations), operatorCounts);
  }
}
