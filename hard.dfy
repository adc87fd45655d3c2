/**
 * The hard-tier classifier: which records `filter-hard-difficulty.js` keeps, and the
 * statistics its `analyzeResults` reports about them.
 */
module HardTier {
  import opened Sequences
  import opened Combinations
  import opened Statistics

  /**
   * A record is hard when it uses no digit 1, its digits take exactly four distinct
   * values, and it has at most one operator that is a plus or a minus.
   */
  predicate IsHard(c: Record) {
    && 1 !in c.numbers
    && HasFourDistinctDigits(c)
    && Occurrences(c.operators, PLUS) + Occurrences(c.operators, MINUS) <= 1
  }

  /** `validCombinations.filter(...)` with the hard-tier criteria. */
  function Filtered(combinations: seq<Record>): (hard: seq<Record>)
    ensures |hard| <= |combinations|
    ensures forall c :: c in hard <==>
              && c in combinations
              && 1 !in c.numbers
              && |Distinct(c.numbers)| == 4
              && Occurrences(c.operators, PLUS) + Occurrences(c.operators, MINUS) <= 1
  {
    Filter(combinations, IsHard)
  }

  /**
   * The hard tier keeps records in their input order, every copy of a record that
   * passes and no copy of one that fails, and filtering it again changes nothing.
   */
  lemma {:induction false} FilteredIsExactSubsequence(combinations: seq<Record>)
    ensures IsSubsequence(Filtered(combinations), combinations)
    ensures forall c :: Occurrences(Filtered(combinations), c) ==
              if IsHard(c) then Occurrences(combinations, c) else 0
    ensures Filtered(Filtered(combinations)) == Filtered(combinations)
  {
    FilterIsSubsequence(combinations, IsHard);
    forall c ensures Occurrences(Filtered(combinations), c) ==
                     if IsHard(c) then Occurrences(combinations, c) else 0 {
      FilterOccurrences(combinations, IsHard, c);
    }
    FilterIdempotent(combinations, IsHard);
  }

  lemma {:induction false} KeptHasNoOne(combinations: seq<Record>, c: Record)
    requires c in Filtered(combinations)
    ensures c in combinations && 1 !in c.numbers
  {
  }

  /** A kept record with four digits has four pairwise different digits. */
  lemma {:induction false} KeptDigitsAllDifferent(combinations: seq<Record>, c: Record)
    requires c in Filtered(combinations) && |c.numbers| == 4
    ensures forall i, j :: 0 <= i < j < 4 ==> c.numbers[i] != c.numbers[j]
  {
    FourDistinctDigitsMeansNoRepeat(c);
  }

  /** One plus and one minus together are already too many, whatever the digits. */
  lemma {:induction false} PlusAndMinusRejected(c: Record)
    requires PLUS in c.operators && MINUS in c.operators
    ensures !IsHard(c)
  {
  }

  /** A plus and a minus in the same record: rejected even with four different digits. */
  lemma {:induction false} ExampleRejected()
    ensures !IsHard(Record([2, 3, 4, 5], [PLUS, MINUS, TIMES], "2+3-4*5", -15))
  {
    PlusAndMinusRejected(Record([2, 3, 4, 5], [PLUS, MINUS, TIMES], "2+3-4*5", -15));
  }

  // ----- analyzeResults -----

  /** One entry of `expressionPatterns`: a joined operator pattern and how many records have it. */
  datatype PatternCount = PatternCount(pattern: string, count: nat)

  function Keys(table: seq<PatternCount>): (ks: seq<string>)
    ensures |ks| == |table|
    ensures forall i :: 0 <= i < |table| ==> ks[i] == table[i].pattern
  {
    if table == [] then [] else [table[0].pattern] + Keys(table[1..])
  }

  function Total(table: seq<PatternCount>): nat {
    if table == [] then 0 else table[0].count + Total(table[1..])
  }

  /**
   * `expressionPatterns[p] = (expressionPatterns[p] || 0) + 1`: an existing entry is
   * incremented in place, a new pattern is added at the end with count 1 (an object's
   * ordinary, non-integer-like string keys keep their insertion order; integer-like
   * keys and inherited property names are not modelled).
   */
  function Bump(table: seq<PatternCount>, p: string): (t: seq<PatternCount>)
    requires NoDuplicates(Keys(table))
    ensures Keys(t) == if p in Keys(table) then Keys(table) else Keys(table) + [p]
    ensures Total(t) == Total(table) + 1
  {
    if table == [] then [PatternCount(p, 1)]
    else if table[0].pattern == p then [PatternCount(p, table[0].count + 1)] + table[1..]
    else
      assert Keys(table[1..]) == Keys(table)[1..];
      [table[0]] + Bump(table[1..], p)
  }

  /** Only the entry for `p` changes, by one; a new entry starts at 1. */
  lemma {:induction false} BumpEntry(table: seq<PatternCount>, p: string, i: nat)
    requires NoDuplicates(Keys(table))
    requires i < |table| || (i == |table| && p !in Keys(table))
    ensures i < |table| ==>
              Bump(table, p)[i].count == if table[i].pattern == p then table[i].count + 1 else table[i].count
    ensures i == |table| ==> Bump(table, p)[i].count == 1
  {
    if table != [] && i > 0 {
      var t, tail := Bump(table, p), table[1..];
      if table[0].pattern == p {
        assert Keys(table)[0] == p;
        assert Keys(table)[i] != Keys(table)[0];
        assert t[i] == table[i];
      } else {
        assert Keys(tail) == Keys(table)[1..];
        BumpEntry(tail, p, i - 1);
        assert t[i] == Bump(tail, p)[i - 1];
        assert i < |table| ==> table[i] == tail[i - 1];
      }
    }
  }

  /**
   * `table` is the pattern table of the pattern list `items`: every pattern of `items`
   * has exactly one entry, which holds how many times it occurs, and nothing else has one.
   */
  ghost predicate PatternsOf(table: seq<PatternCount>, items: seq<string>) {
    && NoDuplicates(Keys(table))
    && (forall p :: p in Keys(table) <==> p in items)
    && (forall i :: 0 <= i < |table| ==> table[i].count == Occurrences(items, table[i].pattern))
  }

  lemma {:induction false} PatternsStep(table: seq<PatternCount>, items: seq<string>, p: string, items': seq<string>)
    requires PatternsOf(table, items)
    requires items' == items + [p]
    ensures PatternsOf(Bump(table, p), items')
  {
    var t := Bump(table, p);
    BumpKeepsKeysUnique(table, p);
    forall i | 0 <= i < |t| ensures t[i].count == Occurrences(items', t[i].pattern) {
      var q := t[i].pattern;
      BumpEntry(table, p, i);
      OccurrencesAppend(items, [p], q);
      assert Occurrences(items', q) == Occurrences(items, q) + (if q == p then 1 else 0);
      if i < |table| {
        assert q == Keys(t)[i] == Keys(table)[i] == table[i].pattern;
      } else {
        assert q == p && p !in Keys(table);
      }
    }
  }

  lemma {:induction false} BumpKeepsKeysUnique(table: seq<PatternCount>, p: string)
    requires NoDuplicates(Keys(table))
    ensures NoDuplicates(Keys(Bump(table, p)))
  {
    if p !in Keys(table) {
      var ks := Keys(Bump(table, p));
      assert ks == Keys(table) + [p];
      forall i, j | 0 <= i < j < |ks| ensures ks[i] != ks[j] {
        if j == |table| { assert ks[j] == p && ks[i] == Keys(table)[i]; }
        else { assert ks[i] == Keys(table)[i] && ks[j] == Keys(table)[j]; }
      }
    }
  }

  lemma {:induction false} TotalIsSumOccurrences(table: seq<PatternCount>, items: seq<string>)
    requires forall i :: 0 <= i < |table| ==> table[i].count == Occurrences(items, table[i].pattern)
    ensures Total(table) == SumOccurrences(items, Keys(table))
  {
    if table != [] {
      TotalIsSumOccurrences(table[1..], items);
    }
  }

  /** The entries of a pattern table add up to the number of patterns counted. */
  lemma {:induction false} PatternTotal(table: seq<PatternCount>, items: seq<string>)
    requires PatternsOf(table, items)
    ensures Total(table) == |items|
  {
    TotalIsSumOccurrences(table, items);
    SumOccurrencesTotal(items, Keys(table));
  }

  /** `expressionPatterns`: how many records share each joined operator pattern. */
  method CountPatterns(combinations: seq<Record>) returns (expressionPatterns: seq<PatternCount>)
    ensures PatternsOf(expressionPatterns, Patterns(combinations))
    ensures Total(expressionPatterns) == |combinations|
  {
    expressionPatterns := [];
    for i := 0 to |combinations|
      invariant PatternsOf(expressionPatterns, Patterns(combinations[..i]))
    {
      var pattern := Join(combinations[i].operators);
      assert Patterns(combinations[..i + 1]) == Patterns(combinations[..i]) + [pattern] by {
        assert combinations[..i + 1][..i] == combinations[..i];
      }
      PatternsStep(expressionPatterns, Patterns(combinations[..i]), pattern, Patterns(combinations[..i + 1]));
      expressionPatterns := Bump(expressionPatterns, pattern);
    }
    assert combinations[..|combinations|] == combinations;
    PatternTotal(expressionPatterns, Patterns(combinations));
  }

  predicate NoAddSub(c: Record) { PLUS !in c.operators && MINUS !in c.operators }
  predicate OnlyMul(c: Record) { forall op :: op in c.operators ==> op == TIMES }
  predicate WithDiv(c: Record) { DIVIDE in c.operators }

  /**
   * The three sub-filters: records using neither plus nor minus, records using only
   * multiplication, records using division. Records of the second kind are all of
   * the first kind, in the same order, and none of them is of the third kind.
   */
  lemma {:induction false} SubFilters(combinations: seq<Record>)
    ensures IsSubsequence(Filter(combinations, OnlyMul), Filter(combinations, NoAddSub))
    ensures |Filter(combinations, OnlyMul)| <= |Filter(combinations, NoAddSub)| <= |combinations|
    ensures |Filter(combinations, WithDiv)| <= |combinations|
    ensures forall c :: c in Filter(combinations, OnlyMul) ==> c !in Filter(combinations, WithDiv)
  {
    FilterMonotone(combinations, OnlyMul, NoAddSub);
    SubsequenceLength(Filter(combinations, OnlyMul), Filter(combinations, NoAddSub));
  }

  /** Everything `analyzeResults` computes for the hard tier, percentages aside. */
  datatype Report = Report(
    digitCounts: map<int, Tally>,
    operatorCounts: map<string, Tally>,
    expressionPatterns: seq<PatternCount>,
    noAddSub: nat,
    onlyMul: nat,
    withDiv: nat)

  method AnalyzeResults(combinations: seq<Record>) returns (report: Report)
    ensures TalliesOf(report.digitCounts, DIGIT_KEYS, AllDigits(combinations))
    ensures TalliesOf(report.operatorCounts, OPERATOR_KEYS, AllOperators(combinations))
    ensures PatternsOf(report.expressionPatterns, Patterns(combinations))
    ensures Total(report.expressionPatterns) == |combinations|
    ensures report.noAddSub == |Filter(combinations, NoAddSub)|
    ensures report.onlyMul == |Filter(combinations, OnlyMul)|
    ensures report.withDiv == |Filter(combinations, WithDiv)|
    ensures report.onlyMul <= report.noAddSub <= |combinations| && report.withDiv <= |combinations|
  {
    var digitCounts := CountDigits(combinations);
    var operatorCounts := CountOperators(combinations);
    var expressionPatterns := CountPatterns(combinations);
    SubFilters(combinations);
    report := Report(digitCounts, operatorCounts, expressionPatterns,
                     |Filter(combinations, NoAddSub)|, |Filter(combinations, OnlyMul)|,
                     |Filter(combinations, WithDiv)|);
  }

  /** In a file whose digits are all in 1..9, the hard tier's digits are all in 2..9. */
  lemma {:induction false} HardDigitsInRange(combinations: seq<Record>)
    requires forall c, d :: c in combinations && d in c.numbers ==> 1 <= d <= 9
    ensures forall c, d :: c in Filtered(combinations) && d in c.numbers ==> 2 <= d <= 9
  {
    forall c, d | c in Filtered(combinations) && d in c.numbers ensures 2 <= d <= 9 {
      KeptHasNoOne(combinations, c);
      assert 1 <= d <= 9 && d != 1;
    }
  }

  /**
   * Applied to the hard tier of a file whose digits are all in 1..9, the digit counts
   * for 2..9 add up to the number of kept digits: the filter removed every 1.
   */
  lemma {:induction false} HardDigitCountsTotal(combinations: seq<Record>, digitCounts: map<int, Tally>)
    requires forall c, d :: c in combinations && d in c.numbers ==> 1 <= d <= 9
    requires TalliesOf(digitCounts, DIGIT_KEYS, AllDigits(Filtered(combinations)))
    ensures forall d :: d in COUNTED_DIGITS ==> d in digitCounts
    ensures SumTallies(digitCounts, COUNTED_DIGITS) == |AllDigits(Filtered(combinations))|
  {
    HardDigitsInRange(combinations);
    DigitCountsTotal(Filtered(combinations), digitCounts);
  }
}
