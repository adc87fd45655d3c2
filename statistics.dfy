/**
 * The frequency tables both classifiers print after filtering: how often each digit
 * and each operator occurs across the kept records. The two scripts fill these
 * tables with the same loops, so they are modelled once here.
 *
 * The tables are JavaScript objects updated with `table[key]++`. On a key the table
 * was not initialised with, that reads `undefined` and stores `NaN`, and `NaN`
 * stays `NaN` under further increments; `Tally` models exactly that. Every key is
 * treated as an ordinary own property: keys with special meaning to JavaScript
 * objects (`__proto__`, inherited property names) are not modelled.
 */
module Statistics {
  import opened Sequences
  import opened Combinations

  datatype Tally = Count(n: nat) | NaN

  /** JavaScript's `m[k]++` on an object whose values are numbers or absent. */
  function Incremented<K>(m: map<K, Tally>, k: K): (m': map<K, Tally>)
    ensures m'.Keys == m.Keys + {k}
    ensures forall j :: j in m && j != k ==> m'[j] == m[j]
    ensures k in m && m[k].Count? ==> m'[k] == Count(m[k].n + 1)
    ensures !(k in m && m[k].Count?) ==> m'[k] == NaN
  {
    m[k := if k in m && m[k].Count? then Count(m[k].n + 1) else NaN]
  }

  /**
   * `counts` is the table obtained by starting from zero on every key of `keys` and
   * applying `counts[x]++` for each `x` of `items`: each initial key holds the number
   * of times it occurs, any other key is present exactly when it occurs, and then
   * holds `NaN`.
   */
  ghost predicate TalliesOf<K(!new)>(counts: map<K, Tally>, keys: set<K>, items: seq<K>) {
    && (forall k :: k in keys ==> k in counts && counts[k] == Count(Occurrences(items, k)))
    && (forall k :: k !in keys ==> (k in counts <==> k in items))
    && (forall k :: k in counts && k !in keys ==> counts[k] == NaN)
  }

  /** `counts[x]++` keeps the table in step with the items counted so far. */
  lemma {:induction false} TalliesStep<K(!new)>(counts: map<K, Tally>, keys: set<K>, items: seq<K>, x: K, items': seq<K>)
    requires TalliesOf(counts, keys, items)
    requires items' == items + [x]
    ensures TalliesOf(Incremented(counts, x), keys, items')
  {
    forall k
      ensures Occurrences(items', k) == Occurrences(items, k) + (if x == k then 1 else 0)
    {
      OccurrencesAppend(items, [x], k);
    }
  }

  /** Sum of the tallies of the listed keys; a `NaN` contributes nothing. */
  function SumTallies<K>(counts: map<K, Tally>, ks: seq<K>): nat
    requires forall k :: k in ks ==> k in counts
  {
    if ks == [] then 0
    else (if counts[ks[0]].Count? then counts[ks[0]].n else 0) + SumTallies(counts, ks[1..])
  }

  /**
   * When every counted item is one of the pairwise-distinct initial keys, the
   * initial keys' tallies add up to the number of items.
   */
  lemma {:induction false} TallyTotal<K(!new)>(counts: map<K, Tally>, keys: set<K>, ks: seq<K>, items: seq<K>)
    requires NoDuplicates(ks)
    requires forall k :: k in keys <==> k in ks
    requires TalliesOf(counts, keys, items)
    requires forall x :: x in items ==> x in ks
    ensures forall k :: k in ks ==> k in counts
    ensures SumTallies(counts, ks) == |items|
  {
    SumTalliesIsSumOccurrences(counts, keys, ks, items);
    SumOccurrencesTotal(items, ks);
  }

  lemma {:induction false} SumTalliesIsSumOccurrences<K(!new)>(counts: map<K, Tally>, keys: set<K>, ks: seq<K>, items: seq<K>)
    requires TalliesOf(counts, keys, items)
    requires forall k :: k in ks ==> k in keys
    ensures forall k :: k in ks ==> k in counts
    ensures SumTallies(counts, ks) == SumOccurrences(items, ks)
  {
    if ks != [] {
      SumTalliesIsSumOccurrences(counts, keys, ks[1..], items);
    }
  }

  /** The keys the two tables are initialised with, as sets. */
  const DIGIT_KEYS: set<int> := set d | d in COUNTED_DIGITS
  const OPERATOR_KEYS: set<string> := set op | op in OPERATOR_SYMBOLS

  /** A table holding 0 for each of `keys` and nothing else. */
  function ZeroTable<K>(keys: set<K>): map<K, Tally> {
    map k | k in keys :: Count(0)
  }

  /** The table after `counts[x]++` for each `x` of `items` in turn, starting from `init`. */
  function Tallied<K>(init: map<K, Tally>, items: seq<K>): map<K, Tally>
    decreases |items|
  {
    if items == [] then init
    else Incremented(Tallied(init, items[..|items| - 1]), items[|items| - 1])
  }

  /** One more `counts[x]++`, for the `j`-th value of a record after the values `before`. */
  lemma {:induction false} TalliedNext<K>(init: map<K, Tally>, before: seq<K>, values: seq<K>, j: nat)
    requires j < |values|
    ensures Tallied(init, before + values[..j + 1]) == Incremented(Tallied(init, before + values[..j]), values[j])
  {
    var next := before + values[..j + 1];
    assert next[..|next| - 1] == before + values[..j];
  }

  lemma {:induction false} TalliedFromZero<K(!new)>(keys: set<K>, items: seq<K>)
    ensures TalliesOf(Tallied(ZeroTable(keys), items), keys, items)
  {
    if items != [] {
      var prefix, last := items[..|items| - 1], items[|items| - 1];
      TalliedFromZero(keys, prefix);
      assert items == prefix + [last];
      TalliesStep(Tallied(ZeroTable(keys), prefix), keys, prefix, last, items);
    }
  }

  /**
   * `digitCounts`: starts with 0 for each of the digits 2 to 9, then adds one per
   * digit of every record.
   */
  method CountDigits(combinations: seq<Record>) returns (digitCounts: map<int, Tally>)
    ensures TalliesOf(digitCounts, DIGIT_KEYS, AllDigits(combinations))
  {
    digitCounts := map[];
    for d := 2 to 10
      invariant forall k :: k in digitCounts <==> 2 <= k < d
      invariant forall k :: k in digitCounts ==> digitCounts[k] == Count(0)
    {
      digitCounts := digitCounts[d := Count(0)];
    }
    ghost var zero := ZeroTable(DIGIT_KEYS);
    assert digitCounts == zero by {
      forall k ensures k in digitCounts <==> k in zero {}
    }
    assert combinations[..0] == [];
    for i := 0 to |combinations|
      invariant digitCounts == Tallied(zero, AllDigits(combinations[..i]))
    {
      var numbers := combinations[i].numbers;
      ghost var before := AllDigits(combinations[..i]);
      assert before + numbers[..0] == before;
      for j := 0 to |numbers|
        invariant digitCounts == Tallied(zero, before + numbers[..j])
      {
        TalliedNext(zero, before, numbers, j);
        digitCounts := Incremented(digitCounts, numbers[j]);
      }
      assert numbers[..|numbers|] == numbers;
      AllDigitsNext(combinations, i);
    }
    assert combinations[..|combinations|] == combinations;
    TalliedFromZero(DIGIT_KEYS, AllDigits(combinations));
  }

  /**
   * `operatorCounts`: starts with 0 for each of the four symbols, then adds one per
   * operator of every record.
   */
  method CountOperators(combinations: seq<Record>) returns (operatorCounts: map<string, Tally>)
    ensures TalliesOf(operatorCounts, OPERATOR_KEYS, AllOperators(combinations))
  {
    operatorCounts := map[PLUS := Count(0), MINUS := Count(0), TIMES := Count(0), DIVIDE := Count(0)];
    ghost var zero := ZeroTable(OPERATOR_KEYS);
    assert operatorCounts == zero;
    assert combinations[..0] == [];
    for i := 0 to |combinations|
      invariant operatorCounts == Tallied(zero, AllOperators(combinations[..i]))
    {
      var operators := combinations[i].operators;
      ghost var before := AllOperators(combinations[..i]);
      assert before + operators[..0] == before;
      for j := 0 to |operators|
        invariant operatorCounts == Tallied(zero, before + operators[..j])
      {
        TalliedNext(zero, before, operators, j);
        operatorCounts := Incremented(operatorCounts, operators[j]);
      }
      assert operators[..|operators|] == operators;
      AllOperatorsNext(combinations, i);
    }
    assert combinations[..|combinations|] == combinations;
    TalliedFromZero(OPERATOR_KEYS, AllOperators(combinations));
  }

  /** The digit keys are listed once each, and so are the operator keys. */
  lemma {:induction false} CountedDigitsDistinct()
    ensures NoDuplicates(COUNTED_DIGITS)
  {
  }

  lemma {:induction false} CountedDigit(x: int)
    requires 2 <= x <= 9
    ensures x in COUNTED_DIGITS
  {
    assert COUNTED_DIGITS[x - 2] == x;
  }

  lemma {:induction false} OperatorSymbolsDistinct()
    ensures NoDuplicates(OPERATOR_SYMBOLS)
  {
  }

  /**
   * If every digit lies in 2..9, the eight digit counts add up to the number of
   * digits, which is four per record when every record has four digits.
   */
  lemma {:induction false} DigitCountsTotal(combinations: seq<Record>, digitCounts: map<int, Tally>)
    requires TalliesOf(digitCounts, DIGIT_KEYS, AllDigits(combinations))
    requires forall c, d :: c in combinations && d in c.numbers ==> 2 <= d <= 9
    ensures forall d :: d in COUNTED_DIGITS ==> d in digitCounts
    ensures SumTallies(digitCounts, COUNTED_DIGITS) == |AllDigits(combinations)|
    ensures (forall c :: c in combinations ==> |c.numbers| == 4) ==>
              SumTallies(digitCounts, COUNTED_DIGITS) == 4 * |combinations|
  {
    var items := AllDigits(combinations);
    AllDigitsFacts(combinations);
    forall x | x in items ensures x in COUNTED_DIGITS {
      var c :| c in combinations && x in c.numbers;
      CountedDigit(x);
    }
    CountedDigitsDistinct();
    TallyTotal(digitCounts, DIGIT_KEYS, COUNTED_DIGITS, items);
  }

  /**
   * If every operator is one of the four symbols, the four operator counts add up
   * to the number of operators, which is three per record when every record has
   * three operators.
   */
  lemma {:induction false} OperatorCountsTotal(combinations: seq<Record>, operatorCounts: map<string, Tally>)
    requires TalliesOf(operatorCounts, OPERATOR_KEYS, AllOperators(combinations))
    requires forall c, op :: c in combinations && op in c.operators ==> op in OPERATOR_SYMBOLS
    ensures forall op :: op in OPERATOR_SYMBOLS ==> op in operatorCounts
    ensures SumTallies(operatorCounts, OPERATOR_SYMBOLS) == |AllOperators(combinations)|
    ensures (forall c :: c in combinations ==> |c.operators| == 3) ==>
              SumTallies(operatorCounts, OPERATOR_SYMBOLS) == 3 * |combinations|
  {
    var items := AllOperators(combinations);
    AllOperatorsFacts(combinations);
    forall x | x in items ensures x in OPERATOR_SYMBOLS {
      var c :| c in combinations && x in c.operators;
    }
    OperatorSymbolsDistinct();
    TallyTotal(operatorCounts, OPERATOR_KEYS, OPERATOR_SYMBOLS, items);
  }
}
