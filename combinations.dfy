/**
 * A combination record as it is stored in `valid-combinations.json` and in every
 * tier file: four digits, the operators between them, a display string and the
 * value the expression evaluates to. The classifiers and the uploader never
 * evaluate `expression` or check `result`; they are carried along unchanged.
 */
module Combinations {
  import opened Sequences

  /**
   * Operators are kept as the JSON strings they are ("+", "-", "*", "/"), so that a
   * file holding any other symbol is representable too.
   */
  datatype Record = Record(numbers: seq<int>, operators: seq<string>, expression: string, result: int)

  const PLUS: string := "+"
  const MINUS: string := "-"
  const TIMES: string := "*"
  const DIVIDE: string := "/"

  /** The four operator symbols, each once: the keys of `operatorCounts`. */
  const OPERATOR_SYMBOLS: seq<string> := [PLUS, MINUS, TIMES, DIVIDE]

  /** The digits 2 to 9, each once: the keys `digitCounts` is initialised with. */
  const COUNTED_DIGITS: seq<int> := [2, 3, 4, 5, 6, 7, 8, 9]

  /** `new Set(combo.numbers).size === 4`. */
  predicate HasFourDistinctDigits(c: Record) {
    |Distinct(c.numbers)| == 4
  }

  /** For a record of four digits, "four distinct values" means no digit repeats. */
  lemma {:induction false} FourDistinctDigitsMeansNoRepeat(c: Record)
    requires |c.numbers| == 4
    ensures HasFourDistinctDigits(c) <==> NoDuplicates(c.numbers)
  {
    DistinctSize(c.numbers);
  }

  /** Every digit of every record, record by record (the nested loop over `combo.numbers`). */
  function AllDigits(cs: seq<Record>): seq<int> {
    if cs == [] then [] else AllDigits(cs[..|cs| - 1]) + cs[|cs| - 1].numbers
  }

  lemma {:induction false} AllDigitsNext(cs: seq<Record>, i: nat)
    requires i < |cs|
    ensures AllDigits(cs[..i + 1]) == AllDigits(cs[..i]) + cs[i].numbers
  {
    assert cs[..i + 1][..i] == cs[..i];
  }

  /** Every collected digit comes from some record; four digits per record give 4 * |cs| of them. */
  lemma {:induction false} AllDigitsFacts(cs: seq<Record>)
    ensures (forall c :: c in cs ==> |c.numbers| == 4) ==> |AllDigits(cs)| == 4 * |cs|
    ensures forall x :: x in AllDigits(cs) ==> exists c :: c in cs && x in c.numbers
  {
    if cs != [] {
      var prefix := cs[..|cs| - 1];
      AllDigitsFacts(prefix);
      assert forall c :: c in prefix ==> c in cs;
    }
  }

  /** Every operator of every record, record by record (the nested loop over `combo.operators`). */
  function AllOperators(cs: seq<Record>): seq<string> {
    if cs == [] then [] else AllOperators(cs[..|cs| - 1]) + cs[|cs| - 1].operators
  }

  lemma {:induction false} AllOperatorsNext(cs: seq<Record>, i: nat)
    requires i < |cs|
    ensures AllOperators(cs[..i + 1]) == AllOperators(cs[..i]) + cs[i].operators
  {
    assert cs[..i + 1][..i] == cs[..i];
  }

  /** Every collected operator comes from some record; three per record give 3 * |cs| of them. */
  lemma {:induction false} AllOperatorsFacts(cs: seq<Record>)
    ensures (forall c :: c in cs ==> |c.operators| == 3) ==> |AllOperators(cs)| == 3 * |cs|
    ensures forall x :: x in AllOperators(cs) ==> exists c :: c in cs && x in c.operators
  {
    if cs != [] {
      var prefix := cs[..|cs| - 1];
      AllOperatorsFacts(prefix);
      assert forall c :: c in prefix ==> c in cs;
    }
  }

  /** `operators.join('')`. */
  function Join(ops: seq<string>): (p: string)
    ensures (forall i :: 0 <= i < |ops| ==> |ops[i]| == 1) ==>
              |p| == |ops| && forall i :: 0 <= i < |ops| ==> p[i] == ops[i][0]
  {
    if ops == [] then "" else ops[0] + Join(ops[1..])
  }

  /** The operator pattern of each record, in record order. */
  function Patterns(cs: seq<Record>): (ps: seq<string>)
    ensures |ps| == |cs|
    ensures forall i :: 0 <= i < |cs| ==> ps[i] == Join(cs[i].operators)
  {
    if cs == [] then [] else Patterns(cs[..|cs| - 1]) + [Join(cs[|cs| - 1].operators)]
  }
}
