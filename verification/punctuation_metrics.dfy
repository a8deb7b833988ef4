// Punctuation precision, recall and F1 over the rows of an evaluation.
module PunctuationMetrics {
  import opened Prelude
  import opened Subsequences
  import opened TokenAlignment

  // One row's punctuation tokens, and its final punctuation mark on either side, as extracted.
  datatype Row<T> = Row(
    reference: seq<T>, hypothesis: seq<T>, expectedTerminal: Option<T>, actualTerminal: Option<T>)

  datatype Metrics = Metrics(
    precision: real, recall: real, f1: real, terminalAccuracy: real,
    referenceCount: nat, hypothesisCount: nat, matchedCount: nat, terminalTotal: nat, terminalMatched: nat)

  function Total<T>(rows: seq<Row<T>>, count: Row<T> -> nat): nat {
    if rows == [] then 0 else Total(rows[..|rows| - 1], count) + count(rows[|rows| - 1])
  }

  function Reference<T>(r: Row<T>): nat { |r.reference| }
  function Hypothesis<T>(r: Row<T>): nat { |r.hypothesis| }
  function Matched<T(==)>(r: Row<T>): nat { Lcs(r.reference, r.hypothesis) }
  function HasTerminal<T>(r: Row<T>): nat { if r.expectedTerminal.Some? then 1 else 0 }
  function TerminalMatches<T(==)>(r: Row<T>): nat {
    if r.expectedTerminal.Some? && r.actualTerminal == r.expectedTerminal then 1 else 0
  }

  // A share of nothing counts as perfect.
  function Rate(part: nat, whole: nat): real { if whole == 0 then 1.0 else Ratio(part, whole) }

  function F1(p: real, r: real): real { if p + r > 0.0 then 2.0 * p * r / (p + r) else 0.0 }

  predicate Perfect<T(==)>(rows: seq<Row<T>>) {
    forall k :: 0 <= k < |rows| ==> rows[k].reference == rows[k].hypothesis
  }

  // The counts of all rows, and the rates that counts make.
  predicate CountsOf<T(==)>(rows: seq<Row<T>>, m: Metrics) {
    && m.referenceCount == Total(rows, r => Reference(r)) && m.hypothesisCount == Total(rows, r => Hypothesis(r))
    && m.matchedCount == Total(rows, r => Matched(r))
    && m.terminalTotal == Total(rows, r => HasTerminal(r)) && m.terminalMatched == Total(rows, r => TerminalMatches(r))
  }

  predicate RatesOf(m: Metrics) {
    && m.precision == Rate(m.matchedCount, m.hypothesisCount) && m.recall == Rate(m.matchedCount, m.referenceCount)
    && m.f1 == F1(m.precision, m.recall) && m.terminalAccuracy == Rate(m.terminalMatched, m.terminalTotal)
  }

  // Twice the matches over all marks on both sides, and 1 when there are none.
  predicate SharedFraction(f1: real, matched: nat, hypotheses: nat, references: nat) {
    if hypotheses + references == 0 then f1 == 1.0
    else f1 * (hypotheses + references) as real == 2.0 * matched as real
  }

  // What rates promise when matches exceed neither count: all lie in [0,1], F1 lies between precision
  // and recall and is the shared fraction, and precision and recall are 1 exactly if all matched.
  predicate RatesPromise(m: Metrics) {
    && 0.0 <= m.precision <= 1.0 && 0.0 <= m.recall <= 1.0 && 0.0 <= m.terminalAccuracy <= 1.0
    && (m.precision <= m.f1 <= m.recall || m.recall <= m.f1 <= m.precision)
    && SharedFraction(m.f1, m.matchedCount, m.hypothesisCount, m.referenceCount)
    && (m.precision == 1.0 && m.recall == 1.0 <==> m.matchedCount == m.hypothesisCount == m.referenceCount)
    && (m.terminalAccuracy == 1.0 <==> m.terminalMatched == m.terminalTotal)
  }

  // Matches never exceed either count, and all counts are equal exactly when every row has the same
  // punctuation on both sides; the terminal counts are numbers of rows.
  predicate CountsPromise<T(==)>(rows: seq<Row<T>>, m: Metrics) {
    && m.matchedCount <= m.referenceCount && m.matchedCount <= m.hypothesisCount
    && (m.matchedCount == m.hypothesisCount == m.referenceCount <==> Perfect(rows))
    && m.terminalTotal == |WithTerminal(rows)| && m.terminalMatched == |TerminalRight(rows)|
    && m.terminalMatched <= m.terminalTotal
  }

  method ComputePunctuationMetrics<T(==)>(rows: seq<Row<T>>) returns (m: Metrics)
    ensures CountsOf(rows, m) && RatesOf(m)
    ensures CountsPromise(rows, m) && RatesPromise(m)
  {
    var references, hypotheses, matched, terminals, terminalMatches := 0, 0, 0, 0, 0;
    for k := 0 to |rows|
      invariant references == Total(rows[..k], r => Reference(r)) && hypotheses == Total(rows[..k], r => Hypothesis(r))
      invariant matched == Total(rows[..k], r => Matched(r))
      invariant terminals == Total(rows[..k], r => HasTerminal(r))
      invariant terminalMatches == Total(rows[..k], r => TerminalMatches(r))
    {
      assert rows[..k + 1][..k] == rows[..k];
      var row := rows[k];
      references := references + |row.reference|;
      hypotheses := hypotheses + |row.hypothesis|;
      var common := LcsLength(row.reference, row.hypothesis);
      matched := matched + common;
      if row.expectedTerminal.None? {
        continue;
      }
      terminals := terminals + 1;
      if row.actualTerminal == row.expectedTerminal {
        terminalMatches := terminalMatches + 1;
      }
    }
    assert rows[..|rows|] == rows;
    CountsKeepPromise(rows, Metrics(0.0, 0.0, 0.0, 0.0, references, hypotheses, matched, terminals, terminalMatches));
    m := RatesFromCounts(references, hypotheses, matched, terminals, terminalMatches);
  }

  method RatesFromCounts(references: nat, hypotheses: nat, matched: nat, terminals: nat, terminalMatches: nat)
    returns (m: Metrics)
    requires matched <= references && matched <= hypotheses && terminalMatches <= terminals
    ensures m == Metrics(m.precision, m.recall, m.f1, m.terminalAccuracy,
                         references, hypotheses, matched, terminals, terminalMatches)
    ensures RatesOf(m) && RatesPromise(m)
  {
    var precision := if hypotheses == 0 then 1.0 else Ratio(matched, hypotheses);
    var recall := if references == 0 then 1.0 else Ratio(matched, references);
    var f1 := if precision + recall > 0.0 then 2.0 * precision * recall / (precision + recall) else 0.0;
    var accuracy := if terminals == 0 then 1.0 else Ratio(terminalMatches, terminals);
    m := Metrics(precision, recall, f1, accuracy, references, hypotheses, matched, terminals, terminalMatches);
    RatesKeepPromise(m);
  }

  lemma RatesKeepPromise(m: Metrics)
    requires RatesOf(m)
    requires m.matchedCount <= m.referenceCount && m.matchedCount <= m.hypothesisCount
    requires m.terminalMatched <= m.terminalTotal
    ensures RatesPromise(m)
  {
    RateBounds(m.matchedCount, m.hypothesisCount);
    RateBounds(m.matchedCount, m.referenceCount);
    RateBounds(m.terminalMatched, m.terminalTotal);
    F1Between(m.precision, m.recall);
    F1IsSharedFraction(m.matchedCount, m.hypothesisCount, m.referenceCount);
  }

  lemma CountsKeepPromise<T>(rows: seq<Row<T>>, m: Metrics)
    requires CountsOf(rows, m)
    ensures CountsPromise(rows, m)
  {
    MatchesAreBounded(rows);
    PerfectIffAllMatched(rows);
    TerminalsAreCounted(rows);
  }

  lemma RateBounds(part: nat, whole: nat)
    requires part <= whole
    ensures 0.0 <= Rate(part, whole) <= 1.0
    ensures Rate(part, whole) == 1.0 <==> part == whole
  {
    if whole > 0 {
      RatioBounds(part, whole);
    }
  }

  lemma F1Between(p: real, r: real)
    requires 0.0 <= p && 0.0 <= r
    ensures p <= F1(p, r) <= r || r <= F1(p, r) <= p
  {
    if p + r > 0.0 {
      if p <= r {
        MeanBetween(p, r);
      } else {
        MeanBetween(r, p);
        assert 2.0 * p * r == 2.0 * r * p;
      }
    }
  }

  lemma MeanBetween(low: real, high: real)
    requires 0.0 <= low <= high && low + high > 0.0
    ensures low <= 2.0 * low * high / (low + high) <= high
  {
    var sum, product := low + high, 2.0 * low * high;
    assert product - low * sum == low * (high - low);
    assert high * sum - product == high * (high - low);
    Quotient(low, product, sum);
    Quotient(high, product, sum);
  }

  lemma Quotient(x: real, product: real, sum: real)
    requires sum > 0.0
    ensures x * sum <= product <==> x <= product / sum
    ensures product <= x * sum <==> product / sum <= x
  {
    assert product / sum * sum == product;
  }

  // F1 is twice the matches over all punctuation on both sides; it is perfect when there is none.
  lemma F1IsSharedFraction(matched: nat, hypotheses: nat, references: nat)
    requires matched <= hypotheses && matched <= references
    ensures SharedFraction(F1(Rate(matched, hypotheses), Rate(matched, references)), matched, hypotheses, references)
  {
    var p, r := Rate(matched, hypotheses), Rate(matched, references);
    if hypotheses > 0 && references > 0 {
      RatioBounds(matched, hypotheses);
      RatioBounds(matched, references);
      if matched > 0 {
        Harmonic(p, r, hypotheses as real, references as real, matched as real);
      }
    } else if hypotheses + references > 0 {
      RateBounds(matched, hypotheses);
      RateBounds(matched, references);
    }
  }

  lemma Harmonic(p: real, r: real, h: real, f: real, m: real)
    requires p * h == m && r * f == m && p + r > 0.0
    ensures F1(p, r) * (h + f) == 2.0 * m
  {
    var product, sum := 2.0 * p * r, p + r;
    assert product * (h + f) == 2.0 * r * (p * h) + 2.0 * p * (r * f) == 2.0 * m * sum;
    var quotient := product / sum;
    assert quotient * sum == product;
    assert (quotient * (h + f)) * sum == (2.0 * m) * sum;
    Cancel(quotient * (h + f), 2.0 * m, sum);
  }

  lemma Cancel(x: real, y: real, z: real)
    requires z > 0.0 && x * z == y * z
    ensures x == y
  {
  }

  // The rows whose reference ends in a punctuation mark, and those among them that match it.
  function WithTerminal<T>(rows: seq<Row<T>>): set<int> {
    set k | 0 <= k < |rows| && rows[k].expectedTerminal.Some?
  }

  function TerminalRight<T(==)>(rows: seq<Row<T>>): set<int> {
    set k | 0 <= k < |rows| && rows[k].expectedTerminal.Some? && rows[k].actualTerminal == rows[k].expectedTerminal
  }

  lemma OneTerminalMore<T>(rows: seq<Row<T>>, row: Row<T>)
    ensures |WithTerminal(rows + [row])| == |WithTerminal(rows)| + HasTerminal(row)
    ensures |TerminalRight(rows + [row])| == |TerminalRight(rows)| + TerminalMatches(row)
  {
    var n, longer := |rows|, rows + [row];
    assert forall k :: 0 <= k < n ==> longer[k] == rows[k];
    assert WithTerminal(longer) == if row.expectedTerminal.Some? then WithTerminal(rows) + {n} else WithTerminal(rows);
    assert TerminalRight(longer)
        == if row.expectedTerminal.Some? && row.actualTerminal == row.expectedTerminal then TerminalRight(rows) + {n}
           else TerminalRight(rows);
  }

  lemma {:induction false} TerminalsAreCounted<T>(rows: seq<Row<T>>)
    ensures Total(rows, r => HasTerminal(r)) == |WithTerminal(rows)|
    ensures Total(rows, r => TerminalMatches(r)) == |TerminalRight(rows)|
    decreases |rows|
  {
    if rows != [] {
      var before, row := rows[..|rows| - 1], rows[|rows| - 1];
      TerminalsAreCounted(before);
      OneTerminalMore(before, row);
      assert before + [row] == rows;
    } else {
      assert WithTerminal(rows) == {} && TerminalRight(rows) == {};
    }
  }

  // All tokens of one side, one row after the other.
  function AllTokens<T>(rows: seq<Row<T>>, side: Row<T> -> seq<T>): seq<T> {
    if rows == [] then [] else AllTokens(rows[..|rows| - 1], side) + side(rows[|rows| - 1])
  }

  lemma {:induction false} TokensAreCounted<T>(rows: seq<Row<T>>)
    ensures Total(rows, r => Reference(r)) == |AllTokens(rows, (r: Row<T>) => r.reference)|
    ensures Total(rows, r => Hypothesis(r)) == |AllTokens(rows, (r: Row<T>) => r.hypothesis)|
    decreases |rows|
  {
    if rows != [] { TokensAreCounted(rows[..|rows| - 1]); }
  }

  lemma {:induction false} MatchesAreBounded<T>(rows: seq<Row<T>>)
    ensures Total(rows, r => Matched(r)) <= Total(rows, r => Reference(r))
    ensures Total(rows, r => Matched(r)) <= Total(rows, r => Hypothesis(r))
    ensures Total(rows, r => TerminalMatches(r)) <= Total(rows, r => HasTerminal(r))
    decreases |rows|
  {
    if rows != [] {
      var last := rows[|rows| - 1];
      LcsBounds(last.reference, last.hypothesis);
      MatchesAreBounded(rows[..|rows| - 1]);
    }
  }

  lemma {:induction false} LcsBounds<T>(a: seq<T>, b: seq<T>)
    ensures Lcs(a, b) <= |a| && Lcs(a, b) <= |b|
    ensures Lcs(a, b) == |a| == |b| <==> a == b
  {
    var c := CommonOfLength(a, b);
    NoLonger(c, a);
    NoLonger(c, b);
    if Lcs(a, b) == |a| == |b| {
      WholeSubsequence(c, a);
      WholeSubsequence(c, b);
    }
    if a == b {
      Reflexive(a);
      NoCommonIsLonger(a, a, b);
    }
  }

  lemma {:induction false} WholeSubsequence<T>(c: seq<T>, a: seq<T>)
    requires Subsequence(c, a) && |c| == |a|
    ensures c == a
    decreases |a|
  {
    if c != [] {
      var a' := a[..|a| - 1];
      if Subsequence(c, a') { NoLonger(c, a'); }
      WholeSubsequence(c[..|c| - 1], a');
      assert c == c[..|c| - 1] + [c[|c| - 1]] && a == a' + [a[|a| - 1]];
    }
  }

  lemma {:induction false} PerfectIffAllMatched<T>(rows: seq<Row<T>>)
    ensures Perfect(rows) <==>
            Total(rows, r => Matched(r)) == Total(rows, r => Reference(r)) == Total(rows, r => Hypothesis(r))
    decreases |rows|
  {
    if rows != [] {
      var first, last := rows[..|rows| - 1], rows[|rows| - 1];
      PerfectIffAllMatched(first);
      MatchesAreBounded(first);
      LcsBounds(last.reference, last.hypothesis);
      assert Perfect(rows) <==> Perfect(first) && last.reference == last.hypothesis;
    }
  }
}
