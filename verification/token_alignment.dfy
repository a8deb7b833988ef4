// Transcript metrics: edit distance, longest common subsequence, and the rates built on them.
module TokenAlignment {
  import opened Subsequences
  import opened Prelude

  // ---------------------------------------------------------------- edit scripts

  // A script is read from the last token backwards.
  datatype Edit<T> = Keep | Delete | Insert(token: T) | Substitute(token: T)

  // `script` turns `a` into `b`.
  predicate Turns<T(==)>(script: seq<Edit<T>>, a: seq<T>, b: seq<T>)
    decreases |script|
  {
    if script == [] then a == [] && b == []
    else
      var rest := script[..|script| - 1];
      match script[|script| - 1]
      case Keep => a != [] && b != [] && a[|a| - 1] == b[|b| - 1] && Turns(rest, a[..|a| - 1], b[..|b| - 1])
      case Delete => a != [] && Turns(rest, a[..|a| - 1], b)
      case Insert(t) => b != [] && b[|b| - 1] == t && Turns(rest, a, b[..|b| - 1])
      case Substitute(t) => a != [] && b != [] && b[|b| - 1] == t && Turns(rest, a[..|a| - 1], b[..|b| - 1])
  }

  function EditCost<T>(e: Edit<T>): nat { if e.Keep? then 0 else 1 }

  function Cost<T>(script: seq<Edit<T>>): nat {
    if script == [] then 0 else Cost(script[..|script| - 1]) + EditCost(script[|script| - 1])
  }

  // The least cost over all scripts that turn `a` into `b`.
  ghost predicate IsDistance<T(!new)>(d: nat, a: seq<T>, b: seq<T>) {
    && (exists script :: Turns(script, a, b) && Cost(script) == d)
    && (forall script :: Turns(script, a, b) ==> d <= Cost(script))
  }

  // ---------------------------------------------------------------- the table's recurrence

  function Least(a: int, b: int, c: int): int { Min(Min(a, b), c) }

  function EditDistance<T(==)>(a: seq<T>, b: seq<T>): nat
    decreases |a| + |b|
  {
    if a == [] then |b|
    else if b == [] then |a|
    else
      var a', b' := a[..|a| - 1], b[..|b| - 1];
      Least(EditDistance(a', b) + 1,
            EditDistance(a, b') + 1,
            EditDistance(a', b') + if a[|a| - 1] == b[|b| - 1] then 0 else 1)
  }

  // The same recurrence by table cell: row `i` and column `j` stand for two prefixes.
  function DistanceAt<T(==)>(a: seq<T>, b: seq<T>, i: nat, j: nat): nat
    requires i <= |a| && j <= |b|
    decreases i + j
  {
    if i == 0 then j
    else if j == 0 then i
    else Least(DistanceAt(a, b, i - 1, j) + 1,
               DistanceAt(a, b, i, j - 1) + 1,
               DistanceAt(a, b, i - 1, j - 1) + if a[i - 1] == b[j - 1] then 0 else 1)
  }

  lemma CellStep<T>(a: seq<T>, i: nat, b: seq<T>, j: nat)
    requires 0 < i <= |a| && 0 < j <= |b|
    requires DistanceAt(a, b, i - 1, j) == EditDistance(a[..i - 1], b[..j])
    requires DistanceAt(a, b, i, j - 1) == EditDistance(a[..i], b[..j - 1])
    requires DistanceAt(a, b, i - 1, j - 1) == EditDistance(a[..i - 1], b[..j - 1])
    ensures DistanceAt(a, b, i, j) == EditDistance(a[..i], b[..j])
  {
    assert a[..i][..i - 1] == a[..i - 1] && b[..j][..j - 1] == b[..j - 1];
  }

  lemma {:induction false} CellIsPrefixDistance<T>(a: seq<T>, b: seq<T>, i: nat, j: nat)
    requires i <= |a| && j <= |b|
    ensures DistanceAt(a, b, i, j) == EditDistance(a[..i], b[..j])
    decreases i + j
  {
    if i > 0 && j > 0 {
      CellIsPrefixDistance(a, b, i - 1, j);
      CellIsPrefixDistance(a, b, i, j - 1);
      CellIsPrefixDistance(a, b, i - 1, j - 1);
      CellStep(a, i, b, j);
    }
  }

  predicate Fits<T>(table: array2<nat>, a: seq<T>, b: seq<T>) {
    table.Length0 == |a| + 1 && table.Length1 == |b| + 1
  }

  // The rows above `row` hold their distances.
  ghost predicate RowsDone<T>(table: array2<nat>, a: seq<T>, b: seq<T>, row: nat)
    requires Fits(table, a, b) && row <= |a| + 1
    reads table
  {
    forall i, j :: 0 <= i < row && 0 <= j <= |b| ==> table[i, j] == DistanceAt(a, b, i, j)
  }

  ghost predicate FirstColumn<T>(table: array2<nat>, a: seq<T>, b: seq<T>)
    requires Fits(table, a, b)
    reads table
  {
    forall i :: 0 <= i <= |a| ==> table[i, 0] == i
  }

  method LevenshteinDistance<T(==)>(reference: seq<T>, hypothesis: seq<T>) returns (d: nat)
    ensures d == EditDistance(reference, hypothesis)
  {
    var table := new nat[|reference| + 1, |hypothesis| + 1]((_, _) => 0);
    FillBorders(table, reference, hypothesis);
    for row := 1 to |reference| + 1
      invariant RowsDone(table, reference, hypothesis, row) && FirstColumn(table, reference, hypothesis)
    {
      FillRow(table, reference, hypothesis, row);
    }
    d := table[|reference|, |hypothesis|];
    CellIsPrefixDistance(reference, hypothesis, |reference|, |hypothesis|);
    assert reference[..|reference|] == reference && hypothesis[..|hypothesis|] == hypothesis;
  }

  method FillBorders<T>(table: array2<nat>, a: seq<T>, b: seq<T>)
    requires Fits(table, a, b)
    modifies table
    ensures FirstColumn(table, a, b) && RowsDone(table, a, b, 1)
  {
    for row := 0 to |a| + 1
      invariant forall i :: 0 <= i < row ==> table[i, 0] == i
    {
      table[row, 0] := row;
    }
    for col := 0 to |b| + 1
      invariant FirstColumn(table, a, b)
      invariant forall j :: 0 <= j < col ==> table[0, j] == j
    {
      table[0, col] := col;
    }
  }

  method FillRow<T(==)>(table: array2<nat>, a: seq<T>, b: seq<T>, row: nat)
    requires Fits(table, a, b) && 0 < row <= |a|
    requires RowsDone(table, a, b, row) && FirstColumn(table, a, b)
    modifies table
    ensures RowsDone(table, a, b, row + 1) && FirstColumn(table, a, b)
  {
    for col := 1 to |b| + 1
      invariant RowsDone(table, a, b, row) && FirstColumn(table, a, b)
      invariant forall j :: 0 <= j < col ==> table[row, j] == DistanceAt(a, b, row, j)
    {
      FillCell(table, a, b, row, col);
    }
  }

  method FillCell<T(==)>(table: array2<nat>, a: seq<T>, b: seq<T>, row: nat, col: nat)
    requires Fits(table, a, b) && 0 < row <= |a| && 0 < col <= |b|
    requires table[row - 1, col] == DistanceAt(a, b, row - 1, col)
    requires table[row, col - 1] == DistanceAt(a, b, row, col - 1)
    requires table[row - 1, col - 1] == DistanceAt(a, b, row - 1, col - 1)
    modifies table
    ensures table[row, col] == DistanceAt(a, b, row, col)
    ensures forall i, j :: 0 <= i <= |a| && 0 <= j <= |b| && (i != row || j != col) ==> table[i, j] == old(table[i, j])
  {
    var substitution := if a[row - 1] == b[col - 1] then 0 else 1;
    table[row, col] := Least(table[row - 1, col] + 1, table[row, col - 1] + 1, table[row - 1, col - 1] + substitution);
  }

  // ---------------------------------------------------------------- it is the distance

  lemma Append<T>(script: seq<Edit<T>>, e: Edit<T>)
    ensures (script + [e])[..|script + [e]| - 1] == script && (script + [e])[|script + [e]| - 1] == e
    ensures Cost(script + [e]) == Cost(script) + EditCost(e)
  {
    assert (script + [e])[..|script + [e]| - 1] == script;
  }

  lemma {:induction false} BestScript<T>(a: seq<T>, b: seq<T>) returns (script: seq<Edit<T>>)
    ensures Turns(script, a, b) && Cost(script) == EditDistance(a, b)
    decreases |a| + |b|
  {
    if a == [] && b == [] {
      script := [];
    } else {
      var e: Edit<T>;
      var a', b' := if a == [] then a else a[..|a| - 1], if b == [] then b else b[..|b| - 1];
      if a == [] || (b != [] && EditDistance(a, b) == EditDistance(a, b') + 1) {
        script := BestScript(a, b');
        e := Insert(b[|b| - 1]);
      } else if b == [] || EditDistance(a, b) == EditDistance(a', b) + 1 {
        script := BestScript(a', b);
        e := Delete;
      } else {
        script := BestScript(a', b');
        e := if a[|a| - 1] == b[|b| - 1] then Keep else Substitute(b[|b| - 1]);
      }
      Append(script, e);
      script := script + [e];
    }
  }

  lemma {:induction false} NoScriptIsCheaper<T>(script: seq<Edit<T>>, a: seq<T>, b: seq<T>)
    requires Turns(script, a, b)
    ensures EditDistance(a, b) <= Cost(script)
    decreases |script|
  {
    if script != [] {
      var rest := script[..|script| - 1];
      match script[|script| - 1]
      case Keep => NoScriptIsCheaper(rest, a[..|a| - 1], b[..|b| - 1]);
      case Delete =>
        NoScriptIsCheaper(rest, a[..|a| - 1], b);
        DeletingGrowsByOne(a, b);
      case Insert(_) =>
        NoScriptIsCheaper(rest, a, b[..|b| - 1]);
        InsertingGrowsByOne(a, b);
      case Substitute(_) => NoScriptIsCheaper(rest, a[..|a| - 1], b[..|b| - 1]);
    }
  }

  lemma DeletingGrowsByOne<T>(a: seq<T>, b: seq<T>)
    requires a != []
    ensures EditDistance(a, b) <= EditDistance(a[..|a| - 1], b) + 1
  {
  }

  lemma InsertingGrowsByOne<T>(a: seq<T>, b: seq<T>)
    requires b != []
    ensures EditDistance(a, b) <= EditDistance(a, b[..|b| - 1]) + 1
  {
  }

  // The table computes the least cost over all edit scripts.
  lemma EditDistanceIsDistance<T(!new)>(a: seq<T>, b: seq<T>)
    ensures IsDistance(EditDistance(a, b), a, b)
  {
    var script := BestScript(a, b);
    forall other | Turns(other, a, b)
      ensures EditDistance(a, b) <= Cost(other)
    {
      NoScriptIsCheaper(other, a, b);
    }
  }

  // ---------------------------------------------------------------- it is a metric

  lemma {:induction false} Inverse<T>(script: seq<Edit<T>>, a: seq<T>, b: seq<T>) returns (back: seq<Edit<T>>)
    requires Turns(script, a, b)
    ensures Turns(back, b, a) && Cost(back) == Cost(script)
    decreases |script|
  {
    if script == [] {
      back := [];
    } else {
      var rest, last := script[..|script| - 1], script[|script| - 1];
      var e: Edit<T>;
      match last {
        case Keep => back := Inverse(rest, a[..|a| - 1], b[..|b| - 1]); e := Keep;
        case Delete => back := Inverse(rest, a[..|a| - 1], b); e := Insert(a[|a| - 1]);
        case Insert(_) => back := Inverse(rest, a, b[..|b| - 1]); e := Delete;
        case Substitute(_) => back := Inverse(rest, a[..|a| - 1], b[..|b| - 1]); e := Substitute(a[|a| - 1]);
      }
      Append(back, e);
      back := back + [e];
    }
  }

  // Doing one script after another is one script, at no more than their joint cost.
  lemma {:induction false} Compose<T>(
    first: seq<Edit<T>>, second: seq<Edit<T>>, a: seq<T>, b: seq<T>, c: seq<T>) returns (both: seq<Edit<T>>)
    requires Turns(first, a, b) && Turns(second, b, c)
    ensures Turns(both, a, c) && Cost(both) <= Cost(first) + Cost(second)
    decreases |first| + |second|
  {
    if first == [] && second == [] {
      both := [];
    } else if second != [] && second[|second| - 1].Insert? {
      both := Compose(first, second[..|second| - 1], a, b, c[..|c| - 1]);
      Append(both, second[|second| - 1]);
      both := both + [second[|second| - 1]];
    } else if first != [] && first[|first| - 1].Delete? {
      both := Compose(first[..|first| - 1], second, a[..|a| - 1], b, c);
      Append(both, Delete);
      both := both + [Delete];
    } else {
      // The last edit of `first` makes a token that the last edit of `second` takes up.
      both := ComposeMiddle(first, second, a, b, c);
    }
  }

  lemma {:induction false} ComposeMiddle<T>(
    first: seq<Edit<T>>, second: seq<Edit<T>>, a: seq<T>, b: seq<T>, c: seq<T>) returns (both: seq<Edit<T>>)
    requires Turns(first, a, b) && Turns(second, b, c) && (first != [] || second != [])
    requires first != [] ==> !first[|first| - 1].Delete?
    requires second != [] ==> !second[|second| - 1].Insert?
    ensures Turns(both, a, c) && Cost(both) <= Cost(first) + Cost(second)
    decreases |first| + |second|, 0
  {
    assert first != [] && second != [] && b != [];
    var made, taken := first[|first| - 1], second[|second| - 1];
    var a' := if made.Insert? then a else a[..|a| - 1];
    var c' := if taken.Delete? then c else c[..|c| - 1];
    both := Compose(first[..|first| - 1], second[..|second| - 1], a', b[..|b| - 1], c');
    if made.Insert? {
      if !taken.Delete? {
        var e := Insert(c[|c| - 1]);
        Append(both, e);
        both := both + [e];
      }
    } else {
      var e := if taken.Delete? then Delete
               else if made.Keep? && taken.Keep? then Keep
               else Substitute(c[|c| - 1]);
      Append(both, e);
      both := both + [e];
    }
  }

  lemma {:induction false} KeepAll<T>(a: seq<T>)
    ensures EditDistance(a, a) == 0
    decreases |a|
  {
    if a != [] { KeepAll(a[..|a| - 1]); }
  }

  lemma {:induction false} FreeScriptsChangeNothing<T>(script: seq<Edit<T>>, a: seq<T>, b: seq<T>)
    requires Turns(script, a, b) && Cost(script) == 0
    ensures a == b
    decreases |script|
  {
    if script != [] {
      FreeScriptsChangeNothing(script[..|script| - 1], a[..|a| - 1], b[..|b| - 1]);
      assert a == a[..|a| - 1] + [a[|a| - 1]] && b == b[..|b| - 1] + [b[|b| - 1]];
    }
  }

  // Zero exactly between equal lists, symmetric, and never longer by a detour.
  lemma EditDistanceIsMetric<T>(a: seq<T>, b: seq<T>, c: seq<T>)
    ensures EditDistance(a, b) == 0 <==> a == b
    ensures EditDistance(a, b) == EditDistance(b, a)
    ensures EditDistance(a, c) <= EditDistance(a, b) + EditDistance(b, c)
  {
    var ab := BestScript(a, b);
    var ba := BestScript(b, a);
    var bc := BestScript(b, c);
    KeepAll(a);
    if EditDistance(a, b) == 0 { FreeScriptsChangeNothing(ab, a, b); }
    var back := Inverse(ab, a, b);
    NoScriptIsCheaper(back, b, a);
    var forth := Inverse(ba, b, a);
    NoScriptIsCheaper(forth, a, b);
    var ac := Compose(ab, bc, a, b, c);
    NoScriptIsCheaper(ac, a, c);
  }

  // Between the difference of the lengths and the larger length.
  lemma {:induction false} EditDistanceBounds<T>(a: seq<T>, b: seq<T>)
    ensures Max(|a| - |b|, |b| - |a|) <= EditDistance(a, b) <= Max(|a|, |b|)
    decreases |a| + |b|
  {
    if a != [] && b != [] {
      EditDistanceBounds(a[..|a| - 1], b);
      EditDistanceBounds(a, b[..|b| - 1]);
      EditDistanceBounds(a[..|a| - 1], b[..|b| - 1]);
    }
  }

  // ---------------------------------------------------------------- word error rate

  function Ratio(part: nat, whole: nat): real
    requires whole > 0
  {
    part as real / whole as real
  }

  lemma RatioBounds(part: nat, whole: nat)
    requires whole > 0
    ensures Ratio(part, whole) * whole as real == part as real
    ensures 0.0 <= Ratio(part, whole)
    ensures Ratio(part, whole) == 0.0 <==> part == 0
    ensures Ratio(part, whole) <= 1.0 <==> part <= whole
  {
  }

  lemma ZeroIffEqual<T>(a: seq<T>, b: seq<T>)
    ensures EditDistance(a, b) == 0 <==> a == b
  {
    EditDistanceIsMetric(a, b, b);
  }

  // The rate is zero exactly for a perfect transcript, and at most one unless words were added.
  method NormalizedWer<T(==)>(reference: seq<T>, hypothesis: seq<T>) returns (wer: real)
    ensures wer == 0.0 <==> reference == hypothesis
    ensures 0.0 <= wer && (|hypothesis| <= |reference| ==> wer <= 1.0)
    ensures if reference != [] then wer == Ratio(EditDistance(reference, hypothesis), |reference|)
            else wer == if hypothesis == [] then 0.0 else 1.0
  {
    if reference == [] {
      return if hypothesis == [] then 0.0 else 1.0;
    }
    var d := LevenshteinDistance(reference, hypothesis);
    ZeroIffEqual(reference, hypothesis);
    EditDistanceBounds(reference, hypothesis);
    RatioBounds(d, |reference|);
    wer := Ratio(d, |reference|);
  }

  // ---------------------------------------------------------------- longest common subsequence

  // The greatest length over all common subsequences.
  ghost predicate IsLongestCommon<T(!new)>(n: nat, a: seq<T>, b: seq<T>) {
    && (exists c :: Subsequence(c, a) && Subsequence(c, b) && |c| == n)
    && (forall c :: Subsequence(c, a) && Subsequence(c, b) ==> |c| <= n)
  }

  function Lcs<T(==)>(a: seq<T>, b: seq<T>): nat
    decreases |a| + |b|
  {
    if a == [] || b == [] then 0
    else
      var a', b' := a[..|a| - 1], b[..|b| - 1];
      if a[|a| - 1] == b[|b| - 1] then Lcs(a', b') + 1
      else Max(Lcs(a', b), Lcs(a, b'))
  }

  method LcsLength<T(==)>(left: seq<T>, right: seq<T>) returns (n: nat)
    ensures n == Lcs(left, right)
  {
    if left == [] || right == [] {
      return 0;
    }
    var rows, cols := |left| + 1, |right| + 1;
    var table := new nat[rows, cols]((_, _) => 0);
    for row := 1 to rows
      invariant forall i, j :: 0 <= i < row && 0 <= j < cols ==> table[i, j] == Lcs(left[..i], right[..j])
      invariant forall i :: row <= i < rows ==> table[i, 0] == 0
    {
      for col := 1 to cols
        invariant forall i, j :: 0 <= i < row && 0 <= j < cols ==> table[i, j] == Lcs(left[..i], right[..j])
        invariant forall i :: row <= i < rows ==> table[i, 0] == 0
        invariant forall j :: 0 <= j < col ==> table[row, j] == Lcs(left[..row], right[..j])
      {
        LcsStep(left, row, right, col);
        if left[row - 1] == right[col - 1] {
          table[row, col] := table[row - 1, col - 1] + 1;
          continue;
        }
        table[row, col] := Max(table[row - 1, col], table[row, col - 1]);
      }
    }
    assert left[..rows - 1] == left && right[..cols - 1] == right;
    n := table[rows - 1, cols - 1];
  }

  lemma LcsStep<T>(a: seq<T>, i: nat, b: seq<T>, j: nat)
    requires 0 < i <= |a| && 0 < j <= |b|
    ensures Lcs(a[..i], b[..j])
         == if a[i - 1] == b[j - 1] then Lcs(a[..i - 1], b[..j - 1]) + 1
            else Max(Lcs(a[..i - 1], b[..j]), Lcs(a[..i], b[..j - 1]))
  {
    assert a[..i][..i - 1] == a[..i - 1] && b[..j][..j - 1] == b[..j - 1];
  }

  lemma {:induction false} CommonOfLength<T>(a: seq<T>, b: seq<T>) returns (c: seq<T>)
    ensures Subsequence(c, a) && Subsequence(c, b) && |c| == Lcs(a, b)
    decreases |a| + |b|
  {
    if a == [] || b == [] {
      c := [];
    } else {
      var a', b' := a[..|a| - 1], b[..|b| - 1];
      if a[|a| - 1] == b[|b| - 1] {
        c := CommonOfLength(a', b');
        assert (c + [a[|a| - 1]])[..|c|] == c;
        c := c + [a[|a| - 1]];
      } else if Lcs(a', b) >= Lcs(a, b') {
        c := CommonOfLength(a', b);
      } else {
        c := CommonOfLength(a, b');
      }
    }
  }

  lemma {:induction false} NoCommonIsLonger<T>(c: seq<T>, a: seq<T>, b: seq<T>)
    requires Subsequence(c, a) && Subsequence(c, b)
    ensures |c| <= Lcs(a, b)
    decreases |a| + |b|
  {
    if c != [] {
      var a', b', c' := a[..|a| - 1], b[..|b| - 1], c[..|c| - 1];
      if a[|a| - 1] == b[|b| - 1] {
        // Taking the common last token loses nothing.
        WithoutLast(c, a);
        WithoutLast(c, b);
        NoCommonIsLonger(c', a', b');
      } else if Subsequence(c, a') {
        NoCommonIsLonger(c, a', b);
      } else {
        assert c[|c| - 1] == a[|a| - 1];
        assert Subsequence(c, b');
        NoCommonIsLonger(c, a, b');
      }
    }
  }

  lemma WithoutLast<T>(c: seq<T>, s: seq<T>)
    requires c != [] && s != [] && Subsequence(c, s)
    ensures Subsequence(c[..|c| - 1], s[..|s| - 1])
  {
    if Subsequence(c, s[..|s| - 1]) { DropLast(c, s[..|s| - 1]); }
  }

  // The greedy table computes the greatest length over all common subsequences; it does not
  // matter which list is which, and neither list is exceeded.
  lemma LcsIsLongestCommon<T(!new)>(a: seq<T>, b: seq<T>)
    ensures IsLongestCommon(Lcs(a, b), a, b)
    ensures Lcs(a, b) == Lcs(b, a)
    ensures Lcs(a, b) <= |a| && Lcs(a, b) <= |b|
  {
    var c := CommonOfLength(a, b);
    var d := CommonOfLength(b, a);
    forall other | Subsequence(other, a) && Subsequence(other, b)
      ensures |other| <= Lcs(a, b)
    {
      NoCommonIsLonger(other, a, b);
    }
    NoCommonIsLonger(c, b, a);
    NoCommonIsLonger(d, a, b);
    NoLonger(c, a);
    NoLonger(c, b);
  }
}
