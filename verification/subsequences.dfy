// Subsequences: what is left after deleting elements, in the same order.
module Subsequences {

  predicate Subsequence<T(==)>(a: seq<T>, b: seq<T>)
    decreases |b|
  {
    || a == []
    || (b != [] && (|| Subsequence(a, b[..|b| - 1])
                    || (a[|a| - 1] == b[|b| - 1] && Subsequence(a[..|a| - 1], b[..|b| - 1]))))
  }

  lemma {:induction false} Reflexive<T>(a: seq<T>)
    ensures Subsequence(a, a)
    decreases |a|
  {
    if a != [] { Reflexive(a[..|a| - 1]); }
  }

  lemma {:induction false} DropLast<T>(a: seq<T>, b: seq<T>)
    requires a != [] && Subsequence(a, b)
    ensures Subsequence(a[..|a| - 1], b)
    decreases |b|
  {
    var b' := b[..|b| - 1];
    if Subsequence(a, b') { DropLast(a, b'); }
  }

  lemma {:induction false} Transitive<T>(a: seq<T>, b: seq<T>, c: seq<T>)
    requires Subsequence(a, b) && Subsequence(b, c)
    ensures Subsequence(a, c)
    decreases |c|, |b|
  {
    if a != [] {
      var c' := c[..|c| - 1];
      if Subsequence(b, c') {
        Transitive(a, b, c');
      } else if Subsequence(a, b[..|b| - 1]) {
        Transitive(a, b[..|b| - 1], c');
      } else {
        Transitive(a[..|a| - 1], b[..|b| - 1], c');
      }
    }
  }

  lemma {:induction false} NoLonger<T>(a: seq<T>, b: seq<T>)
    requires Subsequence(a, b)
    ensures |a| <= |b|
    decreases |b|
  {
    if a != [] {
      var b' := b[..|b| - 1];
      if Subsequence(a, b') { NoLonger(a, b'); } else { NoLonger(a[..|a| - 1], b'); }
    }
  }

  // Cutting out a middle piece leaves a subsequence.
  lemma {:induction false} CutMiddle<T>(left: seq<T>, middle: seq<T>, right: seq<T>)
    ensures Subsequence(left + right, left + middle + right)
    decreases |middle| + |right|
  {
    var a, b := left + right, left + middle + right;
    if right != [] {
      var r := right[..|right| - 1];
      CutMiddle(left, middle, r);
      assert a[..|a| - 1] == left + r && b[..|b| - 1] == left + middle + r;
    } else if middle != [] {
      var m := middle[..|middle| - 1];
      CutMiddle(left, m, right);
      assert b[..|b| - 1] == left + m + right;
      assert a == left + right;
    } else {
      assert a == b;
      Reflexive(a);
    }
  }

  lemma CutOut<T>(s: seq<T>, i: nat, j: nat)
    requires i <= j <= |s|
    ensures Subsequence(s[..i] + s[j..], s)
  {
    CutMiddle(s[..i], s[i..j], s[j..]);
    assert s[..i] + s[i..j] + s[j..] == s;
  }

  lemma OfCutIsOfWhole<T>(r: seq<T>, s: seq<T>, i: nat, j: nat)
    requires i <= j <= |s| && Subsequence(r, s[..i] + s[j..])
    ensures Subsequence(r, s)
  {
    CutOut(s, i, j);
    Transitive(r, s[..i] + s[j..], s);
  }

  lemma PrefixIsSubsequence<T>(s: seq<T>, n: nat)
    requires n <= |s|
    ensures Subsequence(s[..n], s)
  {
    CutOut(s, n, |s|);
    assert s[..n] + s[|s|..] == s[..n];
  }

  lemma {:induction false} SuffixIsSubsequence<T>(s: seq<T>, k: nat)
    requires k <= |s|
    ensures Subsequence(s[k..], s)
    decreases |s|
  {
    if k < |s| {
      var suffix, shorter := s[k..], s[..|s| - 1];
      SuffixIsSubsequence(shorter, k);
      assert suffix[..|suffix| - 1] == shorter[k..];
    }
  }

  lemma PieceIsSubsequence<T>(s: seq<T>, k: nat, n: nat)
    requires k + n <= |s|
    ensures Subsequence(s[k..k + n], s)
  {
    var prefix := s[..k + n];
    PrefixIsSubsequence(s, k + n);
    SuffixIsSubsequence(prefix, k);
    assert prefix[k..] == s[k..k + n];
    Transitive(s[k..k + n], prefix, s);
  }
}
