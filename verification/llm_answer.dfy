// Cleaning of a model's answer: `<think>` blocks are cut out, the rest is trimmed.
module LlmAnswer {
  import opened Prelude
  import opened Text
  import opened Subsequences

  const OPEN := "<think>"
  const CLOSE := "</think>"

  predicate OccursAt(s: string, pattern: string, i: nat) {
    i + |pattern| <= |s| && s[i..i + |pattern|] == pattern
  }

  predicate Contains(s: string, pattern: string) {
    exists i: nat :: i <= |s| && OccursAt(s, pattern, i)
  }

  // The first occurrence of `pattern` at or after `from`.
  function Find(s: string, pattern: string, from: nat): (r: Option<nat>)
    requires from <= |s|
    ensures r.Some? ==> from <= r.value && r.value + |pattern| <= |s|
    decreases |s| - from
  {
    if OccursAt(s, pattern, from) then Some(from)
    else if from == |s| then None
    else Find(s, pattern, from + 1)
  }

  lemma {:induction false} FindIsFirst(s: string, pattern: string, from: nat)
    requires from <= |s|
    ensures var r := Find(s, pattern, from);
            && (r.Some? ==> OccursAt(s, pattern, r.value))
            && (forall j: nat :: from <= j && OccursAt(s, pattern, j) ==> r.Some? && r.value <= j)
    decreases |s| - from
  {
    if !OccursAt(s, pattern, from) && from < |s| {
      FindIsFirst(s, pattern, from + 1);
    }
  }

  lemma FoundAtFirst(s: string, pattern: string, from: nat, k: nat)
    requires from <= k <= |s| && OccursAt(s, pattern, k)
    requires forall j: nat :: from <= j < k ==> !OccursAt(s, pattern, j)
    ensures Find(s, pattern, from) == Some(k)
  {
    FindIsFirst(s, pattern, from);
  }

  // Cuts out every block from `open` to the first `close` after it; an unclosed one takes the rest.
  function Strip(s: string, open: string, close: string): string
    requires close != ""
    decreases |s|
  {
    match Find(s, open, 0)
    case None => s
    case Some(start) =>
      match Find(s, close, start)
      case None => s[..start]
      case Some(end) => Strip(s[..start] + s[end + |close|..], open, close)
  }

  function Sanitize(raw: string): string { Trim(Strip(raw, OPEN, CLOSE)) }

  method SanitizeModelAnswer(raw: string) returns (answer: string)
    ensures answer == Sanitize(raw)
  {
    var output := StripBlocks(raw, OPEN, CLOSE);
    answer := Trim(output);
  }

  method StripBlocks(raw: string, open: string, close: string) returns (output: string)
    requires close != ""
    ensures output == Strip(raw, open, close)
  {
    output := raw;
    var found := Find(output, open, 0);
    while found.Some?
      invariant found == Find(output, open, 0)
      invariant Strip(output, open, close) == Strip(raw, open, close)
      decreases |output|
    {
      var start := found.value;
      var end := Find(output, close, start);
      if end.None? {
        output := output[..start];
        return;
      }
      output := output[..start] + output[end.value + |close|..];
      found := Find(output, open, 0);
    }
  }

  lemma PrefixBeforeFirst(s: string, open: string, start: nat)
    requires Find(s, open, 0) == Some(start) && open != ""
    ensures !Contains(s[..start], open)
  {
    FindIsFirst(s, open, 0);
    forall i: nat | i <= start && OccursAt(s[..start], open, i)
      ensures false
    {
      OccursInWhole(s, 0, start, open, i);
    }
  }

  lemma {:induction false} StripLeavesNoTag(s: string, open: string, close: string)
    requires open != "" && close != ""
    ensures !Contains(Strip(s, open, close), open)
    decreases |s|
  {
    match Find(s, open, 0)
    case None => NotFoundIsAbsent(s, open);
    case Some(start) =>
      match Find(s, close, start)
      case None => PrefixBeforeFirst(s, open, start);
      case Some(end) =>
        var t := s[..start] + s[end + |close|..];
        StripLeavesNoTag(t, open, close);
        StripOne(s, open, close, start, end, t);
  }

  lemma StripOne(s: string, open: string, close: string, start: nat, end: nat, t: string)
    requires close != "" && Find(s, open, 0) == Some(start) && Find(s, close, start) == Some(end)
    requires t == s[..start] + s[end + |close|..]
    ensures Strip(s, open, close) == Strip(t, open, close)
  {
  }

  lemma NotFoundIsAbsent(s: string, pattern: string)
    requires Find(s, pattern, 0).None?
    ensures !Contains(s, pattern)
  {
    FindIsFirst(s, pattern, 0);
  }

  lemma {:induction false} StripIsSubsequence(s: string, open: string, close: string)
    requires close != ""
    ensures Subsequence(Strip(s, open, close), s)
    decreases |s|
  {
    match Find(s, open, 0)
    case None => Reflexive(s);
    case Some(start) =>
      match Find(s, close, start)
      case None => PrefixIsSubsequence(s, start);
      case Some(end) =>
        var t := s[..start] + s[end + |close|..];
        StripIsSubsequence(t, open, close);
        OfCutIsOfWhole(Strip(t, open, close), s, start, end + |close|);
        StripOne(s, open, close, start, end, t);
  }

  // An occurrence inside a piece of a text is an occurrence in the text.
  lemma OccursInWhole(s: string, k: nat, n: nat, pattern: string, i: nat)
    requires k + n <= |s| && OccursAt(s[k..k + n], pattern, i)
    ensures OccursAt(s, pattern, k + i)
  {
    var piece, m := s[k..k + n], |pattern|;
    assert forall x :: 0 <= x < m ==> pattern[x] == piece[i..i + m][x] == piece[i + x] == s[k + i + x];
  }

  lemma AbsentFromPiece(s: string, k: nat, n: nat, pattern: string)
    requires k + n <= |s| && !Contains(s, pattern)
    ensures !Contains(s[k..k + n], pattern)
  {
    var piece := s[k..k + n];
    forall i: nat | i <= |piece| && OccursAt(piece, pattern, i)
      ensures false
    {
      OccursInWhole(s, k, n, pattern, i);
    }
  }

  lemma AbsentIsNotFound(s: string, pattern: string)
    requires !Contains(s, pattern)
    ensures Find(s, pattern, 0).None?
  {
    FindIsFirst(s, pattern, 0);
  }

  // The cleaned answer holds no opening tag, even where a removal joined text into a new one; it
  // is a subsequence of the raw answer; and cleaning it again changes nothing.
  lemma SanitizedAnswer(raw: string)
    ensures !Contains(Sanitize(raw), "<think>")
    ensures Subsequence(Sanitize(raw), raw)
    ensures Sanitize(Sanitize(raw)) == Sanitize(raw)
  {
    var s := Strip(raw, OPEN, CLOSE);
    StripLeavesNoTag(raw, OPEN, CLOSE);
    var k := TrimIsPiece(s);
    AbsentFromPiece(s, k, |Trim(s)|, OPEN);
    StripIsSubsequence(raw, OPEN, CLOSE);
    PieceIsSubsequence(s, k, |Trim(s)|);
    Transitive(Trim(s), s, raw);
    UntaggedAnswerIsOnlyTrimmed(Trim(s));
    TrimIsTrimmed(s);
  }

  // Nothing but white space around it is lost from an answer without a tag.
  lemma UntaggedAnswerIsOnlyTrimmed(raw: string)
    requires !Contains(raw, "<think>")
    ensures Sanitize(raw) == Trim(raw)
  {
    AbsentIsNotFound(raw, OPEN);
  }

  // A block that opens at the first tag and closes at the first closing tag after it vanishes,
  // and only it: the answer is that of the text before it joined to the text after it.
  lemma BlockVanishes(raw: string, start: nat, close: nat)
    requires start <= close && close + 8 <= |raw|
    requires OccursAt(raw, "<think>", start) && forall i: nat :: i < start ==> !OccursAt(raw, "<think>", i)
    requires OccursAt(raw, "</think>", close) && forall i: nat :: start <= i < close ==> !OccursAt(raw, "</think>", i)
    ensures Sanitize(raw) == Sanitize(raw[..start] + raw[close + 8..])
  {
    FoundAtFirst(raw, OPEN, 0, start);
    FoundAtFirst(raw, CLOSE, start, close);
  }

  // An unclosed block takes the whole rest of the answer with it.
  lemma UnclosedBlockTakesTheRest(raw: string, start: nat)
    requires start <= |raw| && OccursAt(raw, "<think>", start)
    requires forall i: nat :: i < start ==> !OccursAt(raw, "<think>", i)
    requires forall i: nat :: start <= i ==> !OccursAt(raw, "</think>", i)
    ensures Sanitize(raw) == Trim(raw[..start])
  {
    FoundAtFirst(raw, OPEN, 0, start);
    FindIsFirst(raw, CLOSE, start);
  }
}
