// Framing of the model's event stream: bytes arrive in chunks, lines are cut at LF.
module SseStream {
  import opened Prelude
  import opened Text

  type Byte = x: int | 0 <= x < 256
  type Bytes = seq<Byte>
  const LF: Byte := 10
  const CR: Byte := 13

  // What one line asks for: nothing, one more delta, the end of the answer, or giving up.
  datatype Effect = Skip | Delta(text: string) | Finish | Abandon

  // How bytes become text, and text an effect. The framing holds for every such pair.
  datatype Decoder = Decoder(utf8: Bytes -> Option<string>, interpret: string -> Effect)

  const DATA := "data:"
  const DONE := "[DONE]"

  // The client's own reading of one line. `payload` stands for the JSON parser: `None` when the
  // payload does not parse, otherwise the content of its first delta, if it has one.
  function Interpret(payload: string -> Option<Option<string>>, line: string): Effect {
    var t := Trim(line);
    if !(DATA <= t) then Skip
    else
      var data := Trim(t[|DATA|..]);
      if data == DONE then Finish
      else
        match payload(data)
        case None => Abandon
        case Some(delta) => if delta.None? || delta.value == "" then Skip else Delta(delta.value)
  }

  function ClientDecoder(utf8: Bytes -> Option<string>, payload: string -> Option<Option<string>>): Decoder {
    Decoder(utf8, line => Interpret(payload, line))
  }

  // ---------------------------------------------------------------- cutting lines

  // All complete lines of `b`, without their LF, and the bytes after the last LF.
  function Cut(b: Bytes): (seq<Bytes>, Bytes) {
    if b == [] then ([], [])
    else
      var (lines, rest) := Cut(b[..|b| - 1]);
      if b[|b| - 1] == LF then (lines + [rest], []) else (lines, rest + [b[|b| - 1]])
  }

  lemma {:induction false} CutConcat(a: Bytes, b: Bytes)
    ensures Cut(a + b) == (Cut(a).0 + Cut(Cut(a).1 + b).0, Cut(Cut(a).1 + b).1)
    decreases |b|
  {
    var rest := Cut(a).1;
    if b == [] {
      assert a + b == a && rest + b == rest && Cut(a).0 + [] == Cut(a).0;
      CutRest(a);
    } else {
      var b' := b[..|b| - 1];
      CutConcat(a, b');
      assert (a + b)[..|a + b| - 1] == a + b';
      assert (rest + b)[..|rest + b| - 1] == rest + b';
      var (lines, tail) := Cut(rest + b');
      assert Cut(a).0 + (lines + [tail]) == (Cut(a).0 + lines) + [tail];
    }
  }

  lemma {:induction false} CutNoLf(b: Bytes)
    requires LF !in b
    ensures Cut(b) == ([], b)
    decreases |b|
  {
    if b != [] {
      CutNoLf(b[..|b| - 1]);
      assert b[..|b| - 1] + [b[|b| - 1]] == b;
    }
  }

  lemma {:induction false} CutRest(b: Bytes)
    ensures LF !in Cut(b).1
    ensures Cut(Cut(b).1) == ([], Cut(b).1)
    decreases |b|
  {
    if b != [] { CutRest(b[..|b| - 1]); }
    var rest := Cut(b).1;
    assert LF !in rest;
    CutNoLf(rest);
  }

  lemma CutLineAndRest(line: Bytes, others: Bytes)
    requires LF !in line
    ensures Cut(line + [LF] + others) == ([line] + Cut(others).0, Cut(others).1)
  {
    CutOneLine(line + [LF], line);
    CutConcat(line + [LF], others);
    assert [] + others == others;
  }

  // The first line of `b` is what stands before its first LF.
  lemma CutFirstLine(b: Bytes, k: nat)
    requires k < |b| && b[k] == LF && LF !in b[..k]
    ensures Cut(b) == ([b[..k]] + Cut(b[k + 1..]).0, Cut(b[k + 1..]).1)
  {
    SplitAt(b, k);
    CutLineAndRest(b[..k], b[k + 1..]);
  }

  lemma SplitAt(b: Bytes, k: nat)
    requires k < |b| && b[k] == LF
    ensures b == b[..k] + [LF] + b[k + 1..]
  {
  }

  lemma CutOneLine(first: Bytes, line: Bytes)
    requires first == line + [LF] && LF !in line
    ensures Cut(first) == ([line], [])
  {
    CutNoLf(line);
    assert first[..|first| - 1] == line;
    assert [] + [line] == [line];
  }

  // ---------------------------------------------------------------- decoding lines

  function WithoutCr(raw: Bytes): Bytes {
    if raw != [] && raw[|raw| - 1] == CR then raw[..|raw| - 1] else raw
  }

  function TrimEndCr(s: string): string {
    if s != "" && s[|s| - 1] == '\r' then TrimEndCr(s[..|s| - 1]) else s
  }

  function DecodeLine(d: Decoder, raw: Bytes): Option<string> { d.utf8(WithoutCr(raw)) }

  predicate Decodable(d: Decoder, lines: seq<Bytes>) {
    forall k :: 0 <= k < |lines| ==> DecodeLine(d, lines[k]).Some?
  }

  function DecodeAll(d: Decoder, lines: seq<Bytes>): (r: Option<seq<string>>)
    ensures r.Some? <==> Decodable(d, lines)
  {
    if lines == [] then Some([])
    else
      match DecodeLine(d, lines[0])
      case None => None
      case Some(line) =>
        match DecodeAll(d, lines[1..])
        case None => None
        case Some(others) => Some([line] + others)
  }

  // The bytes not yet cut into lines: complete lines are drained from the front.
  class LineBuffer {
    var bytes: Bytes

    constructor ()
      ensures bytes == []
    {
      bytes := [];
    }

    method Extend(chunk: Bytes)
      modifies this
      ensures bytes == old(bytes) + chunk
    {
      bytes := bytes + chunk;
    }

    // On an undecodable line the buffer is abandoned with the stream, so only success fixes it.
    method DrainComplete(d: Decoder) returns (drained: Option<seq<string>>)
      modifies this
      ensures drained == DecodeAll(d, Cut(old(bytes)).0)
      ensures drained.Some? ==> bytes == Cut(old(bytes)).1
    {
      var lines: seq<string> := [];
      ghost var done: seq<Bytes> := [];
      ghost var all := Cut(bytes);
      assert done + Cut(bytes).0 == Cut(bytes).0;
      var k := FindLf(bytes);
      while k < |bytes|
        invariant 0 <= k <= |bytes| && LF !in bytes[..k] && (k < |bytes| ==> bytes[k] == LF)
        invariant all == (done + Cut(bytes).0, Cut(bytes).1)
        invariant DecodeAll(d, done) == Some(lines)
        decreases |bytes|
      {
        CutFirstLine(bytes, k);
        var raw := bytes[..k];
        bytes := bytes[k + 1..];
        var line := d.utf8(WithoutCr(raw));
        assert done + ([raw] + Cut(bytes).0) == (done + [raw]) + Cut(bytes).0;
        if line.None? {
          assert all.0[|done|] == raw;
          return None;
        }
        DecodeOneMore(d, done, raw);
        done := done + [raw];
        lines := lines + [line.value];
        k := FindLf(bytes);
      }
      assert bytes[..k] == bytes;
      CutNoLf(bytes);
      assert done + [] == done;
      drained := Some(lines);
    }

    method DrainLines(d: Decoder, flushPartial: bool) returns (drained: Option<seq<string>>)
      modifies this
      ensures !flushPartial ==> drained == DecodeAll(d, Cut(old(bytes)).0)
      ensures !flushPartial && drained.Some? ==> bytes == Cut(old(bytes)).1
      ensures flushPartial ==> drained == Flush(d, old(bytes))
    {
      drained := DrainComplete(d);
      if flushPartial && drained.Some? && bytes != [] {
        var line := d.utf8(bytes);
        if line.None? {
          return None;
        }
        drained := Some(drained.value + [TrimEndCr(line.value)]);
        bytes := [];
      }
    }
  }

  lemma DecodeOneMore(d: Decoder, done: seq<Bytes>, raw: Bytes)
    requires DecodeAll(d, done).Some? && DecodeLine(d, raw).Some?
    ensures DecodeAll(d, done + [raw]) == Some(DecodeAll(d, done).value + [DecodeLine(d, raw).value])
  {
    DecodeAllConcat(d, done, [raw]);
    assert DecodeAll(d, [raw][1..]) == Some([]) && [DecodeLine(d, raw).value] + [] == [DecodeLine(d, raw).value];
  }

  method FindLf(b: Bytes) returns (k: nat)
    ensures k <= |b| && LF !in b[..k] && (k < |b| ==> b[k] == LF)
  {
    k := 0;
    while k < |b| && b[k] != LF
      invariant k <= |b| && LF !in b[..k]
    {
      k := k + 1;
    }
  }

  function Flush(d: Decoder, b: Bytes): Option<seq<string>> {
    var (lines, rest) := Cut(b);
    match DecodeAll(d, lines)
    case None => None
    case Some(decoded) =>
      if rest == [] then Some(decoded)
      else
        match d.utf8(rest)
        case None => None
        case Some(line) => Some(decoded + [TrimEndCr(line)])
  }

  lemma {:induction false} DecodeAllConcat(d: Decoder, a: seq<Bytes>, b: seq<Bytes>)
    requires DecodeAll(d, a).Some?
    ensures DecodeAll(d, a + b)
         == match DecodeAll(d, b) case None => None case Some(rest) => Some(DecodeAll(d, a).value + rest)
    decreases |a|
  {
    var rest := DecodeAll(d, b);
    if a == [] {
      assert a + b == b;
      assert rest.Some? ==> [] + rest.value == rest.value;
    } else {
      assert (a + b)[1..] == a[1..] + b;
      DecodeAllConcat(d, a[1..], b);
      if rest.Some? {
        var head := [DecodeLine(d, a[0]).value];
        var others := DecodeAll(d, a[1..]).value;
        assert head + (others + rest.value) == (head + others) + rest.value;
      }
    }
  }

  // ---------------------------------------------------------------- reading the answer

  // What reading lines has led to: more to come, the finished answer, or an error. `deltas` are
  // the progress events sent on the way.
  datatype Reading =
    | Reading(assembled: string, deltas: seq<string>)
    | Answer(assembled: string, deltas: seq<string>)
    | Failed(deltas: seq<string>)
  {
    function Result(): Option<string> {
      if Answer? then Some(assembled) else None
    }
  }

  const Start := Reading("", [])

  function Obey(e: Effect, streaming: bool, r: Reading): Reading
    requires r.Reading?
  {
    match e
    case Skip => r
    case Delta(text) => Reading(r.assembled + text, if streaming then r.deltas + [text] else r.deltas)
    case Finish => Answer(r.assembled, r.deltas)
    case Abandon => Failed(r.deltas)
  }

  function ReadLine(d: Decoder, streaming: bool, line: string, r: Reading): Reading
    requires r.Reading?
  {
    Obey(d.interpret(line), streaming, r)
  }

  function ReadLines(d: Decoder, streaming: bool, lines: seq<string>, r: Reading): Reading
    decreases |lines|
  {
    if !r.Reading? || lines == [] then r
    else ReadLines(d, streaming, lines[1..], ReadLine(d, streaming, lines[0], r))
  }

  // One drained batch: it fails as a whole when any of its lines does not decode.
  function ReadBatch(d: Decoder, streaming: bool, batch: Option<seq<string>>, r: Reading): Reading
    requires r.Reading?
  {
    if batch.None? then Failed(r.deltas) else ReadLines(d, streaming, batch.value, r)
  }

  function ReadChunks(d: Decoder, streaming: bool, buffer: Bytes, chunks: seq<Bytes>, r: Reading): Reading
    decreases |chunks|
  {
    if !r.Reading? then r
    else if chunks == [] then
      var last := ReadBatch(d, streaming, Flush(d, buffer), r);
      if last.Reading? then Answer(last.assembled, last.deltas) else last
    else
      var (lines, rest) := Cut(buffer + chunks[0]);
      ReadChunks(d, streaming, rest, chunks[1..], ReadBatch(d, streaming, DecodeAll(d, lines), r))
  }

  // The fetch loop over the chunks of one response body.
  method FetchStreamedAnswer(d: Decoder, streaming: bool, chunks: seq<Bytes>)
    returns (answer: Option<string>, progress: seq<string>)
    ensures answer == ReadChunks(d, streaming, [], chunks, Start).Result()
    ensures progress == ReadChunks(d, streaming, [], chunks, Start).deltas
  {
    var buffer := new LineBuffer();
    var assembled := "";
    progress := [];
    ghost var whole := ReadChunks(d, streaming, [], chunks, Start);
    for i := 0 to |chunks|
      invariant whole == ReadChunks(d, streaming, buffer.bytes, chunks[i..], Reading(assembled, progress))
    {
      buffer.Extend(chunks[i]);
      var lines := buffer.DrainLines(d, false);
      assert chunks[i..][1..] == chunks[i + 1..];
      if lines.None? {
        return None, progress;
      }
      var finished, failed;
      assembled, progress, finished, failed := ProcessLines(d, streaming, lines.value, assembled, progress);
      if failed { return None, progress; }
      if finished { return Some(assembled), progress; }
    }
    assert chunks[|chunks|..] == [];
    var lines := buffer.DrainLines(d, true);
    if lines.None? {
      return None, progress;
    }
    var finished, failed;
    assembled, progress, finished, failed := ProcessLines(d, streaming, lines.value, assembled, progress);
    if failed { return None, progress; }
    answer := Some(assembled);
  }

  method ProcessLines(d: Decoder, streaming: bool, lines: seq<string>, assembled0: string, progress0: seq<string>)
    returns (assembled: string, progress: seq<string>, finished: bool, failed: bool)
    ensures var r := ReadLines(d, streaming, lines, Reading(assembled0, progress0));
            && progress == r.deltas && finished == r.Answer? && failed == r.Failed?
            && (!failed ==> assembled == r.assembled)
  {
    assembled, progress, finished, failed := assembled0, progress0, false, false;
    ghost var whole := ReadLines(d, streaming, lines, Reading(assembled, progress));
    for i := 0 to |lines|
      invariant !finished && !failed
      invariant whole == ReadLines(d, streaming, lines[i..], Reading(assembled, progress))
    {
      assert lines[i..][1..] == lines[i + 1..];
      match d.interpret(lines[i]) {
        case Skip =>
        case Delta(text) =>
          assembled := assembled + text;
          if streaming {
            progress := progress + [text];
          }
        case Finish =>
          finished := true;
          return;
        case Abandon =>
          failed := true;
          return;
      }
    }
  }

  // ---------------------------------------------------------------- chunk boundaries

  function Join(parts: seq<Bytes>): Bytes {
    if parts == [] then [] else parts[0] + Join(parts[1..])
  }

  function Concat(parts: seq<string>): string {
    if parts == [] then "" else Concat(parts[..|parts| - 1]) + parts[|parts| - 1]
  }

  lemma {:induction false} ConcatJoins(a: seq<string>, b: seq<string>)
    ensures Concat(a + b) == Concat(a) + Concat(b)
    decreases |b|
  {
    if b == [] {
      assert a + b == a;
    } else {
      assert (a + b)[..|a + b| - 1] == a + b[..|b| - 1];
      ConcatJoins(a, b[..|b| - 1]);
    }
  }

  lemma TextsJoin(text: string, a: seq<string>, b: seq<string>)
    ensures (text + Concat(a)) + Concat(b) == text + Concat(a + b)
  {
    ConcatJoins(a, b);
  }

  // The reference reading: cut the whole stream on LF, then decode and read one line at a time.
  function ReadRaw(d: Decoder, streaming: bool, lines: seq<Bytes>, r: Reading): Reading
    decreases |lines|
  {
    if !r.Reading? || lines == [] then r
    else
      match DecodeLine(d, lines[0])
      case None => Failed(r.deltas)
      case Some(line) => ReadRaw(d, streaming, lines[1..], ReadLine(d, streaming, line, r))
  }

  function ReadStream(d: Decoder, streaming: bool, stream: Bytes): Reading {
    var r := ReadRaw(d, streaming, Cut(stream).0, Start);
    ReadChunks(d, streaming, Cut(stream).1, [], r)
  }

  lemma {:induction false} ReadRawConcat(d: Decoder, streaming: bool, a: seq<Bytes>, b: seq<Bytes>, r: Reading)
    ensures ReadRaw(d, streaming, a + b, r) == ReadRaw(d, streaming, b, ReadRaw(d, streaming, a, r))
    decreases |a|
  {
    if a == [] {
      assert a + b == b;
    } else if r.Reading? && DecodeLine(d, a[0]).Some? {
      assert (a + b)[1..] == a[1..] + b;
      ReadRawConcat(d, streaming, a[1..], b, ReadLine(d, streaming, DecodeLine(d, a[0]).value, r));
    }
  }

  // A decodable batch reads as its lines do one by one.
  lemma {:induction false} BatchReadsAsLines(d: Decoder, streaming: bool, lines: seq<Bytes>, r: Reading)
    requires Decodable(d, lines)
    ensures ReadRaw(d, streaming, lines, r) == ReadLines(d, streaming, DecodeAll(d, lines).value, r)
    decreases |lines|
  {
    if r.Reading? && lines != [] {
      BatchReadsAsLines(d, streaming, lines[1..], ReadLine(d, streaming, DecodeLine(d, lines[0]).value, r));
    }
  }

  // Chunked reading either gives the reference reading or fails; with every complete line still
  // to come decodable it gives exactly the reference reading.
  lemma {:induction false} ChunksReadAsStream(
    d: Decoder, streaming: bool, buffer: Bytes, chunks: seq<Bytes>, r: Reading)
    requires LF !in buffer
    ensures var rest := buffer + Join(chunks);
            var chunked := ReadChunks(d, streaming, buffer, chunks, r);
            var whole := ReadChunks(d, streaming, Cut(rest).1, [], ReadRaw(d, streaming, Cut(rest).0, r));
            && (Decodable(d, Cut(rest).0) ==> chunked == whole)
            && (chunked.Result().None? || chunked == whole)
    decreases |chunks|
  {
    var rest := buffer + Join(chunks);
    if chunks == [] {
      assert rest == buffer;
      CutNoLf(buffer);
    } else if r.Reading? {
      var (lines, tail) := Cut(buffer + chunks[0]);
      var more := Join(chunks[1..]);
      CutConcat(buffer + chunks[0], more);
      CutRest(buffer + chunks[0]);
      assert (buffer + chunks[0]) + more == rest;
      var later := Cut(tail + more).0;
      assert Cut(rest).0 == lines + later;
      ReadRawConcat(d, streaming, lines, later, r);
      if Decodable(d, lines) {
        assert Decodable(d, lines + later) ==> Decodable(d, later) by { DecodableSuffix(d, lines, later); }
        BatchReadsAsLines(d, streaming, lines, r);
        ChunksReadAsStream(d, streaming, tail, chunks[1..], ReadRaw(d, streaming, lines, r));
      } else {
        assert !Decodable(d, lines + later) by { DecodablePrefix(d, lines, later); }
      }
    }
  }

  lemma DecodableSuffix(d: Decoder, a: seq<Bytes>, b: seq<Bytes>)
    ensures Decodable(d, a + b) ==> Decodable(d, b)
  {
    assert forall k :: 0 <= k < |b| ==> b[k] == (a + b)[|a| + k];
  }

  lemma DecodablePrefix(d: Decoder, a: seq<Bytes>, b: seq<Bytes>)
    ensures Decodable(d, a + b) ==> Decodable(d, a)
  {
    assert forall k :: 0 <= k < |a| ==> a[k] == (a + b)[k];
  }

  // A line that reading goes on after.
  predicate GoesOn(d: Decoder, raw: Bytes) {
    DecodeLine(d, raw).Some? && (var e := d.interpret(DecodeLine(d, raw).value); e.Skip? || e.Delta?)
  }

  // Line `k` is the one that finishes the answer.
  predicate FinishesAt(d: Decoder, lines: seq<Bytes>, k: int) {
    && 0 <= k < |lines| && (forall j :: 0 <= j < k ==> GoesOn(d, lines[j]))
    && DecodeLine(d, lines[k]).Some? && d.interpret(DecodeLine(d, lines[k]).value).Finish?
  }

  // Reading goes on through all lines, or stops at the first that it does not go on after.
  lemma {:induction false} WhereReadingStops(d: Decoder, streaming: bool, lines: seq<Bytes>, r: Reading)
    requires r.Reading?
    ensures ReadRaw(d, streaming, lines, r).Reading? <==> forall k :: 0 <= k < |lines| ==> GoesOn(d, lines[k])
    ensures ReadRaw(d, streaming, lines, r).Answer? <==> exists k :: FinishesAt(d, lines, k)
    decreases |lines|
  {
    if lines != [] {
      var first, rest := lines[0], lines[1..];
      assert forall k :: 0 < k < |lines| ==> lines[k] == rest[k - 1];
      if GoesOn(d, first) {
        WhereReadingStops(d, streaming, rest, ReadLine(d, streaming, DecodeLine(d, first).value, r));
        assert forall k :: FinishesAt(d, lines, k) ==> k > 0 && FinishesAt(d, rest, k - 1);
        assert forall k :: FinishesAt(d, rest, k) ==> FinishesAt(d, lines, k + 1);
      } else {
        assert forall k :: FinishesAt(d, lines, k) ==> k == 0;
        assert FinishesAt(d, lines, 0) <==> ReadRaw(d, streaming, lines, r).Answer?;
      }
    }
  }

  // What comes after the end of the answer decodes.
  predicate CleanAfterFinish(d: Decoder, lines: seq<Bytes>) {
    forall k :: 0 <= k < |lines| && FinishesAt(d, lines, k) ==> Decodable(d, lines[k + 1..])
  }

  lemma CleanIffNoAnswerOrDecodable(d: Decoder, streaming: bool, stream: Bytes)
    ensures CleanAfterFinish(d, Cut(stream).0) <==>
            (ReadStream(d, streaming, stream).Result().None? || Decodable(d, Cut(stream).0))
  {
    var lines := Cut(stream).0;
    WhereReadingStops(d, streaming, lines, Start);
    var r := ReadRaw(d, streaming, lines, Start);
    if r.Answer? {
      var k :| FinishesAt(d, lines, k);
      assert forall j :: FinishesAt(d, lines, j) ==> j == k;
      assert forall i :: k < i < |lines| ==> lines[i] == lines[k + 1..][i - k - 1];
      assert Decodable(d, lines[k + 1..]) <==> Decodable(d, lines);
    }
  }

  // Chunk boundaries never change an answer; and they never matter at all exactly when every
  // complete line after the one that finishes the answer, if there is one, is valid UTF-8. (An
  // invalid line after `[DONE]` spoils the answer only when one chunk brings both.)
  lemma ChunkingIsInvisible(d: Decoder, streaming: bool, stream: Bytes)
    ensures (forall chunks: seq<Bytes> {:trigger Join(chunks)} :: Join(chunks) == stream ==>
               ReadChunks(d, streaming, [], chunks, Start).Result() == ReadStream(d, streaming, stream).Result())
       <==> CleanAfterFinish(d, Cut(stream).0)
  {
    forall chunks: seq<Bytes> | Join(chunks) == stream
      ensures var chunked := ReadChunks(d, streaming, [], chunks, Start);
              && (Decodable(d, Cut(stream).0) ==> chunked == ReadStream(d, streaming, stream))
              && (chunked.Result().None? || chunked == ReadStream(d, streaming, stream))
    {
      ChunksReadAsStream(d, streaming, [], chunks, Start);
      assert [] + stream == stream;
    }
    var one := [stream];
    assert one[1..] == [] && Join(one) == stream + [] == stream && [] + stream == stream;
    if !Decodable(d, Cut(stream).0) {
      assert ReadChunks(d, streaming, [], one, Start) == Failed([]);
    }
    CleanIffNoAnswerOrDecodable(d, streaming, stream);
  }

  // For the client's own reading of a line, the one that finishes says `[DONE]`, and no line before
  // it is broken.
  lemma ClientChunkingIsInvisible(
    utf8: Bytes -> Option<string>, payload: string -> Option<Option<string>>, streaming: bool, stream: Bytes)
    ensures var d, lines := ClientDecoder(utf8, payload), Cut(stream).0;
            (forall chunks: seq<Bytes> {:trigger Join(chunks)} :: Join(chunks) == stream ==>
               ReadChunks(d, streaming, [], chunks, Start).Result() == ReadStream(d, streaming, stream).Result()) <==>
            (forall k, i :: FinishesAt(d, lines, k) && k < i < |lines| ==> utf8(WithoutCr(lines[i])).Some?)
    ensures var d, lines := ClientDecoder(utf8, payload), Cut(stream).0;
            forall k :: FinishesAt(d, lines, k) ==>
              var line := Trim(utf8(WithoutCr(lines[k])).value);
              DATA <= line && Trim(line[|DATA|..]) == DONE
  {
    var d, lines := ClientDecoder(utf8, payload), Cut(stream).0;
    ChunkingIsInvisible(d, streaming, stream);
    forall k | FinishesAt(d, lines, k)
      ensures Decodable(d, lines[k + 1..]) <==> forall i :: k < i < |lines| ==> utf8(WithoutCr(lines[i])).Some?
    {
      assert forall i :: k < i < |lines| ==> lines[i] == lines[k + 1..][i - k - 1];
    }
  }

  // A stream where they do matter: a line that does not decode, right after the one that says
  // `[DONE]`. In one chunk both are lost; in two the answer, empty here, is complete.
  lemma JunkAfterDone(
    utf8: Bytes -> Option<string>, payload: string -> Option<Option<string>>, streaming: bool, done: Bytes, junk: Bytes)
    requires LF !in done && LF !in junk
    requires utf8(WithoutCr(done)) == Some("data:[DONE]") && utf8(WithoutCr(junk)).None?
    ensures var d, first, second := ClientDecoder(utf8, payload), done + [LF], junk + [LF];
            && ReadChunks(d, streaming, [], [first + second], Start).Result() == None
            && ReadChunks(d, streaming, [], [first, second], Start).Result() == Some("")
  {
    var d, first, second := ClientDecoder(utf8, payload), done + [LF], junk + [LF];
    DoneFinishes(d, payload, streaming, done);
    JunkInOneChunk(d, streaming, done, junk);
    FinishedChunk(d, streaming, first, done, second);
  }

  lemma JunkInOneChunk(d: Decoder, streaming: bool, done: Bytes, junk: Bytes)
    requires LF !in done && LF !in junk && DecodeLine(d, junk).None?
    ensures ReadChunks(d, streaming, [], [done + [LF] + (junk + [LF])], Start) == Failed([])
  {
    var chunk := done + [LF] + (junk + [LF]);
    CutOneLine(junk + [LF], junk);
    CutLineAndRest(done, junk + [LF]);
    assert Cut(chunk).0[1] == junk;
    assert DecodeAll(d, Cut(chunk).0).None?;
    ReadOneChunk(d, streaming, chunk, []);
  }

  lemma FinishedChunk(d: Decoder, streaming: bool, first: Bytes, line: Bytes, second: Bytes)
    requires first == line + [LF] && LF !in line && ReadBatch(d, streaming, DecodeAll(d, [line]), Start).Answer?
    ensures ReadChunks(d, streaming, [], [first, second], Start) == ReadBatch(d, streaming, DecodeAll(d, [line]), Start)
  {
    CutOneLine(first, line);
    ReadOneChunk(d, streaming, first, [second]);
    assert [first] + [second] == [first, second];
  }

  // A first chunk that finishes or fails settles the reading.
  lemma {:induction false} ReadOneChunk(d: Decoder, streaming: bool, chunk: Bytes, later: seq<Bytes>)
    requires !ReadBatch(d, streaming, DecodeAll(d, Cut(chunk).0), Start).Reading?
    ensures ReadChunks(d, streaming, [], [chunk] + later, Start)
         == ReadBatch(d, streaming, DecodeAll(d, Cut(chunk).0), Start)
  {
    assert [] + chunk == chunk;
  }

  lemma DoneFinishes(d: Decoder, payload: string -> Option<Option<string>>, streaming: bool, done: Bytes)
    requires DecodeLine(d, done) == Some("data:[DONE]")
    requires d.interpret("data:[DONE]") == Interpret(payload, "data:[DONE]")
    ensures ReadBatch(d, streaming, DecodeAll(d, [done]), Start) == Answer("", [])
  {
    var line := "data:[DONE]";
    assert [done][1..] == [] && [line] + [] == [line];
    DoneIsFinish(payload, line);
    assert DecodeAll(d, [done]) == Some([line]);
    assert ReadLine(d, streaming, line, Start) == Answer("", []);
    assert ReadLines(d, streaming, [line], Start) == ReadLines(d, streaming, [line][1..], Answer("", []));
  }

  lemma DoneIsFinish(payload: string -> Option<Option<string>>, line: string)
    requires line == DATA + DONE
    ensures Interpret(payload, line) == Finish
  {
    TrimmedAlready(line);
    TrimmedAlready(DONE);
    assert line[|DATA|..] == DONE && DATA <= line;
  }

  lemma TrimmedAlready(s: string)
    requires s != "" && !IsSpace(s[0]) && !IsSpace(s[|s| - 1])
    ensures Trim(s) == s
  {
  }

  // ---------------------------------------------------------------- line endings

  // One CR before the LF belongs to the line's end, not to its text.
  lemma CrEndsLine(d: Decoder, body: Bytes)
    ensures DecodeLine(d, body + [CR]) == d.utf8(body)
    ensures body == [] || body[|body| - 1] != 13 ==> DecodeLine(d, body) == d.utf8(body)
  {
    assert (body + [CR])[..|body|] == body;
  }

  lemma {:induction false} CrsAreTrimmed(text: string, crs: string)
    requires text == "" || text[|text| - 1] != '\r'
    requires forall k :: 0 <= k < |crs| ==> crs[k] == '\r'
    ensures TrimEndCr(text + crs) == text
    decreases |crs|
  {
    if crs == "" {
      assert text + crs == text;
    } else {
      assert (text + crs)[..|text + crs| - 1] == text + crs[..|crs| - 1];
      CrsAreTrimmed(text, crs[..|crs| - 1]);
    }
  }

  // The unfinished last line is read too, without the CRs it ends in.
  lemma UnfinishedLineIsRead(d: Decoder, rest: Bytes, text: string, crs: string)
    requires LF !in rest && rest != [] && d.utf8(rest) == Some(text + crs)
    requires text == "" || text[|text| - 1] != '\r'
    requires forall k :: 0 <= k < |crs| ==> crs[k] == '\r'
    ensures Flush(d, rest) == Some([text])
  {
    CutNoLf(rest);
    CrsAreTrimmed(text, crs);
    assert [] + [text] == [text];
  }

  // ---------------------------------------------------------------- the client's own lines

  // How the client reads one line, case by case.
  lemma InterpretExactly(payload: string -> Option<Option<string>>, line: string)
    ensures var t := Trim(line);
            if !("data:" <= t) then Interpret(payload, line) == Skip
            else
              var data := Trim(t[5..]);
              if data == "[DONE]" then Interpret(payload, line) == Finish
              else
                && (payload(data).None? <==> Interpret(payload, line) == Abandon)
                && (forall content :: payload(data) == Some(Some(content)) && content != "" <==>
                                      Interpret(payload, line) == Delta(content))
  {
  }

  // Line `raw` carries `content`, or carries nothing and is passed over.
  predicate Carries(
    utf8: Bytes -> Option<string>, payload: string -> Option<Option<string>>, raw: Bytes, content: Option<string>)
  {
    && LF !in raw && utf8(WithoutCr(raw)).Some?
    && var t := Trim(utf8(WithoutCr(raw)).value);
       match content
       case Some(text) =>
         "data:" <= t && Trim(t[5..]) != "[DONE]" && payload(Trim(t[5..])) == Some(Some(text)) && text != ""
       case None =>
         !("data:" <= t) || (Trim(t[5..]) != "[DONE]" && payload(Trim(t[5..])) in {Some(None), Some(Some(""))})
  }

  predicate AllCarry(
    utf8: Bytes -> Option<string>, payload: string -> Option<Option<string>>,
    raws: seq<Bytes>, contents: seq<Option<string>>)
  {
    |raws| == |contents| && forall k :: 0 <= k < |raws| ==> Carries(utf8, payload, raws[k], contents[k])
  }

  function Lines(raws: seq<Bytes>): Bytes {
    if raws == [] then [] else raws[0] + [LF] + Lines(raws[1..])
  }

  function ContentOf(content: Option<string>): seq<string> {
    if content.Some? then [content.value] else []
  }

  // The contents themselves, in order.
  function Contents(contents: seq<Option<string>>): seq<string> {
    if contents == [] then [] else ContentOf(contents[0]) + Contents(contents[1..])
  }

  lemma {:induction false} CutLines(raws: seq<Bytes>, rest: Bytes)
    requires LF !in rest && forall k :: 0 <= k < |raws| ==> LF !in raws[k]
    ensures Cut(Lines(raws) + rest) == (raws, rest)
    decreases |raws|
  {
    if raws == [] {
      assert [] + rest == rest;
      CutNoLf(rest);
    } else {
      CutLines(raws[1..], rest);
      CutLineAndRest(raws[0], Lines(raws[1..]) + rest);
      assert Lines(raws) + rest == raws[0] + [LF] + (Lines(raws[1..]) + rest);
      assert [raws[0]] + raws[1..] == raws;
    }
  }

  function ReadOn(r: Reading, streaming: bool, texts: seq<string>): Reading
    requires r.Reading?
  {
    Reading(r.assembled + Concat(texts), if streaming then r.deltas + texts else r.deltas)
  }

  lemma ReadOnJoins(r: Reading, streaming: bool, a: seq<string>, b: seq<string>)
    requires r.Reading?
    ensures ReadOn(ReadOn(r, streaming, a), streaming, b) == ReadOn(r, streaming, a + b)
  {
    TextsJoin(r.assembled, a, b);
    assert (r.deltas + a) + b == r.deltas + (a + b);
  }

  lemma CarriedLine(
    utf8: Bytes -> Option<string>, payload: string -> Option<Option<string>>, streaming: bool,
    raw: Bytes, content: Option<string>, r: Reading)
    requires Carries(utf8, payload, raw, content) && r.Reading?
    ensures var d := ClientDecoder(utf8, payload);
            && DecodeLine(d, raw).Some?
            && ReadLine(d, streaming, DecodeLine(d, raw).value, r) == ReadOn(r, streaming, ContentOf(content))
  {
    var d := ClientDecoder(utf8, payload);
    var line := utf8(WithoutCr(raw)).value;
    InterpretExactly(payload, line);
    if content.Some? {
      OneText(content.value);
      assert d.interpret(line) == Delta(content.value);
    } else {
      assert d.interpret(line) == Skip;
      assert r.assembled + Concat([]) == r.assembled && r.deltas + [] == r.deltas;
    }
  }

  lemma OneText(text: string)
    ensures Concat([text]) == text
  {
    assert [text][..0] == [] && "" + text == text;
  }

  // Reading content lines, from a reading so far.
  lemma {:induction false} CarriedIsRead(
    utf8: Bytes -> Option<string>, payload: string -> Option<Option<string>>, streaming: bool,
    raws: seq<Bytes>, contents: seq<Option<string>>, r: Reading)
    requires AllCarry(utf8, payload, raws, contents) && r.Reading?
    ensures ReadRaw(ClientDecoder(utf8, payload), streaming, raws, r) == ReadOn(r, streaming, Contents(contents))
    decreases |raws|
  {
    if raws == [] {
      assert r.assembled + Concat([]) == r.assembled && r.deltas + [] == r.deltas;
    } else {
      CarriedLine(utf8, payload, streaming, raws[0], contents[0], r);
      var next := ReadOn(r, streaming, ContentOf(contents[0]));
      CarriedIsRead(utf8, payload, streaming, raws[1..], contents[1..], next);
      ReadOnJoins(r, streaming, ContentOf(contents[0]), Contents(contents[1..]));
    }
  }

  // A stream of content lines, lines that are passed over, and a last line that says `[DONE]`, with
  // an LF after it or not, and lines ending in LF or CRLF: however it is cut into chunks, it is read
  // to exactly the contents, and with overlay streaming exactly they are sent as progress.
  lemma StreamIsReadBack(
    utf8: Bytes -> Option<string>, payload: string -> Option<Option<string>>, streaming: bool,
    raws: seq<Bytes>, contents: seq<Option<string>>, done: Bytes, finalLf: bool, chunks: seq<Bytes>)
    requires AllCarry(utf8, payload, raws, contents) && LF !in done
    requires utf8(if finalLf then WithoutCr(done) else done) == Some("data: [DONE]") && done != []
    requires Join(chunks) == Lines(raws) + (if finalLf then done + [LF] else done)
    ensures ReadChunks(ClientDecoder(utf8, payload), streaming, [], chunks, Start)
         == Answer(Concat(Contents(contents)), if streaming then Contents(contents) else [])
  {
    var d, stream := ClientDecoder(utf8, payload), Join(chunks);
    CarriedIsRead(utf8, payload, streaming, raws, contents, Start);
    CarriedLinesDecode(utf8, payload, raws, contents);
    DoneLineIsFinish(payload);
    if finalLf {
      LastLineInFull(d, streaming, raws, done, stream);
    } else {
      LastLineUnfinished(d, streaming, raws, done, stream);
    }
    ChunksReadAsStream(d, streaming, [], chunks, Start);
    assert [] + stream == stream;
    StartReadsOn(streaming, Contents(contents));
  }

  lemma StartReadsOn(streaming: bool, texts: seq<string>)
    ensures ReadOn(Start, streaming, texts) == Reading(Concat(texts), if streaming then texts else [])
  {
    assert "" + Concat(texts) == Concat(texts) && [] + texts == texts;
  }

  lemma CarriedLinesDecode(
    utf8: Bytes -> Option<string>, payload: string -> Option<Option<string>>,
    raws: seq<Bytes>, contents: seq<Option<string>>)
    requires AllCarry(utf8, payload, raws, contents)
    ensures forall k :: 0 <= k < |raws| ==> LF !in raws[k] && DecodeLine(ClientDecoder(utf8, payload), raws[k]).Some?
  {
    forall k | 0 <= k < |raws|
      ensures LF !in raws[k] && DecodeLine(ClientDecoder(utf8, payload), raws[k]).Some?
    {
      assert Carries(utf8, payload, raws[k], contents[k]);
    }
  }

  lemma DoneLineIsFinish(payload: string -> Option<Option<string>>)
    ensures Interpret(payload, "data: [DONE]") == Finish
  {
    var line, rest := "data: [DONE]", " [DONE]";
    TrimmedAlready(line);
    assert line == DATA + rest && line[|DATA|..] == rest;
    assert rest[1..] == DONE && TrimStart(DONE) == DONE && TrimStart(rest) == DONE;
    TrimmedAlready(DONE);
    assert Trim(rest) == DONE;
    assert DATA <= line;
  }

  lemma LastLineInFull(d: Decoder, streaming: bool, raws: seq<Bytes>, done: Bytes, stream: Bytes)
    requires stream == Lines(raws) + (done + [LF]) && LF !in done
    requires forall k :: 0 <= k < |raws| ==> LF !in raws[k] && DecodeLine(d, raws[k]).Some?
    requires DecodeLine(d, done) == Some("data: [DONE]") && d.interpret("data: [DONE]") == Finish
    requires ReadRaw(d, streaming, raws, Start).Reading?
    ensures Decodable(d, Cut(stream).0)
    ensures var r := ReadRaw(d, streaming, raws, Start);
            ReadChunks(d, streaming, Cut(stream).1, [], ReadRaw(d, streaming, Cut(stream).0, Start))
            == Answer(r.assembled, r.deltas)
  {
    var all := raws + [done];
    LinesOneMore(raws, done);
    assert stream == Lines(all) + [];
    CutLines(all, []);
    ReadRawConcat(d, streaming, raws, [done], Start);
    assert [done][1..] == [];
  }

  lemma {:induction false} LinesOneMore(raws: seq<Bytes>, raw: Bytes)
    ensures Lines(raws + [raw]) == Lines(raws) + (raw + [LF])
    decreases |raws|
  {
    if raws == [] {
      assert [raw][1..] == [] && Lines([raw]) == raw + [LF] + [];
    } else {
      assert (raws + [raw])[0] == raws[0] && (raws + [raw])[1..] == raws[1..] + [raw];
      LinesOneMore(raws[1..], raw);
      assert raws[0] + [LF] + (Lines(raws[1..]) + (raw + [LF])) == raws[0] + [LF] + Lines(raws[1..]) + (raw + [LF]);
    }
  }

  lemma LastLineUnfinished(d: Decoder, streaming: bool, raws: seq<Bytes>, done: Bytes, stream: Bytes)
    requires stream == Lines(raws) + done && LF !in done && done != []
    requires forall k :: 0 <= k < |raws| ==> LF !in raws[k] && DecodeLine(d, raws[k]).Some?
    requires d.utf8(done) == Some("data: [DONE]") && d.interpret("data: [DONE]") == Finish
    requires ReadRaw(d, streaming, raws, Start).Reading?
    ensures Decodable(d, Cut(stream).0)
    ensures var r := ReadRaw(d, streaming, raws, Start);
            ReadChunks(d, streaming, Cut(stream).1, [], ReadRaw(d, streaming, Cut(stream).0, Start))
            == Answer(r.assembled, r.deltas)
  {
    CutLines(raws, done);
    FlushReads(d, streaming, done, "data: [DONE]", ReadRaw(d, streaming, raws, Start));
  }

  lemma FlushReads(d: Decoder, streaming: bool, rest: Bytes, line: string, r: Reading)
    requires LF !in rest && rest != [] && r.Reading? && d.utf8(rest) == Some(line) && d.interpret(line).Finish?
    requires line != "" && line[|line| - 1] != '\r'
    ensures ReadChunks(d, streaming, rest, [], r) == Answer(r.assembled, r.deltas)
  {
    CutNoLf(rest);
    assert TrimEndCr(line) == line && [] + [line] == [line];
    assert Flush(d, rest) == Some([line]);
    var answer := Answer(r.assembled, r.deltas);
    assert ReadLine(d, streaming, line, r) == answer;
    assert ReadLines(d, streaming, [line], r) == ReadLines(d, streaming, [line][1..], answer) == answer;
    assert ReadBatch(d, streaming, Flush(d, rest), r) == answer;
  }

  // With overlay streaming on, the progress deltas add up to the answer itself.
  lemma {:induction false} LinesKeepDeltas(d: Decoder, lines: seq<string>, r: Reading)
    requires !r.Failed? ==> Concat(r.deltas) == r.assembled
    ensures var s := ReadLines(d, true, lines, r); !s.Failed? ==> Concat(s.deltas) == s.assembled
    decreases |lines|
  {
    if r.Reading? && lines != [] {
      var e := d.interpret(lines[0]);
      var s := Obey(e, true, r);
      if e.Delta? {
        assert s.deltas[..|s.deltas| - 1] == r.deltas;
      }
      LinesKeepDeltas(d, lines[1..], s);
    }
  }

  lemma {:induction false} DeltasAddUpToAnswer(d: Decoder, buffer: Bytes, chunks: seq<Bytes>, r: Reading)
    requires !r.Failed? ==> Concat(r.deltas) == r.assembled
    ensures var s := ReadChunks(d, true, buffer, chunks, r); s.Answer? ==> Concat(s.deltas) == s.assembled
    decreases |chunks|
  {
    if r.Reading? {
      var batch := if chunks == [] then Flush(d, buffer) else DecodeAll(d, Cut(buffer + chunks[0]).0);
      if batch.Some? {
        LinesKeepDeltas(d, batch.value, r);
      }
      if chunks != [] {
        DeltasAddUpToAnswer(d, Cut(buffer + chunks[0]).1, chunks[1..], ReadBatch(d, true, batch, r));
      }
    }
  }
}
