/**
 Token usage read from a server-sent event stream while it passes through in arbitrary chunks. The
 JSON parser is a parameter: it maps the bytes after `data: ` to the usage they carry, if they parse.
 */
module SseUsage {
  import opened Numbers
  import opened Options
  import opened Previews

  datatype Usage = Usage(input: int, output: int, cached: int, cacheWrite: int)

  const ZERO := Usage(0, 0, 0, 0)

  /** `Usage::merge`. */
  function Merge(a: Usage, b: Usage): Usage {
    Usage(Max(a.input, b.input), Max(a.output, b.output), Max(a.cached, b.cached), Max(a.cacheWrite, b.cacheWrite))
  }

  type Parser = seq<Byte> -> Option<Usage>

  const NEWLINE: Byte := 10
  const CARRIAGE_RETURN: Byte := 13
  const PENDING_LIMIT := 2 * 1024 * 1024

  /** The bytes of `data: `. */
  const DATA_PREFIX: seq<Byte> := [100, 97, 116, 97, 58, 32]

  // ----- Lines

  function NewlineFrom(bytes: seq<Byte>, from: nat): (i: nat)
    requires from <= |bytes|
    ensures from <= i <= |bytes|
    ensures i < |bytes| ==> bytes[i] == NEWLINE
    ensures forall j :: from <= j < i ==> bytes[j] != NEWLINE
    decreases |bytes| - from
  {
    if from == |bytes| || bytes[from] == NEWLINE then from else NewlineFrom(bytes, from + 1)
  }

  /** `position`: the index of the first newline, or the length if there is none. */
  function FirstNewline(bytes: seq<Byte>): (i: nat)
    ensures i <= |bytes|
    ensures i < |bytes| ==> bytes[i] == NEWLINE
    ensures forall j :: 0 <= j < i ==> bytes[j] != NEWLINE
  {
    NewlineFrom(bytes, 0)
  }

  /** The complete lines, each with its newline. */
  function Lines(bytes: seq<Byte>): seq<seq<Byte>> {
    var i := FirstNewline(bytes);
    if i == |bytes| then [] else [bytes[..i + 1]] + Lines(bytes[i + 1..])
  }

  /** What follows the last newline. */
  function Tail(bytes: seq<Byte>): seq<Byte> {
    var i := FirstNewline(bytes);
    if i == |bytes| then bytes else Tail(bytes[i + 1..])
  }

  lemma {:induction false} NewlineIsFound(bytes: seq<Byte>, i: nat)
    requires i < |bytes| && bytes[i] == NEWLINE && forall j :: 0 <= j < i ==> bytes[j] != NEWLINE
    ensures FirstNewline(bytes) == i
  {
  }

  predicate IsLine(line: seq<Byte>) {
    line != [] && FirstNewline(line) == |line| - 1
  }

  lemma LineInFront(line: seq<Byte>, rest: seq<Byte>)
    requires IsLine(line)
    ensures Lines(line + rest) == [line] + Lines(rest) && Tail(line + rest) == Tail(rest)
  {
    var all, i := line + rest, |line| - 1;
    NewlineIsFound(all, i);
    assert all[..i + 1] == line && all[i + 1..] == rest;
  }

  /** A stream that has a newline is a line and the rest. */
  lemma FirstLine(bytes: seq<Byte>)
    requires FirstNewline(bytes) < |bytes|
    ensures var i := FirstNewline(bytes); IsLine(bytes[..i + 1]) && bytes == bytes[..i + 1] + bytes[i + 1..]
  {
    var i := FirstNewline(bytes);
    var line := bytes[..i + 1];
    assert forall j :: 0 <= j <= i ==> line[j] == bytes[j];
    NewlineIsFound(line, i);
  }

  lemma {:induction false} LinesOfConcat(a: seq<Byte>, b: seq<Byte>)
    ensures Lines(a + b) == Lines(a) + Lines(Tail(a) + b)
    ensures Tail(a + b) == Tail(Tail(a) + b)
    decreases |a|
  {
    var i := FirstNewline(a);
    if i < |a| {
      var line, rest := a[..i + 1], a[i + 1..];
      FirstLine(a);
      assert a + b == line + (rest + b);
      LineInFront(line, rest + b);
      LineInFront(line, rest);
      LinesOfConcat(rest, b);
    }
  }

  lemma {:induction false} TailHasNoNewline(bytes: seq<Byte>)
    ensures FirstNewline(Tail(bytes)) == |Tail(bytes)|
    ensures |Tail(bytes)| <= |bytes|
    decreases |bytes|
  {
    var i := FirstNewline(bytes);
    if i < |bytes| {
      TailHasNoNewline(bytes[i + 1..]);
    }
  }

  /** The pieces one after the other. */
  function InARow(pieces: seq<seq<Byte>>): seq<Byte> {
    if pieces == [] then [] else pieces[0] + InARow(pieces[1..])
  }

  /** The lines and the tail are the stream. */
  lemma {:induction false} LinesAndTailAreTheStream(bytes: seq<Byte>)
    ensures InARow(Lines(bytes)) + Tail(bytes) == bytes
    decreases |bytes|
  {
    var i := FirstNewline(bytes);
    if i < |bytes| {
      var line, rest := bytes[..i + 1], bytes[i + 1..];
      LinesAndTailAreTheStream(rest);
      FirstLine(bytes);
      LineInFront(line, rest);
      assert ([line] + Lines(rest))[1..] == Lines(rest);
      assert line + InARow(Lines(rest)) + Tail(rest) == line + (InARow(Lines(rest)) + Tail(rest));
    }
  }

  // ----- Usage of lines

  /** What one line, newline included, contributes. */
  function LineUsage(parse: Parser, line: seq<Byte>): Option<Usage> {
    parse(if DATA_PREFIX <= line then line[|DATA_PREFIX|..] else [])
  }

  /** Of a line that starts with `data: ` the rest is parsed; any other line counts for nothing. */
  lemma OnlyDataIsParsed(parse: Parser, text: seq<Byte>)
    ensures LineUsage(parse, DATA_PREFIX + text) == parse(text)
    ensures !(DATA_PREFIX <= text) && parse([]) == None ==> LineUsage(parse, text) == None
  {
    assert (DATA_PREFIX + text)[|DATA_PREFIX|..] == text;
  }

  function MergeLine(parse: Parser, usage: Usage, line: seq<Byte>): Usage {
    match LineUsage(parse, line)
    case Some(found) => Merge(usage, found)
    case None => usage
  }

  function MergeLines(parse: Parser, usage: Usage, lines: seq<seq<Byte>>): Usage
    decreases |lines|
  {
    if lines == [] then usage else MergeLines(parse, MergeLine(parse, usage, lines[0]), lines[1..])
  }

  lemma {:induction false} MergeLinesOfConcat(parse: Parser, usage: Usage, a: seq<seq<Byte>>, b: seq<seq<Byte>>)
    ensures MergeLines(parse, usage, a + b) == MergeLines(parse, MergeLines(parse, usage, a), b)
    decreases |a|
  {
    if a == [] {
      assert a + b == b;
    } else {
      assert (a + b)[1..] == a[1..] + b;
      MergeLinesOfConcat(parse, MergeLine(parse, usage, a[0]), a[1..], b);
    }
  }

  predicate Below(a: Usage, b: Usage) {
    a.input <= b.input && a.output <= b.output && a.cached <= b.cached && a.cacheWrite <= b.cacheWrite
  }

  lemma {:induction false} MergedIsLeastBound(parse: Parser, usage: Usage, lines: seq<seq<Byte>>, bound: Usage)
    ensures Below(MergeLines(parse, usage, lines), bound) <==>
            Below(usage, bound) && forall i :: 0 <= i < |lines| && LineUsage(parse, lines[i]).Some? ==>
                Below(LineUsage(parse, lines[i]).value, bound)
    decreases |lines|
  {
    if lines != [] {
      MergedIsLeastBound(parse, MergeLine(parse, usage, lines[0]), lines[1..], bound);
      assert forall i :: 0 <= i < |lines| ==> i == 0 || lines[i] == lines[1..][i - 1];
      assert forall i :: 0 <= i < |lines[1..]| ==> lines[1..][i] == lines[i + 1];
    }
  }

  /** The usage of a stream is the componentwise maximum of zero and its lines: order and repetition do not matter. */
  lemma UsageIgnoresOrder(parse: Parser, a: seq<seq<Byte>>, b: seq<seq<Byte>>)
    requires forall line :: line in a <==> line in b
    ensures MergeLines(parse, ZERO, a) == MergeLines(parse, ZERO, b)
  {
    var u, v := MergeLines(parse, ZERO, a), MergeLines(parse, ZERO, b);
    MergedIsLeastBound(parse, ZERO, a, u);
    MergedIsLeastBound(parse, ZERO, b, v);
    MergedIsLeastBound(parse, ZERO, a, v);
    MergedIsLeastBound(parse, ZERO, b, u);
    assert forall i :: 0 <= i < |a| ==> a[i] in b;
    assert forall i :: 0 <= i < |b| ==> b[i] in a;
  }

  // ----- The incremental reader

  datatype Reader = Reader(pending: seq<Byte>, usage: Usage)

  function Feed(parse: Parser, r: Reader, chunk: seq<Byte>): Reader {
    var bytes := r.pending + chunk;
    var rest := Tail(bytes);
    Reader(if |rest| > PENDING_LIMIT then [] else rest, MergeLines(parse, r.usage, Lines(bytes)))
  }

  function FeedAll(parse: Parser, chunks: seq<seq<Byte>>): Reader {
    if chunks == [] then Reader([], ZERO) else Feed(parse, FeedAll(parse, chunks[..|chunks| - 1]), chunks[|chunks| - 1])
  }

  /** `update_sse_usage`, draining one line at a time from the buffer. */
  method UpdateSseUsage(parse: Parser, pending: seq<Byte>, bytes: seq<Byte>, usage: Usage)
    returns (pending': seq<Byte>, usage': Usage)
    ensures Reader(pending', usage') == Feed(parse, Reader(pending, usage), bytes)
  {
    pending', usage' := pending + bytes, usage;
    var index := FirstNewline(pending');
    while index < |pending'|
      invariant index == FirstNewline(pending')
      invariant Tail(pending') == Tail(pending + bytes)
      invariant MergeLines(parse, usage', Lines(pending')) == MergeLines(parse, usage, Lines(pending + bytes))
      decreases |pending'|
    {
      var line := pending'[..index + 1];
      ghost var rest := Lines(pending'[index + 1..]);
      assert ([line] + rest)[1..] == rest;
      pending' := pending'[index + 1..];
      var data := if DATA_PREFIX <= line then line[|DATA_PREFIX|..] else [];
      match parse(data) {
        case Some(found) => usage' := Merge(usage', found);
        case None =>
      }
      index := FirstNewline(pending');
    }
    if |pending'| > PENDING_LIMIT {
      pending' := [];
    }
  }

  // ----- Chunk independence

  /** No line, finished or not, is longer than the reader is willing to hold. */
  predicate Bounded(bytes: seq<Byte>) {
    && |Tail(bytes)| <= PENDING_LIMIT
    && forall i :: 0 <= i < |Lines(bytes)| ==> |Lines(bytes)[i]| - 1 <= PENDING_LIMIT
  }

  /** What a reader that forgets nothing has after `bytes`. */
  function Exact(parse: Parser, bytes: seq<Byte>): Reader {
    Reader(Tail(bytes), MergeLines(parse, ZERO, Lines(bytes)))
  }

  lemma BoundedPrefix(a: seq<Byte>, b: seq<Byte>)
    requires Bounded(a + b)
    ensures Bounded(a)
  {
    LinesOfConcat(a, b);
    TailHasNoNewline(a);
    var joint := Tail(a) + b;
    var i := FirstNewline(joint);
    assert i >= |Tail(a)| by {
      assert forall j :: 0 <= j < |Tail(a)| ==> joint[j] == Tail(a)[j];
    }
    if i < |joint| {
      assert Lines(a + b)[|Lines(a)|] == joint[..i + 1];
    }
    forall j | 0 <= j < |Lines(a)| ensures |Lines(a)[j]| - 1 <= PENDING_LIMIT {
      assert Lines(a + b)[j] == Lines(a)[j];
    }
  }

  /**
   However a stream of bounded lines is cut, the reader ends with its unfinished line and the usage of its
   finished ones.
   */
  lemma {:induction false} ReaderIgnoresChunking(parse: Parser, chunks: seq<seq<Byte>>)
    requires Bounded(Concat(chunks))
    ensures FeedAll(parse, chunks) == Exact(parse, Concat(chunks))
  {
    if chunks != [] {
      var before, chunk := Concat(chunks[..|chunks| - 1]), chunks[|chunks| - 1];
      BoundedPrefix(before, chunk);
      ReaderIgnoresChunking(parse, chunks[..|chunks| - 1]);
      LinesOfConcat(before, chunk);
      MergeLinesOfConcat(parse, ZERO, Lines(before), Lines(Tail(before) + chunk));
    }
  }

  /** The stream cut just before the newline of its `i`-th line: what is pending there is that line. */
  lemma {:induction false} LineStart(bytes: seq<Byte>, i: nat) returns (a: seq<Byte>)
    requires i < |Lines(bytes)|
    ensures a <= bytes && |Tail(a)| == |Lines(bytes)[i]| - 1
    decreases |bytes|
  {
    var n := FirstNewline(bytes);
    var line, rest := bytes[..n + 1], bytes[n + 1..];
    FirstLine(bytes);
    LineInFront(line, rest);
    if i == 0 {
      a := bytes[..n];
      NoNewlineAtAll(a);
    } else {
      assert Lines(bytes)[i] == Lines(rest)[i - 1];
      var inner := LineStart(rest, i - 1);
      LineInFront(line, inner);
      a := line + inner;
    }
  }

  lemma NoNewlineAtAll(bytes: seq<Byte>)
    requires forall j :: 0 <= j < |bytes| ==> bytes[j] != NEWLINE
    ensures FirstNewline(bytes) == |bytes| && Tail(bytes) == bytes
  {
  }

  /** Chunking is invisible at every point of a stream exactly when its lines are bounded. */
  lemma ChunkingIsInvisibleIffBounded(parse: Parser, bytes: seq<Byte>)
    ensures Bounded(bytes) <==>
            |Tail(bytes)| <= 0x20_0000 && forall i :: 0 <= i < |Lines(bytes)| ==> |Lines(bytes)[i]| <= 0x20_0001
    ensures Bounded(bytes) <==> forall chunks :: Concat(chunks) <= bytes ==>
        FeedAll(parse, chunks) == Exact(parse, Concat(chunks))
  {
    if Bounded(bytes) {
      forall chunks | Concat(chunks) <= bytes ensures FeedAll(parse, chunks) == Exact(parse, Concat(chunks)) {
        assert bytes == Concat(chunks) + bytes[|Concat(chunks)|..];
        BoundedPrefix(Concat(chunks), bytes[|Concat(chunks)|..]);
        ReaderIgnoresChunking(parse, chunks);
      }
    } else if |Tail(bytes)| > PENDING_LIMIT {
      OneChunk(parse, bytes);
    } else {
      var i :| 0 <= i < |Lines(bytes)| && |Lines(bytes)[i]| - 1 > PENDING_LIMIT;
      var a := LineStart(bytes, i);
      OneChunk(parse, a);
      assert Concat([a]) <= bytes;
    }
  }

  lemma OneChunk(parse: Parser, bytes: seq<Byte>)
    ensures Concat([bytes]) == bytes
    ensures |Tail(bytes)| > PENDING_LIMIT ==> FeedAll(parse, [bytes]) != Exact(parse, bytes)
  {
    OneChunkFeeds(parse, bytes);
    var none: seq<seq<Byte>> := [];
    assert [bytes][..0] == none && Concat(none) == [];
  }

  /** An overlong line cut before its newline is lost, in one piece it is not: the same bytes, two usages. */
  lemma OverlongLinesDependOnChunking(parse: Parser, line: seq<Byte>)
    requires |line| > PENDING_LIMIT && FirstNewline(line) == |line| && parse([]) == None
    ensures FeedAll(parse, [line, [NEWLINE]]).usage == ZERO
    ensures FeedAll(parse, [line + [NEWLINE]]).usage == MergeLine(parse, ZERO, line + [NEWLINE])
  {
    var whole := line + [NEWLINE];
    var newline: seq<Byte> := [NEWLINE];
    LineByItself(line);
    LineByItself([]);
    assert [] + newline == newline;
    MergeOne(parse, ZERO, whole);
    MergeOne(parse, ZERO, newline);
    OneChunkFeeds(parse, whole);
    OneChunkFeeds(parse, line);
    assert [line, newline][..1] == [line];
    assert FeedAll(parse, [line, newline]) == Feed(parse, Reader([], ZERO), newline);
  }

  lemma LineByItself(line: seq<Byte>)
    requires FirstNewline(line) == |line|
    ensures Lines(line) == [] && Tail(line) == line
    ensures Lines(line + [NEWLINE]) == [line + [NEWLINE]] && Tail(line + [NEWLINE]) == []
  {
    var whole := line + [NEWLINE];
    NewlineIsFound(whole, |line|);
    assert whole[..|line| + 1] == whole && whole[|line| + 1..] == [];
  }

  lemma MergeOne(parse: Parser, usage: Usage, line: seq<Byte>)
    ensures MergeLines(parse, usage, [line]) == MergeLine(parse, usage, line)
  {
    var none: seq<seq<Byte>> := [];
    assert [line][1..] == none;
  }

  lemma OneChunkFeeds(parse: Parser, bytes: seq<Byte>)
    ensures FeedAll(parse, [bytes]) == Feed(parse, Reader([], ZERO), bytes) && [] + bytes == bytes
  {
    var none: seq<seq<Byte>> := [];
    assert [bytes][..0] == none && FeedAll(parse, none) == Reader([], ZERO);
  }

  // ----- The buffered reader

  /** `str::lines`: lines without their `\n` or `\r\n`. */
  function Stripped(line: seq<Byte>): seq<Byte>
    requires line != []
  {
    var body := line[..|line| - 1];
    if body != [] && body[|body| - 1] == CARRIAGE_RETURN then body[..|body| - 1] else body
  }

  /** A JSON parser ignores white space after the value (section 2 of RFC 8259), and nothing is not a value. */
  ghost predicate IgnoresTrailingBlanks(parse: Parser) {
    && parse([]) == None
    && forall text: seq<Byte> :: parse(text + [NEWLINE]) == parse(text)
        && parse(text + [CARRIAGE_RETURN]) == parse(text)
  }

  function StrippedUsage(parse: Parser, line: seq<Byte>): Option<Usage> {
    if DATA_PREFIX <= line then parse(line[|DATA_PREFIX|..]) else None
  }

  /** The usage `images_from_sse` collects from a newline-terminated body. */
  method ImagesUsage(parse: Parser, lines: seq<seq<Byte>>) returns (usage: Usage)
    requires IgnoresTrailingBlanks(parse)
    requires forall i :: 0 <= i < |lines| ==> IsLine(lines[i])
    ensures usage == MergeLines(parse, ZERO, lines)
  {
    usage := ZERO;
    for i := 0 to |lines|
      invariant usage == MergeLines(parse, ZERO, lines[..i])
    {
      StrippingKeepsUsage(parse, lines[i]);
      match StrippedUsage(parse, Stripped(lines[i])) {
        case Some(found) => usage := Merge(usage, found);
        case None =>
      }
      assert lines[..i + 1] == lines[..i] + [lines[i]];
      MergeOne(parse, MergeLines(parse, ZERO, lines[..i]), lines[i]);
      MergeLinesOfConcat(parse, ZERO, lines[..i], [lines[i]]);
    }
    assert lines[..|lines|] == lines;
  }

  lemma StrippingKeepsUsage(parse: Parser, line: seq<Byte>)
    requires IgnoresTrailingBlanks(parse) && line != [] && line[|line| - 1] == NEWLINE
    ensures StrippedUsage(parse, Stripped(line)) == LineUsage(parse, line)
  {
    var body := line[..|line| - 1];
    var n := |DATA_PREFIX|;
    assert line == body + [NEWLINE];
    if DATA_PREFIX <= line {
      assert DATA_PREFIX[n - 1] == line[n - 1] && |body| >= n;
      assert line[n..] == body[n..] + [NEWLINE];
      if body[|body| - 1] == CARRIAGE_RETURN {
        assert line[n - 1] == 32 && |body| > n;
        assert body[n..] == Stripped(line)[n..] + [CARRIAGE_RETURN];
      }
      assert DATA_PREFIX <= Stripped(line);
    } else {
      assert forall k :: 0 <= k < |Stripped(line)| ==> Stripped(line)[k] == line[k];
    }
  }

  lemma {:induction false} LinesEndInNewline(bytes: seq<Byte>)
    ensures forall i :: 0 <= i < |Lines(bytes)| ==> IsLine(Lines(bytes)[i])
    decreases |bytes|
  {
    var n := FirstNewline(bytes);
    if n < |bytes| {
      FirstLine(bytes);
      LinesEndInNewline(bytes[n + 1..]);
    }
  }

  /** Reading a newline-terminated body at once or in chunks yields the same usage. */
  method BufferedAndStreamedAgree(parse: Parser, chunks: seq<seq<Byte>>) returns (usage: Usage)
    requires IgnoresTrailingBlanks(parse) && Bounded(Concat(chunks)) && Tail(Concat(chunks)) == []
    ensures FeedAll(parse, chunks) == Reader([], usage)
  {
    LinesEndInNewline(Concat(chunks));
    usage := ImagesUsage(parse, Lines(Concat(chunks)));
    ReaderIgnoresChunking(parse, chunks);
  }
}
