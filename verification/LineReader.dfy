// The bounded line reader of the Step protocol: lines come out of a pipe in reads of
// any size, and no line may grow past a limit.

module LineReader {
  import opened VirtualTime

  const NEWLINE: byte := 10
  const READ_SIZE: nat := 4096

  // ----- Streams and their lines ----------------------------------------------------------

  /** Index of the first newline, or the length. */
  function Find(s: seq<byte>): (n: nat)
    ensures n <= |s|
    ensures n < |s| ==> s[n] == NEWLINE
    ensures forall i :: 0 <= i < n ==> s[i] != NEWLINE
  {
    if s == [] || s[0] == NEWLINE then 0 else 1 + Find(s[1..])
  }

  /** Complete lines, without their newlines. */
  function Lines(s: seq<byte>): seq<seq<byte>>
    decreases |s|
  {
    var n := Find(s);
    if n == |s| then [] else [s[..n]] + Lines(s[n + 1..])
  }

  /** Every line, and what follows the last newline, is within the limit. */
  predicate Within(s: seq<byte>, limit: nat)
    decreases |s|
  {
    var n := Find(s);
    n <= limit && (n < |s| ==> Within(s[n + 1..], limit))
  }

  function Concat(chunks: seq<seq<byte>>): seq<byte> {
    if chunks == [] then [] else chunks[0] + Concat(chunks[1..])
  }

  /** Lines with their newlines back in place. */
  function Unlines(lines: seq<seq<byte>>): seq<byte> {
    if lines == [] then [] else lines[0] + [NEWLINE] + Unlines(lines[1..])
  }

  lemma {:induction false} FindAppend(a: seq<byte>, b: seq<byte>)
    ensures Find(a + b) == if Find(a) < |a| then Find(a) else |a| + Find(b)
  {
    if a == [] {
      assert a + b == b;
    } else {
      assert (a + b)[1..] == a[1..] + b;
      FindAppend(a[1..], b);
    }
  }

  lemma DropBoth(a: seq<byte>, b: seq<byte>, n: nat)
    ensures n <= |b| ==> (a + b)[|a| + n..] == b[n..]
  {
  }

  lemma EmptyIsWithin(limit: nat)
    ensures Within([], limit)
  {
  }

  /** What a piece without newlines adds to the line that follows it. */
  lemma WithinStep(pre: seq<byte>, s: seq<byte>, limit: nat)
    requires Find(pre) == |pre|
    ensures Find(pre + s) == |pre| + Find(s)
    ensures var n := Find(s);
      Within(pre + s, limit) <==> |pre| + n <= limit && (n < |s| ==> Within(s[n + 1..], limit))
  {
    hide Find;
    FindAppend(pre, s);
    DropBoth(pre, s, Find(s) + 1);
  }

  lemma {:induction false} WithinPrefix(a: seq<byte>, b: seq<byte>, limit: nat)
    requires Within(a + b, limit)
    ensures Within(a, limit)
    decreases |a|
  {
    FindAppend(a, b);
    var n := Find(a);
    if n >= |a| {
    } else {
      assert (a + b)[n + 1..] == a[n + 1..] + b;
      WithinPrefix(a[n + 1..], b, limit);
    }
  }

  // ----- One read ------------------------------------------------------------------------------

  class Reader {
    const limit: nat
    var buffer: seq<byte>

    constructor (limit: nat)
      ensures this.limit == limit && buffer == []
    {
      this.limit := limit;
      buffer := [];
    }

    /** `append_checked`: every line the chunk touches is inspected before any byte is kept. */
    method AppendChecked(chunk: seq<byte>) returns (ok: bool)
      requires Find(buffer) == |buffer|
      modifies this
      ensures ok <==> Within(old(buffer) + chunk, limit)
      ensures buffer == if ok then old(buffer) + chunk else old(buffer)
    {
      hide *;
      EmptyIsWithin(limit);
      var view, base := chunk, |buffer|;
      ghost var before := buffer;
      while true
        invariant buffer == old(buffer)
        invariant base == |before| == Find(before)
        invariant Within(buffer + chunk, limit) <==> Within(before + view, limit)
        decreases |view|
      {
        WithinStep(before, view, limit);
        var n := Find(view);
        if base > limit || n > limit - base { return false; }
        if n == |view| { break; }
        view, base, before := view[n + 1..], 0, [];
        assert before + view == view;
        if view == [] { break; }
      }
      buffer := buffer + chunk;
      return true;
    }

    /** `read_line` over the reads the pipe delivers: nothing else is kept or lost. */
    method ReadLine(chunks: seq<seq<byte>>) returns (r: LineResult, used: nat)
      modifies this
      ensures (r, buffer, used) == NextLine(old(buffer), chunks, limit)
    {
      used := 0;
      assert chunks[0..] == chunks;
      while true
        invariant 0 <= used <= |chunks|
        invariant NextLine(old(buffer), chunks, limit)
               == var (r, b, n) := NextLine(buffer, chunks[used..], limit); (r, b, used + n)
        decreases |chunks| - used
      {
        var nl := Find(buffer);
        if nl < |buffer| {
          r := Line(buffer[..nl]);
          buffer := buffer[nl + 1..];
          return;
        }
        if used == |chunks| { return Exited, used; }
        var ok := AppendChecked(chunks[used]);
        assert chunks[used..][1..] == chunks[used + 1..];
        if !ok { return TooLong, used; }
        used := used + 1;
      }
    }
  }

  datatype LineResult = Line(bytes: seq<byte>) | TooLong | Exited

  /** The next line from a buffer and the reads to come: the answer, the buffer after
      it, and how many reads it took. */
  function NextLine(buffer: seq<byte>, chunks: seq<seq<byte>>, limit: nat): (LineResult, seq<byte>, nat)
    decreases |chunks|
  {
    var n := Find(buffer);
    if n < |buffer| then (Line(buffer[..n]), buffer[n + 1..], 0)
    else if chunks == [] then (Exited, buffer, 0)
    else if !Within(buffer + chunks[0], limit) then (TooLong, buffer, 0)
    else
      var (r, b, used) := NextLine(buffer + chunks[0], chunks[1..], limit);
      (r, b, used + 1)
  }

  // ----- Framing does not depend on the reads ---------------------------------------------------

  /** An answer to a stream, given the stream that is left after it. */
  predicate Answers(s: seq<byte>, r: LineResult, left: seq<byte>, limit: nat) {
    match r
    case Line(line) =>
      && Find(s) < |s|
      && line == s[..Find(s)]
      && left == s[Find(s) + 1..]
      && |line| <= limit
    case Exited => left == s && Find(s) == |s| && Within(s, limit)
    case TooLong => left == s && !Within(s, limit)
  }

  lemma BufferedLine(buffer: seq<byte>, more: seq<byte>, limit: nat)
    requires Find(buffer) < |buffer| && Within(buffer, limit)
    ensures var n := Find(buffer);
      Answers(buffer + more, Line(buffer[..n]), buffer[n + 1..] + more, limit)
  {
    var n := Find(buffer);
    FindAppend(buffer, more);
    assert (buffer + more)[..n] == buffer[..n];
    assert (buffer + more)[n + 1..] == buffer[n + 1..] + more;
  }

  /** The next line is that of the stream, wherever the reads cut it. */
  lemma {:induction false} NextLineMeaning(buffer: seq<byte>, chunks: seq<seq<byte>>, limit: nat)
    requires Within(buffer, limit)
    ensures var (r, rest, used) := NextLine(buffer, chunks, limit);
      && used <= |chunks|
      && Within(rest, limit)
      && Answers(buffer + Concat(chunks), r, rest + Concat(chunks[used..]), limit)
    decreases |chunks|
  {
    assert chunks[0..] == chunks;
    if Find(buffer) < |buffer| {
      BufferedLine(buffer, Concat(chunks), limit);
    } else if chunks == [] {
      assert buffer + Concat(chunks) == buffer;
    } else {
      var more := buffer + chunks[0];
      assert buffer + Concat(chunks) == more + Concat(chunks[1..]);
      if Within(more, limit) {
        NextLineMeaning(more, chunks[1..], limit);
        hide Answers;
        var used := NextLine(more, chunks[1..], limit).2;
        assert chunks[1..][used..] == chunks[used + 1..];
      } else if Within(buffer + Concat(chunks), limit) {
        WithinPrefix(more, Concat(chunks[1..]), limit);
      }
    }
  }

  /** Keep reading lines until the pipe ends or a line is refused. */
  function ReadAll(buffer: seq<byte>, chunks: seq<seq<byte>>, limit: nat): (seq<seq<byte>>, bool)
    requires Within(buffer, limit)
    decreases |buffer| + |Concat(chunks)|
  {
    NextLineMeaning(buffer, chunks, limit);
    var (r, rest, used) := NextLine(buffer, chunks, limit);
    match r
    case Exited => ([], true)
    case TooLong => ([], false)
    case Line(line) =>
      var (lines, ok) := ReadAll(rest, chunks[used..], limit);
      ([line] + lines, ok)
  }

  lemma AnswerSplits(s: seq<byte>, r: LineResult, left: seq<byte>, limit: nat)
    requires Answers(s, r, left, limit)
    ensures r.Line? ==> Lines(s) == [r.bytes] + Lines(left) && |left| < |s|
    ensures r.Line? ==> (Within(s, limit) <==> Within(left, limit))
    ensures r.Exited? ==> Within(s, limit) && Lines(s) == []
    ensures r.TooLong? ==> !Within(s, limit)
  {
  }

  /** For every way of cutting a stream into reads: reading fails if and only if some
      line is over the limit, and otherwise gives the lines of the stream. */
  lemma {:induction false} FramingIsChunkIndependent(buffer: seq<byte>, chunks: seq<seq<byte>>, limit: nat)
    requires Within(buffer, limit)
    ensures var s := buffer + Concat(chunks);
      var (lines, ok) := ReadAll(buffer, chunks, limit);
      && (ok <==> Within(s, limit))
      && (ok ==> lines == Lines(s))
      && lines <= Lines(s)
    decreases |buffer| + |Concat(chunks)|
  {
    hide Within, Lines, NextLine, Answers, Concat;
    NextLineMeaning(buffer, chunks, limit);
    var (r, rest, used) := NextLine(buffer, chunks, limit);
    AnswerSplits(buffer + Concat(chunks), r, rest + Concat(chunks[used..]), limit);
    if !r.Line? {
    } else {
      FramingIsChunkIndependent(rest, chunks[used..], limit);
    }
  }

  /** Two ways of cutting the same stream agree. */
  lemma SameStreamSameLines(a: seq<seq<byte>>, b: seq<seq<byte>>, limit: nat)
    requires Concat(a) == Concat(b)
    ensures ReadAll([], a, limit).1 == ReadAll([], b, limit).1
    ensures ReadAll([], a, limit).1 ==> ReadAll([], a, limit).0 == ReadAll([], b, limit).0
  {
    FramingIsChunkIndependent([], a, limit);
    FramingIsChunkIndependent([], b, limit);
  }

  /** Read at most `n` lines: the lines, the buffer after them and the reads taken. */
  function ReadSome(buffer: seq<byte>, chunks: seq<seq<byte>>, limit: nat, n: nat): (seq<seq<byte>>, seq<byte>, nat)
    requires Within(buffer, limit)
    decreases n
  {
    NextLineMeaning(buffer, chunks, limit);
    var (r, rest, used) := NextLine(buffer, chunks, limit);
    if n == 0 then ([], buffer, 0)
    else if !r.Line? then ([], rest, used)
    else
      var (lines, last, more) := ReadSome(rest, chunks[used..], limit, n - 1);
      ([r.bytes] + lines, last, used + more)
  }

  lemma LineThenRest(s: seq<byte>, line: seq<byte>, left: seq<byte>, limit: nat)
    requires Answers(s, Line(line), left, limit)
    ensures s == line + [NEWLINE] + left
  {
  }

  /** Nothing is lost: at any point the lines returned, their newlines, the buffer and
      the reads still to come make up the stream. */
  lemma {:induction false} ReadingConserves(buffer: seq<byte>, chunks: seq<seq<byte>>, limit: nat, n: nat)
    requires Within(buffer, limit)
    ensures var (lines, rest, used) := ReadSome(buffer, chunks, limit, n);
      && used <= |chunks|
      && Unlines(lines) + (rest + Concat(chunks[used..])) == buffer + Concat(chunks)
      && (forall i :: 0 <= i < |lines| ==> |lines[i]| <= limit)
    decreases n
  {
    hide Within, NextLine, Concat;
    NextLineMeaning(buffer, chunks, limit);
    var (r, rest, used) := NextLine(buffer, chunks, limit);
    assert chunks[0..] == chunks;
    if n == 0 || !r.Line? {
    } else {
      LineThenRest(buffer + Concat(chunks), r.bytes, rest + Concat(chunks[used..]), limit);
      ReadingConserves(rest, chunks[used..], limit, n - 1);
      var (lines, last, more) := ReadSome(rest, chunks[used..], limit, n - 1);
      assert ([r.bytes] + lines)[1..] == lines;
      assert chunks[used..][more..] == chunks[used + more..];
      var end := last + Concat(chunks[used + more..]);
      assert r.bytes + [NEWLINE] + Unlines(lines) + end == r.bytes + [NEWLINE] + (Unlines(lines) + end);
    }
  }

  /** While reads are at most READ_SIZE bytes, the buffer stays within the limit plus one read. */
  lemma {:induction false} BufferIsBounded(buffer: seq<byte>, chunks: seq<seq<byte>>, limit: nat)
    requires |buffer| <= limit + READ_SIZE && Within(buffer, limit)
    requires forall i :: 0 <= i < |chunks| ==> |chunks[i]| <= READ_SIZE
    ensures |NextLine(buffer, chunks, limit).1| <= limit + READ_SIZE
    decreases |chunks|
  {
    if Find(buffer) < |buffer| || chunks == [] || !Within(buffer + chunks[0], limit) {
    } else {
      BufferIsBounded(buffer + chunks[0], chunks[1..], limit);
    }
  }
}
