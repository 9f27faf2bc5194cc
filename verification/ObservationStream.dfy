// The bounded writer of the activation observation stream: a buffered, limited log whose
// last line states what was kept, whatever the file does with the writes.

module ObservationStream {

  /** What the n-th write call reports: a count of bytes, or a failure if not positive. */
  type Os = nat -> int

  /** The file and what the log knows of it. */
  datatype Disk = Disk(open: bool, file: string, calls: nat, bytes: nat, writeFailed: bool, midLine: bool)

  datatype Log = Log(
    disk: Disk,
    buffer: string,
    bufferedRecords: nat,
    headerPending: bool,
    records: nat,
    dropped: nat,
    accepted: nat,
    truncated: bool,
    closed: bool)

  datatype Limits = Limits(limit: nat, buffer: nat)

  function Fresh(open: bool): Log {
    Log(Disk(open, "", 0, 0, false, false), "", 0, true, 0, 0, 0, false, false)
  }

  /** Repeated writes of what is left: bytes written, calls made, whether all went out. */
  function Transfer(size: nat, os: Os, calls: nat): (r: (nat, nat, bool))
    ensures r.0 <= size && (r.2 <==> r.0 == size)
    decreases size
  {
    if size == 0 then (0, calls, true)
    else if os(calls) <= 0 then (0, calls + 1, false)
    else
      var n := if os(calls) < size then os(calls) else size;
      var (written, after, ok) := Transfer(size - n, os, calls + 1);
      (n + written, after, ok)
  }

  /** A transfer whose first bytes already went out. */
  function Later(written: nat, r: (nat, nat, bool)): (nat, nat, bool) {
    (written + r.0, r.1, r.2)
  }

  lemma TransferStep(size: nat, os: Os, calls: nat)
    ensures size == 0 ==> Transfer(size, os, calls) == (0, calls, true)
    ensures size > 0 && os(calls) <= 0 ==> Transfer(size, os, calls) == (0, calls + 1, false)
    ensures size > 0 && os(calls) > 0 ==>
      var n := if os(calls) < size then os(calls) else size;
      Transfer(size, os, calls) == Later(n, Transfer(size - n, os, calls + 1))
  {
  }

  lemma Extend(file: string, before: string, data: string, i: nat, n: nat)
    requires i + n <= |data| && file == before + data[..i]
    ensures file + data[i..i + n] == before + data[..i + n]
  {
    assert data[..i + n] == data[..i] + data[i..i + n];
  }

  function Written(d: Disk, data: string, os: Os): (Disk, bool) {
    if d.writeFailed || !d.open then (d.(writeFailed := true), false)
    else
      var (n, calls, ok) := Transfer(|data|, os, d.calls);
      var file, bytes := d.file + data[..n], d.bytes + n;
      (Disk(true, file, calls, bytes, !ok, if ok then d.midLine else n > 0), ok)
  }

  function Flushed(s: Log, os: Os): Log {
    if s.buffer == "" then s
    else
      var (disk, ok) := Written(s.disk, s.buffer, os);
      var kept, lost := if ok then s.bufferedRecords else 0, if ok then 0 else s.bufferedRecords;
      s.(disk := disk, buffer := "", bufferedRecords := 0, records := s.records + kept, dropped := s.dropped + lost)
  }

  function Appended(s: Log, line: string, l: Limits, os: Os): Log {
    var one := if s.headerPending then 0 else 1;
    var t := s.(headerPending := false);
    if t.closed || t.truncated || t.disk.writeFailed || t.accepted + |line| > l.limit then
      t.(truncated := t.truncated || (!t.closed && !t.disk.writeFailed), dropped := t.dropped + one)
    else
      Stored(if |t.buffer| + |line| > l.buffer then Flushed(t, os) else t, line, one, l, os)
  }

  /** A line within the limit, after the buffer was flushed if it had no room for it. */
  function Stored(u: Log, line: string, one: nat, l: Limits, os: Os): Log {
    if u.disk.writeFailed then u.(dropped := u.dropped + one)
    else if |line| > l.buffer then Direct(u, line, one, os)
    else u.(buffer := u.buffer + line, accepted := u.accepted + |line|, bufferedRecords := u.bufferedRecords + one)
  }

  /** A line larger than the buffer goes straight to the file. */
  function Direct(u: Log, line: string, one: nat, os: Os): Log {
    var (disk, ok) := Written(u.disk, line, os);
    if ok then u.(disk := disk, accepted := u.accepted + |line|, records := u.records + one)
    else u.(disk := disk, dropped := u.dropped + one)
  }

  function WithLoss(s: Log): Log {
    s.(dropped := s.dropped + 1)
  }

  function Digits(n: nat): string {
    if n < 10 then ["0123456789"[n]] else Digits(n / 10) + ["0123456789"[n % 10]]
  }

  function Truth(b: bool): string {
    if b then "true" else "false"
  }

  function EndLine(s: Log): string {
    EndText(s.disk.midLine, s.records, s.dropped, s.truncated, s.disk.writeFailed, s.disk.bytes)
  }

  function EndText(midLine: bool, records: nat, dropped: nat, truncated: bool, writeFailed: bool, bytes: nat): string {
    (if midLine then "\n" else "") +
    "{\"kind\":\"end\",\"records\":" + Digits(records) +
    ",\"dropped\":" + Digits(dropped) +
    ",\"truncated\":" + Truth(truncated) +
    ",\"write_failed\":" + Truth(writeFailed) +
    ",\"bytes\":" + Digits(bytes) + "}\n"
  }

  function Closed(s: Log, os: Os): Log {
    if s.closed then s
    else
      var t := Flushed(s, os).(closed := true);
      if !t.disk.open then t
      else
        var (n, calls, ok) := Transfer(|EndLine(t)|, os, t.disk.calls);
        t.(disk := t.disk.(file := t.disk.file + EndLine(t)[..n], calls := calls, open := false))
  }

  // ----- The reference ------------------------------------------------------------------------------

  function Concat(lines: seq<string>): string {
    if lines == [] then "" else Concat(lines[..|lines| - 1]) + lines[|lines| - 1]
  }

  /** The lines before the first that does not fit in what the others leave of the limit. */
  function Fitting(lines: seq<string>, limit: nat): (f: seq<string>)
    ensures f <= lines
    ensures |Concat(f)| <= limit
  {
    if lines == [] then []
    else
      var n := |lines| - 1;
      var before := Fitting(lines[..n], limit);
      if |before| == n && |Concat(before)| + |lines[n]| <= limit then
        assert (before + [lines[n]])[..n] == before;
        before + [lines[n]]
      else before
  }

  datatype Op = Line(line: string) | Lost

  function Apply(s: Log, op: Op, l: Limits, os: Os): Log {
    match op
    case Line(line) => Appended(s, line, l, os)
    case Lost => WithLoss(s)
  }

  function After(ops: seq<Op>, l: Limits, os: Os): Log {
    if ops == [] then Fresh(true)
    else Apply(After(ops[..|ops| - 1], l, os), ops[|ops| - 1], l, os)
  }

  function LinesOf(ops: seq<Op>): seq<string> {
    if ops == [] then []
    else
      var before := LinesOf(ops[..|ops| - 1]);
      match ops[|ops| - 1]
      case Line(line) => before + [line]
      case Lost => before
  }

  /** Records without the header. */
  function Records(lines: seq<string>): nat {
    if lines == [] then 0 else |lines| - 1
  }

  function Losses(ops: seq<Op>): nat {
    if ops == [] then 0 else Losses(ops[..|ops| - 1]) + if ops[|ops| - 1].Lost? then 1 else 0
  }

  /** How many lines stand behind a count of records: the header is one more. */
  function Behind(records: nat): nat {
    if records == 0 then 0 else records + 1
  }

  /** What holds of an open log after the given lines and losses: every record is counted
      once, the counted ones are in the file, and the file holds nothing but lines that
      fit; without a failed write, file and buffer hold all of those. */
  predicate Consistent(s: Log, lines: seq<string>, losses: nat, limit: nat) {
    var f := Fitting(lines, limit);
    && !s.closed && s.disk.open
    && s.records + s.dropped + s.bufferedRecords == Records(lines) + losses
    && s.disk.bytes == |s.disk.file|
    && Behind(s.records) <= |f|
    && Concat(f[..Behind(s.records)]) <= s.disk.file
    && if s.disk.writeFailed then Failed(s, f) else Whole(s, lines, f)
  }

  predicate Failed(s: Log, f: seq<string>) {
    s.buffer == "" && s.bufferedRecords == 0 && s.disk.file <= Concat(f)
  }

  predicate Whole(s: Log, lines: seq<string>, f: seq<string>) {
    && s.disk.file + s.buffer == Concat(f)
    && s.accepted == |Concat(f)|
    && s.records + s.bufferedRecords == Records(f)
    && (s.truncated <==> |f| < |lines|)
    && !s.disk.midLine
    && (s.buffer == "" ==> s.bufferedRecords == 0)
  }

  // ----- Every operation keeps it ---------------------------------------------------------------------

  lemma ConcatNext(lines: seq<string>, line: string)
    ensures Concat(lines + [line]) == Concat(lines) + line
  {
    assert (lines + [line])[..|lines|] == lines;
  }

  lemma FittingNext(lines: seq<string>, line: string, limit: nat)
    ensures var f := Fitting(lines, limit);
      Fitting(lines + [line], limit)
      == if |f| == |lines| && |Concat(f)| + |line| <= limit then f + [line] else f
  {
    assert (lines + [line])[..|lines|] == lines;
  }

  lemma FlushKeeps(s: Log, lines: seq<string>, losses: nat, limit: nat, os: Os)
    requires Consistent(s, lines, losses, limit)
    ensures Consistent(Flushed(s, os), lines, losses, limit)
    ensures Flushed(s, os).buffer == ""
  {
    hide Concat, Fitting;
    var f := Fitting(lines, limit);
    if s.buffer != "" {
      var n := Transfer(|s.buffer|, os, s.disk.calls).0;
      assert s.disk.file + s.buffer[..n] <= s.disk.file + s.buffer;
      if n == |s.buffer| {
        assert s.buffer[..n] == s.buffer;
        assert f[..|f|] == f;
      }
    }
  }

  /** A line that is refused, or that a failed log counts as dropped. */
  lemma RefusedKeeps(s: Log, t: Log, lines: seq<string>, line: string, losses: nat, limit: nat)
    requires Consistent(s, lines, losses, limit)
    requires t == s.(truncated := t.truncated, dropped := s.dropped + if lines == [] then 0 else 1)
    requires s.disk.writeFailed || (t.truncated && (s.truncated || s.accepted + |line| > limit))
    ensures Consistent(t, lines + [line], losses, limit)
  {
    var f := Fitting(lines, limit);
    FittingNext(lines, line, limit);
    ConcatNext(f, line);
    hide Concat, Fitting;
    var g := Fitting(lines + [line], limit);
    assert g[..Behind(s.records)] == f[..Behind(s.records)];
  }

  /** A line the log takes into its buffer. */
  lemma LongerLines(f: seq<string>, line: string, file: string, buffer: string, n: nat)
    requires n <= |f| && Concat(f[..n]) <= file && file + buffer == Concat(f)
    ensures Concat((f + [line])[..n]) <= file && file + (buffer + line) == Concat(f + [line])
    ensures |Concat(f + [line])| == |Concat(f)| + |line|
  {
    hide Concat;
    ConcatNext(f, line);
    assert (f + [line])[..n] == f[..n];
    assert file + (buffer + line) == file + buffer + line;
  }

  lemma BufferedKeeps(s: Log, lines: seq<string>, line: string, losses: nat, limit: nat)
    requires Consistent(s, lines, losses, limit) && !s.disk.writeFailed && !s.truncated
    requires line != "" && s.accepted + |line| <= limit
    ensures var one := if lines == [] then 0 else 1;
      Consistent(s.(buffer := s.buffer + line, accepted := s.accepted + |line|,
                    bufferedRecords := s.bufferedRecords + one),
                 lines + [line], losses, limit)
  {
    hide Concat, Fitting;
    assert Fitting(lines, limit) == lines;
    FittingNext(lines, line, limit);
    LongerLines(lines, line, s.disk.file, s.buffer, Behind(s.records));
  }

  lemma WriteAllShape(d: Disk, data: string, os: Os)
    requires !d.writeFailed && d.open
    ensures var (disk, ok) := Written(d, data, os);
      && disk.open && disk.writeFailed == !ok
      && d.bytes <= disk.bytes <= d.bytes + |data|
      && disk.file == d.file + data[..disk.bytes - d.bytes]
      && (ok ==> disk.file == d.file + data && disk.bytes == d.bytes + |data| && disk.midLine == d.midLine)
  {
    assert data[..|data|] == data;
  }

  /** A line written past an empty buffer. */
  lemma DirectKeeps(s: Log, lines: seq<string>, line: string, losses: nat, limit: nat, os: Os)
    requires Consistent(s, lines, losses, limit) && !s.disk.writeFailed && !s.truncated && s.buffer == ""
    requires s.accepted + |line| <= limit
    ensures Consistent(Direct(s, line, if lines == [] then 0 else 1, os), lines + [line], losses, limit)
  {
    hide *;
    ConsistentIsOpen(s, lines, losses, limit);
    WriteAllShape(s.disk, line, os);
    DirectIs(s, line, if lines == [] then 0 else 1, os);
    var (disk, ok) := Written(s.disk, line, os);
    if ok {
      WrittenKeeps(s, lines, line, losses, limit, disk);
    } else {
      PartKeeps(s, lines, line, losses, limit, disk, disk.bytes - s.disk.bytes);
    }
  }

  lemma ConsistentIsOpen(s: Log, lines: seq<string>, losses: nat, limit: nat)
    requires Consistent(s, lines, losses, limit)
    ensures s.disk.open
  {
  }

  lemma DirectIs(s: Log, line: string, one: nat, os: Os)
    ensures var (disk, ok) := Written(s.disk, line, os);
      Direct(s, line, one, os)
      == if ok then s.(disk := disk, accepted := s.accepted + |line|, records := s.records + one)
         else s.(disk := disk, dropped := s.dropped + one)
  {
    hide Written;
  }

  lemma WrittenKeeps(s: Log, lines: seq<string>, line: string, losses: nat, limit: nat, disk: Disk)
    requires Consistent(s, lines, losses, limit) && !s.disk.writeFailed && !s.truncated && s.buffer == ""
    requires s.accepted + |line| <= limit
    requires disk.open && !disk.writeFailed && disk.midLine == s.disk.midLine
    requires disk.file == s.disk.file + line && disk.bytes == s.disk.bytes + |line|
    ensures var one := if lines == [] then 0 else 1;
      Consistent(s.(disk := disk, accepted := s.accepted + |line|, records := s.records + one),
                 lines + [line], losses, limit)
  {
    var f := Fitting(lines, limit);
    FittingNext(lines, line, limit);
    ConcatNext(f, line);
    hide Concat, Fitting;
    assert f == lines;
    var g := f + [line];
    assert g[..|g|] == g;
    assert s.disk.file + s.buffer == s.disk.file;
    assert disk.file + s.buffer == disk.file;
    assert g[..0] == f[..0];
  }

  lemma PartKeeps(s: Log, lines: seq<string>, line: string, losses: nat, limit: nat, disk: Disk, n: nat)
    requires Consistent(s, lines, losses, limit) && !s.disk.writeFailed && !s.truncated && s.buffer == ""
    requires s.accepted + |line| <= limit && n <= |line|
    requires disk.open && disk.writeFailed
    requires disk.file == s.disk.file + line[..n] && disk.bytes == s.disk.bytes + n
    ensures var one := if lines == [] then 0 else 1;
      Consistent(s.(disk := disk, dropped := s.dropped + one), lines + [line], losses, limit)
  {
    var f := Fitting(lines, limit);
    FittingNext(lines, line, limit);
    ConcatNext(f, line);
    hide Concat, Fitting;
    var g := f + [line];
    assert g[..Behind(s.records)] == f[..Behind(s.records)];
    assert s.disk.file + line[..n] <= s.disk.file + line;
    assert s.disk.file + s.buffer == s.disk.file;
  }

  lemma StoredKeeps(u: Log, lines: seq<string>, line: string, losses: nat, l: Limits, os: Os)
    requires Consistent(u, lines, losses, l.limit) && !u.truncated
    requires line != "" && u.accepted + |line| <= l.limit
    requires |line| > l.buffer ==> u.buffer == ""
    ensures Consistent(Stored(u, line, if lines == [] then 0 else 1, l, os), lines + [line], losses, l.limit)
  {
    hide Consistent, Direct;
    if u.disk.writeFailed {
      RefusedKeeps(u, Stored(u, line, if lines == [] then 0 else 1, l, os), lines, line, losses, l.limit);
    } else if |line| > l.buffer {
      DirectKeeps(u, lines, line, losses, l.limit, os);
    } else {
      BufferedKeeps(u, lines, line, losses, l.limit);
    }
  }

  lemma AppendKeeps(s: Log, lines: seq<string>, line: string, losses: nat, l: Limits, os: Os)
    requires Consistent(s, lines, losses, l.limit) && (s.headerPending <==> lines == []) && line != ""
    ensures Consistent(Appended(s, line, l, os), lines + [line], losses, l.limit)
    ensures !Appended(s, line, l, os).headerPending
  {
    var t := s.(headerPending := false);
    assert Consistent(t, lines, losses, l.limit) && !t.closed;
    hide Consistent, Flushed, Stored;
    if t.truncated || t.disk.writeFailed || t.accepted + |line| > l.limit {
      RefusedKeeps(t, Appended(s, line, l, os), lines, line, losses, l.limit);
    } else {
      FlushKeeps(t, lines, losses, l.limit, os);
      FlushChanges(t, os);
      var u := if |t.buffer| + |line| > l.buffer then Flushed(t, os) else t;
      StoredKeeps(u, lines, line, losses, l, os);
      StoredChanges(u, line, if lines == [] then 0 else 1, l, os);
    }
  }

  lemma FlushChanges(s: Log, os: Os)
    ensures var t := Flushed(s, os);
      t.headerPending == s.headerPending && t.accepted == s.accepted && t.truncated == s.truncated
  {
    hide Written;
  }

  lemma StoredChanges(s: Log, line: string, one: nat, l: Limits, os: Os)
    ensures Stored(s, line, one, l, os).headerPending == s.headerPending
  {
    hide Written;
  }

  lemma DropKeeps(s: Log, lines: seq<string>, losses: nat, limit: nat)
    requires Consistent(s, lines, losses, limit)
    ensures Consistent(WithLoss(s), lines, losses + 1, limit)
  {
    hide Concat, Fitting;
  }

  /** Whatever the writes do, every log reached from a new one is consistent. */
  lemma {:induction false} RunIsConsistent(ops: seq<Op>, l: Limits, os: Os)
    requires forall i :: 0 <= i < |ops| && ops[i].Line? ==> ops[i].line != ""
    ensures Consistent(After(ops, l, os), LinesOf(ops), Losses(ops), l.limit)
    ensures After(ops, l, os).headerPending <==> LinesOf(ops) == []
  {
    if ops == [] {
    } else {
      hide Appended, Consistent, WithLoss;
      var n := |ops| - 1;
      RunIsConsistent(ops[..n], l, os);
      var s := After(ops[..n], l, os);
      match ops[n]
      case Line(line) =>
        AppendKeeps(s, LinesOf(ops[..n]), line, Losses(ops[..n]), l, os);
      case Lost =>
        DropKeeps(s, LinesOf(ops[..n]), Losses(ops[..n]), l.limit);
        DropChanges(s);
    }
  }

  lemma DropChanges(s: Log)
    ensures WithLoss(s).headerPending == s.headerPending
  {
  }

  // ----- The stream at close ------------------------------------------------------------------------------

  lemma {:induction false} TransferGoesThrough(size: nat, os: Os, calls: nat)
    requires forall k :: os(k) > 0
    ensures Transfer(size, os, calls).2
    decreases size
  {
    if size == 0 {
    } else {
      TransferGoesThrough(size - if os(calls) < size then os(calls) else size, os, calls + 1);
    }
  }

  lemma WriteAllGoesThrough(d: Disk, data: string, os: Os)
    requires forall k :: os(k) > 0
    requires d.open && !d.writeFailed
    ensures !Written(d, data, os).0.writeFailed && Written(d, data, os).0.open
  {
    TransferGoesThrough(|data|, os, d.calls);
  }

  lemma FlushGoesThrough(s: Log, os: Os)
    requires forall k :: os(k) > 0
    requires s.disk.open && !s.disk.writeFailed
    ensures !Flushed(s, os).disk.writeFailed && Flushed(s, os).disk.open
  {
    WriteAllGoesThrough(s.disk, s.buffer, os);
    hide Written;
  }

  lemma AppendGoesThrough(s: Log, line: string, l: Limits, os: Os)
    requires forall k :: os(k) > 0
    requires s.disk.open && !s.disk.writeFailed
    ensures !Appended(s, line, l, os).disk.writeFailed && Appended(s, line, l, os).disk.open
  {
    var t := s.(headerPending := false);
    FlushGoesThrough(t, os);
    var u := if |t.buffer| + |line| > l.buffer then Flushed(t, os) else t;
    WriteAllGoesThrough(u.disk, line, os);
    hide Written, Flushed;
  }

  lemma {:induction false} RunGoesThrough(ops: seq<Op>, l: Limits, os: Os)
    requires forall k :: os(k) > 0
    ensures !After(ops, l, os).disk.writeFailed && After(ops, l, os).disk.open
  {
    if ops == [] {
    } else {
      var n := |ops| - 1;
      RunGoesThrough(ops[..n], l, os);
      if ops[n].Line? {
        AppendGoesThrough(After(ops[..n], l, os), ops[n].line, l, os);
      }
      hide Appended;
    }
  }

  /** What a closed log says and holds: `end` is its end line, `kept` the records part. */
  ghost predicate Settled(c: Log, kept: string, lines: seq<string>, losses: nat, limit: nat) {
    var f := Fitting(lines, limit);
    && c.closed && !c.disk.open
    && kept <= c.disk.file <= kept + EndLine(c)
    && kept <= Concat(f)
    && c.disk.bytes == |kept| <= limit
    && c.records + c.dropped == Records(lines) + losses
    && Behind(c.records) <= |f|
    && Concat(f[..Behind(c.records)]) <= kept
  }

  lemma CloseShape(s: Log, os: Os)
    requires !s.closed && Flushed(s, os).disk.open
    ensures var t, c := Flushed(s, os), Closed(s, os);
      && c.closed && !c.disk.open
      && c.records == t.records && c.dropped == t.dropped && c.truncated == t.truncated
      && c.disk.bytes == t.disk.bytes && c.disk.writeFailed == t.disk.writeFailed
      && EndLine(c) == EndLine(t)
      && t.disk.file <= c.disk.file <= t.disk.file + EndLine(c)
      && ((forall k :: os(k) > 0) ==> c.disk.file == t.disk.file + EndLine(c))
  {
    hide EndText, Flushed;
    var t := Flushed(s, os).(closed := true);
    var (n, calls, ok) := Transfer(|EndLine(t)|, os, t.disk.calls);
    if forall k :: os(k) > 0 {
      TransferGoesThrough(|EndLine(t)|, os, t.disk.calls);
      assert EndLine(t)[..n] == EndLine(t);
    }
    hide Transfer;
  }

  /** For every sequence of lines and losses and every behaviour of the writes: the closed
      file is a prefix of the lines that fit followed by what went out of the end line;
      every record was counted once and every counted record is in the file. */
  lemma ClosedStream(ops: seq<Op>, l: Limits, os: Os)
    requires forall i :: 0 <= i < |ops| && ops[i].Line? ==> ops[i].line != ""
    ensures var t := Flushed(After(ops, l, os), os);
      Settled(Closed(After(ops, l, os), os), t.disk.file, LinesOf(ops), Losses(ops), l.limit)
  {
    var s := After(ops, l, os);
    RunIsConsistent(ops, l, os);
    FlushKeeps(s, LinesOf(ops), Losses(ops), l.limit, os);
    CloseShape(s, os);
    hide Flushed, Closed, After, EndLine, Concat, Fitting;
  }

  /** When no write fails, the closed file is exactly the lines before the first that does
      not fit and one end line, whose counts say what was kept. */
  lemma CompleteStream(ops: seq<Op>, l: Limits, os: Os)
    requires forall k :: os(k) > 0
    requires forall i :: 0 <= i < |ops| && ops[i].Line? ==> ops[i].line != ""
    ensures var c, f := Closed(After(ops, l, os), os), Fitting(LinesOf(ops), l.limit);
      && c.disk.file == Concat(f) + EndLine(c)
      && c.records == Records(f)
      && (c.truncated <==> |f| < |LinesOf(ops)|)
      && !c.disk.writeFailed && c.disk.bytes == |Concat(f)|
  {
    var s := After(ops, l, os);
    RunIsConsistent(ops, l, os);
    RunGoesThrough(ops, l, os);
    FlushKeeps(s, LinesOf(ops), Losses(ops), l.limit, os);
    FlushGoesThrough(s, os);
    CloseShape(s, os);
    hide Flushed, Closed, After, EndLine, Concat, Fitting;
    var t := Flushed(s, os);
    assert t.disk.file + "" == t.disk.file;
  }

  // ----- The class -------------------------------------------------------------------------------------------

  class ObservationLog {
    const limits: Limits
    const os: Os
    var open: bool
    var file: string
    var calls: nat
    var buffer: string
    var bufferedRecords: nat
    var headerPending: bool
    var records: nat
    var dropped: nat
    var accepted: nat
    var bytes: nat
    var truncated: bool
    var writeFailed: bool
    var midLine: bool
    var closed: bool

    function OnDisk(): Disk
      reads this
    {
      Disk(open, file, calls, bytes, writeFailed, midLine)
    }

    function State(): Log
      reads this
    {
      Log(OnDisk(), buffer, bufferedRecords, headerPending, records, dropped, accepted, truncated, closed)
    }

    constructor (open: bool, limits: Limits, os: Os)
      ensures this.limits == limits && this.os == os
      ensures State() == Fresh(open)
    {
      this.limits, this.os, this.open := limits, os, open;
      file, calls, buffer, bufferedRecords, headerPending := "", 0, "", 0, true;
      records, dropped, accepted, bytes := 0, 0, 0, 0;
      truncated, writeFailed, midLine, closed := false, false, false, false;
    }

    /** The write loop: the calls go on until all is out or one fails. */
    method Put(data: string) returns (written: nat)
      modifies this`file, this`calls
      ensures var (n, after, ok) := Transfer(|data|, os, old(calls));
        written == n && calls == after && file == old(file) + data[..n]
    {
      hide Transfer;
      written := 0;
      while written < |data|
        invariant 0 <= written <= |data|
        invariant Transfer(|data|, os, old(calls)) == Later(written, Transfer(|data| - written, os, calls))
        invariant file == old(file) + data[..written]
      {
        TransferStep(|data| - written, os, calls);
        var n := os(calls);
        calls := calls + 1;
        if n <= 0 { return; }
        if n > |data| - written { n := |data| - written; }
        Extend(file, old(file), data, written, n);
        file := file + data[written..written + n];
        written := written + n;
      }
      TransferStep(0, os, calls);
    }

    method WriteAll(data: string) returns (ok: bool)
      modifies this`file, this`calls, this`bytes, this`writeFailed, this`midLine
      ensures (OnDisk(), ok) == Written(old(OnDisk()), data, os)
    {
      if writeFailed || !open {
        writeFailed := true;
        return false;
      }
      hide Transfer;
      var written := Put(data);
      bytes := bytes + written;
      if written < |data| {
        writeFailed := true;
        midLine := written > 0;
        return false;
      }
      return true;
    }

    method Flush()
      modifies this
      ensures State() == Flushed(old(State()), os)
    {
      if buffer == "" { return; }
      var ok := WriteAll(buffer);
      if ok {
        records := records + bufferedRecords;
      } else {
        dropped := dropped + bufferedRecords;
      }
      bufferedRecords, buffer := 0, "";
    }

    method Append(line: string)
      modifies this
      ensures State() == Appended(old(State()), line, limits, os)
    {
      hide Flushed, Written;
      var header := headerPending;
      headerPending := false;
      if closed || truncated || writeFailed || accepted + |line| > limits.limit {
        if !closed && !writeFailed { truncated := true; }
        if !header { dropped := dropped + 1; }
        return;
      }
      if |buffer| + |line| > limits.buffer { Flush(); }
      hide Stored;
      Store(line, header);
    }

    method Store(line: string, header: bool)
      modifies this
      ensures State() == Stored(old(State()), line, if header then 0 else 1, limits, os)
    {
      hide Written;
      if writeFailed {
        if !header { dropped := dropped + 1; }
        return;
      }
      if |line| > limits.buffer {
        var ok := WriteAll(line);
        if !ok {
          if !header { dropped := dropped + 1; }
          return;
        }
        accepted := accepted + |line|;
        if !header { records := records + 1; }
        return;
      }
      buffer := buffer + line;
      accepted := accepted + |line|;
      if !header { bufferedRecords := bufferedRecords + 1; }
    }

    method Drop()
      modifies this
      ensures State() == WithLoss(old(State()))
    {
      dropped := dropped + 1;
    }

    method Close()
      modifies this
      ensures State() == Closed(old(State()), os)
    {
      hide Flushed, EndText, Transfer;
      if closed { return; }
      Flush();
      closed := true;
      if !open { return; }
      var written := Put(EndLine(State()));
      open := false;
    }
  }
}
