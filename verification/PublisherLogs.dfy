/** How each generation cuts the new bytes of captured logs into records. What it finds is what
    the protocol's staging step commits with the generation. */
module PublisherLogs {
  import opened Wrappers
  import opened Collections
  import opened PublisherRecords
  import opened PublisherData

  /** Where a bounded line read from pos stops: after the first newline, or at the bound. */
  function LineEnd(file: seq<Byte>, pos: nat, bound: nat): (end: nat)
    requires pos <= bound <= |file|
    ensures pos <= end <= bound && (pos < bound ==> pos < end)
    ensures NoNewline(file, pos, end - 1)
    ensures end < bound ==> pos < end && file[end - 1] == NEWLINE
    decreases bound - pos
  {
    if pos == bound then pos
    else if file[pos] == NEWLINE then pos + 1
    else LineEnd(file, pos + 1, bound)
  }

  lemma CutIsRecord(file: seq<Byte>, r: LogRecord)
    requires r.start < r.end <= |file| && r.end - r.start <= FRAGMENT && r.raw == file[r.start..r.end]
    requires NoNewline(file, r.start, r.end - 1)
    requires r.fragment == ((r.start > 0 && file[r.start - 1] != NEWLINE) || file[r.end - 1] != NEWLINE)
    ensures RecordOf(file, r)
  {
  }

  // ----- One stream, one generation -----

  /** Looks for a newline in the captured prefix, a bounded read at a time. */
  method Probe(file: seq<Byte>, from: nat, limit: nat) returns (found: bool, scan: nat)
    requires from <= limit <= |file|
    ensures found ==> from < scan <= limit && file[scan - 1] == NEWLINE
    ensures !found ==> NoNewline(file, from, limit)
  {
    found, scan := false, from;
    while scan < limit
      invariant from <= scan <= limit && NoNewline(file, from, scan)
    {
      var end := LineEnd(file, scan, scan + Min(FRAGMENT, limit - scan));
      scan := end;
      if file[end - 1] == NEWLINE { return true, scan; }
    }
  }

  /** A newline that ends the line of everything up to end, within the captured prefix. */
  predicate LineCommitted(file: seq<Byte>, end: nat, limit: nat)
  {
    exists q :: end - 1 <= q < limit && 0 <= q < |file| && file[q] == NEWLINE
  }

  lemma CommittedAt(file: seq<Byte>, end: nat, limit: nat, q: int)
    requires end - 1 <= q < limit && 0 <= q < |file| && file[q] == NEWLINE
    ensures LineCommitted(file, end, limit)
  {
  }

  /** A record is cut no shorter than it must be: it ends with its line, is as long as a record may
      be, or ends where the limit or the budget does. */
  predicate CutFully(file: seq<Byte>, r: LogRecord, limit: nat, stop: nat)
  {
    0 < r.end <= |file| && (file[r.end - 1] == NEWLINE || r.end - r.start == FRAGMENT || r.end == limit || r.end == stop)
  }

  ghost predicate AllCutFully(file: seq<Byte>, records: seq<LogRecord>, limit: nat, stop: nat)
  {
    forall i :: 0 <= i < |records| ==> CutFully(file, records[i], limit, stop)
  }

  /** Some record holds each byte of the stretch. */
  lemma {:induction false} RecordAt(file: seq<Byte>, records: seq<LogRecord>, from: nat, to: nat, x: nat) returns (i: nat)
    requires Tiles(file, records, from, to) && from <= x < to
    ensures i < |records| && RecordOf(file, records[i]) && records[i].start <= x < records[i].end
  {
    var last := records[|records| - 1];
    if x < last.start {
      i := RecordAt(file, records[..|records| - 1], from, last.start, x);
    } else {
      i := |records| - 1;
    }
  }

  /** A whole line no longer than a record may be, whose first byte is cut and which fits the limit
      and the budget, is one record and no fragment. */
  lemma LineIsRecord(file: seq<Byte>, records: seq<LogRecord>, from: nat, to: nat, limit: nat, stop: nat, a: nat, b: nat)
    requires Tiles(file, records, from, to) && AllCutFully(file, records, limit, stop)
    requires b <= |file| && WholeLine(file, a, b) && b - a <= FRAGMENT && from <= a < to && b <= limit && b <= stop
    ensures LogRecord(a, b, file[a..b], false) in records
  {
    hide Tiles;
    var i := RecordAt(file, records, from, to, a);
    var r := records[i];
    assert CutFully(file, r, limit, stop);
    assert r.start == a by { assert r.start < a ==> r.start <= a - 1 < r.end - 1; }
    assert r.end == b by { assert r.end > b ==> r.start <= b - 1 < r.end - 1; }
    assert r == LogRecord(a, b, file[a..b], false);
  }

  /** What is cut of a stream so far. */
  ghost predicate CutOk(file: seq<Byte>, records: seq<LogRecord>, from: nat, pos: nat, limit: nat, live: bool, budget: nat)
  {
    Tiles(file, records, from, pos) && AllCutFully(file, records, limit, from + budget) &&
    (live ==> forall i :: 0 <= i < |records| ==> LineCommitted(file, records[i].end, limit))
  }

  lemma CutStart(file: seq<Byte>, from: nat, limit: nat, live: bool, budget: nat)
    ensures CutOk(file, [], from, from, limit, live, budget)
  {
  }

  lemma CutMore(file: seq<Byte>, records: seq<LogRecord>, from: nat, r: LogRecord, limit: nat, live: bool, budget: nat)
    requires CutOk(file, records, from, r.start, limit, live, budget)
    requires RecordOf(file, r) && CutFully(file, r, limit, from + budget) && (live ==> LineCommitted(file, r.end, limit))
    ensures CutOk(file, records + [r], from, r.end, limit, live, budget)
  {
    hide Tiles, RecordOf, CutFully, LineCommitted;
    TilesSnoc(file, records, r, from, r.end);
  }

  lemma NoneLeft(file: seq<Byte>, pos: nat, end: nat, limit: nat)
    requires pos < end <= limit <= |file| && NoNewline(file, pos, end - 1) && file[end - 1] != NEWLINE && NoNewline(file, end, limit)
    ensures NoNewline(file, pos, limit)
  {
  }

  /** Whether the line of a cut up to end may be written: a live one only if its newline is within the
      limit. The end of the last line found so is kept, to look only once for each. */
  method Allowed(file: seq<Byte>, pos: nat, end: nat, limit: nat, live: bool, committed: nat) returns (ok: bool, committed': nat)
    requires pos < end <= limit <= |file| && NoNewline(file, pos, end - 1)
    requires committed > 0 ==> committed <= limit && file[committed - 1] == NEWLINE
    ensures committed' > 0 ==> committed' <= limit && file[committed' - 1] == NEWLINE
    ensures ok && live ==> LineCommitted(file, end, limit)
    ensures !ok ==> live && NoNewline(file, pos, limit)
  {
    hide LineCommitted, NoNewline;
    ok, committed' := true, committed;
    var complete := file[end - 1] == NEWLINE;
    if live && !complete && end > committed {
      var found, scan := Probe(file, end, limit);
      if !found {
        NoneLeft(file, pos, end, limit);
        return false, committed;
      }
      committed' := scan;
    }
    if live { CommittedAt(file, end, limit, if complete then end - 1 else committed' - 1); }
  }

  /** Cuts the unpublished bytes of one stream up to a limit, within a byte budget. */
  method CutStream(file: seq<Byte>, from: nat, limit: nat, live: bool, budget: nat)
    returns (records: seq<LogRecord>, pos: nat)
    requires from <= |file| && limit <= |file|
    ensures from <= pos <= |file| && (pos > from ==> pos <= limit) && pos - from <= budget
    ensures Tiles(file, records, from, pos) && AllCutFully(file, records, limit, from + budget)
    ensures live ==> forall i :: 0 <= i < |records| ==> LineCommitted(file, records[i].end, limit)
    ensures pos < limit && pos - from < budget ==> live && NoNewline(file, pos, limit)
  {
    records, pos := [], from;
    CutStart(file, from, limit, live, budget);
    var committed: nat := 0;
    while pos < limit && pos - from < budget
      invariant from <= pos <= |file| && (pos > from ==> pos <= limit) && pos - from <= budget
      invariant CutOk(file, records, from, pos, limit, live, budget)
      invariant committed > 0 ==> committed <= limit && file[committed - 1] == NEWLINE
      decreases limit - pos
    {
      hide CutOk, RecordOf, LineCommitted, CutFully, NoNewline;
      var continuation := pos > 0 && file[pos - 1] != NEWLINE;
      var end := LineEnd(file, pos, pos + Min(FRAGMENT, Min(limit - pos, budget - (pos - from))));
      var ok, seen := Allowed(file, pos, end, limit, live, committed);
      if !ok { break; }
      committed := seen;
      var r := LogRecord(pos, end, file[pos..end], continuation || file[end - 1] != NEWLINE);
      CutIsRecord(file, r);
      CutHere(file, r, limit, from + budget);
      CutMore(file, records, from, r, limit, live, budget);
      records := records + [r];
      pos := end;
    }
  }

  lemma CutHere(file: seq<Byte>, r: LogRecord, limit: nat, stop: nat)
    requires r.start < r.end <= |file|
    requires r.end - r.start < Min(FRAGMENT, Min(limit - r.start, stop - r.start)) ==> file[r.end - 1] == NEWLINE
    requires r.end - r.start <= Min(FRAGMENT, Min(limit - r.start, stop - r.start))
    ensures CutFully(file, r, limit, stop)
  {
  }

  // ----- Parts -----

  function RawBytes(records: seq<LogRecord>): nat
  {
    if records == [] then 0 else RawBytes(records[..|records| - 1]) + |records[|records| - 1].raw|
  }

  /** A part is never empty, holds at most a batch of records, and stays within the byte limit. */
  predicate GoodLogPart(d: Digest, s: Stream)
  {
    d.of.Logs? && d.of.stream == s && 0 < |d.of.pieces| <= BATCH && RawBytes(d.of.pieces) <= PART_BYTES
  }

  ghost predicate GoodLogParts(files: seq<Digest>, s: Stream)
  {
    forall i :: 0 <= i < |files| ==> GoodLogPart(files[i], s)
  }

  /** Whether a part has no place for one more record. */
  predicate FullForPiece(part: seq<LogRecord>, r: LogRecord)
  {
    |part| >= BATCH || RawBytes(part) + |r.raw| > PART_BYTES
  }

  /** A part ends only where the first record of the next has no place in it. */
  ghost predicate LogsPacked(files: seq<Digest>, s: Stream)
    requires GoodLogParts(files, s)
  {
    forall i :: 0 <= i < |files| - 1 ==> FullForPiece(files[i].of.pieces, files[i + 1].of.pieces[0])
  }

  /** Parts of one stream hold nothing else. */
  lemma {:induction false} PartsOfStream(files: seq<Digest>, s: Stream, t: Stream)
    requires GoodLogParts(files, s)
    ensures RecordsOf(files) == [] && EventsOf(files) == [] && (t != s ==> LogsOf(files, t) == [])
  {
    if files != [] {
      PartsOfStream(files[..|files| - 1], s, t);
      assert GoodLogPart(files[|files| - 1], s);
    }
  }

  lemma LogsSnoc(files: seq<Digest>, d: Digest, s: Stream)
    ensures LogsOf(files + [d], s) == LogsOf(files, s) + if d.of.Logs? && d.of.stream == s then d.of.pieces else []
  {
    assert (files + [d])[..|files|] == files;
  }

  lemma RawSnoc(batch: seq<LogRecord>, r: LogRecord)
    ensures RawBytes(batch + [r]) == RawBytes(batch) + |r.raw|
  {
    assert (batch + [r])[..|batch|] == batch;
  }

  /** Parts written so far and the batch being filled hold some records of a stream, in order. */
  ghost predicate Parted(files: seq<Digest>, batch: seq<LogRecord>, records: seq<LogRecord>, s: Stream)
  {
    GoodLogParts(files, s) && LogsPacked(files, s) && LogsOf(files, s) + batch == records &&
    |batch| <= BATCH && RawBytes(batch) <= PART_BYTES &&
    (files != [] && batch != [] ==> FullForPiece(files[|files| - 1].of.pieces, batch[0]))
  }

  lemma PartFlushed(files: seq<Digest>, batch: seq<LogRecord>, records: seq<LogRecord>, s: Stream)
    requires Parted(files, batch, records, s) && batch != []
    ensures Parted(files + [Digest(Logs(s, batch))], [], records, s)
  {
    hide LogsOf;
    var part := Digest(Logs(s, batch));
    LogsSnoc(files, part, s);
    assert GoodLogParts(files + [part], s);
    assert LogsOf(files, s) + batch + [] == LogsOf(files, s) + batch;
  }

  lemma PartFilled(files: seq<Digest>, batch: seq<LogRecord>, records: seq<LogRecord>, r: LogRecord, s: Stream)
    requires Parted(files, batch, records, s) && |batch| < BATCH && RawBytes(batch) + |r.raw| <= PART_BYTES
    requires batch == [] && files != [] ==> files[|files| - 1].of.Logs? && FullForPiece(files[|files| - 1].of.pieces, r)
    ensures Parted(files, batch + [r], records + [r], s)
  {
    RawSnoc(batch, r);
  }

  lemma NoParts(s: Stream)
    ensures Parted([], [], [], s)
  {
  }

  /** Writes the records of one stream in parts. */
  method WriteParts(records: seq<LogRecord>, s: Stream) returns (files: seq<Digest>)
    requires forall i :: 0 <= i < |records| ==> |records[i].raw| <= FRAGMENT
    ensures LogsOf(files, s) == records && GoodLogParts(files, s) && LogsPacked(files, s)
  {
    hide Parted, LogsOf, RawBytes, LogsPacked;
    files := [];
    var batch: seq<LogRecord>, bytes := [], 0;
    NoParts(s);
    NoBytes();
    for i := 0 to |records|
      invariant Parted(files, batch, records[..i], s) && bytes == RawBytes(batch) && |batch| <= BATCH
      invariant batch == [] ==> files == []
    {
      var r := records[i];
      if batch != [] && (|batch| >= BATCH || bytes + |r.raw| > PART_BYTES) {
        PartFlushed(files, batch, records[..i], s);
        files, batch, bytes := files + [Digest(Logs(s, batch))], [], 0;
        NoBytes();
      }
      PartFilled(files, batch, records[..i], r, s);
      RawSnoc(batch, r);
      assert records[..i + 1] == records[..i] + [r];
      batch, bytes := batch + [r], bytes + |r.raw|;
    }
    assert records[..|records|] == records;
    if batch != [] {
      PartFlushed(files, batch, records, s);
      files, batch := files + [Digest(Logs(s, batch))], [];
    }
    PartsDone(files, records, s);
  }

  lemma NoBytes()
    ensures RawBytes([]) == 0
  {
  }

  lemma PartsDone(files: seq<Digest>, records: seq<LogRecord>, s: Stream)
    requires Parted(files, [], records, s)
    ensures LogsOf(files, s) == records && GoodLogParts(files, s) && LogsPacked(files, s)
  {
  }

  // ----- All streams -----

  /** A log file as one scan finds it: its bytes, and for a live attempt's standard error the
      offset up to which the controller has ingested it. */
  datatype Captured = Captured(id: Stream, content: seq<Byte>, live: bool, indexed: nat)

  /** What may be read of a log: of a live attempt's standard error only what the controller has
      ingested, of any other log all there is. */
  predicate MayRead(c: Captured, n: nat)
  {
    n <= |c.content| && (c.id.stderr && c.live ==> n <= c.indexed)
  }

  /** The greatest offset up to which a log may be read. */
  function LimitOf(c: Captured): (limit: nat)
    ensures MayRead(c, limit) && forall n: nat :: MayRead(c, n) ==> n <= limit
  {
    if c.id.stderr && c.live then Min(|c.content|, c.indexed) else |c.content|
  }

  /** How far the cursors of some logs moved, all together. */
  function Progress(logs: seq<Captured>, before: map<Stream, nat>, after: map<Stream, nat>): int
  {
    if logs == [] then 0
    else
      var id := logs[|logs| - 1].id;
      Progress(logs[..|logs| - 1], before, after) + (PositionIn(after, id) - PositionIn(before, id))
  }

  lemma {:induction false} ProgressSame(logs: seq<Captured>, before: map<Stream, nat>, after: map<Stream, nat>, after': map<Stream, nat>)
    requires forall i :: 0 <= i < |logs| ==> PositionIn(after, logs[i].id) == PositionIn(after', logs[i].id)
    ensures Progress(logs, before, after) == Progress(logs, before, after')
  {
    if logs != [] { ProgressSame(logs[..|logs| - 1], before, after, after'); }
  }

  lemma {:induction false} ProgressRest(logs: seq<Captured>, n: nat, before: map<Stream, nat>, after: map<Stream, nat>)
    requires n <= |logs| && forall i :: n <= i < |logs| ==> PositionIn(after, logs[i].id) == PositionIn(before, logs[i].id)
    ensures Progress(logs, before, after) == Progress(logs[..n], before, after)
    decreases |logs|
  {
    if n < |logs| {
      ProgressRest(logs[..|logs| - 1], n, before, after);
      assert logs[..|logs| - 1][..n] == logs[..n];
    } else {
      assert logs[..n] == logs;
    }
  }

  lemma ProgressNone(before: map<Stream, nat>, after: map<Stream, nat>)
    ensures Progress([], before, after) == 0
  {
  }

  lemma ProgressStep(logs: seq<Captured>, i: nat, before: map<Stream, nat>, was: map<Stream, nat>, now: nat)
    requires i < |logs| && forall j, k :: 0 <= j < k < |logs| ==> logs[j].id != logs[k].id
    requires PositionIn(was, logs[i].id) == PositionIn(before, logs[i].id)
    ensures Progress(logs[..i + 1], before, was[logs[i].id := now]) ==
            Progress(logs[..i], before, was) + (now - PositionIn(was, logs[i].id))
  {
    assert logs[..i + 1][..i] == logs[..i];
    ProgressSame(logs[..i], before, was, was[logs[i].id := now]);
  }

  /** Nothing of a log is left to publish, except that a live one may have an unfinished line. */
  ghost predicate CaughtUp(cursor: map<Stream, nat>, c: Captured)
  {
    PositionIn(cursor, c.id) >= LimitOf(c) || (c.live && NoNewline(c.content, PositionIn(cursor, c.id), LimitOf(c)))
  }

  /** Of a live log only lines are cut whose newline lies within the limit. */
  ghost predicate OnlyCommitted(files: seq<Digest>, c: Captured)
  {
    c.live ==> forall i :: 0 <= i < |LogsOf(files, c.id)| ==> LineCommitted(c.content, LogsOf(files, c.id)[i].end, LimitOf(c))
  }

  /** Every whole line between the cursors that a record can hold is one record and no fragment. */
  ghost predicate LinesWhole(files: seq<Digest>, c: Captured, from: nat, to: nat)
  {
    forall a: nat, b: nat :: b <= |c.content| && WholeLine(c.content, a, b) && b - a <= FRAGMENT && from <= a && b <= to ==>
      LogRecord(a, b, c.content[a..b], false) in LogsOf(files, c.id)
  }

  /** The logs found are what is there by the time the generation is committed, or the beginning
      of it. */
  ghost predicate ReadFrom(logs: seq<Captured>, cursor: map<Stream, nat>, all: map<Stream, seq<Byte>>)
  {
    (forall i, j :: 0 <= i < j < |logs| ==> logs[i].id != logs[j].id) &&
    forall i :: 0 <= i < |logs| && PositionIn(cursor, logs[i].id) <= |logs[i].content| ==>
      logs[i].id in all && logs[i].content <= all[logs[i].id]
  }

  /** The cursors are within the logs. */
  ghost predicate Within(cursor: map<Stream, nat>, all: map<Stream, seq<Byte>>)
  {
    forall s :: s in cursor ==> s in all && cursor[s] <= |all[s]|
  }

  /** What a scan has done after the first i logs. */
  ghost predicate ScanOk(logs: seq<Captured>, i: nat, budget: nat, processed: nat, files: seq<Digest>,
                         before: map<Stream, nat>, cursor: map<Stream, nat>, all: map<Stream, seq<Byte>>)
    requires i <= |logs|
  {
    LogsFound(files, before, cursor, all) && OnlyLogs(files) && processed <= budget && processed == Progress(logs[..i], before, cursor) &&
    (processed < budget ==> forall j :: 0 <= j < i ==> CaughtUp(cursor, logs[j])) &&
    (forall j :: 0 <= j < i ==> OnlyCommitted(files, logs[j])) &&
    (forall j :: 0 <= j < i ==> StreamDone(files, logs[j], before, cursor)) &&
    forall j :: i <= j < |logs| ==> Untouched(files, before, cursor, logs[j].id)
  }

  /** A log that a scan has been through: lines are whole, and nothing beyond the limit was read. */
  ghost predicate StreamDone(files: seq<Digest>, c: Captured, before: map<Stream, nat>, cursor: map<Stream, nat>)
  {
    LinesWhole(files, c, PositionIn(before, c.id), PositionIn(cursor, c.id)) &&
    (PositionIn(cursor, c.id) == PositionIn(before, c.id) || PositionIn(cursor, c.id) <= LimitOf(c))
  }

  ghost predicate Untouched(files: seq<Digest>, before: map<Stream, nat>, cursor: map<Stream, nat>, s: Stream)
  {
    PositionIn(cursor, s) == PositionIn(before, s) && LogsOf(files, s) == []
  }

  /** What one stream adds to a scan. */
  ghost predicate StreamCut(c: Captured, from: nat, pos: nat, budget: nat, more: seq<Digest>)
  {
    GoodLogParts(more, c.id) && Tiles(c.content, LogsOf(more, c.id), from, pos) && from <= pos <= |c.content| &&
    pos - from <= budget && OnlyCommitted(more, c) && LinesWhole(more, c, from, pos) && (pos == from || pos <= LimitOf(c)) &&
    (pos - from < budget ==> pos >= LimitOf(c) || (c.live && NoNewline(c.content, pos, LimitOf(c))))
  }

  /** The parts of one more stream extend what was found. */
  lemma FoundMore(files: seq<Digest>, more: seq<Digest>, before: map<Stream, nat>, cursor: map<Stream, nat>, c: Captured,
                  pos: nat, budget: nat, all: map<Stream, seq<Byte>>)
    requires LogsFound(files, before, cursor, all) && Untouched(files, before, cursor, c.id)
    requires StreamCut(c, PositionIn(before, c.id), pos, budget, more) && c.id in all && c.content <= all[c.id]
    ensures LogsFound(files + more, before, cursor[c.id := pos], all)
    ensures LogsOf(files + more, c.id) == LogsOf(more, c.id)
    ensures forall s :: s != c.id ==> LogsOf(files + more, s) == LogsOf(files, s)
  {
    hide LogsOf, Tiles, OnlyCommitted, NoNewline, GoodLogParts;
    LogsConcat(files, more, c.id);
    TilesGrow(c.content, all[c.id], LogsOf(more, c.id), PositionIn(before, c.id), pos);
    assert [] + LogsOf(more, c.id) == LogsOf(more, c.id);
    forall s | s != c.id ensures LogsOf(files + more, s) == LogsOf(files, s) {
      LogsConcat(files, more, s);
      PartsOfStream(more, c.id, s);
      assert LogsOf(files, s) + [] == LogsOf(files, s);
    }
  }

  lemma MoreLogs(files: seq<Digest>, more: seq<Digest>, s: Stream)
    requires OnlyLogs(files) && GoodLogParts(more, s)
    ensures OnlyLogs(files + more)
  {
    hide RecordsOf, EventsOf, GoodLogParts;
    RecordsConcat(files, more);
    EventsConcat(files, more);
    PartsOfStream(more, s, s);
  }

  /** One more stream of a scan. */
  lemma ScanNext(logs: seq<Captured>, i: nat, budget: nat, processed: nat, files: seq<Digest>, more: seq<Digest>,
                 before: map<Stream, nat>, cursor: map<Stream, nat>, pos: nat, all: map<Stream, seq<Byte>>)
    requires i < |logs| && ScanOk(logs, i, budget, processed, files, before, cursor, all) && ReadFrom(logs, before, all)
    requires PositionIn(before, logs[i].id) <= |logs[i].content|
    requires StreamCut(logs[i], PositionIn(before, logs[i].id), pos, budget - processed, more)
    ensures var processed' := processed + (pos - PositionIn(before, logs[i].id));
            ScanOk(logs, i + 1, budget, processed', files + more, before, cursor[logs[i].id := pos], all)
  {
    hide LogsOf, Tiles, NoNewline, LogsFound, Progress, LineCommitted, GoodLogParts, OnlyLogs, WholeLine;
    var c := logs[i];
    FoundMore(files, more, before, cursor, c, pos, budget - processed, all);
    MoreLogs(files, more, c.id);
    ProgressStep(logs, i, before, cursor, pos);
    forall j | 0 <= j <= i
      ensures OnlyCommitted(files + more, logs[j]) && StreamDone(files + more, logs[j], before, cursor[c.id := pos])
    {
      if j < i { assert OnlyCommitted(files, logs[j]) && StreamDone(files, logs[j], before, cursor); }
    }
  }

  lemma LinesKept(file: seq<Byte>, records: seq<LogRecord>, from: nat, pos: nat, limit: nat, stop: nat)
    requires Tiles(file, records, from, pos) && AllCutFully(file, records, limit, stop) && pos <= stop && (pos > from ==> pos <= limit)
    ensures forall a: nat, b: nat :: b <= |file| && WholeLine(file, a, b) && b - a <= FRAGMENT && from <= a && b <= pos ==>
              LogRecord(a, b, file[a..b], false) in records
  {
    hide Tiles, AllCutFully;
    forall a: nat, b: nat | b <= |file| && WholeLine(file, a, b) && b - a <= FRAGMENT && from <= a && b <= pos
      ensures LogRecord(a, b, file[a..b], false) in records
    {
      LineIsRecord(file, records, from, pos, limit, stop, a, b);
    }
  }

  class LogPublisher {
    var cursor: map<Stream, nat>

    constructor ()
      ensures cursor == map[]
    {
      cursor := map[];
    }

    /** One stream: its new records tile from its cursor on, and its cursor moves past them. */
    method PublishStream(c: Captured, budget: nat) returns (files: seq<Digest>)
      requires PositionIn(cursor, c.id) <= |c.content|
      modifies this
      ensures c.id in cursor && cursor == old(cursor)[c.id := cursor[c.id]]
      ensures StreamCut(c, PositionIn(old(cursor), c.id), cursor[c.id], budget, files) && LogsPacked(files, c.id)
    {
      hide Tiles, LineCommitted, NoNewline, LogsOf, GoodLogParts;
      var from := PositionIn(cursor, c.id);
      var records, pos := CutStream(c.content, from, LimitOf(c), c.live, budget);
      PiecesSmall(c.content, records, from, pos);
      files := WriteParts(records, c.id);
      LinesKept(c.content, records, from, pos, LimitOf(c), from + budget);
      cursor := cursor[c.id := pos];
    }

    /** A scan of all logs in order: what it writes takes every stream from its old cursor to its
        new one, exactly as many bytes as it reports, never more than its budget, and it stops
        short only for lack of budget. A log shorter than what was already published refuses the
        whole scan, whose transaction is then rolled back. */
    method PublishLogs(logs: seq<Captured>, budget: nat, ghost all: map<Stream, seq<Byte>>)
      returns (ok: bool, processed: nat, files: seq<Digest>)
      requires ReadFrom(logs, cursor, all) && Within(cursor, all)
      modifies this
      ensures ok ==> LogsFound(files, old(cursor), cursor, all) && OnlyLogs(files)
      ensures ok ==> processed <= budget && processed == Progress(logs, old(cursor), cursor)
      ensures ok && processed < budget ==> forall i :: 0 <= i < |logs| ==> CaughtUp(cursor, logs[i])
      ensures ok ==> forall i :: 0 <= i < |logs| ==> OnlyCommitted(files, logs[i])
      ensures ok ==> forall i :: 0 <= i < |logs| ==>
                LinesWhole(files, logs[i], PositionIn(old(cursor), logs[i].id), PositionIn(cursor, logs[i].id))
      ensures ok ==> forall i :: 0 <= i < |logs| ==>
                PositionIn(cursor, logs[i].id) == PositionIn(old(cursor), logs[i].id) || PositionIn(cursor, logs[i].id) <= LimitOf(logs[i])
      ensures !ok ==> cursor == old(cursor) && files == [] &&
                      exists i :: 0 <= i < |logs| && |logs[i].content| < PositionIn(cursor, logs[i].id)
    {
      hide Tiles, NoNewline, Progress, LogsFound, LogsOf, GoodLogParts;
      ok, processed, files := true, 0, [];
      var saved := cursor;
      ScanStart(logs, budget, cursor, all);
      for i := 0 to |logs|
        invariant ScanOk(logs, i, budget, processed, files, saved, cursor, all)
      {
        var c := logs[i];
        assert Untouched(files, saved, cursor, c.id);
        if |c.content| < PositionIn(cursor, c.id) {
          cursor := saved;
          return false, 0, [];
        }
        ghost var was := cursor;
        var more := PublishStream(c, budget - processed);
        ScanNext(logs, i, budget, processed, files, more, saved, was, cursor[c.id], all);
        processed, files := processed + (cursor[c.id] - PositionIn(saved, c.id)), files + more;
        if processed >= budget {
          ScanStops(logs, i + 1, budget, processed, files, saved, cursor, all);
          assert logs[..|logs|] == logs;
          return;
        }
      }
      assert logs[..|logs|] == logs;
    }
  }

  lemma PiecesSmall(file: seq<Byte>, records: seq<LogRecord>, from: nat, to: nat)
    requires Tiles(file, records, from, to)
    ensures forall i :: 0 <= i < |records| ==> |records[i].raw| <= FRAGMENT
    decreases |records|
  {
    if records != [] {
      PiecesSmall(file, records[..|records| - 1], from, records[|records| - 1].start);
    }
  }

  lemma ScanStart(logs: seq<Captured>, budget: nat, cursor: map<Stream, nat>, all: map<Stream, seq<Byte>>)
    requires Within(cursor, all)
    ensures ScanOk(logs, 0, budget, 0, [], cursor, cursor, all)
  {
    ProgressNone(cursor, cursor);
    assert logs[..0] == [];
  }

  /** A scan that has used up its budget leaves the other logs for the next generation. */
  lemma ScanStops(logs: seq<Captured>, i: nat, budget: nat, processed: nat, files: seq<Digest>,
                  before: map<Stream, nat>, cursor: map<Stream, nat>, all: map<Stream, seq<Byte>>)
    requires i <= |logs| && ScanOk(logs, i, budget, processed, files, before, cursor, all) && processed >= budget
    ensures ScanOk(logs, |logs|, budget, processed, files, before, cursor, all)
  {
    hide LogsFound, LogsOf, LineCommitted;
    ProgressRest(logs, i, before, cursor);
    assert logs[..|logs|] == logs;
    forall j | 0 <= j < |logs| ensures OnlyCommitted(files, logs[j]) {
      if j >= i { assert Untouched(files, before, cursor, logs[j].id); }
    }
  }
}
