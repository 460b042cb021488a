/** Records of captured logs, and what it means that they cover a stretch of a log. */
module PublisherRecords {
  type Byte = b: int | 0 <= b < 256

  const NEWLINE: Byte := 10
  const FRAGMENT: nat := 1024 * 1024

  datatype LogRecord = LogRecord(start: nat, end: nat, raw: seq<Byte>, fragment: bool)

  predicate NoNewline(file: seq<Byte>, from: nat, to: int)
  {
    forall i :: from <= i < to && i < |file| ==> file[i] != NEWLINE
  }

  /** One whole line of the file, its newline included. */
  predicate WholeLine(file: seq<Byte>, start: nat, end: nat)
    requires end <= |file|
  {
    start < end && (start == 0 || file[start - 1] == NEWLINE) && file[end - 1] == NEWLINE &&
    NoNewline(file, start, end - 1)
  }

  /** A record of the file: its bytes, at most one line of them, marked a fragment exactly when
      it is not one whole line. */
  predicate RecordOf(file: seq<Byte>, r: LogRecord)
  {
    r.start < r.end <= |file| && r.raw == file[r.start..r.end] && |r.raw| <= FRAGMENT &&
    NoNewline(file, r.start, r.end - 1) && (r.fragment <==> !WholeLine(file, r.start, r.end))
  }

  /** Records that cover a stretch of the file end to end. */
  predicate Tiles(file: seq<Byte>, records: seq<LogRecord>, from: nat, to: nat)
  {
    if records == [] then from == to
    else
      var last := records[|records| - 1];
      last.end == to && RecordOf(file, last) && Tiles(file, records[..|records| - 1], from, last.start)
  }

  function Raw(records: seq<LogRecord>): seq<Byte>
  {
    if records == [] then [] else Raw(records[..|records| - 1]) + records[|records| - 1].raw
  }

  /** Tiling records join up to exactly the stretch they cover. */
  lemma {:induction false} TilesRaw(file: seq<Byte>, records: seq<LogRecord>, from: nat, to: nat)
    requires Tiles(file, records, from, to) && to <= |file|
    ensures from <= to && Raw(records) == file[from..to]
  {
    if records != [] {
      var last := records[|records| - 1];
      TilesRaw(file, records[..|records| - 1], from, last.start);
      assert file[from..last.start] + file[last.start..to] == file[from..to];
    }
  }

  lemma {:induction false} TilesConcat(file: seq<Byte>, a: seq<LogRecord>, b: seq<LogRecord>, from: nat, mid: nat, to: nat)
    requires Tiles(file, a, from, mid) && Tiles(file, b, mid, to)
    ensures Tiles(file, a + b, from, to)
  {
    if b == [] {
      assert a + b == a;
    } else {
      var rest, last := b[..|b| - 1], b[|b| - 1];
      TilesConcat(file, a, rest, from, mid, last.start);
      assert (a + b)[..|a + b| - 1] == a + rest;
    }
  }

  lemma TilesSnoc(file: seq<Byte>, a: seq<LogRecord>, r: LogRecord, from: nat, to: nat)
    requires Tiles(file, a, from, r.start) && RecordOf(file, r) && r.end == to
    ensures Tiles(file, a + [r], from, to)
  {
    assert (a + [r])[..|a|] == a;
  }

  /** Appending to the file changes no record already cut from it. */
  lemma {:induction false} TilesGrow(file: seq<Byte>, more: seq<Byte>, records: seq<LogRecord>, from: nat, to: nat)
    requires Tiles(file, records, from, to) && to <= |file| && to <= |more| && more[..to] == file[..to]
    ensures Tiles(more, records, from, to)
  {
    if records != [] {
      var last := records[|records| - 1];
      forall i | 0 <= i < to ensures more[i] == file[i] { assert more[..to][i] == file[..to][i]; }
      assert more[last.start..last.end] == file[last.start..last.end];
      TilesGrow(file, more, records[..|records| - 1], from, last.start);
    }
  }

  lemma NothingCut(file: seq<Byte>, from: nat)
    ensures Tiles(file, [], from, from)
  {
  }

  /** Records that cover a stretch in two runs cover one part of it with each. */
  lemma {:induction false} TilesSplit(file: seq<Byte>, a: seq<LogRecord>, b: seq<LogRecord>, from: nat, to: nat) returns (mid: nat)
    requires Tiles(file, a + b, from, to)
    ensures Tiles(file, a, from, mid) && Tiles(file, b, mid, to)
    decreases |b|
  {
    if b == [] {
      assert a + b == a;
      mid := to;
    } else {
      var last := b[|b| - 1];
      assert (a + b)[..|a + b| - 1] == a + b[..|b| - 1] && (a + b)[|a + b| - 1] == last;
      mid := TilesSplit(file, a, b[..|b| - 1], from, last.start);
    }
  }

  /** A stretch does not end before it starts, nor beyond the log. */
  lemma {:induction false} TilesBounds(file: seq<Byte>, records: seq<LogRecord>, from: nat, to: nat)
    requires Tiles(file, records, from, to)
    ensures from <= to && (from <= |file| ==> to <= |file|)
  {
    if records != [] {
      TilesBounds(file, records[..|records| - 1], from, records[|records| - 1].start);
    }
  }

  // ----- Streams -----

  datatype Stream = Stream(attempt: nat, stderr: bool)

  function PositionIn(cursor: map<Stream, nat>, s: Stream): nat
  {
    if s in cursor then cursor[s] else 0
  }

  /** Logs are only appended to. */
  ghost predicate LogsGrow(logs: map<Stream, seq<Byte>>, more: map<Stream, seq<Byte>>)
  {
    forall s :: s in logs ==> s in more && logs[s] <= more[s]
  }
}
