/** What a generation carries and what replaying generations rebuilds. */
module PublisherData {
  import opened Wrappers
  import opened Sequences
  import opened PublisherRecords

  /** A part holds no more records than this, and no more bytes unless it is a single record. */
  const BATCH: nat := 4096
  const PART_BYTES: nat := 8 * 1024 * 1024

  /** A source table's name and the encoded primary key of a row. */
  datatype Key = Key(table: nat, id: nat)
  type Row = seq<int>

  /** The digest of an encoded row. Digests are taken to be injective. */
  datatype RowHash = RowHash(of: Row)

  /** An entry of the append-only event table. */
  datatype Event = Event(seqno: nat, payload: Row)

  /** The source: the database as one read transaction sees it, and all bytes ever captured of
      each log. */
  datatype Source = Source(rows: map<Key, Row>, events: seq<Event>, logs: map<Stream, seq<Byte>>)

  /** A row of a published object: an observation of a key at a revision, or its deletion. */
  datatype Record = Record(key: Key, rev: nat, row: Option<Row>)

  /** The content of one published object. */
  datatype Part = Rows(records: seq<Record>) | Events(events: seq<Event>) | Logs(stream: Stream, pieces: seq<LogRecord>)

  /** The digest that names an object. Digests are taken to be injective. */
  datatype Digest = Digest(of: Part)

  // ----- Event sequences -----

  predicate Increasing(events: seq<Event>)
  {
    (forall i :: 0 <= i < |events| ==> events[i].seqno > 0) &&
    forall i, j :: 0 <= i < j < |events| ==> events[i].seqno < events[j].seqno
  }

  function LastSeq(events: seq<Event>): nat
  {
    if events == [] then 0 else events[|events| - 1].seqno
  }

  /** The events after a sequence number, in order. */
  function Since(events: seq<Event>, last: nat): seq<Event>
  {
    if events == [] then []
    else
      Since(events[..|events| - 1], last) +
      (if events[|events| - 1].seqno > last then [events[|events| - 1]] else [])
  }

  lemma {:induction false} SinceNothing(events: seq<Event>, last: nat)
    requires Increasing(events) && LastSeq(events) <= last
    ensures Since(events, last) == []
  {
    if events != [] {
      var rest := events[..|events| - 1];
      if rest != [] { assert events[|rest| - 1].seqno < events[|events| - 1].seqno; }
      SinceNothing(rest, last);
    }
  }

  /** Resuming after the events already seen yields exactly the rest. */
  lemma {:induction false} SinceResumes(seen: seq<Event>, events: seq<Event>)
    requires Increasing(events) && seen <= events
    ensures seen + Since(events, LastSeq(seen)) == events
    decreases |events|
  {
    if seen == events {
      SinceNothing(events, LastSeq(seen));
    } else {
      var rest, e := events[..|events| - 1], events[|events| - 1];
      var last := LastSeq(seen);
      IncreasingPrefix(events);
      SinceResumes(seen, rest);
      if seen != [] { assert events[|seen| - 1].seqno < e.seqno; }
      assert e.seqno > last;
      calc {
        seen + Since(events, last);
        seen + (Since(rest, last) + [e]);
        seen + Since(rest, last) + [e];
        events;
      }
    }
  }

  lemma IncreasingPrefix(events: seq<Event>)
    requires Increasing(events) && events != []
    ensures Increasing(events[..|events| - 1])
  {
  }

  // ----- Replaying -----

  function Put(m: map<Key, Row>, r: Record): map<Key, Row>
  {
    if r.row.Some? then m[r.key := r.row.value] else m - {r.key}
  }

  /** The table that applying records in order leaves. */
  function Replay(m: map<Key, Row>, records: seq<Record>): map<Key, Row>
  {
    if records == [] then m else Put(Replay(m, records[..|records| - 1]), records[|records| - 1])
  }

  lemma {:induction false} ReplayConcat(m: map<Key, Row>, a: seq<Record>, b: seq<Record>)
    ensures Replay(m, a + b) == Replay(Replay(m, a), b)
  {
    if b == [] {
      assert a + b == a;
    } else {
      assert (a + b)[..|a + b| - 1] == a + b[..|b| - 1];
      ReplayConcat(m, a, b[..|b| - 1]);
    }
  }

  predicate Mentions(records: seq<Record>, k: Key)
  {
    exists i :: 0 <= i < |records| && records[i].key == k
  }

  predicate DistinctKeys(records: seq<Record>)
  {
    forall i, j :: 0 <= i < j < |records| ==> records[i].key != records[j].key
  }

  /** A key no record mentions keeps what it held. */
  lemma {:induction false} ReplayElsewhere(m: map<Key, Row>, records: seq<Record>, k: Key)
    requires !Mentions(records, k)
    ensures (k in Replay(m, records) <==> k in m) && (k in m ==> Replay(m, records)[k] == m[k])
  {
    if records != [] {
      var rest := records[..|records| - 1];
      assert records[|records| - 1].key != k;
      assert !Mentions(rest, k) by {
        forall i | 0 <= i < |rest| ensures rest[i].key != k { assert records[i].key != k; }
      }
      ReplayElsewhere(m, rest, k);
    }
  }

  /** A key holds what the last record that mentions it says. */
  lemma {:induction false} ReplayLast(m: map<Key, Row>, records: seq<Record>, i: nat)
    requires i < |records| && forall j :: i < j < |records| ==> records[j].key != records[i].key
    ensures var k, after := records[i].key, Replay(m, records);
            (k in after <==> records[i].row.Some?) && (records[i].row.Some? ==> after[k] == records[i].row.value)
  {
    if i < |records| - 1 {
      assert records[|records| - 1].key != records[i].key;
      ReplayLast(m, records[..|records| - 1], i);
    }
  }

  // ----- Deltas -----

  /** The rows a checkpoint's index stands for. */
  predicate Indexes(index: map<Key, RowHash>, rows: map<Key, Row>)
  {
    index.Keys == rows.Keys && forall k :: k in rows ==> index[k] == RowHash(rows[k])
  }

  /** Whether a key is observed to differ from the index: new, changed or gone. */
  predicate Differs(index: map<Key, RowHash>, rows: map<Key, Row>, k: Key)
  {
    if k in rows then k !in index || index[k] != RowHash(rows[k]) else k in index
  }

  /** The changes a scan of rows against an index stages. */
  function ChangesOf(index: map<Key, RowHash>, rows: map<Key, Row>): map<Key, Option<RowHash>>
  {
    map k | k in index.Keys + rows.Keys && Differs(index, rows, k) ::
      if k in rows then Some(RowHash(rows[k])) else None
  }

  /** The index after staged changes are applied. */
  function Applied(index: map<Key, RowHash>, changes: map<Key, Option<RowHash>>): map<Key, RowHash>
  {
    map k | k in index.Keys + changes.Keys && (k in changes ==> changes[k].Some?) ::
      if k in changes then changes[k].value else index[k]
  }

  /** Applying what a scan found makes the index stand for the scanned rows. */
  lemma AppliedIndexes(index: map<Key, RowHash>, rows: map<Key, Row>)
    ensures Indexes(Applied(index, ChangesOf(index, rows)), rows)
  {
  }

  /** Records that carry the difference between an index and scanned rows: one record at the
      given revision for each key that differs, holding the new row or marking the deletion. */
  ghost predicate CarriesDelta(records: seq<Record>, rev: nat, index: map<Key, RowHash>, rows: map<Key, Row>)
  {
    DistinctKeys(records) &&
    (forall i :: 0 <= i < |records| ==>
       records[i].rev == rev && Differs(index, rows, records[i].key) &&
       records[i].row == if records[i].key in rows then Some(rows[records[i].key]) else None) &&
    forall k :: Differs(index, rows, k) ==> Mentions(records, k)
  }

  /** Replaying a delta over the rows the index stands for yields the scanned rows. */
  lemma ReplayDelta(before: map<Key, Row>, records: seq<Record>, rev: nat, index: map<Key, RowHash>, rows: map<Key, Row>)
    requires Indexes(index, before) && CarriesDelta(records, rev, index, rows)
    ensures Replay(before, records) == rows
  {
    var after := Replay(before, records);
    forall k ensures (k in after <==> k in rows) && (k in rows ==> after[k] == rows[k]) {
      if Mentions(records, k) {
        var i :| 0 <= i < |records| && records[i].key == k;
        ReplayLast(before, records, i);
      } else {
        ReplayElsewhere(before, records, k);
      }
    }
    assert after.Keys == rows.Keys;
  }

  // ----- Objects -----

  function RecordsOf(files: seq<Digest>): seq<Record>
  {
    if files == [] then []
    else
      RecordsOf(files[..|files| - 1]) +
      (if files[|files| - 1].of.Rows? then files[|files| - 1].of.records else [])
  }

  function EventsOf(files: seq<Digest>): seq<Event>
  {
    if files == [] then []
    else
      EventsOf(files[..|files| - 1]) +
      (if files[|files| - 1].of.Events? then files[|files| - 1].of.events else [])
  }

  /** The records of one log stream among the objects of a generation. */
  function LogsOf(files: seq<Digest>, s: Stream): seq<LogRecord>
  {
    if files == [] then []
    else
      var part := files[|files| - 1].of;
      LogsOf(files[..|files| - 1], s) + (if part.Logs? && part.stream == s then part.pieces else [])
  }

  lemma LogsSnoc(files: seq<Digest>, f: Digest, s: Stream)
    ensures LogsOf(files + [f], s) == LogsOf(files, s) + if f.of.Logs? && f.of.stream == s then f.of.pieces else []
  {
    assert (files + [f])[..|files|] == files;
  }

  lemma {:induction false} LogsConcat(a: seq<Digest>, b: seq<Digest>, s: Stream)
    ensures LogsOf(a + b, s) == LogsOf(a, s) + LogsOf(b, s)
    decreases |b|
  {
    if b == [] {
      assert a + b == a;
    } else {
      hide LogsOf;
      var rest, f := b[..|b| - 1], b[|b| - 1];
      LogsConcat(a, rest, s);
      Snoc(a, b);
      LogsSnoc(a + rest, f, s);
      LogsSnoc(rest, f, s);
      Associates(LogsOf(a, s), LogsOf(rest, s), if f.of.Logs? && f.of.stream == s then f.of.pieces else []);
    }
  }

  lemma RecordsSnoc(files: seq<Digest>, f: Digest)
    ensures RecordsOf(files + [f]) == RecordsOf(files) + if f.of.Rows? then f.of.records else []
  {
    assert (files + [f])[..|files|] == files;
  }

  lemma {:induction false} RecordsConcat(a: seq<Digest>, b: seq<Digest>)
    ensures RecordsOf(a + b) == RecordsOf(a) + RecordsOf(b)
    decreases |b|
  {
    if b == [] {
      assert a + b == a;
    } else {
      hide RecordsOf;
      var rest, f := b[..|b| - 1], b[|b| - 1];
      RecordsConcat(a, rest);
      Snoc(a, b);
      RecordsSnoc(a + rest, f);
      RecordsSnoc(rest, f);
      Associates(RecordsOf(a), RecordsOf(rest), if f.of.Rows? then f.of.records else []);
    }
  }

  lemma EventsSnoc(files: seq<Digest>, f: Digest)
    ensures EventsOf(files + [f]) == EventsOf(files) + if f.of.Events? then f.of.events else []
  {
    assert (files + [f])[..|files|] == files;
  }

  lemma {:induction false} EventsConcat(a: seq<Digest>, b: seq<Digest>)
    ensures EventsOf(a + b) == EventsOf(a) + EventsOf(b)
    decreases |b|
  {
    if b == [] {
      assert a + b == a;
    } else {
      hide EventsOf;
      var rest, f := b[..|b| - 1], b[|b| - 1];
      EventsConcat(a, rest);
      Snoc(a, b);
      EventsSnoc(a + rest, f);
      EventsSnoc(rest, f);
      Associates(EventsOf(a), EventsOf(rest), if f.of.Events? then f.of.events else []);
    }
  }

  /** Log parts hold no rows and no events. */
  ghost predicate OnlyLogs(files: seq<Digest>)
  {
    RecordsOf(files) == [] && EventsOf(files) == []
  }

  /** Objects that take every stream from one cursor to the next: their records tile exactly the
      bytes between, and there are none of streams without a cursor. */
  ghost predicate LogsFound(files: seq<Digest>, before: map<Stream, nat>, after: map<Stream, nat>, logs: map<Stream, seq<Byte>>)
  {
    before.Keys <= after.Keys <= logs.Keys &&
    (forall s :: s in after ==> after[s] <= |logs[s]| && Tiles(logs[s], LogsOf(files, s), PositionIn(before, s), after[s])) &&
    forall s :: s !in after ==> LogsOf(files, s) == []
  }
}
