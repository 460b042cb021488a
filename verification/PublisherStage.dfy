/** The parts of one scan put together: what is written of the tables, the events and the logs is
    what the staging step commits. */
module PublisherStage {
  import opened Wrappers
  import opened PublisherRecords
  import opened PublisherData
  import opened PublisherProtocol
  import opened PublisherScan
  import opened PublisherLogs

  // ----- Events -----

  function FlattenEvents(parts: seq<seq<Event>>): seq<Event>
  {
    if parts == [] then [] else FlattenEvents(parts[..|parts| - 1]) + parts[|parts| - 1]
  }

  function EventBytes(part: seq<Event>): nat
  {
    if part == [] then 0 else EventBytes(part[..|part| - 1]) + Size(part[|part| - 1].payload)
  }

  predicate GoodEventPart(part: seq<Event>)
  {
    0 < |part| <= BATCH && (EventBytes(part) <= PART_BYTES || |part| == 1)
  }

  /** Whether a part has no place for one more event. */
  predicate FullForEvent(part: seq<Event>, e: Event)
  {
    |part| >= BATCH || EventBytes(part) + Size(e.payload) > PART_BYTES
  }

  /** A part ends only where the first event of the next has no place in it. */
  predicate EventsPacked(parts: seq<seq<Event>>)
  {
    forall i :: 0 <= i < |parts| - 1 && parts[i + 1] != [] ==> FullForEvent(parts[i], parts[i + 1][0])
  }

  ghost predicate EventsBatched(parts: seq<seq<Event>>, batch: seq<Event>, events: seq<Event>)
  {
    FlattenEvents(parts) + batch == events && (forall i :: 0 <= i < |parts| ==> GoodEventPart(parts[i])) &&
    (batch == [] || GoodEventPart(batch)) && EventsPacked(parts) && (batch == [] ==> parts == []) &&
    (parts != [] && batch != [] ==> FullForEvent(parts[|parts| - 1], batch[0]))
  }

  lemma EventsFlushed(parts: seq<seq<Event>>, batch: seq<Event>, events: seq<Event>)
    requires EventsBatched(parts, batch, events) && batch != []
    ensures EventsWritten(parts + [batch], events)
  {
    assert (parts + [batch])[..|parts|] == parts;
  }

  /** Parts that hold some events, in order. */
  ghost predicate EventsWritten(parts: seq<seq<Event>>, events: seq<Event>)
  {
    FlattenEvents(parts) == events && EventsPacked(parts) && forall i :: 0 <= i < |parts| ==> GoodEventPart(parts[i])
  }

  lemma EventsFilled(parts: seq<seq<Event>>, batch: seq<Event>, events: seq<Event>, e: Event)
    requires EventsBatched(parts, batch, events) && (batch == [] || !FullForEvent(batch, e))
    ensures EventsBatched(parts, batch + [e], events + [e]) && EventBytes(batch + [e]) == EventBytes(batch) + Size(e.payload)
  {
    assert (batch + [e])[..|batch|] == batch;
  }

  /** The first event of a new batch, after a part that had no place for it. */
  lemma EventsBegun(parts: seq<seq<Event>>, events: seq<Event>, e: Event)
    requires EventsWritten(parts, events) && (parts != [] ==> FullForEvent(parts[|parts| - 1], e))
    ensures EventsBatched(parts, [e], events + [e]) && EventBytes([e]) == Size(e.payload)
  {
    assert [e][..0] == [];
  }

  lemma NoEvents()
    ensures EventsBatched([], [], []) && EventBytes([]) == 0
  {
  }

  /** One more event in the batch, which is written first if it is full. */
  method AddEvent(parts: seq<seq<Event>>, batch: seq<Event>, bytes: nat, e: Event, ghost events: seq<Event>)
    returns (parts': seq<seq<Event>>, batch': seq<Event>, bytes': nat)
    requires EventsBatched(parts, batch, events) && bytes == EventBytes(batch)
    ensures EventsBatched(parts', batch', events + [e]) && bytes' == EventBytes(batch')
  {
    hide EventsBatched, EventsWritten, EventBytes;
    parts', batch', bytes' := parts, batch, bytes;
    if batch != [] && (|batch| >= BATCH || bytes + Size(e.payload) > PART_BYTES) {
      EventsFlushed(parts, batch, events);
      EventsBegun(parts + [batch], events, e);
      return parts + [batch], [e], Size(e.payload);
    }
    EventsFilled(parts, batch, events, e);
    batch', bytes' := batch + [e], bytes + Size(e.payload);
  }

  /** The events table is append-only: what follows the last sequence number staged is written in
      parts, and the highest number seen is noted. A table that ends before that number is
      refused. */
  method ScanEvents(events: seq<Event>, last: nat) returns (ok: bool, parts: seq<seq<Event>>, last': nat)
    requires Increasing(events)
    ensures ok <==> LastSeq(events) >= last
    ensures ok ==> EventsWritten(parts, Since(events, last))
    ensures ok ==> last' == if Since(events, last) == [] then last else LastSeq(events)
    ensures !ok ==> parts == [] && last' == last
  {
    hide EventsBatched, EventsWritten, EventBytes;
    parts, last' := [], last;
    if LastSeq(events) < last { return false, [], last; }
    var found := Since(events, last);
    SinceEnds(events, last);
    var batch: seq<Event>, bytes, top := [], 0, 0;
    NoEvents();
    for i := 0 to |found|
      invariant EventsBatched(parts, batch, found[..i]) && bytes == EventBytes(batch)
      invariant top == LastSeq(found[..i])
    {
      var e := found[i];
      assert found[..i + 1] == found[..i] + [e];
      parts, batch, bytes := AddEvent(parts, batch, bytes, e, found[..i]);
      if i > 0 { assert found[i - 1].seqno < e.seqno; }
      top := if top < e.seqno then e.seqno else top;
    }
    assert found[..|found|] == found;
    EventsDone(parts, batch, found);
    if batch != [] {
      EventsFlushed(parts, batch, found);
      parts := parts + [batch];
    }
    ok := true;
    if top > 0 { last' := top; }
  }

  lemma EventsDone(parts: seq<seq<Event>>, batch: seq<Event>, events: seq<Event>)
    requires EventsBatched(parts, batch, events)
    ensures batch == [] ==> EventsWritten(parts, events)
  {
    assert FlattenEvents([]) + [] == [];
  }

  /** What follows a sequence number ends where the table ends. */
  lemma {:induction false} SinceEnds(events: seq<Event>, last: nat)
    requires Increasing(events)
    ensures Increasing(Since(events, last)) && (Since(events, last) != [] ==> LastSeq(Since(events, last)) == LastSeq(events))
    ensures forall e :: e in Since(events, last) ==> e in events
  {
    if events != [] {
      IncreasingPrefix(events);
      var rest, e := events[..|events| - 1], events[|events| - 1];
      SinceEnds(rest, last);
      if e.seqno <= last {
        if rest != [] { assert LastSeq(rest) < e.seqno; }
        SinceNothing(rest, last);
      } else {
        forall x | x in Since(rest, last) ensures x.seqno < e.seqno {
          var i :| 0 <= i < |rest| && rest[i] == x;
          assert events[i].seqno < events[|events| - 1].seqno;
        }
      }
    }
  }

  // ----- All together -----

  function RowFiles(parts: seq<seq<Record>>): seq<Digest>
  {
    if parts == [] then [] else RowFiles(parts[..|parts| - 1]) + [Digest(Rows(parts[|parts| - 1]))]
  }

  function EventFiles(parts: seq<seq<Event>>): seq<Digest>
  {
    if parts == [] then [] else EventFiles(parts[..|parts| - 1]) + [Digest(Events(parts[|parts| - 1]))]
  }

  lemma {:induction false} RowFilesHold(parts: seq<seq<Record>>, s: Stream)
    ensures RecordsOf(RowFiles(parts)) == Flatten(parts) && EventsOf(RowFiles(parts)) == [] && LogsOf(RowFiles(parts), s) == []
  {
    if parts != [] {
      var files, d := RowFiles(parts[..|parts| - 1]), Digest(Rows(parts[|parts| - 1]));
      RowFilesHold(parts[..|parts| - 1], s);
      assert (files + [d])[..|files|] == files;
    }
  }

  lemma {:induction false} EventFilesHold(parts: seq<seq<Event>>, s: Stream)
    ensures RecordsOf(EventFiles(parts)) == [] && EventsOf(EventFiles(parts)) == FlattenEvents(parts) && LogsOf(EventFiles(parts), s) == []
  {
    if parts != [] {
      var files, d := EventFiles(parts[..|parts| - 1]), Digest(Events(parts[|parts| - 1]));
      EventFilesHold(parts[..|parts| - 1], s);
      assert (files + [d])[..|files|] == files;
    }
  }

  /** The files of a scan, in the order in which they are written, are what the protocol's staging
      step commits: the delta, the new events, and the logs up to the new cursors. */
  lemma ScanStages(rowParts: seq<seq<Record>>, eventParts: seq<seq<Event>>, logFiles: seq<Digest>, l: Local, snap: Source,
                   cursor: map<Stream, nat>, logs: map<Stream, seq<Byte>>)
    requires CarriesDelta(Flatten(rowParts), l.revision + 1, l.index, snap.rows)
    requires FlattenEvents(eventParts) == Since(snap.events, l.eventsSeq)
    requires LogsFound(logFiles, l.cursor, cursor, logs) && OnlyLogs(logFiles)
    ensures ScanFinds(RowFiles(rowParts) + EventFiles(eventParts) + logFiles, l, snap, cursor, logs)
  {
    hide RowFiles, EventFiles, RecordsOf, EventsOf, LogsOf, CarriesDelta, Since, Tiles, Flatten, FlattenEvents;
    var rows, events := RowFiles(rowParts), EventFiles(eventParts);
    RecordsConcat(rows, events);
    RecordsConcat(rows + events, logFiles);
    EventsConcat(rows, events);
    EventsConcat(rows + events, logFiles);
    assert Flatten(rowParts) + [] + [] == Flatten(rowParts);
    assert [] + FlattenEvents(eventParts) + [] == FlattenEvents(eventParts);
    forall s ensures LogsOf(rows + events + logFiles, s) == LogsOf(logFiles, s) {
      LogsConcat(rows, events, s);
      LogsConcat(rows + events, logFiles, s);
      RowFilesHold(rowParts, s);
      EventFilesHold(eventParts, s);
      assert [] + [] + LogsOf(logFiles, s) == LogsOf(logFiles, s);
    }
    RowFilesHold(rowParts, Stream(0, false));
    EventFilesHold(eventParts, Stream(0, false));
  }
}
