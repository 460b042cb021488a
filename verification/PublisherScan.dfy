/** The scan that turns a source snapshot into parts, and the checkpoint tables it updates in
    place. What it stages is what the protocol's staging step publishes. */
module PublisherScan {
  import opened Wrappers
  import opened Sequences
  import opened PublisherData

  /** The encoded size of a row. */
  function Size(row: Row): nat
  {
    |row|
  }

  datatype SourceRow = SourceRow(key: Key, row: Row)

  /** Rows of one table, each primary key once, agreeing with a snapshot. */
  ghost predicate CursorOf(cursor: seq<SourceRow>, t: nat, rows: map<Key, Row>)
  {
    (forall i, j :: 0 <= i < j < |cursor| ==> cursor[i].key != cursor[j].key) &&
    (forall i :: 0 <= i < |cursor| ==>
       cursor[i].key.table == t && cursor[i].key in rows && rows[cursor[i].key] == cursor[i].row) &&
    forall k :: k in rows && k.table == t ==> InCursor(cursor, k)
  }

  predicate InCursor(cursor: seq<SourceRow>, k: Key)
  {
    exists i :: 0 <= i < |cursor| && cursor[i].key == k
  }

  /** Records of the rows a scan finds new or changed, in the cursor's order. */
  function Changed(index: map<Key, RowHash>, cursor: seq<SourceRow>, rev: nat): seq<Record>
  {
    if cursor == [] then []
    else
      var c := cursor[|cursor| - 1];
      Changed(index, cursor[..|cursor| - 1], rev) +
      (if c.key in index && index[c.key] == RowHash(c.row) then [] else [Record(c.key, rev, Some(c.row))])
  }

  function Flatten(parts: seq<seq<Record>>): seq<Record>
  {
    if parts == [] then [] else Flatten(parts[..|parts| - 1]) + parts[|parts| - 1]
  }

  function Bytes(part: seq<Record>): nat
  {
    if part == [] then 0
    else
      Bytes(part[..|part| - 1]) +
      (if part[|part| - 1].row.Some? then Size(part[|part| - 1].row.value) else 0)
  }

  /** A part is never empty, holds at most a batch of rows, and stays within the byte limit
      unless it is a single row. */
  predicate GoodPart(part: seq<Record>)
  {
    0 < |part| <= BATCH && (Bytes(part) <= PART_BYTES || |part| == 1)
  }

  /** Whether a part has no place for one more record. */
  predicate FullFor(part: seq<Record>, r: Record)
  {
    |part| >= BATCH || Bytes(part + [r]) > PART_BYTES
  }

  /** A part ends only where the first record of the next has no place in it. */
  predicate Packed(parts: seq<seq<Record>>)
  {
    forall i :: 0 <= i < |parts| - 1 && parts[i + 1] != [] ==> FullFor(parts[i], parts[i + 1][0])
  }

  /** Records that carry the difference for the keys of some tables. */
  ghost predicate CarriesFor(records: seq<Record>, rev: nat, index: map<Key, RowHash>, rows: map<Key, Row>, tables: set<nat>)
  {
    DistinctKeys(records) &&
    (forall i :: 0 <= i < |records| ==>
       records[i].rev == rev && records[i].key.table in tables && Differs(index, rows, records[i].key) &&
       records[i].row == if records[i].key in rows then Some(rows[records[i].key]) else None) &&
    forall k :: Differs(index, rows, k) && k.table in tables ==> Mentions(records, k)
  }

  /** What the staged changes hold once some tables are scanned. */
  ghost predicate StagedFor(changes: map<Key, Option<RowHash>>, index: map<Key, RowHash>, rows: map<Key, Row>, tables: set<nat>)
  {
    (forall k :: k in changes <==> k.table in tables && Differs(index, rows, k)) &&
    forall k :: k in changes ==> changes[k] == if k in rows then Some(RowHash(rows[k])) else None
  }

  // ----- Facts about the scan -----

  lemma FlattenSnoc(parts: seq<seq<Record>>, part: seq<Record>)
    ensures Flatten(parts + [part]) == Flatten(parts) + part
  {
    assert (parts + [part])[..|parts|] == parts;
  }

  lemma {:induction false} FlattenConcat(a: seq<seq<Record>>, b: seq<seq<Record>>)
    ensures Flatten(a + b) == Flatten(a) + Flatten(b)
  {
    if b == [] {
      assert a + b == a;
    } else {
      hide Flatten;
      var rest, last := b[..|b| - 1], b[|b| - 1];
      FlattenConcat(a, rest);
      Snoc(a, b);
      FlattenSnoc(a + rest, last);
      FlattenSnoc(rest, last);
      Associates(Flatten(a), Flatten(rest), last);
    }
  }

  lemma BytesSnoc(part: seq<Record>, r: Record)
    ensures Bytes(part + [r]) == Bytes(part) + if r.row.Some? then Size(r.row.value) else 0
  {
    assert (part + [r])[..|part|] == part;
  }

  predicate IsChange(index: map<Key, RowHash>, c: SourceRow)
  {
    c.key !in index || index[c.key] != RowHash(c.row)
  }

  /** A record of a changed row under a cursor. */
  predicate ChangedFrom(index: map<Key, RowHash>, cursor: seq<SourceRow>, r: Record)
  {
    exists j :: 0 <= j < |cursor| && r.key == cursor[j].key && r.row == Some(cursor[j].row) && IsChange(index, cursor[j])
  }

  lemma ChangedSnoc(index: map<Key, RowHash>, cursor: seq<SourceRow>, rev: nat, i: nat)
    requires i < |cursor|
    ensures Changed(index, cursor[..i + 1], rev) == Changed(index, cursor[..i], rev) +
            (if IsChange(index, cursor[i]) then [Record(cursor[i].key, rev, Some(cursor[i].row))] else [])
  {
    assert cursor[..i + 1][..i] == cursor[..i];
  }

  lemma {:induction false} ChangedMembers(index: map<Key, RowHash>, cursor: seq<SourceRow>, rev: nat, r: Record)
    requires r in Changed(index, cursor, rev)
    ensures r.rev == rev && ChangedFrom(index, cursor, r)
  {
    var rest, c := cursor[..|cursor| - 1], cursor[|cursor| - 1];
    if r in Changed(index, rest, rev) {
      ChangedMembers(index, rest, rev, r);
      var j :| 0 <= j < |rest| && r.key == rest[j].key && r.row == Some(rest[j].row) && IsChange(index, rest[j]);
      assert cursor[j] == rest[j];
    } else {
      assert IsChange(index, cursor[|cursor| - 1]);
    }
  }

  lemma {:induction false} ChangedDistinct(index: map<Key, RowHash>, cursor: seq<SourceRow>, rev: nat)
    requires forall i, j :: 0 <= i < j < |cursor| ==> cursor[i].key != cursor[j].key
    ensures DistinctKeys(Changed(index, cursor, rev))
  {
    if cursor != [] {
      var rest, c := cursor[..|cursor| - 1], cursor[|cursor| - 1];
      ChangedDistinct(index, rest, rev);
      var before := Changed(index, rest, rev);
      forall i | 0 <= i < |before| ensures before[i].key != c.key {
        ChangedMembers(index, rest, rev, before[i]);
        var j :| 0 <= j < |rest| && before[i].key == rest[j].key;
        assert cursor[j] == rest[j];
      }
    }
  }

  lemma {:induction false} ChangedMentions(index: map<Key, RowHash>, cursor: seq<SourceRow>, rev: nat, j: nat)
    requires j < |cursor| && IsChange(index, cursor[j])
    ensures Mentions(Changed(index, cursor, rev), cursor[j].key)
  {
    var rest := cursor[..|cursor| - 1];
    var before, all := Changed(index, rest, rev), Changed(index, cursor, rev);
    if j < |rest| {
      ChangedMentions(index, rest, rev, j);
      var i :| 0 <= i < |before| && before[i].key == cursor[j].key;
      assert all[i] == before[i];
    } else {
      assert all[|all| - 1].key == cursor[j].key;
    }
  }

  // ----- Batching -----

  /** Parts written so far and the batch being filled hold some records, in order. */
  predicate Batched(parts: seq<seq<Record>>, batch: seq<Record>, records: seq<Record>)
  {
    Flatten(parts) + batch == records && (forall i :: 0 <= i < |parts| ==> GoodPart(parts[i])) &&
    (batch == [] || GoodPart(batch)) && Packed(parts) &&
    (parts != [] && batch != [] ==> FullFor(parts[|parts| - 1], batch[0]))
  }

  lemma BatchFlushed(parts: seq<seq<Record>>, batch: seq<Record>, records: seq<Record>)
    requires Batched(parts, batch, records) && batch != []
    ensures Batched(parts + [batch], [], records)
  {
    hide Flatten, GoodPart, FullFor;
    FlattenSnoc(parts, batch);
  }

  lemma BatchFilled(parts: seq<seq<Record>>, batch: seq<Record>, records: seq<Record>, r: Record)
    requires Batched(parts, batch, records)
    requires batch == [] || !FullFor(batch, r)
    requires batch == [] && parts != [] ==> FullFor(parts[|parts| - 1], r)
    ensures Batched(parts, batch + [r], records + [r])
  {
    hide Flatten;
    assert Flatten(parts) + (batch + [r]) == Flatten(parts) + batch + [r];
  }

  // ----- Changes noted in the checkpoint -----

  function Noted(changes: map<Key, Option<RowHash>>, records: seq<Record>): map<Key, Option<RowHash>>
  {
    if records == [] then changes
    else
      var r := records[|records| - 1];
      Noted(changes, records[..|records| - 1])[r.key := if r.row.Some? then Some(RowHash(r.row.value)) else None]
  }

  lemma NotedSnoc(changes: map<Key, Option<RowHash>>, records: seq<Record>, r: Record)
    ensures Noted(changes, records + [r]) ==
            Noted(changes, records)[r.key := if r.row.Some? then Some(RowHash(r.row.value)) else None]
  {
    assert (records + [r])[..|records|] == records;
  }

  lemma {:induction false} NotedConcat(changes: map<Key, Option<RowHash>>, a: seq<Record>, b: seq<Record>)
    ensures Noted(changes, a + b) == Noted(Noted(changes, a), b)
  {
    if b == [] {
      assert a + b == a;
    } else {
      var rest, last := b[..|b| - 1], b[|b| - 1];
      NotedConcat(changes, a, rest);
      assert a + b == (a + rest) + [last];
      NotedSnoc(changes, a + rest, last);
    }
  }

  lemma {:induction false} NotedElsewhere(changes: map<Key, Option<RowHash>>, records: seq<Record>, k: Key)
    requires !Mentions(records, k)
    ensures (k in Noted(changes, records) <==> k in changes) && (k in changes ==> Noted(changes, records)[k] == changes[k])
  {
    if records != [] {
      var rest := records[..|records| - 1];
      assert records[|records| - 1].key != k;
      forall i | 0 <= i < |rest| ensures rest[i].key != k { assert records[i].key != k; }
      NotedElsewhere(changes, rest, k);
    }
  }

  lemma {:induction false} NotedHere(changes: map<Key, Option<RowHash>>, records: seq<Record>, i: nat)
    requires i < |records| && DistinctKeys(records)
    ensures records[i].key in Noted(changes, records)
    ensures Noted(changes, records)[records[i].key] ==
            if records[i].row.Some? then Some(RowHash(records[i].row.value)) else None
  {
    if i < |records| - 1 {
      assert records[|records| - 1].key != records[i].key;
      NotedHere(changes, records[..|records| - 1], i);
    }
  }

  /** Noting the records of one more table extends what is staged to that table. */
  lemma NotedStages(changes: map<Key, Option<RowHash>>, records: seq<Record>, rev: nat, index: map<Key, RowHash>,
                    rows: map<Key, Row>, tables: set<nat>, t: nat)
    requires StagedFor(changes, index, rows, tables) && CarriesFor(records, rev, index, rows, {t}) && t !in tables
    ensures StagedFor(Noted(changes, records), index, rows, tables + {t})
  {
    hide Noted, Differs;
    var after := Noted(changes, records);
    forall k ensures k in after <==> k.table in tables + {t} && Differs(index, rows, k)
             ensures k in after ==> after[k] == if k in rows then Some(RowHash(rows[k])) else None
    {
      if Mentions(records, k) {
        var i :| 0 <= i < |records| && records[i].key == k;
        NotedHere(changes, records, i);
      } else {
        NotedElsewhere(changes, records, k);
      }
    }
  }

  /** The records of several tables together carry the difference of all of them. */
  lemma CarriesJoin(a: seq<Record>, b: seq<Record>, rev: nat, index: map<Key, RowHash>, rows: map<Key, Row>,
                    tables: set<nat>, t: nat)
    requires CarriesFor(a, rev, index, rows, tables) && CarriesFor(b, rev, index, rows, {t}) && t !in tables
    ensures CarriesFor(a + b, rev, index, rows, tables + {t})
  {
    hide Differs, Mentions;
    var c := a + b;
    forall i, j | 0 <= i < j < |c| ensures c[i].key != c[j].key {
      if i < |a| <= j { assert a[i].key.table in tables && b[j - |a|].key.table == t; }
    }
    forall k | Differs(index, rows, k) && k.table in tables + {t} ensures Mentions(c, k) { MentionsConcat(a, b, k); }
  }

  lemma MentionsConcat(a: seq<Record>, b: seq<Record>, k: Key)
    ensures Mentions(a + b, k) <==> Mentions(a, k) || Mentions(b, k)
  {
    if Mentions(a, k) {
      var i :| 0 <= i < |a| && a[i].key == k;
      assert (a + b)[i].key == k;
    }
    if Mentions(b, k) {
      var i :| 0 <= i < |b| && b[i].key == k;
      assert (a + b)[|a| + i].key == k;
    }
  }

  /** Tombstones for the keys of one table that the index has and the scan did not see. */
  ghost predicate Tombstones(records: seq<Record>, rev: nat, gone: set<Key>)
  {
    DistinctKeys(records) &&
    (forall i :: 0 <= i < |records| ==> records[i] == Record(records[i].key, rev, None) && records[i].key in gone) &&
    forall k :: k in gone ==> Mentions(records, k)
  }

  /** The records carry the difference of those keys of one table that are in the rows, or of those
      that are not. */
  ghost predicate CarriesHalf(records: seq<Record>, rev: nat, index: map<Key, RowHash>, rows: map<Key, Row>, t: nat, present: bool)
  {
    DistinctKeys(records) &&
    (forall i :: 0 <= i < |records| ==>
       records[i].rev == rev && records[i].key.table == t && Differs(index, rows, records[i].key) &&
       (records[i].key in rows <==> present) &&
       records[i].row == if records[i].key in rows then Some(rows[records[i].key]) else None) &&
    forall k :: Differs(index, rows, k) && k.table == t && (k in rows <==> present) ==> Mentions(records, k)
  }

  lemma ChangedCarry(cursor: seq<SourceRow>, rev: nat, index: map<Key, RowHash>, rows: map<Key, Row>, t: nat)
    requires CursorOf(cursor, t, rows)
    ensures CarriesHalf(Changed(index, cursor, rev), rev, index, rows, t, true)
  {
    hide Changed;
    ChangedDistinct(index, cursor, rev);
    var a := Changed(index, cursor, rev);
    forall i | 0 <= i < |a|
      ensures a[i].rev == rev && a[i].key.table == t && Differs(index, rows, a[i].key) && a[i].key in rows && a[i].row == Some(rows[a[i].key])
    {
      ChangedMembers(index, cursor, rev, a[i]);
      var j :| 0 <= j < |cursor| && a[i].key == cursor[j].key && a[i].row == Some(cursor[j].row) && IsChange(index, cursor[j]);
    }
    forall k | Differs(index, rows, k) && k.table == t && k in rows ensures Mentions(a, k) {
      var j :| 0 <= j < |cursor| && cursor[j].key == k;
      ChangedMentions(index, cursor, rev, j);
    }
  }

  lemma GoneCarry(cursor: seq<SourceRow>, tombs: seq<Record>, rev: nat, index: map<Key, RowHash>, rows: map<Key, Row>, t: nat)
    requires CursorOf(cursor, t, rows)
    requires Tombstones(tombs, rev, set k | k in index && k.table == t && !InCursor(cursor, k))
    ensures CarriesHalf(tombs, rev, index, rows, t, false)
  {
    var gone := set k | k in index && k.table == t && !InCursor(cursor, k);
    forall i | 0 <= i < |tombs| ensures tombs[i].key.table == t && tombs[i].key !in rows && tombs[i].key in index {
      assert tombs[i].key in gone;
    }
    forall k | Differs(index, rows, k) && k.table == t && k !in rows ensures Mentions(tombs, k) {
      assert k in gone;
    }
  }

  /** Changed rows followed by tombstones carry the difference of the scanned table. */
  lemma ScanCarries(cursor: seq<SourceRow>, tombs: seq<Record>, rev: nat, index: map<Key, RowHash>, rows: map<Key, Row>, t: nat)
    requires CursorOf(cursor, t, rows)
    requires Tombstones(tombs, rev, set k | k in index && k.table == t && !InCursor(cursor, k))
    ensures CarriesFor(Changed(index, cursor, rev) + tombs, rev, index, rows, {t})
  {
    hide Changed, CursorOf, Tombstones;
    ChangedCarry(cursor, rev, index, rows, t);
    GoneCarry(cursor, tombs, rev, index, rows, t);
    HalvesCarry(Changed(index, cursor, rev), tombs, rev, index, rows, t);
  }

  lemma HalvesCarry(a: seq<Record>, b: seq<Record>, rev: nat, index: map<Key, RowHash>, rows: map<Key, Row>, t: nat)
    requires CarriesHalf(a, rev, index, rows, t, true) && CarriesHalf(b, rev, index, rows, t, false)
    ensures CarriesFor(a + b, rev, index, rows, {t})
  {
    hide Differs, Mentions;
    var c := a + b;
    forall i, j | 0 <= i < j < |c| ensures c[i].key != c[j].key {
      if i < |a| <= j { assert a[i].key in rows && b[j - |a|].key !in rows; }
    }
    forall k | Differs(index, rows, k) && k.table == t ensures Mentions(c, k) { MentionsConcat(a, b, k); }
  }

  // ----- The checkpoint -----

  class Checkpoint {
    var index: map<Key, RowHash>
    var changes: map<Key, Option<RowHash>>

    constructor ()
      ensures index == map[] && changes == map[]
    {
      index, changes := map[], map[];
    }

    /** Writes the rows that differ from the index, in parts, and notes them as changes. */
    method ScanRows(cursor: seq<SourceRow>, rev: nat) returns (parts: seq<seq<Record>>)
      modifies this`changes
      ensures Flatten(parts) == Changed(index, cursor, rev)
      ensures (forall i :: 0 <= i < |parts| ==> GoodPart(parts[i])) && Packed(parts)
      ensures changes == Noted(old(changes), Changed(index, cursor, rev))
    {
      hide Flatten, Changed, Noted, Bytes, GoodPart, Batched, Packed;
      parts := [];
      var batch: seq<Record>, batchBytes := [], 0;
      ghost var records := Changed(index, cursor[..0], rev);
      NothingYet(index, old(changes), rev);
      for i := 0 to |cursor|
        invariant records == Changed(index, cursor[..i], rev) && Batched(parts, batch, records)
        invariant changes == Noted(old(changes), records) && batchBytes == Bytes(batch) && (batch == [] ==> parts == [])
      {
        var c := cursor[i];
        ChangedSnoc(index, cursor, rev, i);
        if c.key !in index || index[c.key] != RowHash(c.row) {
          var r, size := Record(c.key, rev, Some(c.row)), Size(c.row);
          BytesSnoc(batch, r);
          if batch != [] && (|batch| >= BATCH || batchBytes + size > PART_BYTES) {
            BatchFlushed(parts, batch, records);
            parts, batch, batchBytes := parts + [batch], [], 0;
            NothingYet(index, old(changes), rev);
          }
          BytesSnoc(batch, r);
          BatchFilled(parts, batch, records, r);
          NotedSnoc(old(changes), records, r);
          batch, batchBytes, records := batch + [r], batchBytes + size, records + [r];
          changes := changes[c.key := Some(RowHash(c.row))];
        }
      }
      assert cursor[..|cursor|] == cursor;
      if batch != [] {
        BatchFlushed(parts, batch, records);
        parts := parts + [batch];
      }
      BatchDone(parts, records);
    }

    /** Writes a tombstone for each given key, in parts, and notes it as a deletion. */
    method ScanGone(gone: set<Key>, rev: nat) returns (parts: seq<seq<Record>>)
      modifies this`changes
      ensures Tombstones(Flatten(parts), rev, gone)
      ensures (forall i :: 0 <= i < |parts| ==> GoodPart(parts[i])) && Packed(parts)
      ensures changes == Noted(old(changes), Flatten(parts))
    {
      hide Flatten, Noted, Bytes, GoodPart, Batched, Tombstones, Packed;
      parts := [];
      var batch: seq<Record>, todo := [], gone;
      ghost var records: seq<Record>, done: set<Key> := [], {};
      NothingYet(index, old(changes), rev);
      NoTombstones(rev);
      while todo != {}
        invariant todo !! done && todo + done == gone && Batched(parts, batch, records) && Tombstones(records, rev, done)
        invariant changes == Noted(old(changes), records)
        invariant |batch| < BATCH && Bytes(batch) == 0 && (batch == [] && parts != [] ==> |parts[|parts| - 1]| >= BATCH)
        decreases todo
      {
        var k :| k in todo;
        todo := todo - {k};
        var r := Record(k, rev, None);
        NotedSnoc(old(changes), records, r);
        TombstoneSnoc(records, rev, done, k);
        done := done + {k};
        changes := changes[k := None];
        BytesSnoc(batch, r);
        BatchFilled(parts, batch, records, r);
        batch, records := batch + [r], records + [r];
        if |batch| >= BATCH {
          BatchFlushed(parts, batch, records);
          parts, batch := parts + [batch], [];
          NothingYet(index, old(changes), rev);
        }
      }
      assert done == gone;
      if batch != [] {
        BatchFlushed(parts, batch, records);
        parts := parts + [batch];
      }
      BatchDone(parts, records);
    }

    /** One mutable table: its parts carry exactly its difference from the index, and the staged
        changes now cover it. */
    method ScanTable(t: nat, cursor: seq<SourceRow>, rev: nat, ghost rows: map<Key, Row>, ghost tables: set<nat>)
      returns (parts: seq<seq<Record>>)
      requires CursorOf(cursor, t, rows) && StagedFor(changes, index, rows, tables) && t !in tables
      modifies this`changes
      ensures CarriesFor(Flatten(parts), rev, index, rows, {t})
      ensures forall i :: 0 <= i < |parts| ==> GoodPart(parts[i])
      ensures StagedFor(changes, index, rows, tables + {t})
    {
      parts := ScanRows(cursor, rev);
      var gone := set k | k in index && k.table == t && !InCursor(cursor, k);
      var tombs := ScanGone(gone, rev);
      FlattenConcat(parts, tombs);
      ScanCarries(cursor, Flatten(tombs), rev, index, rows, t);
      NotedConcat(old(changes), Flatten(parts), Flatten(tombs));
      NotedStages(old(changes), Flatten(parts) + Flatten(tombs), rev, index, rows, tables, t);
      parts := parts + tombs;
    }

    /** All mutable tables in turn: the parts together carry the whole difference between the
        index and the snapshot, and the staged changes are the protocol's. */
    method ScanTables(tables: seq<nat>, cursors: map<nat, seq<SourceRow>>, rev: nat, ghost rows: map<Key, Row>)
      returns (parts: seq<seq<Record>>)
      requires changes == map[]
      requires forall i, j :: 0 <= i < j < |tables| ==> tables[i] != tables[j]
      requires forall t :: t in tables ==> t in cursors && CursorOf(cursors[t], t, rows)
      requires forall k :: k in index || k in rows ==> k.table in tables
      modifies this`changes
      ensures CarriesDelta(Flatten(parts), rev, index, rows)
      ensures changes == ChangesOf(index, rows)
      ensures forall i :: 0 <= i < |parts| ==> GoodPart(parts[i])
    {
      parts := [];
      ghost var done: set<nat> := {};
      for i := 0 to |tables|
        invariant done == set t | t in tables[..i]
        invariant CarriesFor(Flatten(parts), rev, index, rows, done)
        invariant StagedFor(changes, index, rows, done)
        invariant forall j :: 0 <= j < |parts| ==> GoodPart(parts[j])
      {
        var t := tables[i];
        assert t !in tables[..i];
        var more := ScanTable(t, cursors[t], rev, rows, done);
        FlattenConcat(parts, more);
        CarriesJoin(Flatten(parts), Flatten(more), rev, index, rows, done, t);
        parts, done := parts + more, done + {t};
        assert tables[..i + 1] == tables[..i] + [t];
      }
      assert tables[..|tables|] == tables;
      AllTables(Flatten(parts), rev, index, rows, done, changes);
    }

    /** Applies the staged changes to the index, one by one. */
    method Finalize()
      modifies this
      ensures index == Applied(old(index), old(changes)) && changes == map[]
    {
      var todo := changes.Keys;
      while todo != {}
        invariant todo <= changes.Keys && changes == old(changes)
        invariant index == Applied(old(index), map k | k in changes && k !in todo :: changes[k])
        decreases todo
      {
        var k :| k in todo;
        todo := todo - {k};
        if changes[k].Some? {
          index := index[k := changes[k].value];
        } else {
          index := index - {k};
        }
      }
      assert (map k | k in changes && k !in todo :: changes[k]) == changes;
      changes := map[];
    }
  }

  lemma NothingYet(index: map<Key, RowHash>, changes: map<Key, Option<RowHash>>, rev: nat)
    ensures Changed(index, [], rev) == [] && Noted(changes, []) == changes && Bytes([]) == 0 && Batched([], [], [])
  {
  }

  lemma NoTombstones(rev: nat)
    ensures Tombstones([], rev, {})
  {
  }

  lemma BatchDone(parts: seq<seq<Record>>, records: seq<Record>)
    ensures Batched(parts, [], records) ==>
              Flatten(parts) == records && Packed(parts) && forall i :: 0 <= i < |parts| ==> GoodPart(parts[i])
  {
    hide Flatten, GoodPart, Packed;
    assert Flatten(parts) + [] == Flatten(parts);
  }

  lemma TombstoneSnoc(records: seq<Record>, rev: nat, gone: set<Key>, k: Key)
    requires Tombstones(records, rev, gone) && k !in gone
    ensures Tombstones(records + [Record(k, rev, None)], rev, gone + {k})
  {
    var more := records + [Record(k, rev, None)];
    forall j | j in gone + {k} ensures Mentions(more, j) {
      if j == k {
        assert more[|records|].key == k;
      } else {
        var i :| 0 <= i < |records| && records[i].key == j;
        assert more[i].key == j;
      }
    }
  }

  lemma AllTables(records: seq<Record>, rev: nat, index: map<Key, RowHash>, rows: map<Key, Row>, tables: set<nat>,
                  changes: map<Key, Option<RowHash>>)
    requires CarriesFor(records, rev, index, rows, tables) && StagedFor(changes, index, rows, tables)
    requires forall k :: k in index || k in rows ==> k.table in tables
    ensures CarriesDelta(records, rev, index, rows) && changes == ChangesOf(index, rows)
  {
    forall k | Differs(index, rows, k) ensures k.table in tables {}
    assert changes.Keys == ChangesOf(index, rows).Keys;
  }
}
