/** What is new in the source can always be published: whoever may write to the dataset can bring
    its readers up to date. */
module PublisherProgress {
  import opened Wrappers
  import opened Sequences
  import opened PublisherRecords
  import opened PublisherData
  import opened PublisherProtocol
  import opened PublisherSafety
  import opened PublisherReader
  import opened PublisherRecovery
  import opened PublisherStage

  /** p owns the dataset or finds it empty. */
  predicate MayWrite(s: System, p: nat)
  {
    p in s.pubs && (s.hist.owner == Some(p) || s.hist.chain == [])
  }

  lemma {:induction false} RunConcat(s: System, a: seq<Step>, b: seq<Step>)
    ensures Run(s, a + b) == Run(Run(s, a), b)
    decreases |b|
  {
    if b == [] {
      Associates(a, a, a);
    } else {
      hide Run;
      var rest, last := b[..|b| - 1], b[|b| - 1];
      RunConcat(s, a, rest);
      Snoc(a, b);
      RunSnoc(s, a + rest, last);
      RunSnoc(Run(s, a), rest, last);
    }
  }

  lemma RunNothing(s: System)
    ensures Run(s, []) == s
  {
  }

  // ----- From the start of a process to a staged generation -----

  /** A process that is started lets itself in and keeps the pointer it read. */
  lemma Started(s: System, p: nat)
    requires Inv(s) && MayWrite(s, p)
    ensures var t := Apply(Apply(s, Crash(p)), Construct(p));
            Inv(t) && t == s.(pubs := s.pubs[p := s.pubs[p].(process := Idle(s.remote.latest))])
  {
    hide Inv, Refuses;
    var s1 := Apply(s, Crash(p));
    StepKeeps(s, Crash(p));
    ConstructorRefuses(s1, p);
    StepKeeps(s1, Construct(p));
  }

  lemma EventsNotRewound(s: System, p: nat)
    requires Inv(s) && p in s.pubs && s.pubs[p].local.pending.None?
    ensures LastSeq(s.pubs[p].source.events) >= s.pubs[p].local.eventsSeq
  {
    hide ChainRecords, ChainEvents, ChainRows, StoreOk, ProcessOk, LogsOk, Inv;
    InvParts(s, p);
    var b := s.pubs[p];
    var seen, events := ChainEvents(s.remote, Finished(s.hist, p, b.local)), b.source.events;
    if seen != [] && |seen| < |events| { assert events[|seen| - 1].seqno < events[|events| - 1].seqno; }
  }

  lemma OwnerSeen(s: System, p: nat)
    requires Inv(s) && MayWrite(s, p) && s.pubs[p].local.pending.None?
    ensures s.remote.latest == PointerTo(s.hist.chain)
    ensures s.remote.latest.Some? ==> s.pubs[p].local.remoteSeen
    ensures Head(s.hist.chain) != Some(s.nextGen)
  {
    hide ChainRecords, ChainEvents, ChainRows, ProcessOk, LogsOk, GenerationFaithful, Inv;
    InvParts(s, p);
    if s.hist.chain != [] { assert GenerationStored(s.remote, s.hist.chain, |s.hist.chain| - 1); }
  }

  /** Staged by p from its current source, with the objects still to upload. */
  ghost predicate StagedFrom(s: System, t: System, p: nat, files: seq<Digest>)
  {
    Inv(t) && p in s.pubs && p in t.pubs && SpoolIntact(t.pubs[p].local) && t.pubs[p].process.Uploading? && t.pubs[p].process.done == 0 &&
    t.pubs[p].local.pending.value.manifest.gen == s.nextGen && t.pubs[p].local.pending.value.manifest.files == files &&
    t.pubs[p].source == s.pubs[p].source &&
    t.hist == s.hist.(snaps := s.hist.snaps[s.nextGen := s.pubs[p].source])
  }

  /** A started process scans, reads the pointer it builds on, and stages what it found. */
  lemma StagesScan(s: System, p: nat, files: seq<Digest>, cursor: map<Stream, nat>)
    requires Inv(s) && MayWrite(s, p) && s.pubs[p].local.pending.None? && files != []
    requires s.pubs[p].process == Idle(s.remote.latest)
    requires ScanFinds(files, s.pubs[p].local, s.pubs[p].source, cursor, s.pubs[p].source.logs)
    ensures StagedFrom(s, Apply(Apply(Apply(s, Scan(p)), ReadBase(p)), Stage(p, files, cursor)), p, files)
  {
    hide Inv, ScanFinds, Since, ChangesOf;
    EventsNotRewound(s, p);
    OwnerSeen(s, p);
    var s1 := Apply(s, Scan(p));
    var s2 := Apply(s1, ReadBase(p));
    StepKeeps(s, Scan(p));
    StepKeeps(s1, ReadBase(p));
    StepKeeps(s2, Stage(p, files, cursor));
  }

  /** Whatever a scan of its source finds, a publisher that may write and has nothing pending can
      publish it: started anew, it extends the chain by one generation, scanned from its source. */
  lemma PublishCompletes(s: System, p: nat, files: seq<Digest>, cursor: map<Stream, nat>) returns (steps: seq<Step>)
    requires Inv(s) && MayWrite(s, p) && s.pubs[p].local.pending.None? && files != []
    requires ScanFinds(files, s.pubs[p].local, s.pubs[p].source, cursor, s.pubs[p].source.logs)
    ensures var t := Run(s, steps);
            Inv(t) && p in t.pubs && t.pubs[p].local.pending.None? && t.pubs[p].source == s.pubs[p].source &&
            t.hist == History(s.hist.chain + [s.nextGen], Some(p), s.hist.snaps[s.nextGen := s.pubs[p].source])
  {
    hide Inv, Run, ScanFinds, SpoolIntact;
    steps := StartAndStage(s, p, files, cursor);
    OwnerSeen(s, p);
    var rest := FinishStaged(Run(s, steps), p);
    RunConcat(s, steps, rest);
    steps := steps + rest;
  }

  lemma StartAndStage(s: System, p: nat, files: seq<Digest>, cursor: map<Stream, nat>) returns (steps: seq<Step>)
    requires Inv(s) && MayWrite(s, p) && s.pubs[p].local.pending.None? && files != []
    requires ScanFinds(files, s.pubs[p].local, s.pubs[p].source, cursor, s.pubs[p].source.logs)
    ensures StagedFrom(s, Run(s, steps), p, files)
  {
    hide Inv, Run, Apply, ScanFinds, SpoolIntact;
    var start, scan := [Crash(p), Construct(p)], [Scan(p), ReadBase(p), Stage(p, files, cursor)];
    Started(s, p);
    RunTwo(s, Crash(p), Construct(p));
    var t := Run(s, start);
    StagesScan(t, p, files, cursor);
    RunThree(t, Scan(p), ReadBase(p), Stage(p, files, cursor));
    RunConcat(s, start, scan);
    steps := start + scan;
  }

  lemma RunTwo(s: System, a: Step, b: Step)
    ensures Run(s, [a, b]) == Apply(Apply(s, a), b)
  {
    hide Apply;
    RunNothing(s);
    RunSnoc(s, [], a);
    RunSnoc(s, [a], b);
    assert [] + [a] == [a] && [a] + [b] == [a, b];
  }

  /** A staged generation is uploaded, swapped in and finalised. */
  lemma FinishStaged(u: System, p: nat) returns (steps: seq<Step>)
    requires Inv(u) && MayWrite(u, p) && SpoolIntact(u.pubs[p].local)
    requires u.pubs[p].process.Uploading? && u.pubs[p].process.done == 0
    requires Head(u.hist.chain) != Some(u.pubs[p].local.pending.value.manifest.gen)
    ensures var t := Run(u, steps); var m := u.pubs[p].local.pending.value.manifest;
            Inv(t) && p in t.pubs && t.pubs[p].local.pending.None? && t.pubs[p].source == u.pubs[p].source &&
            t.hist == u.hist.(chain := u.hist.chain + [m.gen], owner := Some(p))
  {
    hide Inv, Run;
    RunNothing(u);
    steps := UploadAll(u, p, [], 0);
    steps := SwapIn(u, p, steps);
    steps := Close(u, p, steps);
  }

  // ----- Up to date -----

  /** Readers see the tables and events of a source. */
  ghost predicate Shows(s: System, source: Source)
  {
    ChainRows(s.remote, s.hist.chain) == source.rows && ChainEvents(s.remote, s.hist.chain) == source.events
  }

  /** Records of every difference between an index and some rows, made one by one. */
  lemma {:induction false} DeltaFor(keys: set<Key>, rev: nat, rows: map<Key, Row>) returns (records: seq<Record>)
    ensures DistinctKeys(records) && forall k :: k in keys <==> Mentions(records, k)
    ensures forall i :: 0 <= i < |records| ==>
              records[i] == Record(records[i].key, rev, if records[i].key in rows then Some(rows[records[i].key]) else None)
  {
    if keys == {} {
      records := [];
    } else {
      var k :| k in keys;
      var rest := DeltaFor(keys - {k}, rev, rows);
      var r := Record(k, rev, if k in rows then Some(rows[k]) else None);
      records := rest + [r];
      forall x ensures x in keys <==> Mentions(records, x) {
        assert Mentions(rest, x) <==> x in keys - {k};
        MentionsSnoc(rest, r, x);
      }
      DistinctSnoc(rest, r);
    }
  }

  lemma MentionsSnoc(records: seq<Record>, r: Record, k: Key)
    ensures Mentions(records + [r], k) <==> Mentions(records, k) || r.key == k
  {
    var more := records + [r];
    if Mentions(records, k) {
      var i :| 0 <= i < |records| && records[i].key == k;
      assert more[i].key == k;
    }
    if r.key == k { assert more[|records|].key == k; }
  }

  lemma DistinctSnoc(records: seq<Record>, r: Record)
    requires DistinctKeys(records) && !Mentions(records, r.key)
    ensures DistinctKeys(records + [r])
  {
  }

  /** Records of all that is new in the tables. */
  lemma RecordsFor(index: map<Key, RowHash>, rows: map<Key, Row>, rev: nat) returns (records: seq<Record>)
    ensures CarriesDelta(records, rev, index, rows) && (records == [] ==> forall k :: !Differs(index, rows, k))
  {
    hide Differs;
    var keys := set k | k in index.Keys + rows.Keys && Differs(index, rows, k);
    forall k ensures Differs(index, rows, k) <==> k in keys { DiffersKnown(index, rows, k); }
    records := DeltaFor(keys, rev, rows);
    forall i | 0 <= i < |records| ensures records[i].key in keys { assert Mentions(records, records[i].key); }
    forall k | Differs(index, rows, k) ensures Mentions(records, k) {}
  }

  lemma NoLogs(l: Local, source: Source)
    requires l.cursor.Keys <= source.logs.Keys && forall s :: s in l.cursor ==> l.cursor[s] <= |source.logs[s]|
    ensures LogsFound([], l.cursor, l.cursor, source.logs) && OnlyLogs([])
  {
    hide Tiles;
    forall s | s in l.cursor ensures Tiles(source.logs[s], [], l.cursor[s], l.cursor[s]) { NothingCut(source.logs[s], l.cursor[s]); }
  }

  /** Objects with all that is new in the tables and events, and nothing of the logs. */
  lemma FilesFor(l: Local, source: Source) returns (files: seq<Digest>)
    requires l.cursor.Keys <= source.logs.Keys && forall s :: s in l.cursor ==> l.cursor[s] <= |source.logs[s]|
    ensures ScanFinds(files, l, source, l.cursor, source.logs)
    ensures files == [] ==> Since(source.events, l.eventsSeq) == [] && forall k :: !Differs(l.index, source.rows, k)
  {
    hide Since, Differs, CarriesDelta, LogsFound, OnlyLogs, RowFiles, EventFiles, FlattenEvents, ScanFinds;
    var records := RecordsFor(l.index, source.rows, l.revision + 1);
    var events := Since(source.events, l.eventsSeq);
    var rowParts := if records == [] then [] else [records];
    var eventParts := if events == [] then [] else [events];
    OnePart(records, events);
    NoLogs(l, source);
    ScanStages(rowParts, eventParts, [], l, source, l.cursor, source.logs);
    files := RowFiles(rowParts) + EventFiles(eventParts) + [];
  }

  lemma DiffersKnown(index: map<Key, RowHash>, rows: map<Key, Row>, k: Key)
    ensures Differs(index, rows, k) ==> k in index.Keys + rows.Keys
  {
  }

  lemma OnePart(records: seq<Record>, events: seq<Event>)
    ensures PublisherScan.Flatten(if records == [] then [] else [records]) == records
    ensures FlattenEvents(if events == [] then [] else [events]) == events
    ensures |RowFiles(if records == [] then [] else [records])| == if records == [] then 0 else 1
    ensures |EventFiles(if events == [] then [] else [events])| == if events == [] then 0 else 1
  {
  }

  /** With nothing pending and nothing new, readers see the source already. */
  lemma NothingNew(s: System, p: nat)
    requires Inv(s) && MayWrite(s, p) && s.pubs[p].local.pending.None?
    requires var l, source := s.pubs[p].local, s.pubs[p].source;
             Since(source.events, l.eventsSeq) == [] && forall k :: !Differs(l.index, source.rows, k)
    ensures Shows(s, s.pubs[p].source)
  {
    hide ChainRecords, ChainEvents, ProcessOk, LogsOk, StoreOk, Inv;
    InvParts(s, p);
    OwnerSeen(s, p);
    var b := s.pubs[p];
    var done := Finished(s.hist, p, b.local);
    assert done == s.hist.chain by { StoreParts(s); }
    SinceResumes(ChainEvents(s.remote, done), b.source.events);
    SameIndexed(b.local.index, ChainRows(s.remote, done), b.source.rows);
  }

  lemma StoreParts(s: System)
    requires Inv(s)
    ensures s.hist.owner.None? <==> s.hist.chain == []
  {
  }

  lemma SameIndexed(index: map<Key, RowHash>, rows: map<Key, Row>, source: map<Key, Row>)
    requires Indexes(index, rows) && forall k :: !Differs(index, source, k)
    ensures rows == source
  {
    forall k ensures (k in rows <==> k in source) && (k in rows ==> rows[k] == source[k]) { assert !Differs(index, source, k); }
  }

  /** After a generation scanned from a source, readers see that source. */
  lemma NewestShown(s: System, source: Source)
    requires Inv(s) && s.hist.chain != [] && s.hist.chain[|s.hist.chain| - 1] in s.hist.snaps
    requires s.hist.snaps[s.hist.chain[|s.hist.chain| - 1]] == source
    ensures Shows(s, source)
  {
    hide ChainRecords, ChainEvents, ChainRows, Inv;
    InvParts(s, 0);
    var n := |s.hist.chain|;
    assert GenerationFaithful(s.remote, s.hist, n - 1);
    assert s.hist.chain[..n] == s.hist.chain;
  }

  lemma CursorsInLogs(s: System, p: nat)
    requires Inv(s) && p in s.pubs
    ensures var l, logs := s.pubs[p].local, s.pubs[p].source.logs;
            l.cursor.Keys <= logs.Keys && forall t :: t in l.cursor ==> l.cursor[t] <= |logs[t]|
  {
    hide StoreOk, LocalOk, ProcessOk, Inv;
    InvParts(s, p);
  }

  /** From every state that a run can reach, a publisher that may write, and has not lost the objects
      of a pending generation, can bring the readers up to its source as it is now. */
  lemma CatchesUp(s: System, p: nat) returns (steps: seq<Step>)
    requires Inv(s) && MayWrite(s, p)
    requires s.pubs[p].local.pending.Some? ==> SpoolIntact(s.pubs[p].local)
    ensures var t := Run(s, steps);
            Inv(t) && p in t.pubs && t.pubs[p].local.pending.None? && t.pubs[p].source == s.pubs[p].source &&
            Shows(t, s.pubs[p].source)
  {
    hide Inv, Run, ScanFinds, SpoolIntact, Shows, Since, Differs;
    RunNothing(s);
    steps := [];
    if s.pubs[p].local.pending.Some? { steps := RecoveryCompletes(s, p); }
    var t := Run(s, steps);
    CursorsInLogs(t, p);
    var files := FilesFor(t.pubs[p].local, t.pubs[p].source);
    if files == [] {
      NothingNew(t, p);
    } else {
      var more := PublishCompletes(t, p, files, t.pubs[p].local.cursor);
      RunConcat(s, steps, more);
      steps := steps + more;
      NewestShown(Run(s, steps), s.pubs[p].source);
    }
  }
}
