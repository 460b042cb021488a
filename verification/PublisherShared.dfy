/** Two processes on one checkpoint. The publisher reads its pending record when it is constructed
    and takes the lock only when it publishes, so a process can finalise by a record that is no
    longer the one on disk. */
module PublisherShared {
  import opened Wrappers
  import opened PublisherRecords
  import opened PublisherData
  import opened PublisherProtocol
  import opened PublisherSafety
  import opened PublisherReader
  import opened PublisherRecovery

  /** A system, and for some publishers the pending record that a second process remembers. */
  datatype Shared = Shared(sys: System, kept: map<nat, Pending>)

  datatype SharedStep =
    | Own(step: Step)
    | Remember(p: nat)      // a second process is constructed while a generation is pending
    | FinalizeKept(p: nat)  // it takes the lock, finds its generation published, and finalises

  /** The finalising transaction applies the changes on disk and deletes the pending record on
      disk, whichever generation they belong to; only the generation it notes is its own. */
  function FinalizedBy(l: Local, g: Gen): Local
  {
    l.(index := Applied(l.index, l.changes), changes := map[], pending := None, remoteSeen := true,
       generation := Some(g), spool := map[])
  }

  /** The lock is free unless the other process is publishing. */
  predicate LockFree(b: Publisher)
  {
    b.process.Down? || b.process.Idle?
  }

  ghost function ApplyShared(s: Shared, step: SharedStep): Shared
  {
    match step
    case Own(own) => s.(sys := Apply(s.sys, own))
    case Remember(p) =>
      if p in s.sys.pubs && s.sys.pubs[p].local.pending.Some? && !Refuses(s.sys.pubs[p].local, s.sys.remote.latest) then
        s.(kept := s.kept[p := s.sys.pubs[p].local.pending.value])
      else s
    case FinalizeKept(p) =>
      if p in s.sys.pubs && p in s.kept && LockFree(s.sys.pubs[p]) && s.sys.remote.latest.Some? &&
         s.sys.remote.latest.value.gen == s.kept[p].manifest.gen then
        var b := s.sys.pubs[p];
        var b' := b.(local := FinalizedBy(b.local, s.kept[p].manifest.gen), process := Idle(s.sys.remote.latest));
        Shared(s.sys.(pubs := s.sys.pubs[p := b']), s.kept - {p})
      else s
  }

  ghost function RunShared(s: Shared, steps: seq<SharedStep>): Shared
  {
    if steps == [] then s else ApplyShared(RunShared(s, steps[..|steps| - 1]), steps[|steps| - 1])
  }

  // ----- When finalising by a remembered record is right -----

  /** The record on disk is the remembered one, or there is none. */
  predicate OnDisk(l: Local, g: Gen)
  {
    l.pending.None? || l.pending.value.manifest.gen == g
  }

  /** Finalising by the generation that is published last keeps the publisher in order exactly when
      no other generation is pending on disk. */
  lemma FinalizeKeptIff(r: Remote, h: History, next: Gen, p: nat, b: Publisher, g: Gen)
    requires StoreOk(r, h, next) && PublisherOk(r, h, next, p, b) && h.owner == Some(p)
    requires r.latest.Some? && r.latest.value.gen == g
    ensures PublisherOk(r, h, next, p, b.(local := FinalizedBy(b.local, g), process := Idle(r.latest))) <==> OnDisk(b.local, g)
  {
    hide StoreOk, PublisherOk;
    if b.local.pending.None? {
      NothingToFinalize(r, h, next, p, b, g);
    } else if b.local.pending.value.manifest.gen == g {
      ThisPending(r, h, next, p, b);
    } else {
      OtherPending(r, h, next, p, b, g);
    }
  }

  lemma NothingToFinalize(r: Remote, h: History, next: Gen, p: nat, b: Publisher, g: Gen)
    requires StoreOk(r, h, next) && PublisherOk(r, h, next, p, b) && h.owner == Some(p)
    requires r.latest.Some? && r.latest.value.gen == g && b.local.pending.None?
    ensures PublisherOk(r, h, next, p, b.(local := FinalizedBy(b.local, g), process := Idle(r.latest)))
  {
    hide ChainRecords, ChainEvents, ChainRows, Indexes, LogsStand, GenerationFaithful;
    assert Applied(b.local.index, map[]) == b.local.index;
  }

  lemma ThisPending(r: Remote, h: History, next: Gen, p: nat, b: Publisher)
    requires StoreOk(r, h, next) && PublisherOk(r, h, next, p, b) && h.owner == Some(p) && b.local.pending.Some?
    requires r.latest.Some? && r.latest.value.gen == b.local.pending.value.manifest.gen
    ensures PublisherOk(r, h, next, p, b.(local := Finalized(b.local), process := Idle(r.latest)))
  {
    hide LocalOk, LogsOk, GenerationStored, GenerationFaithful;
    var f := b.(process := Finalizing(r.latest));
    ProcessMoves(r, h, next, p, b, f);
    FinalizeKeeps(r, h, next, p, f);
  }

  /** Changes of another generation are applied and its pending record is lost: the revision is
      ahead of the chain. */
  lemma OtherPending(r: Remote, h: History, next: Gen, p: nat, b: Publisher, g: Gen)
    requires StoreOk(r, h, next) && PublisherOk(r, h, next, p, b) && h.owner == Some(p) && b.local.pending.Some?
    requires r.latest.Some? && r.latest.value.gen == g != b.local.pending.value.manifest.gen
    ensures !LocalOk(r, h, next, p, b.(local := FinalizedBy(b.local, g), process := Idle(r.latest)))
    ensures !PublisherOk(r, h, next, p, b.(local := FinalizedBy(b.local, g), process := Idle(r.latest)))
  {
    hide ChainRecords, ChainEvents, ChainRows, Indexes, LogsStand, GenerationFaithful, CarriesDelta, ChangesOf;
    assert PendingOk(r, h, next, p, b);
  }

  /** What is then wrong: the index stands for the snapshot of the generation that was dropped,
      so if that changed any row, it stands for none that readers see. */
  lemma DroppedIsIndexed(r: Remote, h: History, next: Gen, p: nat, b: Publisher, g: Gen)
    requires StoreOk(r, h, next) && PublisherOk(r, h, next, p, b) && h.owner == Some(p) && b.local.pending.Some?
    requires r.latest.Some? && r.latest.value.gen == g != b.local.pending.value.manifest.gen
    ensures var m := b.local.pending.value.manifest; var l := FinalizedBy(b.local, g);
            m.gen in h.snaps && Indexes(l.index, h.snaps[m.gen].rows) &&
            (RecordsOf(m.files) != [] ==> !Indexes(l.index, ChainRows(r, h.chain)))
  {
    hide ChainRecords, ChainEvents, ChainRows, RecordsOf, EventsOf, ChangesOf, Applied, LogsOk, GenerationFaithful;
    assert PendingOk(r, h, next, p, b);
    var m := b.local.pending.value.manifest;
    assert Finished(h, p, b.local) == h.chain;
    AppliedIndexes(b.local.index, h.snaps[m.gen].rows);
    var records := RecordsOf(m.files);
    if records != [] {
      assert Differs(b.local.index, h.snaps[m.gen].rows, records[0].key);
    }
  }

  /** A row that the index holds and readers do not see is in no later delta either: for as long
      as the row stays, every generation leaves readers without it and the index with it. */
  lemma MissedStays(view: map<Key, Row>, index: map<Key, RowHash>, rows: map<Key, Row>, records: seq<Record>, rev: nat, k: Key)
    requires CarriesDelta(records, rev, index, rows) && k in rows && k in index && index[k] == RowHash(rows[k])
    requires k !in view || view[k] != rows[k]
    ensures var after := Replay(view, records); k !in after || after[k] != rows[k]
    ensures var next := Applied(index, ChangesOf(index, rows)); k in next && next[k] == RowHash(rows[k])
  {
    hide Replay;
    ReplayElsewhere(view, records, k);
  }

  // ----- A run that goes wrong -----

  lemma RunSharedConcat(s: Shared, a: seq<SharedStep>, b: seq<SharedStep>)
    ensures RunShared(s, a + b) == RunShared(RunShared(s, a), b)
    decreases |b|
  {
    if b == [] {
      assert a + b == a;
    } else {
      assert (a + b)[..|a + b| - 1] == a + b[..|b| - 1];
      RunSharedConcat(s, a, b[..|b| - 1]);
    }
  }

  lemma RunShared1(s: Shared, a: SharedStep)
    ensures RunShared(s, [a]) == ApplyShared(s, a)
  {
    assert [a][..0] == [];
    assert RunShared(s, []) == s;
  }

  lemma RunShared3(s: Shared, a: Step, b: Step, c: Step)
    ensures RunShared(s, [Own(a), Own(b), Own(c)]) == s.(sys := Apply(Apply(Apply(s.sys, a), b), c))
  {
    hide Apply;
    RunShared1(s, Own(a));
    RunSharedConcat(s, [Own(a)], [Own(b)]);
    RunShared1(RunShared(s, [Own(a)]), Own(b));
    RunSharedConcat(s, [Own(a)] + [Own(b)], [Own(c)]);
    RunShared1(RunShared(s, [Own(a)] + [Own(b)]), Own(c));
    assert [Own(a)] + [Own(b)] + [Own(c)] == [Own(a), Own(b), Own(c)];
  }

  /** A system with one publisher. */
  function Lone(r: Remote, h: History, next: Gen, b: Publisher): System
  {
    System(r, map[0 := b], h, next)
  }

  function StagingSteps(files: seq<Digest>): seq<SharedStep>
  {
    [Own(Scan(0)), Own(ReadBase(0)), Own(Stage(0, files, map[]))]
  }

  function SwappingSteps(): seq<SharedStep>
  {
    [Own(Upload(0)), Own(UploadManifest(0)), Own(Swap(0))]
  }

  lemma LoneApply(r: Remote, h: History, next: Gen, b: Publisher, step: Step)
    requires step.p == 0
    ensures var (r', h', next', b') := Act(r, h, next, b, step); Apply(Lone(r, h, next, b), step) == Lone(r', h', next', b')
  {
    hide Act;
    assert map[0 := b][0 := Act(r, h, next, b, step).3] == map[0 := Act(r, h, next, b, step).3];
  }

  /** Scanning, reading the base and staging, where there is something to publish. */
  lemma StagingRun(s: Shared, r: Remote, h: History, next: Gen, b: Publisher, files: seq<Digest>)
    requires s.sys == Lone(r, h, next, b) && b.process == Idle(r.latest) && b.local.pending.None?
    requires LastSeq(b.source.events) >= b.local.eventsSeq && (r.latest.Some? ==> b.local.remoteSeen)
    requires ScanFinds(files, b.local, b.source, map[], b.source.logs) && files != []
    ensures RunShared(s, StagingSteps(files)) ==
            s.(sys := Lone(r, h.(snaps := h.snaps[next := b.source]), next + 1,
                           Publisher(b.source, Staged(b.local, next, b.source, r.latest, files, map[]), Uploading(r.latest, 0))))
  {
    hide ScanFinds, LastSeq, Apply, RunShared, Staged;
    RunShared3(s, Scan(0), ReadBase(0), Stage(0, files, map[]));
    LoneApply(r, h, next, b, Scan(0));
    var b1 := b.(process := Scanning(r.latest, b.source));
    LoneApply(r, h, next, b1, ReadBase(0));
    var b2 := b.(process := Based(r.latest, b.source, r.latest));
    LoneApply(r, h, next, b2, Stage(0, files, map[]));
  }

  /** Uploading one object and the manifest and swapping the pointer. */
  lemma SwappingRun(s: Shared, r: Remote, h: History, next: Gen, b: Publisher, m: Manifest, d: Digest)
    requires s.sys == Lone(r, h, next, b) && b.process == Uploading(r.latest, 0)
    requires b.local.pending == Some(Pending(m, r.latest)) && m.files == [d] && m.gen !in r.manifests
    requires d in b.local.spool && b.local.spool[d] == d.of && d !in r.objects
    ensures RunShared(s, SwappingSteps()) ==
            s.(sys := Lone(Remote(r.objects[d := d.of], r.manifests[m.gen := m], Some(Pointer(m.gen, m.rev))),
                           h.(chain := h.chain + [m.gen], owner := Some(0)), next,
                           b.(process := Finalizing(Some(Pointer(m.gen, m.rev))))))
  {
    hide Act, Apply, RunShared;
    RunShared3(s, Upload(0), UploadManifest(0), Swap(0));
    LoneApply(r, h, next, b, Upload(0));
    UploadOne(r, h, next, b, m, d);
    var r1, b1 := r.(objects := r.objects[d := d.of]), b.(process := Uploading(r.latest, 1));
    LoneApply(r1, h, next, b1, UploadManifest(0));
    ManifestOne(r1, h, next, b1, m);
    var r2, b2 := r1.(manifests := r.manifests[m.gen := m]), b.(process := Manifested(r.latest));
    LoneApply(r2, h, next, b2, Swap(0));
    SwapOne(r2, h, next, b2, m);
  }

  lemma UploadOne(r: Remote, h: History, next: Gen, b: Publisher, m: Manifest, d: Digest)
    requires b.process == Uploading(r.latest, 0) && b.local.pending == Some(Pending(m, r.latest)) && m.files == [d]
    requires d in b.local.spool && b.local.spool[d] == d.of && d !in r.objects
    ensures Act(r, h, next, b, Upload(0)) ==
            (r.(objects := r.objects[d := d.of]), h, next, b.(process := Uploading(r.latest, 1)))
  {
  }

  lemma ManifestOne(r: Remote, h: History, next: Gen, b: Publisher, m: Manifest)
    requires b.process == Uploading(r.latest, 1) && b.local.pending == Some(Pending(m, r.latest)) && |m.files| == 1
    requires m.gen !in r.manifests
    ensures Act(r, h, next, b, UploadManifest(0)) ==
            (r.(manifests := r.manifests[m.gen := m]), h, next, b.(process := Manifested(r.latest)))
  {
  }

  lemma SwapOne(r: Remote, h: History, next: Gen, b: Publisher, m: Manifest)
    requires b.process == Manifested(r.latest) && b.local.pending == Some(Pending(m, r.latest))
    ensures var pointer := Some(Pointer(m.gen, m.rev));
            Act(r, h, next, b, Swap(0)) ==
            (r.(latest := pointer), h.(chain := h.chain + [m.gen], owner := Some(0)), next, b.(process := Finalizing(pointer)))
  {
  }

  // The run: a generation is published while a second process remembers it as pending; the next
  // one is staged and its process crashes; the second process finalises by the first one.

  const K0: Key := Key(0, 0)
  const K1: Key := Key(0, 1)

  function SourceOf(rows: map<Key, Row>): Source
  {
    Source(rows, [], map[])
  }

  function OneRow(k: Key, rev: nat, row: Row): Digest
  {
    Digest(Rows([Record(k, rev, Some(row))]))
  }

  /** A checkpoint at rest. */
  function Rested(index: map<Key, RowHash>, revision: nat, generation: Option<Gen>): Local
  {
    Local(index, map[], 0, map[], revision, generation, generation.Some?, None, map[])
  }

  /** One row is all that a scan finds changed. */
  ghost predicate OnlyDiffers(index: map<Key, RowHash>, rows: map<Key, Row>, k: Key)
  {
    k in rows && forall j :: Differs(index, rows, j) <==> j == k
  }

  /** One row that differs is the delta. */
  lemma OneRowFound(l: Local, k: Key, rows: map<Key, Row>)
    requires OnlyDiffers(l.index, rows, k) && l.eventsSeq == 0 && l.cursor == map[]
    ensures ScanFinds([OneRow(k, l.revision + 1, rows[k])], l, SourceOf(rows), map[], map[])
  {
    hide RecordsOf, EventsOf, LogsOf;
    var files := [OneRow(k, l.revision + 1, rows[k])];
    OneFile(files[0]);
    OneRowCarries([Record(k, l.revision + 1, Some(rows[k]))], l.revision + 1, l.index, rows, k);
    forall s ensures LogsOf(files, s) == [] { OneFileLogs(files[0], s); }
  }

  lemma OneRowCarries(records: seq<Record>, rev: nat, index: map<Key, RowHash>, rows: map<Key, Row>, k: Key)
    requires OnlyDiffers(index, rows, k) && records == [Record(k, rev, Some(rows[k]))]
    ensures CarriesDelta(records, rev, index, rows)
  {
    forall j | Differs(index, rows, j) ensures Mentions(records, j) {
      assert records[0].key == k;
    }
  }

  lemma OneFile(d: Digest)
    requires d.of.Rows?
    ensures RecordsOf([d]) == d.of.records && EventsOf([d]) == []
  {
    assert [d][..0] == [];
    assert RecordsOf([]) + d.of.records == d.of.records;
  }

  lemma OneFileLogs(d: Digest, s: Stream)
    requires d.of.Rows?
    ensures LogsOf([d], s) == []
  {
    assert [d][..0] == [];
  }

  /** The state after a generation of one row is staged on a checkpoint at rest. */
  lemma StageOneRow(s: Shared, r: Remote, h: History, next: Gen, l: Local, k: Key, rows: map<Key, Row>)
    requires s.sys == Lone(r, h, next, Publisher(SourceOf(rows), l, Idle(r.latest)))
    requires l == Rested(l.index, l.revision, l.generation) && (r.latest.Some? ==> l.remoteSeen)
    requires k in rows && OnlyDiffers(l.index, rows, k)
    ensures var d := OneRow(k, l.revision + 1, rows[k]);
            var m := Manifest(next, l.revision + 1, if r.latest.Some? then Some(r.latest.value.gen) else None, [d]);
            RunShared(s, StagingSteps([d])) ==
            s.(sys := Lone(r, h.(snaps := h.snaps[next := SourceOf(rows)]), next + 1,
                           Publisher(SourceOf(rows), Holding(l, k, rows[k], m, r.latest), Uploading(r.latest, 0))))
  {
    hide ScanFinds, RunShared, OnlyDiffers;
    var d := OneRow(k, l.revision + 1, rows[k]);
    OneRowFound(l, k, rows);
    StagingRun(s, r, h, next, Publisher(SourceOf(rows), l, Idle(r.latest)), [d]);
    OneChange(l.index, k, rows);
    assert SpoolOf([d]) == map[d := d.of];
    assert Since([], 0) == [];
  }

  /** A checkpoint that was at rest, with a generation of one row pending. */
  function Holding(l: Local, k: Key, row: Row, m: Manifest, base: Option<Pointer>): Local
  {
    var d := OneRow(k, l.revision + 1, row);
    l.(changes := map[k := Some(RowHash(row))], revision := l.revision + 1, pending := Some(Pending(m, base)),
       spool := map[d := d.of])
  }

  lemma OneChange(index: map<Key, RowHash>, k: Key, rows: map<Key, Row>)
    requires OnlyDiffers(index, rows, k)
    ensures ChangesOf(index, rows) == map[k := Some(RowHash(rows[k]))]
  {
    assert k in index.Keys + rows.Keys && Differs(index, rows, k);
  }

  const P0: Option<Pointer> := Some(Pointer(0, 1))
  const D0: Digest := OneRow(K0, 1, [1])
  const M0: Manifest := Manifest(0, 1, None, [D0])
  const R0: Remote := Remote(map[D0 := D0.of], map[0 := M0], P0)

  /** The first generation is published; a second process remembers it as pending. */
  lemma FirstPhase() returns (steps: seq<SharedStep>)
    ensures var rows := map[K0 := [1]];
            RunShared(Shared(Lone(Remote(map[], map[], None), History([], None, map[]), 0,
                                  Publisher(SourceOf(rows), Rested(map[], 0, None), Down)), map[]), steps) ==
            Shared(Lone(R0, History([0], Some(0), map[0 := SourceOf(rows)]), 1,
                        Publisher(SourceOf(rows), Rested(map[K0 := RowHash([1])], 1, Some(0)), Idle(P0))),
                   map[0 := Pending(M0, None)])
  {
    hide RunShared, Act, Apply;
    var rows := map[K0 := [1]];
    var src, l := SourceOf(rows), Rested(map[], 0, None);
    var r, h := Remote(map[], map[], None), History([], None, map[]);
    var s0 := Shared(Lone(r, h, 0, Publisher(src, l, Down)), map[]);
    var s1 := s0.(sys := Lone(r, h, 0, Publisher(src, l, Idle(None))));
    RunShared1(s0, Own(Construct(0)));
    LoneApply(r, h, 0, Publisher(src, l, Down), Construct(0));
    ConstructFirst(r, h, src, l);
    assert RunShared(s0, [Own(Construct(0))]) == s1;
    StageOneRow(s1, r, h, 0, l, K0, rows);
    var h1 := h.(snaps := map[0 := src]);
    var b := Publisher(src, Holding(l, K0, [1], M0, None), Uploading(None, 0));
    var s2 := Shared(Lone(r, h1, 1, b), map[]);
    assert RunShared(s1, StagingSteps([D0])) == s2;
    RunShared1(s2, Remember(0));
    var s3 := s2.(kept := map[0 := Pending(M0, None)]);
    assert RunShared(s2, [Remember(0)]) == s3;
    SwappingRun(s3, r, h1, 1, b, M0, D0);
    var h2 := h1.(chain := [0], owner := Some(0));
    var s4 := s3.(sys := Lone(R0, h2, 1, b.(process := Finalizing(P0))));
    assert RunShared(s3, SwappingSteps()) == s4;
    RunShared1(s4, Own(Finalize(0)));
    LoneApply(R0, h2, 1, b.(process := Finalizing(P0)), Finalize(0));
    FinalizeFirst(R0, h2, b.(process := Finalizing(P0)));
    steps := [Own(Construct(0))] + StagingSteps([D0]) + [Remember(0)] + SwappingSteps() + [Own(Finalize(0))];
    RunSharedConcat(s0, [Own(Construct(0))], StagingSteps([D0]));
    RunSharedConcat(s0, [Own(Construct(0))] + StagingSteps([D0]), [Remember(0)]);
    RunSharedConcat(s0, [Own(Construct(0))] + StagingSteps([D0]) + [Remember(0)], SwappingSteps());
    RunSharedConcat(s0, [Own(Construct(0))] + StagingSteps([D0]) + [Remember(0)] + SwappingSteps(), [Own(Finalize(0))]);
  }

  lemma ConstructFirst(r: Remote, h: History, src: Source, l: Local)
    requires r.latest.None? && l.generation.None?
    ensures Act(r, h, 0, Publisher(src, l, Down), Construct(0)) == (r, h, 0, Publisher(src, l, Idle(None)))
  {
  }

  lemma FinalizeFirst(r: Remote, h: History, b: Publisher)
    requires b.process == Finalizing(P0) && b.local == Holding(Rested(map[], 0, None), K0, [1], M0, None)
    ensures Act(r, h, 1, b, Finalize(0)) ==
            (r, h, 1, b.(local := Rested(map[K0 := RowHash([1])], 1, Some(0)), process := Idle(P0)))
  {
    assert Applied(map[], map[K0 := Some(RowHash([1]))]) == map[K0 := RowHash([1])];
  }

  const D1: Digest := OneRow(K0, 2, [2])
  const M1: Manifest := Manifest(1, 2, Some(0), [D1])
  const S1: Source := SourceOf(map[K0 := [1]])
  const S2: Source := SourceOf(map[K0 := [2]])

  /** The row changes, the next generation is staged and its process crashes; the second process
      finalises by the record it remembers. The index has the new row, which nobody published. */
  lemma SecondPhase() returns (steps: seq<SharedStep>)
    ensures var h := History([0], Some(0), map[0 := S1]);
            RunShared(Shared(Lone(R0, h, 1, Publisher(S1, Rested(map[K0 := RowHash([1])], 1, Some(0)), Idle(P0))),
                             map[0 := Pending(M0, None)]), steps) ==
            Shared(Lone(R0, h.(snaps := h.snaps[1 := S2]), 2,
                        Publisher(S2, Rested(map[K0 := RowHash([2])], 2, Some(0)), Idle(P0))), map[])
  {
    hide RunShared, Act, Apply;
    var h, l := History([0], Some(0), map[0 := S1]), Rested(map[K0 := RowHash([1])], 1, Some(0));
    var kept := map[0 := Pending(M0, None)];
    var s0 := Shared(Lone(R0, h, 1, Publisher(S1, l, Idle(P0))), kept);
    LoneApply(R0, h, 1, Publisher(S1, l, Idle(P0)), Change(0, S2));
    ChangeRows(R0, h, 1, Publisher(S1, l, Idle(P0)), map[K0 := [2]]);
    RunShared1(s0, Own(Change(0, S2)));
    var s1 := s0.(sys := Lone(R0, h, 1, Publisher(S2, l, Idle(P0))));
    assert RunShared(s0, [Own(Change(0, S2))]) == s1;
    StageOneRow(s1, R0, h, 1, l, K0, map[K0 := [2]]);
    var h1, held := h.(snaps := h.snaps[1 := S2]), Holding(l, K0, [2], M1, P0);
    var s2 := Shared(Lone(R0, h1, 2, Publisher(S2, held, Uploading(P0, 0))), kept);
    assert RunShared(s1, StagingSteps([D1])) == s2;
    LoneApply(R0, h1, 2, Publisher(S2, held, Uploading(P0, 0)), Crash(0));
    CrashDown(R0, h1, 2, Publisher(S2, held, Uploading(P0, 0)));
    RunShared1(s2, Own(Crash(0)));
    var s3 := s2.(sys := Lone(R0, h1, 2, Publisher(S2, held, Down)));
    assert RunShared(s2, [Own(Crash(0))]) == s3;
    RunShared1(s3, FinalizeKept(0));
    FinalizeSecond(s3, R0, h1);
    steps := [Own(Change(0, S2))] + StagingSteps([D1]) + [Own(Crash(0))] + [FinalizeKept(0)];
    RunSharedConcat(s0, [Own(Change(0, S2))], StagingSteps([D1]));
    RunSharedConcat(s0, [Own(Change(0, S2))] + StagingSteps([D1]), [Own(Crash(0))]);
    RunSharedConcat(s0, [Own(Change(0, S2))] + StagingSteps([D1]) + [Own(Crash(0))], [FinalizeKept(0)]);
  }

  lemma ChangeRows(r: Remote, h: History, next: Gen, b: Publisher, rows: map<Key, Row>)
    requires b.source.events == [] && b.source.logs == map[]
    ensures Act(r, h, next, b, Change(0, SourceOf(rows))) == (r, h, next, b.(source := SourceOf(rows)))
  {
  }

  lemma CrashDown(r: Remote, h: History, next: Gen, b: Publisher)
    ensures Act(r, h, next, b, Crash(0)) == (r, h, next, b.(process := Down))
  {
  }

  lemma FinalizeSecond(s: Shared, r: Remote, h: History)
    requires r.latest == P0
    requires var l := Rested(map[K0 := RowHash([1])], 1, Some(0));
             s == Shared(Lone(r, h, 2, Publisher(S2, Holding(l, K0, [2], M1, P0), Down)), map[0 := Pending(M0, None)])
    ensures ApplyShared(s, FinalizeKept(0)) ==
            Shared(Lone(r, h, 2, Publisher(S2, Rested(map[K0 := RowHash([2])], 2, Some(0)), Idle(P0))), map[])
  {
    assert Applied(map[K0 := RowHash([1])], map[K0 := Some(RowHash([2]))]) == map[K0 := RowHash([2])];
    var l := Rested(map[K0 := RowHash([1])], 1, Some(0));
    var b' := Publisher(S2, Rested(map[K0 := RowHash([2])], 2, Some(0)), Idle(P0));
    assert FinalizedBy(Holding(l, K0, [2], M1, P0), 0) == b'.local;
    assert s.sys.pubs[0 := b'] == map[0 := b'];
    assert s.kept - {0} == map[];
  }

  const D2: Digest := OneRow(K1, 3, [3])
  const M2: Manifest := Manifest(2, 3, Some(0), [D2])
  const S3: Source := SourceOf(map[K0 := [2], K1 := [3]])
  const R2: Remote := Remote(R0.objects[D2 := D2.of], R0.manifests[2 := M2], Some(Pointer(2, 3)))

  /** A further row appears and a further generation is published, without the row that changed. */
  lemma ThirdPhase() returns (steps: seq<SharedStep>)
    ensures var h := History([0], Some(0), map[0 := S1, 1 := S2]);
            var s := RunShared(Shared(Lone(R0, h, 2, Publisher(S2, Rested(map[K0 := RowHash([2])], 2, Some(0)), Idle(P0))), map[]), steps);
            s.sys.remote == R2 && s.sys.hist == History([0, 2], Some(0), map[0 := S1, 1 := S2, 2 := S3])
  {
    hide RunShared, Act, Apply;
    var h, l := History([0], Some(0), map[0 := S1, 1 := S2]), Rested(map[K0 := RowHash([2])], 2, Some(0));
    var rows := map[K0 := [2], K1 := [3]];
    var s0 := Shared(Lone(R0, h, 2, Publisher(S2, l, Idle(P0))), map[]);
    LoneApply(R0, h, 2, Publisher(S2, l, Idle(P0)), Change(0, S3));
    ChangeRows(R0, h, 2, Publisher(S2, l, Idle(P0)), rows);
    RunShared1(s0, Own(Change(0, S3)));
    var s1 := s0.(sys := Lone(R0, h, 2, Publisher(S3, l, Idle(P0))));
    assert RunShared(s0, [Own(Change(0, S3))]) == s1;
    StageOneRow(s1, R0, h, 2, l, K1, rows);
    var h1, b := h.(snaps := h.snaps[2 := S3]), Publisher(S3, Holding(l, K1, [3], M2, P0), Uploading(P0, 0));
    var s2 := Shared(Lone(R0, h1, 3, b), map[]);
    assert RunShared(s1, StagingSteps([D2])) == s2;
    SwappingRun(s2, R0, h1, 3, b, M2, D2);
    steps := [Own(Change(0, S3))] + StagingSteps([D2]) + SwappingSteps();
    RunSharedConcat(s0, [Own(Change(0, S3))], StagingSteps([D2]));
    RunSharedConcat(s0, [Own(Change(0, S3))] + StagingSteps([D2]), SwappingSteps());
    assert [0] + [2] == [0, 2];
  }

  /** From a fresh start, two processes on one checkpoint can reach a state in which the newest
      generation's view is not the snapshot it was scanned from. */
  lemma StaleFinalizeBreaks() returns (start: System, steps: seq<SharedStep>)
    ensures Initial(start)
    ensures var t := RunShared(Shared(start, map[]), steps).sys; var chain := t.hist.chain;
            chain != [] && chain[|chain| - 1] in t.hist.snaps && ParentsStored(t.remote, chain) &&
            !LatestView(ChainRecords(t.remote, chain), t.hist.snaps[chain[|chain| - 1]].rows)
  {
    hide RunShared, LatestView;
    start := Lone(Remote(map[], map[], None), History([], None, map[]), 0, Publisher(S1, Rested(map[], 0, None), Down));
    var a := FirstPhase();
    var b := SecondPhase();
    var c := ThirdPhase();
    steps := a + b + c;
    RunSharedConcat(Shared(start, map[]), a, b);
    RunSharedConcat(Shared(start, map[]), a + b, c);
    assert map[0 := S1][1 := S2] == map[0 := S1, 1 := S2];
    ViewMisses();
  }

  /** The generation published last is named, and its parents are all stored. */
  predicate ParentsStored(r: Remote, chain: seq<Gen>)
  {
    chain != [] && r.latest.Some? && r.latest.value.gen == chain[|chain| - 1] &&
    forall i :: 0 <= i < |chain| ==> chain[i] in r.manifests && r.manifests[chain[i]].parent == Head(chain[..i])
  }

  /** Readers still see the row as it was before it changed. */
  lemma ViewMisses()
    ensures ParentsStored(R2, [0, 2]) && !LatestView(ChainRecords(R2, [0, 2]), S3.rows)
  {
    hide ChainRecords, LatestView;
    assert [0, 2][..1] == [0] && [0, 2][..0] == [];
    RecordsRead();
    OldRowLatest(ChainRecords(R2, [0, 2]), S3.rows);
  }

  lemma RecordsRead()
    ensures ChainRecords(R2, [0, 2]) == [Record(K0, 1, Some([1])), Record(K1, 3, Some([3]))]
  {
    hide ChainRecords, RecordsOf, ChainRows, ChainEvents, Replay;
    OneFile(D0);
    OneFile(D2);
    RecordsExtend(R2, [], 0);
    RecordsExtend(R2, [0], 2);
    assert [] + [0] == [0] && [0] + [2] == [0, 2];
    NoRecords(R2);
  }

  lemma RecordsExtend(r: Remote, chain: seq<Gen>, g: Gen)
    ensures ChainRecords(r, chain + [g]) == ChainRecords(r, chain) + RecordsOf(FilesOf(r, g))
  {
    ChainExtends(r, chain, g);
  }

  lemma NoRecords(r: Remote)
    ensures ChainRecords(r, []) == []
  {
  }

  lemma OldRowLatest(records: seq<Record>, rows: map<Key, Row>)
    requires records == [Record(K0, 1, Some([1])), Record(K1, 3, Some([3]))] && K0 in rows && rows[K0] != [1]
    ensures !LatestView(records, rows)
  {
    assert Latest(records, 0);
  }
}
