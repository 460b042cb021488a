/** What every reachable state of the publication protocol satisfies. */
module PublisherSafety {
  import opened Wrappers
  import opened PublisherRecords
  import opened PublisherData
  import opened PublisherProtocol

  // ----- Chains of generations -----

  function FilesOf(r: Remote, g: Gen): seq<Digest>
  {
    if g in r.manifests then r.manifests[g].files else []
  }

  /** All records of a chain, oldest generation first. */
  function ChainRecords(r: Remote, chain: seq<Gen>): seq<Record>
  {
    if chain == [] then []
    else ChainRecords(r, chain[..|chain| - 1]) + RecordsOf(FilesOf(r, chain[|chain| - 1]))
  }

  function ChainEvents(r: Remote, chain: seq<Gen>): seq<Event>
  {
    if chain == [] then []
    else ChainEvents(r, chain[..|chain| - 1]) + EventsOf(FilesOf(r, chain[|chain| - 1]))
  }

  /** All records of one log stream in a chain, oldest generation first. */
  function ChainLogs(r: Remote, chain: seq<Gen>, s: Stream): seq<LogRecord>
  {
    if chain == [] then []
    else ChainLogs(r, chain[..|chain| - 1], s) + LogsOf(FilesOf(r, chain[|chain| - 1]), s)
  }

  /** The tables that replaying a chain rebuilds. */
  function ChainRows(r: Remote, chain: seq<Gen>): map<Key, Row>
  {
    Replay(map[], ChainRecords(r, chain))
  }

  function Head(chain: seq<Gen>): Option<Gen>
  {
    if chain == [] then None else Some(chain[|chain| - 1])
  }

  function PointerTo(chain: seq<Gen>): Option<Pointer>
  {
    if chain == [] then None else Some(Pointer(chain[|chain| - 1], |chain|))
  }

  lemma {:induction false} ChainSame(r: Remote, r': Remote, chain: seq<Gen>)
    requires forall g :: g in chain ==> FilesOf(r, g) == FilesOf(r', g)
    ensures ChainRecords(r, chain) == ChainRecords(r', chain)
    ensures ChainEvents(r, chain) == ChainEvents(r', chain)
    ensures ChainRows(r, chain) == ChainRows(r', chain)
  {
    if chain != [] {
      ChainSame(r, r', chain[..|chain| - 1]);
      assert chain[|chain| - 1] in chain;
    }
  }

  lemma ChainExtends(r: Remote, chain: seq<Gen>, g: Gen)
    ensures ChainRecords(r, chain + [g]) == ChainRecords(r, chain) + RecordsOf(FilesOf(r, g))
    ensures ChainEvents(r, chain + [g]) == ChainEvents(r, chain) + EventsOf(FilesOf(r, g))
    ensures ChainRows(r, chain + [g]) == Replay(ChainRows(r, chain), RecordsOf(FilesOf(r, g)))
  {
    assert (chain + [g])[..|chain|] == chain;
    ReplayConcat(map[], ChainRecords(r, chain), RecordsOf(FilesOf(r, g)));
  }

  lemma {:induction false} ChainLogsSame(r: Remote, r': Remote, chain: seq<Gen>, s: Stream)
    requires forall g :: g in chain ==> FilesOf(r, g) == FilesOf(r', g)
    ensures ChainLogs(r, chain, s) == ChainLogs(r', chain, s)
  {
    if chain != [] {
      ChainLogsSame(r, r', chain[..|chain| - 1], s);
      assert chain[|chain| - 1] in chain;
    }
  }

  // ----- The invariant -----

  /** A generation of the chain is complete: its manifest is stored under its id, continues the
      generation before it, and every object it lists is stored with its digest. */
  predicate GenerationStored(r: Remote, chain: seq<Gen>, i: nat)
    requires i < |chain|
  {
    chain[i] in r.manifests &&
    var m := r.manifests[chain[i]];
    m.gen == chain[i] && m.rev == i + 1 && m.parent == Head(chain[..i]) &&
    forall d :: d in m.files ==> d in r.objects && r.objects[d] == d.of
  }

  predicate ChainStored(r: Remote, chain: seq<Gen>)
  {
    r.latest == PointerTo(chain) && forall i :: 0 <= i < |chain| ==> GenerationStored(r, chain, i)
  }

  /** Each generation brings the rebuilt tables and events to the snapshot it was scanned from. */
  predicate GenerationFaithful(r: Remote, h: History, i: nat)
    requires i < |h.chain|
  {
    var g := h.chain[i];
    g in h.snaps &&
    ChainRows(r, h.chain[..i + 1]) == h.snaps[g].rows &&
    ChainEvents(r, h.chain[..i + 1]) == h.snaps[g].events &&
    var records := RecordsOf(FilesOf(r, g));
    DistinctKeys(records) && forall j :: 0 <= j < |records| ==> records[j].rev == i + 1
  }

  predicate StoreOk(r: Remote, h: History, next: Gen)
  {
    (forall d :: d in r.objects ==> r.objects[d] == d.of) &&
    (forall g :: g in r.manifests ==> g < next) &&
    (forall g :: g in h.snaps ==> g < next) &&
    ChainStored(r, h.chain) && (h.owner.None? <==> h.chain == []) &&
    forall i :: 0 <= i < |h.chain| ==> GenerationFaithful(r, h, i)
  }

  /** The generations a publisher's index stands for: none unless it owns the chain, and not the
      last one while its own checkpoint still holds that as pending. */
  function Finished(h: History, p: nat, l: Local): seq<Gen>
  {
    if h.owner != Some(p) then []
    else if h.chain != [] && l.pending.Some? && l.pending.value.manifest.gen == h.chain[|h.chain| - 1] then
      h.chain[..|h.chain| - 1]
    else h.chain
  }

  /** A pending generation continues what is finished and carries exactly what its scan found. */
  ghost predicate PendingOk(r: Remote, h: History, next: Gen, p: nat, b: Publisher)
    requires b.local.pending.Some?
  {
    var l, pd, m := b.local, b.local.pending.value, b.local.pending.value.manifest;
    var done := Finished(h, p, l);
    m.gen < next && m.rev == |done| + 1 == l.revision && m.parent == Head(done) && pd.base == PointerTo(done) &&
    m.gen in h.snaps && m.files != [] &&
    var snap := h.snaps[m.gen];
    CarriesDelta(RecordsOf(m.files), m.rev, l.index, snap.rows) && l.changes == ChangesOf(l.index, snap.rows) &&
    ChainEvents(r, done) + EventsOf(m.files) == snap.events && l.eventsSeq == LastSeq(snap.events) &&
    snap.events <= b.source.events &&
    (m.gen in r.manifests ==> r.manifests[m.gen] == m) &&
    (m.gen in h.chain ==> h.owner == Some(p) && Some(m.gen) == Head(h.chain))
  }

  ghost predicate LocalOk(r: Remote, h: History, next: Gen, p: nat, b: Publisher)
  {
    var l := b.local;
    var done := Finished(h, p, l);
    Increasing(b.source.events) && Indexes(l.index, ChainRows(r, done)) &&
    l.generation == Head(done) && l.remoteSeen == (done != []) &&
    if l.pending.Some? then PendingOk(r, h, next, p, b)
    else
      l.revision == |done| && l.changes == map[] &&
      l.eventsSeq == LastSeq(ChainEvents(r, done)) && ChainEvents(r, done) <= b.source.events
  }

  ghost predicate ProcessOk(r: Remote, h: History, p: nat, b: Publisher)
  {
    var l := b.local;
    match b.process
    case Down => true
    case Idle(_) => true
    case Scanning(_, snap) => SnapOk(r, h, p, l, snap, b.source)
    case Based(_, snap, base) =>
      SnapOk(r, h, p, l, snap, b.source) && (h.owner == Some(p) ==> base == r.latest)
    case Uploading(_, done) => l.pending.Some? && FilesStored(r, l.pending.value.manifest.files, done)
    case Manifested(_) =>
      l.pending.Some? && var m := l.pending.value.manifest;
      m.gen in r.manifests && r.manifests[m.gen] == m && FilesStored(r, m.files, |m.files|)
    case Finalizing(etag) =>
      l.pending.Some? && h.owner == Some(p) && h.chain != [] && etag == r.latest &&
      l.pending.value.manifest.gen == h.chain[|h.chain| - 1]
  }

  ghost predicate SnapOk(r: Remote, h: History, p: nat, l: Local, snap: Source, source: Source)
  {
    l.pending.None? && Increasing(snap.events) && snap.events <= source.events &&
    ChainEvents(r, Finished(h, p, l)) <= snap.events
  }

  predicate FilesStored(r: Remote, files: seq<Digest>, n: nat)
  {
    n <= |files| && forall i :: 0 <= i < n ==> files[i] in r.objects && r.objects[files[i]] == files[i].of
  }

  function PendingFiles(l: Local): seq<Digest>
  {
    if l.pending.Some? then l.pending.value.manifest.files else []
  }

  /** The records of every stream in some generations and some further objects tile its log from
      the first byte to its cursor; a stream without a cursor has none. */
  ghost predicate LogsStand(r: Remote, done: seq<Gen>, files: seq<Digest>, cursor: map<Stream, nat>, logs: map<Stream, seq<Byte>>)
  {
    cursor.Keys <= logs.Keys &&
    (forall s :: s in cursor ==>
       cursor[s] <= |logs[s]| && Tiles(logs[s], ChainLogs(r, done, s) + LogsOf(files, s), 0, cursor[s])) &&
    forall s :: s !in cursor ==> ChainLogs(r, done, s) + LogsOf(files, s) == []
  }

  /** What is finished and what is pending together account for every log up to its cursor. */
  ghost predicate LogsOk(r: Remote, h: History, p: nat, b: Publisher)
  {
    LogsStand(r, Finished(h, p, b.local), PendingFiles(b.local), b.local.cursor, b.source.logs)
  }

  ghost predicate PublisherOk(r: Remote, h: History, next: Gen, p: nat, b: Publisher)
  {
    LocalOk(r, h, next, p, b) && ProcessOk(r, h, p, b) && LogsOk(r, h, p, b)
  }

  predicate Apart(a: Option<Pending>, b: Option<Pending>)
  {
    a.Some? && b.Some? ==> a.value.manifest.gen != b.value.manifest.gen
  }

  /** No two publishers have the same generation pending. */
  predicate PendingApart(pubs: map<nat, Publisher>)
  {
    forall p, q :: p in pubs && q in pubs && p != q ==> Apart(pubs[p].local.pending, pubs[q].local.pending)
  }

  ghost predicate Inv(s: System)
  {
    StoreOk(s.remote, s.hist, s.nextGen) && PendingApart(s.pubs) &&
    (s.hist.owner.Some? ==> s.hist.owner.value in s.pubs) &&
    forall p :: p in s.pubs ==> PublisherOk(s.remote, s.hist, s.nextGen, p, s.pubs[p])
  }

  lemma InitialOk(s: System)
    requires Initial(s)
    ensures Inv(s)
  {
    forall p | p in s.pubs ensures PublisherOk(s.remote, s.hist, s.nextGen, p, s.pubs[p]) {
      assert ChainRecords(s.remote, []) == [];
      assert forall t :: ChainLogs(s.remote, [], t) + LogsOf([], t) == [];
    }
  }

  // ----- What keeps the logs tiled -----

  /** Logs that grow stay tiled up to the same cursors. */
  lemma LogsUnchanged(r: Remote, h: History, next: Gen, r': Remote, h': History, p: nat, b: Publisher, b': Publisher)
    requires StoreOk(r, h, next) && LogsOk(r, h, p, b)
    requires forall g :: g in r.manifests ==> g in r'.manifests && r'.manifests[g] == r.manifests[g]
    requires Finished(h', p, b'.local) == Finished(h, p, b.local) && PendingFiles(b'.local) == PendingFiles(b.local)
    requires b'.local.cursor == b.local.cursor && LogsGrow(b.source.logs, b'.source.logs)
    ensures LogsOk(r', h', p, b')
  {
    hide ChainLogs, LogsOf, Tiles, StoreOk;
    var done, files, cursor := Finished(h, p, b.local), PendingFiles(b.local), b.local.cursor;
    FinishedStored(r, h, next, p, b.local);
    forall s ensures ChainLogs(r, done, s) == ChainLogs(r', done, s) { ChainLogsSame(r, r', done, s); }
    forall s | s in cursor
      ensures cursor[s] <= |b'.source.logs[s]| && Tiles(b'.source.logs[s], ChainLogs(r', done, s) + LogsOf(files, s), 0, cursor[s])
    {
      TilesGrow(b.source.logs[s], b'.source.logs[s], ChainLogs(r, done, s) + LogsOf(files, s), 0, cursor[s]);
    }
  }

  /** Staging what a scan found of the logs moves the cursors past it. */
  lemma LogsStaged(r: Remote, done: seq<Gen>, files: seq<Digest>, before: map<Stream, nat>, after: map<Stream, nat>,
                   logs: map<Stream, seq<Byte>>)
    requires LogsStand(r, done, [], before, logs) && LogsFound(files, before, after, logs)
    ensures LogsStand(r, done, files, after, logs)
  {
    hide ChainLogs, Tiles;
    forall s ensures ChainLogs(r, done, s) + LogsOf([], s) == ChainLogs(r, done, s) {}
    forall s | s in after ensures Tiles(logs[s], ChainLogs(r, done, s) + LogsOf(files, s), 0, after[s]) {
      NothingCut(logs[s], 0);
      TilesConcat(logs[s], ChainLogs(r, done, s), LogsOf(files, s), 0, PositionIn(before, s), after[s]);
    }
  }

  /** A pending generation that is finished has its records in the chain. */
  lemma LogsFinished(r: Remote, done: seq<Gen>, g: Gen, cursor: map<Stream, nat>, logs: map<Stream, seq<Byte>>)
    requires LogsStand(r, done, FilesOf(r, g), cursor, logs)
    ensures LogsStand(r, done + [g], [], cursor, logs)
  {
    hide Tiles;
    forall s ensures ChainLogs(r, done + [g], s) + LogsOf([], s) == ChainLogs(r, done, s) + LogsOf(FilesOf(r, g), s) {
      assert (done + [g])[..|done|] == done;
    }
  }

  // ----- Steps that leave the store and the history alone -----

  /** Steps that only move one process, its source or its spool. */
  predicate Private(step: Step)
  {
    step.Change? || step.Damage? || step.Crash? || step.Abort? || step.Construct? || step.Scan? || step.ReadBase? || step.Resume?
  }

  lemma LogsGrowSelf(logs: map<Stream, seq<Byte>>)
    ensures LogsGrow(logs, logs)
  {
  }

  /** A publisher's checkpoint is in order whatever its process does. */
  lemma SameLocal(r: Remote, h: History, next: Gen, p: nat, b: Publisher, b': Publisher)
    requires LocalOk(r, h, next, p, b) && LogsOk(r, h, p, b) && b'.local == b.local && b'.source == b.source
    ensures LocalOk(r, h, next, p, b') && LogsOk(r, h, p, b')
  {
    hide ChainRecords, ChainEvents, ChainRows, CarriesDelta, RecordsOf, EventsOf, Indexes, Increasing, ChangesOf, LogsStand;
    if b.local.pending.Some? { assert PendingOk(r, h, next, p, b'); }
  }

  lemma ProcessMoves(r: Remote, h: History, next: Gen, p: nat, b: Publisher, b': Publisher)
    requires PublisherOk(r, h, next, p, b) && b'.local == b.local && b'.source == b.source
    requires b'.process == b.process || b'.process.Idle? || b'.process.Down? || ProcessOk(r, h, p, b')
    ensures PublisherOk(r, h, next, p, b')
  {
    hide LocalOk, LogsOk, SnapOk, FilesStored;
    SameLocal(r, h, next, p, b, b');
  }

  /** The source moves on. */
  lemma ChangeKeeps(r: Remote, h: History, next: Gen, p: nat, b: Publisher, source: Source)
    requires StoreOk(r, h, next) && PublisherOk(r, h, next, p, b)
    requires Increasing(source.events) && b.source.events <= source.events && LogsGrow(b.source.logs, source.logs)
    ensures PublisherOk(r, h, next, p, b.(source := source))
  {
    hide ChainRecords, ChainEvents, ChainRows, CarriesDelta, RecordsOf, EventsOf, LogsOk, Indexes, ChangesOf, StoreOk, LogsGrow;
    var b' := b.(source := source);
    LogsUnchanged(r, h, next, r, h, p, b, b');
    if b.local.pending.Some? {
      assert PendingOk(r, h, next, p, b);
      assert PendingOk(r, h, next, p, b');
    }
  }

  lemma DamageKeeps(r: Remote, h: History, next: Gen, p: nat, b: Publisher, spool: map<Digest, Part>)
    requires PublisherOk(r, h, next, p, b)
    ensures PublisherOk(r, h, next, p, b.(local := b.local.(spool := spool)))
  {
    hide ChainRecords, ChainEvents, ChainRows, CarriesDelta, RecordsOf, EventsOf, Indexes, ChangesOf, LogsStand;
    var b' := b.(local := b.local.(spool := spool));
    if b.local.pending.Some? {
      assert PendingOk(r, h, next, p, b);
      assert PendingOk(r, h, next, p, b');
    }
  }

  /** A scan that begins sees everything staged before. */
  lemma ScanBegins(r: Remote, h: History, next: Gen, p: nat, b: Publisher)
    requires LocalOk(r, h, next, p, b) && b.local.pending.None?
    ensures SnapOk(r, h, p, b.local, b.source, b.source)
  {
  }

  /** A resumed generation that is the published head is the owner's. */
  lemma ResumeOwns(r: Remote, h: History, next: Gen, p: nat, b: Publisher)
    requires StoreOk(r, h, next) && LocalOk(r, h, next, p, b) && b.local.pending.Some?
    requires r.latest.Some? && r.latest.value.gen == b.local.pending.value.manifest.gen
    ensures h.owner == Some(p) && h.chain != [] && b.local.pending.value.manifest.gen == h.chain[|h.chain| - 1]
  {
    hide ChainRecords, ChainEvents, ChainRows, CarriesDelta, RecordsOf, EventsOf, Indexes, ChangesOf, GenerationFaithful;
    assert PendingOk(r, h, next, p, b);
  }

  lemma PrivateKeeps(r: Remote, h: History, next: Gen, p: nat, b: Publisher, step: Step)
    requires Private(step) && StoreOk(r, h, next) && PublisherOk(r, h, next, p, b)
    ensures var (r', h', next', b') := Act(r, h, next, b, step);
            r' == r && h' == h && next' == next && b'.local.pending == b.local.pending &&
            PublisherOk(r, h, next, p, b')
  {
    hide StoreOk, LocalOk, LogsOk, Increasing, LogsGrow, SnapOk;
    var (r', h', next', b') := Act(r, h, next, b, step);
    match step
    case Change(_, source) =>
      if b' != b { ChangeKeeps(r, h, next, p, b, source); }
    case Damage(_, spool) => DamageKeeps(r, h, next, p, b, spool);
    case _ =>
      if b.local.pending.None? { ScanBegins(r, h, next, p, b); }
      if b'.process.Finalizing? && b'.process != b.process { ResumeOwns(r, h, next, p, b); }
      ProcessMoves(r, h, next, p, b, b');
  }

  // ----- Steps that change the store or the history -----

  /** How the store and the history grow: nothing stored is altered or removed. */
  ghost predicate Grows(r: Remote, h: History, next: Gen, r': Remote, h': History, next': Gen)
  {
    (forall d :: d in r.objects ==> d in r'.objects && r'.objects[d] == r.objects[d]) &&
    (forall g :: g in r.manifests ==> g in r'.manifests && r'.manifests[g] == r.manifests[g]) &&
    (forall g :: g in h.snaps ==> g in h'.snaps && h'.snaps[g] == h.snaps[g]) && next <= next' &&
    h.chain <= h'.chain
  }

  /** Whether what grew leaves a publisher alone: no new manifest is its pending one, and the
      chain is not its own unless it stays as it is. */
  ghost predicate Unconcerned(r: Remote, h: History, r': Remote, h': History, q: nat, c: Publisher)
  {
    ((h'.chain == h.chain && h'.owner == h.owner && r'.latest == r.latest) ||
     (h.owner != Some(q) && h'.owner != Some(q))) &&
    (c.local.pending.Some? ==>
       var g := c.local.pending.value.manifest.gen;
       (g in r'.manifests ==> g in r.manifests) && (g in h'.chain ==> g in h.chain))
  }

  lemma OtherKeeps(r: Remote, h: History, next: Gen, r': Remote, h': History, next': Gen, q: nat, c: Publisher)
    requires StoreOk(r, h, next) && PublisherOk(r, h, next, q, c)
    requires Grows(r, h, next, r', h', next') && Unconcerned(r, h, r', h', q, c)
    ensures PublisherOk(r', h', next', q, c)
  {
    hide ChainRecords, ChainEvents, ChainRows, CarriesDelta, RecordsOf, EventsOf, ChangesOf, Indexes, Increasing, LogsOk;
    var done := Finished(h, q, c.local);
    assert Finished(h', q, c.local) == done;
    LogsGrowSelf(c.source.logs);
    LogsUnchanged(r, h, next, r', h', q, c, c);
    FinishedStored(r, h, next, q, c.local);
    ChainSame(r, r', done);
    if c.local.pending.Some? {
      assert PendingOk(r, h, next, q, c);
      assert PendingOk(r', h', next', q, c);
    }
    assert LocalOk(r', h', next', q, c);
  }

  /** Finished generations are stored. */
  lemma FinishedStored(r: Remote, h: History, next: Gen, p: nat, l: Local)
    requires StoreOk(r, h, next)
    ensures forall g :: g in Finished(h, p, l) ==> g in h.chain && g in r.manifests
  {
    forall g | g in h.chain ensures g in r.manifests {
      var i :| 0 <= i < |h.chain| && h.chain[i] == g;
      assert GenerationStored(r, h.chain, i);
    }
  }

  /** Generations already in the chain stay stored and faithful as the store grows. */
  lemma ChainKeeps(r: Remote, h: History, next: Gen, r': Remote, h': History, next': Gen)
    requires StoreOk(r, h, next) && Grows(r, h, next, r', h', next')
    ensures forall i :: 0 <= i < |h.chain| ==> GenerationStored(r', h'.chain, i) && GenerationFaithful(r', h', i)
  {
    hide ChainRecords, ChainEvents, ChainRows, RecordsOf;
    forall i | 0 <= i < |h.chain| ensures GenerationStored(r', h'.chain, i) && GenerationFaithful(r', h', i) {
      assert GenerationStored(r, h.chain, i) && GenerationFaithful(r, h, i);
      assert h'.chain[..i] == h.chain[..i] && h'.chain[..i + 1] == h.chain[..i + 1];
      forall g | g in h.chain[..i + 1] ensures FilesOf(r, g) == FilesOf(r', g) {
        var j :| 0 <= j < i + 1 && h.chain[j] == g;
        assert GenerationStored(r, h.chain, j);
      }
      assert h.chain[i] in h.chain[..i + 1];
      ChainSame(r, r', h.chain[..i + 1]);
    }
  }

  lemma UploadKeeps(r: Remote, h: History, next: Gen, p: nat, b: Publisher)
    requires StoreOk(r, h, next) && PublisherOk(r, h, next, p, b)
    ensures var (r', h', next', b') := Act(r, h, next, b, Upload(p));
            StoreOk(r', h', next') && Grows(r, h, next, r', h', next') && r'.manifests == r.manifests &&
            h' == h && r'.latest == r.latest && b'.local == b.local && PublisherOk(r', h', next', p, b')
  {
    hide StoreOk, LocalOk, LogsOk;
    var (r', h', next', b') := Act(r, h, next, b, Upload(p));
    assert Grows(r, h, next, r', h', next') by { ObjectAdded(r, h, next, b); }
    StoredMore(r, h, next, r');
    OtherKeeps(r, h, next, r', h', next', p, b);
    SameLocal(r', h', next', p, b, b');
    if b.process.Uploading? && r' != r {
      var files := b.local.pending.value.manifest.files;
      assert FilesStored(r', files, b.process.done + 1);
    }
  }

  lemma ObjectAdded(r: Remote, h: History, next: Gen, b: Publisher)
    requires StoreOk(r, h, next)
    ensures var (r', h', next', _) := Act(r, h, next, b, Upload(0)); Grows(r, h, next, r', h', next')
  {
    hide GenerationStored, GenerationFaithful;
  }

  /** One more object leaves the store in order. */
  lemma StoredMore(r: Remote, h: History, next: Gen, r': Remote)
    requires StoreOk(r, h, next) && Grows(r, h, next, r', h, next) && r'.manifests == r.manifests && r'.latest == r.latest
    requires forall d :: d in r'.objects ==> d in r.objects || r'.objects[d] == d.of
    ensures StoreOk(r', h, next)
  {
    hide GenerationStored, GenerationFaithful;
    ChainKeeps(r, h, next, r', h, next);
  }

  lemma ManifestKeeps(r: Remote, h: History, next: Gen, p: nat, b: Publisher)
    requires StoreOk(r, h, next) && PublisherOk(r, h, next, p, b)
    ensures var (r', h', next', b') := Act(r, h, next, b, UploadManifest(p));
            StoreOk(r', h', next') && Grows(r, h, next, r', h', next') && h' == h &&
            r'.latest == r.latest && b'.local == b.local && PublisherOk(r', h', next', p, b') &&
            forall g :: g in r'.manifests && g !in r.manifests ==>
              b.local.pending.Some? && g == b.local.pending.value.manifest.gen
  {
    hide ChainRecords, ChainEvents, ChainRows, CarriesDelta, RecordsOf, EventsOf, Indexes, Increasing, ChangesOf, LogsOk;
    var (r', h', next', b') := Act(r, h, next, b, UploadManifest(p));
    LogsGrowSelf(b.source.logs);
    LogsUnchanged(r, h, next, r', h', p, b, b');
    if b.local.pending.Some? { assert PendingOk(r, h, next, p, b); }
    ChainKeeps(r, h, next, r', h', next');
    FinishedStored(r, h, next, p, b.local);
    ChainSame(r, r', Finished(h, p, b.local));
    if b.local.pending.Some? { assert PendingOk(r', h', next', p, b'); }
  }

  lemma StageKeeps(r: Remote, h: History, next: Gen, p: nat, b: Publisher, files: seq<Digest>, cursor: map<Stream, nat>)
    requires StoreOk(r, h, next) && PublisherOk(r, h, next, p, b)
    ensures var (r', h', next', b') := Act(r, h, next, b, Stage(p, files, cursor));
            StoreOk(r', h', next') && Grows(r, h, next, r', h', next') && r' == r &&
            h'.chain == h.chain && h'.owner == h.owner && PublisherOk(r', h', next', p, b') &&
            (b'.local.pending == b.local.pending ||
             (b'.local.pending.Some? && b'.local.pending.value.manifest.gen == next))
  {
    hide ChainRecords, ChainEvents, ChainRows, CarriesDelta, RecordsOf, EventsOf, Indexes, Since, LastSeq, ChangesOf,
      LogsStand, LogsFound;
    var (r', h', next', b') := Act(r, h, next, b, Stage(p, files, cursor));
    ChainKeeps(r, h, next, r', h', next');
    if b'.local != b.local {
      var done, snap := Finished(h, p, b.local), b.process.snap;
      NotInChain(r, h, next);
      assert Finished(h', p, b'.local) == done;
      assert b.process.base == PointerTo(done);
      ScanCompletes(ChainEvents(r, done), snap.events, EventsOf(files), b.local.eventsSeq, b'.local.eventsSeq);
      LogsStaged(r, done, files, b.local.cursor, cursor, b.source.logs);
      assert PendingOk(r', h', next', p, b');
    }
  }

  lemma NotInChain(r: Remote, h: History, next: Gen)
    requires StoreOk(r, h, next)
    ensures next !in h.chain && next !in r.manifests && next !in h.snaps
  {
    forall g | g in h.chain ensures g in r.manifests {
      var i :| 0 <= i < |h.chain| && h.chain[i] == g;
      assert GenerationStored(r, h.chain, i);
    }
  }

  /** Events found since the last staged one complete what was staged before. */
  lemma ScanCompletes(seen: seq<Event>, events: seq<Event>, found: seq<Event>, last: nat, last': nat)
    requires Increasing(events) && seen <= events && last == LastSeq(seen) && found == Since(events, last)
    requires last' == if found == [] then last else LastSeq(events)
    ensures seen + found == events && last' == LastSeq(events)
  {
    SinceResumes(seen, events);
  }

  lemma SwapKeeps(r: Remote, h: History, next: Gen, p: nat, b: Publisher)
    requires StoreOk(r, h, next) && PublisherOk(r, h, next, p, b)
    ensures var (r', h', next', b') := Act(r, h, next, b, Swap(p));
            StoreOk(r', h', next') && Grows(r, h, next, r', h', next') && r'.manifests == r.manifests &&
            b'.local == b.local && PublisherOk(r', h', next', p, b') &&
            ((h' == h && r' == r) ||
             ((h.owner != None ==> h.owner == Some(p)) && h'.owner == Some(p) && b.local.pending.Some? &&
              h'.chain == h.chain + [b.local.pending.value.manifest.gen]))
  {
    hide StoreOk, PublisherOk;
    var (r', h', next', b') := Act(r, h, next, b, Swap(p));
    if h' != h {
      SwapOwns(r, h, next, p, b);
      SwapStores(r, h, next, p, b, r', h');
      SwapLocal(r, h, next, p, b, r', h', b');
    } else {
      ProcessMoves(r, h, next, p, b, b');
    }
  }

  /** A swap succeeds only on the chain that the publisher has finished. */
  lemma SwapOwns(r: Remote, h: History, next: Gen, p: nat, b: Publisher)
    requires StoreOk(r, h, next) && PublisherOk(r, h, next, p, b) && b.process.Manifested? && b.local.pending.Some?
    requires r.latest == b.local.pending.value.base
    ensures Finished(h, p, b.local) == h.chain && (h.owner != None ==> h.owner == Some(p))
    ensures b.local.pending.value.manifest.rev == |h.chain| + 1 && b.local.pending.value.manifest.parent == Head(h.chain)
    ensures b.local.pending.value.manifest.gen !in h.chain && b.local.pending.value.manifest.gen in h.snaps
  {
    hide ChainRecords, ChainEvents, ChainRows, CarriesDelta, RecordsOf, EventsOf, Indexes, ChangesOf, Replay, LogsOk, GenerationFaithful;
    assert PendingOk(r, h, next, p, b);
    PointersDiffer(Finished(h, p, b.local), h.chain);
  }

  lemma SwapStores(r: Remote, h: History, next: Gen, p: nat, b: Publisher, r': Remote, h': History)
    requires StoreOk(r, h, next) && PublisherOk(r, h, next, p, b) && b.process.Manifested? && b.local.pending.Some?
    requires Finished(h, p, b.local) == h.chain && b.local.pending.value.manifest.rev == |h.chain| + 1
    requires var m := b.local.pending.value.manifest;
             r' == r.(latest := Some(Pointer(m.gen, m.rev))) && h' == h.(chain := h.chain + [m.gen], owner := Some(p))
    ensures StoreOk(r', h', next) && Grows(r, h, next, r', h', next)
  {
    hide GenerationStored, GenerationFaithful, PublisherOk;
    ChainKeeps(r, h, next, r', h', next);
    SwappedFaithful(r, h, next, p, b, r', h');
  }

  lemma SwapLocal(r: Remote, h: History, next: Gen, p: nat, b: Publisher, r': Remote, h': History, b': Publisher)
    requires StoreOk(r, h, next) && PublisherOk(r, h, next, p, b) && b.process.Manifested? && b.local.pending.Some?
    requires Finished(h, p, b.local) == h.chain
    requires var m := b.local.pending.value.manifest;
             r' == r.(latest := Some(Pointer(m.gen, m.rev))) && h' == h.(chain := h.chain + [m.gen], owner := Some(p)) &&
             b' == b.(process := Finalizing(r'.latest))
    ensures PublisherOk(r', h', next, p, b')
  {
    hide ChainRecords, ChainEvents, ChainRows, CarriesDelta, RecordsOf, EventsOf, Indexes, ChangesOf, Replay, LogsOk,
      GenerationStored, GenerationFaithful;
    assert PendingOk(r, h, next, p, b);
    assert h'.chain[..|h.chain|] == h.chain;
    assert Finished(h', p, b'.local) == h.chain;
    LogsGrowSelf(b.source.logs);
    LogsUnchanged(r, h, next, r', h', p, b, b');
    ChainSame(r, r', h.chain);
    assert PendingOk(r', h', next, p, b');
  }

  /** A pointer names one chain among a chain and those it continues. */
  lemma PointersDiffer(done: seq<Gen>, chain: seq<Gen>)
    requires PointerTo(done) == PointerTo(chain) && done <= chain
    ensures done == chain
  {
  }

  /** The generation swapped in is stored and takes the chain to its snapshot. */
  lemma SwappedFaithful(r: Remote, h: History, next: Gen, p: nat, b: Publisher, r': Remote, h': History)
    requires StoreOk(r, h, next) && PublisherOk(r, h, next, p, b) && b.process.Manifested?
    requires b.local.pending.Some? && Finished(h, p, b.local) == h.chain
    requires var g := b.local.pending.value.manifest.gen;
             r'.objects == r.objects && r'.manifests == r.manifests && h'.snaps == h.snaps && h'.chain == h.chain + [g]
    ensures GenerationStored(r', h'.chain, |h.chain|) && GenerationFaithful(r', h', |h.chain|)
  {
    hide ChainRecords, ChainEvents, ChainRows, RecordsOf, EventsOf, Indexes, ChangesOf, Replay, LogsOk;
    var m := b.local.pending.value.manifest;
    assert PendingOk(r, h, next, p, b);
    assert h'.chain[..|h.chain|] == h.chain && h'.chain[..|h.chain| + 1] == h'.chain;
    ChainSame(r, r', h.chain);
    ChainExtends(r', h.chain, m.gen);
    assert FilesOf(r', m.gen) == m.files;
    ReplayDelta(ChainRows(r, h.chain), RecordsOf(m.files), m.rev, b.local.index, h.snaps[m.gen].rows);
    forall d | d in m.files ensures d in r'.objects && r'.objects[d] == d.of {
      var i :| 0 <= i < |m.files| && m.files[i] == d;
      assert FilesStored(r, m.files, |m.files|);
    }
  }

  lemma FinalizeKeeps(r: Remote, h: History, next: Gen, p: nat, b: Publisher)
    requires StoreOk(r, h, next) && PublisherOk(r, h, next, p, b)
    ensures var (r', h', next', b') := Act(r, h, next, b, Finalize(p));
            r' == r && h' == h && next' == next && PublisherOk(r, h, next, p, b') &&
            (b'.local.pending.None? || b'.local.pending == b.local.pending)
  {
    hide ChainRecords, ChainEvents, ChainRows, CarriesDelta, RecordsOf, EventsOf, Indexes, ChangesOf, Applied, Replay,
      LogsStand;
    var (r', h', next', b') := Act(r, h, next, b, Finalize(p));
    if b'.local != b.local {
      assert PendingOk(r, h, next, p, b);
      var m := b.local.pending.value.manifest;
      var done := Finished(h, p, b.local);
      assert h.chain == done + [m.gen];
      assert Finished(h, p, b'.local) == h.chain;
      var i := |done|;
      assert h.chain[..i + 1] == h.chain;
      assert GenerationStored(r, h.chain, i) && GenerationFaithful(r, h, i);
      AppliedIndexes(b.local.index, h.snaps[m.gen].rows);
      LogsFinished(r, done, m.gen, b.local.cursor, b.source.logs);
      assert LocalOk(r, h, next, p, b');
    }
  }

  // ----- Every step, every run -----

  lemma StepKeeps(s: System, step: Step)
    requires Inv(s)
    ensures Inv(Apply(s, step))
  {
    hide StoreOk, PublisherOk, Act;
    if step.p in s.pubs {
      var p, b := step.p, s.pubs[step.p];
      var (r, h, next) := (s.remote, s.hist, s.nextGen);
      var (r', h', next', b') := Act(r, h, next, b, step);
      StepSummary(s, step);
      var s' := Apply(s, step);
      forall q | q in s'.pubs ensures PublisherOk(r', h', next', q, s'.pubs[q]) {
        if q != p {
          assert Apart(s.pubs[p].local.pending, s.pubs[q].local.pending);
          OtherKeeps(r, h, next, r', h', next', q, s.pubs[q]);
        }
      }
    }
  }

  lemma PendingBelow(r: Remote, h: History, next: Gen, q: nat, c: Publisher)
    requires PublisherOk(r, h, next, q, c)
    ensures c.local.pending.Some? ==> c.local.pending.value.manifest.gen < next
  {
    hide ChainRecords, ChainEvents, ChainRows, CarriesDelta, RecordsOf, EventsOf, Indexes, ChangesOf;
    if c.local.pending.Some? { assert PendingOk(r, h, next, q, c); }
  }

  /** What any step of a publisher keeps of the store, of itself and of the others. */
  lemma StepSummary(s: System, step: Step)
    requires Inv(s) && step.p in s.pubs
    ensures var (r', h', next', b') := Act(s.remote, s.hist, s.nextGen, s.pubs[step.p], step);
            StoreOk(r', h', next') && Grows(s.remote, s.hist, s.nextGen, r', h', next') &&
            PublisherOk(r', h', next', step.p, b') && PendingApart(s.pubs[step.p := b']) &&
            (h'.owner.Some? ==> h'.owner.value in s.pubs) &&
            forall q :: q in s.pubs && q != step.p ==> Unconcerned(s.remote, s.hist, r', h', q, s.pubs[q])
  {
    hide StoreOk, PublisherOk, Act;
    var p, b := step.p, s.pubs[step.p];
    var (r, h, next) := (s.remote, s.hist, s.nextGen);
    forall q | q in s.pubs && q != p
      ensures Apart(b.local.pending, s.pubs[q].local.pending) && Apart(s.pubs[q].local.pending, b.local.pending)
      ensures s.pubs[q].local.pending.Some? ==> s.pubs[q].local.pending.value.manifest.gen < next
    {
      PendingBelow(r, h, next, q, s.pubs[q]);
    }
    match step
    case Upload(_) => UploadKeeps(r, h, next, p, b);
    case UploadManifest(_) => ManifestKeeps(r, h, next, p, b);
    case Stage(_, files, cursor) => StageKeeps(r, h, next, p, b, files, cursor);
    case Swap(_) => SwapKeeps(r, h, next, p, b);
    case Finalize(_) => FinalizeKeeps(r, h, next, p, b);
    case _ => PrivateKeeps(r, h, next, p, b, step);
  }

  /** Every reachable state satisfies the invariant, whatever the publishers do and wherever
      they crash. */
  lemma {:induction false} RunSafe(s: System, steps: seq<Step>)
    requires Initial(s)
    ensures Inv(Run(s, steps))
  {
    if steps == [] {
      InitialOk(s);
    } else {
      RunSafe(s, steps[..|steps| - 1]);
      StepKeeps(Run(s, steps[..|steps| - 1]), steps[|steps| - 1]);
    }
  }
}
