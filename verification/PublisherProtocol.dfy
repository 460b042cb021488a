/** The publication protocol: any number of publishers, each with a durable checkpoint and at
    most one live process, write to one dataset. Every step of a process, and a crash between
    any two of them, is a step of the system. */
module PublisherProtocol {
  import opened Wrappers
  import opened PublisherRecords
  import opened PublisherData

  type Gen = nat

  datatype Manifest = Manifest(gen: Gen, rev: nat, parent: Option<Gen>, files: seq<Digest>)

  /** The content of the latest pointer. Entity tags are taken to be injective in the content,
      so the content stands for its tag. */
  datatype Pointer = Pointer(gen: Gen, rev: nat)

  datatype Remote = Remote(objects: map<Digest, Part>, manifests: map<Gen, Manifest>, latest: Option<Pointer>)

  datatype Pending = Pending(manifest: Manifest, base: Option<Pointer>)

  /** The durable checkpoint of a publisher, and its spool of staged objects. */
  datatype Local = Local(
    index: map<Key, RowHash>,
    changes: map<Key, Option<RowHash>>,
    eventsSeq: nat,
    cursor: map<Stream, nat>,
    revision: nat,
    generation: Option<Gen>,
    remoteSeen: bool,
    pending: Option<Pending>,
    spool: map<Digest, Part>)

  /** Where a publisher's process is. A process that raises is back at Idle. */
  datatype Process =
    | Down
    | Idle(etag: Option<Pointer>)
    | Scanning(etag: Option<Pointer>, snap: Source)
    | Based(etag: Option<Pointer>, snap: Source, base: Option<Pointer>)
    | Uploading(etag: Option<Pointer>, done: nat)
    | Manifested(etag: Option<Pointer>)
    | Finalizing(etag: Option<Pointer>)

  datatype Publisher = Publisher(source: Source, local: Local, process: Process)

  /** What has happened: the generations swapped in, by whom, and the snapshot each was
      scanned from. No step reads this. */
  datatype History = History(chain: seq<Gen>, owner: Option<nat>, snaps: map<Gen, Source>)

  datatype System = System(remote: Remote, pubs: map<nat, Publisher>, hist: History, nextGen: Gen)

  datatype Step =
    | Change(p: nat, source: Source)           // the source database moves on
    | Damage(p: nat, spool: map<Digest, Part>) // staged files are lost or altered
    | Crash(p: nat)
    | Abort(p: nat)                            // the process raises; its open transaction is rolled back
    | Construct(p: nat)
    | Scan(p: nat)                             // begin the read transaction
    | ReadBase(p: nat)                         // read the latest pointer to build on
    | Stage(p: nat, files: seq<Digest>, cursor: map<Stream, nat>) // commit the pending record
    | Resume(p: nat)                           // continue a pending record
    | Upload(p: nat)                           // one object
    | UploadManifest(p: nat)
    | Swap(p: nat)                             // conditional put of the latest pointer
    | Finalize(p: nat)

  // ----- Steps -----

  /** The constructor's checks: whether it raises, given the pointer it reads. */
  predicate Refuses(l: Local, latest: Option<Pointer>)
  {
    (l.generation.Some? && latest.None?) ||
    (latest.Some? && l.generation.Some? && l.generation.value != latest.value.gen &&
     (l.pending.None? || l.pending.value.manifest.gen != latest.value.gen)) ||
    (latest.Some? && l.pending.None? && !l.remoteSeen)
  }

  /** What a scan has to publish: the delta of the tables, the events not yet staged, and some
      more of each log, up to a new cursor. Logs are read after the tables, as they are by then. */
  ghost predicate ScanFinds(files: seq<Digest>, l: Local, snap: Source, cursor: map<Stream, nat>, logs: map<Stream, seq<Byte>>)
  {
    CarriesDelta(RecordsOf(files), l.revision + 1, l.index, snap.rows) &&
    EventsOf(files) == Since(snap.events, l.eventsSeq) && LogsFound(files, l.cursor, cursor, logs)
  }

  function NewManifest(gen: Gen, l: Local, base: Option<Pointer>, files: seq<Digest>): Manifest
  {
    Manifest(gen, l.revision + 1, if base.Some? then Some(base.value.gen) else None, files)
  }

  function SpoolOf(files: seq<Digest>): map<Digest, Part>
  {
    map d | d in files :: d.of
  }

  /** The checkpoint after the transaction that stages a generation. */
  function Staged(l: Local, gen: Gen, snap: Source, base: Option<Pointer>, files: seq<Digest>, cursor: map<Stream, nat>): Local
  {
    l.(cursor := cursor,
       changes := ChangesOf(l.index, snap.rows),
       eventsSeq := if Since(snap.events, l.eventsSeq) == [] then l.eventsSeq else LastSeq(snap.events),
       revision := l.revision + 1,
       pending := Some(Pending(NewManifest(gen, l, base, files), base)),
       spool := SpoolOf(files))
  }

  /** The checkpoint after the transaction that finalises the pending generation. */
  function Finalized(l: Local): Local
    requires l.pending.Some?
  {
    l.(index := Applied(l.index, l.changes), changes := map[], pending := None, remoteSeen := true,
       generation := Some(l.pending.value.manifest.gen), spool := map[])
  }

  /** Whether the next object of the pending generation is there to upload, unaltered, and does
      not collide with another object of its name. */
  predicate CanUpload(r: Remote, l: Local, n: nat)
  {
    l.pending.Some? && n < |l.pending.value.manifest.files| &&
    var d := l.pending.value.manifest.files[n];
    d in l.spool && l.spool[d] == d.of && (d in r.objects ==> r.objects[d] == d.of)
  }

  /** What a publisher's own step does to it, to the store and to the history. */
  ghost function Act(r: Remote, h: History, next: Gen, b: Publisher, step: Step): (Remote, History, Gen, Publisher)
  {
    var stay := (r, h, next, b);
    var l := b.local;
    match step
    case Change(_, src) =>
      if Increasing(src.events) && b.source.events <= src.events && LogsGrow(b.source.logs, src.logs) then (r, h, next, b.(source := src)) else stay
    case Damage(_, spool) => (r, h, next, b.(local := l.(spool := spool)))
    case Crash(_) => (r, h, next, b.(process := Down))
    case Abort(_) => if b.process.Down? then stay else (r, h, next, b.(process := Idle(b.process.etag)))
    case Construct(_) =>
      if b.process.Down? && !Refuses(l, r.latest) then (r, h, next, b.(process := Idle(r.latest))) else stay
    case Scan(_) =>
      if b.process.Idle? && l.pending.None? && LastSeq(b.source.events) >= l.eventsSeq then
        (r, h, next, b.(process := Scanning(b.process.etag, b.source)))
      else stay
    case ReadBase(_) =>
      if b.process.Scanning? then
        (r, h, next, b.(process := Based(b.process.etag, b.process.snap, r.latest)))
      else stay
    case Stage(_, files, cursor) =>
      if !b.process.Based? || !ScanFinds(files, l, b.process.snap, cursor, b.source.logs) then stay
      else if files == [] || b.process.base != b.process.etag || (b.process.base.Some? && !l.remoteSeen) then
        (r, h, next, b.(process := Idle(b.process.etag)))
      else
        (r, h.(snaps := h.snaps[next := b.process.snap]), next + 1,
         b.(local := Staged(l, next, b.process.snap, b.process.base, files, cursor),
            process := Uploading(b.process.etag, 0)))
    case Resume(_) =>
      if !b.process.Idle? || l.pending.None? then stay
      else if r.latest.Some? && r.latest.value.gen == l.pending.value.manifest.gen then
        (r, h, next, b.(process := Finalizing(r.latest)))
      else if r.latest != l.pending.value.base then stay
      else (r, h, next, b.(process := Uploading(b.process.etag, 0)))
    case Upload(_) =>
      if !b.process.Uploading? || l.pending.None? || b.process.done >= |l.pending.value.manifest.files| then stay
      else if CanUpload(r, l, b.process.done) then
        var d := l.pending.value.manifest.files[b.process.done];
        (r.(objects := r.objects[d := d.of]), h, next,
         b.(process := Uploading(b.process.etag, b.process.done + 1)))
      else (r, h, next, b.(process := Idle(b.process.etag)))
    case UploadManifest(_) =>
      if !b.process.Uploading? || l.pending.None? || b.process.done < |l.pending.value.manifest.files| then stay
      else
        var m := l.pending.value.manifest;
        if m.gen in r.manifests && r.manifests[m.gen] != m then
          (r, h, next, b.(process := Idle(b.process.etag)))
        else
          (r.(manifests := r.manifests[m.gen := m]), h, next, b.(process := Manifested(b.process.etag)))
    case Swap(p) =>
      if !b.process.Manifested? || l.pending.None? then stay
      else
        var pd := l.pending.value;
        if r.latest != pd.base then (r, h, next, b.(process := Idle(b.process.etag)))
        else
          var pointer := Pointer(pd.manifest.gen, pd.manifest.rev);
          (r.(latest := Some(pointer)), h.(chain := h.chain + [pd.manifest.gen], owner := Some(p)), next,
           b.(process := Finalizing(Some(pointer))))
    case Finalize(_) =>
      if b.process.Finalizing? && l.pending.Some? then
        (r, h, next, b.(local := Finalized(l), process := Idle(b.process.etag)))
      else stay
  }

  ghost function Apply(s: System, step: Step): System
  {
    if step.p !in s.pubs then s
    else
      var (r, h, next, b) := Act(s.remote, s.hist, s.nextGen, s.pubs[step.p], step);
      System(r, s.pubs[step.p := b], h, next)
  }

  ghost function Run(s: System, steps: seq<Step>): System
  {
    if steps == [] then s else Apply(Run(s, steps[..|steps| - 1]), steps[|steps| - 1])
  }

  /** A fresh publisher over some source. */
  predicate FreshPublisher(b: Publisher)
  {
    Increasing(b.source.events) && b.process.Down? &&
    b.local == Local(map[], map[], 0, map[], 0, None, false, None, map[])
  }

  ghost predicate Initial(s: System)
  {
    s.remote == Remote(map[], map[], None) && s.hist == History([], None, map[]) &&
    forall p :: p in s.pubs ==> FreshPublisher(s.pubs[p])
  }
}
