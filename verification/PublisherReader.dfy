/** What readers of the dataset get: the manifest chain, the tables it rebuilds, and the same
    again however long they take to read it. */
module PublisherReader {
  import opened Wrappers
  import opened PublisherRecords
  import opened PublisherData
  import opened PublisherProtocol
  import opened PublisherSafety

  // ----- The chain of manifests -----

  /** A pointer to the head of a chain of stored generations. */
  predicate Pinned(r: Remote, pointer: Option<Pointer>, chain: seq<Gen>)
  {
    chain != [] && pointer == PointerTo(chain) && forall i :: 0 <= i < |chain| ==> GenerationStored(r, chain, i)
  }

  /** The manifests stored under generation ids, in order. */
  function ManifestsOf(r: Remote, chain: seq<Gen>): seq<Manifest>
  {
    if chain == [] then []
    else (if chain[0] in r.manifests then [r.manifests[chain[0]]] else []) + ManifestsOf(r, chain[1..])
  }

  /** Manifests as stored, each the parent of the next, ending with the one a pointer names. */
  predicate Linked(r: Remote, ms: seq<Manifest>, gen: Gen)
  {
    (forall i :: 0 <= i < |ms| ==> ms[i].gen in r.manifests && r.manifests[ms[i].gen] == ms[i]) &&
    (forall i :: 0 < i < |ms| ==> ms[i].parent == Some(ms[i - 1].gen)) &&
    (ms != [] ==> ms[|ms| - 1].gen == gen)
  }

  /** Follows parents from a pointer that was read once, newest first, and returns the manifests
      oldest first. For a pinned chain it returns exactly that chain's manifests. */
  method LoadChain(r: Remote, pointer: Option<Pointer>, ghost chain: seq<Gen>) returns (res: Result<seq<Manifest>>)
    ensures pointer.None? ==> res.Err?
    ensures res.Ok? ==> res.value != [] && Linked(r, res.value, pointer.value.gen) && res.value[0].parent.None?
    ensures Pinned(r, pointer, chain) ==> res == Ok(ManifestsOf(r, chain)) && |res.value| == |chain|
  {
    if pointer.None? { return Err("dataset has not been published yet"); }
    var generation, seen: set<Gen>, ms: seq<Manifest> := Some(pointer.value.gen), {}, [];
    ghost var pinned := Pinned(r, pointer, chain);
    while generation.Some?
      invariant seen <= r.manifests.Keys
      invariant Linked(r, ms, pointer.value.gen)
      invariant generation == if ms == [] then Some(pointer.value.gen) else ms[0].parent
      invariant pinned ==> |ms| <= |chain| && ms == ManifestsOf(r, chain[|chain| - |ms|..]) &&
                           generation == Head(chain[..|chain| - |ms|])
      invariant pinned ==> forall g :: g in seen ==> g in chain[|chain| - |ms|..]
      decreases r.manifests.Keys - seen
    {
      var g := generation.value;
      ghost var at := |chain| - |ms| - 1;
      if pinned {
        assert g == chain[at] && GenerationStored(r, chain, at);
        forall i | at < i < |chain| ensures chain[i] != g { StoredApart(r, chain, at, i); }
        assert chain[..at + 1][..at] == chain[..at];
      }
      if g in seen { return Err("manifest parent cycle"); }
      if g !in r.manifests { return Err("committed manifest is missing"); }
      var m := r.manifests[g];
      if m.gen != g { return Err("unsupported or inconsistent manifest"); }
      seen := seen + {g};
      assert pinned ==> chain[at..] == [g] + chain[at + 1..];
      ms := [m] + ms;
      generation := m.parent;
    }
    assert pinned ==> |ms| == |chain| && chain[0..] == chain;
    return Ok(ms);
  }

  lemma StoredGrows(r: Remote, r': Remote, chain: seq<Gen>, i: nat)
    requires i < |chain| && GenerationStored(r, chain, i)
    requires forall d :: d in r.objects ==> d in r'.objects && r'.objects[d] == r.objects[d]
    requires forall g :: g in r.manifests ==> g in r'.manifests && r'.manifests[g] == r.manifests[g]
    ensures GenerationStored(r', chain, i)
  {
  }

  lemma StoredApart(r: Remote, chain: seq<Gen>, i: nat, j: nat)
    requires i < j < |chain| && GenerationStored(r, chain, i) && GenerationStored(r, chain, j)
    ensures chain[i] != chain[j]
  {
  }

  lemma InvParts(t: System, p: nat)
    requires Inv(t)
    ensures StoreOk(t.remote, t.hist, t.nextGen)
    ensures p in t.pubs ==>
              LocalOk(t.remote, t.hist, t.nextGen, p, t.pubs[p]) && ProcessOk(t.remote, t.hist, p, t.pubs[p]) &&
              LogsOk(t.remote, t.hist, p, t.pubs[p])
  {
    hide StoreOk, LocalOk, ProcessOk, LogsOk;
  }

  /** In every reachable state the latest pointer names the head of a chain of stored
      generations: each manifest is there under its id and names the one before it as parent,
      revisions count up from one, and every listed object is there with its digest. */
  lemma ChainIntegrity(s: System, steps: seq<Step>)
    requires Initial(s)
    ensures var t := Run(s, steps); ChainStored(t.remote, t.hist.chain)
  {
    hide Inv, Run, ChainStored, GenerationFaithful;
    RunSafe(s, steps);
    InvParts(Run(s, steps), 0);
  }

  /** Nothing stored is ever altered or removed, so a chain pinned in one state reads the same
      in every later one. */
  lemma {:induction false} PinnedChainStays(s: System, steps: seq<Step>)
    requires Inv(s)
    ensures var t := Run(s, steps);
            Inv(t) && Grows(s.remote, s.hist, s.nextGen, t.remote, t.hist, t.nextGen) &&
            forall i :: 0 <= i < |s.hist.chain| ==> GenerationStored(t.remote, s.hist.chain, i)
  {
    hide Inv, Grows, GenerationStored, Apply;
    if steps == [] {
      SelfGrows(s);
    } else {
      var rest, last := steps[..|steps| - 1], steps[|steps| - 1];
      PinnedChainStays(s, rest);
      StepGrows(Run(s, rest), last);
      GrowsOn(s, Run(s, rest), Run(s, steps));
    }
  }

  lemma SelfGrows(s: System)
    requires Inv(s)
    ensures Grows(s.remote, s.hist, s.nextGen, s.remote, s.hist, s.nextGen)
    ensures forall i :: 0 <= i < |s.hist.chain| ==> GenerationStored(s.remote, s.hist.chain, i)
  {
  }

  lemma StepGrows(s: System, step: Step)
    requires Inv(s)
    ensures var t := Apply(s, step);
            Inv(t) && Grows(s.remote, s.hist, s.nextGen, t.remote, t.hist, t.nextGen)
  {
    hide Act, StoreOk, PublisherOk, PendingApart;
    StepKeeps(s, step);
    if step.p in s.pubs { StepSummary(s, step); }
  }

  lemma GrowsOn(s: System, t: System, u: System)
    requires Grows(s.remote, s.hist, s.nextGen, t.remote, t.hist, t.nextGen)
    requires Grows(t.remote, t.hist, t.nextGen, u.remote, u.hist, u.nextGen)
    requires forall i :: 0 <= i < |s.hist.chain| ==> GenerationStored(t.remote, s.hist.chain, i)
    ensures Grows(s.remote, s.hist, s.nextGen, u.remote, u.hist, u.nextGen)
    ensures forall i :: 0 <= i < |s.hist.chain| ==> GenerationStored(u.remote, s.hist.chain, i)
  {
    forall i | 0 <= i < |s.hist.chain| ensures GenerationStored(u.remote, s.hist.chain, i) {
      StoredGrows(t.remote, u.remote, s.hist.chain, i);
    }
  }

  // ----- One writer -----

  /** A dataset has one writer for good: once a publisher has swapped a generation in, no step
      of any other publisher can. */
  lemma {:induction false} OneWriter(s: System, steps: seq<Step>)
    requires Inv(s) && s.hist.owner.Some?
    ensures Run(s, steps).hist.owner == s.hist.owner
  {
    hide StoreOk, PublisherOk;
    if steps != [] {
      var rest, last := steps[..|steps| - 1], steps[|steps| - 1];
      OneWriter(s, rest);
      PinnedChainStays(s, rest);
      var t := Run(s, rest);
      if last.Swap? && last.p in t.pubs { SwapKeeps(t.remote, t.hist, t.nextGen, last.p, t.pubs[last.p]); }
    }
  }

  /** A successful swap replaces exactly the generation its manifest names as parent, at the
      next revision, by a manifest already stored. */
  lemma SwapReplacesParent(s: System, p: nat)
    requires Inv(s) && p in s.pubs && Apply(s, Swap(p)).hist != s.hist
    ensures var t := Apply(s, Swap(p)); var m := t.pubs[p].local.pending;
            m.Some? && t.hist.chain == s.hist.chain + [m.value.manifest.gen] &&
            m.value.manifest.parent == Head(s.hist.chain) && m.value.manifest.rev == |s.hist.chain| + 1 &&
            m.value.manifest.gen in s.remote.manifests && s.remote.manifests[m.value.manifest.gen] == m.value.manifest
  {
    hide StoreOk, LocalOk, LogsOk, PendingApart;
    var b := s.pubs[p];
    assert PublisherOk(s.remote, s.hist, s.nextGen, p, b);
    SwapOwns(s.remote, s.hist, s.nextGen, p, b);
  }

  /** The constructor lets a publisher in exactly when the dataset is empty, or its own, or it
      still has a pending record; anyone else is refused. */
  lemma ConstructorRefuses(s: System, p: nat)
    requires Inv(s) && p in s.pubs
    ensures Refuses(s.pubs[p].local, s.remote.latest) <==>
            s.hist.chain != [] && s.hist.owner != Some(p) && s.pubs[p].local.pending.None?
  {
    hide ChainRecords, ChainEvents, ChainRows, CarriesDelta, RecordsOf, EventsOf, Indexes, ChangesOf;
    var b := s.pubs[p];
    assert PublisherOk(s.remote, s.hist, s.nextGen, p, b);
    if b.local.pending.Some? { assert PendingOk(s.remote, s.hist, s.nextGen, p, b); }
  }

  // ----- The tables readers see -----

  /** The record a view selects for its key: none of that key has a higher revision. */
  predicate Latest(records: seq<Record>, i: nat)
    requires i < |records|
  {
    forall j :: 0 <= j < |records| && records[j].key == records[i].key ==> records[j].rev <= records[i].rev
  }

  /** The table of the latest observation of each key, without those that are deletions. */
  ghost predicate LatestView(records: seq<Record>, v: map<Key, Row>)
  {
    (forall i, j :: 0 <= i < j < |records| && records[i].key == records[j].key ==>
       !(Latest(records, i) && Latest(records, j))) &&
    (forall i :: 0 <= i < |records| && Latest(records, i) ==>
       (records[i].key in v <==> records[i].row.Some?) &&
       (records[i].row.Some? ==> v[records[i].key] == records[i].row.value)) &&
    forall k :: k in v ==> Mentions(records, k)
  }

  /** Later records have higher revisions where they mention the same key. */
  predicate Ordered(records: seq<Record>)
  {
    forall i, j :: 0 <= i < j < |records| ==>
      records[i].rev <= records[j].rev && (records[i].key == records[j].key ==> records[i].rev < records[j].rev)
  }

  /** Taking the highest revision of each key is replaying the records in order. */
  lemma OrderedReplayIsLatest(records: seq<Record>)
    requires Ordered(records)
    ensures LatestView(records, Replay(map[], records))
  {
    hide Replay;
    var v := Replay(map[], records);
    forall i, j | 0 <= i < j < |records| && records[i].key == records[j].key ensures !Latest(records, i) {
      assert records[i].rev < records[j].rev;
    }
    forall i | 0 <= i < |records| && Latest(records, i)
      ensures (records[i].key in v <==> records[i].row.Some?) &&
              (records[i].row.Some? ==> v[records[i].key] == records[i].row.value)
    {
      ReplayLast(map[], records, i);
    }
    forall k | k in v ensures Mentions(records, k) {
      if !Mentions(records, k) { ReplayElsewhere(map[], records, k); }
    }
  }

  lemma {:induction false} ChainOrdered(r: Remote, h: History, n: nat)
    requires n <= |h.chain| && forall i :: 0 <= i < |h.chain| ==> GenerationFaithful(r, h, i)
    ensures Ordered(ChainRecords(r, h.chain[..n]))
    ensures forall j :: 0 <= j < |ChainRecords(r, h.chain[..n])| ==> ChainRecords(r, h.chain[..n])[j].rev <= n
  {
    hide ChainRows, ChainEvents, RecordsOf;
    if n > 0 {
      ChainOrdered(r, h, n - 1);
      assert h.chain[..n] == h.chain[..n - 1] + [h.chain[n - 1]];
      ChainExtends(r, h.chain[..n - 1], h.chain[n - 1]);
      assert GenerationFaithful(r, h, n - 1);
      OrderedConcat(ChainRecords(r, h.chain[..n - 1]), RecordsOf(FilesOf(r, h.chain[n - 1])), n);
    }
  }

  lemma OrderedConcat(a: seq<Record>, b: seq<Record>, n: nat)
    requires n > 0 && Ordered(a) && (forall j :: 0 <= j < |a| ==> a[j].rev <= n - 1)
    requires DistinctKeys(b) && forall j :: 0 <= j < |b| ==> b[j].rev == n
    ensures Ordered(a + b) && forall j :: 0 <= j < |a + b| ==> (a + b)[j].rev <= n
  {
  }

  /** In every reachable state, the latest view over the whole chain is the source table as the
      newest generation's scan saw it, and the chain's events are that scan's events, each once
      and in order. */
  lemma ReadersSeeSnapshot(s: System, steps: seq<Step>)
    requires Initial(s) && Run(s, steps).hist.chain != []
    ensures var t := Run(s, steps); var g := t.hist.chain[|t.hist.chain| - 1];
            g in t.hist.snaps && LatestView(ChainRecords(t.remote, t.hist.chain), t.hist.snaps[g].rows) &&
            ChainEvents(t.remote, t.hist.chain) == t.hist.snaps[g].events
  {
    hide ChainRecords, ChainEvents, LatestView, RecordsOf, Inv, Run;
    RunSafe(s, steps);
    var t := Run(s, steps);
    InvParts(t, 0);
    var r, h := t.remote, t.hist;
    var n := |h.chain|;
    assert h.chain[..n] == h.chain;
    assert GenerationFaithful(r, h, n - 1);
    ChainOrdered(r, h, n);
    OrderedReplayIsLatest(ChainRecords(r, h.chain));
  }

  /** After finalising, the owner's index stands for exactly what readers see. */
  lemma IndexAgrees(s: System, steps: seq<Step>, p: nat)
    requires Initial(s)
    requires var t := Run(s, steps); t.hist.owner == Some(p) && p in t.pubs && t.pubs[p].local.pending.None?
    ensures var t := Run(s, steps); Indexes(t.pubs[p].local.index, ChainRows(t.remote, t.hist.chain))
  {
    hide Inv, Run, ChainRows, Indexes, StoreOk, ProcessOk;
    RunSafe(s, steps);
    InvParts(Run(s, steps), p);
  }

  // ----- The logs readers see -----

  /** In every reachable state, for every publisher and every stream, the records in the
      generations it has finished and in its pending one tile its log from the first byte to its
      cursor, and join up to exactly those bytes. */
  lemma LogTiling(s: System, steps: seq<Step>, p: nat, stream: Stream)
    requires Initial(s) && p in Run(s, steps).pubs
    ensures var t := Run(s, steps); var b := t.pubs[p];
            var records := ChainLogs(t.remote, Finished(t.hist, p, b.local), stream) + LogsOf(PendingFiles(b.local), stream);
            if stream in b.local.cursor then
              stream in b.source.logs && b.local.cursor[stream] <= |b.source.logs[stream]| &&
              Tiles(b.source.logs[stream], records, 0, b.local.cursor[stream]) &&
              Raw(records) == b.source.logs[stream][..b.local.cursor[stream]]
            else records == []
  {
    hide Inv, StoreOk, LocalOk, ProcessOk, ChainLogs, LogsOf, Tiles, Raw, Finished;
    RunSafe(s, steps);
    var t := Run(s, steps);
    var b := t.pubs[p];
    InvParts(t, p);
    var records := ChainLogs(t.remote, Finished(t.hist, p, b.local), stream) + LogsOf(PendingFiles(b.local), stream);
    if stream in b.local.cursor {
      TilesRaw(b.source.logs[stream], records, 0, b.local.cursor[stream]);
    }
  }

  /** In every reachable state, what readers find of a log in the whole chain is exactly the
      beginning of the owner's log, at most up to the owner's cursor. */
  lemma ReadersSeeLogs(s: System, steps: seq<Step>, p: nat, stream: Stream) returns (n: nat)
    requires Initial(s) && p in Run(s, steps).pubs && Run(s, steps).hist.owner == Some(p)
    ensures var t := Run(s, steps); var log := LogOf(t.pubs[p].source, stream);
            n <= |log| && n <= PositionIn(t.pubs[p].local.cursor, stream) &&
            Tiles(log, ChainLogs(t.remote, t.hist.chain, stream), 0, n) &&
            Raw(ChainLogs(t.remote, t.hist.chain, stream)) == log[..n]
  {
    hide Inv, StoreOk, LocalOk, ProcessOk, Tiles, Raw, LogsOf, Run;
    RunSafe(s, steps);
    var t := Run(s, steps);
    var b := t.pubs[p];
    InvParts(t, p);
    PendingIsStored(t, p);
    n := ChainTiles(t.remote, t.hist, p, b, stream);
    TilesRaw(LogOf(b.source, stream), ChainLogs(t.remote, t.hist.chain, stream), 0, n);
  }

  function LogOf(source: Source, stream: Stream): seq<Byte>
  {
    if stream in source.logs then source.logs[stream] else []
  }

  /** A pending generation that heads the chain is the manifest stored for it. */
  lemma PendingIsStored(t: System, p: nat)
    requires Inv(t) && p in t.pubs
    ensures var pd := t.pubs[p].local.pending;
            pd.Some? && pd.value.manifest.gen in t.hist.chain ==> FilesOf(t.remote, pd.value.manifest.gen) == pd.value.manifest.files
  {
    hide ChainRecords, ChainEvents, ChainRows, CarriesDelta, RecordsOf, EventsOf, Indexes, ChangesOf, LogsOk;
    var b := t.pubs[p];
    assert PublisherOk(t.remote, t.hist, t.nextGen, p, b);
    if b.local.pending.Some? && b.local.pending.value.manifest.gen in t.hist.chain {
      assert PendingOk(t.remote, t.hist, t.nextGen, p, b);
      FinishedStored(t.remote, t.hist, t.nextGen, p, b.local.(pending := None));
    }
  }

  lemma ChainTiles(r: Remote, h: History, p: nat, b: Publisher, stream: Stream) returns (n: nat)
    requires LogsOk(r, h, p, b) && h.owner == Some(p)
    requires var pd := b.local.pending;
             pd.Some? && pd.value.manifest.gen in h.chain ==> FilesOf(r, pd.value.manifest.gen) == pd.value.manifest.files
    ensures var log := LogOf(b.source, stream);
            n <= |log| && n <= PositionIn(b.local.cursor, stream) && Tiles(log, ChainLogs(r, h.chain, stream), 0, n)
  {
    hide Tiles, LogsOf;
    var log, cursor := LogOf(b.source, stream), PositionIn(b.local.cursor, stream);
    var done, files := Finished(h, p, b.local), PendingFiles(b.local);
    var a, c := ChainLogs(r, done, stream), LogsOf(files, stream);
    NothingCut(log, 0);
    assert Tiles(log, a + c, 0, cursor);
    if done == h.chain {
      n := TilesSplit(log, a, c, 0, cursor);
      TilesBounds(log, a, 0, n);
      TilesBounds(log, c, n, cursor);
    } else {
      n := cursor;
      assert h.chain[..|h.chain| - 1] == done;
    }
  }
}
