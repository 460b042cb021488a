/** A crash loses nothing: whoever may continue a pending generation can finish it. */
module PublisherRecovery {
  import opened Wrappers
  import opened PublisherRecords
  import opened PublisherData
  import opened PublisherProtocol
  import opened PublisherSafety
  import opened PublisherReader

  /** The staged objects of the pending generation are all there, unaltered. */
  predicate SpoolIntact(l: Local)
  {
    l.pending.Some? &&
    forall d :: d in l.pending.value.manifest.files ==> d in l.spool && l.spool[d] == d.of
  }

  /** The state p is in while it works on its pending generation alone. */
  ghost predicate Working(s: System, t: System, p: nat)
  {
    Inv(s) && Inv(t) && p in s.pubs && p in t.pubs && t.pubs[p].local == s.pubs[p].local &&
    t.hist == s.hist && t.remote.latest == s.remote.latest && t.pubs[p].source == s.pubs[p].source
  }

  /** Working, with every object of the pending generation uploaded. */
  ghost predicate Uploaded(s: System, t: System, p: nat)
  {
    Working(s, t, p) && t.pubs[p].process.Uploading? && s.pubs[p].local.pending.Some? &&
    t.pubs[p].process.done == |s.pubs[p].local.pending.value.manifest.files|
  }

  lemma RunSnoc(s: System, steps: seq<Step>, step: Step)
    ensures Run(s, steps + [step]) == Apply(Run(s, steps), step)
  {
    assert (steps + [step])[..|steps|] == steps;
  }

  lemma RunThree(s: System, a: Step, b: Step, c: Step)
    ensures Run(s, [a, b, c]) == Apply(Apply(Apply(s, a), b), c)
  {
    assert Run(s, []) == s;
    RunSnoc(s, [], a);
    RunSnoc(s, [a], b);
    RunSnoc(s, [a, b], c);
    assert [] + [a] == [a] && [a] + [b] == [a, b] && [a, b] + [c] == [a, b, c];
  }

  /** From any reachable state, a publisher that owns the dataset (or finds it empty), has a
      pending generation and still has its staged objects can crash, restart and publish it. */
  lemma RecoveryCompletes(s: System, p: nat) returns (steps: seq<Step>)
    requires Inv(s) && p in s.pubs && SpoolIntact(s.pubs[p].local)
    requires s.hist.owner == Some(p) || s.hist.chain == []
    ensures var t := Run(s, steps); var m := s.pubs[p].local.pending.value.manifest;
            Inv(t) && p in t.pubs && t.pubs[p].local.pending.None? && t.hist.owner == Some(p) &&
            t.hist.snaps == s.hist.snaps && t.pubs[p].source == s.pubs[p].source &&
            t.hist.chain == if Head(s.hist.chain) == Some(m.gen) then s.hist.chain else s.hist.chain + [m.gen]
  {
    hide Run, Act, Inv;
    steps := Restart(s, p);
    var t := Run(s, steps);
    if t.pubs[p].process.Uploading? {
      var more := UploadAll(s, p, steps, 0);
      steps := SwapIn(s, p, more);
    }
    steps := Close(s, p, steps);
  }

  /** Crash, construct and resume: the process either sees its generation published already or
      starts uploading it. */
  lemma Restart(s: System, p: nat) returns (steps: seq<Step>)
    requires Inv(s) && p in s.pubs && SpoolIntact(s.pubs[p].local)
    requires s.hist.owner == Some(p) || s.hist.chain == []
    ensures var t := Run(s, steps); var m := s.pubs[p].local.pending.value.manifest;
            Working(s, t, p) &&
            if Head(s.hist.chain) == Some(m.gen) then t.pubs[p].process.Finalizing?
            else t.pubs[p].process.Uploading? && t.pubs[p].process.done == 0
  {
    hide Inv, Refuses, Run;
    steps := [Crash(p), Construct(p), Resume(p)];
    RunThree(s, Crash(p), Construct(p), Resume(p));
    var s1 := Apply(s, Crash(p));
    StepKeeps(s, Crash(p));
    var s2 := Apply(s1, Construct(p));
    StepKeeps(s1, Construct(p));
    StepKeeps(s2, Resume(p));
    ConstructorRefuses(s1, p);
    PendingBase(s, p);
  }

  /** The pending generation is either the head of the chain or builds on it. */
  lemma PendingBase(s: System, p: nat)
    requires Inv(s) && p in s.pubs && s.pubs[p].local.pending.Some?
    requires s.hist.owner == Some(p) || s.hist.chain == []
    ensures s.remote.latest == PointerTo(s.hist.chain)
    ensures var pd := s.pubs[p].local.pending.value;
            Head(s.hist.chain) == Some(pd.manifest.gen) || pd.base == s.remote.latest
    ensures var m := s.pubs[p].local.pending.value.manifest; m.gen in s.remote.manifests ==> s.remote.manifests[m.gen] == m
  {
    hide ChainRecords, ChainEvents, ChainRows, CarriesDelta, RecordsOf, EventsOf, Indexes, ChangesOf;
    assert PublisherOk(s.remote, s.hist, s.nextGen, p, s.pubs[p]);
    assert PendingOk(s.remote, s.hist, s.nextGen, p, s.pubs[p]);
  }

  lemma ObjectsHonest(s: System)
    requires Inv(s)
    ensures forall d :: d in s.remote.objects ==> s.remote.objects[d] == d.of
  {
  }

  lemma {:induction false} UploadAll(s: System, p: nat, sofar: seq<Step>, n: nat) returns (steps: seq<Step>)
    requires p in s.pubs && SpoolIntact(s.pubs[p].local) && n <= |s.pubs[p].local.pending.value.manifest.files|
    requires var t := Run(s, sofar); Working(s, t, p) && t.pubs[p].process.Uploading? && t.pubs[p].process.done == n
    ensures Uploaded(s, Run(s, steps), p)
    decreases |s.pubs[p].local.pending.value.manifest.files| - n
  {
    hide Inv, Run;
    var files := s.pubs[p].local.pending.value.manifest.files;
    if n == |files| {
      steps := sofar;
    } else {
      var t := Run(s, sofar);
      ObjectsHonest(t);
      assert files[n] in files;
      RunSnoc(s, sofar, Upload(p));
      StepKeeps(t, Upload(p));
      steps := UploadAll(s, p, sofar + [Upload(p)], n + 1);
    }
  }

  lemma SwapIn(s: System, p: nat, sofar: seq<Step>) returns (steps: seq<Step>)
    requires p in s.pubs && SpoolIntact(s.pubs[p].local)
    requires s.hist.owner == Some(p) || s.hist.chain == []
    requires Head(s.hist.chain) != Some(s.pubs[p].local.pending.value.manifest.gen)
    requires Uploaded(s, Run(s, sofar), p)
    ensures var t := Run(s, steps); var m := s.pubs[p].local.pending.value.manifest;
            Inv(t) && p in t.pubs && t.pubs[p].local == s.pubs[p].local && t.pubs[p].process.Finalizing? &&
            t.hist == s.hist.(chain := s.hist.chain + [m.gen], owner := Some(p)) && t.pubs[p].source == s.pubs[p].source
  {
    hide Inv, Run;
    var t := Run(s, sofar);
    PendingBase(t, p);
    RunSnoc(s, sofar, UploadManifest(p));
    StepKeeps(t, UploadManifest(p));
    var u := Apply(t, UploadManifest(p));
    RunSnoc(s, sofar + [UploadManifest(p)], Swap(p));
    StepKeeps(u, Swap(p));
    steps := sofar + [UploadManifest(p)] + [Swap(p)];
  }

  lemma Close(s: System, p: nat, sofar: seq<Step>) returns (steps: seq<Step>)
    requires var t := Run(s, sofar); Inv(t) && p in t.pubs && t.pubs[p].local.pending.Some? && t.pubs[p].process.Finalizing?
    ensures var t, u := Run(s, sofar), Run(s, steps);
            Inv(u) && p in u.pubs && u.pubs[p].local.pending.None? && u.hist == t.hist && t.hist.owner == Some(p) &&
            u.pubs[p].source == t.pubs[p].source
  {
    hide Run, StoreOk, LocalOk, Inv, LogsOk;
    var t := Run(s, sofar);
    InvParts(t, p);
    RunSnoc(s, sofar, Finalize(p));
    StepKeeps(t, Finalize(p));
    steps := sofar + [Finalize(p)];
  }
}
