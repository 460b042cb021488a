/** Admission: which builds run side by side. The recipe graph is fixed and the store only grows;
    what a running build still needs belongs to it alone. */
module SchedulingAdmission {
  import opened Wrappers
  import opened Collections
  import opened SchedulingGraph
  import opened SchedulingPolicy

  /** What a build still needs, given the paths that are available. */
  ghost function NeedOf(g: Graph, b: Build, available: set<Path>): set<Drv>
  {
    Needed(g, SetOf(b.targets), available)
  }

  /** What some builds hold between them. */
  ghost function HeldBy(g: Graph, builds: seq<Build>, available: set<Path>): set<Drv>
  {
    if builds == [] then {}
    else HeldBy(g, builds[..|builds| - 1], available) + NeedOf(g, builds[|builds| - 1], available)
  }

  /** Neither derivations nor output paths in common. */
  ghost predicate Apart(g: Graph, a: set<Drv>, b: set<Drv>)
  {
    a * b == {} && PathsOf(g, a) * PathsOf(g, b) == {}
  }

  /** No two builds still need the same derivation or would write the same output path. */
  ghost predicate Exclusive(g: Graph, builds: seq<Build>, store: set<Path>)
  {
    forall i, j :: 0 <= i < j < |builds| ==> Apart(g, NeedOf(g, builds[i], store), NeedOf(g, builds[j], store))
  }

  lemma ApartSmaller(g: Graph, a: set<Drv>, b: set<Drv>, a': set<Drv>, b': set<Drv>)
    requires Apart(g, a, b) && a' <= a && b' <= b
    ensures Apart(g, a', b')
  {
    PathsMonotone(g, a', a);
    PathsMonotone(g, b', b);
  }

  lemma HeldSnoc(g: Graph, builds: seq<Build>, b: Build, available: set<Path>)
    ensures HeldBy(g, builds + [b], available) == HeldBy(g, builds, available) + NeedOf(g, b, available)
  {
    assert (builds + [b])[..|builds|] == builds;
  }

  lemma {:induction false} HeldCovers(g: Graph, builds: seq<Build>, available: set<Path>, i: nat)
    requires i < |builds|
    ensures NeedOf(g, builds[i], available) <= HeldBy(g, builds, available)
  {
    hide Needed;
    if i < |builds| - 1 { HeldCovers(g, builds[..|builds| - 1], available, i); }
  }

  /** A store that grows releases ownership and never creates a conflict. */
  lemma ExclusiveGrows(g: Graph, builds: seq<Build>, store: set<Path>, more: set<Path>)
    requires Exclusive(g, builds, store) && store <= more
    ensures Exclusive(g, builds, more)
  {
    hide Needed, Apart;
    forall i, j | 0 <= i < j < |builds| ensures Apart(g, NeedOf(g, builds[i], more), NeedOf(g, builds[j], more)) {
      NeededAntitone(g, SetOf(builds[i].targets), store, more);
      NeededAntitone(g, SetOf(builds[j].targets), store, more);
      ApartSmaller(g, NeedOf(g, builds[i], store), NeedOf(g, builds[j], store),
                   NeedOf(g, builds[i], more), NeedOf(g, builds[j], more));
    }
  }

  lemma ExclusiveWithout(g: Graph, builds: seq<Build>, i: nat, store: set<Path>)
    requires Exclusive(g, builds, store) && i < |builds|
    ensures Exclusive(g, builds[..i] + builds[i + 1..], store)
  {
    hide Needed, Apart;
    var rest := builds[..i] + builds[i + 1..];
    forall j, k | 0 <= j < k < |rest| ensures Apart(g, NeedOf(g, rest[j], store), NeedOf(g, rest[k], store)) {
      var j', k' := if j < i then j else j + 1, if k < i then k else k + 1;
      assert rest[j] == builds[j'] && rest[k] == builds[k'] && j' < k';
    }
  }

  lemma ExclusiveSameTargets(g: Graph, builds: seq<Build>, i: nat, b: Build, store: set<Path>)
    requires Exclusive(g, builds, store) && i < |builds| && b.targets == builds[i].targets
    ensures Exclusive(g, builds[i := b], store)
  {
    hide Needed, Apart;
    var more := builds[i := b];
    forall j, k | 0 <= j < k < |more| ensures Apart(g, NeedOf(g, more[j], store), NeedOf(g, more[k], store)) {
      assert NeedOf(g, more[j], store) == NeedOf(g, builds[j], store);
      assert NeedOf(g, more[k], store) == NeedOf(g, builds[k], store);
    }
  }

  /** A build apart from all that is held, as far as is known to be available, is apart from
      every other build for good. */
  lemma ExclusiveAdmits(g: Graph, builds: seq<Build>, b: Build, known: set<Path>, store: set<Path>)
    requires Exclusive(g, builds, store) && known <= store
    requires Apart(g, NeedOf(g, b, known), HeldBy(g, builds, known))
    ensures Exclusive(g, builds + [b], store)
  {
    hide Needed, Apart, HeldBy;
    var all := builds + [b];
    forall i, j | 0 <= i < j < |all| ensures Apart(g, NeedOf(g, all[i], store), NeedOf(g, all[j], store)) {
      if j == |builds| {
        HeldCovers(g, builds, known, i);
        NeededAntitone(g, SetOf(builds[i].targets), known, store);
        NeededAntitone(g, SetOf(b.targets), known, store);
        ApartSmaller(g, NeedOf(g, b, known), HeldBy(g, builds, known), NeedOf(g, b, store), NeedOf(g, all[i], store));
        ApartSwap(g, NeedOf(g, b, store), NeedOf(g, all[i], store));
      }
    }
  }

  lemma ApartSwap(g: Graph, a: set<Drv>, b: set<Drv>)
    requires Apart(g, a, b)
    ensures Apart(g, b, a)
  {
  }

  lemma PathsUnion(g: Graph, a: set<Drv>, b: set<Drv>)
    ensures PathsOf(g, a + b) == PathsOf(g, a) + PathsOf(g, b)
  {
  }

  lemma ApartJoin(g: Graph, a: set<Drv>, b: set<Drv>, held: set<Drv>)
    requires Apart(g, a, held) && Apart(g, b, held)
    ensures Apart(g, a + b, held)
  {
    PathsUnion(g, a, b);
  }

  lemma {:induction false} NeededNothing(g: Graph, available: set<Path>)
    ensures Needed(g, {}, available) == {}
  {
    assert Closed(g, {}, available, {});
    NeededIsLeast(g, {}, available, {});
  }

  lemma NothingApart(g: Graph, held: set<Drv>)
    ensures Apart(g, {}, held)
  {
  }

  lemma OneBuildThreads(b: Build)
    requires !b.remote ==> b.limits.maxJobs >= 1 && b.limits.cores >= 1
    ensures Threads([b]) >= 0
  {
    if !b.remote { assert b.limits.maxJobs * b.limits.cores >= 0; }
  }

  /** One more free candidate leaves a batch free. */
  lemma BatchFree(g: Graph, targets: seq<Drv>, d: Drv, o: Observation)
    requires Apart(g, Needed(g, SetOf(targets), o.available), o.held)
    requires Apart(g, Needed(g, SetOf([d]), o.available), o.held)
    ensures Apart(g, Needed(g, SetOf(targets + [d]), o.available), o.held)
  {
    hide Needed, Apart;
    assert SetOf(targets + [d]) == SetOf(targets) + SetOf([d]);
    NeededUnion(g, SetOf(targets), SetOf([d]), o.available);
    ApartJoin(g, Needed(g, SetOf(targets), o.available), Needed(g, SetOf([d]), o.available), o.held);
  }

  /** What a scan of the running builds found: the paths known to be available and, given those,
      what the builds hold. */
  datatype Observation = Observation(held: set<Drv>, available: set<Path>)

  /** What a build is granted: a remote one no local job, a local one its share. */
  function LimitsFor(policy: Policy, active: seq<Build>, remote: bool): Limits
  {
    if remote || !HasRoom(policy, active) then Limits(0, policy.cores)
    else Split(Wanted(policy), policy.cores, policy.cpus - Threads(Considered(policy, active)))
  }

  lemma LocalOnlySnoc(builds: seq<Build>, b: Build)
    ensures LocalOnly(builds + [b]) == LocalOnly(builds) + if b.remote then [] else [b]
    ensures RemoteCount(builds + [b]) == RemoteCount(builds) + if b.remote then 1 else 0
  {
    assert (builds + [b])[..|builds|] == builds;
  }

  lemma CapacityShrinks(policy: Policy, active: seq<Build>, b: Build)
    requires policy.rolling
    ensures HasRoom(policy, active + [b]) ==> HasRoom(policy, active)
    ensures RemoteCount(active) <= RemoteCount(active + [b])
  {
    hide RoomBeside, LocalOnly, RemoteCount;
    LocalOnlySnoc(active, b);
    if !b.remote && HasRoom(policy, active + [b]) { RoomShrinks(policy, LocalOnly(active), b); }
    assert LocalOnly(active) + [] == LocalOnly(active);
  }

  /** Whether a lane and threads, or a slot of the build machines, are free. */
  predicate CapacityFor(policy: Policy, active: seq<Build>, remote: bool, machineJobs: int)
  {
    if remote then RemoteCount(active) < machineJobs else HasRoom(policy, active)
  }

  /** Whether a build of the targets shares nothing with what is held, and where it is to run
      remotely, only needs what the machines can build. */
  ghost predicate IsApart(g: Graph, targets: seq<Drv>, o: Observation, remote: bool, buildable: set<Drv>)
  {
    var needed := Needed(g, SetOf(targets), o.available);
    Apart(g, needed, o.held) && (remote ==> needed <= buildable)
  }

  /** Whether a candidate could be started as a build of its own, on a machine or locally. */
  ghost predicate Placeable(g: Graph, policy: Policy, active: seq<Build>, d: Drv, o: Observation, machineJobs: int,
                            buildable: set<Drv>)
  {
    (CapacityFor(policy, active, true, machineJobs) && IsApart(g, [d], o, true, buildable)) ||
    (CapacityFor(policy, active, false, machineJobs) && IsApart(g, [d], o, false, buildable))
  }

  /** Whether a build of one candidate was started after the first n builds. */
  ghost predicate Started(active: seq<Build>, d: Drv, n: nat)
  {
    exists k :: n <= k < |active| && active[k].targets == [d]
  }

  /** Candidates that were started, or could not be. */
  ghost predicate Settled(g: Graph, policy: Policy, active: seq<Build>, ds: seq<Drv>, n: nat, o: Observation,
                          machineJobs: int, buildable: set<Drv>)
  {
    forall j :: 0 <= j < |ds| ==> Started(active, ds[j], n) || !Placeable(g, policy, active, ds[j], o, machineJobs, buildable)
  }

  lemma ApartLess(g: Graph, d: Drv, o: Observation, more: Observation, remote: bool, buildable: set<Drv>)
    requires more.available == o.available && o.held <= more.held
    ensures IsApart(g, [d], more, remote, buildable) ==> IsApart(g, [d], o, remote, buildable)
  {
    hide Needed, Apart;
    var needed := Needed(g, SetOf([d]), o.available);
    if Apart(g, needed, more.held) { ApartSmaller(g, needed, more.held, needed, o.held); }
  }

  /** One more build leaves no more room, and no more that is free. */
  lemma SettledStays(g: Graph, policy: Policy, active: seq<Build>, b: Build, ds: seq<Drv>, n: nat, o: Observation,
                     more: Observation, machineJobs: int, buildable: set<Drv>)
    requires policy.rolling && more.available == o.available && o.held <= more.held
    requires Settled(g, policy, active, ds, n, o, machineJobs, buildable)
    ensures Settled(g, policy, active + [b], ds, n, more, machineJobs, buildable)
  {
    hide HasRoom, IsApart, RemoteCount;
    CapacityShrinks(policy, active, b);
    forall j | 0 <= j < |ds|
      ensures Started(active + [b], ds[j], n) || !Placeable(g, policy, active + [b], ds[j], more, machineJobs, buildable)
    {
      ApartLess(g, ds[j], o, more, true, buildable);
      ApartLess(g, ds[j], o, more, false, buildable);
      if Started(active, ds[j], n) {
        var k :| n <= k < |active| && active[k].targets == [ds[j]];
        assert (active + [b])[k] == active[k];
      }
    }
  }

  lemma SettledNone(g: Graph, policy: Policy, active: seq<Build>, n: nat, o: Observation, machineJobs: int, buildable: set<Drv>)
    ensures Settled(g, policy, active, [], n, o, machineJobs, buildable)
  {
  }

  lemma SettledNext(g: Graph, policy: Policy, active: seq<Build>, ds: seq<Drv>, d: Drv, n: nat, o: Observation,
                    machineJobs: int, buildable: set<Drv>)
    requires Settled(g, policy, active, ds, n, o, machineJobs, buildable)
    requires Started(active, d, n) || !Placeable(g, policy, active, d, o, machineJobs, buildable)
    ensures Settled(g, policy, active, ds + [d], n, o, machineJobs, buildable)
  {
    hide Placeable, Started;
  }

  /** Once there is no capacity at all, nothing more can be started. */
  lemma SettledAll(g: Graph, policy: Policy, active: seq<Build>, ds: seq<Drv>, i: nat, n: nat, o: Observation,
                   machineJobs: int, buildable: set<Drv>)
    requires i <= |ds| && Settled(g, policy, active, ds[..i], n, o, machineJobs, buildable)
    requires i == |ds| || (!CapacityFor(policy, active, true, machineJobs) && !CapacityFor(policy, active, false, machineJobs))
    ensures Settled(g, policy, active, ds, n, o, machineJobs, buildable)
  {
    hide CapacityFor, IsApart;
    forall j | 0 <= j < |ds|
      ensures Started(active, ds[j], n) || !Placeable(g, policy, active, ds[j], o, machineJobs, buildable)
    {
      if j < i { assert ds[..i][j] == ds[j]; }
    }
  }

  class Scheduler {
    const g: Graph
    var policy: Policy
    /** The paths that are really in the store. */
    var store: set<Path>
    /** Output paths of derivations recorded as available. */
    var recorded: set<Path>
    var active: seq<Build>

    constructor (g: Graph, policy: Policy)
      ensures Valid() && this.g == g && this.policy == policy && active == []
    {
      this.g, this.policy := g, policy;
      store, recorded, active := {}, {}, [];
    }

    /** Running builds own what they still need, their requested threads fit the processors, and
        every local one has a job and a core. */
    ghost predicate Valid()
      reads this
    {
      recorded <= store && (forall i :: 0 <= i < |active| ==> active[i].before <= store) &&
      Exclusive(g, active, store) && Threads(active) <= policy.cpus && RemoteMeansNoJobs(active) &&
      forall i :: 0 <= i < |active| && !active[i].remote ==> active[i].limits.maxJobs >= 1 && active[i].limits.cores >= 1
    }

    /** An observation that is still good: nothing it calls available is missing, and it holds
        what the running builds need. */
    ghost predicate Sound(o: Observation)
      reads this
    {
      o.available <= store && o.held == HeldBy(g, active, o.available)
    }

    /** Recomputes what the running builds hold, asking the store only about their outputs. */
    method Reservations(observed: set<Path>) returns (o: Observation)
      requires Valid() && observed <= store
      ensures Sound(o) && recorded + observed <= o.available
      ensures forall i :: 0 <= i < |active| ==> active[i].before <= o.available
    {
      hide Needed, Exclusive;
      var held, available := {}, observed + recorded;
      for i := 0 to |active|
        invariant observed + recorded <= available <= store
        invariant forall j :: 0 <= j < i ==> active[j].before <= available
      {
        available := available + active[i].before;
        var needed := FindNeeded(g, active[i].targets, active[i].before);
        held := held + needed;
      }
      available := available + PathsOf(g, held) * store;
      held := {};
      for i := 0 to |active|
        invariant held == HeldBy(g, active[..i], available)
      {
        var needed := FindNeeded(g, active[i].targets, available);
        assert active[..i + 1] == active[..i] + [active[i]];
        HeldSnoc(g, active[..i], active[i], available);
        held := held + needed;
      }
      assert active[..|active|] == active;
      o := Observation(held, available);
    }

    method IsFree(targets: seq<Drv>, o: Observation, remote: bool, buildable: set<Drv>) returns (ok: bool)
      ensures ok == IsApart(g, targets, o, remote, buildable)
    {
      hide Needed;
      var needed := FindNeeded(g, targets, o.available);
      ok := needed * o.held == {} && PathsOf(g, needed) * PathsOf(g, o.held) == {} && (!remote || needed <= buildable);
    }

    /** The observation once a build of the targets runs as well. */
    ghost function With(o: Observation, targets: seq<Drv>): Observation
    {
      Observation(o.held + Needed(g, SetOf(targets), o.available), o.available)
    }

    /** Starts a build that is free, within the limits given to it. */
    method Start(b: Build, ghost o: Observation, ghost buildable: set<Drv>)
      requires Valid() && Sound(o) && IsApart(g, b.targets, o, b.remote, buildable) && b.before <= store
      requires b.limits == LimitsFor(policy, active, b.remote) && (!b.remote ==> HasRoom(policy, active))
      modifies this`active
      ensures Valid() && active == old(active) + [b] && Sound(With(o, b.targets))
    {
      hide Needed, Exclusive, Apart, HasRoom, Split, HeldBy;
      ExclusiveAdmits(g, active, b, o.available, store);
      HeldSnoc(g, active, b, o.available);
      ThreadsSnoc(active, b);
      if !b.remote { AdmittedFits(policy, active, b); }
      active := active + [b];
    }

    /** Whether a build is checked against what others hold: always, unless it is alone in its
        only lane. */
    predicate Checks(observation: Option<Observation>)
      reads this
    {
      observation.Some? || policy.lanes > 1 || active != [] || policy.rolling
    }

    /** Admits one build of the given targets. Given an observation it does so exactly when there
        is capacity and the build is free; without one it observes for itself where it needs to. */
    method Intent(targets: seq<Drv>, remote: bool, machineJobs: int, buildable: set<Drv>, observation: Option<Observation>)
      returns (ok: bool)
      requires Valid() && (observation.Some? ==> Sound(observation.value)) && (remote ==> policy.rolling)
      modifies this`active
      ensures Valid() && (!ok ==> active == old(active))
      ensures ok ==> old(CapacityFor(policy, active, remote, machineJobs)) && |active| == |old(active)| + 1 &&
                     active[..|old(active)|] == old(active) &&
                     active[|old(active)|].targets == targets && active[|old(active)|].remote == remote &&
                     active[|old(active)|].limits == LimitsFor(policy, old(active), remote)
      ensures observation.Some? ==>
                (ok <==> old(CapacityFor(policy, active, remote, machineJobs)) && IsApart(g, targets, observation.value, remote, buildable)) &&
                (ok ==> Sound(With(observation.value, targets)))
    {
      hide Needed, Exclusive, Apart, HasRoom, Split, HeldBy, IsApart, Threads, RemoteCount, LocalOnly;
      var effective := BuildPolicy(policy, active, remote, machineJobs);
      if effective.None? { return false; }
      if Checks(observation) {
        var o: Observation;
        if observation.Some? { o := observation.value; } else { o := Reservations({}); }
        ok := IsFree(targets, o, remote, buildable);
        if ok { Start(Build(targets, o.available, effective.value, remote), o, buildable); }
      } else {
        StartAlone(Build(targets, {}, effective.value, remote));
        ok := true;
      }
    }

    /** Starts a build where none runs. */
    method StartAlone(b: Build)
      requires Valid() && active == [] && b.before <= store && !b.remote && HasRoom(policy, active)
      requires b.limits == LimitsFor(policy, active, false)
      modifies this`active
      ensures Valid() && active == [b]
    {
      hide Needed, Exclusive, Apart, HasRoom, Split, HeldBy, Threads, LimitsFor;
      AdmittedAlone(b);
      active := active + [b];
    }

    lemma AdmittedAlone(b: Build)
      requires Valid() && active == [] && b.before <= store && !b.remote && HasRoom(policy, active)
      requires b.limits == LimitsFor(policy, active, false)
      ensures Exclusive(g, active + [b], store) && Threads(active + [b]) <= policy.cpus
      ensures b.limits.maxJobs >= 1 && b.limits.cores >= 1
    {
      hide Needed;
      AdmittedFits(policy, active, b);
    }

    /** Rolling admission: each candidate that shares nothing with what runs starts as a build of
        its own, on a machine if one can build it and locally otherwise, while there is room.
        No build that this loop hands over lacks capacity or a dependency of its own, and no
        candidate that is left could still be started. */
    method AdmitRolling(candidates: seq<Drv>, observed: set<Path>, machineJobs: int, buildable: set<Drv>)
      returns (ghost o: Observation)
      requires Valid() && policy.rolling && observed <= store
      modifies this`active
      ensures Valid() && Sound(o) && old(active) <= active
      ensures forall k :: |old(active)| <= k < |active| ==> |active[k].targets| == 1 && active[k].targets[0] in candidates
      ensures Settled(g, policy, active, candidates, |old(active)|, o, machineJobs, buildable)
    {
      hide Needed, Exclusive, Apart, HasRoom, Split, HeldBy, IsApart, LocalOnly, RemoteCount, Threads, Settled;
      var seen := Reservations(observed);
      var remote := BuildPolicy(policy, active, true, machineJobs);
      var local := BuildPolicy(policy, active, false, machineJobs);
      SettledNone(g, policy, active, |active|, seen, machineJobs, buildable);
      var i := 0;
      while i < |candidates| && (remote.Some? || local.Some?)
        invariant i <= |candidates| && Valid() && Sound(seen) && old(active) <= active && policy == old(policy)
        invariant remote.Some? <==> CapacityFor(policy, active, true, machineJobs)
        invariant local.Some? <==> CapacityFor(policy, active, false, machineJobs)
        invariant forall k :: |old(active)| <= k < |active| ==> |active[k].targets| == 1 && active[k].targets[0] in candidates
        invariant Settled(g, policy, active, candidates[..i], |old(active)|, seen, machineJobs, buildable)
      {
        assert candidates[..i + 1] == candidates[..i] + [candidates[i]];
        seen := AdmitOne(candidates[i], seen, remote.Some?, local.Some?, machineJobs, buildable, candidates[..i], |old(active)|);
        remote := BuildPolicy(policy, active, true, machineJobs);
        local := BuildPolicy(policy, active, false, machineJobs);
        i := i + 1;
      }
      o := seen;
      SettledAll(g, policy, active, candidates, i, |old(active)|, o, machineJobs, buildable);
    }

    /** Considers one candidate; those considered before stay started or without a place. */
    method AdmitOne(d: Drv, o: Observation, remote: bool, local: bool, machineJobs: int, buildable: set<Drv>,
                    ghost before: seq<Drv>, ghost n: nat) returns (more: Observation)
      requires Valid() && Sound(o) && policy.rolling && n <= |active|
      requires (remote <==> CapacityFor(policy, active, true, machineJobs)) && (local <==> CapacityFor(policy, active, false, machineJobs))
      requires Settled(g, policy, active, before, n, o, machineJobs, buildable)
      modifies this`active
      ensures Valid() && Sound(more) && (active == old(active) || (|active| == |old(active)| + 1 && old(active) <= active))
      ensures forall k :: |old(active)| <= k < |active| ==> active[k].targets == [d]
      ensures Settled(g, policy, active, before + [d], n, more, machineJobs, buildable)
    {
      hide Valid, Sound, Needed, Exclusive, Apart, HasRoom, Split, HeldBy, IsApart, Threads, CapacityFor, Settled, LimitsFor;
      var needed := FindNeeded(g, [d], o.available);
      var away := false;
      if remote { away := IsFree([d], o, true, buildable); }
      var here := IsFree([d], o, false, buildable);
      if !away && !(here && local) {
        SettledNext(g, policy, active, before, d, n, o, machineJobs, buildable);
        return o;
      }
      var ok := Intent([d], away, machineJobs, buildable, Some(o));
      assert ok;
      more := Observation(o.held + needed, o.available);
      var b := active[|old(active)|];
      assert active == active[..|old(active)|] + [b];
      SettledStays(g, policy, old(active), b, before, n, o, more, machineJobs, buildable);
      assert Started(active, d, n);
      SettledNext(g, policy, active, before, d, n, more, machineJobs, buildable);
    }

    /** Batched admission: candidates that share nothing with what runs become the targets of one
        build, up to the batch size; none that is free is left out of a batch that is not full. */
    method AdmitBatched(candidates: seq<Drv>, observed: set<Path>) returns (targets: seq<Drv>, ghost o: Observation)
      requires Valid() && !policy.rolling && observed <= store && HasRoom(policy, active) && policy.batchSize >= 1
      modifies this`active
      ensures Valid() && |targets| <= policy.batchSize && forall d :: d in targets ==> d in candidates
      ensures old(Sound(o)) && forall d :: d in candidates ==>
                d in targets || |targets| == policy.batchSize || !IsApart(g, [d], o, false, {})
      ensures targets == [] ==> active == old(active)
      ensures targets != [] ==> |active| == |old(active)| + 1 && active[..|old(active)|] == old(active) &&
                                active[|old(active)|].targets == targets
    {
      hide Needed, Exclusive, Apart, HasRoom, Split, HeldBy, Threads;
      var seen := Reservations(observed);
      targets := [];
      NeededNothing(g, seen.available);
      NothingApart(g, seen.held);
      assert SetOf([]) == {};
      var i := 0;
      while i < |candidates| && |targets| < policy.batchSize
        invariant i <= |candidates| && active == old(active) && Valid() && Sound(seen) && IsApart(g, targets, seen, false, {})
        invariant |targets| <= policy.batchSize && forall d :: d in targets ==> d in candidates
        invariant forall j :: 0 <= j < i ==> candidates[j] in targets || !IsApart(g, [candidates[j]], seen, false, {})
      {
        var free := IsFree([candidates[i]], seen, false, {});
        if free {
          BatchFree(g, targets, candidates[i], seen);
          targets := targets + [candidates[i]];
        }
        i := i + 1;
      }
      o := seen;
      if targets != [] {
        var ok := Intent(targets, false, 0, {}, Some(seen));
        assert ok;
      }
    }

    /** A build finishes: what it held is released. */
    method Complete(i: nat)
      requires Valid() && i < |active|
      modifies this`active
      ensures Valid() && active == old(active)[..i] + old(active)[i + 1..]
    {
      hide Needed, Apart, Threads, Exclusive;
      ExclusiveWithout(g, active, i, store);
      ThreadsWithout(active, i);
      OneBuildThreads(active[i]);
      active := active[..i] + active[i + 1..];
    }

    /** Outputs are realised, by any build or from elsewhere. */
    method Realise(paths: set<Path>)
      requires Valid()
      modifies this`store
      ensures Valid() && store == old(store) + paths
    {
      ExclusiveGrows(g, active, store, store + paths);
      store := store + paths;
    }

    /** Realised outputs are recorded as available. */
    method Record(paths: set<Path>)
      requires Valid() && paths <= store
      modifies this`recorded
      ensures Valid() && recorded == old(recorded) + paths
    {
      recorded := recorded + paths;
    }

    /** A started build writes down which of its paths it found valid. */
    method Begin(i: nat, before: set<Path>)
      requires Valid() && i < |active| && before <= store
      modifies this`active
      ensures Valid() && active == old(active)[i := old(active)[i].(before := before)]
    {
      hide Needed, Apart, Threads, Exclusive;
      var b := active[i].(before := before);
      ExclusiveSameTargets(g, active, i, b, store);
      ThreadsSameLimits(active, i, b);
      active := active[i := b];
    }

    /** Changes the admission settings of the campaign; limits of builds that run do not change. */
    method Reschedule(batchSize: Option<int>, planAhead: Option<int>, lanes: Option<int>, rolling: Option<bool>)
      returns (ok: bool)
      requires Valid()
      modifies this`policy
      ensures Valid() && (!ok ==> policy == old(policy))
      ensures policy.cpus == old(policy.cpus) && policy.cores == old(policy.cores) && policy.maxJobs == old(policy.maxJobs)
      ensures ok && policy.rolling ==> policy.planAhead > 0
      ensures ok ==> policy.batchSize == (if batchSize.Some? then batchSize.value else old(policy.batchSize)) &&
                     policy.planAhead == (if planAhead.Some? then planAhead.value else old(policy.planAhead)) &&
                     policy.lanes == (if lanes.Some? then lanes.value else old(policy.lanes)) &&
                     policy.rolling == (if rolling.Some? then rolling.value else old(policy.rolling))
    {
      if batchSize.Some? && !(1 <= batchSize.value <= 64) { return false; }
      if planAhead.Some? && !(0 <= planAhead.value <= 256) { return false; }
      if lanes.Some? && !(1 <= lanes.value <= 2) { return false; }
      var after := policy.(batchSize := if batchSize.Some? then batchSize.value else policy.batchSize,
                           planAhead := if planAhead.Some? then planAhead.value else policy.planAhead,
                           lanes := if lanes.Some? then lanes.value else policy.lanes,
                           rolling := if rolling.Some? then rolling.value else policy.rolling);
      if after.rolling && after.planAhead == 0 { return false; }
      policy := after;
      return true;
    }
  }
}
