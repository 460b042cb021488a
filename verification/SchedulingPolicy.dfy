/** How many threads a new build may request, given the builds that run already. */
module SchedulingPolicy {
  import opened Wrappers
  import opened Sequences
  import opened Collections
  import opened SchedulingGraph

  /** The limits a build was admitted with stay its own for as long as it runs. */
  datatype Limits = Limits(maxJobs: int, cores: int)

  /** An active build attempt. */
  datatype Build = Build(targets: seq<Drv>, before: set<Path>, limits: Limits, remote: bool)

  /** A campaign's policy. Of these only the batch size, look-ahead, lanes and scheduling can be
      changed while the campaign exists. */
  datatype Policy = Policy(rolling: bool, maxJobs: int, cores: int, lanes: int, planAhead: nat, batchSize: int, cpus: nat)

  function Threads(builds: seq<Build>): int
  {
    if builds == [] then 0
    else
      var b := builds[|builds| - 1];
      Threads(builds[..|builds| - 1]) + (if b.remote then 0 else b.limits.maxJobs * b.limits.cores)
  }

  function RemoteCount(builds: seq<Build>): nat
  {
    if builds == [] then 0
    else RemoteCount(builds[..|builds| - 1]) + (if builds[|builds| - 1].remote then 1 else 0)
  }

  function LocalOnly(builds: seq<Build>): seq<Build>
  {
    if builds == [] then []
    else
      LocalOnly(builds[..|builds| - 1]) +
      (if builds[|builds| - 1].remote then [] else [builds[|builds| - 1]])
  }

  function LanesOf(policy: Policy): int
  {
    if policy.rolling then policy.maxJobs else if policy.planAhead > 0 then policy.lanes else 1
  }

  lemma ThreadsSnoc(builds: seq<Build>, b: Build)
    ensures Threads(builds + [b]) == Threads(builds) + if b.remote then 0 else b.limits.maxJobs * b.limits.cores
  {
    assert (builds + [b])[..|builds|] == builds;
  }

  lemma {:induction false} ThreadsConcat(a: seq<Build>, b: seq<Build>)
    ensures Threads(a + b) == Threads(a) + Threads(b)
  {
    if b == [] {
      assert a + b == a;
    } else {
      hide Threads;
      var rest, last := b[..|b| - 1], b[|b| - 1];
      ThreadsConcat(a, rest);
      Snoc(a, b);
      ThreadsSnoc(a + rest, last);
      ThreadsSnoc(rest, last);
    }
  }

  /** A build that ends gives back its threads. */
  lemma ThreadsWithout(builds: seq<Build>, i: nat)
    requires i < |builds|
    ensures Threads(builds[..i] + builds[i + 1..]) == Threads(builds) - Threads([builds[i]])
  {
    hide Threads;
    var a, b, c := builds[..i], [builds[i]], builds[i + 1..];
    Around(builds, i);
    Associates(a, b, c);
    ThreadsConcat(a, b + c);
    ThreadsConcat(b, c);
    ThreadsConcat(a, c);
  }

  lemma ThreadsSameLimits(builds: seq<Build>, i: nat, b: Build)
    requires i < |builds| && b.limits == builds[i].limits && b.remote == builds[i].remote
    ensures Threads(builds[i := b]) == Threads(builds)
  {
    ThreadsWithout(builds, i);
    var more := builds[i := b];
    ThreadsWithout(more, i);
    assert more[..i] == builds[..i] && more[i + 1..] == builds[i + 1..];
    assert Threads([b]) == Threads([builds[i]]);
  }

  lemma {:induction false} ThreadsLocalOnly(builds: seq<Build>)
    ensures Threads(LocalOnly(builds)) == Threads(builds)
    ensures forall i :: 0 <= i < |LocalOnly(builds)| ==> !LocalOnly(builds)[i].remote
  {
    if builds != [] {
      ThreadsLocalOnly(builds[..|builds| - 1]);
      var b := builds[|builds| - 1];
      if b.remote {
        assert LocalOnly(builds) == LocalOnly(builds[..|builds| - 1]);
      } else {
        ThreadsSnoc(LocalOnly(builds[..|builds| - 1]), b);
      }
    }
  }

  function Jobs(builds: seq<Build>): int
  {
    if builds == [] then 0 else Jobs(builds[..|builds| - 1]) + builds[|builds| - 1].limits.maxJobs
  }

  /** The share of the remaining threads a build gets: some of the wanted jobs and cores, no more than
      remain; one job more at the wanted cores would be too many, and so would one core more for
      each job; and no job is added by taking cores from the others. */
  predicate IsShare(wanted: int, cores: int, remaining: int, l: Limits)
  {
    1 <= l.maxJobs <= wanted && 1 <= l.cores <= cores && l.maxJobs * l.cores <= remaining &&
    (l.maxJobs == wanted || (l.maxJobs + 1) * cores > remaining) &&
    (l.cores == cores || l.maxJobs * (l.cores + 1) > remaining) &&
    (l.maxJobs == 1 || l.cores == cores)
  }

  /** As many of the wanted jobs as have the wanted cores, then as many cores as each can have. */
  function Split(wanted: int, cores: int, remaining: int): Limits
    requires wanted >= 1 && cores >= 1 && remaining >= 1
  {
    var jobs := Min(wanted, Max(1, remaining / cores));
    Limits(jobs, Min(cores, remaining / jobs))
  }

  /** Splitting gives that share, and there is no other. */
  lemma SplitIsShare(wanted: int, cores: int, remaining: int, l: Limits)
    requires wanted >= 1 && cores >= 1 && remaining >= 1
    ensures IsShare(wanted, cores, remaining, l) <==> l == Split(wanted, cores, remaining)
  {
    var s := Split(wanted, cores, remaining);
    SplitFits(wanted, cores, remaining);
    SplitFull(wanted, cores, remaining);
    if IsShare(wanted, cores, remaining, l) {
      SameJobs(wanted, cores, remaining, l, s);
      SameJobs(wanted, cores, remaining, s, l);
      SameCores(wanted, cores, remaining, l, s);
      SameCores(wanted, cores, remaining, s, l);
    }
  }

  lemma SplitFull(wanted: int, cores: int, remaining: int)
    requires wanted >= 1 && cores >= 1 && remaining >= 1
    ensures var l := Split(wanted, cores, remaining);
            (l.maxJobs == wanted || (l.maxJobs + 1) * cores > remaining) &&
            (l.cores == cores || l.maxJobs * (l.cores + 1) > remaining) && (l.maxJobs == 1 || l.cores == cores)
  {
    var most := remaining / cores;
    var l := Split(wanted, cores, remaining);
    QuotientNext(remaining, cores);
    QuotientNext(remaining, l.maxJobs);
    if l.maxJobs < wanted { MultiplyMonotone(cores, most + 1, l.maxJobs + 1); }
    if l.maxJobs > 1 {
      QuotientFits(remaining, cores);
      MultiplyMonotone(cores, l.maxJobs, most);
      QuotientAtLeast(remaining, l.maxJobs, cores);
    }
  }

  lemma QuotientNext(n: int, d: int)
    requires n >= 1 && d >= 1
    ensures d * (n / d + 1) > n
  {
  }

  lemma QuotientAtLeast(n: int, d: int, k: int)
    requires n >= 1 && d >= 1 && d * k <= n
    ensures n / d >= k
  {
    if n / d < k {
      QuotientNext(n, d);
      MultiplyMonotone(d, n / d + 1, k);
    }
  }

  lemma SameJobs(wanted: int, cores: int, remaining: int, l: Limits, m: Limits)
    requires cores >= 1 && IsShare(wanted, cores, remaining, l) && IsShare(wanted, cores, remaining, m)
    ensures l.maxJobs <= m.maxJobs
  {
    if m.maxJobs < l.maxJobs { MultiplyMonotone(cores, m.maxJobs + 1, l.maxJobs); }
  }

  lemma SameCores(wanted: int, cores: int, remaining: int, l: Limits, m: Limits)
    requires IsShare(wanted, cores, remaining, l) && IsShare(wanted, cores, remaining, m) && l.maxJobs == m.maxJobs
    ensures l.cores <= m.cores
  {
    if m.cores < l.cores { MultiplyMonotone(l.maxJobs, m.cores + 1, l.cores); }
  }

  /** Splitting never asks for more than remains, and gives every build a job and a core. */
  lemma SplitFits(wanted: int, cores: int, remaining: int)
    requires wanted >= 1 && cores >= 1 && remaining >= 1
    ensures var l := Split(wanted, cores, remaining);
            1 <= l.maxJobs <= wanted && 1 <= l.cores <= cores && l.maxJobs * l.cores <= remaining
  {
    var most := remaining / cores;
    var l := Split(wanted, cores, remaining);
    QuotientFits(remaining, cores);
    QuotientFits(remaining, l.maxJobs);
    MultiplyMonotone(l.maxJobs, l.cores, remaining / l.maxJobs);
    if most >= 1 {
      MultiplyMonotone(cores, l.maxJobs, most);
      QuotientAtLeastOne(remaining, l.maxJobs, cores);
    }
  }

  lemma QuotientFits(n: int, d: int)
    requires n >= 1 && d >= 1
    ensures d * (n / d) <= n
  {
  }

  lemma MultiplyMonotone(a: int, b: int, c: int)
    requires a >= 0 && b <= c
    ensures a * b <= a * c
  {
  }

  lemma QuotientAtLeastOne(n: int, d: int, k: int)
    requires n >= 1 && d >= 1 && k >= 1 && k * d <= n
    ensures n / d >= 1
  {
    if n / d < 1 {
      assert n == d * (n / d) + n % d;
      assert n / d == 0;
      MultiplyMonotone(d, 1, k);
    }
  }

  /** The builds that count against local lanes and threads. */
  function Considered(policy: Policy, active: seq<Build>): seq<Build>
  {
    if policy.rolling then LocalOnly(active) else active
  }

  /** Whether a lane and a thread are free beside some builds. */
  predicate RoomBeside(policy: Policy, builds: seq<Build>)
  {
    var remaining := policy.cpus - Threads(builds);
    |builds| < LanesOf(policy) && policy.cores >= 1 && remaining >= 1 &&
    (forall i :: 0 <= i < |builds| ==> HasOwn(builds[i])) &&
    (policy.rolling ==> Jobs(builds) < policy.maxJobs && remaining >= policy.cores)
  }

  /** A local build with a job and a core of its own. */
  predicate HasOwn(b: Build)
  {
    b.limits.maxJobs > 0 && b.limits.cores > 0 && !b.remote
  }

  /** Whether a lane and a thread are free for one more local build. */
  predicate HasRoom(policy: Policy, active: seq<Build>)
  {
    RoomBeside(policy, Considered(policy, active))
  }

  /** A build that starts takes room and makes none. */
  lemma RoomShrinks(policy: Policy, builds: seq<Build>, b: Build)
    requires RoomBeside(policy, builds + [b])
    ensures RoomBeside(policy, builds)
  {
    hide Threads, Jobs, HasOwn;
    ThreadsSnoc(builds, b);
    JobsSnoc(builds, b);
    assert (builds + [b])[|builds|] == b;
    OwnThreads(b);
    forall i | 0 <= i < |builds| ensures HasOwn(builds[i]) {
      assert (builds + [b])[i] == builds[i];
    }
  }

  lemma JobsSnoc(builds: seq<Build>, b: Build)
    ensures Jobs(builds + [b]) == Jobs(builds) + b.limits.maxJobs
  {
    assert (builds + [b])[..|builds|] == builds;
  }

  lemma OwnThreads(b: Build)
    requires HasOwn(b)
    ensures b.limits.maxJobs * b.limits.cores >= 1 && b.limits.maxJobs >= 1 && !b.remote
  {
  }

  /** The jobs a new local build would have, were threads no concern. */
  function Wanted(policy: Policy): int
    requires LanesOf(policy) >= 1
  {
    if policy.rolling then 1 else Max(1, policy.maxJobs / LanesOf(policy))
  }

  /** How many jobs a build should have: one if rolling; all there may be if it is the only one; and
      otherwise the most that all lanes can have of them, but at least one. */
  predicate IsFair(policy: Policy, jobs: int)
  {
    jobs >= 1 &&
    if policy.rolling then jobs == 1
    else if policy.planAhead == 0 then jobs == policy.maxJobs || (jobs == 1 && policy.maxJobs < 1)
    else (jobs == 1 || jobs * policy.lanes <= policy.maxJobs) && (jobs + 1) * policy.lanes > policy.maxJobs
  }

  lemma WantedIsFair(policy: Policy, jobs: int)
    requires LanesOf(policy) >= 1
    ensures IsFair(policy, jobs) <==> jobs == Wanted(policy)
  {
    if !policy.rolling && policy.planAhead > 0 { GreatestShare(policy.maxJobs, policy.lanes, jobs); }
  }

  /** The quotient is the most that each can have, taking it to be at least one. */
  lemma GreatestShare(all: int, lanes: int, jobs: int)
    requires lanes >= 1
    ensures jobs == Max(1, all / lanes) <==> jobs >= 1 && (jobs == 1 || jobs * lanes <= all) && (jobs + 1) * lanes > all
  {
    QuotientBounds(all, lanes);
    var most := all / lanes;
    if jobs > most { MultiplyMonotone(lanes, most + 1, jobs); }
    if jobs < most { MultiplyMonotone(lanes, jobs + 1, most); }
    if jobs >= most { MultiplyMonotone(lanes, most + 1, jobs + 1); }
  }

  lemma QuotientBounds(n: int, d: int)
    requires d >= 1
    ensures d * (n / d) <= n < d * (n / d + 1)
  {
  }

  /** An idle machine always grants a place, and without look-ahead batched builds never overlap. */
  lemma RoomWhenIdle(policy: Policy, active: seq<Build>)
    requires policy.maxJobs >= 1 && policy.cores >= 1 && policy.cpus >= 1 && policy.lanes >= 1
    ensures active == [] ==> (HasRoom(policy, active) <==> policy.rolling ==> policy.cpus >= policy.cores)
    ensures !policy.rolling && policy.planAhead == 0 ==> (HasRoom(policy, active) <==> active == [])
  {
  }

  lemma LocalSnoc(builds: seq<Build>, b: Build)
    ensures LocalOnly(builds + [b]) == LocalOnly(builds) + if b.remote then [] else [b]
  {
    assert (builds + [b])[..|builds|] == builds;
  }

  /** With one more local build no more lanes are taken than there are; and rolling, that build has one
      job with all the cores asked for, and all local builds together no more jobs than allowed. */
  lemma LanesKept(policy: Policy, active: seq<Build>, b: Build)
    requires HasRoom(policy, active) && !b.remote
    requires b.limits == Split(Wanted(policy), policy.cores, policy.cpus - Threads(Considered(policy, active)))
    ensures |Considered(policy, active + [b])| <= LanesOf(policy)
    ensures policy.rolling ==> b.limits == Limits(1, policy.cores) && Jobs(LocalOnly(active + [b])) <= policy.maxJobs
  {
    hide Threads, Jobs;
    LocalSnoc(active, b);
    JobsSnoc(Considered(policy, active), b);
    SplitIsShare(Wanted(policy), policy.cores, policy.cpus - Threads(Considered(policy, active)), b.limits);
  }

  /** Placed remotely only where no local job is asked for. */
  predicate RemoteMeansNoJobs(active: seq<Build>)
  {
    forall i :: 0 <= i < |active| && active[i].remote ==> active[i].limits.maxJobs == 0
  }

  /** The limits a new build gets, or none while lanes or threads are taken. A remote build takes
      a slot of the build machines and no local job. */
  method BuildPolicy(policy: Policy, active: seq<Build>, remote: bool, machineJobs: int) returns (r: Option<Limits>)
    requires RemoteMeansNoJobs(active)
    ensures policy.rolling && remote ==>
              r == if RemoteCount(active) >= machineJobs then None else Some(Limits(0, policy.cores))
    ensures !(policy.rolling && remote) ==> (r.Some? <==> HasRoom(policy, active))
    ensures !(policy.rolling && remote) && r.Some? ==>
              r.value == Split(Wanted(policy), policy.cores, policy.cpus - Threads(Considered(policy, active)))
    ensures !(policy.rolling && remote) && r.Some? ==>
              IsFair(policy, Wanted(policy)) &&
              IsShare(Wanted(policy), policy.cores, policy.cpus - Threads(Considered(policy, active)), r.value)
  {
    hide Threads, Jobs, LocalOnly, RemoteCount;
    if policy.rolling && remote {
      if RemoteCount(active) >= machineJobs { return None; }
      return Some(Limits(0, policy.cores));
    }
    var builds := Considered(policy, active);
    ThreadsLocalOnly(active);
    var lanes := LanesOf(policy);
    if |builds| >= lanes { return None; }
    var counted, remaining, remainingJobs := Remaining(policy, builds);
    if !counted { return None; }
    assert forall i :: 0 <= i < |builds| ==> !builds[i].remote by {
      if !policy.rolling { assert builds == active; }
    }
    var wanted, cores := Wanted(policy), policy.cores;
    if policy.rolling && (remainingJobs < 1 || remaining < cores) { return None; }
    if remaining < 1 || cores < 1 { return None; }
    var jobs := Min(wanted, Max(1, remaining / cores));
    WantedIsFair(policy, wanted);
    SplitIsShare(wanted, cores, remaining, Limits(jobs, Min(cores, remaining / jobs)));
    return Some(Limits(jobs, Min(cores, remaining / jobs)));
  }

  /** What the running builds leave of processors and jobs, unless one of them has no job or no
      core of its own to count. */
  method Remaining(policy: Policy, builds: seq<Build>) returns (ok: bool, remaining: int, jobs: int)
    requires forall i :: 0 <= i < |builds| && builds[i].remote ==> builds[i].limits.maxJobs == 0
    ensures ok <==> forall i :: 0 <= i < |builds| ==> builds[i].limits.maxJobs > 0 && builds[i].limits.cores > 0
    ensures ok ==> remaining == policy.cpus - Threads(builds) && jobs == policy.maxJobs - Jobs(builds)
  {
    ok, remaining, jobs := true, policy.cpus as int, policy.maxJobs;
    for i := 0 to |builds|
      invariant forall j :: 0 <= j < i ==> builds[j].limits.maxJobs > 0 && builds[j].limits.cores > 0
      invariant remaining == policy.cpus - Threads(builds[..i]) && jobs == policy.maxJobs - Jobs(builds[..i])
    {
      var limits := builds[i].limits;
      if limits.maxJobs <= 0 || limits.cores <= 0 { return false, 0, 0; }
      assert builds[..i + 1][..i] == builds[..i];
      remaining := remaining - limits.maxJobs * limits.cores;
      jobs := jobs - limits.maxJobs;
    }
    assert builds[..|builds|] == builds;
  }

  /** A local build admitted with the limits it is given keeps all local builds together within
      the processors. */
  lemma AdmittedFits(policy: Policy, active: seq<Build>, b: Build)
    requires HasRoom(policy, active) && !b.remote
    requires b.limits == Split(Wanted(policy), policy.cores, policy.cpus - Threads(Considered(policy, active)))
    ensures b.limits.maxJobs >= 1 && b.limits.cores >= 1 && Threads(active + [b]) <= policy.cpus
  {
    ThreadsLocalOnly(active);
    ThreadsSnoc(active, b);
    SplitFits(Wanted(policy), policy.cores, policy.cpus - Threads(Considered(policy, active)));
  }
}
