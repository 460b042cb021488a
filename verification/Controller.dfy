/** The campaign controller: attempts are intended, run and finish; candidates follow; queued
    replans are consumed or skipped. Each method is one transaction. */
module Controller {
  import opened Wrappers
  import opened Collections
  import opened Reachability
  import opened Candidates

  datatype Phase = Intended | Active | Finished

  datatype Targets = PlanOf(ids: seq<nat>) | BuildOf(drvs: seq<Node>)

  datatype Replan = Replan(source: nat, revision: nat, request: nat)

  /** An attempt with its immutable specification: what it works on, the derivations a build
      covers, and the queued requests a plan consumed. */
  datatype Attempt = Attempt(campaign: nat, targets: Targets, phase: Phase, derivations: set<Node>, consumed: map<nat, Replan>)

  /** A candidate and a request queued for it. */
  datatype Ticket = Ticket(candidate: nat, request: nat)

  type Attempts = map<nat, Attempt>
  type Rows = map<nat, Candidate>

  predicate IsActive(a: Attempt)
  {
    !a.phase.Finished?
  }

  // ----- What every reachable state satisfies -----

  /** All active attempts belong to one campaign. */
  ghost predicate OneCampaign(attempts: Attempts)
  {
    forall x, y :: x in attempts && y in attempts && IsActive(attempts[x]) && IsActive(attempts[y]) ==>
      attempts[x].campaign == attempts[y].campaign
  }

  predicate IsActivePlan(attempts: Attempts, x: nat)
  {
    x in attempts && IsActive(attempts[x]) && attempts[x].targets.PlanOf?
  }

  /** At most one plan is active. */
  ghost predicate OnePlan(attempts: Attempts)
  {
    forall x, y :: IsActivePlan(attempts, x) && IsActivePlan(attempts, y) ==> x == y
  }

  predicate IsBuilding(attempts: Attempts, x: nat, campaign: nat, d: Node)
  {
    x in attempts && IsActive(attempts[x]) && attempts[x].targets.BuildOf? && attempts[x].campaign == campaign &&
    d in attempts[x].targets.drvs
  }

  ghost predicate Building(attempts: Attempts, campaign: nat, d: Node)
  {
    exists x :: IsBuilding(attempts, x, campaign, d)
  }

  /** Every running candidate is the target of an active build of its campaign. */
  ghost predicate RunningBacked(rows: Rows, attempts: Attempts)
  {
    forall id :: id in rows && rows[id].state.Running? ==>
      rows[id].drv.Some? && Building(attempts, rows[id].campaign, rows[id].drv.value)
  }

  /** No target of an active plan has a derivation, so none can be built meanwhile. */
  ghost predicate PlansDetached(rows: Rows, attempts: Attempts)
  {
    forall x, id :: IsActivePlan(attempts, x) && id in attempts[x].targets.ids ==>
      id in rows && rows[id].campaign == attempts[x].campaign && rows[id].drv.None?
  }

  /** Only a candidate with a recipe is queued or blocked, and one with a recipe is not unplanned. */
  ghost predicate PlannedStates(rows: Rows)
  {
    forall id :: id in rows ==>
      if rows[id].drv.None? then !rows[id].state.Queued? && !rows[id].state.Blocked? else !rows[id].state.Unplanned?
  }

  /** Every attempt that finished did so exactly once. */
  ghost predicate FinishedOnce(attempts: Attempts, log: seq<nat>)
  {
    (forall x :: x in log <==> x in attempts && attempts[x].phase.Finished?) &&
    forall i, j :: 0 <= i < j < |log| ==> log[i] != log[j]
  }

  predicate IsPending(replans: map<nat, Replan>, q: Ticket)
  {
    q.candidate in replans && replans[q.candidate].request == q.request
  }

  predicate IsConsumed(attempts: Attempts, x: nat, q: Ticket)
  {
    x in attempts && attempts[x].targets.PlanOf? && q.candidate in attempts[x].consumed &&
    attempts[x].consumed[q.candidate].request == q.request
  }

  ghost predicate Consumed(attempts: Attempts, q: Ticket)
  {
    exists x :: IsConsumed(attempts, x, q)
  }

  /** Each request ever queued for a candidate is in exactly one place: still pending, in the
      specification of the one plan that consumed it, or in the record of a skip. */
  ghost predicate Conserved(queued: set<Ticket>, replans: map<nat, Replan>, attempts: Attempts, skipped: set<Ticket>)
  {
    (forall q :: q in queued <==> IsPending(replans, q) || Consumed(attempts, q) || q in skipped) &&
    (forall q :: IsPending(replans, q) ==> !Consumed(attempts, q) && q !in skipped) &&
    (forall q :: Consumed(attempts, q) ==> q !in skipped) &&
    forall q, x, y :: IsConsumed(attempts, x, q) && IsConsumed(attempts, y, q) ==> x == y
  }

  // ----- How the invariants survive -----

  /** What a new active attempt must respect for the attempts to stay in order. */
  lemma AttemptAdds(attempts: Attempts, log: seq<nat>, aid: nat, a: Attempt)
    requires OneCampaign(attempts) && OnePlan(attempts) && FinishedOnce(attempts, log) && aid !in attempts && IsActive(a)
    requires forall x :: x in attempts && IsActive(attempts[x]) ==> attempts[x].campaign == a.campaign
    requires a.targets.PlanOf? ==> forall x :: !IsActivePlan(attempts, x)
    ensures OneCampaign(attempts[aid := a]) && OnePlan(attempts[aid := a]) && FinishedOnce(attempts[aid := a], log)
  {
    var more := attempts[aid := a];
    forall x, y | IsActivePlan(more, x) && IsActivePlan(more, y) ensures x == y {
      if x != aid { assert IsActivePlan(attempts, x); }
      if y != aid { assert IsActivePlan(attempts, y); }
    }
  }

  /** Rows and attempts may change as long as targets of active plans stay detached. */
  lemma DetachedKeeps(rows: Rows, attempts: Attempts, rows': Rows, attempts': Attempts)
    requires PlansDetached(rows, attempts)
    requires forall x :: IsActivePlan(attempts', x) ==>
               (IsActivePlan(attempts, x) && attempts'[x].targets == attempts[x].targets && attempts'[x].campaign == attempts[x].campaign)
    requires forall id :: id in rows ==> id in rows' && rows'[id].campaign == rows[id].campaign &&
                                         (rows[id].drv.None? ==> rows'[id].drv.None?)
    ensures PlansDetached(rows', attempts')
  {
  }

  lemma RunningAdds(rows: Rows, attempts: Attempts, aid: nat, a: Attempt)
    requires RunningBacked(rows, attempts) && aid !in attempts
    ensures RunningBacked(rows, attempts[aid := a])
  {
    forall id | id in rows && rows[id].state.Running?
      ensures rows[id].drv.Some? && Building(attempts[aid := a], rows[id].campaign, rows[id].drv.value)
    {
      var x :| IsBuilding(attempts, x, rows[id].campaign, rows[id].drv.value);
      assert IsBuilding(attempts[aid := a], x, rows[id].campaign, rows[id].drv.value);
    }
  }

  /** Candidates of a campaign that name a derivation of a build become running. */
  function SetRunning(rows: Rows, campaign: nat, drvs: seq<Node>): (r: Rows)
    ensures r.Keys == rows.Keys
  {
    map id | id in rows :: if IsTargeted(rows[id], campaign, drvs) then rows[id].(state := Running) else rows[id]
  }

  lemma RunningSet(rows: Rows, attempts: Attempts, aid: nat, a: Attempt)
    requires RunningBacked(rows, attempts) && aid !in attempts && IsActive(a) && a.targets.BuildOf?
    ensures RunningBacked(SetRunning(rows, a.campaign, a.targets.drvs), attempts[aid := a])
  {
    RunningAdds(rows, attempts, aid, a);
    var r, more := SetRunning(rows, a.campaign, a.targets.drvs), attempts[aid := a];
    forall id | id in r && r[id].state.Running?
      ensures r[id].drv.Some? && Building(more, r[id].campaign, r[id].drv.value)
    {
      if r[id] != rows[id] { assert IsBuilding(more, aid, r[id].campaign, r[id].drv.value); }
    }
  }

  /** Candidates that are detached from an old recipe while a new one is planned. */
  function Detach(rows: Rows, ids: seq<nat>): (r: Rows)
    ensures r.Keys == rows.Keys
  {
    map id | id in rows :: if id in ids then rows[id].(state := Unplanned, drv := None, error := None) else rows[id]
  }

  lemma RunningDetached(rows: Rows, attempts: Attempts, ids: seq<nat>)
    requires RunningBacked(rows, attempts)
    ensures RunningBacked(Detach(rows, ids), attempts)
  {
  }

  /** A plan that takes the requests of its targets conserves them. */
  lemma PlanConserves(queued: set<Ticket>, replans: map<nat, Replan>, attempts: Attempts, skipped: set<Ticket>,
                      aid: nat, a: Attempt)
    requires Conserved(queued, replans, attempts, skipped) && aid !in attempts && a.targets.PlanOf?
    requires a.consumed == map id | id in replans && id in a.targets.ids :: replans[id]
    ensures Conserved(queued, replans - a.consumed.Keys, attempts[aid := a], skipped)
  {
    var left, more := replans - a.consumed.Keys, attempts[aid := a];
    forall q ensures IsPending(left, q) <==> IsPending(replans, q) && q.candidate !in a.consumed {}
    forall q ensures Consumed(more, q) <==> Consumed(attempts, q) || (IsPending(replans, q) && q.candidate in a.consumed) {
      if Consumed(more, q) {
        var x :| IsConsumed(more, x, q);
        if x != aid { assert IsConsumed(attempts, x, q); }
      }
      if Consumed(attempts, q) {
        var x :| IsConsumed(attempts, x, q);
        assert IsConsumed(more, x, q);
      }
      if IsPending(replans, q) && q.candidate in a.consumed { assert IsConsumed(more, aid, q); }
    }
    forall q, x, y | IsConsumed(more, x, q) && IsConsumed(more, y, q) ensures x == y {
      if x != aid && y != aid {
        assert IsConsumed(attempts, x, q) && IsConsumed(attempts, y, q);
      } else if x != y {
        var other := if x == aid then y else x;
        assert IsConsumed(attempts, other, q);
        assert IsPending(replans, q);
      }
    }
  }

  /** Attempts that consumed nothing, or only change phase, conserve requests. */
  lemma SameConsumedConserves(queued: set<Ticket>, replans: map<nat, Replan>, attempts: Attempts, more: Attempts, skipped: set<Ticket>)
    requires Conserved(queued, replans, attempts, skipped)
    requires forall x, q :: IsConsumed(attempts, x, q) <==> IsConsumed(more, x, q)
    ensures Conserved(queued, replans, more, skipped)
  {
    forall q ensures Consumed(more, q) <==> Consumed(attempts, q) {
      if Consumed(more, q) { var x :| IsConsumed(more, x, q); assert IsConsumed(attempts, x, q); }
      if Consumed(attempts, q) { var x :| IsConsumed(attempts, x, q); assert IsConsumed(more, x, q); }
    }
  }

  /** Whether a candidate may be planned again at another revision. */
  predicate ReplanEligible(c: Candidate)
  {
    if c.drv.None? then c.state.Unplanned? || c.state.EvaluationError?
    else c.state.Failed? || c.state.Blocked? || c.state.Inconclusive? || (c.state.Excluded? && c.error == Some(INHERITED))
  }

  // ----- Planning -----

  /** Whether plan accepts a candidate: known, of the campaign, not excluded for good, without a
      queued request unless a revision is given, and if it has a recipe then only to replace it
      at a given revision, from a state at rest, and not while a build covers it. */
  predicate PlanAccepts(rows: Rows, replans: map<nat, Replan>, covered: set<Node>, campaign: nat, revised: bool, id: nat)
  {
    id in rows && rows[id].campaign == campaign &&
    (rows[id].state.Excluded? ==> revised && ReplanEligible(rows[id])) &&
    (id in replans ==> revised) &&
    (rows[id].drv.Some? ==>
       revised && rows[id].drv.value !in covered &&
       (rows[id].state.Queued? || rows[id].state.Failed? || rows[id].state.Blocked? || rows[id].state.Inconclusive? ||
        rows[id].state.Excluded?))
  }

  /** The new plan's targets are detached, and so are those of the plan before, if any. */
  lemma DetachedPlan(rows: Rows, attempts: Attempts, aid: nat, a: Attempt, rows': Rows)
    requires PlansDetached(rows, attempts) && aid !in attempts && a.targets.PlanOf?
    requires forall x :: !IsActivePlan(attempts, x)
    requires forall id :: id in a.targets.ids ==> id in rows' && rows'[id].campaign == a.campaign && rows'[id].drv.None?
    ensures PlansDetached(rows', attempts[aid := a])
  {
    var more := attempts[aid := a];
    forall x, id | IsActivePlan(more, x) && id in more[x].targets.ids
      ensures id in rows' && rows'[id].campaign == more[x].campaign && rows'[id].drv.None?
    {
      if x != aid { assert IsActivePlan(attempts, x); }
    }
  }

  // ----- Refreshing -----

  ghost predicate Refreshed(f: Facts, campaign: nat, rows: Rows, rows': Rows)
  {
    rows'.Keys == rows.Keys && forall id :: id in rows ==> rows'[id] == ImpliedIn(f, campaign, rows[id])
  }

  lemma RefreshKeeps(f: Facts, campaign: nat, rows: Rows, rows': Rows, attempts: Attempts)
    requires Refreshed(f, campaign, rows, rows') && RunningBacked(rows, attempts) && PlannedStates(rows)
    ensures RunningBacked(rows', attempts) && PlannedStates(rows')
    ensures forall id :: id in rows ==> id in rows' && rows'[id].campaign == rows[id].campaign && rows'[id].drv == rows[id].drv
    ensures forall id :: id in rows' && rows'[id].state.Running? ==> rows[id].state.Running?
  {
    hide Building, DependsOn;
    forall id | id in rows
      ensures rows'[id].campaign == rows[id].campaign && rows'[id].drv == rows[id].drv
      ensures rows'[id].state.Running? ==> rows[id].state.Running?
      ensures rows'[id].drv.None? ==> rows'[id] == rows[id]
    {
    }
  }

  method RefreshRows(f: Facts, campaign: nat, rows: Rows) returns (rows': Rows)
    requires WellRecorded(f) && PlannedStates(rows)
    ensures Refreshed(f, campaign, rows, rows')
  {
    var table := new CandidateTable();
    table.rows := rows;
    table.Refresh(f, campaign);
    rows' := table.rows;
  }

  // ----- Finishing -----

  /** A finished attempt no longer counts; the others do as before. */
  lemma FinishKeeps(attempts: Attempts, log: seq<nat>, aid: nat)
    requires OneCampaign(attempts) && OnePlan(attempts) && FinishedOnce(attempts, log)
    requires aid in attempts && IsActive(attempts[aid])
    ensures var more := attempts[aid := attempts[aid].(phase := Finished)];
            OneCampaign(more) && OnePlan(more) && FinishedOnce(more, log + [aid]) &&
            (forall x :: IsActivePlan(more, x) ==> IsActivePlan(attempts, x) && x != aid) &&
            forall x, q :: IsConsumed(attempts, x, q) <==> IsConsumed(more, x, q)
  {
    var more := attempts[aid := attempts[aid].(phase := Finished)];
    forall x | IsActivePlan(more, x) ensures IsActivePlan(attempts, x) && x != aid {}
  }

  /** No candidate that names one of some derivations is running. */
  ghost predicate NoneRunning(rows: Rows, campaign: nat, drvs: seq<Node>)
  {
    forall id :: id in rows && IsTargeted(rows[id], campaign, drvs) ==> !rows[id].state.Running?
  }

  predicate IsTargeted(c: Candidate, campaign: nat, drvs: seq<Node>)
  {
    c.campaign == campaign && c.drv.Some? && c.drv.value in drvs
  }

  /** Running candidates keep a build when an attempt ends that is not theirs. */
  lemma RunningOutlives(rows: Rows, attempts: Attempts, aid: nat)
    requires RunningBacked(rows, attempts) && aid in attempts
    requires attempts[aid].targets.BuildOf? ==> NoneRunning(rows, attempts[aid].campaign, attempts[aid].targets.drvs)
    ensures RunningBacked(rows, attempts[aid := attempts[aid].(phase := Finished)])
  {
    var more := attempts[aid := attempts[aid].(phase := Finished)];
    forall id | id in rows && rows[id].state.Running?
      ensures rows[id].drv.Some? && Building(more, rows[id].campaign, rows[id].drv.value)
    {
      var x :| IsBuilding(attempts, x, rows[id].campaign, rows[id].drv.value);
      assert IsBuilding(more, x, rows[id].campaign, rows[id].drv.value);
    }
  }

  /** What a planner's row says of a candidate: a recipe, or why there is none. */
  datatype PlanRow = Planned(drv: Node) | EvalFailed(error: string)

  /** Where a plan leaves one of its targets: with a recipe it is queued, unless the same recipe
      is already inconclusive in the campaign; without one it is an evaluation error. */
  predicate PlannedAs(c: Candidate, r: Option<PlanRow>, held: bool)
  {
    match r
    case None => c.state.EvaluationError? && c.drv.None?
    case Some(EvalFailed(e)) => c.state.EvaluationError? && c.drv.None? && c.error == Some(e)
    case Some(Planned(d)) => c.drv == Some(d) && if held then c.state.Inconclusive? else c.state.Queued? && c.error == None
  }

  /** Whether a recipe of the campaign is inconclusive. */
  predicate IsHeld(rows: Rows, campaign: nat, d: Node)
  {
    exists id :: id in rows && rows[id].campaign == campaign && rows[id].drv == Some(d) && rows[id].state.Inconclusive?
  }

  function Lookup(results: map<nat, PlanRow>, id: nat): Option<PlanRow>
  {
    if id in results then Some(results[id]) else None
  }

  /** Derivations that active builds of a campaign target. */
  function BuildTargets(attempts: Attempts, campaign: nat): set<Node>
  {
    set x, i | x in attempts && IsActive(attempts[x]) && attempts[x].targets.BuildOf? &&
      attempts[x].campaign == campaign && 0 <= i < |attempts[x].targets.drvs| :: attempts[x].targets.drvs[i]
  }

  /** Candidates that name a derivation being built are running. */
  function MarkBuilding(rows: Rows, campaign: nat, drvs: set<Node>): (r: Rows)
    ensures r.Keys == rows.Keys
  {
    map id | id in rows :: if rows[id].campaign == campaign && rows[id].drv.Some? && rows[id].drv.value in drvs
                           then rows[id].(state := Running) else rows[id]
  }

  lemma MarkedBacked(rows: Rows, attempts: Attempts, campaign: nat)
    requires RunningBacked(rows, attempts)
    ensures RunningBacked(MarkBuilding(rows, campaign, BuildTargets(attempts, campaign)), attempts)
  {
    var r := MarkBuilding(rows, campaign, BuildTargets(attempts, campaign));
    forall id | id in r && r[id].state.Running? ensures r[id].drv.Some? && Building(attempts, r[id].campaign, r[id].drv.value) {
      if r[id] != rows[id] {
        var x, i :| x in attempts && IsActive(attempts[x]) && attempts[x].targets.BuildOf? && attempts[x].campaign == campaign &&
          0 <= i < |attempts[x].targets.drvs| && attempts[x].targets.drvs[i] == r[id].drv.value;
        assert IsBuilding(attempts, x, campaign, r[id].drv.value);
      }
    }
  }

  /** What a plan of a campaign makes of one of its targets. */
  predicate Observed(rows: Rows, campaign: nat, results: map<nat, PlanRow>, id: nat, c: Candidate)
  {
    var r := Lookup(results, id);
    c.campaign == campaign && PlannedAs(c, r, r.Some? && r.value.Planned? && IsHeld(rows, campaign, r.value.drv))
  }

  /** Applies a planner's rows to the targets of a plan. */
  method ApplyPlan(rows: Rows, campaign: nat, ids: seq<nat>, results: map<nat, PlanRow>) returns (rows': Rows)
    requires forall id :: id in ids ==> id in rows && rows[id].campaign == campaign && rows[id].drv.None?
    ensures rows'.Keys == rows.Keys && forall id :: id in rows && id !in ids ==> rows'[id] == rows[id]
    ensures forall id :: id in ids ==> Observed(rows, campaign, results, id, rows'[id])
  {
    rows' := rows;
    for i := 0 to |ids|
      invariant rows'.Keys == rows.Keys && forall id :: id in rows && id !in ids[..i] ==> rows'[id] == rows[id]
      invariant forall id :: id in ids[..i] ==> Observed(rows, campaign, results, id, rows'[id])
    {
      var id := ids[i];
      var c := rows'[id];
      if id !in results {
        c := Candidate(campaign, None, EvaluationError, Some("planning interrupted; no completed observation"));
      } else if results[id].EvalFailed? {
        c := Candidate(campaign, None, EvaluationError, Some(results[id].error));
      } else {
        var d := results[id].drv;
        if IsHeld(rows, campaign, d) {
          var other :| other in rows && rows[other].campaign == campaign && rows[other].drv == Some(d) && rows[other].state.Inconclusive?;
          c := Candidate(campaign, Some(d), Inconclusive, rows[other].error);
        } else {
          c := Candidate(campaign, Some(d), State.Queued, None);
        }
      }
      rows' := rows'[id := c];
      assert ids[..i + 1] == ids[..i] + [id];
    }
    assert ids[..|ids|] == ids;
  }

  /** Whether a derivation or anything below it is out of scope. */
  ghost predicate NeedsExcluded(f: Facts, drvs: seq<Node>)
  {
    exists t, x :: t in drvs && x in f.exclusion && Reaches(f.edges, t, x)
  }

  /** A candidate that a refresh leaves queued has nothing out of scope at or below its recipe, so
      the scope check lets a build of it through for as long as the facts stay. */
  lemma QueuedInScope(f: Facts, campaign: nat, c: Candidate)
    requires c.campaign == campaign && c.drv.Some? && ImpliedIn(f, campaign, c).state.Queued?
    ensures !NeedsExcluded(f, [c.drv.value])
  {
    hide DependsOn, NeedsExcluded;
    NeedsDepends(f, c.drv.value);
  }

  lemma NeedsDepends(f: Facts, d: Node)
    ensures NeedsExcluded(f, [d]) ==> DependsOn(f, d, f.exclusion.Keys)
  {
    hide Reaches;
  }

  /** The attempt of an intended build: it covers everything below its targets. */
  ghost function NewBuild(f: Facts, campaign: nat, drvs: seq<Node>): Attempt
  {
    Attempt(campaign, BuildOf(drvs), Intended, ReachSet(f.edges, SetOf(drvs)), map[])
  }

  // ----- Queueing and skipping -----

  /** Requests queued together stay together: one campaign, one revision. */
  ghost predicate SameRequest(replans: map<nat, Replan>, rows: Rows)
  {
    forall a, b :: a in replans && b in replans && replans[a].request == replans[b].request ==>
      a in rows && b in rows && rows[a].campaign == rows[b].campaign && replans[a] == replans[b]
  }

  function Tickets(ids: set<nat>, request: nat): (r: set<Ticket>)
    ensures forall q :: q in r <==> q.candidate in ids && q.request == request
  {
    set id | id in ids :: Ticket(id, request)
  }

  function Entries(ids: set<nat>, entry: Replan): (r: map<nat, Replan>)
    ensures r.Keys == ids
  {
    map id | id in ids :: entry
  }

  /** Tickets of the pending requests of some candidates. */
  function TicketsOf(replans: map<nat, Replan>, ids: set<nat>): (r: set<Ticket>)
    requires ids <= replans.Keys
    ensures forall q :: q in r <==> q.candidate in ids && IsPending(replans, q)
  {
    set id | id in ids :: Ticket(id, replans[id].request)
  }

  lemma QueueConserves(queued: set<Ticket>, replans: map<nat, Replan>, attempts: Attempts, skipped: set<Ticket>,
                       ids: set<nat>, entry: Replan)
    requires Conserved(queued, replans, attempts, skipped) && ids !! replans.Keys
    requires forall q :: q in queued ==> q.request < entry.request
    ensures Conserved(queued + Tickets(ids, entry.request), replans + Entries(ids, entry), attempts, skipped)
  {
    hide Consumed, IsConsumed, Tickets, Entries;
    var more, added := replans + Entries(ids, entry), Tickets(ids, entry.request);
    forall q ensures IsPending(more, q) <==> IsPending(replans, q) || q in added {
      if q.candidate in ids { assert more[q.candidate] == Entries(ids, entry)[q.candidate]; EntryIs(ids, entry, q.candidate); }
    }
    forall q | q in added ensures !Consumed(attempts, q) && q !in skipped {
      assert q !in queued;
    }
  }

  lemma EntryIs(ids: set<nat>, entry: Replan, id: nat)
    requires id in ids
    ensures Entries(ids, entry)[id] == entry
  {
  }

  lemma QueueTogether(replans: map<nat, Replan>, rows: Rows, ids: set<nat>, entry: Replan, campaign: nat)
    requires SameRequest(replans, rows) && ids !! replans.Keys
    requires forall id :: id in replans ==> replans[id].request < entry.request
    requires forall id :: id in ids ==> id in rows && rows[id].campaign == campaign
    ensures SameRequest(replans + Entries(ids, entry), rows)
  {
    var more := replans + Entries(ids, entry);
    forall id | id in more ensures more[id] == (if id in ids then entry else replans[id]) {
      if id in ids { EntryIs(ids, entry, id); }
    }
  }

  lemma SkipConserves(queued: set<Ticket>, replans: map<nat, Replan>, attempts: Attempts, skipped: set<Ticket>, ids: set<nat>)
    requires Conserved(queued, replans, attempts, skipped) && ids <= replans.Keys
    ensures Conserved(queued, replans - ids, attempts, skipped + TicketsOf(replans, ids))
  {
    hide Consumed, IsConsumed, TicketsOf;
    forall q ensures IsPending(replans - ids, q) <==> IsPending(replans, q) && q.candidate !in ids {}
    assert forall q :: q in TicketsOf(replans, ids) ==> q !in skipped;
  }

  /** Whether a queued request has been overtaken: its candidate can no longer be replanned, or
      a build covers its recipe. */
  predicate IsStale(rows: Rows, replans: map<nat, Replan>, covered: set<Node>, campaign: nat, id: nat)
  {
    id in replans && id in rows && rows[id].campaign == campaign &&
    (!ReplanEligible(rows[id]) || (rows[id].drv.Some? && rows[id].drv.value in covered))
  }

  function Stale(rows: Rows, replans: map<nat, Replan>, covered: set<Node>, campaign: nat): (r: set<nat>)
    ensures r <= replans.Keys
    ensures forall id :: id in r <==> IsStale(rows, replans, covered, campaign, id)
  {
    set id | id in replans && IsStale(rows, replans, covered, campaign, id)
  }

  /** A request that survived the skip is accepted exactly when no active build covers the
      recipe of its candidate. */
  lemma SurvivorAccepted(rows: Rows, replans: map<nat, Replan>, covered: set<Node>, active: set<Node>, campaign: nat, id: nat)
    requires id in replans && id in rows && rows[id].campaign == campaign && !IsStale(rows, replans, covered, campaign, id)
    ensures PlanAccepts(rows, replans, active, campaign, true, id) <==> !(rows[id].drv.Some? && rows[id].drv.value in active)
    ensures active <= covered ==> PlanAccepts(rows, replans, active, campaign, true, id)
  {
  }

  // ----- Changing states -----

  /** A change that starts no candidate and moves none to another recipe or campaign. */
  ghost predicate Calmer(rows: Rows, rows': Rows)
  {
    rows'.Keys == rows.Keys &&
    forall id :: id in rows ==>
      rows'[id].campaign == rows[id].campaign && rows'[id].drv == rows[id].drv &&
      (rows'[id].state.Running? ==> rows[id].state.Running?)
  }

  lemma CalmerKeeps(rows: Rows, rows': Rows, attempts: Attempts, replans: map<nat, Replan>)
    requires RunningBacked(rows, attempts) && PlansDetached(rows, attempts) && SameRequest(replans, rows) && Calmer(rows, rows')
    ensures RunningBacked(rows', attempts) && PlansDetached(rows', attempts) && SameRequest(replans, rows')
  {
    hide Building;
  }

  /** A candidate of a campaign that names one of some derivations moves from one state to
      another; what is known of the error is kept or replaced. */
  function Restated(c: Candidate, campaign: nat, drvs: seq<Node>, from: State, to: State, error: Option<Option<string>>): Candidate
  {
    if IsTargeted(c, campaign, drvs) && c.state == from
    then c.(state := to, error := if error.Some? then error.value else c.error)
    else c
  }

  function Restate(rows: Rows, campaign: nat, drvs: seq<Node>, from: State, to: State, error: Option<Option<string>>): (r: Rows)
    ensures r.Keys == rows.Keys
  {
    map id | id in rows :: Restated(rows[id], campaign, drvs, from, to, error)
  }

  lemma RestateCalmer(rows: Rows, campaign: nat, drvs: seq<Node>, from: State, to: State, error: Option<Option<string>>)
    requires !to.Running? && !to.Unplanned? && PlannedStates(rows)
    ensures var r := Restate(rows, campaign, drvs, from, to, error); Calmer(rows, r) && PlannedStates(r)
  {
  }

  lemma RefreshCalmer(f: Facts, campaign: nat, rows: Rows, rows': Rows)
    requires Refreshed(f, campaign, rows, rows') && PlannedStates(rows)
    ensures Calmer(rows, rows') && PlannedStates(rows')
  {
    hide DependsOn;
    forall id | id in rows
      ensures rows'[id].campaign == rows[id].campaign && rows'[id].drv == rows[id].drv
      ensures rows'[id].state.Running? ==> rows[id].state.Running?
      ensures rows'[id].drv.None? ==> rows'[id] == rows[id]
    {
    }
  }

  lemma CalmerOn(a: Rows, b: Rows, c: Rows)
    requires Calmer(a, b) && Calmer(b, c)
    ensures Calmer(a, c)
  {
  }

  /** Where a finished build leaves a candidate. One that named a target stops running, takes
      the state that the facts imply, and is inconclusive if they imply nothing; only a builder
      that could not start anything puts it back in the queue. */
  ghost function BuiltAs(f: Facts, campaign: nat, drvs: seq<Node>, reason: string, retry: bool, c: Candidate): Candidate
  {
    if !IsTargeted(c, campaign, drvs) then ImpliedIn(f, campaign, c)
    else
      var r := Implied(f, if c.state.Running? then c.(state := Queued) else c);
      if !r.state.Queued? && !r.state.Inconclusive? then r
      else if retry then r.(state := Queued, error := None)
      else if r.state.Queued? then r.(state := Inconclusive, error := Some(reason))
      else r
  }

  /** No build is repeated by itself: unless its builder could not start, no candidate that
      named a target is queued or running afterwards, and one whose outcome is known shows it. */
  lemma NoFailureLoop(f: Facts, campaign: nat, drvs: seq<Node>, reason: string, c: Candidate)
    requires IsTargeted(c, campaign, drvs)
    ensures var r := BuiltAs(f, campaign, drvs, reason, false, c);
            !r.state.Queued? && !r.state.Running? && r.drv == c.drv &&
            (c.state.Running? && c.drv.value !in f.exclusion ==>
               ((r.state.Available? <==> c.drv.value in f.available) &&
                (r.state.Failed? <==> c.drv.value in f.failure && c.drv.value !in f.available)))
  {
    hide DependsOn;
  }

  /** The steps of finishing a build, as one function of each candidate. */
  lemma BuiltOne(f: Facts, campaign: nat, drvs: seq<Node>, reason: string, retry: bool, c: Candidate)
    ensures var mid := ImpliedIn(f, campaign, Restated(c, campaign, drvs, Running, Queued, None));
            var held := Restated(mid, campaign, drvs, Queued, Inconclusive, Some(Some(reason)));
            var last := if retry then Restated(held, campaign, drvs, Inconclusive, Queued, Some(None)) else held;
            last == BuiltAs(f, campaign, drvs, reason, retry, c) &&
            (IsTargeted(last, campaign, drvs) ==> !last.state.Running?)
  {
    hide DependsOn;
  }

  lemma BuiltSteps(f: Facts, campaign: nat, drvs: seq<Node>, reason: string, retry: bool, rows: Rows, mid: Rows)
    requires Refreshed(f, campaign, Restate(rows, campaign, drvs, Running, Queued, None), mid)
    ensures var held := Restate(mid, campaign, drvs, Queued, Inconclusive, Some(Some(reason)));
            var last := if retry then Restate(held, campaign, drvs, Inconclusive, Queued, Some(None)) else held;
            NoneRunning(last, campaign, drvs) && last.Keys == rows.Keys &&
            forall id :: id in rows ==> last[id] == BuiltAs(f, campaign, drvs, reason, retry, rows[id])
  {
    hide ImpliedIn, Restated, BuiltAs, IsTargeted;
    forall id | id in rows { BuiltOne(f, campaign, drvs, reason, retry, rows[id]); }
  }

  /** The attempt of an intended plan: it takes along the requests queued for its targets. */
  function NewPlan(campaign: nat, ids: seq<nat>, replans: map<nat, Replan>): Attempt
  {
    Attempt(campaign, PlanOf(ids), Intended, {}, map id | id in replans && id in ids :: replans[id])
  }

  /** Accepted targets are left without a recipe, and their requests leave the queue. */
  lemma PlanTakes(rows: Rows, replans: map<nat, Replan>, ids: seq<nat>, revised: bool, campaign: nat, covered: set<Node>)
    requires forall id :: id in ids ==> PlanAccepts(rows, replans, covered, campaign, revised, id)
    requires PlannedStates(rows) && SameRequest(replans, rows)
    ensures var rows', left := if revised then Detach(rows, ids) else rows, replans - NewPlan(campaign, ids, replans).consumed.Keys;
            left == replans - SetOf(ids) && PlannedStates(rows') && SameRequest(left, rows') && rows'.Keys == rows.Keys &&
            forall id :: id in ids ==> id in rows' && rows'[id].campaign == campaign && rows'[id].drv.None?
  {
  }

  lemma PendingQueued(queued: set<Ticket>, replans: map<nat, Replan>, attempts: Attempts, skipped: set<Ticket>, next: nat)
    requires Conserved(queued, replans, attempts, skipped) && forall q :: q in queued ==> q.request < next
    ensures forall id :: id in replans ==> replans[id].request < next
  {
    hide Consumed;
    forall id | id in replans ensures replans[id].request < next {
      assert IsPending(replans, Ticket(id, replans[id].request));
    }
  }

  lemma ActivatedKeeps(rows: Rows, attempts: Attempts, log: seq<nat>, aid: nat)
    requires OneCampaign(attempts) && OnePlan(attempts) && FinishedOnce(attempts, log)
    requires RunningBacked(rows, attempts) && PlansDetached(rows, attempts)
    requires aid in attempts && IsActive(attempts[aid])
    ensures var more := attempts[aid := attempts[aid].(phase := Active)];
            OneCampaign(more) && OnePlan(more) && FinishedOnce(more, log) && RunningBacked(rows, more) && PlansDetached(rows, more) &&
            forall x, q :: IsConsumed(attempts, x, q) <==> IsConsumed(more, x, q)
  {
    var more := attempts[aid := attempts[aid].(phase := Active)];
    forall x ensures IsActivePlan(more, x) <==> IsActivePlan(attempts, x) {}
    forall id | id in rows && rows[id].state.Running?
      ensures rows[id].drv.Some? && Building(more, rows[id].campaign, rows[id].drv.value)
    {
      var x :| IsBuilding(attempts, x, rows[id].campaign, rows[id].drv.value);
      assert IsBuilding(more, x, rows[id].campaign, rows[id].drv.value);
    }
  }

  /** What finishing a plan makes of the candidates: observations, refreshed, with the targets of
      active builds running. */
  ghost predicate PlanFinished(f: Facts, attempts: Attempts, aid: nat, results: map<nat, PlanRow>, rows: Rows, rows': Rows)
    requires aid in attempts && attempts[aid].targets.PlanOf?
  {
    rows'.Keys == rows.Keys &&
    forall id :: id in rows ==> PlanLeaves(f, attempts, aid, results, rows, id, rows'[id])
  }

  ghost predicate PlanLeaves(f: Facts, attempts: Attempts, aid: nat, results: map<nat, PlanRow>, rows: Rows, id: nat, c: Candidate)
    requires aid in attempts && attempts[aid].targets.PlanOf? && id in rows
  {
    exists seen :: LeavesAs(f, attempts, aid, results, rows, id, c, seen)
  }

  /** A candidate leaves a plan refreshed from what was seen of it. */
  ghost predicate LeavesAs(f: Facts, attempts: Attempts, aid: nat, results: map<nat, PlanRow>, rows: Rows, id: nat,
                           c: Candidate, seen: Candidate)
    requires aid in attempts && attempts[aid].targets.PlanOf? && id in rows
  {
    var campaign := attempts[aid].campaign;
    (if id in attempts[aid].targets.ids then Observed(rows, campaign, results, id, seen) else seen == rows[id]) &&
    c == if seen.campaign == campaign && seen.drv.Some? && seen.drv.value in BuildTargets(attempts, campaign)
         then ImpliedIn(f, campaign, seen).(state := Running) else ImpliedIn(f, campaign, seen)
  }

  ghost predicate Applied(rows: Rows, observed: Rows, campaign: nat, ids: seq<nat>, results: map<nat, PlanRow>)
  {
    observed.Keys == rows.Keys && (forall id :: id in rows && id !in ids ==> observed[id] == rows[id]) &&
    forall id :: id in ids ==> id in observed && Observed(rows, campaign, results, id, observed[id])
  }

  lemma AppliedKeeps(rows: Rows, observed: Rows, attempts: Attempts, campaign: nat, ids: seq<nat>,
                     results: map<nat, PlanRow>, replans: map<nat, Replan>)
    requires Applied(rows, observed, campaign, ids, results) && RunningBacked(rows, attempts) && PlannedStates(rows)
    requires SameRequest(replans, rows) && forall id :: id in ids ==> id in rows && rows[id].campaign == campaign
    ensures RunningBacked(observed, attempts) && PlannedStates(observed) && SameRequest(replans, observed)
  {
    hide Building, IsHeld;
    forall id | id in rows
      ensures observed[id].campaign == rows[id].campaign && (observed[id].state.Running? ==> observed[id] == rows[id])
      ensures observed[id].drv.None? ==> observed[id] == rows[id] || observed[id].state.EvaluationError?
    {
      if id in ids { assert Observed(rows, campaign, results, id, observed[id]); }
    }
  }

  lemma PlanEnds(f: Facts, observed: Rows, refreshed: Rows, attempts: Attempts, aid: nat, replans: map<nat, Replan>)
    requires aid in attempts && IsActive(attempts[aid]) && attempts[aid].targets.PlanOf? && OnePlan(attempts)
    requires RunningBacked(observed, attempts) && PlannedStates(observed) && SameRequest(replans, observed)
    requires Refreshed(f, attempts[aid].campaign, observed, refreshed)
    ensures var campaign := attempts[aid].campaign;
            var rows' := MarkBuilding(refreshed, campaign, BuildTargets(attempts, campaign));
            var more := attempts[aid := attempts[aid].(phase := Finished)];
            RunningBacked(rows', more) && PlansDetached(rows', more) && PlannedStates(rows') && SameRequest(replans, rows')
  {
    hide RunningBacked, Implied, BuildTargets, Refreshed;
    var campaign := attempts[aid].campaign;
    var rows' := MarkBuilding(refreshed, campaign, BuildTargets(attempts, campaign));
    var more := attempts[aid := attempts[aid].(phase := Finished)];
    RefreshKeeps(f, campaign, observed, refreshed, attempts);
    assert refreshed.Keys == observed.Keys by { RefreshKeys(f, campaign, observed, refreshed); }
    MarkedBacked(refreshed, attempts, campaign);
    RunningOutlives(rows', attempts, aid);
    assert IsActivePlan(attempts, aid);
    assert forall x :: IsActivePlan(more, x) ==> IsActivePlan(attempts, x);
  }

  lemma RefreshKeys(f: Facts, campaign: nat, rows: Rows, rows': Rows)
    requires Refreshed(f, campaign, rows, rows')
    ensures rows'.Keys == rows.Keys
  {
  }

  lemma PlanShows(f: Facts, rows: Rows, observed: Rows, refreshed: Rows, attempts: Attempts, aid: nat, results: map<nat, PlanRow>)
    requires aid in attempts && attempts[aid].targets.PlanOf?
    requires Applied(rows, observed, attempts[aid].campaign, attempts[aid].targets.ids, results)
    requires Refreshed(f, attempts[aid].campaign, observed, refreshed)
    ensures PlanFinished(f, attempts, aid, results, rows,
              MarkBuilding(refreshed, attempts[aid].campaign, BuildTargets(attempts, attempts[aid].campaign)))
  {
    hide Observed, DependsOn, BuildTargets;
    var campaign := attempts[aid].campaign;
    var rows' := MarkBuilding(refreshed, campaign, BuildTargets(attempts, campaign));
    forall id | id in rows ensures PlanLeaves(f, attempts, aid, results, rows, id, rows'[id]) {
      assert LeavesAs(f, attempts, aid, results, rows, id, rows'[id], observed[id]);
    }
  }

  lemma BuildEnds(rows: Rows, rows': Rows, attempts: Attempts, aid: nat, replans: map<nat, Replan>)
    requires aid in attempts && attempts[aid].targets.BuildOf? && Calmer(rows, rows')
    requires RunningBacked(rows, attempts) && PlansDetached(rows, attempts) && SameRequest(replans, rows)
    requires NoneRunning(rows', attempts[aid].campaign, attempts[aid].targets.drvs)
    ensures var more := attempts[aid := attempts[aid].(phase := Finished)];
            RunningBacked(rows', more) && PlansDetached(rows', more) && SameRequest(replans, rows')
  {
    hide RunningBacked, Calmer, NoneRunning, SameRequest;
    CalmerKeeps(rows, rows', attempts, replans);
    RunningOutlives(rows', attempts, aid);
    forall x | IsActivePlan(attempts[aid := attempts[aid].(phase := Finished)], x)
      ensures IsActivePlan(attempts, x)
    {
    }
  }

  /** Derivations covered by active builds. */
  function ActiveDrvsOf(attempts: Attempts): set<Node>
  {
    set x, d | x in attempts && IsActive(attempts[x]) && attempts[x].targets.BuildOf? && d in attempts[x].derivations :: d
  }

  /** The recipes that candidates name. */
  function Recipes(rows: Rows, ids: seq<nat>): seq<Node>
  {
    if ids == [] then []
    else
      var id := ids[|ids| - 1];
      Recipes(rows, ids[..|ids| - 1]) + if id in rows && rows[id].drv.Some? then [rows[id].drv.value] else []
  }

  /** Whether an explicit retry accepts a candidate: in the campaign, with a recipe in scope, and
      neither running nor excluded, unless an earlier candidate of the list names its recipe. */
  ghost predicate RetryAccepts(f: Facts, rows: Rows, campaign: nat, ids: seq<nat>, i: nat)
    requires i < |ids|
  {
    var id := ids[i];
    id in rows && rows[id].campaign == campaign && rows[id].drv.Some? && !NeedsExcluded(f, [rows[id].drv.value]) &&
    (rows[id].drv.value in Recipes(rows, ids[..i]) || (!rows[id].state.Running? && !rows[id].state.Excluded?))
  }

  ghost predicate RetryReady(f: Facts, rows: Rows, campaign: nat, ids: seq<nat>)
  {
    forall i :: 0 <= i < |ids| ==> RetryAccepts(f, rows, campaign, ids, i)
  }

  function RecipesOf(rows: Rows, campaign: nat): set<Node>
  {
    set id | id in rows && rows[id].campaign == campaign && rows[id].drv.Some? :: rows[id].drv.value
  }

  /** The facts without the failures of some derivations. */
  function Forgotten(f: Facts, drvs: seq<Node>): Facts
  {
    f.(failure := f.failure - SetOf(drvs))
  }

  /** Candidates of a campaign that name one of some derivations are queued afresh. */
  function Requeue(rows: Rows, campaign: nat, drvs: seq<Node>): (r: Rows)
    ensures r.Keys == rows.Keys
  {
    map id | id in rows :: if IsTargeted(rows[id], campaign, drvs) then rows[id].(state := Queued, error := None) else rows[id]
  }

  lemma RequeueNone(rows: Rows, campaign: nat)
    ensures Requeue(rows, campaign, []) == rows
  {
  }

  lemma RequeueOn(rows: Rows, campaign: nat, drvs: seq<Node>, d: Node)
    ensures Requeue(Requeue(rows, campaign, drvs), campaign, [d]) == Requeue(rows, campaign, drvs + [d])
  {
    var a, b := Requeue(Requeue(rows, campaign, drvs), campaign, [d]), Requeue(rows, campaign, drvs + [d]);
    forall id | id in rows ensures a[id] == b[id] {}
  }

  lemma RequeuedAt(rows: Rows, campaign: nat, drvs: seq<Node>, id: nat)
    ensures id in rows ==>
              Requeue(rows, campaign, drvs)[id] ==
              if IsTargeted(rows[id], campaign, drvs) then rows[id].(state := Queued, error := None) else rows[id]
  {
  }

  lemma RequeueCalmer(rows: Rows, campaign: nat, drvs: seq<Node>)
    requires PlannedStates(rows)
    ensures Calmer(rows, Requeue(rows, campaign, drvs)) && PlannedStates(Requeue(rows, campaign, drvs))
  {
  }

  /** Kernels leave the campaign; targets that only their cancellation stopped are queued. */
  function Withdraw(rows: Rows, campaign: nat, kernels: set<nat>, reason: string, targets: seq<Node>): (r: Rows)
    ensures r.Keys == rows.Keys
  {
    map id | id in rows ::
      if rows[id].campaign == campaign && id in kernels then rows[id].(state := Excluded, error := Some(reason))
      else if IsTargeted(rows[id], campaign, targets) && rows[id].state.Inconclusive? && rows[id].error == Some("cancelled")
      then rows[id].(state := Queued, error := None)
      else rows[id]
  }

  lemma WithdrawCalmer(rows: Rows, campaign: nat, kernels: set<nat>, reason: string, targets: seq<Node>)
    requires PlannedStates(rows)
    ensures var r := Withdraw(rows, campaign, kernels, reason, targets); Calmer(rows, r) && PlannedStates(r)
  {
  }

  /** Queueing blocked candidates before a refresh makes no difference to it. */
  lemma RequeueBlocked(f: Facts, campaign: nat, c: Candidate)
    requires c.state.Blocked? && c.drv.Some? && c.campaign == campaign
    ensures ImpliedIn(f, campaign, c.(state := Queued)) == ImpliedIn(f, campaign, c)
  {
    hide DependsOn;
  }

  /** Whether a candidate belongs to the earliest request queued for a campaign. */
  predicate IsEarliest(rows: Rows, replans: map<nat, Replan>, campaign: nat, id: nat)
  {
    id in replans && id in rows && rows[id].campaign == campaign &&
    forall other :: other in replans && other in rows && rows[other].campaign == campaign ==>
      replans[id].request <= replans[other].request
  }

  /** Whether a request queued for a campaign is still wanted. */
  ghost predicate HasSurvivor(rows: Rows, replans: map<nat, Replan>, covered: set<Node>, campaign: nat)
  {
    exists id :: id in replans && id in rows && rows[id].campaign == campaign && !IsStale(rows, replans, covered, campaign, id)
  }

  /** The candidates a round plans next: those of the earliest request queued for the campaign,
      in order, as many as the quota allows. */
  ghost predicate IsRound(rows: Rows, replans: map<nat, Replan>, campaign: nat, quota: nat, ids: seq<nat>)
  {
    (forall i, j :: 0 <= i < j < |ids| ==> ids[i] < ids[j]) && |ids| <= quota &&
    (forall id :: id in ids ==> IsEarliest(rows, replans, campaign, id)) &&
    forall other :: IsEarliest(rows, replans, campaign, other) && other !in ids ==>
      |ids| == quota && forall id :: id in ids ==> id < other
  }

  /** Whether a candidate's recipe is among some derivations. */
  predicate IsCovered(c: Candidate, drvs: set<Node>)
  {
    c.drv.Some? && c.drv.value in drvs
  }

  /** Whether a round starts a plan: of a request, if no active build covers a recipe of its
      candidates; without a request, of candidates not planned yet. */
  predicate RoundPlans(rows: Rows, active: set<Node>, ids: seq<nat>, unplanned: seq<nat>)
    requires forall id :: id in ids ==> id in rows
  {
    if ids != [] then forall id :: id in ids ==> !IsCovered(rows[id], active) else unplanned != []
  }

  /** The recipes of a campaign that wait to be built. */
  function QueuedDrvs(rows: Rows, campaign: nat): set<Node>
  {
    set id | id in rows && rows[id].campaign == campaign && rows[id].state == State.Queued && rows[id].drv.Some? :: rows[id].drv.value
  }

  /** How many candidates a round may plan: up to 32, and no more than the campaign plans ahead. */
  function PlanQuota(rows: Rows, campaign: nat, ahead: nat): nat
  {
    if ahead == 0 then 32 else Min(32, Max(0, ahead - |QueuedDrvs(rows, campaign)|))
  }

  /** A quota never takes what is queued beyond what is planned ahead, unless it is beyond already,
      and uses up that room unless it is at its most. */
  lemma QuotaFills(rows: Rows, campaign: nat, ahead: nat)
    requires ahead > 0
    ensures var queued, quota := |QueuedDrvs(rows, campaign)|, PlanQuota(rows, campaign, ahead);
            quota <= 32 && (quota > 0 ==> queued + quota <= ahead) && (quota < 32 ==> queued + quota >= ahead)
  {
  }

  ghost predicate HasUnplanned(rows: Rows, campaign: nat)
  {
    exists id :: id in rows && IsUnplanned(rows[id], campaign)
  }

  predicate IsUnplanned(c: Candidate, campaign: nat)
  {
    c.campaign == campaign && c.state.Unplanned?
  }

  /** Candidates of a campaign that are not planned yet, in some order: all of them, or as many as
      the quota allows. */
  ghost predicate IsUnplannedRound(rows: Rows, campaign: nat, quota: nat, ids: seq<nat>)
  {
    Distinct(ids) && |ids| <= quota && (forall id :: id in ids ==> id in rows && IsUnplanned(rows[id], campaign)) &&
    forall other :: other in rows && IsUnplanned(rows[other], campaign) && other !in ids ==> |ids| == quota
  }

  lemma UnplannedRound(rows: Rows, campaign: nat, quota: nat, ids: seq<nat>)
    requires IsUnplannedRound(rows, campaign, quota, ids) && quota > 0
    ensures ids != [] <==> HasUnplanned(rows, campaign)
  {
    if ids != [] { assert ids[0] in ids; }
  }

  /** What an admission round chooses to plan is accepted exactly when no active build covers it. */
  lemma RoundAccepts(rows: Rows, before: map<nat, Replan>, replans: map<nat, Replan>, covered: set<Node>, campaign: nat,
                     ids: seq<nat>, unplanned: seq<nat>, active: set<Node>)
    requires replans == before - Stale(rows, before, covered, campaign) && PlannedStates(rows)
    requires forall id :: id in before ==> id in rows
    requires forall id :: id in ids ==> id in rows && IsEarliest(rows, replans, campaign, id)
    requires ids == [] <==> forall id :: id in replans ==> rows[id].campaign != campaign
    requires forall id :: id in unplanned ==> id in rows && rows[id].campaign == campaign && rows[id].state.Unplanned?
    ensures ids != [] <==> HasSurvivor(rows, before, covered, campaign)
    ensures forall id :: id in ids ==> (PlanAccepts(rows, replans, active, campaign, true, id) <==> !IsCovered(rows[id], active))
    ensures active <= covered ==> forall id :: id in ids ==> !IsCovered(rows[id], active)
    ensures ids == [] ==> forall id :: id in unplanned ==> PlanAccepts(rows, replans, active, campaign, false, id)
  {
    hide ReplanEligible;
    if ids != [] {
      var id := ids[0];
      assert id in ids && IsEarliest(rows, replans, campaign, id);
      assert id in before && id in rows && rows[id].campaign == campaign && !IsStale(rows, before, covered, campaign, id);
    }
    if HasSurvivor(rows, before, covered, campaign) {
      var id :| id in before && id in rows && rows[id].campaign == campaign && !IsStale(rows, before, covered, campaign, id);
      assert id in replans;
    }
    forall id | id in ids
      ensures PlanAccepts(rows, replans, active, campaign, true, id) <==> !IsCovered(rows[id], active)
      ensures active <= covered ==> !IsCovered(rows[id], active)
    {
      SurvivorAccepted(rows, before, covered, active, campaign, id);
    }
  }

  /** The least of some numbers. */
  method LeastOf(s: set<nat>) returns (m: nat)
    requires s != {}
    ensures m in s && forall n :: n in s ==> m <= n
  {
    m :| m in s;
    var rest := s;
    while rest != {}
      invariant m in s && rest <= s && forall n :: n in s && n !in rest ==> m <= n
      decreases rest
    {
      var n :| n in rest;
      if n < m { m := n; }
      rest := rest - {n};
    }
  }

  /** The first of some numbers, in order. */
  method FirstOf(s: set<nat>, quota: nat) returns (ids: seq<nat>)
    ensures (forall i, j :: 0 <= i < j < |ids| ==> ids[i] < ids[j]) && |ids| <= quota && forall id :: id in ids ==> id in s
    ensures forall other :: other in s && other !in ids ==> |ids| == quota && forall id :: id in ids ==> id < other
  {
    ids := [];
    var rest := s;
    while rest != {} && |ids| < quota
      invariant (forall i, j :: 0 <= i < j < |ids| ==> ids[i] < ids[j]) && |ids| <= quota && rest <= s
      invariant forall id :: id in s <==> id in ids || id in rest
      invariant forall id, other :: id in ids && other in rest ==> id < other
      decreases rest
    {
      var m := LeastOf(rest);
      forall i | 0 <= i < |ids| ensures ids[i] < m { assert ids[i] in ids; }
      ids, rest := ids + [m], rest - {m};
    }
  }

  /** The candidates of the earliest request are those queued with it. */
  lemma EarliestBatch(rows: Rows, replans: map<nat, Replan>, campaign: nat, mine: set<nat>, batch: set<nat>, request: nat)
    requires SameRequest(replans, rows) && forall id :: id in mine <==> id in replans && id in rows && rows[id].campaign == campaign
    requires forall id :: id in batch <==> id in replans && replans[id].request == request
    requires exists id :: id in mine && replans[id].request == request
    requires forall id :: id in mine ==> request <= replans[id].request
    ensures batch != {} && forall id :: id in batch <==> IsEarliest(rows, replans, campaign, id)
  {
    var first :| first in mine && replans[first].request == request;
    assert first in batch;
    forall id | id in batch ensures IsEarliest(rows, replans, campaign, id) {
      assert rows[id].campaign == rows[first].campaign;
    }
  }

  /** Candidates of a campaign with a queued request. */
  function QueuedFor(rows: Rows, replans: map<nat, Replan>, campaign: nat): (r: set<nat>)
    ensures forall id :: id in r <==> id in replans && id in rows && rows[id].campaign == campaign
  {
    set id | id in replans && id in rows && rows[id].campaign == campaign
  }

  function RequestsOf(replans: map<nat, Replan>, ids: set<nat>): (r: set<nat>)
    requires ids <= replans.Keys
    ensures forall id :: id in ids ==> replans[id].request in r
    ensures forall q :: q in r ==> exists id :: id in ids && replans[id].request == q
  {
    set id | id in ids :: replans[id].request
  }

  method ChooseRound(rows: Rows, replans: map<nat, Replan>, campaign: nat, quota: nat) returns (ids: seq<nat>)
    requires SameRequest(replans, rows) && quota > 0
    ensures IsRound(rows, replans, campaign, quota, ids)
    ensures ids == [] <==> forall id :: id in replans ==> id in rows && rows[id].campaign != campaign
  {
    hide SameRequest, IsEarliest;
    assert forall id :: id in replans ==> id in rows by { QueuedKnown(replans, rows); }
    ids := [];
    var mine := QueuedFor(rows, replans, campaign);
    if mine == {} {
      NoneEarliest(rows, replans, campaign);
      return;
    }
    var requests := RequestsOf(replans, mine);
    var one :| one in mine;
    assert replans[one].request in requests;
    var request := LeastOf(requests);
    var batch := set id | id in replans && replans[id].request == request;
    EarliestBatch(rows, replans, campaign, mine, batch, request);
    ids := FirstOf(batch, quota);
  }

  lemma QueuedKnown(replans: map<nat, Replan>, rows: Rows)
    requires SameRequest(replans, rows)
    ensures forall id :: id in replans ==> id in rows
  {
  }

  lemma NoneEarliest(rows: Rows, replans: map<nat, Replan>, campaign: nat)
    requires forall id :: id in replans && id in rows ==> rows[id].campaign != campaign
    ensures forall id :: !IsEarliest(rows, replans, campaign, id)
  {
  }

  class Controller {
    var attempts: Attempts
    var rows: Rows
    var replans: map<nat, Replan>
    /** Tickets recorded as skipped. */
    var skipped: set<Ticket>
    var nextAttempt: nat
    var nextRequest: nat
    /** Attempts in the order in which they were recorded as finished. */
    var log: seq<nat>
    /** Every ticket ever queued. */
    ghost var queued: set<Ticket>

    constructor (rows: Rows)
      requires forall id :: id in rows ==> rows[id].drv.None? && (rows[id].state.Unplanned? || rows[id].state.Excluded?)
      ensures Valid() && this.rows == rows && attempts == map[] && replans == map[] && skipped == {} && log == [] && queued == {}
    {
      attempts, replans, skipped, log := map[], map[], {}, [];
      this.rows := rows;
      nextAttempt, nextRequest, queued := 0, 0, {};
    }

    ghost predicate Valid()
      reads this
    {
      OneCampaign(attempts) && OnePlan(attempts) && RunningBacked(rows, attempts) && PlansDetached(rows, attempts) &&
      PlannedStates(rows) && FinishedOnce(attempts, log) && Conserved(queued, replans, attempts, skipped) &&
      (forall x :: x in attempts ==> x < nextAttempt) && (forall q :: q in queued ==> q.request < nextRequest) &&
      SameRequest(replans, rows)
    }

    /** Whether an attempt of another campaign is active. */
    predicate Foreign(campaign: nat)
      reads this
    {
      exists x :: x in attempts && IsActive(attempts[x]) && attempts[x].campaign != campaign
    }

    predicate Busy()
      reads this
    {
      exists x :: x in attempts && IsActive(attempts[x])
    }

    predicate Planning()
      reads this
    {
      exists x :: x in attempts && IsActive(attempts[x]) && attempts[x].targets.PlanOf?
    }

    /** Derivations covered by active builds. */
    function ActiveDrvs(): set<Node>
      reads this
    {
      ActiveDrvsOf(attempts)
    }

    /** Whether the targets or anything below them is out of scope. */
    method OutOfScope(f: Facts, targets: seq<Node>) returns (r: bool)
      ensures r <==> NeedsExcluded(f, targets)
    {
      hide Reaches;
      var below := Mark(f.edges, targets);
      r := below * f.exclusion.Keys != {};
      forall t, x | t in targets && x in f.exclusion && Reaches(f.edges, t, x) ensures x in below * f.exclusion.Keys {
        assert ReachedFrom(f.edges, SetOf(targets), x);
        ReachSetMembers(f.edges, SetOf(targets), x);
      }
      if r {
        ghost var x :| x in below * f.exclusion.Keys;
        ReachSetMembers(f.edges, SetOf(targets), x);
        ghost var t :| t in SetOf(targets) && Reaches(f.edges, t, x);
      }
    }

    /** Intends a build. Refused while another campaign is active, while anything is active and
        planning ahead is off, when a target is out of scope, or when admission grants no place. */
    method IntendBuild(f: Facts, campaign: nat, ahead: nat, drvs: seq<Node>, granted: bool) returns (aid: Option<nat>)
      requires Valid()
      modifies this
      ensures Valid()
      ensures aid.None? <==> old(Foreign(campaign)) || (old(Busy()) && ahead == 0) || !granted ||
                             NeedsExcluded(f, drvs)
      ensures aid.None? ==> attempts == old(attempts) && rows == old(rows)
      ensures aid.Some? ==> aid.value !in old(attempts) && rows == SetRunning(old(rows), campaign, drvs)
      ensures aid.Some? ==> attempts == old(attempts)[aid.value := NewBuild(f, campaign, drvs)]
      ensures replans == old(replans) && skipped == old(skipped) && log == old(log) && queued == old(queued)
    {
      hide RunningBacked, Conserved, Reaches, ReachSet, SetRunning, FinishedOnce, NeedsExcluded, PlansDetached, OnePlan,
        PlannedStates, SameRequest, OneCampaign;
      var outside := OutOfScope(f, drvs);
      if Foreign(campaign) || (Busy() && ahead == 0) || outside || !granted { return None; }
      var covered := Mark(f.edges, drvs);
      var a := Attempt(campaign, BuildOf(drvs), Intended, covered, map[]);
      var id := nextAttempt;
      RunningSet(rows, attempts, id, a);
      SameConsumedConserves(queued, replans, attempts, attempts[id := a], skipped);
      RunningKeepsDrvs(rows, replans, campaign, drvs);
      AttemptAdds(attempts, log, id, a);
      DetachedKeeps(rows, attempts, SetRunning(rows, campaign, drvs), attempts[id := a]);
      attempts, rows, nextAttempt := attempts[id := a], SetRunning(rows, campaign, drvs), id + 1;
      return Some(id);
    }

    /** Whether an active plan works on a candidate. */
    predicate BeingPlanned(id: nat)
      reads this
    {
      exists x :: x in attempts && IsActivePlan(attempts, x) && id in attempts[x].targets.ids
    }

    /** Whether plan accepts a request. */
    predicate PlanReady(campaign: nat, ids: seq<nat>, revised: bool, ahead: nat)
      reads this
    {
      0 < |ids| <= 64 && Distinct(ids) &&
      (forall id :: id in ids ==> PlanAccepts(rows, replans, ActiveDrvs(), campaign, revised, id)) &&
      !Foreign(campaign) && !Planning() && !(Busy() && ahead == 0)
    }

    /** Intends a plan, at the campaign's revision or at one given. Its targets give up an old
        recipe, and the requests queued for them become part of the attempt, in one step. */
    method Plan(campaign: nat, ids: seq<nat>, revised: bool, ahead: nat) returns (aid: Option<nat>)
      requires Valid()
      modifies this
      ensures Valid()
      ensures aid.Some? <==> old(PlanReady(campaign, ids, revised, ahead))
      ensures aid.None? ==> attempts == old(attempts) && rows == old(rows) && replans == old(replans)
      ensures aid.Some? ==>
                aid.value !in old(attempts) && attempts == old(attempts)[aid.value := NewPlan(campaign, ids, old(replans))] &&
                rows == (if revised then Detach(old(rows), ids) else old(rows)) && replans == old(replans) - SetOf(ids)
      ensures skipped == old(skipped) && log == old(log) && queued == old(queued)
    {
      hide RunningBacked, Conserved, FinishedOnce, SameRequest, PlansDetached, OneCampaign, OnePlan;
      if !PlanReady(campaign, ids, revised, ahead) { return None; }
      var a := NewPlan(campaign, ids, replans);
      var id := nextAttempt;
      var rows' := if revised then Detach(rows, ids) else rows;
      PlanTakes(rows, replans, ids, revised, campaign, ActiveDrvs());
      AttemptAdds(attempts, log, id, a);
      DetachedPlan(rows, attempts, id, a, rows');
      if revised { RunningDetached(rows, attempts, ids); }
      RunningAdds(rows', attempts, id, a);
      PlanConserves(queued, replans, attempts, skipped, id, a);
      attempts, rows, nextAttempt := attempts[id := a], rows', id + 1;
      replans := replans - a.consumed.Keys;
      return Some(id);
    }

    predicate QueueAccepts(campaign: nat, source: nat, revision: nat, id: nat)
      reads this
    {
      id in rows && rows[id].campaign == campaign && ReplanEligible(rows[id]) && !BeingPlanned(id) &&
      !(rows[id].drv.Some? && rows[id].drv.value in ActiveDrvs()) &&
      (id in replans ==> replans[id].source == source && replans[id].revision == revision)
    }

    predicate QueueReady(campaign: nat, ids: seq<nat>, source: nat, revision: nat)
      reads this
    {
      0 < |ids| <= 8192 && Distinct(ids) && forall id :: id in ids ==> QueueAccepts(campaign, source, revision, id)
    }

    /** Queues candidates for planning at another revision; those already queued for that
        revision keep their request. All are accepted or none is. */
    method QueueReplan(campaign: nat, ids: seq<nat>, source: nat, revision: nat) returns (added: Option<nat>)
      requires Valid()
      modifies this
      ensures Valid()
      ensures added.Some? <==> old(QueueReady(campaign, ids, source, revision))
      ensures added.None? ==> replans == old(replans) && queued == old(queued)
      ensures added.Some? ==>
                added.value == |SetOf(ids) - old(replans).Keys| &&
                replans == old(replans) + Entries(SetOf(ids) - old(replans).Keys, Replan(source, revision, old(nextRequest))) &&
                queued == old(queued) + Tickets(SetOf(ids) - old(replans).Keys, old(nextRequest))
      ensures attempts == old(attempts) && rows == old(rows) && skipped == old(skipped) && log == old(log)
    {
      hide RunningBacked, Conserved, FinishedOnce, SameRequest, PlansDetached, OneCampaign, OnePlan, PlannedStates, ReplanEligible,
        Distinct, BeingPlanned, ActiveDrvs;
      if !QueueReady(campaign, ids, source, revision) { return None; }
      var pending := SetOf(ids) - replans.Keys;
      var entry := Replan(source, revision, nextRequest);
      PendingQueued(queued, replans, attempts, skipped, nextRequest);
      QueueConserves(queued, replans, attempts, skipped, pending, entry);
      QueueTogether(replans, rows, pending, entry, campaign);
      added := Some(|pending|);
      replans := replans + Entries(pending, entry);
      queued := queued + Tickets(pending, nextRequest);
      nextRequest := nextRequest + 1;
    }

    /** Drops the requests of a campaign that were overtaken, and records them. */
    method SkipStale(campaign: nat, covered: set<Node>)
      requires Valid()
      modifies this
      ensures Valid()
      ensures replans == old(replans) - Stale(rows, old(replans), covered, campaign)
      ensures skipped == old(skipped) + TicketsOf(old(replans), Stale(rows, old(replans), covered, campaign))
      ensures attempts == old(attempts) && rows == old(rows) && log == old(log) && queued == old(queued)
    {
      hide RunningBacked, Conserved, FinishedOnce, PlansDetached, OneCampaign, OnePlan, PlannedStates, IsStale;
      var stale := Stale(rows, replans, covered, campaign);
      SkipConserves(queued, replans, attempts, skipped, stale);
      skipped := skipped + TicketsOf(replans, stale);
      replans := replans - stale;
    }

    /** The unit of an attempt was seen at work. */
    method MarkActive(aid: nat)
      requires Valid() && aid in attempts && IsActive(attempts[aid])
      modifies this
      ensures Valid() && attempts == old(attempts)[aid := old(attempts)[aid].(phase := Active)]
      ensures rows == old(rows) && replans == old(replans) && skipped == old(skipped) && log == old(log) && queued == old(queued)
    {
      hide Conserved, SameRequest, PlannedStates;
      var more := attempts[aid := attempts[aid].(phase := Active)];
      SameConsumedConserves(queued, replans, attempts, more, skipped);
      ActivatedKeeps(rows, attempts, log, aid);
      attempts := more;
    }

    /** Records that a plan has finished. Its targets take what the planner observed, states are
        refreshed, and candidates that name a derivation being built count as running. */
    method FinishPlan(f: Facts, aid: nat, results: map<nat, PlanRow>)
      requires Valid() && WellRecorded(f) && aid in attempts && IsActive(attempts[aid]) && attempts[aid].targets.PlanOf?
      modifies this
      ensures Valid()
      ensures attempts == old(attempts)[aid := old(attempts)[aid].(phase := Finished)] && log == old(log) + [aid]
      ensures PlanFinished(f, old(attempts), aid, results, old(rows), rows)
      ensures replans == old(replans) && skipped == old(skipped) && queued == old(queued)
    {
      hide RunningBacked, Conserved, FinishedOnce, SameRequest, OneCampaign, OnePlan, PlannedStates, Refreshed, Observed,
        WellRecorded, BuildTargets, MarkBuilding;
      var campaign, ids := attempts[aid].campaign, attempts[aid].targets.ids;
      var observed := ApplyPlan(rows, campaign, ids, results);
      AppliedKeeps(rows, observed, attempts, campaign, ids, results, replans);
      var refreshed := RefreshRows(f, campaign, observed);
      var more := attempts[aid := attempts[aid].(phase := Finished)];
      var rows' := MarkBuilding(refreshed, campaign, BuildTargets(attempts, campaign));
      PlanEnds(f, observed, refreshed, attempts, aid, replans);
      PlanShows(f, rows, observed, refreshed, attempts, aid, results);
      FinishKeeps(attempts, log, aid);
      SameConsumedConserves(queued, replans, attempts, more, skipped);
      attempts, rows, log := more, rows', log + [aid];
    }

    /** Records that a build has finished, given what is now known of the derivations. */
    method FinishBuild(f: Facts, aid: nat, reason: string, retry: bool)
      requires Valid() && WellRecorded(f) && aid in attempts && IsActive(attempts[aid]) && attempts[aid].targets.BuildOf?
      modifies this
      ensures Valid()
      ensures attempts == old(attempts)[aid := old(attempts)[aid].(phase := Finished)] && log == old(log) + [aid]
      ensures rows.Keys == old(rows).Keys
      ensures forall id :: id in rows ==>
                rows[id] == BuiltAs(f, attempts[aid].campaign, attempts[aid].targets.drvs, reason, retry, old(rows)[id])
      ensures replans == old(replans) && skipped == old(skipped) && queued == old(queued)
    {
      hide RunningBacked, Conserved, FinishedOnce, SameRequest, OneCampaign, OnePlan, PlannedStates, Refreshed, BuiltAs,
        WellRecorded, Restate, PlansDetached, NoneRunning, Calmer;
      var campaign, drvs := attempts[aid].campaign, attempts[aid].targets.drvs;
      var idle := Restate(rows, campaign, drvs, Running, State.Queued, None);
      RestateCalmer(rows, campaign, drvs, Running, State.Queued, None);
      var mid := RefreshRows(f, campaign, idle);
      RefreshCalmer(f, campaign, idle, mid);
      var rows' := Restate(mid, campaign, drvs, State.Queued, Inconclusive, Some(Some(reason)));
      RestateCalmer(mid, campaign, drvs, State.Queued, Inconclusive, Some(Some(reason)));
      CalmerOn(rows, idle, mid);
      CalmerOn(rows, mid, rows');
      if retry {
        RestateCalmer(rows', campaign, drvs, Inconclusive, State.Queued, Some(None));
        CalmerOn(rows, rows', Restate(rows', campaign, drvs, Inconclusive, State.Queued, Some(None)));
        rows' := Restate(rows', campaign, drvs, Inconclusive, State.Queued, Some(None));
      }
      BuiltSteps(f, campaign, drvs, reason, retry, rows, mid);
      BuildEnds(rows, rows', attempts, aid, replans);
      FinishKeeps(attempts, log, aid);
      var more := attempts[aid := attempts[aid].(phase := Finished)];
      SameConsumedConserves(queued, replans, attempts, more, skipped);
      attempts, rows, log := more, rows', log + [aid];
    }

    /** Brings a campaign's candidates in line with changed facts. */
    method Refresh(f: Facts, campaign: nat)
      requires Valid() && WellRecorded(f)
      modifies this`rows
      ensures Valid() && Refreshed(f, campaign, old(rows), rows)
    {
      hide RunningBacked, Conserved, FinishedOnce, SameRequest, OneCampaign, OnePlan, PlannedStates, Refreshed, WellRecorded,
        PlansDetached, Calmer;
      var rows' := RefreshRows(f, campaign, rows);
      RefreshCalmer(f, campaign, rows, rows');
      CalmerKeeps(rows, rows', attempts, replans);
      rows := rows';
    }

    /** Whether a derivation lies at or below a recipe of the campaign. */
    ghost predicate Belongs(f: Facts, campaign: nat, d: Node)
      reads this
    {
      ReachedFrom(f.edges, RecipesOf(rows, campaign), d)
    }

    /** Forgets the failure of one derivation of the campaign that is in scope. */
    method RetryDerivation(f: Facts, campaign: nat, d: Node) returns (r: Option<Facts>)
      requires Valid() && WellRecorded(f)
      modifies this`rows
      ensures Valid()
      ensures r.Some? <==> old(Belongs(f, campaign, d)) && !NeedsExcluded(f, [d])
      ensures r.None? ==> rows == old(rows)
      ensures r.Some? ==> r.value == Forgotten(f, [d]) && Refreshed(r.value, campaign, old(rows), rows)
    {
      hide RunningBacked, Conserved, FinishedOnce, SameRequest, OneCampaign, OnePlan, PlannedStates, Refreshed, Reversed,
        PlansDetached, NeedsExcluded, ReachSet;
      var roots := Listed(RecipesOf(rows, campaign));
      var below := Mark(f.edges, roots);
      ReachSetMembers(f.edges, RecipesOf(rows, campaign), d);
      var outside := OutOfScope(f, [d]);
      if d !in below || outside { return None; }
      Refresh(Forgotten(f, [d]), campaign);
      r := Some(Forgotten(f, [d]));
    }

    /** Retries candidates explicitly: their own failures are forgotten and they are queued again,
        unless the facts that remain say otherwise. All are accepted or none is. */
    method Retry(f: Facts, campaign: nat, ids: seq<nat>) returns (r: Option<Facts>)
      requires Valid() && WellRecorded(f)
      modifies this`rows
      ensures Valid()
      ensures r.Some? <==> old(RetryReady(f, rows, campaign, ids))
      ensures r.None? ==> rows == old(rows)
      ensures r.Some? ==> r.value == Forgotten(f, Recipes(old(rows), ids)) &&
                          Refreshed(r.value, campaign, Requeue(old(rows), campaign, Recipes(old(rows), ids)), rows)
    {
      hide RunningBacked, Conserved, FinishedOnce, SameRequest, OneCampaign, OnePlan, PlannedStates, Refreshed, Reversed,
        PlansDetached, Calmer, Requeue, NeedsExcluded;
      var rows' := rows;
      RequeueNone(rows, campaign);
      for i := 0 to |ids|
        invariant rows == old(rows) && rows' == Requeue(rows, campaign, Recipes(rows, ids[..i]))
        invariant forall j :: 0 <= j < i ==> RetryAccepts(f, rows, campaign, ids, j)
      {
        assert ids[..i + 1][..i] == ids[..i];
        var id := ids[i];
        RequeuedAt(rows, campaign, Recipes(rows, ids[..i]), id);
        if id !in rows' || rows'[id].campaign != campaign || rows'[id].drv.None? || rows'[id].state.Running? ||
           rows'[id].state.Excluded? {
          assert !RetryAccepts(f, rows, campaign, ids, i);
          return None;
        }
        var outside := OutOfScope(f, [rows'[id].drv.value]);
        if outside {
          assert !RetryAccepts(f, rows, campaign, ids, i);
          return None;
        }
        RequeueOn(rows, campaign, Recipes(rows, ids[..i]), rows'[id].drv.value);
        rows' := Requeue(rows', campaign, [rows'[id].drv.value]);
      }
      assert ids[..|ids|] == ids;
      var left := Forgotten(f, Recipes(rows, ids));
      RequeueCalmer(rows, campaign, Recipes(rows, ids));
      CalmerKeeps(rows, rows', attempts, replans);
      rows := rows';
      Refresh(left, campaign);
      r := Some(left);
    }

    /** Marks a campaign's kernels as out of scope; the other targets of a build that was cancelled
        because of them are queued again. */
    method ExcludeKernels(f: Facts, campaign: nat, kernels: set<nat>, reason: string, targets: seq<Node>)
      requires Valid() && WellRecorded(f)
      modifies this`rows
      ensures Valid() && Refreshed(f, campaign, Withdraw(old(rows), campaign, kernels, reason, targets), rows)
    {
      hide RunningBacked, Conserved, FinishedOnce, SameRequest, OneCampaign, OnePlan, PlannedStates, Refreshed, WellRecorded,
        PlansDetached, Calmer, Withdraw;
      var rows' := Withdraw(rows, campaign, kernels, reason, targets);
      WithdrawCalmer(rows, campaign, kernels, reason, targets);
      CalmerKeeps(rows, rows', attempts, replans);
      rows := rows';
      Refresh(f, campaign);
    }

    /** Candidates to plan next: all of one request, the earliest of the campaign, in order. */
    method EarliestRequest(campaign: nat, quota: nat) returns (ids: seq<nat>)
      requires Valid() && quota > 0
      ensures IsRound(rows, replans, campaign, quota, ids)
      ensures ids == [] <==> forall id :: id in replans ==> rows[id].campaign != campaign
    {
      hide RunningBacked, Conserved, FinishedOnce, OneCampaign, OnePlan, PlannedStates, PlansDetached, IsRound;
      ids := ChooseRound(rows, replans, campaign, quota);
    }

    /** The planning half of an admission round, unless enough is queued already: overtaken requests
        are skipped, then the earliest request is planned, or else candidates not planned yet. A
        request is refused exactly if an active build covers a recipe of its candidates; given the
        recipes of every active build, that never happens, and a round with a quota and anything to
        plan always starts a plan. */
    method AdmitPlan(campaign: nat, ahead: nat, covered: set<Node>, unplanned: seq<nat>)
      returns (aid: Option<nat>, ids: seq<nat>)
      requires Valid() && !Foreign(campaign) && !Planning() && !(Busy() && ahead == 0)
      requires IsUnplannedRound(rows, campaign, PlanQuota(rows, campaign, ahead), unplanned)
      modifies this
      ensures Valid() && (aid.Some? ==> aid.value !in old(attempts))
      ensures aid.None? ==> attempts == old(attempts) && rows == old(rows)
      ensures PlanQuota(old(rows), campaign, ahead) == 0 ==> ids == [] && aid.None? && replans == old(replans)
      ensures PlanQuota(old(rows), campaign, ahead) > 0 ==>
                IsRound(old(rows), old(replans) - Stale(old(rows), old(replans), covered, campaign), campaign,
                        PlanQuota(old(rows), campaign, ahead), ids) &&
                (ids != [] <==> HasSurvivor(old(rows), old(replans), covered, campaign))
      ensures aid.Some? <==> RoundPlans(old(rows), ActiveDrvsOf(old(attempts)), ids, unplanned)
      ensures PlanQuota(old(rows), campaign, ahead) > 0 && ActiveDrvsOf(old(attempts)) <= covered ==>
                (aid.Some? <==> HasUnplanned(old(rows), campaign) || HasSurvivor(old(rows), old(replans), covered, campaign))
    {
      var quota := PlanQuota(rows, campaign, ahead);
      if quota == 0 { return None, []; }
      UnplannedRound(rows, campaign, quota, unplanned);
      aid, ids := PlanNext(campaign, ahead, quota, covered, unplanned);
    }

    method PlanNext(campaign: nat, ahead: nat, quota: nat, covered: set<Node>, unplanned: seq<nat>)
      returns (aid: Option<nat>, ids: seq<nat>)
      requires Valid() && 0 < quota <= 32 && !Foreign(campaign) && !Planning() && !(Busy() && ahead == 0)
      requires Distinct(unplanned) && |unplanned| <= quota
      requires forall id :: id in unplanned ==> id in rows && rows[id].campaign == campaign && rows[id].state.Unplanned?
      modifies this
      ensures Valid() && (aid.Some? ==> aid.value !in old(attempts))
      ensures aid.None? ==> attempts == old(attempts) && rows == old(rows)
      ensures IsRound(old(rows), old(replans) - Stale(old(rows), old(replans), covered, campaign), campaign, quota, ids)
      ensures ids != [] <==> HasSurvivor(old(rows), old(replans), covered, campaign)
      ensures aid.Some? <==> RoundPlans(old(rows), ActiveDrvsOf(old(attempts)), ids, unplanned)
      ensures ActiveDrvsOf(old(attempts)) <= covered ==>
                (aid.Some? <==> unplanned != [] || HasSurvivor(old(rows), old(replans), covered, campaign))
    {
      hide RunningBacked, Conserved, FinishedOnce, OneCampaign, OnePlan, PlansDetached, ReplanEligible, Stale, TicketsOf,
        IsStale, PlanAccepts, IsCovered, IsRound, HasSurvivor, PlannedStates, IsEarliest;
      ghost var before := replans;
      SkipStale(campaign, covered);
      ids := EarliestRequest(campaign, quota);
      RoundIds(rows, replans, campaign, quota, ids);
      RoundAccepts(rows, before, replans, covered, campaign, ids, unplanned, ActiveDrvs());
      if ids != [] {
        aid := Plan(campaign, ids, true, ahead);
      } else if unplanned != [] {
        aid := Plan(campaign, unplanned, false, ahead);
      } else {
        aid := None;
      }
    }
  }

  lemma RoundIds(rows: Rows, replans: map<nat, Replan>, campaign: nat, quota: nat, ids: seq<nat>)
    requires IsRound(rows, replans, campaign, quota, ids)
    ensures Distinct(ids) && |ids| <= quota && forall id :: id in ids ==> IsEarliest(rows, replans, campaign, id) && id in rows
  {
  }

  lemma RunningKeepsDrvs(rows: Rows, replans: map<nat, Replan>, campaign: nat, drvs: seq<Node>)
    requires PlannedStates(rows) && SameRequest(replans, rows)
    ensures var r := SetRunning(rows, campaign, drvs);
            PlannedStates(r) && SameRequest(replans, r) &&
            forall id :: id in rows ==> r[id].drv == rows[id].drv && r[id].campaign == rows[id].campaign
  {
  }
}
