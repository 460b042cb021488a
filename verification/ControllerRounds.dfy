/** A run of the controller in which a round of admission asks for a plan that is refused. */
module ControllerRounds {
  import opened Wrappers
  import opened Collections
  import opened Reachability
  import opened Candidates
  import opened Controller

  /** Two derivations, the second depending on the first; nothing built, failed or excluded. */
  function Chained(): Facts
  {
    Facts(map[2 := [1]], map[1 := [2]], {}, map[], map[])
  }

  lemma ChainedRecorded()
    ensures WellRecorded(Chained())
  {
  }

  /** Without failures and exclusions a planned candidate that is not settled is queued. */
  lemma ChainedImplies(c: Candidate)
    ensures c.drv.Some? && !Settled(c.state) ==> Implied(Chained(), c) == c.(state := State.Queued)
    ensures Settled(c.state) ==> Implied(Chained(), c) == c
  {
    hide Reaches;
  }

  lemma ChainedReaches()
    ensures 1 in ReachSet(Chained().edges, SetOf([2])) && !NeedsExcluded(Chained(), [1]) && !NeedsExcluded(Chained(), [2])
  {
    hide ReachSet;
    assert Joins(Chained().edges, [2, 1], 2, 1);
    assert 2 in SetOf([2]);
    ReachSetMembers(Chained().edges, SetOf([2]), 1);
  }

  function Fresh(): Rows
  {
    map[0 := Candidate(0, None, Unplanned, None), 1 := Candidate(0, None, Unplanned, None)]
  }

  /** Two candidates with their recipes, as far as a run changes them. */
  function Pair(s0: State, e0: Option<string>, s1: State): Rows
  {
    map[0 := Candidate(0, Some(1), s0, e0), 1 := Candidate(0, Some(2), s1, None)]
  }

  ghost predicate AtRest(attempts: Attempts)
  {
    forall x :: x in attempts ==> !IsActive(attempts[x])
  }

  lemma NoneActive(attempts: Attempts)
    requires AtRest(attempts)
    ensures ActiveDrvsOf(attempts) == {}
  {
  }

  lemma ActiveHas(attempts: Attempts, x: nat, d: Node)
    requires x in attempts && IsActive(attempts[x]) && attempts[x].targets.BuildOf? && d in attempts[x].derivations
    ensures d in ActiveDrvsOf(attempts)
  {
  }

  /** What the planner's rows make of the two candidates. */
  lemma PlannedRows(attempts: Attempts, aid: nat, rows: Rows)
    requires aid in attempts && attempts[aid].targets == PlanOf([0, 1]) && attempts[aid].campaign == 0
    requires forall x :: x in attempts && IsActive(attempts[x]) ==> attempts[x].targets.PlanOf?
    requires PlanFinished(Chained(), attempts, aid, map[0 := Planned(1), 1 := Planned(2)], Fresh(), rows)
    ensures rows == Pair(State.Queued, None, State.Queued)
  {
    hide Implied;
    assert BuildTargets(attempts, 0) == {};
    forall id | id in {0, 1} ensures rows[id] == Candidate(0, Some(id + 1), State.Queued, None) {
      assert PlanLeaves(Chained(), attempts, aid, map[0 := Planned(1), 1 := Planned(2)], Fresh(), id, rows[id]);
      var seen :| LeavesAs(Chained(), attempts, aid, map[0 := Planned(1), 1 := Planned(2)], Fresh(), id, rows[id], seen);
      assert id in [0, 1];
      ChainedImplies(seen);
    }
  }

  /** Plans both candidates. */
  method PlanBoth() returns (c: Controller)
    ensures fresh(c) && c.Valid() && c.rows == Pair(State.Queued, None, State.Queued) && c.replans == map[] && AtRest(c.attempts)
  {
    hide RunningBacked, Conserved, FinishedOnce, SameRequest, OneCampaign, OnePlan, PlannedStates, PlansDetached, PlanFinished,
      ReplanEligible, NewPlan, Pair, WellRecorded, Detach;
    FreshRows();
    c := new Controller(Fresh());
    FreshAccepted();
    NoneActive(map[]);
    assert Distinct([0, 1]);
    var aid := c.Plan(0, [0, 1], false, 0);
    assert aid.Some?;
    ChainedRecorded();
    NewPlanIs([0, 1]);
    ghost var before := c.attempts;
    c.FinishPlan(Chained(), aid.value, map[0 := Planned(1), 1 := Planned(2)]);
    PlannedRows(before, aid.value, c.rows);
  }

  lemma FreshRows()
    ensures forall id :: id in Fresh() ==> Fresh()[id].drv.None? && (Fresh()[id].state.Unplanned? || Fresh()[id].state.Excluded?)
  {
  }

  lemma FreshAccepted()
    ensures forall id :: id in [0, 1] ==> PlanAccepts(Fresh(), map[], {}, 0, false, id)
  {
  }

  lemma NewPlanIs(ids: seq<nat>)
    ensures NewPlan(0, ids, map[]) == Attempt(0, PlanOf(ids), Intended, {}, map[])
  {
  }

  lemma InterruptedRows(rows: Rows)
    requires rows.Keys == {0, 1}
    requires rows[0] == BuiltAs(Chained(), 0, [1], "interrupted", false, Candidate(0, Some(1), Running, None))
    requires rows[1] == BuiltAs(Chained(), 0, [1], "interrupted", false, Candidate(0, Some(2), State.Queued, None))
    ensures rows == Pair(Inconclusive, Some("interrupted"), State.Queued)
  {
    hide Implied;
    ChainedImplies(Candidate(0, Some(1), State.Queued, None));
    ChainedImplies(Candidate(0, Some(2), State.Queued, None));
  }

  lemma StartedRows()
    ensures SetRunning(Pair(State.Queued, None, State.Queued), 0, [1]) == Pair(Running, None, State.Queued)
    ensures SetRunning(Pair(Inconclusive, Some("interrupted"), State.Queued), 0, [2]) == Pair(Inconclusive, Some("interrupted"), Running)
  {
  }

  /** The first candidate's build is interrupted. */
  method InterruptFirst(c: Controller)
    requires c.Valid() && c.rows == Pair(State.Queued, None, State.Queued) && c.replans == map[] && AtRest(c.attempts)
    modifies c
    ensures c.Valid() && c.rows == Pair(Inconclusive, Some("interrupted"), State.Queued) && c.replans == map[] && AtRest(c.attempts)
  {
    hide RunningBacked, Conserved, FinishedOnce, SameRequest, OneCampaign, OnePlan, PlannedStates, PlansDetached, WellRecorded,
      NeedsExcluded, BuiltAs, SetRunning, Reaches, ReachSet;
    ChainedReaches();
    ChainedRecorded();
    StartedRows();
    var aid := c.IntendBuild(Chained(), 0, 0, [1], true);
    c.FinishBuild(Chained(), aid.value, "interrupted", false);
    InterruptedRows(c.rows);
  }

  /** A replan of the first candidate is queued. */
  method QueueFirst(c: Controller)
    requires c.Valid() && c.rows == Pair(Inconclusive, Some("interrupted"), State.Queued) && c.replans == map[] && AtRest(c.attempts)
    modifies c
    ensures c.Valid() && c.rows == old(c.rows) && c.attempts == old(c.attempts) && c.replans.Keys == {0}
  {
    hide RunningBacked, Conserved, FinishedOnce, SameRequest, OneCampaign, OnePlan, PlannedStates, PlansDetached, Tickets;
    NoneActive(c.attempts);
    assert Distinct([0]);
    assert SetOf([0]) == {0};
    assert c.QueueAccepts(0, 7, 7, 0);
    var added := c.QueueReplan(0, [0], 7, 7);
    assert added.Some?;
  }

  /** A round looks for overtaken requests with the builds it began with. Here the batch that it
      has just started covers the recipe of the queued candidate: the request survives the skip,
      it is the one that is planned, and the plan is refused. */
  method BatchOvertakesRequest() returns (c: Controller, began: set<Node>, batch: Option<nat>, ids: seq<nat>, aid: Option<nat>)
    ensures fresh(c) && c.Valid() && began == {}
    ensures batch.Some? && batch.value in c.attempts && c.attempts[batch.value] == NewBuild(Chained(), 0, [2])
    ensures ids != [] && aid.None?
  {
    hide RunningBacked, Conserved, FinishedOnce, SameRequest, OneCampaign, OnePlan, PlannedStates, PlansDetached,
      NeedsExcluded, SetRunning, Reaches, ReachSet, IsRound, IsStale, HasSurvivor, RoundPlans;
    c := PlanBoth();
    InterruptFirst(c);
    QueueFirst(c);
    began := ActiveDrvsOf(c.attempts);
    NoneActive(c.attempts);
    ChainedReaches();
    StartedRows();
    batch := c.IntendBuild(Chained(), 0, 1, [2], true);
    RequestWanted(c.rows, c.replans);
    ghost var rows, replans, active := c.rows, c.replans, ActiveDrvsOf(c.attempts);
    ActiveHas(c.attempts, batch.value, 1);
    RoomToPlan(c.rows);
    aid, ids := c.AdmitPlan(0, 1, began, []);
    PlanRefused(rows, replans, active, ids);
  }

  lemma RoomToPlan(rows: Rows)
    requires rows == Pair(Inconclusive, Some("interrupted"), Running)
    ensures PlanQuota(rows, 0, 1) == 1
  {
    assert QueuedDrvs(rows, 0) == {};
  }

  lemma RequestWanted(rows: Rows, replans: map<nat, Replan>)
    requires rows == Pair(Inconclusive, Some("interrupted"), Running) && replans.Keys == {0}
    ensures HasSurvivor(rows, replans, {}, 0)
  {
    assert !IsStale(rows, replans, {}, 0, 0);
  }

  lemma PlanRefused(rows: Rows, replans: map<nat, Replan>, active: set<Node>, ids: seq<nat>)
    requires rows == Pair(Inconclusive, Some("interrupted"), Running) && replans.Keys == {0} && 1 in active
    requires IsRound(rows, replans - Stale(rows, replans, {}, 0), 0, 1, ids) && ids != []
    ensures (forall id :: id in ids ==> id in rows) && !RoundPlans(rows, active, ids, [])
  {
    assert ids[0] in ids;
  }
}
