/** What becomes of one candidate over the updates of a campaign: a build without an outcome is not
    repeated unless it is asked for. */
module ControllerHistory {
  import opened Wrappers
  import opened Collections
  import opened Reachability
  import opened Candidates
  import opened Controller

  /** The transactions that change candidates. */
  datatype Update =
    | Refreshing(f: Facts, campaign: nat)
    | BuildBegins(campaign: nat, drvs: seq<Node>)
    | BuildFinishes(f: Facts, campaign: nat, drvs: seq<Node>, reason: string, retry: bool)
    | PlanBegins(ids: seq<nat>)
    | PlanFinishes(f: Facts, campaign: nat, ids: seq<nat>, building: set<Node>)
    | Retrying(f: Facts, campaign: nat, drvs: seq<Node>)
    | Excluding(f: Facts, campaign: nat, kernels: set<nat>, targets: seq<Node>)

  /** Whether an update asks for a candidate: it builds, plans or retries it, or excludes its recipe. */
  predicate AsksFor(u: Update, id: nat, c: Candidate)
  {
    match u
    case Refreshing(f, _) => OutsideScope(f, c)
    case BuildBegins(campaign, drvs) => IsTargeted(c, campaign, drvs)
    case BuildFinishes(f, campaign, drvs, _, retry) => OutsideScope(f, c) || (retry && IsTargeted(c, campaign, drvs))
    case PlanBegins(ids) => id in ids
    case PlanFinishes(f, campaign, ids, building) =>
      OutsideScope(f, c) || id in ids || (c.campaign == campaign && c.drv.Some? && c.drv.value in building)
    case Retrying(f, campaign, drvs) => OutsideScope(f, c) || IsTargeted(c, campaign, drvs)
    case Excluding(f, campaign, kernels, targets) =>
      OutsideScope(f, c) || id in kernels || IsTargeted(c, campaign, targets)
  }

  predicate OutsideScope(f: Facts, c: Candidate)
  {
    c.drv.Some? && c.drv.value in f.exclusion
  }

  /** The rows before and after an update, as the controller's methods state them. */
  ghost predicate Updates(u: Update, rows: Rows, rows': Rows)
  {
    match u
    case Refreshing(f, campaign) => Refreshed(f, campaign, rows, rows')
    case BuildBegins(campaign, drvs) => rows' == SetRunning(rows, campaign, drvs)
    case BuildFinishes(f, campaign, drvs, reason, retry) =>
      rows'.Keys == rows.Keys && forall id :: id in rows ==> rows'[id] == BuiltAs(f, campaign, drvs, reason, retry, rows[id])
    case PlanBegins(ids) => rows' == rows || rows' == Detach(rows, ids)
    case PlanFinishes(f, campaign, ids, building) =>
      exists attempts, aid, results ::
        IsPlan(attempts, aid, campaign, ids) && BuildTargets(attempts, campaign) == building &&
        PlanFinished(f, attempts, aid, results, rows, rows')
    case Retrying(f, campaign, drvs) => Refreshed(f, campaign, Requeue(rows, campaign, drvs), rows')
    case Excluding(f, campaign, kernels, targets) =>
      exists reason :: Refreshed(f, campaign, Withdraw(rows, campaign, kernels, reason, targets), rows')
  }

  predicate IsPlan(attempts: Attempts, aid: nat, campaign: nat, ids: seq<nat>)
  {
    aid in attempts && attempts[aid].targets == PlanOf(ids) && attempts[aid].campaign == campaign
  }

  /** An update leaves a candidate whose build had no outcome as it is, unless it asks for it. */
  lemma UpdateLeaves(u: Update, rows: Rows, rows': Rows, id: nat)
    requires Updates(u, rows, rows') && id in rows
    requires rows[id].state == Inconclusive && rows[id].drv.Some? && !AsksFor(u, id, rows[id])
    ensures id in rows' && rows'[id] == rows[id]
  {
    hide DependsOn, Observed;
    match u
    case Refreshing(f, campaign) =>
    case BuildBegins(campaign, drvs) =>
    case BuildFinishes(f, campaign, drvs, reason, retry) =>
    case PlanBegins(ids) =>
    case PlanFinishes(f, campaign, ids, building) =>
      var attempts, aid, results :|
        IsPlan(attempts, aid, campaign, ids) && BuildTargets(attempts, campaign) == building &&
        PlanFinished(f, attempts, aid, results, rows, rows');
      assert PlanLeaves(f, attempts, aid, results, rows, id, rows'[id]);
    case Retrying(f, campaign, drvs) =>
    case Excluding(f, campaign, kernels, targets) =>
  }

  /** The rows after each of some updates. */
  ghost predicate Runs(us: seq<Update>, states: seq<Rows>)
  {
    |states| == |us| + 1 && forall i :: 0 <= i < |us| ==> Updates(us[i], states[i], states[i + 1])
  }

  /** Over any run of updates a candidate whose build had no outcome stays so, unless one asks for it. */
  lemma {:induction false} StaysInconclusive(us: seq<Update>, states: seq<Rows>, id: nat)
    requires Runs(us, states) && id in states[0] && states[0][id].state == Inconclusive && states[0][id].drv.Some?
    requires forall i :: 0 <= i < |us| ==> !AsksFor(us[i], id, states[0][id])
    ensures id in states[|us|] && states[|us|][id] == states[0][id]
  {
    hide Updates, AsksFor;
    if us != [] {
      var n := |us| - 1;
      StaysInconclusive(us[..n], states[..n + 1], id);
      UpdateLeaves(us[n], states[n], states[n + 1], id);
    }
  }

  /** A build that ended without an outcome for one of its recipes leaves it inconclusive, with the
      reason, unless its builder could not start anything; and it is not built again by itself. */
  lemma NoRebuild(f: Facts, campaign: nat, drvs: seq<Node>, reason: string, us: seq<Update>, states: seq<Rows>, rows: Rows, id: nat)
    requires id in rows && rows[id].state == Running && IsTargeted(rows[id], campaign, drvs)
    requires Runs(us, states) && Updates(BuildFinishes(f, campaign, drvs, reason, false), rows, states[0])
    requires var d := rows[id].drv.value;
             d !in f.exclusion && d !in f.available && d !in f.failure &&
             !DependsOn(f, d, f.exclusion.Keys) && !DependsOn(f, d, Failures(f))
    requires forall i :: 0 <= i < |us| ==> !AsksFor(us[i], id, rows[id].(state := Inconclusive, error := Some(reason)))
    ensures id in states[|us|] && states[|us|][id] == rows[id].(state := Inconclusive, error := Some(reason))
  {
    hide DependsOn, AsksFor;
    assert states[0][id] == BuiltAs(f, campaign, drvs, reason, false, rows[id]);
    StaysInconclusive(us, states, id);
  }

  /** A recipe that is being built, waits, or is there is never planned afresh; every other one may be,
      unless it is out of scope for more than what it depends on. */
  lemma ReplanStates(rows: Rows, id: nat)
    requires PlannedStates(rows) && id in rows && rows[id].drv.Some? && rows[id].state != EvaluationError
    ensures ReplanEligible(rows[id]) <==>
            rows[id].state !in {Running, State.Queued, Available} && (rows[id].state == Excluded ==> rows[id].error == Some(INHERITED))
  {
  }

  // ----- Every transaction is such an update -----

  lemma PlanUpdates(rows: Rows, rows': Rows, ids: seq<nat>, revised: bool)
    requires rows' == if revised then Detach(rows, ids) else rows
    ensures Updates(PlanBegins(ids), rows, rows')
  {
  }

  lemma FinishPlanUpdates(f: Facts, attempts: Attempts, aid: nat, results: map<nat, PlanRow>, rows: Rows, rows': Rows)
    requires aid in attempts && attempts[aid].targets.PlanOf? && PlanFinished(f, attempts, aid, results, rows, rows')
    ensures var a := attempts[aid];
            Updates(PlanFinishes(f, a.campaign, a.targets.ids, BuildTargets(attempts, a.campaign)), rows, rows')
  {
    hide PlanFinished, BuildTargets;
    assert IsPlan(attempts, aid, attempts[aid].campaign, attempts[aid].targets.ids);
  }

  lemma ExcludeUpdates(f: Facts, campaign: nat, kernels: set<nat>, reason: string, targets: seq<Node>, rows: Rows, rows': Rows)
    requires Refreshed(f, campaign, Withdraw(rows, campaign, kernels, reason, targets), rows')
    ensures Updates(Excluding(f, campaign, kernels, targets), rows, rows')
  {
    hide Withdraw, Refreshed;
  }
}
