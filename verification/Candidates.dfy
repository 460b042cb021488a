/** The states of a campaign's candidates, as the recorded facts about derivations imply them. */
module Candidates {
  import opened Wrappers
  import opened Collections
  import opened Reachability

  datatype State =
    | Unplanned | Queued | Running | Available | Failed | Blocked | Excluded | Inconclusive | EvaluationError

  datatype Candidate = Candidate(campaign: nat, drv: Option<Node>, state: State, error: Option<string>)

  const INHERITED: string := "Depends on a derivation outside the experiment's scope"

  /** What is recorded: edges both ways, realised outputs, failures and exclusions. */
  datatype Facts = Facts(edges: Graph, parents: Graph, available: set<Node>, failure: map<Node, string>, exclusion: map<Node, string>)

  ghost predicate WellRecorded(f: Facts)
  {
    Reversed(f.edges, f.parents)
  }

  /** Failures that are in scope. */
  function Failures(f: Facts): set<Node>
  {
    f.failure.Keys - f.exclusion.Keys
  }

  /** A derivation that has one of some derivations among its dependencies, or is one. */
  ghost predicate DependsOn(f: Facts, d: Node, on: set<Node>)
  {
    exists s :: s in on && Reaches(f.edges, d, s)
  }

  predicate Settled(s: State)
  {
    s.Running? || s.Inconclusive? || s.Excluded?
  }

  /** What a candidate's state follows from, in order of precedence: its own exclusion, a state
      that is not reconsidered, its outputs, its own failure, an exclusion below it, a failure
      below it; otherwise it is queued. */
  ghost function Implied(f: Facts, c: Candidate): Candidate
  {
    if c.drv.None? then c
    else
      var d := c.drv.value;
      if d in f.exclusion then c.(state := Excluded, error := Some(f.exclusion[d]))
      else if Settled(c.state) then c
      else if d in f.available then c.(state := Available)
      else if d in f.failure then c.(state := Failed)
      else if DependsOn(f, d, f.exclusion.Keys) then c.(state := Excluded, error := Some(INHERITED))
      else if DependsOn(f, d, Failures(f)) then c.(state := Blocked)
      else c.(state := Queued)
  }

  ghost function ImpliedIn(f: Facts, campaign: nat, c: Candidate): Candidate
  {
    if c.campaign == campaign then Implied(f, c) else c
  }

  // ----- The four updates -----

  function FromOutcome(f: Facts, campaign: nat, c: Candidate): Candidate
  {
    if c.campaign == campaign && c.drv.Some? && !Settled(c.state) then
      c.(state := if c.drv.value in f.available then Available
                  else if c.drv.value in f.failure then Failed
                  else Queued)
    else c
  }

  function BlockedBy(bad: set<Node>, campaign: nat, c: Candidate): Candidate
  {
    if c.campaign == campaign && c.state.Queued? && c.drv.Some? && c.drv.value in bad then c.(state := Blocked) else c
  }

  function OwnExclusion(f: Facts, campaign: nat, c: Candidate): Candidate
  {
    if c.campaign == campaign && c.drv.Some? && c.drv.value in f.exclusion then
      c.(state := Excluded, error := Some(f.exclusion[c.drv.value]))
    else c
  }

  function InheritedExclusion(outside: set<Node>, campaign: nat, c: Candidate): Candidate
  {
    if c.campaign == campaign && (c.state.Queued? || c.state.Blocked?) && c.drv.Some? && c.drv.value in outside then
      c.(state := Excluded, error := Some(INHERITED))
    else c
  }

  /** The updates in order give what the facts imply. */
  lemma UpdatesImply(f: Facts, campaign: nat, c: Candidate, bad: set<Node>, outside: set<Node>)
    requires AreDependents(f, bad, Failures(f)) && AreDependents(f, outside, f.exclusion.Keys)
    requires c.drv.None? ==> !c.state.Queued? && !c.state.Blocked?
    ensures InheritedExclusion(outside, campaign,
              OwnExclusion(f, campaign, BlockedBy(bad, campaign, FromOutcome(f, campaign, c)))) == ImpliedIn(f, campaign, c)
  {
    hide DependsOn;
  }

  ghost predicate AreDependents(f: Facts, marked: set<Node>, on: set<Node>)
  {
    forall d :: d in marked <==> DependsOn(f, d, on)
  }

  /** Marking upwards from some derivations finds exactly those that depend on them. */
  method DependentsOf(f: Facts, on: set<Node>) returns (marked: set<Node>)
    requires WellRecorded(f)
    ensures AreDependents(f, marked, on)
  {
    hide Reaches;
    var roots := Listed(on);
    marked := Mark(f.parents, roots);
    forall d ensures d in marked <==> DependsOn(f, d, on) {
      UpIsDown(f, d, on);
    }
  }

  lemma UpIsDown(f: Facts, d: Node, on: set<Node>)
    requires WellRecorded(f)
    ensures d in ReachSet(f.parents, on) <==> DependsOn(f, d, on)
  {
    hide Reaches;
    ReachSetMembers(f.parents, on, d);
    if ReachedFrom(f.parents, on, d) {
      var s :| s in on && Reaches(f.parents, s, d);
      ReversedReaches(f.edges, f.parents, d, s);
    }
    if DependsOn(f, d, on) {
      var s :| s in on && Reaches(f.edges, d, s);
      ReversedReaches(f.edges, f.parents, d, s);
    }
  }

  /** Every member of a set, in some order. */
  method Listed(s: set<Node>) returns (r: seq<Node>)
    ensures s == SetOf(r)
  {
    r := [];
    var todo := s;
    while todo != {}
      invariant forall n :: n in s <==> n in todo || n in r
      decreases todo
    {
      var n :| n in todo;
      todo := todo - {n};
      r := r + [n];
    }
  }

  class CandidateTable {
    var rows: map<nat, Candidate>

    constructor ()
      ensures rows == map[]
    {
      rows := map[];
    }

    /** Only a planned candidate is queued or blocked. */
    ghost predicate Valid()
      reads this
    {
      forall id :: id in rows && rows[id].drv.None? ==> !rows[id].state.Queued? && !rows[id].state.Blocked?
    }

    /** Brings the candidates of a campaign in line with the facts. */
    method Refresh(f: Facts, campaign: nat)
      requires Valid() && WellRecorded(f)
      modifies this
      ensures Valid()
      ensures rows.Keys == old(rows).Keys &&
              forall id :: id in rows ==> rows[id] == ImpliedIn(f, campaign, old(rows)[id])
      ensures forall id :: id in rows && IsKept(f, old(rows)[id]) ==> rows[id] == old(rows)[id]
    {
      hide AreDependents, FromOutcome, BlockedBy, OwnExclusion, InheritedExclusion, Implied, Failures;
      rows := map id | id in rows :: FromOutcome(f, campaign, rows[id]);
      var bad := DependentsOf(f, Failures(f));
      rows := map id | id in rows :: BlockedBy(bad, campaign, rows[id]);
      rows := map id | id in rows :: OwnExclusion(f, campaign, rows[id]);
      var outside := DependentsOf(f, f.exclusion.Keys);
      rows := map id | id in rows :: InheritedExclusion(outside, campaign, rows[id]);
      forall id | id in rows
        ensures rows[id] == ImpliedIn(f, campaign, old(rows)[id])
        ensures rows[id].drv.None? ==> !rows[id].state.Queued? && !rows[id].state.Blocked?
        ensures IsKept(f, old(rows)[id]) ==> rows[id] == old(rows)[id]
      {
        UpdatesImply(f, campaign, old(rows)[id], bad, outside);
        StatesKept(f, campaign, old(rows)[id]);
        ImpliedPlanned(f, campaign, old(rows)[id]);
      }
    }
  }

  lemma ImpliedPlanned(f: Facts, campaign: nat, c: Candidate)
    requires c.drv.None? ==> !c.state.Queued? && !c.state.Blocked?
    ensures var r := ImpliedIn(f, campaign, c); r.drv == c.drv && (r.drv.None? ==> !r.state.Queued? && !r.state.Blocked?)
  {
  }

  /** Refreshing twice is refreshing once. */
  lemma RefreshIdempotent(f: Facts, campaign: nat, c: Candidate)
    ensures ImpliedIn(f, campaign, ImpliedIn(f, campaign, c)) == ImpliedIn(f, campaign, c)
  {
    hide DependsOn;
  }

  /** A candidate that a refresh leaves as it is: it is being built, its build had no outcome, or it
      is out of scope, and its own recipe is not excluded. */
  predicate IsKept(f: Facts, c: Candidate)
  {
    c.drv.Some? && c.drv.value !in f.exclusion && c.state in {Running, Inconclusive, Excluded}
  }

  lemma StatesKept(f: Facts, campaign: nat, c: Candidate)
    ensures IsKept(f, c) ==> ImpliedIn(f, campaign, c) == c
  {
  }

  /** The state of every other candidate with a recipe is decided by the facts alone, whatever it was
      before: exactly one of six states, none of which is running or inconclusive. */
  lemma FactsDecide(f: Facts, c: Candidate)
    requires c.drv.Some? && c.state in {Unplanned, Queued, Available, Failed, Blocked, EvaluationError}
    ensures var d, s := c.drv.value, Implied(f, c).state;
            var outside, failing := DependsOn(f, d, f.exclusion.Keys), DependsOn(f, d, Failures(f));
            (s == Excluded <==> d in f.exclusion || (outside && d !in f.available && d !in f.failure)) &&
            (s == Available <==> d in f.available && d !in f.exclusion) &&
            (s == Failed <==> d in f.failure && d !in f.available && d !in f.exclusion) &&
            (s == Blocked <==> failing && !outside && d !in f.available && d !in f.failure) &&
            (s == Queued <==> !failing && !outside && d !in f.available && d !in f.failure)
  {
    hide Reaches;
    var d := c.drv.value;
    if d in f.exclusion { SelfDepends(f, d, f.exclusion.Keys); }
  }

  lemma SelfDepends(f: Facts, d: Node, on: set<Node>)
    requires d in on
    ensures DependsOn(f, d, on)
  {
    assert Joins(f.edges, [d], d, d);
    assert Reaches(f.edges, d, d);
  }

  /** A refreshed candidate is blocked exactly when an in-scope failure lies below it and nothing
      of higher precedence decides its state. */
  lemma BlockedMeans(f: Facts, campaign: nat, c: Candidate)
    requires c.campaign == campaign && c.drv.Some? && c.state !in {Running, Inconclusive, Excluded}
    ensures var d := c.drv.value;
            Implied(f, c).state == Blocked <==>
            d !in f.exclusion && d !in f.available && d !in f.failure &&
            !DependsOn(f, d, f.exclusion.Keys) && DependsOn(f, d, Failures(f))
  {
    hide DependsOn;
  }
}
