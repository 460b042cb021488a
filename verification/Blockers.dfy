/** Why a package cannot build: the explaining chains of one derivation, and the ranking of
    failures over a whole campaign. */
module Blockers {
  import opened Wrappers
  import opened Collections
  import opened Reachability
  import opened Candidates

  // ----- One shortest chain per failing dependency -----

  datatype Entry = Entry(node: Node, chain: seq<Node>)

  ghost predicate Shortest(g: Graph, chain: seq<Node>, a: Node, b: Node)
  {
    Joins(g, chain, a, b) && forall p :: Joins(g, p, a, b) ==> |chain| <= |p|
  }

  /** Chains in the queue, from the next one on, are paths of lengths that never fall and differ
      by at most one. */
  ghost predicate Level(g: Graph, start: Node, queue: seq<Entry>, i: nat)
  {
    (forall k :: i <= k < |queue| ==> Joins(g, queue[k].chain, start, queue[k].node)) &&
    forall j, k :: i <= j <= k < |queue| ==> |queue[j].chain| <= |queue[k].chain| <= |queue[j].chain| + 1
  }

  /** A queued entry for a node with a chain of a given length. */
  predicate Queued(queue: seq<Entry>, i: nat, n: Node, len: nat)
  {
    exists k :: i <= k < |queue| && queue[k].node == n && |queue[k].chain| == len
  }

  /** Depths of the nodes seen: none exceeds what is still queued, and every successor of a seen
      node is seen at most one deeper or queued one deeper. */
  ghost predicate Depths(g: Graph, start: Node, depth: map<Node, nat>, queue: seq<Entry>, i: nat)
  {
    (forall n, k :: n in depth && i <= k < |queue| ==> depth[n] + 1 <= |queue[k].chain|) &&
    (start in depth ==> depth[start] == 0) &&
    (start in depth || (i < |queue| && queue[i] == Entry(start, [start]))) &&
    forall n, m :: n in depth && m in Next(g, n) ==>
      if m in depth then depth[m] <= depth[n] + 1 else Queued(queue, i, m, depth[n] + 2)
  }

  /** Exactly the bad nodes seen are found, once each, with a path as long as their depth. */
  ghost predicate FoundOk(g: Graph, start: Node, bad: set<Node>, depth: map<Node, nat>, found: seq<Entry>)
  {
    (forall j :: 0 <= j < |found| ==>
       found[j].node in bad && found[j].node in depth && Joins(g, found[j].chain, start, found[j].node) &&
       |found[j].chain| == depth[found[j].node] + 1) &&
    (forall j, k :: 0 <= j < k < |found| ==> found[j].node != found[k].node) &&
    forall n :: n in depth && n in bad ==> Finds(found, n)
  }

  predicate Finds(found: seq<Entry>, n: Node)
  {
    exists j :: 0 <= j < |found| && found[j].node == n
  }

  function Extensions(nexts: seq<Node>, chain: seq<Node>, seen: set<Node>): seq<Entry>
  {
    if nexts == [] then []
    else
      Extensions(nexts[..|nexts| - 1], chain, seen) +
      (if nexts[|nexts| - 1] in seen then [] else [Entry(nexts[|nexts| - 1], chain + [nexts[|nexts| - 1]])])
  }

  lemma {:induction false} ExtensionMembers(nexts: seq<Node>, chain: seq<Node>, seen: set<Node>)
    ensures forall k :: 0 <= k < |Extensions(nexts, chain, seen)| ==>
              var e := Extensions(nexts, chain, seen)[k]; e.node in nexts && e.node !in seen && e.chain == chain + [e.node]
    ensures forall m :: m in nexts && m !in seen ==> Queued(Extensions(nexts, chain, seen), 0, m, |chain| + 1)
  {
    if nexts != [] {
      var rest, last := nexts[..|nexts| - 1], nexts[|nexts| - 1];
      ExtensionMembers(rest, chain, seen);
      var before, all := Extensions(rest, chain, seen), Extensions(nexts, chain, seen);
      forall m | m in nexts && m !in seen ensures Queued(all, 0, m, |chain| + 1) {
        if m in rest {
          var k :| 0 <= k < |before| && before[k].node == m && |before[k].chain| == |chain| + 1;
          assert all[k] == before[k];
        } else {
          assert all[|all| - 1] == Entry(last, chain + [last]);
        }
      }
    }
  }

  /** The failing or excluded derivations below one, each once, with a shortest chain to it. */
  method ExplainingChains(g: Graph, start: Node, bad: set<Node>) returns (found: seq<Entry>)
    ensures forall j :: 0 <= j < |found| ==>
              found[j].node in bad && Shortest(g, found[j].chain, start, found[j].node)
    ensures forall j, k :: 0 <= j < k < |found| ==> found[j].node != found[k].node
    ensures forall n :: n in bad && Reaches(g, start, n) ==> Finds(found, n)
  {
    hide Joins, Shortest, Reaches;
    var queue, seen: set<Node>, i := [Entry(start, [start])], {}, 0;
    found := [];
    ghost var depth: map<Node, nat> := map[];
    StartLevel(g, start);
    while i < |queue|
      invariant i <= |queue| && depth.Keys == seen <= {start} + Targets(g)
      invariant Level(g, start, queue, i) && Depths(g, start, depth, queue, i) && FoundOk(g, start, bad, depth, found)
      decreases {start} + Targets(g) - seen, |queue| - i
    {
      var e := queue[i];
      if e.node in seen {
        SkipSeen(g, start, depth, queue, i);
      } else {
        VisitNew(g, start, depth, queue, i);
        FindNew(g, start, bad, depth, found, e);
        EntryInside(g, start, e);
        depth := depth[e.node := |e.chain| - 1];
        seen := seen + {e.node};
        if e.node in bad { found := found + [e]; }
        queue := queue + Extensions(Next(g, e.node), e.chain, seen);
      }
      i := i + 1;
    }
    AllShortest(g, start, bad, depth, queue, found);
  }

  lemma StartLevel(g: Graph, start: Node)
    ensures var queue := [Entry(start, [start])];
            Level(g, start, queue, 0) && Depths(g, start, map[], queue, 0) && FoundOk(g, start, {}, map[], [])
  {
    assert Joins(g, [start], start, start);
  }

  lemma EntryInside(g: Graph, start: Node, e: Entry)
    requires Joins(g, e.chain, start, e.node)
    ensures e.node in {start} + Targets(g) && |e.chain| >= 1
  {
    if |e.chain| > 1 {
      var before := e.chain[|e.chain| - 2];
      assert e.node in Next(g, before);
      var i :| 0 <= i < |g[before]| && g[before][i] == e.node;
    }
  }

  lemma SkipSeen(g: Graph, start: Node, depth: map<Node, nat>, queue: seq<Entry>, i: nat)
    requires i < |queue| && queue[i].node in depth && Level(g, start, queue, i) && Depths(g, start, depth, queue, i)
    ensures Level(g, start, queue, i + 1) && Depths(g, start, depth, queue, i + 1)
  {
    hide Joins;
    forall n, m | n in depth && m in Next(g, n) && m !in depth ensures Queued(queue, i + 1, m, depth[n] + 2) {
      var k :| i <= k < |queue| && queue[k].node == m && |queue[k].chain| == depth[n] + 2;
      assert k != i;
    }
  }

  lemma ExtendedJoins(g: Graph, start: Node, e: Entry, m: Node)
    requires Joins(g, e.chain, start, e.node) && m in Next(g, e.node)
    ensures Joins(g, e.chain + [m], start, m)
  {
    var q := e.chain + [m];
    forall j | 0 < j < |q| ensures q[j] in Next(g, q[j - 1]) {
      if j < |e.chain| { assert e.chain[j] in Next(g, e.chain[j - 1]); }
    }
  }

  lemma VisitNew(g: Graph, start: Node, depth: map<Node, nat>, queue: seq<Entry>, i: nat)
    requires i < |queue| && queue[i].node !in depth && Level(g, start, queue, i) && Depths(g, start, depth, queue, i)
    ensures var e := queue[i];
            |e.chain| >= 1 &&
            var depth' := depth[e.node := |e.chain| - 1];
            var queue' := queue + Extensions(Next(g, e.node), e.chain, depth'.Keys);
            Level(g, start, queue', i + 1) && Depths(g, start, depth', queue', i + 1)
  {
    hide Joins, Extensions, Level, Queued;
    var e := queue[i];
    VisitLevel(g, start, depth, queue, i);
    var depth' := depth[e.node := |e.chain| - 1];
    var queue' := queue + Extensions(Next(g, e.node), e.chain, depth'.Keys);
    forall n, m | n in depth' && m in Next(g, n)
      ensures if m in depth' then depth'[m] <= depth'[n] + 1 else Queued(queue', i + 1, m, depth'[n] + 2)
    {
      VisitEdge(g, start, depth, queue, i, n, m);
    }
    if start !in depth { assert queue[i] == Entry(start, [start]); }
  }

  /** Extending the front of the queue keeps its chains in order. */
  lemma VisitLevel(g: Graph, start: Node, depth: map<Node, nat>, queue: seq<Entry>, i: nat)
    requires i < |queue| && Level(g, start, queue, i)
    ensures var e := queue[i];
            |e.chain| >= 1 && (forall k :: i <= k < |queue| ==> |e.chain| <= |queue[k].chain|) &&
            var queue' := queue + Extensions(Next(g, e.node), e.chain, depth[e.node := |e.chain| - 1].Keys);
            Level(g, start, queue', i + 1) && forall k :: i + 1 <= k < |queue'| ==> |e.chain| <= |queue'[k].chain|
  {
    hide Joins, Extensions;
    var e := queue[i];
    EntryInside(g, start, e);
    var seen := depth[e.node := |e.chain| - 1].Keys;
    var ext := Extensions(Next(g, e.node), e.chain, seen);
    ExtensionMembers(Next(g, e.node), e.chain, seen);
    var queue' := queue + ext;
    forall k | i + 1 <= k < |queue'|
      ensures Joins(g, queue'[k].chain, start, queue'[k].node) && |e.chain| <= |queue'[k].chain| <= |e.chain| + 1
      ensures k >= |queue| ==> |queue'[k].chain| == |e.chain| + 1
    {
      if k >= |queue| {
        assert queue'[k] == ext[k - |queue|];
        ExtendedJoins(g, start, e, queue'[k].node);
      } else {
        assert queue'[k] == queue[k];
      }
    }
    forall j, k | i + 1 <= j <= k < |queue'| ensures |queue'[j].chain| <= |queue'[k].chain| <= |queue'[j].chain| + 1 {
      if k < |queue| { assert queue'[j] == queue[j] && queue'[k] == queue[k]; }
    }
  }

  lemma VisitEdge(g: Graph, start: Node, depth: map<Node, nat>, queue: seq<Entry>, i: nat, n: Node, m: Node)
    requires i < |queue| && queue[i].node !in depth && Depths(g, start, depth, queue, i)
    requires |queue[i].chain| >= 1 && m in Next(g, n)
    requires forall k :: i <= k < |queue| ==> |queue[i].chain| <= |queue[k].chain|
    ensures var e := queue[i];
            var depth' := depth[e.node := |e.chain| - 1];
            var queue' := queue + Extensions(Next(g, e.node), e.chain, depth'.Keys);
            n in depth' ==> if m in depth' then depth'[m] <= depth'[n] + 1 else Queued(queue', i + 1, m, depth'[n] + 2)
  {
    hide Joins, Extensions;
    var e := queue[i];
    var depth' := depth[e.node := |e.chain| - 1];
    var ext := Extensions(Next(g, e.node), e.chain, depth'.Keys);
    var queue' := queue + ext;
    if n in depth' && n == e.node {
      if m in depth {
        assert depth[m] + 1 <= |queue[i].chain|;
      } else if m != e.node {
        ExtensionMembers(Next(g, e.node), e.chain, depth'.Keys);
        var k :| 0 <= k < |ext| && ext[k].node == m && |ext[k].chain| == |e.chain| + 1;
        assert queue'[|queue| + k] == ext[k];
      }
    } else if n in depth && m !in depth {
      var k :| i <= k < |queue| && queue[k].node == m && |queue[k].chain| == depth[n] + 2;
      assert queue'[k] == queue[k];
    }
  }

  lemma FindNew(g: Graph, start: Node, bad: set<Node>, depth: map<Node, nat>, found: seq<Entry>, e: Entry)
    requires e.node !in depth && FoundOk(g, start, bad, depth, found) && Joins(g, e.chain, start, e.node)
    ensures |e.chain| >= 1 &&
            FoundOk(g, start, bad, depth[e.node := |e.chain| - 1], if e.node in bad then found + [e] else found)
  {
    hide Joins, Finds;
    EntryInside(g, start, e);
    var depth' := depth[e.node := |e.chain| - 1];
    var found' := if e.node in bad then found + [e] else found;
    forall n | n in depth' && n in bad ensures Finds(found', n) {
      FindsMore(found, e, n);
    }
  }

  lemma FindsMore(found: seq<Entry>, e: Entry, n: Node)
    ensures Finds(found, n) || e.node == n ==> Finds(found + [e], n)
  {
    if e.node == n {
      assert (found + [e])[|found|].node == n;
    } else if Finds(found, n) {
      var j :| 0 <= j < |found| && found[j].node == n;
      assert (found + [e])[j].node == n;
    }
  }

  /** Along any path from the start, nodes are no deeper than the path is long. */
  lemma {:induction false} DepthBounds(g: Graph, start: Node, depth: map<Node, nat>, queue: seq<Entry>, p: seq<Node>)
    requires Depths(g, start, depth, queue, |queue|) && IsPath(g, p) && p[0] == start
    ensures p[|p| - 1] in depth && depth[p[|p| - 1]] <= |p| - 1
  {
    if |p| > 1 {
      var rest := p[..|p| - 1];
      forall i | 0 < i < |rest| ensures rest[i] in Next(g, rest[i - 1]) { assert p[i] in Next(g, p[i - 1]); }
      DepthBounds(g, start, depth, queue, rest);
      assert p[|p| - 1] in Next(g, p[|p| - 2]);
    }
  }

  lemma AllShortest(g: Graph, start: Node, bad: set<Node>, depth: map<Node, nat>, queue: seq<Entry>, found: seq<Entry>)
    requires Depths(g, start, depth, queue, |queue|) && FoundOk(g, start, bad, depth, found)
    ensures forall j :: 0 <= j < |found| ==> found[j].node in bad && Shortest(g, found[j].chain, start, found[j].node)
    ensures forall n :: n in bad && Reaches(g, start, n) ==> Finds(found, n)
  {
    forall j | 0 <= j < |found| ensures Shortest(g, found[j].chain, start, found[j].node) {
      forall p | Joins(g, p, start, found[j].node) ensures |found[j].chain| <= |p| {
        DepthBounds(g, start, depth, queue, p);
      }
    }
    forall n | n in bad && Reaches(g, start, n) ensures Finds(found, n) {
      var p :| Joins(g, p, start, n);
      DepthBounds(g, start, depth, queue, p);
    }
  }

  // ----- The campaign's dependency graph -----

  /** A package of the campaign that has been planned. */
  datatype Package = Package(id: nat, drv: Node, state: State)

  function DrvsOf(packages: seq<Package>): (drvs: seq<Node>)
    ensures |drvs| == |packages| && forall i :: 0 <= i < |packages| ==> drvs[i] == packages[i].drv
  {
    seq(|packages|, i requires 0 <= i < |packages| => packages[i].drv)
  }

  /** The campaign's derivations: its packages and all they depend on. */
  ghost function ScopeOf(f: Facts, packages: seq<Package>): set<Node>
  {
    ReachSet(f.edges, SetOf(DrvsOf(packages)))
  }

  /** Edges turned round, of parents in scope only. */
  ghost predicate ScopedParents(edges: Graph, scope: set<Node>, up: Graph)
  {
    forall a, b :: a in Next(up, b) <==> a in scope && b in Next(edges, a)
  }

  /** Edges turned round of some parents, and of one more towards some of its children. */
  ghost predicate PartlyTurned(edges: Graph, up: Graph, done: set<Node>, p: Node, part: set<Node>)
  {
    forall a, b :: a in Next(up, b) <==> (a in done && b in Next(edges, a)) || (a == p && b in part)
  }

  method TurnRound(edges: Graph, scope: set<Node>) returns (up: Graph)
    ensures ScopedParents(edges, scope, up)
  {
    hide PartlyTurned;
    up := map[];
    var todo := scope;
    ghost var done: set<Node> := {};
    NothingTurned(edges, up);
    while todo != {}
      invariant todo !! done && todo + done == scope && PartlyTurned(edges, up, done, 0, {})
      decreases todo
    {
      var p :| p in todo;
      up := TurnOne(edges, up, p, done);
      todo, done := todo - {p}, done + {p};
    }
    assert done == scope;
    AllTurned(edges, up, done);
  }

  /** Turns the edges of one parent round. */
  method TurnOne(edges: Graph, before: Graph, p: Node, ghost done: set<Node>) returns (up: Graph)
    requires PartlyTurned(edges, before, done, 0, {})
    ensures PartlyTurned(edges, up, done + {p}, 0, {})
  {
    hide PartlyTurned;
    up := before;
    var kids := Next(edges, p);
    ghost var part: set<Node> := {};
    StartParent(edges, up, done, p);
    for j := 0 to |kids|
      invariant part == SetOf(kids[..j]) && PartlyTurned(edges, up, done, p, part)
    {
      AddParent(edges, up, done, p, part, kids[j]);
      up := up[kids[j] := Next(up, kids[j]) + [p]];
      part := part + {kids[j]};
      assert kids[..j + 1] == kids[..j] + [kids[j]];
    }
    assert kids[..|kids|] == kids;
    FinishParent(edges, up, done, p, part);
  }

  lemma NothingTurned(edges: Graph, up: Graph)
    requires up == map[]
    ensures PartlyTurned(edges, up, {}, 0, {})
  {
  }

  lemma StartParent(edges: Graph, up: Graph, done: set<Node>, p: Node)
    requires PartlyTurned(edges, up, done, 0, {})
    ensures PartlyTurned(edges, up, done, p, {})
  {
  }

  lemma AllTurned(edges: Graph, up: Graph, scope: set<Node>)
    requires PartlyTurned(edges, up, scope, 0, {})
    ensures ScopedParents(edges, scope, up)
  {
  }

  lemma AddParent(edges: Graph, up: Graph, done: set<Node>, p: Node, part: set<Node>, k: Node)
    requires PartlyTurned(edges, up, done, p, part)
    ensures PartlyTurned(edges, up[k := Next(up, k) + [p]], done, p, part + {k})
  {
    var more := up[k := Next(up, k) + [p]];
    assert forall b :: b != k ==> Next(more, b) == Next(up, b);
    assert Next(more, k) == Next(up, k) + [p];
    forall a: Node, b: Node
      ensures a in Next(more, b) <==> (a in done && b in Next(edges, a)) || (a == p && b in part + {k})
    {
      assert a in Next(up, b) <==> (a in done && b in Next(edges, a)) || (a == p && b in part);
      if b != k { assert Next(more, b) == Next(up, b); }
    }
    assert PartlyTurned(edges, more, done, p, part + {k});
  }

  lemma FinishParent(edges: Graph, up: Graph, done: set<Node>, p: Node, part: set<Node>)
    requires PartlyTurned(edges, up, done, p, part) && part == SetOf(Next(edges, p))
    ensures PartlyTurned(edges, up, done + {p}, 0, {})
  {
    forall a, b ensures a in Next(up, b) <==> a in done + {p} && b in Next(edges, a) {
      assert a in Next(up, b) <==> (a in done && b in Next(edges, a)) || (a == p && b in part);
    }
  }

  ghost predicate DownClosed(edges: Graph, scope: set<Node>)
  {
    forall n, m :: n in scope && m in Next(edges, n) ==> m in scope
  }

  /** Within the scope, walking up from s arrives at d exactly when d depends on s. */
  lemma ScopedReaches(edges: Graph, scope: set<Node>, up: Graph, d: Node, s: Node)
    requires ScopedParents(edges, scope, up) && DownClosed(edges, scope) && (d in scope || s in scope)
    ensures Reaches(up, s, d) && s in scope ==> Reaches(edges, d, s)
    ensures Reaches(edges, d, s) && d in scope ==> Reaches(up, s, d) && s in scope
  {
    if Reaches(up, s, d) {
      var p :| Joins(up, p, s, d);
      BackwardsJoins(up, edges, p, s, d);
    }
    if Reaches(edges, d, s) && d in scope {
      var p :| Joins(edges, p, d, s);
      PathStaysInside(edges, scope, p);
      var q := Backwards(p);
      forall i | 0 < i < |q| ensures q[i] in Next(up, q[i - 1]) {
        assert p[|p| - i] in Next(edges, p[|p| - 1 - i]);
      }
      assert Joins(up, q, s, d);
    }
  }

  lemma UpStaysInScope(edges: Graph, scope: set<Node>, up: Graph, s: Node, d: Node)
    requires ScopedParents(edges, scope, up) && Reaches(up, s, d) && s in scope
    ensures d in scope
  {
    var p :| Joins(up, p, s, d);
    if |p| > 1 { assert p[|p| - 1] in Next(up, p[|p| - 2]); }
  }

  /** What walking up from some derivations of the scope marks. */
  lemma MarkedDepends(f: Facts, scope: set<Node>, up: Graph, on: set<Node>, d: Node)
    requires ScopedParents(f.edges, scope, up) && DownClosed(f.edges, scope)
    ensures d in ReachSet(up, on * scope) <==> d in scope && DependsOn(f, d, on)
  {
    hide Reaches, ScopedParents, DownClosed;
    ReachSetMembers(up, on * scope, d);
    if ReachedFrom(up, on * scope, d) {
      var s :| s in on * scope && Reaches(up, s, d);
      ScopedReaches(f.edges, scope, up, d, s);
      UpStaysInScope(f.edges, scope, up, s, d);
    }
    if d in scope && DependsOn(f, d, on) {
      var s :| s in on && Reaches(f.edges, d, s);
      ScopedReaches(f.edges, scope, up, d, s);
    }
  }

  // ----- Ranking failures -----

  /** A failure keeps a package from building: the package is blocked and depends on it. */
  ghost predicate Blocks(f: Facts, failure: Node, p: Package)
  {
    failure in Failures(f) && failure != p.drv && p.state.Blocked? && Reaches(f.edges, p.drv, failure)
  }

  /** The failures, in order, under which a package is listed. */
  function CausesOf(failures: seq<Node>, blocked: map<Node, set<nat>>, pid: nat): seq<Node>
  {
    if failures == [] then []
    else
      var i := failures[|failures| - 1];
      CausesOf(failures[..|failures| - 1], blocked, pid) + (if i in blocked && pid in blocked[i] then [i] else [])
  }

  lemma {:induction false} CausesMembers(failures: seq<Node>, blocked: map<Node, set<nat>>, pid: nat, i: Node)
    ensures i in CausesOf(failures, blocked, pid) <==> i in failures && i in blocked && pid in blocked[i]
  {
    if failures != [] { CausesMembers(failures[..|failures| - 1], blocked, pid, i); }
  }

  lemma {:induction false} CausesDistinct(failures: seq<Node>, blocked: map<Node, set<nat>>, pid: nat)
    requires Distinct(failures)
    ensures Distinct(CausesOf(failures, blocked, pid))
  {
    if failures != [] {
      var rest, last := failures[..|failures| - 1], failures[|failures| - 1];
      CausesDistinct(rest, blocked, pid);
      CausesMembers(rest, blocked, pid, last);
    }
  }

  /** Adding a failure later does not change the causes among the earlier ones. */
  lemma {:induction false} CausesSame(failures: seq<Node>, blocked: map<Node, set<nat>>, more: map<Node, set<nat>>, pid: nat)
    requires forall i :: i in failures ==> (i in blocked <==> i in more) && (i in blocked && i in more ==> blocked[i] == more[i])
    ensures CausesOf(failures, blocked, pid) == CausesOf(failures, more, pid)
  {
    if failures != [] {
      assert failures[|failures| - 1] in failures;
      CausesSame(failures[..|failures| - 1], blocked, more, pid);
    }
  }

  lemma NoCauses(failures: seq<Node>, causes: map<nat, seq<Node>>)
    requires causes == map[]
    ensures forall pid, blocked :: Listing(causes, pid) == CausesOf(failures[..0], blocked, pid)
  {
  }

  lemma CausesStep(failures: seq<Node>, k: nat, was: map<Node, set<nat>>, hits: set<nat>, pid: nat)
    requires k < |failures| && Distinct(failures)
    ensures CausesOf(failures[..k + 1], was[failures[k] := hits], pid) ==
            CausesOf(failures[..k], was, pid) + (if pid in hits then [failures[k]] else [])
  {
    CausesSame(failures[..k], was, was[failures[k] := hits], pid);
    assert failures[..k + 1][..k] == failures[..k];
  }

  /** A single cause is the only failure that lists the package. */
  lemma SoleCause(failures: seq<Node>, blocked: map<Node, set<nat>>, pid: nat, c: Node)
    requires Distinct(failures)
    ensures CausesOf(failures, blocked, pid) == [c] <==>
            c in failures && c in blocked && pid in blocked[c] &&
            forall i :: i in failures && i in blocked && pid in blocked[i] ==> i == c
  {
    hide CausesOf;
    var cs := CausesOf(failures, blocked, pid);
    CausesDistinct(failures, blocked, pid);
    forall i ensures i in cs <==> i in failures && i in blocked && pid in blocked[i] {
      CausesMembers(failures, blocked, pid, i);
    }
    if |cs| > 1 {
      TwoDiffer(cs);
    } else if |cs| == 1 {
      assert cs[0] in cs;
    }
  }

  lemma TwoDiffer(cs: seq<Node>)
    requires |cs| > 1 && Distinct(cs)
    ensures cs[0] in cs && cs[1] in cs && cs[0] != cs[1]
  {
  }

  function Listing(causes: map<nat, seq<Node>>, pid: nat): seq<Node>
  {
    if pid in causes then causes[pid] else []
  }

  /** The blocked packages among the marked derivations. */
  function Hits(packages: seq<Package>, marked: set<Node>): set<nat>
  {
    set i | 0 <= i < |packages| && packages[i].drv in marked && packages[i].state.Blocked? :: packages[i].id
  }

  /** Each failure's blocked packages, and each blocked package's failures. */
  method Attribute(up: Graph, packages: seq<Package>, failures: seq<Node>)
    returns (blocked: map<Node, set<nat>>, causes: map<nat, seq<Node>>)
    requires Distinct(failures)
    ensures blocked.Keys == SetOf(failures)
    ensures forall i :: i in failures ==> blocked[i] == Hits(packages, ReachSet(up, {i}) - {i})
    ensures forall pid :: Listing(causes, pid) == CausesOf(failures, blocked, pid)
  {
    hide ReachSet, Hits, CausesOf, Listing;
    NoCauses(failures, map[]);
    blocked, causes := map[], map[];
    for k := 0 to |failures|
      invariant blocked.Keys == SetOf(failures[..k])
      invariant forall i :: i in failures[..k] ==> blocked[i] == Hits(packages, ReachSet(up, {i}) - {i})
      invariant forall pid :: Listing(causes, pid) == CausesOf(failures[..k], blocked, pid)
    {
      var i := failures[k];
      var marked := Mark(up, [i]);
      assert SetOf([i]) == {i};
      assert marked == ReachSet(up, {i}) && i !in failures[..k];
      var hits := Hits(packages, marked - {i});
      ghost var was := blocked;
      blocked := blocked[i := hits];
      assert failures[..k + 1] == failures[..k] + [i];
      forall pid ensures CausesOf(failures[..k + 1], blocked, pid) ==
                         CausesOf(failures[..k], was, pid) + (if pid in hits then [i] else [])
      {
        CausesStep(failures, k, was, hits, pid);
      }
      causes := AddCause(causes, hits, i);
    }
    assert failures[..|failures|] == failures;
  }

  method AddCause(causes: map<nat, seq<Node>>, hits: set<nat>, i: Node) returns (more: map<nat, seq<Node>>)
    ensures forall pid :: Listing(more, pid) == Listing(causes, pid) + if pid in hits then [i] else []
  {
    more := causes;
    var todo := hits;
    while todo != {}
      invariant todo <= hits
      invariant forall pid :: Listing(more, pid) == Listing(causes, pid) + if pid in hits && pid !in todo then [i] else []
      decreases todo
    {
      var pid :| pid in todo;
      more := more[pid := Listing(more, pid) + [i]];
      todo := todo - {pid};
    }
  }

  /** Ranks the failures of a campaign: its derivations, those that depend on a failure or an
      exclusion, the packages each failure blocks, and those it alone blocks. */
  method Rank(f: Facts, packages: seq<Package>)
    returns (scope: set<Node>, bad: set<Node>, blocked: map<Node, set<nat>>, only: map<Node, set<nat>>)
    requires forall i, j :: 0 <= i < j < |packages| ==> packages[i].id != packages[j].id
    ensures scope == ScopeOf(f, packages)
    ensures forall d :: d in bad <==> d in scope && DependsOn(f, d, f.failure.Keys + f.exclusion.Keys)
    ensures blocked.Keys == only.Keys == Failures(f) * scope
    ensures forall i, p :: i in blocked && p in packages ==> (p.id in blocked[i] <==> Blocks(f, i, p))
    ensures forall i, p :: i in only && p in packages ==>
              (p.id in only[i] <==> Blocks(f, i, p) && forall j :: Blocks(f, j, p) ==> j == i)
  {
    hide Reaches, ReachSet, DependsOn, Blocks, CausesOf, Hits, ScopedParents, DownClosed;
    scope := Mark(f.edges, DrvsOf(packages));
    ScopeClosed(f, SetOf(DrvsOf(packages)));
    var up := TurnRound(f.edges, scope);
    var failures := ListedOnce(Failures(f) * scope);
    var everything := Listed((f.failure.Keys + f.exclusion.Keys) * scope);
    bad := Mark(up, everything);
    forall d ensures d in bad <==> d in scope && DependsOn(f, d, f.failure.Keys + f.exclusion.Keys) {
      MarkedDepends(f, scope, up, f.failure.Keys + f.exclusion.Keys, d);
    }
    var causes;
    blocked, causes := Attribute(up, packages, failures);
    forall i, p | i in blocked && p in packages ensures p.id in blocked[i] <==> Blocks(f, i, p) {
      HitIffBlocks(f, scope, up, packages, i, p);
    }
    only := map i | i in blocked :: set pid | pid in blocked[i] && Listing(causes, pid) == [i];
    forall i, p | i in only && p in packages
      ensures p.id in only[i] <==> Blocks(f, i, p) && forall j :: Blocks(f, j, p) ==> j == i
    {
      SoleCause(failures, blocked, p.id, i);
      forall j ensures Blocks(f, j, p) <==> j in blocked && p.id in blocked[j] { BlocksInScope(f, packages, j, p); }
    }
  }

  method ListedOnce(s: set<Node>) returns (r: seq<Node>)
    ensures s == SetOf(r) && Distinct(r)
  {
    r := [];
    var todo := s;
    while todo != {}
      invariant (forall n :: n in s <==> n in todo || n in r) && (forall n :: n in r ==> n !in todo)
      invariant Distinct(r)
      decreases todo
    {
      var n :| n in todo;
      todo := todo - {n};
      r := r + [n];
    }
  }

  lemma ScopeClosed(f: Facts, roots: set<Node>)
    ensures DownClosed(f.edges, ReachSet(f.edges, roots))
  {
    var scope := ReachSet(f.edges, roots);
    forall n, m | n in scope && m in Next(f.edges, n) ensures m in scope {
      ReachSetMembers(f.edges, roots, n);
      NextReached(f.edges, roots, n, m);
      ReachSetMembers(f.edges, roots, m);
    }
  }

  /** A package is in its campaign's scope, with everything it depends on. */
  lemma BlocksInScope(f: Facts, packages: seq<Package>, j: Node, p: Package)
    requires p in packages
    ensures p.drv in ScopeOf(f, packages) && (Blocks(f, j, p) ==> j in ScopeOf(f, packages))
    ensures Blocks(f, j, p) ==> j in Failures(f)
  {
    var roots := SetOf(DrvsOf(packages));
    var n :| 0 <= n < |packages| && packages[n] == p;
    assert DrvsOf(packages)[n] == p.drv;
    RootReached(f.edges, roots, p.drv);
    ReachSetMembers(f.edges, roots, p.drv);
    if Blocks(f, j, p) { ReachSetMembers(f.edges, roots, j); }
  }

  lemma HitIffBlocks(f: Facts, scope: set<Node>, up: Graph, packages: seq<Package>, i: Node, p: Package)
    requires ScopedParents(f.edges, scope, up) && DownClosed(f.edges, scope) && i in Failures(f) * scope
    requires p in packages && scope == ScopeOf(f, packages)
    requires forall j, k :: 0 <= j < k < |packages| ==> packages[j].id != packages[k].id
    ensures p.id in Hits(packages, ReachSet(up, {i}) - {i}) <==> Blocks(f, i, p)
  {
    hide ScopedParents, DownClosed, Reaches, ReachSet;
    BlocksInScope(f, packages, i, p);
    assert {i} * scope == {i};
    MarkedDepends(f, scope, up, {i}, p.drv);
    assert DependsOn(f, p.drv, {i}) <==> Reaches(f.edges, p.drv, i);
    var n :| 0 <= n < |packages| && packages[n] == p;
    HitMembers(packages, ReachSet(up, {i}) - {i}, n);
  }

  lemma HitMembers(packages: seq<Package>, marked: set<Node>, n: nat)
    requires n < |packages| && forall j, k :: 0 <= j < k < |packages| ==> packages[j].id != packages[k].id
    ensures packages[n].id in Hits(packages, marked) <==> packages[n].drv in marked && packages[n].state.Blocked?
  {
  }

  /** The dependents view and the explaining chains agree: a derivation of the campaign is marked
      bad exactly when it has a failing or excluded dependency to explain it. */
  lemma BadIffExplained(f: Facts, scope: set<Node>, bad: set<Node>, d: Node, found: seq<Entry>)
    requires d in scope && (d in bad <==> d in scope && DependsOn(f, d, f.failure.Keys + f.exclusion.Keys))
    requires forall j :: 0 <= j < |found| ==>
               found[j].node in f.failure.Keys + f.exclusion.Keys && Shortest(f.edges, found[j].chain, d, found[j].node)
    requires forall n :: n in f.failure.Keys + f.exclusion.Keys && Reaches(f.edges, d, n) ==> Finds(found, n)
    ensures d in bad <==> found != []
  {
    if found != [] {
      assert Joins(f.edges, found[0].chain, d, found[0].node);
      assert Reaches(f.edges, d, found[0].node);
    }
  }

  /** A blocked package of a refreshed campaign counts under a failure alone exactly when that is
      the one in-scope failure below it. */
  lemma OnlyMeansSole(f: Facts, c: Candidate, p: Package, i: Node)
    requires c.drv == Some(p.drv) && Implied(f, c).state == p.state && p.state.Blocked? && c.state !in {Running, Inconclusive, State.Excluded}
    ensures (Blocks(f, i, p) && forall j :: Blocks(f, j, p) ==> j == i) <==>
            (i in Failures(f) && Reaches(f.edges, p.drv, i) &&
             forall j :: j in Failures(f) && Reaches(f.edges, p.drv, j) ==> j == i)
  {
    hide Reaches, DependsOn;
    forall j ensures Blocks(f, j, p) <==> j in Failures(f) && Reaches(f.edges, p.drv, j) {
      assert p.drv !in f.failure;
    }
  }
}
