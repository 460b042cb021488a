/** The evaluator that fills a memo by node id, and the plan that tries the width and the
    ribbon, then the width alone, then neither. */
module PrinterPlan {
  import opened Wrappers
  import opened PrinterLayouts
  import opened PrinterFrontier

  // ----- The document graph -----

  /** Every node reachable from d is the one its id names. */
  ghost predicate Labelled(d: Doc, nodes: map<nat, Doc>)
  {
    d.id in nodes && nodes[d.id] == d &&
    match d
    case Text(_, _, _, _, _) => true
    case Cat(_, kids) => forall i :: 0 <= i < |kids| ==> Labelled(kids[i], nodes)
    case Flush(_, a, _) => Labelled(a, nodes)
    case Or(_, a, b) => Labelled(a, nodes) && Labelled(b, nodes)
    case One(_, a, _) => Labelled(a, nodes)
  }

  ghost function Depth(d: Doc): nat
    decreases d, if d.Cat? then |d.kids| + 1 else 0
  {
    match d
    case Text(_, _, _, _, _) => 0
    case Cat(_, kids) => RowDepth(d, |kids|) + 1
    case Flush(_, a, _) => Depth(a) + 1
    case Or(_, a, b) => (if Depth(a) < Depth(b) then Depth(b) else Depth(a)) + 1
    case One(_, a, _) => Depth(a) + 1
  }

  ghost function RowDepth(d: Doc, n: nat): (m: nat)
    requires d.Cat? && n <= |d.kids|
    ensures forall i :: 0 <= i < n ==> Depth(d.kids[i]) <= m
    decreases d, n
  {
    if n == 0 then 0
    else
      var m, k := RowDepth(d, n - 1), Depth(d.kids[n - 1]);
      if m < k then k else m
  }

  ghost predicate MemoAgrees(memo: map<nat, seq<Candidate>>, nodes: map<nat, Doc>, E: Env)
  {
    forall id :: id in memo ==>
      id in nodes && WellFormed(nodes[id]) && memo[id] == Frontier(nodes[id], E)
  }

  // ----- Loops over candidates -----

  method TakeFrontier(cs: seq<Candidate>, eps: real) returns (out: seq<Candidate>)
    ensures out == Pareto(cs, eps)
  {
    var s := Sort(cs);
    out := [];
    for i := 0 to |s|
      invariant out == Kept(s[..i], eps)
    {
      assert s[..i + 1][..i] == s[..i];
      if !SomeDominates(out, s[i], eps) {
        out := out + [s[i]];
      }
    }
    assert s[..|s|] == s;
  }

  method JoinAll(F: seq<Candidate>, K: seq<Candidate>, E: Env) returns (G: seq<Candidate>)
    ensures G == Products(F, K, E)
  {
    G := [];
    for i := 0 to |F|
      invariant G == Products(F[..i], K, E)
    {
      ghost var before := G;
      for j := 0 to |K|
        invariant G == before + JoinEach(F[i], K[..j], E)
      {
        assert K[..j + 1][..j] == K[..j];
        var m := Join(F[i], K[j]);
        if Valid(m, E) { G := G + [m]; }
      }
      assert K[..|K|] == K && F[..i + 1][..i] == F[..i];
    }
    assert F[..|F|] == F;
  }

  method FilterOneLiners(F: seq<Candidate>, max: real, R: Limit) returns (G: seq<Candidate>)
    ensures G == OneLiners(F, max, R)
  {
    G := [];
    for i := 0 to |F|
      invariant G == OneLiners(F[..i], max, R)
    {
      assert F[..i + 1][..i] == F[..i];
      if OnOneLineWithin(F[i], max, R) { G := G + [F[i]]; }
    }
    assert F[..|F|] == F;
  }

  lemma {:induction false} EmptyRowStaysEmpty(d: Doc, m: nat, n: nat, E: Env)
    requires WellFormed(d) && d.Cat? && 0 < m <= n <= |d.kids| && RowFrontier(d, m, E) == []
    ensures RowFrontier(d, n, E) == []
    decreases n
  {
    hide Frontier, Pareto, Products;
    if m < n {
      EmptyRowStaysEmpty(d, m, n - 1, E);
      var F, K := RowFrontier(d, n - 1, E), Frontier(d.kids[n - 1], E);
      assert RowFrontier(d, n, E) == Pareto(Products(F, K, E), E.eps);
      NothingToJoin(F, K, E);
    }
  }

  /** A row begins with its first part and ends with all of them. */
  lemma RowEnds(d: Doc, E: Env)
    requires WellFormed(d) && d.Cat?
    ensures RowFrontier(d, 1, E) == Frontier(d.kids[0], E) && RowFrontier(d, |d.kids|, E) == Frontier(d, E)
  {
    hide Pareto, Products;
  }

  lemma NothingToJoin(F: seq<Candidate>, K: seq<Candidate>, E: Env)
    requires F == []
    ensures Pareto(Products(F, K, E), E.eps) == []
  {
    assert Products(F, K, E) == [] && Sort([]) == [];
  }

  // ----- Memoised evaluation -----

  class Evaluator {
    const E: Env
    var memo: map<nat, seq<Candidate>>
    /** How many nodes have been worked out rather than looked up. */
    ghost var steps: nat
    ghost const nodes: map<nat, Doc>

    constructor (E: Env, ghost nodes: map<nat, Doc>)
      ensures this.E == E && this.nodes == nodes && memo == map[] && steps == 0
    {
      this.E := E;
      this.nodes := nodes;
      memo := map[];
      steps := 0;
    }

    /** The evaluator's invariant: the memo holds true frontiers, and as many of them as
        nodes have been worked out. */
    ghost predicate Ready()
      reads this
    {
      MemoAgrees(memo, nodes, E) && steps == |memo|
    }

    /** Entries are only added, and only for nodes at most this deep. */
    twostate predicate GrewBelow(depth: int)
      reads this
    {
      (forall id :: id in old(memo) ==> id in memo) &&
      forall id :: id in memo && id !in old(memo) ==> id in nodes && Depth(nodes[id]) <= depth
    }

    /** Looking a shared node up gives what plain recursion gives, and each distinct node is
        worked out at most once. */
    method Evaluate(d: Doc) returns (r: seq<Candidate>)
      requires Ready() && WellFormed(d) && Labelled(d, nodes)
      modifies this`memo, this`steps
      ensures Ready() && GrewBelow(Depth(d))
      ensures r == Frontier(d, E)
      decreases d, 2
    {
      if d.id in memo {
        r := memo[d.id];
      } else {
        r := Step(d);
        memo := memo[d.id := r];
        steps := steps + 1;
      }
    }

    method Step(d: Doc) returns (r: seq<Candidate>)
      requires Ready() && WellFormed(d) && Labelled(d, nodes)
      modifies this`memo, this`steps
      ensures Ready() && GrewBelow(Depth(d) - 1)
      ensures r == Frontier(d, E)
      decreases d, 1
    {
      match d
      case Text(_, _, _, _, _) =>
        var m := TokenCandidate(d);
        r := if Valid(m, E) then [m] else [];
      case Cat(_, kids) =>
        r := StepRow(d);
      case Flush(_, a, at) =>
        var F := Evaluate(a);
        r := TakeFrontier(FlushEach(F, at), E.eps);
      case Or(_, a, b) =>
        var F := Evaluate(a);
        var G := Evaluate(b);
        r := TakeFrontier(F + G, E.eps);
      case One(_, a, max) =>
        var F := Evaluate(a);
        r := FilterOneLiners(F, max, E.R);
    }

    method StepRow(d: Doc) returns (F: seq<Candidate>)
      requires Ready() && WellFormed(d) && Labelled(d, nodes) && d.Cat?
      modifies this`memo, this`steps
      ensures Ready() && GrewBelow(Depth(d) - 1)
      ensures F == Frontier(d, E)
      decreases d, 0
    {
      hide Frontier, RowFrontier, MemoAgrees;
      RowEnds(d, E);
      F := Evaluate(d.kids[0]);
      for i := 1 to |d.kids|
        invariant Ready() && GrewBelow(Depth(d) - 1)
        invariant F == RowFrontier(d, i, E)
      {
        if F == [] {
          EmptyRowStaysEmpty(d, i, |d.kids|, E);
          return;
        }
        F := JoinKid(d, i, F);
      }
    }

    method JoinKid(d: Doc, i: nat, F: seq<Candidate>) returns (r: seq<Candidate>)
      requires Ready() && WellFormed(d) && Labelled(d, nodes) && d.Cat? && 0 < i < |d.kids|
      requires F == RowFrontier(d, i, E)
      modifies this`memo, this`steps
      ensures Ready() && GrewBelow(Depth(d) - 1)
      ensures r == RowFrontier(d, i + 1, E)
      decreases d.kids[i], 3
    {
      var K := Evaluate(d.kids[i]);
      var G := JoinAll(F, K, E);
      r := TakeFrontier(G, E.eps);
    }
  }
}
