/** The recipe graph, and which derivations a build still needs given what is available. */
module SchedulingGraph {
  import opened Wrappers
  import opened Collections

  type Drv = nat
  type Path = nat
  type OutputName = nat

  /** An input of a derivation, and which of its outputs are required. */
  datatype Edge = Edge(child: Drv, required: set<OutputName>)

  /** Output paths may be unknown; derivations without a record have no outputs. */
  datatype Graph = Graph(outputs: map<Drv, map<OutputName, Option<Path>>>, edges: map<Drv, seq<Edge>>)

  function OutputsOf(g: Graph, d: Drv): map<OutputName, Option<Path>>
  {
    if d in g.outputs then g.outputs[d] else map[]
  }

  function EdgesOf(g: Graph, d: Drv): seq<Edge>
  {
    if d in g.edges then g.edges[d] else []
  }

  /** Known output paths of some derivations. */
  function PathsOf(g: Graph, drvs: set<Drv>): set<Path>
  {
    set d, k | d in drvs && k in OutputsOf(g, d) && OutputsOf(g, d)[k].Some? :: OutputsOf(g, d)[k].value
  }

  /** All the required outputs are known and available. Requiring nothing satisfies nothing. */
  predicate Satisfied(g: Graph, d: Drv, required: set<OutputName>, available: set<Path>)
  {
    required != {} &&
    forall k :: k in required ==>
      k in OutputsOf(g, d) && OutputsOf(g, d)[k].Some? && OutputsOf(g, d)[k].value in available
  }

  // ----- What is needed, by definition -----

  /** A target not all of whose outputs are available. */
  predicate NeededTarget(g: Graph, targets: set<Drv>, available: set<Path>, d: Drv)
  {
    d in targets && !Satisfied(g, d, OutputsOf(g, d).Keys, available)
  }

  /** An input whose required outputs are not all available. */
  predicate NeededInput(g: Graph, available: set<Path>, parent: Drv, child: Drv)
  {
    exists i :: 0 <= i < |EdgesOf(g, parent)| && EdgesOf(g, parent)[i].child == child &&
      !Satisfied(g, child, EdgesOf(g, parent)[i].required, available)
  }

  /** A chain of needed inputs from a needed target. */
  ghost predicate NeedChain(g: Graph, targets: set<Drv>, available: set<Path>, chain: seq<Drv>)
  {
    chain != [] && NeededTarget(g, targets, available, chain[0]) &&
    forall i :: 0 < i < |chain| ==> NeededInput(g, available, chain[i - 1], chain[i])
  }

  ghost predicate IsNeeded(g: Graph, targets: set<Drv>, available: set<Path>, d: Drv)
  {
    exists chain :: NeedChain(g, targets, available, chain) && chain[|chain| - 1] == d
  }

  /** The derivations a need chain can reach at all. */
  function Universe(g: Graph, targets: set<Drv>): set<Drv>
  {
    targets + set p, i | p in g.edges && 0 <= i < |g.edges[p]| :: g.edges[p][i].child
  }

  ghost function Needed(g: Graph, targets: set<Drv>, available: set<Path>): set<Drv>
  {
    set d | d in Universe(g, targets) && IsNeeded(g, targets, available, d)
  }

  /** A set that contains the needed targets and every needed input of its members. */
  ghost predicate Closed(g: Graph, targets: set<Drv>, available: set<Path>, s: set<Drv>)
  {
    (forall d :: NeededTarget(g, targets, available, d) ==> d in s) &&
    forall a, b :: a in s && NeededInput(g, available, a, b) ==> b in s
  }

  lemma IsNeededInUniverse(g: Graph, targets: set<Drv>, available: set<Path>, d: Drv)
    requires IsNeeded(g, targets, available, d)
    ensures d in Universe(g, targets) && d in Needed(g, targets, available)
  {
    var chain :| NeedChain(g, targets, available, chain) && chain[|chain| - 1] == d;
    if |chain| > 1 {
      assert NeededInput(g, available, chain[|chain| - 2], d);
      InputInUniverse(g, targets, available, chain[|chain| - 2], d);
    }
  }

  lemma InputInUniverse(g: Graph, targets: set<Drv>, available: set<Path>, parent: Drv, child: Drv)
    requires NeededInput(g, available, parent, child)
    ensures child in Universe(g, targets)
  {
    var i :| 0 <= i < |EdgesOf(g, parent)| && EdgesOf(g, parent)[i].child == child &&
      !Satisfied(g, child, EdgesOf(g, parent)[i].required, available);
    assert parent in g.edges && g.edges[parent][i].child == child;
  }

  /** What is needed is closed. */
  lemma NeededIsClosed(g: Graph, targets: set<Drv>, available: set<Path>)
    ensures Closed(g, targets, available, Needed(g, targets, available))
  {
    hide Satisfied, NeededInput, NeededTarget, Universe;
    forall d | NeededTarget(g, targets, available, d) ensures d in Needed(g, targets, available) {
      assert NeedChain(g, targets, available, [d]);
      IsNeededInUniverse(g, targets, available, d);
    }
    forall a: Drv, b: Drv | a in Needed(g, targets, available) && NeededInput(g, available, a, b)
      ensures b in Needed(g, targets, available)
    {
      var chain :| NeedChain(g, targets, available, chain) && chain[|chain| - 1] == a;
      var more := chain + [b];
      forall i | 0 < i < |more| ensures NeededInput(g, available, more[i - 1], more[i]) {
        if i < |chain| { assert NeededInput(g, available, chain[i - 1], chain[i]); }
      }
      assert NeedChain(g, targets, available, more) && more[|more| - 1] == b;
      IsNeededInUniverse(g, targets, available, b);
    }
  }

  lemma {:induction false} ChainStaysInside(g: Graph, targets: set<Drv>, available: set<Path>, s: set<Drv>, chain: seq<Drv>)
    requires Closed(g, targets, available, s) && NeedChain(g, targets, available, chain)
    ensures chain[|chain| - 1] in s
  {
    if |chain| > 1 {
      var rest := chain[..|chain| - 1];
      forall i | 0 < i < |rest| ensures NeededInput(g, available, rest[i - 1], rest[i]) {
        assert NeededInput(g, available, chain[i - 1], chain[i]);
      }
      ChainStaysInside(g, targets, available, s, rest);
      assert NeededInput(g, available, chain[|chain| - 2], chain[|chain| - 1]);
    }
  }

  /** What is needed is the least closed set. */
  lemma NeededIsLeast(g: Graph, targets: set<Drv>, available: set<Path>, s: set<Drv>)
    requires Closed(g, targets, available, s)
    ensures Needed(g, targets, available) <= s
  {
    forall d | d in Needed(g, targets, available) ensures d in s {
      var chain :| NeedChain(g, targets, available, chain) && chain[|chain| - 1] == d;
      ChainStaysInside(g, targets, available, s, chain);
    }
  }

  // ----- The worklist -----

  datatype Todo = Todo(d: Drv, required: set<OutputName>)

  predicate Waiting(todo: seq<Todo>, d: Drv, required: set<OutputName>)
  {
    exists i :: 0 <= i < |todo| && todo[i] == Todo(d, required)
  }

  /** Nothing still to do is needed without reason. */
  ghost predicate Justified(g: Graph, targets: set<Drv>, available: set<Path>, todo: seq<Todo>)
  {
    forall i :: 0 <= i < |todo| && !Satisfied(g, todo[i].d, todo[i].required, available) ==>
      IsNeeded(g, targets, available, todo[i].d)
  }

  predicate Unmet(g: Graph, e: Edge, available: set<Path>)
  {
    !Satisfied(g, e.child, e.required, available)
  }

  /** Everything needed next to what is found is found or still to do. */
  ghost predicate Covered(g: Graph, targets: set<Drv>, available: set<Path>, found: set<Drv>, todo: seq<Todo>)
  {
    (forall d :: NeededTarget(g, targets, available, d) ==> d in found || Waiting(todo, d, OutputsOf(g, d).Keys)) &&
    forall a, i :: a in found && 0 <= i < |EdgesOf(g, a)| && Unmet(g, EdgesOf(g, a)[i], available) ==>
      (EdgesOf(g, a)[i].child in found || Waiting(todo, EdgesOf(g, a)[i].child, EdgesOf(g, a)[i].required))
  }

  function Inputs(edges: seq<Edge>): (todo: seq<Todo>)
    ensures |todo| == |edges|
    ensures forall i :: 0 <= i < |edges| ==> todo[i] == Todo(edges[i].child, edges[i].required)
  {
    seq(|edges|, i requires 0 <= i < |edges| => Todo(edges[i].child, edges[i].required))
  }

  /** Walks from the targets through inputs whose required outputs are not all available, on any
      graph, and finds exactly what is needed. */
  method FindNeeded(g: Graph, targets: seq<Drv>, available: set<Path>) returns (found: set<Drv>)
    ensures found == Needed(g, SetOf(targets), available)
  {
    ghost var ts := SetOf(targets);
    found := {};
    var todo := seq(|targets|, i requires 0 <= i < |targets| => Todo(targets[i], OutputsOf(g, targets[i]).Keys));
    StartCovered(g, targets, available, todo);
    while todo != []
      invariant found <= Universe(g, ts)
      invariant forall d :: d in found ==> IsNeeded(g, ts, available, d)
      invariant Justified(g, ts, available, todo) && Covered(g, ts, available, found, todo)
      decreases Universe(g, ts) - found, |todo|
    {
      var item := todo[|todo| - 1];
      ghost var before := todo;
      todo := todo[..|todo| - 1];
      if Satisfied(g, item.d, item.required, available) || item.d in found {
        DropCovered(g, ts, available, found, before);
      } else {
        assert before[|before| - 1] == item;
        IsNeededInUniverse(g, ts, available, item.d);
        VisitCovered(g, ts, available, found, before);
        found := found + {item.d};
        todo := todo + Inputs(EdgesOf(g, item.d));
      }
    }
    FoundIsNeeded(g, ts, available, found);
  }

  lemma StartCovered(g: Graph, targets: seq<Drv>, available: set<Path>, todo: seq<Todo>)
    requires |todo| == |targets| &&
             forall i :: 0 <= i < |targets| ==> todo[i] == Todo(targets[i], OutputsOf(g, targets[i]).Keys)
    ensures var ts := SetOf(targets);
            Justified(g, ts, available, todo) && Covered(g, ts, available, {}, todo)
  {
    var ts := SetOf(targets);
    forall i | 0 <= i < |todo| && !Satisfied(g, todo[i].d, todo[i].required, available)
      ensures IsNeeded(g, ts, available, todo[i].d)
    {
      assert NeedChain(g, ts, available, [todo[i].d]);
    }
    forall d | NeededTarget(g, ts, available, d) ensures Waiting(todo, d, OutputsOf(g, d).Keys) {
      var i :| 0 <= i < |targets| && targets[i] == d;
      assert todo[i] == Todo(d, OutputsOf(g, d).Keys);
    }
  }

  lemma StillWaiting(todo: seq<Todo>, d: Drv, required: set<OutputName>)
    requires todo != [] && Waiting(todo, d, required)
    ensures Waiting(todo[..|todo| - 1], d, required) || todo[|todo| - 1] == Todo(d, required)
  {
    var i :| 0 <= i < |todo| && todo[i] == Todo(d, required);
    if i < |todo| - 1 { assert todo[..|todo| - 1][i] == todo[i]; }
  }

  lemma DropCovered(g: Graph, ts: set<Drv>, available: set<Path>, found: set<Drv>, todo: seq<Todo>)
    requires todo != [] && Justified(g, ts, available, todo) && Covered(g, ts, available, found, todo)
    requires var item := todo[|todo| - 1]; Satisfied(g, item.d, item.required, available) || item.d in found
    ensures Justified(g, ts, available, todo[..|todo| - 1]) && Covered(g, ts, available, found, todo[..|todo| - 1])
  {
    var rest := todo[..|todo| - 1];
    forall d | NeededTarget(g, ts, available, d) && d !in found ensures Waiting(rest, d, OutputsOf(g, d).Keys) {
      StillWaiting(todo, d, OutputsOf(g, d).Keys);
    }
    forall a, i | a in found && 0 <= i < |EdgesOf(g, a)| && Unmet(g, EdgesOf(g, a)[i], available) && EdgesOf(g, a)[i].child !in found
      ensures Waiting(rest, EdgesOf(g, a)[i].child, EdgesOf(g, a)[i].required)
    {
      StillWaiting(todo, EdgesOf(g, a)[i].child, EdgesOf(g, a)[i].required);
    }
  }

  lemma VisitCovered(g: Graph, ts: set<Drv>, available: set<Path>, found: set<Drv>, todo: seq<Todo>)
    requires todo != [] && Justified(g, ts, available, todo) && Covered(g, ts, available, found, todo)
    requires IsNeeded(g, ts, available, todo[|todo| - 1].d)
    ensures var d := todo[|todo| - 1].d; var next := todo[..|todo| - 1] + Inputs(EdgesOf(g, d));
            Justified(g, ts, available, next) && Covered(g, ts, available, found + {d}, next)
  {
    hide Satisfied, IsNeeded;
    var d, rest := todo[|todo| - 1].d, todo[..|todo| - 1];
    var inputs := Inputs(EdgesOf(g, d));
    var next := rest + inputs;
    NeededIsClosed(g, ts, available);
    IsNeededInUniverse(g, ts, available, d);
    forall i | 0 <= i < |next| && !Satisfied(g, next[i].d, next[i].required, available)
      ensures IsNeeded(g, ts, available, next[i].d)
    {
      if i >= |rest| {
        var e := EdgesOf(g, d)[i - |rest|];
        assert next[i] == Todo(e.child, e.required);
        assert NeededInput(g, available, d, e.child);
      } else {
        assert next[i] == todo[i];
      }
    }
    forall t | NeededTarget(g, ts, available, t) && t !in found + {d} ensures Waiting(next, t, OutputsOf(g, t).Keys) {
      StillWaiting(todo, t, OutputsOf(g, t).Keys);
      WaitingMore(rest, inputs, t, OutputsOf(g, t).Keys);
    }
    forall a, i | a in found + {d} && 0 <= i < |EdgesOf(g, a)| && Unmet(g, EdgesOf(g, a)[i], available) &&
      EdgesOf(g, a)[i].child !in found + {d}
      ensures Waiting(next, EdgesOf(g, a)[i].child, EdgesOf(g, a)[i].required)
    {
      var e := EdgesOf(g, a)[i];
      if a == d {
        assert next[|rest| + i] == Todo(e.child, e.required);
      } else {
        StillWaiting(todo, e.child, e.required);
        WaitingMore(rest, inputs, e.child, e.required);
      }
    }
  }

  lemma WaitingMore(a: seq<Todo>, b: seq<Todo>, d: Drv, required: set<OutputName>)
    requires Waiting(a, d, required)
    ensures Waiting(a + b, d, required)
  {
    var i :| 0 <= i < |a| && a[i] == Todo(d, required);
    assert (a + b)[i] == a[i];
  }

  lemma FoundIsNeeded(g: Graph, ts: set<Drv>, available: set<Path>, found: set<Drv>)
    requires found <= Universe(g, ts) && (forall d :: d in found ==> IsNeeded(g, ts, available, d))
    requires Covered(g, ts, available, found, [])
    ensures found == Needed(g, ts, available)
  {
    assert Closed(g, ts, available, found);
    NeededIsLeast(g, ts, available, found);
  }

  // ----- What makes recomputing reservations sound -----

  /** The more is available, the less is needed. */
  lemma NeededAntitone(g: Graph, targets: set<Drv>, available: set<Path>, more: set<Path>)
    requires available <= more
    ensures Needed(g, targets, more) <= Needed(g, targets, available)
  {
    var s := Needed(g, targets, available);
    NeededIsClosed(g, targets, available);
    forall a, b | a in s && NeededInput(g, more, a, b) ensures b in s {
      var i :| 0 <= i < |EdgesOf(g, a)| && EdgesOf(g, a)[i].child == b && !Satisfied(g, b, EdgesOf(g, a)[i].required, more);
      assert NeededInput(g, available, a, b);
    }
    forall d | NeededTarget(g, targets, more, d) ensures d in s {
      assert NeededTarget(g, targets, available, d);
    }
    NeededIsLeast(g, targets, more, s);
  }

  /** What a batch needs is what its targets need, together. */
  lemma NeededUnion(g: Graph, a: set<Drv>, b: set<Drv>, available: set<Path>)
    ensures Needed(g, a + b, available) == Needed(g, a, available) + Needed(g, b, available)
  {
    hide Needed, NeededInput, Satisfied;
    var s := Needed(g, a, available) + Needed(g, b, available);
    NeededIsClosed(g, a, available);
    NeededIsClosed(g, b, available);
    NeededIsClosed(g, a + b, available);
    forall d | NeededTarget(g, a + b, available, d) ensures d in s {
      assert NeededTarget(g, a, available, d) || NeededTarget(g, b, available, d);
    }
    NeededIsLeast(g, a + b, available, s);
    var all := Needed(g, a + b, available);
    forall d | NeededTarget(g, a, available, d) || NeededTarget(g, b, available, d) ensures d in all {
      assert NeededTarget(g, a + b, available, d);
    }
    NeededIsLeast(g, a, available, all);
    NeededIsLeast(g, b, available, all);
  }

  lemma PathsMonotone(g: Graph, a: set<Drv>, b: set<Drv>)
    requires a <= b
    ensures PathsOf(g, a) <= PathsOf(g, b)
  {
  }
}
