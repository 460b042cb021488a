/** Which layout the plan takes, and how it compares with every layout of the document. */
module PrinterChoice {
  import opened Wrappers
  import opened PrinterLayouts
  import opened PrinterFrontier
  import opened PrinterPlan
  import opened PrinterWalk

  /** The plan's key order: by height, badness, width, or width first once the width is let go. */
  predicate Better(c: Candidate, best: Candidate, wide: bool)
  {
    if wide then LexLess(c.mw, c.h as real, c.b as real, best.mw, best.h as real, best.b as real)
    else LexLess(c.h as real, c.b as real, c.mw, best.h as real, best.b as real, best.mw)
  }

  predicate LexLess(a0: real, a1: real, a2: real, b0: real, b1: real, b2: real)
  {
    a0 < b0 || (a0 == b0 && (a1 < b1 || (a1 == b1 && a2 < b2)))
  }

  function FirstBest(F: seq<Candidate>, wide: bool): Candidate
    requires F != []
  {
    if |F| == 1 then F[0]
    else
      var best := FirstBest(F[..|F| - 1], wide);
      if Better(F[|F| - 1], best, wide) then F[|F| - 1] else best
  }

  lemma {:induction false} FirstBestIsLeast(F: seq<Candidate>, wide: bool, c: Candidate)
    requires c in F
    ensures FirstBest(F, wide) in F && !Better(c, FirstBest(F, wide), wide)
  {
    if |F| > 1 {
      var rest := F[..|F| - 1];
      FirstBestIsLeast(rest, wide, if c in rest then c else rest[0]);
    }
  }

  /** The three tries: width and ribbon, width alone, neither. */
  function TryEnv(k: nat, W: real, R: Limit, eps: real): Env
    requires k < 3
  {
    if k == 0 then Env(Finite(W), R, eps)
    else if k == 1 then Env(Finite(W), Infinite, eps)
    else Env(Infinite, Infinite, eps)
  }

  datatype Choice = Choice(attempt: nat, c: Candidate)

  /** The first try with a frontier, and the best of it. */
  function Chosen(d: Doc, k: nat, W: real, R: Limit, eps: real): (choice: Option<Choice>)
    requires WellFormed(d) && k <= 3
    ensures choice.Some? ==> k <= choice.value.attempt < 3
    decreases 3 - k
  {
    if k == 3 then None
    else
      var F := Frontier(d, TryEnv(k, W, R, eps));
      if F == [] then Chosen(d, k + 1, W, R, eps) else Some(Choice(k, FirstBest(F, k == 2)))
  }

  method PickBest(F: seq<Candidate>, wide: bool) returns (best: Candidate)
    requires F != []
    ensures best == FirstBest(F, wide)
  {
    best := F[0];
    for i := 0 to |F|
      invariant i > 0 ==> best == FirstBest(F[..i], wide)
      invariant i == 0 ==> best == F[0]
    {
      assert i > 0 ==> F[..i + 1][..i] == F[..i];
      if Better(F[i], best, wide) { best := F[i]; }
    }
    assert F[..|F|] == F;
  }

  method Choose(d: Doc, W: real, R: Limit, eps: real, ghost nodes: map<nat, Doc>)
    returns (choice: Option<Choice>)
    requires WellFormed(d) && Labelled(d, nodes)
    ensures choice == Chosen(d, 0, W, R, eps)
  {
    for k := 0 to 3
      invariant Chosen(d, 0, W, R, eps) == Chosen(d, k, W, R, eps)
    {
      var evaluator := new Evaluator(TryEnv(k, W, R, eps), nodes);
      var F := evaluator.Evaluate(d);
      if F != [] {
        var best := PickBest(F, k == 2);
        return Some(Choice(k, best));
      }
    }
    return None;
  }

  /** The breaks a plan writes, none when there is no layout to take. */
  function PlannedBreaks(d: Doc, start: real, W: real, R: Limit, eps: real): map<Mark, real>
    requires WellFormed(d)
  {
    match Chosen(d, 0, W, R, eps)
    case None => map[]
    case Some(ch) => AfterAll(Walked(map[], None), Setting(ch.c.r, start)).breaks
  }

  method Plan(d: Doc, start: real, W: real, R: Limit, eps: real, ghost nodes: map<nat, Doc>)
    returns (breaks: map<Mark, real>)
    requires WellFormed(d) && Labelled(d, nodes)
    ensures breaks == PlannedBreaks(d, start, W, R, eps)
  {
    var choice := Choose(d, W, R, eps, nodes);
    if choice.None? { return map[]; }
    var walker := new Walker();
    var _ := walker.Walk(choice.value.c.r, start);
    return walker.breaks;
  }

  // ----- What is chosen -----

  lemma {:induction false} ChosenFrom(d: Doc, k: nat, W: real, R: Limit, eps: real)
    requires WellFormed(d) && k <= 3 && Chosen(d, k, W, R, eps).Some?
    ensures var ch := Chosen(d, k, W, R, eps).value;
            var F := Frontier(d, TryEnv(ch.attempt, W, R, eps));
            F != [] && ch.c in F && ch.c == FirstBest(F, ch.attempt == 2)
    ensures forall j :: k <= j < Chosen(d, k, W, R, eps).value.attempt ==>
              Frontier(d, TryEnv(j, W, R, eps)) == []
    decreases 3 - k
  {
    hide Frontier, FirstBest, WellFormed;
    var F := Frontier(d, TryEnv(k, W, R, eps));
    if F == [] {
      ChosenFrom(d, k + 1, W, R, eps);
    } else {
      FirstBestIsLeast(F, k == 2, F[0]);
    }
  }

  /** The chosen layout is one the document offers, its numbers are those of its drawing, it
      stays within the width until the width is let go, and while the ribbon holds a single
      line that is not one token stays within the ribbon. */
  lemma PlanSound(d: Doc, W: real, R: Limit, eps: real)
    requires WellFormed(d) && Chosen(d, 0, W, R, eps).Some?
    ensures var ch := Chosen(d, 0, W, R, eps).value; var r := ch.c.r;
            Offers(d, r) && Cost(ch.c.h, ch.c.mw, ch.c.lw, ch.c.b) == DrawnCost(r) &&
            (ch.attempt < 2 ==> Widest(r) <= W) &&
            (ch.attempt == 0 ==> Height(r) > 0 || IsToken(r) || Within(Widest(r), R))
  {
    ChosenFrom(d, 0, W, R, eps);
    var ch := Chosen(d, 0, W, R, eps).value;
    FrontierSound(d, TryEnv(ch.attempt, W, R, eps), ch.c);
    CostIsDrawn(ch.c.r);
  }

  /** With no ribbon that matters, the chosen layout is lexicographically no worse in height and
      badness than any offered layout that leaves eps of room per frontier it passed through. */
  lemma PlanNearOptimal(d: Doc, W: real, R: Limit, eps: real, r: Layout)
    requires WellFormed(d) && 0.0 <= eps && Chosen(d, 0, W, R, eps).Some?
    requires var k := Chosen(d, 0, W, R, eps).value.attempt; k == 1 || (k == 0 && RibbonFree(d, W, R))
    requires Offers(d, r) && Widest(r) + Passes(d) as real * eps <= W
    ensures var best := Chosen(d, 0, W, R, eps).value.c.r;
            Height(best) < Height(r) || (Height(best) == Height(r) && Badness(best) <= Badness(r))
  {
    hide Frontier, RowFrontier, Offers, Passes, FirstBest, Lines, MaxEnd, Slack, CostOf, Chosen;
    var ch, c := ComparedNear(d, W, R, eps, r);
    CostIsDrawn(r);
    CostIsDrawn(ch.c.r);
  }

  /** With eps 0 the choice is the exact lexicographic optimum of height, badness and width. */
  lemma PlanOptimal(d: Doc, W: real, R: Limit, eps: real, r: Layout)
    requires WellFormed(d) && eps == 0.0 && Chosen(d, 0, W, R, eps).Some?
    requires var k := Chosen(d, 0, W, R, eps).value.attempt; k == 1 || (k == 0 && RibbonFree(d, W, R))
    requires Offers(d, r) && Widest(r) <= W
    ensures var best := Chosen(d, 0, W, R, eps).value.c.r;
            !LexLess(Height(r) as real, Badness(r) as real, Widest(r),
                     Height(best) as real, Badness(best) as real, Widest(best))
  {
    hide Frontier, RowFrontier, Offers, Passes, FirstBest, Lines, MaxEnd, Slack, CostOf, Chosen;
    SlackIsProduct(Passes(d), eps);
    var ch, c := ComparedNear(d, W, R, eps, r);
    CostIsDrawn(r);
    CostIsDrawn(ch.c.r);
  }

  /** A frontier candidate near r, which the choice is no worse than. */
  lemma ComparedNear(d: Doc, W: real, R: Limit, eps: real, r: Layout) returns (ch: Choice, c: Candidate)
    requires WellFormed(d) && 0.0 <= eps && Chosen(d, 0, W, R, eps).Some?
    requires var k := Chosen(d, 0, W, R, eps).value.attempt; k == 1 || (k == 0 && RibbonFree(d, W, R))
    requires Offers(d, r) && Widest(r) + Passes(d) as real * eps <= W
    ensures ch == Chosen(d, 0, W, R, eps).value && Measured(ch.c)
    ensures Near(c, r, Passes(d), eps) && !Better(c, ch.c, false)
  {
    hide Frontier, RowFrontier, Offers, Passes, FirstBest, Lines, MaxEnd, Slack, CostOf, Chosen;
    ChosenFrom(d, 0, W, R, eps);
    ch := Chosen(d, 0, W, R, eps).value;
    var E := TryEnv(1, W, R, eps);
    if ch.attempt == 0 { RibbonFreeSame(d, W, R, eps); }
    RoomFits(r, Passes(d), E, W);
    c := FrontierNear(d, E, r);
    FirstBestIsLeast(Frontier(d, E), false, c);
    FrontierSound(d, E, ch.c);
  }

  lemma RoomFits(r: Layout, n: nat, E: Env, W: real)
    requires Widest(r) + n as real * E.eps <= W && E.W == Finite(W)
    ensures Fits(r, n, E)
  {
    CostIsDrawn(r);
    SlackIsProduct(n, E.eps);
  }

  /** Once the width is let go, no offered layout is narrower than the choice by more than the
      slack, and with eps 0 the choice is the optimum of width, height and badness. */
  lemma PlanNarrowest(d: Doc, W: real, R: Limit, eps: real, r: Layout)
    requires WellFormed(d) && 0.0 <= eps && Offers(d, r)
    ensures var ch := Chosen(d, 0, W, R, eps);
            ch.Some? && ch.value.attempt == 2 ==> NoneNarrower(ch.value.c.r, r, Passes(d), eps)
  {
    hide Offers, Passes, Chosen, NoneNarrower, WellFormed;
    if Chosen(d, 0, W, R, eps).Some? && Chosen(d, 0, W, R, eps).value.attempt == 2 {
      var ch, c := ComparedNarrow(d, W, R, eps, r);
      NearNarrow(ch.c, c, r, Passes(d), eps);
    }
  }

  lemma NearNarrow(best: Candidate, c: Candidate, r: Layout, n: nat, eps: real)
    requires Measured(best) && Near(c, r, n, eps) && !Better(c, best, true)
    ensures NoneNarrower(best.r, r, n, eps)
  {
    hide Lines, MaxEnd, Slack, CostOf;
    SlackIsProduct(n, eps);
    CostIsDrawn(r);
    CostIsDrawn(best.r);
  }

  /** The first layout is no wider than the second, up to the slack of n passes; if eps is 0 it is
      no worse in width, height and badness, in that order. */
  predicate NoneNarrower(best: Layout, r: Layout, n: nat, eps: real)
  {
    Widest(best) <= Widest(r) + n as real * eps &&
    (eps == 0.0 ==> !LexLess(Widest(r), Height(r) as real, Badness(r) as real,
                             Widest(best), Height(best) as real, Badness(best) as real))
  }

  lemma ComparedNarrow(d: Doc, W: real, R: Limit, eps: real, r: Layout) returns (ch: Choice, c: Candidate)
    requires WellFormed(d) && 0.0 <= eps && Offers(d, r)
    requires Chosen(d, 0, W, R, eps).Some? && Chosen(d, 0, W, R, eps).value.attempt == 2
    ensures ch == Chosen(d, 0, W, R, eps).value && Measured(ch.c)
    ensures Near(c, r, Passes(d), eps) && !Better(c, ch.c, true)
  {
    hide Frontier, RowFrontier, Offers, Passes, FirstBest, Slack, CostOf, Chosen, Better;
    ChosenFrom(d, 0, W, R, eps);
    ch := Chosen(d, 0, W, R, eps).value;
    var E := TryEnv(2, W, R, eps);
    c := FrontierNear(d, E, r);
    FirstBestIsLeast(Frontier(d, E), true, c);
    FrontierSound(d, E, ch.c);
  }

  ghost predicate HasLayout(d: Doc)
    requires WellFormed(d)
  {
    exists r :: Offers(d, r)
  }

  /** A plan exists exactly when the document offers some layout. */
  lemma PlanTotal(d: Doc, W: real, R: Limit, eps: real)
    requires WellFormed(d) && 0.0 <= eps
    ensures Chosen(d, 0, W, R, eps).Some? <==> HasLayout(d)
  {
    if Chosen(d, 0, W, R, eps).Some? {
      PlanSound(d, W, R, eps);
      assert Offers(d, Chosen(d, 0, W, R, eps).value.c.r);
    } else if r :| Offers(d, r) {
      var c := FrontierNear(d, TryEnv(2, W, R, eps), r);
      LastTryDecides(d, 0, W, R, eps);
    }
  }

  lemma {:induction false} LastTryDecides(d: Doc, k: nat, W: real, R: Limit, eps: real)
    requires WellFormed(d) && k < 3 && Chosen(d, k, W, R, eps).None?
    ensures Frontier(d, TryEnv(2, W, R, eps)) == []
    decreases 3 - k
  {
    if k < 2 { LastTryDecides(d, k + 1, W, R, eps); }
  }

  /** The width is let go only if no offered layout leaves eps of room per frontier it passed
      through, and whenever none stays within the width at all. With eps 0 the two meet. */
  lemma WidthLetGoIff(d: Doc, W: real, R: Limit, eps: real)
    requires WellFormed(d) && 0.0 <= eps && Chosen(d, 0, W, R, eps).Some?
    ensures Chosen(d, 0, W, R, eps).value.attempt == 2 ==> !FitsWith(d, W, Passes(d) as real * eps)
    ensures !FitsWith(d, W, 0.0) ==> Chosen(d, 0, W, R, eps).value.attempt == 2
    ensures eps == 0.0 ==> (Chosen(d, 0, W, R, eps).value.attempt == 2 <==> !FitsWith(d, W, 0.0))
  {
    hide FitsWith, Chosen, Passes;
    var room := Passes(d) as real * eps;
    assert eps == 0.0 ==> room == 0.0;
    if Chosen(d, 0, W, R, eps).value.attempt < 2 {
      KeptFits(d, W, R, eps);
    } else if FitsWith(d, W, room) {
      RoomKeeps(d, W, R, eps, room);
    }
  }

  lemma KeptFits(d: Doc, W: real, R: Limit, eps: real)
    requires WellFormed(d) && Chosen(d, 0, W, R, eps).Some? && Chosen(d, 0, W, R, eps).value.attempt < 2
    ensures FitsWith(d, W, 0.0)
  {
    hide Frontier, RowFrontier, Offers, Lines, MaxEnd, Chosen;
    PlanSound(d, W, R, eps);
    var r := Chosen(d, 0, W, R, eps).value.c.r;
    assert Offers(d, r) && Widest(r) + 0.0 <= W;
  }

  lemma RoomKeeps(d: Doc, W: real, R: Limit, eps: real, room: real)
    requires WellFormed(d) && 0.0 <= eps && Chosen(d, 0, W, R, eps).Some?
    requires room == Passes(d) as real * eps && FitsWith(d, W, room)
    ensures Chosen(d, 0, W, R, eps).value.attempt < 2
  {
    hide Frontier, RowFrontier, Offers, Passes, FirstBest, Lines, MaxEnd, Slack, CostOf, Chosen;
    ChosenFrom(d, 0, W, R, eps);
    var r :| Offers(d, r) && Widest(r) + room <= W;
    RoomFits(r, Passes(d), TryEnv(1, W, R, eps), W);
    var c := FrontierNear(d, TryEnv(1, W, R, eps), r);
  }

  /** Some offered layout stays within the width with room to spare. */
  ghost predicate FitsWith(d: Doc, W: real, room: real)
    requires WellFormed(d)
  {
    exists r :: Offers(d, r) && Widest(r) + room <= W
  }

  // ----- The ribbon -----

  /** Every one-line fraction of the ribbon used in d is at least as wide as the page. */
  predicate RibbonIdle(d: Doc, W: real, R: Limit)
    requires WellFormed(d)
  {
    match d
    case Text(_, _, _, _, _) => true
    case Cat(_, kids) => forall i :: 0 <= i < |kids| ==> RibbonIdle(kids[i], W, R)
    case Flush(_, a, _) => RibbonIdle(a, W, R)
    case Or(_, a, b) => RibbonIdle(a, W, R) && RibbonIdle(b, W, R)
    case One(_, a, max) => Within(W, Fraction(R, max)) && RibbonIdle(a, W, R)
  }

  /** There is no ribbon, or neither it nor a fraction of it used in d is narrower than the page. */
  predicate RibbonFree(d: Doc, W: real, R: Limit)
    requires WellFormed(d)
  {
    R.Infinite? || (Within(W, R) && RibbonIdle(d, W, R))
  }

  lemma RibbonFreeSame(d: Doc, W: real, R: Limit, eps: real)
    requires WellFormed(d) && RibbonFree(d, W, R)
    ensures Frontier(d, TryEnv(0, W, R, eps)) == Frontier(d, TryEnv(1, W, R, eps))
  {
    if R.Finite? { RibbonIdleSame(d, W, R, eps); }
  }

  /** A ribbon no narrower than the page changes nothing, so the first try is then as good as
      the second and the optimality results hold for it. */
  lemma {:induction false} RibbonIdleSame(d: Doc, W: real, R: Limit, eps: real)
    requires WellFormed(d) && RibbonIdle(d, W, R) && Within(W, R)
    ensures Frontier(d, TryEnv(0, W, R, eps)) == Frontier(d, TryEnv(1, W, R, eps))
    decreases d, if d.Cat? then |d.kids| + 1 else 0
  {
    var E0, E1 := TryEnv(0, W, R, eps), TryEnv(1, W, R, eps);
    match d
    case Text(_, _, _, _, _) =>
    case Cat(_, kids) =>
      RibbonIdleRow(d, |kids|, W, R, eps);
    case Flush(_, a, _) =>
      RibbonIdleSame(a, W, R, eps);
    case Or(_, a, b) =>
      RibbonIdleSame(a, W, R, eps);
      RibbonIdleSame(b, W, R, eps);
    case One(_, a, max) =>
      RibbonIdleSame(a, W, R, eps);
      var F := Frontier(a, E0);
      forall c | c in F ensures c.mw <= W { FrontierSound(a, E0, c); }
      OneLinersIdle(F, max, W, R);
  }

  lemma {:induction false} RibbonIdleRow(d: Doc, n: nat, W: real, R: Limit, eps: real)
    requires WellFormed(d) && d.Cat? && 0 < n <= |d.kids| && RibbonIdle(d, W, R) && Within(W, R)
    ensures RowFrontier(d, n, TryEnv(0, W, R, eps)) == RowFrontier(d, n, TryEnv(1, W, R, eps))
    decreases d, n
  {
    RibbonIdleSame(d.kids[n - 1], W, R, eps);
    if n > 1 {
      RibbonIdleRow(d, n - 1, W, R, eps);
      var E0, E1 := TryEnv(0, W, R, eps), TryEnv(1, W, R, eps);
      var F, K := RowFrontier(d, n - 1, E0), Frontier(d.kids[n - 1], E0);
      ProductsIdle(F, K, W, R, eps);
      assert RowFrontier(d, n, E0) == Pareto(Products(F, K, E0), eps);
      assert RowFrontier(d, n, E1) == Pareto(Products(F, K, E1), eps);
    }
  }

  lemma {:induction false} JoinEachIdle(x: Candidate, K: seq<Candidate>, W: real, R: Limit, eps: real)
    requires Within(W, R)
    ensures JoinEach(x, K, TryEnv(0, W, R, eps)) == JoinEach(x, K, TryEnv(1, W, R, eps))
  {
    if K != [] { JoinEachIdle(x, K[..|K| - 1], W, R, eps); }
  }

  lemma {:induction false} ProductsIdle(F: seq<Candidate>, K: seq<Candidate>, W: real, R: Limit, eps: real)
    requires Within(W, R)
    ensures Products(F, K, TryEnv(0, W, R, eps)) == Products(F, K, TryEnv(1, W, R, eps))
  {
    if F != [] {
      ProductsIdle(F[..|F| - 1], K, W, R, eps);
      JoinEachIdle(F[|F| - 1], K, W, R, eps);
    }
  }

  lemma {:induction false} OneLinersIdle(F: seq<Candidate>, max: real, W: real, R: Limit)
    requires Within(W, Fraction(R, max)) && forall c :: c in F ==> c.mw <= W
    ensures OneLiners(F, max, R) == OneLiners(F, max, Infinite)
  {
    if F != [] {
      assert F[|F| - 1] in F;
      OneLinersIdle(F[..|F| - 1], max, W, R);
    }
  }
}
