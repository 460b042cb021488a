/** Where the printer's frontiers fall short, and exactly when they do not: comparisons within eps
    leave dominated candidates, and comparisons that ignore the ribbon lose layouts. */
module PrinterExact {
  import opened Wrappers
  import opened PrinterLayouts
  import opened PrinterFrontier
  import opened PrinterChoice

  // ----- Frontiers of one and of two candidates -----

  lemma SingletonPareto(c: Candidate, eps: real)
    ensures Pareto([c], eps) == [c]
  {
    assert Sort([c]) == Insert(Sort([]), c);
    assert Kept([c], eps) == [c];
  }

  lemma PairPareto(x: Candidate, y: Candidate, eps: real)
    requires !Less(y, x)
    ensures Pareto([x, y], eps) == if Dominates(x, y, eps) then [x] else [x, y]
  {
    assert [x, y][..1] == [x] && [x][..0] == [];
    assert Sort([x]) == Insert(Sort([]), x) == [x];
    assert Sort([x, y]) == Insert([x], y) == [x, y];
    assert Kept([x], eps) == [x];
    assert SomeDominates([x], y, eps) <==> Dominates([x][0], y, eps);
  }

  lemma SinglesRow(x: Candidate, y: Candidate, E: Env)
    ensures Products([x], [y], E) == if Valid(Join(x, y), E) then [Join(x, y)] else []
  {
    assert [x][..0] == [] && [y][..0] == [];
    assert JoinEach(x, [y], E) == JoinEach(x, [], E) + (if Valid(Join(x, y), E) then [Join(x, y)] else []);
    assert Products([x], [y], E) == Products([], [y], E) + JoinEach(x, [y], E);
  }

  lemma RowOfTwo(d: Doc, E: Env, x: Candidate, y: Candidate)
    requires WellFormed(d) && d.Cat? && |d.kids| == 2
    requires Frontier(d.kids[0], E) == [x] && Frontier(d.kids[1], E) == [y]
    ensures Frontier(d, E) == if Valid(Join(x, y), E) then [Join(x, y)] else []
  {
    SinglesRow(x, y, E);
    var F := RowFrontier(d, 1, E);
    assert F == [x];
    assert RowFrontier(d, 2, E) == Pareto(Products(F, [y], E), E.eps);
    SingletonPareto(Join(x, y), E.eps);
    assert Pareto([], E.eps) == [];
  }

  lemma EitherOf(d: Doc, E: Env, x: Candidate, y: Candidate)
    requires WellFormed(d) && d.Or? && Frontier(d.a, E) == [x] && Frontier(d.b, E) == [y] && !Less(y, x)
    ensures Frontier(d, E) == if Dominates(x, y, E.eps) then [x] else [x, y]
  {
    assert [x] + [y] == [x, y];
    PairPareto(x, y, E.eps);
  }

  lemma TokenFrontier(t: Doc, E: Env)
    requires t.Text? && Valid(TokenCandidate(t), E)
    ensures Frontier(t, E) == [TokenCandidate(t)] && OffersWithin(t, TokenCandidate(t).r, E)
  {
  }

  /** A token on a line of its own above another. */
  function Tall(t: Doc, u: Doc): Doc
  {
    Cat(2, [Flush(1, t, 0), u])
  }

  lemma TallBox(t: Doc, u: Doc, E: Env) returns (m: Candidate)
    requires t.Text? && u.Text? && Valid(TokenCandidate(t), E) && Valid(TokenCandidate(u), E)
    ensures m.h == 1 && m.mw == Max(t.w, u.w) && m.lw == u.w && m.b == t.bad + u.bad && !m.u
    ensures WellFormed(Tall(t, u)) && Frontier(Tall(t, u), E) == [m]
  {
    hide Pareto;
    var brk := Flush(1, t, 0);
    var c, e := TokenCandidate(t), TokenCandidate(u);
    var f := Candidate(1, t.w, 0.0, t.bad, false, Broken(c.r, 0));
    assert FlushEach([c], 0) == [f];
    SingletonPareto(f, E.eps);
    assert Frontier(brk, E) == [f];
    m := Join(f, e);
    RowOfTwo(Tall(t, u), E, f, e);
  }

  // ----- Antichains -----

  /** No member dominates another. */
  predicate Antichain(F: seq<Candidate>, eps: real)
  {
    forall i, j :: 0 <= i < |F| && 0 <= j < |F| && i != j ==> !Dominates(F[i], F[j], eps)
  }

  lemma {:induction false} OneLinersForward(F: seq<Candidate>, max: real, R: Limit, eps: real)
    requires Forward(F, eps)
    ensures Forward(OneLiners(F, max, R), eps)
  {
    if F != [] {
      hide Dominates, Less, OnOneLineWithin;
      var rest, last := F[..|F| - 1], F[|F| - 1];
      OneLinersForward(rest, max, R, eps);
      var k := OneLiners(rest, max, R);
      forall i | 0 <= i < |k| ensures !Dominates(k[i], last, eps) && !Less(last, k[i]) {
        OneLinerMembers(rest, max, R, k[i]);
        var j :| 0 <= j < |rest| && rest[j] == k[i];
        assert F[j] == k[i];
      }
      ForwardSnoc(k, last, eps);
    }
  }

  lemma ForwardSnoc(k: seq<Candidate>, last: Candidate, eps: real)
    requires Forward(k, eps) && forall i :: 0 <= i < |k| ==> !Dominates(k[i], last, eps) && !Less(last, k[i])
    ensures Forward(k + [last], eps)
  {
    hide Dominates, Less;
  }

  /** Whatever eps is, a frontier is in order and none of its members dominates a later one. */
  lemma {:induction false} FrontierForward(d: Doc, E: Env)
    requires WellFormed(d)
    ensures Forward(Frontier(d, E), E.eps)
    decreases d, if d.Cat? then |d.kids| + 1 else 0
  {
    hide Pareto;
    match d
    case Text(_, _, _, _, _) =>
    case Cat(_, kids) => RowForward(d, |kids|, E);
    case Flush(_, a, at) => ParetoForward(FlushEach(Frontier(a, E), at), E.eps);
    case Or(_, a, b) => ParetoForward(Frontier(a, E) + Frontier(b, E), E.eps);
    case One(_, a, max) =>
      FrontierForward(a, E);
      OneLinersForward(Frontier(a, E), max, E.R, E.eps);
  }

  lemma {:induction false} RowForward(d: Doc, n: nat, E: Env)
    requires WellFormed(d) && d.Cat? && 0 < n <= |d.kids|
    ensures Forward(RowFrontier(d, n, E), E.eps)
    decreases d, n
  {
    hide Pareto;
    if n == 1 {
      FrontierForward(d.kids[0], E);
    } else {
      ParetoForward(Products(RowFrontier(d, n - 1, E), Frontier(d.kids[n - 1], E), E), E.eps);
    }
  }

  /** The slack is none, or covers the whole page. */
  predicate EpsIdle(E: Env)
  {
    E.eps == 0.0 || (E.W.Finite? && E.W.bound <= E.eps)
  }

  lemma FrontierAntichain(d: Doc, E: Env)
    requires WellFormed(d) && 0.0 <= E.eps && EpsIdle(E)
    ensures Antichain(Frontier(d, E), E.eps)
  {
    var F := Frontier(d, E);
    FrontierForward(d, E);
    forall i, j | 0 <= i < |F| && 0 <= j < |F| && i != j ensures !Dominates(F[i], F[j], E.eps) {
      FrontierSound(d, E, F[i]);
      FrontierSound(d, E, F[j]);
      NoneDominates(F, E, i, j);
    }
  }

  lemma NoneDominates(F: seq<Candidate>, E: Env, i: nat, j: nat)
    requires Forward(F, E.eps) && 0.0 <= E.eps && EpsIdle(E) && i < |F| && j < |F| && i != j
    requires Measured(F[i]) && Measured(F[j]) && Valid(F[i], E) && Valid(F[j], E)
    ensures !Dominates(F[i], F[j], E.eps)
  {
    OneLineCost(F[i].r);
    OneLineCost(F[j].r);
    if j < i {
      assert !Dominates(F[j], F[i], E.eps) && !Less(F[i], F[j]);
    } else {
      assert !Dominates(F[i], F[j], E.eps);
    }
  }

  /** If eps is positive and narrower than the page, some document has a frontier with a member that
      another one dominates: two broken boxes of nearly the same width, the wider one with the
      shorter last line. */
  lemma FrontierNotAntichain(E: Env) returns (d: Doc)
    requires 0.0 < E.eps && !EpsIdle(E)
    ensures WellFormed(d)
    ensures var F := Frontier(d, E); |F| == 2 && Dominates(F[1], F[0], E.eps)
  {
    hide Pareto, Frontier;
    var eps := E.eps;
    var w := if E.W.Finite? then E.W.bound else 3.0 * eps;
    var v := Max(w - eps / 2.0, (w + eps) / 2.0);
    var narrow, wide, nothing := Text(0, v, false, true, 0), Text(1, w, false, true, 0), Text(2, 0.0, false, true, 0);
    d := Or(9, Tall(narrow, narrow), Tall(wide, nothing));
    var x := TallBox(narrow, narrow, E);
    var y := TallBox(wide, nothing, E);
    EitherOf(d, E, x, y);
  }

  /** The frontiers of all documents are antichains exactly if eps is 0 or not narrower than the page. */
  lemma AntichainIff(E: Env)
    requires 0.0 <= E.eps
    ensures (forall d :: WellFormed(d) ==> Antichain(Frontier(d, E), E.eps)) <==> EpsIdle(E)
  {
    hide Frontier, WellFormed, Dominates;
    if EpsIdle(E) {
      forall d | WellFormed(d) ensures Antichain(Frontier(d, E), E.eps) {
        FrontierAntichain(d, E);
      }
    } else {
      var d := FrontierNotAntichain(E);
      assert !Antichain(Frontier(d, E), E.eps);
    }
  }

  // ----- Layouts the first try loses -----

  /** Every fraction of the ribbon used in d is at least f. */
  predicate FractionsFrom(d: Doc, f: real)
    requires WellFormed(d)
  {
    match d
    case Text(_, _, _, _, _) => true
    case Cat(_, kids) => forall i :: 0 <= i < |kids| ==> FractionsFrom(kids[i], f)
    case Flush(_, a, _) => FractionsFrom(a, f)
    case Or(_, a, b) => FractionsFrom(a, f) && FractionsFrom(b, f)
    case One(_, a, max) => f <= max && FractionsFrom(a, f)
  }

  /** The document offers a layout with every box allowed. */
  ghost predicate HasLayoutWithin(d: Doc, E: Env)
    requires WellFormed(d)
  {
    exists r :: OffersWithin(d, r, E)
  }

  /** A document with fractions from f whose layouts the first try has all lost. */
  ghost predicate Lost(d: Doc, f: real, E: Env)
  {
    WellFormed(d) && FractionsFrom(d, f) && HasLayoutWithin(d, E) && Frontier(d, E) == []
  }

  /** Dominance ignores that a broken box is free of the ribbon. Half the page, or the same on a line
      of its own above itself, followed by half the page again: nothing is left if the ribbon is
      narrower than the page, although the taller layout is allowed in every box. */
  lemma RibbonLosesBroken(f: real, E: Env) returns (d: Doc)
    requires 0.0 <= E.eps && E.W.Finite? && 0.0 <= E.W.bound && !Within(E.W.bound, E.R)
    ensures Lost(d, f, E)
  {
    hide Pareto, Frontier, OffersWithin;
    var t := Text(0, E.W.bound / 2.0, false, true, 0);
    var c := TokenCandidate(t);
    TokenFrontier(t, E);
    var m := TallBox(t, t, E);
    var either := Or(3, t, Tall(t, t));
    d := Cat(4, [either, t]);
    EitherOf(either, E, c, m);
    RowOfTwo(d, E, c, c);
    BrokenWithin(d, t, E);
    TallFractions(t, t, f);
    assert FractionsFrom(either, f);
  }

  lemma BrokenWithin(d: Doc, t: Doc, E: Env)
    requires t.Text? && t.unit && d == Cat(4, [Or(3, t, Tall(t, t)), t]) && WellFormed(d) && Within(t.w + t.w, E.W)
    ensures HasLayoutWithin(d, E)
  {
    var tok := TokenCandidate(t).r;
    var brk := Broken(tok, 0);
    var over := Beside(brk, tok);
    var r := Beside(over, tok);
    assert OffersWithin(t, tok, E);
    assert OffersRowWithin(Tall(t, t), 1, brk, E);
    assert OffersRowWithin(Tall(t, t), 2, over, E);
    assert OffersWithin(d.kids[0], over, E);
    assert OffersRowWithin(d, 1, over, E);
    assert OffersRowWithin(d, 2, r, E);
    assert OffersWithin(d, r, E);
  }

  lemma TallFractions(t: Doc, u: Doc, f: real)
    requires t.Text? && u.Text?
    ensures WellFormed(Tall(t, u)) && FractionsFrom(Tall(t, u), f)
  {
    assert FractionsFrom(Flush(1, t, 0), f);
  }

  /** Dominance ignores that a token is free of the ribbon. A box as wide as the page that is not a
      token, or one that is, to be kept on one line within a fraction narrower than the page. */
  lemma FractionLosesToken(f: real, E: Env) returns (d: Doc)
    requires 0.0 < f && 0.0 <= E.eps && E.W.Finite? && 0.0 <= E.W.bound
    requires Within(E.W.bound, E.R) && !Within(E.W.bound, Fraction(E.R, f))
    ensures Lost(d, f, E)
  {
    hide Pareto, Frontier, OffersWithin, FractionsFrom;
    var w := E.W.bound;
    var box, token := Text(0, w, false, false, 0), Text(1, w, false, true, 0);
    var c, e := TokenCandidate(box), TokenCandidate(token);
    TokenFrontier(box, E);
    TokenFrontier(token, E);
    var either := Or(2, box, token);
    d := One(3, either, f);
    EitherOf(either, E, c, e);
    OneOfSingle(d, E, c);
    TokenWithin(d, e.r, E);
  }

  lemma TokenWithin(d: Doc, tok: Layout, E: Env)
    requires d.One? && d.max > 0.0 && d.a.Or? && d.a.a.Text? && d.a.b.Text? && d.a.b.unit && tok == TokenCandidate(d.a.b).r
    requires Within(tok.w, E.W)
    ensures WellFormed(d) && FractionsFrom(d, d.max) && HasLayoutWithin(d, E)
  {
    var either := d.a;
    assert WellFormed(either.a) && WellFormed(either.b) && FractionsFrom(either.a, d.max) && FractionsFrom(either.b, d.max);
    assert WellFormed(either) && FractionsFrom(either, d.max);
    assert OffersWithin(either.b, tok, E) && OffersWithin(either, tok, E);
    assert OffersWithin(d, tok, E);
  }

  lemma OneOfSingle(d: Doc, E: Env, c: Candidate)
    requires WellFormed(d) && d.One? && Frontier(d.a, E) == [c] && !OnOneLineWithin(c, d.max, E.R)
    ensures Frontier(d, E) == []
  {
    assert [c][..0] == [];
    assert OneLiners([c], d.max, E.R) == OneLiners([], d.max, E.R) + [];
  }

  /** A token up to eps wider than half the page beats one of half the page that is worse only in
      badness, and then the other half no longer fits. */
  lemma SlackLosesLayout(f: real, E: Env) returns (d: Doc)
    requires 0.0 < E.eps && E.W.Finite? && 0.0 < E.W.bound && Within(E.W.bound, E.R)
    ensures Lost(d, f, E)
  {
    hide Pareto, Frontier, OffersWithin;
    var half := E.W.bound / 2.0;
    var more := if E.eps < half then E.eps else half;
    var wide, narrow := Text(0, half + more, false, true, 0), Text(1, half, false, true, 1);
    var x, y := TokenCandidate(wide), TokenCandidate(narrow);
    TokenFrontier(wide, E);
    TokenFrontier(narrow, E);
    var either := Or(2, wide, narrow);
    d := Cat(3, [either, narrow]);
    EitherOf(either, E, x, y);
    RowOfTwo(d, E, x, y);
    HalvesWithin(d, E, y.r);
    assert FractionsFrom(either, f);
  }

  lemma HalvesWithin(d: Doc, E: Env, tok: Layout)
    requires WellFormed(d) && d.Cat? && |d.kids| == 2 && d.kids[0].Or? && d.kids[0].b == d.kids[1]
    requires d.kids[1].Text? && d.kids[1].unit && tok == TokenCandidate(d.kids[1]).r
    requires Within(tok.w + tok.w, E.W) && Within(tok.w + tok.w, E.R)
    ensures HasLayoutWithin(d, E)
  {
    var r := Beside(tok, tok);
    assert OffersWithin(d.kids[1], tok, E);
    assert OffersRowWithin(d, 1, tok, E);
    assert OffersRowWithin(d, 2, r, E);
    assert OffersWithin(d, r, E);
  }

  /** Whenever a document offers a layout with every box allowed, the first try finds one. */
  ghost predicate FirstTryFinds(W: real, R: Limit, eps: real, f: real)
  {
    forall d :: !Lost(d, f, TryEnv(0, W, R, eps))
  }

  /** Whenever a document offers a layout with every box allowed, the plan is made by the first try
      and no such layout is better in height, badness and width, in that order. */
  ghost predicate FirstTryBest(W: real, R: Limit, eps: real, f: real)
  {
    forall d, r :: WellFormed(d) && FractionsFrom(d, f) && OffersWithin(d, r, TryEnv(0, W, R, eps)) ==>
                     FirstBeats(d, r, W, R, eps)
  }

  predicate FirstBeats(d: Doc, r: Layout, W: real, R: Limit, eps: real)
    requires WellFormed(d)
  {
    var ch := Chosen(d, 0, W, R, eps);
    ch.Some? && ch.value.attempt == 0 &&
    var best := ch.value.c.r;
    !LexLess(Height(r) as real, Badness(r) as real, Widest(r), Height(best) as real, Badness(best) as real, Widest(best))
  }

  /** Neither slack nor ribbon can lose a layout: eps is 0, and neither the ribbon nor its least
      fraction is narrower than the page. On a page of no width there is nothing for eps to lose,
      and on one of less nothing at all. */
  predicate NothingInTheWay(W: real, R: Limit, eps: real, f: real)
  {
    W < 0.0 || (Within(W, R) && Within(W, Fraction(R, f)) && (eps == 0.0 || W == 0.0))
  }

  lemma {:induction false} FractionsIdle(d: Doc, W: real, R: Limit, f: real)
    requires WellFormed(d) && FractionsFrom(d, f) && 0.0 <= W && Within(W, R) && Within(W, Fraction(R, f))
    ensures RibbonIdle(d, W, R)
  {
    match d
    case Text(_, _, _, _, _) =>
    case Cat(_, kids) =>
      forall i | 0 <= i < |kids| ensures RibbonIdle(kids[i], W, R) { FractionsIdle(kids[i], W, R, f); }
    case Flush(_, a, _) => FractionsIdle(a, W, R, f);
    case Or(_, a, b) =>
      FractionsIdle(a, W, R, f);
      FractionsIdle(b, W, R, f);
    case One(_, a, max) =>
      FractionsIdle(a, W, R, f);
      if R.Finite? { assert f * R.bound <= max * R.bound; }
  }

  lemma ExactBeats(d: Doc, r: Layout, W: real, R: Limit)
    requires WellFormed(d) && RibbonFree(d, W, R) && OffersWithin(d, r, TryEnv(0, W, R, 0.0))
    ensures FirstBeats(d, r, W, R, 0.0) && Frontier(d, TryEnv(0, W, R, 0.0)) != []
  {
    hide Frontier, RowFrontier, OffersWithin, Offers, Passes, Lines, MaxEnd, CostOf, RibbonIdle, LexLess, FirstBest;
    var E := TryEnv(1, W, R, 0.0);
    RibbonFreeSame(d, W, R, 0.0);
    WithinOffered(d, r, TryEnv(0, W, R, 0.0));
    CostIsDrawn(r);
    RoomFits(r, Passes(d), E, W);
    var c := FrontierNear(d, E, r);
    PlanOptimal(d, W, R, 0.0, r);
  }

  lemma IdleBeats(d: Doc, r: Layout, W: real, R: Limit, eps: real, f: real)
    requires WellFormed(d) && FractionsFrom(d, f) && NothingInTheWay(W, R, eps, f) && 0.0 <= eps
    requires OffersWithin(d, r, TryEnv(0, W, R, eps))
    ensures FirstBeats(d, r, W, R, eps) && Frontier(d, TryEnv(0, W, R, eps)) != []
  {
    hide Frontier, RowFrontier, OffersWithin, Offers, Lines, MaxEnd, CostOf, RibbonIdle, LexLess, FirstBest;
    var E, E0 := TryEnv(0, W, R, eps), TryEnv(0, W, R, 0.0);
    WithinOffered(d, r, E);
    OneLineCost(r);
    FractionsIdle(d, W, R, f);
    WithinSame(d, r, E, E0);
    ExactBeats(d, r, W, R);
    if eps != 0.0 {
      NoWidthSame(d, E);
      assert E.(eps := 0.0) == E0;
    }
  }

  /** What is offered does not depend on eps. */
  lemma {:induction false} WithinSame(d: Doc, r: Layout, E: Env, E': Env)
    requires WellFormed(d) && E.W == E'.W && E.R == E'.R && OffersWithin(d, r, E)
    ensures OffersWithin(d, r, E')
    decreases d, if d.Cat? then |d.kids| + 1 else 0
  {
    match d
    case Text(_, _, _, _, _) =>
    case Cat(_, kids) => RowWithinSame(d, |kids|, r, E, E');
    case Flush(_, a, at) => WithinSame(a, r.box, E, E');
    case Or(_, a, b) =>
      if OffersWithin(a, r, E) { WithinSame(a, r, E, E'); } else { WithinSame(b, r, E, E'); }
    case One(_, a, max) => WithinSame(a, r, E, E');
  }

  lemma {:induction false} RowWithinSame(d: Doc, n: nat, r: Layout, E: Env, E': Env)
    requires WellFormed(d) && d.Cat? && 0 < n <= |d.kids| && E.W == E'.W && E.R == E'.R && OffersRowWithin(d, n, r, E)
    ensures OffersRowWithin(d, n, r, E')
    decreases d, n
  {
    if n == 1 {
      WithinSame(d.kids[0], r, E, E');
    } else {
      RowWithinSame(d, n - 1, r.left, E, E');
      WithinSame(d.kids[n - 1], r.right, E, E');
    }
  }

  predicate NoWidths(cs: seq<Candidate>)
  {
    forall i :: 0 <= i < |cs| ==> cs[i].mw == 0.0 && cs[i].lw == 0.0
  }

  lemma {:induction false} KeptNoWidth(s: seq<Candidate>, eps: real)
    requires NoWidths(s) && 0.0 <= eps
    ensures Kept(s, eps) == Kept(s, 0.0)
  {
    if s != [] {
      var rest := s[..|s| - 1];
      KeptNoWidth(rest, eps);
      forall i | 0 <= i < |Kept(rest, eps)| ensures Kept(rest, eps)[i] in rest { KeptMembers(rest, eps, Kept(rest, eps)[i]); }
    }
  }

  lemma ParetoNoWidth(cs: seq<Candidate>, eps: real)
    requires NoWidths(cs) && 0.0 <= eps
    ensures Pareto(cs, eps) == Pareto(cs, 0.0)
  {
    var s := Sort(cs);
    forall i | 0 <= i < |s| ensures s[i] in cs { SortMembers(cs, s[i]); }
    KeptNoWidth(s, eps);
  }

  lemma FrontierNoWidth(d: Doc, E: Env)
    requires WellFormed(d) && E.W == Finite(0.0)
    ensures NoWidths(Frontier(d, E))
  {
    var F := Frontier(d, E);
    forall i | 0 <= i < |F| ensures F[i].mw == 0.0 && F[i].lw == 0.0 {
      FrontierSound(d, E, F[i]);
      OneLineCost(F[i].r);
    }
  }

  /** On a page of no width eps makes no difference. */
  lemma {:induction false} NoWidthSame(d: Doc, E: Env)
    requires WellFormed(d) && E.W == Finite(0.0) && 0.0 <= E.eps
    ensures Frontier(d, E) == Frontier(d, E.(eps := 0.0))
    decreases d, if d.Cat? then |d.kids| + 1 else 0
  {
    hide Pareto;
    match d
    case Text(_, _, _, _, _) =>
    case Cat(_, kids) => RowNoWidthSame(d, |kids|, E);
    case Flush(_, a, at) =>
      NoWidthSame(a, E);
      FrontierNoWidth(a, E);
      ParetoNoWidth(FlushEach(Frontier(a, E), at), E.eps);
    case Or(_, a, b) =>
      NoWidthSame(a, E);
      NoWidthSame(b, E);
      FrontierNoWidth(a, E);
      FrontierNoWidth(b, E);
      ParetoNoWidth(Frontier(a, E) + Frontier(b, E), E.eps);
    case One(_, a, max) => NoWidthSame(a, E);
  }

  lemma {:induction false} RowNoWidthSame(d: Doc, n: nat, E: Env)
    requires WellFormed(d) && d.Cat? && 0 < n <= |d.kids| && E.W == Finite(0.0) && 0.0 <= E.eps
    ensures RowFrontier(d, n, E) == RowFrontier(d, n, E.(eps := 0.0)) && NoWidths(RowFrontier(d, n, E))
    decreases d, n
  {
    hide Pareto;
    var E0 := E.(eps := 0.0);
    NoWidthSame(d.kids[n - 1], E);
    FrontierNoWidth(d.kids[n - 1], E);
    if n > 1 {
      RowNoWidthSame(d, n - 1, E);
      var F, K := RowFrontier(d, n - 1, E), Frontier(d.kids[n - 1], E);
      ProductsSame(F, K, E);
      var P := Products(F, K, E);
      forall i | 0 <= i < |P| ensures P[i].mw == 0.0 && P[i].lw == 0.0 { ProductMembers(F, K, E, P[i]); }
      ParetoNoWidth(P, E.eps);
      var G := Pareto(P, E.eps);
      forall i | 0 <= i < |G| ensures G[i] in P { ParetoMembers(P, E.eps, G[i]); }
      assert RowFrontier(d, n, E) == G;
      assert RowFrontier(d, n, E0) == Pareto(Products(F, K, E0), 0.0);
    }
  }

  lemma {:induction false} JoinEachSame(x: Candidate, K: seq<Candidate>, E: Env)
    ensures JoinEach(x, K, E) == JoinEach(x, K, E.(eps := 0.0))
  {
    if K != [] { JoinEachSame(x, K[..|K| - 1], E); }
  }

  lemma {:induction false} ProductsSame(F: seq<Candidate>, K: seq<Candidate>, E: Env)
    ensures Products(F, K, E) == Products(F, K, E.(eps := 0.0))
  {
    if F != [] {
      ProductsSame(F[..|F| - 1], K, E);
      JoinEachSame(F[|F| - 1], K, E);
    }
  }

  /** The first try finds a layout for every document with one allowed in every box, and so do its
      plans turn out best, exactly if nothing is in the way: otherwise it loses a layout of some
      document whose fractions of the ribbon are at least f. */
  lemma FirstTryIff(W: real, R: Limit, eps: real, f: real)
    requires 0.0 <= eps && 0.0 < f
    ensures FirstTryFinds(W, R, eps, f) <==> NothingInTheWay(W, R, eps, f)
    ensures FirstTryBest(W, R, eps, f) <==> NothingInTheWay(W, R, eps, f)
  {
    hide Frontier, OffersWithin, WellFormed, FractionsFrom, LexLess, FirstBest;
    var E := TryEnv(0, W, R, eps);
    if NothingInTheWay(W, R, eps, f) {
      forall d, r | WellFormed(d) && FractionsFrom(d, f) && OffersWithin(d, r, E)
        ensures FirstBeats(d, r, W, R, eps) && Frontier(d, E) != []
      {
        IdleBeats(d, r, W, R, eps, f);
      }
    } else {
      var d := LostDocument(W, R, eps, f);
      var r :| OffersWithin(d, r, E);
      ChosenLater(d, W, R, eps);
      assert !FirstBeats(d, r, W, R, eps);
    }
  }

  lemma LostDocument(W: real, R: Limit, eps: real, f: real) returns (d: Doc)
    requires 0.0 <= eps && 0.0 < f && !NothingInTheWay(W, R, eps, f)
    ensures Lost(d, f, TryEnv(0, W, R, eps))
  {
    var E := TryEnv(0, W, R, eps);
    if !Within(W, R) {
      d := RibbonLosesBroken(f, E);
    } else if !Within(W, Fraction(R, f)) {
      d := FractionLosesToken(f, E);
    } else {
      d := SlackLosesLayout(f, E);
    }
  }

  lemma ChosenLater(d: Doc, W: real, R: Limit, eps: real)
    requires WellFormed(d) && Frontier(d, TryEnv(0, W, R, eps)) == []
    ensures Chosen(d, 0, W, R, eps) == Chosen(d, 1, W, R, eps)
  {
  }
}
