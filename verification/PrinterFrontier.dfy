/** The frontier each document gets, as plain recursion, and what it keeps of all the
    layouts the document offers. */
module PrinterFrontier {
  import opened PrinterLayouts

  datatype Limit = Infinite | Finite(bound: real)

  /** The page width, the ribbon, and the width difference that counts as none. */
  datatype Env = Env(W: Limit, R: Limit, eps: real)

  /** A layout with its measures: lines after the first, widest line, last line, badness,
      whether it is one token, and how it was made. */
  datatype Candidate = Candidate(h: nat, mw: real, lw: real, b: nat, u: bool, r: Layout)

  predicate Within(w: real, limit: Limit)
  {
    limit.Infinite? || w <= limit.bound
  }

  function Fraction(limit: Limit, of: real): Limit
  {
    if limit.Infinite? then Infinite else Finite(of * limit.bound)
  }

  predicate Dominates(a: Candidate, b: Candidate, eps: real)
  {
    a.h <= b.h && a.b <= b.b && a.mw <= b.mw + eps && a.lw <= b.lw + eps
  }

  predicate Valid(m: Candidate, E: Env)
  {
    Within(m.mw, E.W) && (m.h > 0 || m.u || Within(m.mw, E.R))
  }

  /** The order candidates are sorted in before the frontier is taken. */
  predicate Less(a: Candidate, b: Candidate)
  {
    a.h < b.h || (a.h == b.h &&
    (a.b < b.b || (a.b == b.b &&
    (a.mw < b.mw || (a.mw == b.mw && a.lw < b.lw)))))
  }

  predicate Sorted(s: seq<Candidate>)
  {
    forall i, j :: 0 <= i < j < |s| ==> !Less(s[j], s[i])
  }

  function Insert(s: seq<Candidate>, c: Candidate): (r: seq<Candidate>)
    ensures multiset(r) == multiset(s) + multiset{c}
  {
    if s == [] || !Less(c, s[|s| - 1]) then s + [c]
    else
      assert s == s[..|s| - 1] + [s[|s| - 1]];
      Insert(s[..|s| - 1], c) + [s[|s| - 1]]
  }

  /** The effect of the stable sort of the host language. */
  function Sort(cs: seq<Candidate>): (s: seq<Candidate>)
    ensures multiset(s) == multiset(cs)
  {
    if cs == [] then []
    else
      assert cs == cs[..|cs| - 1] + [cs[|cs| - 1]];
      Insert(Sort(cs[..|cs| - 1]), cs[|cs| - 1])
  }

  predicate SomeDominates(out: seq<Candidate>, c: Candidate, eps: real)
  {
    exists i :: 0 <= i < |out| && Dominates(out[i], c, eps)
  }

  /** What a pass over sorted candidates keeps: those no earlier kept one dominates. */
  function Kept(s: seq<Candidate>, eps: real): seq<Candidate>
  {
    if s == [] then []
    else
      var k := Kept(s[..|s| - 1], eps);
      if SomeDominates(k, s[|s| - 1], eps) then k else k + [s[|s| - 1]]
  }

  function Pareto(cs: seq<Candidate>, eps: real): seq<Candidate>
  {
    Kept(Sort(cs), eps)
  }

  /** Two candidates set one after the other. */
  function Join(x: Candidate, y: Candidate): Candidate
  {
    Candidate(x.h + y.h, Max(x.mw, x.lw + y.mw), x.lw + y.lw, x.b + y.b, false, Beside(x.r, y.r))
  }

  function JoinEach(x: Candidate, K: seq<Candidate>, E: Env): seq<Candidate>
  {
    if K == [] then []
    else
      var m := Join(x, K[|K| - 1]);
      JoinEach(x, K[..|K| - 1], E) + (if Valid(m, E) then [m] else [])
  }

  function Products(F: seq<Candidate>, K: seq<Candidate>, E: Env): seq<Candidate>
  {
    if F == [] then [] else Products(F[..|F| - 1], K, E) + JoinEach(F[|F| - 1], K, E)
  }

  function FlushEach(F: seq<Candidate>, at: Mark): (G: seq<Candidate>)
    ensures |G| == |F|
    ensures forall i :: 0 <= i < |G| ==>
              G[i] == Candidate(F[i].h + 1, F[i].mw, 0.0, F[i].b, false, Broken(F[i].r, at))
  {
    seq(|F|, i requires 0 <= i < |F| =>
          Candidate(F[i].h + 1, F[i].mw, 0.0, F[i].b, false, Broken(F[i].r, at)))
  }

  predicate OnOneLineWithin(x: Candidate, max: real, R: Limit)
  {
    x.h == 0 && (x.u || Within(x.mw, Fraction(R, max)))
  }

  function OneLiners(F: seq<Candidate>, max: real, R: Limit): seq<Candidate>
  {
    if F == [] then []
    else
      OneLiners(F[..|F| - 1], max, R) +
      (if OnOneLineWithin(F[|F| - 1], max, R) then [F[|F| - 1]] else [])
  }

  function TokenCandidate(d: Doc): Candidate
    requires d.Text?
  {
    Candidate(0, d.w, d.w, d.bad, d.unit, Tok(d.w, d.sp, d.unit, d.bad))
  }

  function Frontier(d: Doc, E: Env): seq<Candidate>
    requires WellFormed(d)
    decreases d, if d.Cat? then |d.kids| + 1 else 0
  {
    match d
    case Text(_, _, _, _, _) => if Valid(TokenCandidate(d), E) then [TokenCandidate(d)] else []
    case Cat(_, kids) => RowFrontier(d, |kids|, E)
    case Flush(_, a, at) => Pareto(FlushEach(Frontier(a, E), at), E.eps)
    case Or(_, a, b) => Pareto(Frontier(a, E) + Frontier(b, E), E.eps)
    case One(_, a, max) => OneLiners(Frontier(a, E), max, E.R)
  }

  function RowFrontier(d: Doc, n: nat, E: Env): seq<Candidate>
    requires WellFormed(d) && d.Cat? && 0 < n <= |d.kids|
    decreases d, n
  {
    if n == 1 then Frontier(d.kids[0], E)
    else Pareto(Products(RowFrontier(d, n - 1, E), Frontier(d.kids[n - 1], E), E), E.eps)
  }

  // ----- Sorting and keeping -----

  lemma {:induction false} InsertSorts(s: seq<Candidate>, c: Candidate)
    requires Sorted(s)
    ensures Sorted(Insert(s, c))
  {
    if s != [] && Less(c, s[|s| - 1]) {
      var rest, last := s[..|s| - 1], s[|s| - 1];
      InsertSorts(rest, c);
      var r := Insert(rest, c);
      forall i | 0 <= i < |r| ensures !Less(last, r[i]) {
        assert r[i] in multiset(r);
      }
    }
  }

  lemma {:induction false} SortSorts(cs: seq<Candidate>)
    ensures Sorted(Sort(cs))
  {
    if cs != [] {
      SortSorts(cs[..|cs| - 1]);
      InsertSorts(Sort(cs[..|cs| - 1]), cs[|cs| - 1]);
    }
  }

  lemma SortMembers(cs: seq<Candidate>, c: Candidate)
    ensures c in Sort(cs) <==> c in cs
  {
    assert c in multiset(Sort(cs)) <==> c in multiset(cs);
  }

  lemma {:induction false} KeptMembers(s: seq<Candidate>, eps: real, c: Candidate)
    requires c in Kept(s, eps)
    ensures c in s
  {
    if c in Kept(s[..|s| - 1], eps) {
      KeptMembers(s[..|s| - 1], eps, c);
    }
  }

  lemma {:induction false} KeptCovers(s: seq<Candidate>, eps: real, c: Candidate) returns (o: Candidate)
    requires 0.0 <= eps && c in s
    ensures o in Kept(s, eps) && Dominates(o, c, eps)
  {
    var k := Kept(s[..|s| - 1], eps);
    if c in s[..|s| - 1] {
      o := KeptCovers(s[..|s| - 1], eps, c);
    } else if SomeDominates(k, c, eps) {
      var i :| 0 <= i < |k| && Dominates(k[i], c, eps);
      o := k[i];
    } else {
      o := c;
    }
  }

  /** Every candidate is dominated, within eps, by one the frontier keeps. */
  lemma ParetoCovers(cs: seq<Candidate>, eps: real, c: Candidate) returns (o: Candidate)
    requires 0.0 <= eps && c in cs
    ensures o in Pareto(cs, eps) && Dominates(o, c, eps)
  {
    SortMembers(cs, c);
    o := KeptCovers(Sort(cs), eps, c);
  }

  lemma ParetoMembers(cs: seq<Candidate>, eps: real, c: Candidate)
    requires c in Pareto(cs, eps)
    ensures c in cs
  {
    KeptMembers(Sort(cs), eps, c);
    SortMembers(cs, c);
  }

  predicate NoneDominatesLater(k: seq<Candidate>, eps: real)
  {
    forall i, j :: 0 <= i < j < |k| ==> !Dominates(k[i], k[j], eps)
  }

  /** In order, and no earlier candidate dominates a later one. */
  predicate Forward(k: seq<Candidate>, eps: real)
  {
    Sorted(k) && NoneDominatesLater(k, eps)
  }

  lemma {:induction false} KeptForward(s: seq<Candidate>, eps: real)
    requires Sorted(s)
    ensures Forward(Kept(s, eps), eps)
  {
    if s != [] {
      var rest := s[..|s| - 1];
      KeptForward(rest, eps);
      var k := Kept(rest, eps);
      forall i | 0 <= i < |k| ensures !Less(s[|s| - 1], k[i]) {
        KeptMembers(rest, eps, k[i]);
      }
    }
  }

  lemma ParetoForward(cs: seq<Candidate>, eps: real)
    ensures Forward(Pareto(cs, eps), eps)
  {
    SortSorts(cs);
    KeptForward(Sort(cs), eps);
  }

  // ----- Members of the combined candidate lists -----

  lemma {:induction false} JoinEachMembers(x: Candidate, K: seq<Candidate>, E: Env, m: Candidate)
    ensures m in JoinEach(x, K, E) <==> Valid(m, E) && exists y :: y in K && m == Join(x, y)
  {
    if K != [] {
      JoinEachMembers(x, K[..|K| - 1], E, m);
      assert K == K[..|K| - 1] + [K[|K| - 1]];
    }
  }

  lemma {:induction false} ProductMembers(F: seq<Candidate>, K: seq<Candidate>, E: Env, m: Candidate)
    ensures m in Products(F, K, E) <==>
            Valid(m, E) && exists x, y :: x in F && y in K && m == Join(x, y)
  {
    if F != [] {
      ProductMembers(F[..|F| - 1], K, E, m);
      JoinEachMembers(F[|F| - 1], K, E, m);
      assert F == F[..|F| - 1] + [F[|F| - 1]];
    }
  }

  lemma {:induction false} OneLinerMembers(F: seq<Candidate>, max: real, R: Limit, c: Candidate)
    ensures c in OneLiners(F, max, R) <==> c in F && OnOneLineWithin(c, max, R)
  {
    if F != [] {
      OneLinerMembers(F[..|F| - 1], max, R, c);
      assert F == F[..|F| - 1] + [F[|F| - 1]];
    }
  }

  // ----- Soundness -----

  /** A box the width and the ribbon allow. */
  predicate Allowed(r: Layout, E: Env)
  {
    var m := CostOf(r);
    Within(m.mw, E.W) && (m.h > 0 || IsToken(r) || Within(m.mw, E.R))
  }

  /** Which layouts a document offers with every token, every row and every box kept on one line
      allowed by the width and the ribbon. */
  predicate OffersWithin(d: Doc, r: Layout, E: Env)
    requires WellFormed(d)
    decreases d, if d.Cat? then |d.kids| + 1 else 0
  {
    match d
    case Text(_, w, sp, unit, bad) => r == Tok(w, sp, unit, bad) && Allowed(r, E)
    case Cat(_, kids) => OffersRowWithin(d, |kids|, r, E)
    case Flush(_, a, at) => r.Broken? && r.at == at && OffersWithin(a, r.box, E)
    case Or(_, a, b) => OffersWithin(a, r, E) || OffersWithin(b, r, E)
    case One(_, a, max) =>
      OffersWithin(a, r, E) && OnOneLine(r) && (IsToken(r) || Within(CostOf(r).mw, Fraction(E.R, max)))
  }

  predicate OffersRowWithin(d: Doc, n: nat, r: Layout, E: Env)
    requires WellFormed(d) && d.Cat? && 0 < n <= |d.kids|
    decreases d, n
  {
    if n == 1 then OffersWithin(d.kids[0], r, E)
    else
      r.Beside? && OffersRowWithin(d, n - 1, r.left, E) && OffersWithin(d.kids[n - 1], r.right, E) &&
      Allowed(r, E)
  }

  /** A layout with every box allowed is offered, and itself allowed. */
  lemma {:induction false} WithinOffered(d: Doc, r: Layout, E: Env)
    requires WellFormed(d) && OffersWithin(d, r, E)
    ensures Offers(d, r) && Allowed(r, E)
    decreases d, if d.Cat? then |d.kids| + 1 else 0
  {
    match d
    case Text(_, _, _, _, _) =>
    case Cat(_, kids) => RowWithinOffered(d, |kids|, r, E);
    case Flush(_, a, at) => WithinOffered(a, r.box, E);
    case Or(_, a, b) =>
      if OffersWithin(a, r, E) { WithinOffered(a, r, E); } else { WithinOffered(b, r, E); }
    case One(_, a, max) => WithinOffered(a, r, E);
  }

  lemma {:induction false} RowWithinOffered(d: Doc, n: nat, r: Layout, E: Env)
    requires WellFormed(d) && d.Cat? && 0 < n <= |d.kids| && OffersRowWithin(d, n, r, E)
    ensures OffersRow(d, n, r) && Allowed(r, E)
    decreases d, n
  {
    if n == 1 {
      WithinOffered(d.kids[0], r, E);
    } else {
      RowWithinOffered(d, n - 1, r.left, E);
      WithinOffered(d.kids[n - 1], r.right, E);
    }
  }

  /** A candidate's numbers are those of the drawing of its layout. */
  predicate Measured(c: Candidate)
  {
    Cost(c.h, c.mw, c.lw, c.b) == CostOf(c.r) && c.u == IsToken(c.r)
  }

  /** Every candidate of a frontier carries the measures of its drawing and is a layout the
      document offers with every box allowed. */
  lemma FrontierSound(d: Doc, E: Env, c: Candidate)
    requires WellFormed(d) && c in Frontier(d, E)
    ensures OffersWithin(d, c.r, E) && Offers(d, c.r) && Measured(c) && Valid(c, E)
  {
    FrontierWithin(d, E, c);
    WithinOffered(d, c.r, E);
  }

  lemma {:induction false} FrontierWithin(d: Doc, E: Env, c: Candidate)
    requires WellFormed(d) && c in Frontier(d, E)
    ensures OffersWithin(d, c.r, E) && Measured(c)
    decreases d, if d.Cat? then |d.kids| + 1 else 0
  {
    match d
    case Text(_, _, _, _, _) =>
    case Cat(_, kids) =>
      RowWithin(d, |kids|, E, c);
    case Flush(_, a, at) =>
      var F := Frontier(a, E);
      ParetoMembers(FlushEach(F, at), E.eps, c);
      var i :| 0 <= i < |F| && FlushEach(F, at)[i] == c;
      FrontierWithin(a, E, F[i]);
    case Or(_, a, b) =>
      ParetoMembers(Frontier(a, E) + Frontier(b, E), E.eps, c);
      if c in Frontier(a, E) { FrontierWithin(a, E, c); } else { FrontierWithin(b, E, c); }
    case One(_, a, max) =>
      OneLinerMembers(Frontier(a, E), max, E.R, c);
      FrontierWithin(a, E, c);
      OneLineCost(c.r);
  }

  lemma {:induction false} RowWithin(d: Doc, n: nat, E: Env, c: Candidate)
    requires WellFormed(d) && d.Cat? && 0 < n <= |d.kids| && c in RowFrontier(d, n, E)
    ensures OffersRowWithin(d, n, c.r, E) && Measured(c)
    decreases d, n
  {
    if n == 1 {
      FrontierWithin(d.kids[0], E, c);
    } else {
      var F, K := RowFrontier(d, n - 1, E), Frontier(d.kids[n - 1], E);
      var x, y := JoinedFrom(F, K, E, c);
      RowWithin(d, n - 1, E, x);
      FrontierWithin(d.kids[n - 1], E, y);
      JoinMeasured(x, y);
    }
  }

  lemma JoinedFrom(F: seq<Candidate>, K: seq<Candidate>, E: Env, c: Candidate) returns (x: Candidate, y: Candidate)
    requires c in Pareto(Products(F, K, E), E.eps)
    ensures x in F && y in K && c == Join(x, y) && Valid(c, E)
  {
    ParetoMembers(Products(F, K, E), E.eps, c);
    ProductMembers(F, K, E, c);
    x, y :| x in F && y in K && c == Join(x, y);
  }

  lemma JoinMeasured(x: Candidate, y: Candidate)
    requires Measured(x) && Measured(y)
    ensures Measured(Join(x, y))
  {
  }

  // ----- Near-optimality -----

  /** How many times a layout's candidate passes through a frontier, along the deepest
      alternatives: the number of comparisons within eps that can pile up. */
  function Passes(d: Doc): nat
    requires WellFormed(d)
    decreases d, if d.Cat? then |d.kids| + 1 else 0
  {
    match d
    case Text(_, _, _, _, _) => 0
    case Cat(_, kids) => RowPasses(d, |kids|)
    case Flush(_, a, _) => Passes(a) + 1
    case Or(_, a, b) => (if Passes(a) < Passes(b) then Passes(b) else Passes(a)) + 1
    case One(_, a, _) => Passes(a)
  }

  function RowPasses(d: Doc, n: nat): nat
    requires WellFormed(d) && d.Cat? && 0 < n <= |d.kids|
    decreases d, n
  {
    if n == 1 then Passes(d.kids[0]) else RowPasses(d, n - 1) + Passes(d.kids[n - 1]) + 1
  }

  /** n passes of slack eps each. */
  function Slack(n: nat, eps: real): real
  {
    if n == 0 then 0.0 else Slack(n - 1, eps) + eps
  }

  lemma {:induction false} SlackIsProduct(n: nat, eps: real)
    ensures Slack(n, eps) == n as real * eps
  {
    if n > 0 {
      SlackIsProduct(n - 1, eps);
      var k := (n - 1) as real;
      assert n as real == k + 1.0;
      assert (k + 1.0) * eps == k * eps + eps;
    }
  }

  lemma {:induction false} SlackSum(m: nat, n: nat, eps: real)
    ensures Slack(m + n, eps) == Slack(m, eps) + Slack(n, eps)
  {
    if n > 0 { SlackSum(m, n - 1, eps); }
  }

  lemma {:induction false} SlackGrows(m: nat, n: nat, eps: real)
    requires m <= n && 0.0 <= eps
    ensures 0.0 <= Slack(m, eps) <= Slack(n, eps)
  {
    if m < n {
      SlackGrows(m, n - 1, eps);
    } else if m > 0 {
      SlackGrows(m - 1, m - 1, eps);
    }
  }

  /** A candidate no taller and no worse than a layout, and wider by at most n times eps. */
  predicate Near(c: Candidate, r: Layout, n: nat, eps: real)
  {
    var m := CostOf(r);
    c.h <= m.h && c.b <= m.b && c.mw <= m.mw + Slack(n, eps) && c.lw <= m.lw + Slack(n, eps)
  }

  /** A layout that stays within the width even n times eps wider. */
  predicate Fits(r: Layout, n: nat, E: Env)
  {
    Within(CostOf(r).mw + Slack(n, E.eps), E.W)
  }

  lemma NearThroughPareto(cs: seq<Candidate>, eps: real, m: Candidate, r: Layout, n: nat) returns (c: Candidate)
    requires 0.0 <= eps && m in cs && Near(m, r, n, eps)
    ensures c in Pareto(cs, eps) && Near(c, r, n + 1, eps)
  {
    c := ParetoCovers(cs, eps, m);
  }

  /** Without a ribbon, every offered layout that leaves room for the slack has a frontier
      candidate near it: no taller, no worse, and wider by at most the slack. */
  lemma {:induction false} FrontierNear(d: Doc, E: Env, r: Layout) returns (c: Candidate)
    requires WellFormed(d) && Offers(d, r) && E.R.Infinite? && 0.0 <= E.eps
    requires Fits(r, Passes(d), E)
    ensures c in Frontier(d, E) && Near(c, r, Passes(d), E.eps)
    decreases d, if d.Cat? then |d.kids| + 1 else 0
  {
    hide Pareto, RowFrontier, OffersRow, RowPasses;
    match d
    case Text(_, _, _, _, _) =>
      c := TokenCandidate(d);
    case Cat(_, kids) =>
      c := RowNear(d, |kids|, E, r);
    case Flush(_, a, at) =>
      SlackGrows(Passes(a), Passes(a) + 1, E.eps);
      var x := FrontierNear(a, E, r.box);
      var F := Frontier(a, E);
      var i :| 0 <= i < |F| && F[i] == x;
      var m := FlushEach(F, at)[i];
      c := NearThroughPareto(FlushEach(F, at), E.eps, m, r, Passes(a));
    case Or(_, a, b) =>
      var side := if Offers(a, r) then a else b;
      SlackGrows(Passes(side), Passes(d) - 1, E.eps);
      SlackGrows(Passes(side), Passes(d), E.eps);
      var x := FrontierNear(side, E, r);
      c := NearThroughPareto(Frontier(a, E) + Frontier(b, E), E.eps, x, r, Passes(d) - 1);
    case One(_, a, max) =>
      c := FrontierNear(a, E, r);
      OneLineCost(r);
      OneLinerMembers(Frontier(a, E), max, E.R, c);
  }

  lemma {:induction false} RowNear(d: Doc, n: nat, E: Env, r: Layout) returns (c: Candidate)
    requires WellFormed(d) && d.Cat? && 0 < n <= |d.kids| && OffersRow(d, n, r)
    requires E.R.Infinite? && 0.0 <= E.eps
    requires Fits(r, RowPasses(d, n), E)
    ensures c in RowFrontier(d, n, E) && Near(c, r, RowPasses(d, n), E.eps)
    decreases d, n
  {
    if n == 1 {
      c := FrontierNear(d.kids[0], E, r);
    } else {
      var p, q := RowPasses(d, n - 1), Passes(d.kids[n - 1]);
      assert RowPasses(d, n) == p + q + 1;
      PartsFit(r, p, q, E);
      var x := RowNear(d, n - 1, E, r.left);
      var y := FrontierNear(d.kids[n - 1], E, r.right);
      var F, K := RowFrontier(d, n - 1, E), Frontier(d.kids[n - 1], E);
      assert RowFrontier(d, n, E) == Pareto(Products(F, K, E), E.eps);
      c := JoinNear(F, K, E, r, x, y, p, q);
    }
  }

  /** The parts of a row that fits fit as well, slack included. */
  lemma PartsFit(r: Layout, p: nat, q: nat, E: Env)
    requires r.Beside? && 0.0 <= E.eps && Fits(r, p + q + 1, E)
    ensures Fits(r.left, p, E)
    ensures Fits(r.right, q, E)
    ensures Fits(r, p + q, E)
  {
    OneLineCost(r.left);
    SlackGrows(p, p + q + 1, E.eps);
    SlackGrows(q, p + q + 1, E.eps);
    SlackGrows(p + q, p + q + 1, E.eps);
  }

  lemma JoinNear(F: seq<Candidate>, K: seq<Candidate>, E: Env, r: Layout, x: Candidate, y: Candidate, p: nat, q: nat)
    returns (c: Candidate)
    requires r.Beside? && E.R.Infinite? && 0.0 <= E.eps
    requires Fits(r, p + q, E)
    requires x in F && Near(x, r.left, p, E.eps)
    requires y in K && Near(y, r.right, q, E.eps)
    ensures c in Pareto(Products(F, K, E), E.eps) && Near(c, r, p + q + 1, E.eps)
  {
    SlackSum(p, q, E.eps);
    SlackGrows(0, p, E.eps);
    SlackGrows(0, q, E.eps);
    var m := Join(x, y);
    assert Near(m, r, p + q, E.eps);
    ProductMembers(F, K, E, m);
    c := NearThroughPareto(Products(F, K, E), E.eps, m, r, p + q);
  }
}
