/** Which layouts the documents of groups and chains offer. */
module PrinterOffers {
  import opened Wrappers
  import opened PrinterLayouts
  import opened PrinterShapes

  /** Layouts one after the other. */
  function RowOf(ls: seq<Layout>): Layout
    requires ls != []
  {
    if |ls| == 1 then ls[0] else Beside(RowOf(ls[..|ls| - 1]), ls[|ls| - 1])
  }

  ghost predicate AllWellFormed(ds: seq<Doc>)
  {
    forall i :: 0 <= i < |ds| ==> WellFormed(ds[i])
  }

  /** A layout of each document. */
  ghost predicate AllOffer(ds: seq<Doc>, ls: seq<Layout>)
    requires AllWellFormed(ds)
  {
    |ls| == |ds| && forall i :: 0 <= i < |ds| ==> Offers(ds[i], ls[i])
  }

  lemma CatWellFormed(ds: seq<Doc>)
    requires ds != [] && AllWellFormed(ds)
    ensures WellFormed(CatOf(ds))
  {
  }

  /** A row offers exactly the layouts of its parts, one after the other. */
  lemma CatLayouts(ds: seq<Doc>, r: Layout)
    requires ds != [] && AllWellFormed(ds)
    ensures WellFormed(CatOf(ds)) && (Offers(CatOf(ds), r) <==> exists ls :: AllOffer(ds, ls) && ls != [] && r == RowOf(ls))
  {
    CatWellFormed(ds);
    if |ds| == 1 {
      if Offers(ds[0], r) {
        assert AllOffer(ds, [r]) && RowOf([r]) == r;
      }
    } else {
      var d := Cat(0, ds);
      if Offers(d, r) {
        var ls := RowTaken(d, |ds|, r);
        assert ds[..|ds|] == ds;
        assert AllOffer(ds, ls);
      }
      if ls :| AllOffer(ds, ls) && ls != [] && r == RowOf(ls) {
        RowGiven(d, |ds|, ls);
        assert ls[..|ds|] == ls;
      }
    }
  }

  lemma {:induction false} RowTaken(d: Doc, n: nat, r: Layout) returns (ls: seq<Layout>)
    requires WellFormed(d) && d.Cat? && 0 < n <= |d.kids| && OffersRow(d, n, r)
    ensures |ls| == n && r == RowOf(ls) && forall i :: 0 <= i < n ==> Offers(d.kids[i], ls[i])
    decreases n
  {
    if n == 1 {
      ls := [r];
    } else {
      var before := RowTaken(d, n - 1, r.left);
      ls := before + [r.right];
      assert ls[..n - 1] == before;
    }
  }

  lemma {:induction false} RowGiven(d: Doc, n: nat, ls: seq<Layout>)
    requires WellFormed(d) && d.Cat? && 0 < n <= |d.kids| && |ls| >= n && forall i :: 0 <= i < n ==> Offers(d.kids[i], ls[i])
    ensures OffersRow(d, n, RowOf(ls[..n]))
    decreases n
  {
    if n > 1 {
      RowGiven(d, n - 1, ls);
      assert ls[..n][..n - 1] == ls[..n - 1];
    }
  }

  // ----- Stacks and fills -----

  ghost predicate ItemsWellFormed(items: seq<Item>)
  {
    forall i :: 0 <= i < |items| ==> WellFormed(items[i].d)
  }

  /** A layout of each item. */
  ghost predicate ItemsOffer(items: seq<Item>, xs: seq<Layout>)
    requires ItemsWellFormed(items)
  {
    |xs| == |items| && forall i :: 0 <= i < |items| ==> Offers(items[i].d, xs[i])
  }

  /** The first n items on lines of their own, each broken at the mark of the next. */
  function StackLines(items: seq<Item>, xs: seq<Layout>, n: nat): (r: seq<Layout>)
    requires n <= |items| == |xs|
    ensures |r| == n
  {
    if n == 0 then []
    else StackLines(items, xs, n - 1) + [if n < |items| then Broken(xs[n - 1], items[n].at) else xs[n - 1]]
  }

  lemma {:induction false} StackDocsAre(items: seq<Item>, n: nat)
    requires n <= |items|
    ensures |StackDocs(items, n)| == n
    ensures forall i :: 0 <= i < n ==>
              StackDocs(items, n)[i] == if i + 1 < |items| then Flush(0, items[i].d, items[i + 1].at) else items[i].d
  {
    if n > 0 { StackDocsAre(items, n - 1); }
  }

  lemma {:induction false} StackLinesAre(items: seq<Item>, xs: seq<Layout>, n: nat)
    requires n <= |items| == |xs|
    ensures forall i :: 0 <= i < n ==>
              StackLines(items, xs, n)[i] == if i + 1 < |items| then Broken(xs[i], items[i + 1].at) else xs[i]
  {
    if n > 0 { StackLinesAre(items, xs, n - 1); }
  }

  /** A stack is well formed exactly if its items are. */
  lemma StackWellFormed(items: seq<Item>)
    requires items != []
    ensures AllWellFormed(StackDocs(items, |items|)) <==> ItemsWellFormed(items)
    ensures WellFormed(StackOf(items)) <==> ItemsWellFormed(items)
  {
    hide StackDocs, WellFormed;
    var ds := StackDocs(items, |items|);
    StackDocsAre(items, |items|);
    forall i | 0 <= i < |items| ensures WellFormed(ds[i]) <==> WellFormed(items[i].d) {
      assert ds[i] == if i + 1 < |items| then Flush(0, items[i].d, items[i + 1].at) else items[i].d;
      StackDocWellFormed(items, ds, i);
    }
    if AllWellFormed(ds) {
      forall i | 0 <= i < |items| ensures WellFormed(items[i].d) { assert WellFormed(ds[i]); }
    }
    CatIsWellFormed(ds);
  }

  lemma StackDocWellFormed(items: seq<Item>, ds: seq<Doc>, i: nat)
    requires i < |items| == |ds| && ds[i] == if i + 1 < |items| then Flush(0, items[i].d, items[i + 1].at) else items[i].d
    ensures WellFormed(ds[i]) <==> WellFormed(items[i].d)
  {
  }

  lemma CatIsWellFormed(ds: seq<Doc>)
    requires ds != []
    ensures WellFormed(CatOf(ds)) <==> AllWellFormed(ds)
  {
    var c := CatOf(ds);
    if |ds| > 1 { assert c.kids == ds; }
  }

  lemma StackDocsOffer(items: seq<Item>, xs: seq<Layout>)
    requires items != [] && ItemsWellFormed(items) && ItemsOffer(items, xs)
    ensures AllWellFormed(StackDocs(items, |items|)) && AllOffer(StackDocs(items, |items|), StackLines(items, xs, |items|))
  {
    StackWellFormed(items);
    StackDocsAre(items, |items|);
    StackLinesAre(items, xs, |items|);
  }

  lemma StackDocsTaken(items: seq<Item>, ls: seq<Layout>) returns (xs: seq<Layout>)
    requires items != [] && ItemsWellFormed(items) && AllWellFormed(StackDocs(items, |items|)) && AllOffer(StackDocs(items, |items|), ls)
    ensures ItemsOffer(items, xs) && ls == StackLines(items, xs, |items|)
  {
    var ds := StackDocs(items, |items|);
    StackDocsAre(items, |items|);
    forall i | 0 <= i < |items| - 1 ensures ls[i].Broken? && ls[i].at == items[i + 1].at && Offers(items[i].d, ls[i].box) {
      assert ds[i] == Flush(0, items[i].d, items[i + 1].at) && Offers(ds[i], ls[i]);
    }
    xs := seq(|items|, i requires 0 <= i < |items| => if i + 1 < |items| then ls[i].box else ls[i]);
    assert Offers(ds[|items| - 1], ls[|items| - 1]);
    StackLinesAre(items, xs, |items|);
  }

  /** Layouts of the items, stacked. */
  ghost predicate IsStack(items: seq<Item>, r: Layout)
    requires items != [] && ItemsWellFormed(items)
  {
    exists xs :: ItemsOffer(items, xs) && r == RowOf(StackLines(items, xs, |items|))
  }

  /** A stack offers exactly the layouts of its items, each on lines of its own. */
  lemma StackOffers(items: seq<Item>, r: Layout)
    requires items != [] && ItemsWellFormed(items)
    ensures WellFormed(StackOf(items)) && (Offers(StackOf(items), r) <==> IsStack(items, r))
  {
    hide Offers, RowOf, CatOf, WellFormed, StackDocs, StackLines;
    var ds := StackDocs(items, |items|);
    StackWellFormed(items);
    StackDocsAre(items, |items|);
    CatLayouts(ds, r);
    if Offers(StackOf(items), r) {
      var ls :| AllOffer(ds, ls) && ls != [] && r == RowOf(ls);
      var xs := StackDocsTaken(items, ls);
    }
    if xs :| ItemsOffer(items, xs) && r == RowOf(StackLines(items, xs, |items|)) {
      StackDocsOffer(items, xs);
    }
  }

  function TokOf(d: Doc): Layout
    requires d.Text?
  {
    Tok(d.w, d.sp, d.unit, d.bad)
  }

  /** One more item after a layout: on the same line after a space, or broken before and a step in. */
  function Extended(before: Layout, at: Mark, x: Layout, sp: Doc, step: Option<Doc>, broken: bool): Layout
    requires sp.Text? && (step.Some? ==> step.value.Text?)
  {
    if !broken then Beside(Beside(before, TokOf(sp)), x)
    else if step.Some? then Beside(Beside(Broken(before, at), TokOf(step.value)), x)
    else Beside(Broken(before, at), x)
  }

  lemma PairOffers(a: Doc, b: Doc, r: Layout)
    requires WellFormed(a) && WellFormed(b)
    ensures WellFormed(CatOf([a, b]))
    ensures Offers(CatOf([a, b]), r) <==> r.Beside? && Offers(a, r.left) && Offers(b, r.right)
  {
    var d := CatOf([a, b]);
    assert OffersRow(d, 2, r) <==> r.Beside? && OffersRow(d, 1, r.left) && Offers(b, r.right);
  }

  lemma TripleOffers(a: Doc, b: Doc, c: Doc, r: Layout)
    requires WellFormed(a) && WellFormed(b) && WellFormed(c)
    ensures WellFormed(CatOf([a, b, c]))
    ensures Offers(CatOf([a, b, c]), r) <==>
            r.Beside? && r.left.Beside? && Offers(a, r.left.left) && Offers(b, r.left.right) && Offers(c, r.right)
  {
    var d := CatOf([a, b, c]);
    assert OffersRow(d, 3, r) <==> r.Beside? && OffersRow(d, 2, r.left) && Offers(c, r.right);
    if r.Beside? { assert OffersRow(d, 2, r.left) <==> r.left.Beside? && OffersRow(d, 1, r.left.left) && Offers(b, r.left.right); }
  }

  ghost predicate IsExtended(sofar: Doc, item: Item, sp: Doc, step: Option<Doc>, r: Layout)
    requires WellFormed(sofar) && WellFormed(item.d) && sp.Text? && (step.Some? ==> step.value.Text?)
  {
    exists s, x, broken :: Offers(sofar, s) && Offers(item.d, x) && r == Extended(s, item.at, x, sp, step, broken)
  }

  lemma ExtendOffers(sofar: Doc, item: Item, sp: Doc, step: Option<Doc>, r: Layout)
    requires WellFormed(sofar) && WellFormed(item.d) && sp.Text? && (step.Some? ==> step.value.Text?)
    ensures WellFormed(ExtendOf(sofar, item, sp, step))
    ensures Offers(ExtendOf(sofar, item, sp, step), r) <==> IsExtended(sofar, item, sp, step, r)
  {
    hide CatOf;
    var brk := Flush(0, sofar, item.at);
    TripleOffers(sofar, sp, item.d, r);
    assert [sofar] + [sp] + [item.d] + [] + [] == [sofar, sp, item.d];
    if step.Some? {
      TripleOffers(brk, step.value, item.d, r);
      assert [brk] + [step.value] + [item.d] + [] + [] == [brk, step.value, item.d];
    } else {
      PairOffers(brk, item.d, r);
      assert [brk] + [item.d] + [] + [] + [] == [brk, item.d];
    }
    ExtendedParts(sofar, item, sp, step, r);
  }

  /** Taking an extended layout apart. */
  lemma ExtendedParts(sofar: Doc, item: Item, sp: Doc, step: Option<Doc>, r: Layout)
    requires WellFormed(sofar) && WellFormed(item.d) && sp.Text? && (step.Some? ==> step.value.Text?)
    ensures IsExtended(sofar, item, sp, step, r) <==>
            r.Beside? && Offers(item.d, r.right) &&
            ((r.left.Beside? && Offers(sofar, r.left.left) && r.left.right == TokOf(sp)) ||
             (if step.Some? then
                r.left.Beside? && OffersBroken(sofar, item.at, r.left.left) && r.left.right == TokOf(step.value)
              else OffersBroken(sofar, item.at, r.left)))
  {
    hide Offers;
    if r.Beside? && Offers(item.d, r.right) {
      var x := r.right;
      if r.left.Beside? && Offers(sofar, r.left.left) && r.left.right == TokOf(sp) {
        assert r == Extended(r.left.left, item.at, x, sp, step, false);
      }
      if step.Some? && r.left.Beside? && OffersBroken(sofar, item.at, r.left.left) && r.left.right == TokOf(step.value) {
        assert r == Extended(r.left.left.box, item.at, x, sp, step, true);
      }
      if step.None? && OffersBroken(sofar, item.at, r.left) {
        assert r == Extended(r.left.box, item.at, x, sp, step, true);
      }
    }
  }

  ghost predicate OffersBroken(d: Doc, at: Mark, r: Layout)
    requires WellFormed(d)
  {
    r.Broken? && r.at == at && Offers(d, r.box)
  }

  /** Items filled after a start: each on the same line after a space, or broken before. */
  function FillLayout(start: Layout, items: seq<Item>, xs: seq<Layout>, sp: Doc, step: Option<Doc>, breaks: seq<bool>): Layout
    requires |xs| == |breaks| < |items| && sp.Text? && (step.Some? ==> step.value.Text?)
  {
    if xs == [] then start
    else
      var n := |xs|;
      Extended(FillLayout(start, items, xs[..n - 1], sp, step, breaks[..n - 1]), items[n].at, xs[n - 1], sp, step, breaks[n - 1])
  }

  /** A layout of each of the n items after the first. */
  ghost predicate NextOffer(items: seq<Item>, xs: seq<Layout>, n: nat)
    requires ItemsWellFormed(items) && n < |items|
  {
    |xs| == n && forall i :: 0 <= i < n ==> Offers(items[i + 1].d, xs[i])
  }

  /** A start and the n items after the first, filled in some pattern of breaks. */
  ghost predicate IsFill(start: Doc, items: seq<Item>, sp: Doc, step: Option<Doc>, n: nat, r: Layout)
    requires WellFormed(start) && ItemsWellFormed(items) && n < |items| && sp.Text? && (step.Some? ==> step.value.Text?)
  {
    exists s, xs, breaks :: |breaks| == n && NextOffer(items, xs, n) && Offers(start, s) && r == FillLayout(s, items, xs, sp, step, breaks)
  }

  /** Filled items offer exactly the layouts with some pattern of breaks and a layout of each. */
  lemma {:induction false} FillOffers(start: Doc, items: seq<Item>, sp: Doc, step: Option<Doc>, n: nat, r: Layout)
    requires WellFormed(start) && ItemsWellFormed(items) && n < |items| && sp.Text? && (step.Some? ==> step.value.Text?)
    ensures WellFormed(FillOf(start, items, sp, step, n + 1))
    ensures Offers(FillOf(start, items, sp, step, n + 1), r) <==> IsFill(start, items, sp, step, n, r)
  {
    if n == 0 {
      FillNone(start, items, sp, step, r);
    } else {
      hide Offers, WellFormed, Extended, ExtendOf, FillLayout, IsFill;
      FillWellFormed(start, items, sp, step, n);
      ExtendOffers(FillOf(start, items, sp, step, n), items[n], sp, step, r);
      if IsExtended(FillOf(start, items, sp, step, n), items[n], sp, step, r) {
        var s, x, broken :| Offers(FillOf(start, items, sp, step, n), s) && Offers(items[n].d, x) &&
                            r == Extended(s, items[n].at, x, sp, step, broken);
        FillOffers(start, items, sp, step, n - 1, s);
        FillMore(start, items, sp, step, n, s, x, broken);
      }
      if IsFill(start, items, sp, step, n, r) {
        var s, x, broken := FillLess(start, items, sp, step, n, r);
        FillOffers(start, items, sp, step, n - 1, s);
      }
    }
  }

  lemma {:induction false} FillWellFormed(start: Doc, items: seq<Item>, sp: Doc, step: Option<Doc>, n: nat)
    requires WellFormed(start) && ItemsWellFormed(items) && 1 <= n <= |items| && sp.Text? && (step.Some? ==> step.value.Text?)
    ensures WellFormed(FillOf(start, items, sp, step, n))
  {
    if n > 1 {
      FillWellFormed(start, items, sp, step, n - 1);
      ExtendOffers(FillOf(start, items, sp, step, n - 1), items[n - 1], sp, step, TokOf(sp));
    }
  }

  lemma FillNone(start: Doc, items: seq<Item>, sp: Doc, step: Option<Doc>, r: Layout)
    requires WellFormed(start) && ItemsWellFormed(items) && 0 < |items| && sp.Text? && (step.Some? ==> step.value.Text?)
    ensures Offers(start, r) <==> IsFill(start, items, sp, step, 0, r)
  {
    if Offers(start, r) {
      assert NextOffer(items, [], 0) && r == FillLayout(r, items, [], sp, step, []);
    }
  }

  lemma FillMore(start: Doc, items: seq<Item>, sp: Doc, step: Option<Doc>, n: nat, s: Layout, x: Layout, broken: bool)
    requires WellFormed(start) && ItemsWellFormed(items) && 0 < n < |items| && sp.Text? && (step.Some? ==> step.value.Text?)
    requires IsFill(start, items, sp, step, n - 1, s) && Offers(items[n].d, x)
    ensures IsFill(start, items, sp, step, n, Extended(s, items[n].at, x, sp, step, broken))
  {
    hide Offers, WellFormed, Extended, FillLayout;
    var t, xs, breaks :| |breaks| == n - 1 && NextOffer(items, xs, n - 1) && Offers(start, t) &&
                         s == FillLayout(t, items, xs, sp, step, breaks);
    NextMore(items, xs, n, x);
    FillSnoc(t, items, xs, sp, step, breaks, x, broken);
  }

  lemma NextMore(items: seq<Item>, xs: seq<Layout>, n: nat, x: Layout)
    requires ItemsWellFormed(items) && 0 < n < |items| && NextOffer(items, xs, n - 1) && Offers(items[n].d, x)
    ensures NextOffer(items, xs + [x], n)
  {
    hide Offers, WellFormed;
  }

  lemma FillSnoc(t: Layout, items: seq<Item>, xs: seq<Layout>, sp: Doc, step: Option<Doc>, breaks: seq<bool>, x: Layout, broken: bool)
    requires |xs| == |breaks| < |items| - 1 && sp.Text? && (step.Some? ==> step.value.Text?)
    ensures FillLayout(t, items, xs + [x], sp, step, breaks + [broken]) ==
            Extended(FillLayout(t, items, xs, sp, step, breaks), items[|xs| + 1].at, x, sp, step, broken)
  {
    hide Extended;
    var n := |xs|;
    assert (xs + [x])[..n] == xs && (breaks + [broken])[..n] == breaks;
  }

  lemma FillLess(start: Doc, items: seq<Item>, sp: Doc, step: Option<Doc>, n: nat, r: Layout) returns (s: Layout, x: Layout, broken: bool)
    requires WellFormed(start) && ItemsWellFormed(items) && 0 < n < |items| && sp.Text? && (step.Some? ==> step.value.Text?)
    requires IsFill(start, items, sp, step, n, r)
    ensures IsFill(start, items, sp, step, n - 1, s) && Offers(items[n].d, x) && r == Extended(s, items[n].at, x, sp, step, broken)
  {
    hide Offers, WellFormed, Extended;
    var t, xs, breaks :| |breaks| == n && NextOffer(items, xs, n) && Offers(start, t) &&
                         r == FillLayout(t, items, xs, sp, step, breaks);
    s, x, broken := FillLayout(t, items, xs[..n - 1], sp, step, breaks[..n - 1]), xs[n - 1], breaks[n - 1];
    assert Offers(items[(n - 1) + 1].d, xs[n - 1]);
    assert NextOffer(items, xs[..n - 1], n - 1);
  }

  // ----- Groups and chains -----

  /** How many items may share the opening line: up to the first group after the first item. */
  predicate MayOpen(items: seq<Item>, k: nat)
  {
    1 <= k < |items| && forall j :: 1 <= j < k ==> items[j].simple
  }

  ghost predicate OffersOf(d: Doc, r: Layout)
  {
    WellFormed(d) && Offers(d, r)
  }

  /** The stacked layouts: aligned and hung, for each number of items on the opening line. */
  ghost predicate StackedOffers(O: Option<Doc>, items: seq<Item>, from: nat, sp: Doc, step: Doc, close: Option<Doc>, r: Layout)
  {
    exists k :: from <= k && MayOpen(items, k) &&
      (OffersOf(AlignedOf(O, items, k, sp, close), r) || OffersOf(HungOf(O, items, k, sp, step, close), r))
  }

  /** What a choice and a one-line document offer. */
  lemma OrIs(a: Doc, b: Doc, r: Layout)
    ensures WellFormed(Or(0, a, b)) <==> WellFormed(a) && WellFormed(b)
    ensures WellFormed(Or(0, a, b)) ==> (OffersOf(Or(0, a, b), r) <==> OffersOf(a, r) || OffersOf(b, r))
  {
  }

  lemma OneIs(a: Doc, max: real, r: Layout)
    requires max > 0.0
    ensures WellFormed(One(0, a, max)) <==> WellFormed(a)
    ensures OffersOf(One(0, a, max), r) <==> OffersOf(a, r) && OnOneLine(r)
  {
  }

  lemma StackedNext(O: Option<Doc>, items: seq<Item>, k: nat, sp: Doc, step: Doc, close: Option<Doc>, r: Layout)
    requires 1 <= k < |items| && forall j :: 1 <= j < k ==> items[j].simple
    ensures StackedOffers(O, items, k, sp, step, close, r) <==>
            OffersOf(AlignedOf(O, items, k, sp, close), r) || OffersOf(HungOf(O, items, k, sp, step, close), r) ||
            (items[k].simple && StackedOffers(O, items, k + 1, sp, step, close, r))
  {
    hide AlignedOf, HungOf, OffersOf;
    assert MayOpen(items, k);
  }

  lemma {:induction false} StackChoicesOffer(acc: Doc, O: Option<Doc>, items: seq<Item>, k: nat, sp: Doc, step: Doc, close: Option<Doc>,
                                             r: Layout)
    requires 1 <= k <= |items| && WellFormed(StackChoices(acc, O, items, k, sp, step, close))
    requires forall j :: 1 <= j < k ==> items[j].simple
    ensures WellFormed(acc)
    ensures OffersOf(StackChoices(acc, O, items, k, sp, step, close), r) <==>
            OffersOf(acc, r) || StackedOffers(O, items, k, sp, step, close, r)
    decreases |items| - k
  {
    hide AlignedOf, HungOf, OffersOf, WellFormed;
    if k == |items| {
      assert !StackedOffers(O, items, k, sp, step, close, r);
    } else {
      hide StackedOffers;
      var a, h := AlignedOf(O, items, k, sp, close), HungOf(O, items, k, sp, step, close);
      StackedNext(O, items, k, sp, step, close, r);
      OrIs(acc, a, r);
      OrIs(Or(0, acc, a), h, r);
      if items[k].simple { StackChoicesOffer(Or(0, Or(0, acc, a), h), O, items, k + 1, sp, step, close, r); }
    }
  }

  /** What a group of two or more items offers beyond the next-line layout: all on one line; filled,
      aligned or hung, if the items after the first are simple, and otherwise stacked, aligned or
      hung, with each number of items that may share the opening line. */
  ghost predicate GroupOffers(O: Option<Doc>, items: seq<Item>, close: Option<Doc>, sp: Doc, step: Doc, r: Layout)
    requires |items| >= 2
  {
    (OnOneLine(r) && OffersOf(WholeOf(O, items, sp, close).value, r)) ||
    if AllSimpleAfterFirst(items) then
      OffersOf(JoinOf(O, FillOf(items[0].d, items, sp, None, |items|), close, None, None), r) ||
      OffersOf(JoinOf(None, FillOf(JoinOf(O, items[0].d, None, None, None), items, sp, Some(step), |items|), close,
                      Some(Blank(0.0, 1)), None), r)
    else StackedOffers(O, items, 1, sp, step, close, r)
  }

  /** What a group offers: its parts in a row if there are fewer than two items, the layouts above
      otherwise, and from the next line, if it is deep. */
  lemma ArgsOffer(O: Option<Doc>, items: seq<Item>, close: Option<Doc>, isList: bool, firstIsElement: bool, sp: Doc, step: Doc,
                  r: Layout)
    requires (!isList ==> O.Some?) && ArgsOf(O, items, close, isList, firstIsElement, sp, step).Some?
    requires WellFormed(ArgsOf(O, items, close, isList, firstIsElement, sp, step).value)
    ensures WholeOf(O, items, sp, close).Some?
    ensures OffersOf(ArgsOf(O, items, close, isList, firstIsElement, sp, step).value, r) <==>
            (if |items| < 2 then OffersOf(WholeOf(O, items, sp, close).value, r) else GroupOffers(O, items, close, sp, step, r)) ||
            (IsDeep(items, isList, firstIsElement) && OffersOf(LispOf(O.value, items, step, close), r))
  {
    hide LispOf, WholeOf, JoinOf, FillOf, StackedOffers, OffersOf, WellFormed, StackChoices, AllSimpleAfterFirst, CountGroups;
    var whole := WholeOf(O, items, sp, close).value;
    if |items| < 2 {
      if IsDeep(items, isList, firstIsElement) { OrIs(whole, LispOf(O.value, items, step, close), r); }
    } else {
      var max := if isList && CountGroups(items) > 1 then 0.5 else 1.0;
      var one := One(0, whole, max);
      var acc := if AllSimpleAfterFirst(items) then FillChoices(one, O, items, sp, step, close)
                 else StackChoices(one, O, items, 1, sp, step, close);
      if IsDeep(items, isList, firstIsElement) { OrIs(acc, LispOf(O.value, items, step, close), r); }
      ChoicesOffer(one, O, items, close, sp, step, max, r);
    }
  }

  lemma ChoicesOffer(one: Doc, O: Option<Doc>, items: seq<Item>, close: Option<Doc>, sp: Doc, step: Doc, max: real, r: Layout)
    requires |items| >= 2 && max > 0.0 && WholeOf(O, items, sp, close).Some? && one == One(0, WholeOf(O, items, sp, close).value, max)
    requires WellFormed(if AllSimpleAfterFirst(items) then FillChoices(one, O, items, sp, step, close)
                        else StackChoices(one, O, items, 1, sp, step, close))
    ensures OffersOf(if AllSimpleAfterFirst(items) then FillChoices(one, O, items, sp, step, close)
                     else StackChoices(one, O, items, 1, sp, step, close), r) <==>
            GroupOffers(O, items, close, sp, step, r)
  {
    hide WholeOf, JoinOf, FillOf, StackedOffers, OffersOf, WellFormed, StackChoices, AllSimpleAfterFirst;
    OneIs(WholeOf(O, items, sp, close).value, max, r);
    if AllSimpleAfterFirst(items) {
      var a := JoinOf(O, FillOf(items[0].d, items, sp, None, |items|), close, None, None);
      var h := JoinOf(None, FillOf(JoinOf(O, items[0].d, None, None, None), items, sp, Some(step), |items|), close,
                      Some(Blank(0.0, 1)), None);
      OrIs(one, a, r);
      OrIs(Or(0, one, a), h, r);
    } else {
      StackChoicesOffer(one, O, items, 1, sp, step, close, r);
    }
  }

  /** Layouts of the parts, in a row. */
  ghost predicate IsRow(ds: seq<Doc>, r: Layout)
  {
    AllWellFormed(ds) && exists ls :: AllOffer(ds, ls) && ls != [] && r == RowOf(ls)
  }

  /** Layouts of the lines of a chain, stacked, with the badness after them if there is any. */
  ghost predicate IsStackedChain(lines: seq<Item>, bad: nat, r: Layout)
    requires lines != [] && ItemsWellFormed(lines)
  {
    if bad == 0 then IsStack(lines, r)
    else r.Beside? && r.right == Tok(0.0, false, false, bad) && IsStack(lines, r.left)
  }

  lemma RowWellFormed(ds: seq<Doc>, r: Layout)
    requires ds != [] && WellFormed(CatOf(ds))
    ensures AllWellFormed(ds) && (Offers(CatOf(ds), r) <==> IsRow(ds, r))
  {
    hide Offers, RowOf;
    if |ds| > 1 { assert CatOf(ds).kids == ds; }
    CatLayouts(ds, r);
  }

  lemma StackedChain(lines: seq<Item>, bad: nat, r: Layout)
    requires lines != []
    ensures var d := if bad > 0 then JoinOf(None, StackOf(lines), Some(Blank(0.0, bad)), None, None) else StackOf(lines);
            WellFormed(d) ==> ItemsWellFormed(lines) && (Offers(d, r) <==> IsStackedChain(lines, bad, r))
  {
    hide StackOf, StackDocs;
    StackWellFormed(lines);
    var d := StackOf(lines);
    var blank := Blank(0.0, bad);
    assert [] + [d] + [blank] + [] + [] == [d, blank];
    if bad > 0 && WellFormed(CatOf([d, blank])) {
      assert WellFormed(CatOf([d, blank]).kids[0]);
      PairOffers(d, blank, r);
      if r.Beside? { StackOffers(lines, r.left); }
    } else if bad == 0 && WellFormed(d) {
      StackOffers(lines, r);
    }
  }

  /** What a chain offers: its parts in a row, on one line if it has lines to break, and those lines
      stacked. */
  lemma ChainOffers(first: Doc, links: seq<Link>, leads: bool, bad: nat, space: Width, r: Layout)
    requires WellFormed(ChainOf(first, links, leads, bad, space))
    ensures var flat, lines := FlatOf(first, links, space), Finished(LinksOf(first, links, leads, space));
            if |lines| < 2 then Offers(ChainOf(first, links, leads, bad, space), r) <==> IsRow(flat, r)
            else
              ItemsWellFormed(lines) &&
              (Offers(ChainOf(first, links, leads, bad, space), r) <==>
               (OnOneLine(r) && IsRow(flat, r)) || IsStackedChain(lines, bad, r))
  {
    hide CatOf, FlatOf, LinksOf, JoinOf, StackOf, IsRow, IsStackedChain;
    var flat, lines := FlatOf(first, links, space), Finished(LinksOf(first, links, leads, space));
    RowWellFormed(flat, r);
    StackedChain(lines, bad, r);
  }
}
