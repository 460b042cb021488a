/** How groups are laid out, in terms of the layouts of their parts, and how wide a group on one line
    may be. */
module PrinterGroups {
  import opened Wrappers
  import opened Sequences
  import opened PrinterLayouts
  import opened PrinterFrontier
  import opened PrinterShapes
  import opened PrinterOffers

  // ----- Parts that may be missing -----

  ghost predicate PartWellFormed(k: Option<Doc>)
  {
    k.Some? ==> WellFormed(k.value)
  }

  /** A layout of a part, if there is one. */
  ghost predicate PartOffers(k: Option<Doc>, l: seq<Layout>)
    requires PartWellFormed(k)
  {
    if k.Some? then |l| == 1 && Offers(k.value, l[0]) else l == []
  }

  lemma OptWellFormed(k: Option<Doc>)
    ensures AllWellFormed(Opt(k)) <==> PartWellFormed(k)
  {
    if k.Some? { assert Opt(k)[0] == k.value; }
  }

  lemma OptOffer(k: Option<Doc>, l: seq<Layout>)
    requires PartWellFormed(k)
    ensures AllWellFormed(Opt(k)) && (AllOffer(Opt(k), l) <==> PartOffers(k, l))
  {
    OptWellFormed(k);
  }

  lemma WellFormedConcat(a: seq<Doc>, b: seq<Doc>)
    ensures AllWellFormed(a + b) <==> AllWellFormed(a) && AllWellFormed(b)
  {
    hide WellFormed;
    if AllWellFormed(a + b) {
      forall i | 0 <= i < |a| ensures WellFormed(a[i]) { assert (a + b)[i] == a[i]; }
      forall i | 0 <= i < |b| ensures WellFormed(b[i]) { assert (a + b)[|a| + i] == b[i]; }
    }
  }

  lemma OfferConcat(a: seq<Doc>, b: seq<Doc>, x: seq<Layout>, y: seq<Layout>)
    requires AllWellFormed(a) && AllWellFormed(b) && AllOffer(a, x) && AllOffer(b, y)
    ensures AllWellFormed(a + b) && AllOffer(a + b, x + y)
  {
    hide WellFormed, Offers;
    WellFormedConcat(a, b);
  }

  lemma OfferSplit(a: seq<Doc>, b: seq<Doc>, ls: seq<Layout>) returns (x: seq<Layout>, y: seq<Layout>)
    requires AllWellFormed(a) && AllWellFormed(b) && AllWellFormed(a + b) && AllOffer(a + b, ls)
    ensures AllOffer(a, x) && AllOffer(b, y) && ls == x + y
  {
    hide WellFormed, Offers;
    x, y := ls[..|a|], ls[|a|..];
    forall i | 0 <= i < |a| ensures Offers(a[i], x[i]) { assert (a + b)[i] == a[i]; }
    forall i | 0 <= i < |b| ensures Offers(b[i], y[i]) { assert (a + b)[|a| + i] == b[i]; }
  }

  lemma OneOffer(b: Doc, l: seq<Layout>)
    requires WellFormed(b)
    ensures AllWellFormed([b]) && (AllOffer([b], l) <==> |l| == 1 && Offers(b, l[0]))
  {
    hide Offers;
  }

  lemma JoinWellFormed(a: Option<Doc>, b: Doc, c: Option<Doc>, e: Option<Doc>, g: Option<Doc>)
    requires WellFormed(JoinOf(a, b, c, e, g))
    ensures PartWellFormed(a) && WellFormed(b) && PartWellFormed(c) && PartWellFormed(e) && PartWellFormed(g)
    ensures AllWellFormed(Opt(a)) && AllWellFormed([b]) && AllWellFormed(Opt(c)) && AllWellFormed(Opt(e)) && AllWellFormed(Opt(g))
    ensures AllWellFormed(Opt(a) + [b]) && AllWellFormed(Opt(a) + [b] + Opt(c)) && AllWellFormed(Opt(a) + [b] + Opt(c) + Opt(e))
    ensures AllWellFormed(Opt(a) + [b] + Opt(c) + Opt(e) + Opt(g))
  {
    hide WellFormed, CatOf, Opt;
    CatIsWellFormed(Opt(a) + [b] + Opt(c) + Opt(e) + Opt(g));
    WellFormedConcat(Opt(a) + [b] + Opt(c) + Opt(e), Opt(g));
    WellFormedConcat(Opt(a) + [b] + Opt(c), Opt(e));
    WellFormedConcat(Opt(a) + [b], Opt(c));
    WellFormedConcat(Opt(a), [b]);
    OptWellFormed(a);
    OptWellFormed(c);
    OptWellFormed(e);
    OptWellFormed(g);
    assert [b][0] == b;
  }

  /** The layouts of the parts of a row. */
  lemma JoinTaken(a: Option<Doc>, b: Doc, c: Option<Doc>, e: Option<Doc>, g: Option<Doc>, r: Layout)
    returns (la: seq<Layout>, lb: Layout, lc: seq<Layout>, le: seq<Layout>, lg: seq<Layout>)
    requires OffersOf(JoinOf(a, b, c, e, g), r)
    ensures PartWellFormed(a) && WellFormed(b) && PartWellFormed(c) && PartWellFormed(e) && PartWellFormed(g)
    ensures PartOffers(a, la) && Offers(b, lb) && PartOffers(c, lc) && PartOffers(e, le) && PartOffers(g, lg)
    ensures r == RowOf(la + [lb] + lc + le + lg)
  {
    hide WellFormed, Offers, CatOf, Opt, RowOf, AllOffer, AllWellFormed;
    JoinWellFormed(a, b, c, e, g);
    var ds := Opt(a) + [b] + Opt(c) + Opt(e) + Opt(g);
    CatLayouts(ds, r);
    var ls :| AllOffer(ds, ls) && ls != [] && r == RowOf(ls);
    var x4, y4 := OfferSplit(Opt(a) + [b] + Opt(c) + Opt(e), Opt(g), ls);
    var x3, y3 := OfferSplit(Opt(a) + [b] + Opt(c), Opt(e), x4);
    var x2, y2 := OfferSplit(Opt(a) + [b], Opt(c), x3);
    var x1, y1 := OfferSplit(Opt(a), [b], x2);
    OptOffer(a, x1);
    OneOffer(b, y1);
    OptOffer(c, y2);
    OptOffer(e, y3);
    OptOffer(g, y4);
    la, lb, lc, le, lg := x1, y1[0], y2, y3, y4;
    assert y1 == [lb];
  }

  lemma JoinGiven(a: Option<Doc>, b: Doc, c: Option<Doc>, e: Option<Doc>, g: Option<Doc>,
                  la: seq<Layout>, lb: Layout, lc: seq<Layout>, le: seq<Layout>, lg: seq<Layout>)
    requires WellFormed(JoinOf(a, b, c, e, g))
    requires PartWellFormed(a) && WellFormed(b) && PartWellFormed(c) && PartWellFormed(e) && PartWellFormed(g)
    requires PartOffers(a, la) && Offers(b, lb) && PartOffers(c, lc) && PartOffers(e, le) && PartOffers(g, lg)
    ensures OffersOf(JoinOf(a, b, c, e, g), RowOf(la + [lb] + lc + le + lg))
  {
    hide WellFormed, Offers, CatOf, Opt, RowOf, AllOffer, AllWellFormed;
    JoinWellFormed(a, b, c, e, g);
    OptOffer(a, la);
    OneOffer(b, [lb]);
    OptOffer(c, lc);
    OptOffer(e, le);
    OptOffer(g, lg);
    OfferConcat(Opt(a), [b], la, [lb]);
    OfferConcat(Opt(a) + [b], Opt(c), la + [lb], lc);
    OfferConcat(Opt(a) + [b] + Opt(c), Opt(e), la + [lb] + lc, le);
    OfferConcat(Opt(a) + [b] + Opt(c) + Opt(e), Opt(g), la + [lb] + lc + le, lg);
    CatLayouts(Opt(a) + [b] + Opt(c) + Opt(e) + Opt(g), RowOf(la + [lb] + lc + le + lg));
  }

  /** Layouts of the parts of a row: one that is always there, and those before and after it. */
  datatype Pieces = Pieces(a: seq<Layout>, b: Layout, c: seq<Layout>, e: seq<Layout>, g: seq<Layout>)
  {
    function Row(): Layout
    {
      RowOf(a + [b] + c + e + g)
    }
  }

  ghost predicate PiecesOffer(a: Option<Doc>, b: Doc, c: Option<Doc>, e: Option<Doc>, g: Option<Doc>, x: Pieces)
  {
    PartWellFormed(a) && WellFormed(b) && PartWellFormed(c) && PartWellFormed(e) && PartWellFormed(g) &&
    PartOffers(a, x.a) && Offers(b, x.b) && PartOffers(c, x.c) && PartOffers(e, x.e) && PartOffers(g, x.g)
  }

  lemma JoinLayouts(a: Option<Doc>, b: Doc, c: Option<Doc>, e: Option<Doc>, g: Option<Doc>, r: Layout)
    requires WellFormed(JoinOf(a, b, c, e, g))
    ensures OffersOf(JoinOf(a, b, c, e, g), r) <==> exists x :: PiecesOffer(a, b, c, e, g, x) && r == x.Row()
  {
    hide WellFormed, Offers, JoinOf, RowOf;
    if OffersOf(JoinOf(a, b, c, e, g), r) {
      var la, lb, lc, le, lg := JoinTaken(a, b, c, e, g, r);
      assert PiecesOffer(a, b, c, e, g, Pieces(la, lb, lc, le, lg));
    }
    if x :| PiecesOffer(a, b, c, e, g, x) && r == x.Row() {
      JoinGiven(a, b, c, e, g, x.a, x.b, x.c, x.e, x.g);
    }
  }

  // ----- Layouts of a group -----

  /** Layouts with a space between. */
  function Spaced(ys: seq<Layout>, space: Layout): (r: seq<Layout>)
    ensures r == [] <==> ys == []
  {
    if ys == [] then []
    else
      var n := |ys| - 1;
      Spaced(ys[..n], space) + (if n > 0 then [space] else []) + [ys[n]]
  }

  /** How a group is set. */
  datatype Style = OneLine | FilledAligned(breaks: seq<bool>) | FilledHung(breaks: seq<bool>) | Aligned(k: nat) | Hung(k: nat) | NextLine

  /** A layout of what a group opens with, of each item, and of what it closes with. */
  datatype Inner = Inner(o: seq<Layout>, xs: seq<Layout>, c: seq<Layout>)

  ghost predicate InnerOffers(O: Option<Doc>, items: seq<Item>, close: Option<Doc>, x: Inner)
  {
    PartWellFormed(O) && ItemsWellFormed(items) && PartWellFormed(close) &&
    PartOffers(O, x.o) && ItemsOffer(items, x.xs) && PartOffers(close, x.c)
  }

  function Worse(bad: nat): Layout
  {
    Tok(0.0, false, false, bad)
  }

  /** Which styles a group has: one line; filled if the items after the first are simple, and if not
      stacked, with some items on the opening line, before the first group after the first item;
      from the next line if it is a compound that begins with an element and has a group inside. */
  predicate HasStyle(style: Style, items: seq<Item>, isList: bool, firstIsElement: bool)
  {
    match style
    case OneLine => true
    case FilledAligned(breaks) => |breaks| == |items| - 1 && forall i :: 1 <= i < |items| ==> items[i].simple
    case FilledHung(breaks) => |breaks| == |items| - 1 && forall i :: 1 <= i < |items| ==> items[i].simple
    case Aligned(k) => 1 <= k < |items| && (exists i :: 1 <= i < |items| && !items[i].simple) && forall i :: 1 <= i < k ==> items[i].simple
    case Hung(k) => 1 <= k < |items| && (exists i :: 1 <= i < |items| && !items[i].simple) && forall i :: 1 <= i < k ==> items[i].simple
    case NextLine => !isList && firstIsElement && exists i :: 0 <= i < |items| && !items[i].simple
  }

  predicate Sized(style: Style, items: seq<Item>, x: Inner)
  {
    |x.xs| == |items| >= 2 &&
    match style
    case OneLine => true
    case FilledAligned(breaks) => |breaks| == |items| - 1
    case FilledHung(breaks) => |breaks| == |items| - 1
    case Aligned(k) => 1 <= k < |items|
    case Hung(k) => 1 <= k < |items|
    case NextLine => |x.o| == 1
  }

  /** The layout of a group in a style. Aligned, the later lines start where the first item does;
      hung, a step past the start, one worse; from the next line, so do all items, two worse. */
  function GroupLayout(style: Style, items: seq<Item>, x: Inner, sp: Doc, step: Doc): Layout
    requires sp.Text? && step.Text? && Sized(style, items, x)
  {
    var n := |items|;
    match style
    case OneLine => RowOf(x.o + [RowOf(Spaced(x.xs, TokOf(sp)))] + x.c)
    case FilledAligned(breaks) => RowOf(x.o + [FillLayout(x.xs[0], items, x.xs[1..], sp, None, breaks)] + x.c)
    case FilledHung(breaks) =>
      RowOf([FillLayout(RowOf(x.o + [x.xs[0]]), items, x.xs[1..], sp, Some(step), breaks)] + x.c + [Worse(1)])
    case Aligned(k) =>
      RowOf(x.o + [Broken(RowOf(Spaced(x.xs[..k], TokOf(sp))), items[k].at), RowOf(StackLines(items[k..], x.xs[k..], n - k))] + x.c)
    case Hung(k) =>
      RowOf([Broken(RowOf(x.o + [RowOf(Spaced(x.xs[..k], TokOf(sp)))]), items[k].at), TokOf(step),
             RowOf(StackLines(items[k..], x.xs[k..], n - k))] + x.c + [Worse(1)])
    case NextLine =>
      RowOf([Broken(x.o[0], items[0].at), TokOf(step), RowOf(StackLines(items, x.xs, n))] + x.c + [Worse(2)])
  }

  /** What has to fit on one line: the whole group, or the items on the opening line. */
  predicate KeptOnLine(style: Style, items: seq<Item>, x: Inner, sp: Doc, step: Doc)
    requires sp.Text? && step.Text? && Sized(style, items, x)
  {
    (style.OneLine? ==> OnOneLine(GroupLayout(style, items, x, sp, step))) &&
    (style.Aligned? || style.Hung? ==> style.k > 1 ==> OnOneLine(RowOf(Spaced(x.xs[..style.k], TokOf(sp)))))
  }

  /** A layout of a group in a style, from layouts of its parts. */
  ghost predicate InStyle(style: Style, O: Option<Doc>, items: seq<Item>, close: Option<Doc>, sp: Doc, step: Doc, r: Layout, x: Inner)
    requires sp.Text? && step.Text?
  {
    InnerOffers(O, items, close, x) && Sized(style, items, x) && KeptOnLine(style, items, x, sp, step) &&
    r == GroupLayout(style, items, x, sp, step)
  }

  ghost predicate SetIn(style: Style, O: Option<Doc>, items: seq<Item>, close: Option<Doc>, sp: Doc, step: Doc, r: Layout)
    requires sp.Text? && step.Text?
  {
    exists x :: InStyle(style, O, items, close, sp, step, r, x)
  }

  // ----- Items on one line -----

  lemma {:induction false} LineWellFormed(items: seq<Item>, sp: Doc)
    requires sp.Text?
    ensures AllWellFormed(LineDocs(items, sp)) <==> ItemsWellFormed(items)
  {
    if items != [] {
      hide WellFormed;
      var n := |items| - 1;
      LineWellFormed(items[..n], sp);
      var before, gap := LineDocs(items[..n], sp), if n > 0 then [sp] else [];
      WellFormedConcat(before + gap, [items[n].d]);
      WellFormedConcat(before, gap);
      SpaceWellFormed(sp);
      assert AllWellFormed([items[n].d]) <==> WellFormed(items[n].d) by { assert [items[n].d][0] == items[n].d; }
      assert ItemsWellFormed(items) <==> ItemsWellFormed(items[..n]) && WellFormed(items[n].d) by { ItemsWellFormedSnoc(items); }
    }
  }

  lemma ItemsWellFormedSnoc(items: seq<Item>)
    requires items != []
    ensures var n := |items| - 1; ItemsWellFormed(items) <==> ItemsWellFormed(items[..n]) && WellFormed(items[n].d)
  {
    hide WellFormed;
    var n := |items| - 1;
    if ItemsWellFormed(items[..n]) && WellFormed(items[n].d) {
      forall i | 0 <= i < |items| ensures WellFormed(items[i].d) { if i < n { assert items[..n][i] == items[i]; } }
    }
  }

  lemma SpaceWellFormed(sp: Doc)
    requires sp.Text?
    ensures WellFormed(sp) && AllWellFormed([sp]) && AllWellFormed([]) && (forall r :: Offers(sp, r) <==> r == TokOf(sp))
  {
  }

  lemma {:induction false} LineGiven(items: seq<Item>, sp: Doc, ys: seq<Layout>)
    requires sp.Text? && ItemsWellFormed(items) && ItemsOffer(items, ys)
    ensures AllWellFormed(LineDocs(items, sp)) && AllOffer(LineDocs(items, sp), Spaced(ys, TokOf(sp)))
  {
    hide WellFormed, Offers;
    LineWellFormed(items, sp);
    if items != [] {
      var n := |items| - 1;
      ItemsWellFormedSnoc(items);
      LineGiven(items[..n], sp, ys[..n]);
      LineWellFormed(items[..n], sp);
      SpaceWellFormed(sp);
      var before, gap := LineDocs(items[..n], sp), if n > 0 then [sp] else [];
      var x, y := Spaced(ys[..n], TokOf(sp)), if n > 0 then [TokOf(sp)] else [];
      OfferConcat(before, gap, x, y);
      OneOffer(items[n].d, [ys[n]]);
      OfferConcat(before + gap, [items[n].d], x + y, [ys[n]]);
    }
  }

  lemma {:induction false} LineTaken(items: seq<Item>, sp: Doc, ls: seq<Layout>) returns (ys: seq<Layout>)
    requires sp.Text? && ItemsWellFormed(items) && AllWellFormed(LineDocs(items, sp)) && AllOffer(LineDocs(items, sp), ls)
    ensures ItemsOffer(items, ys) && ls == Spaced(ys, TokOf(sp))
  {
    hide WellFormed, Offers;
    if items == [] {
      ys := [];
    } else {
      var n := |items| - 1;
      ItemsWellFormedSnoc(items);
      LineWellFormed(items[..n], sp);
      SpaceWellFormed(sp);
      var before, gap := LineDocs(items[..n], sp), if n > 0 then [sp] else [];
      WellFormedConcat(before, gap);
      OneOffer(items[n].d, []);
      var xy, z := OfferSplit(before + gap, [items[n].d], ls);
      var x, y := OfferSplit(before, gap, xy);
      OneOffer(items[n].d, z);
      OneOffer(sp, y);
      var rest := LineTaken(items[..n], sp, x);
      ys := rest + [z[0]];
      assert ys[..n] == rest && z == [z[0]];
      assert y == if n > 0 then [TokOf(sp)] else [];
    }
  }

  /** Items in a row offer their layouts with a space between. */
  lemma LineLayouts(items: seq<Item>, sp: Doc, r: Layout)
    requires sp.Text? && items != [] && ItemsWellFormed(items)
    ensures WellFormed(CatOf(LineDocs(items, sp)))
    ensures OffersOf(CatOf(LineDocs(items, sp)), r) <==> exists ys :: ItemsOffer(items, ys) && r == RowOf(Spaced(ys, TokOf(sp)))
  {
    hide WellFormed, Offers, CatOf, LineDocs, RowOf;
    var ds := LineDocs(items, sp);
    LineWellFormed(items, sp);
    CatIsWellFormed(ds);
    CatLayouts(ds, r);
    if Offers(CatOf(ds), r) {
      var ls :| AllOffer(ds, ls) && ls != [] && r == RowOf(ls);
      var ys := LineTaken(items, sp, ls);
    }
    if ys :| ItemsOffer(items, ys) && r == RowOf(Spaced(ys, TokOf(sp))) {
      LineGiven(items, sp, ys);
    }
  }

  // ----- Each style -----

  ghost predicate GroupWellFormed(O: Option<Doc>, items: seq<Item>, close: Option<Doc>)
  {
    |items| >= 2 && PartWellFormed(O) && ItemsWellFormed(items) && PartWellFormed(close)
  }

  lemma JoinFormed(a: Option<Doc>, b: Doc, c: Option<Doc>, e: Option<Doc>, g: Option<Doc>)
    requires PartWellFormed(a) && WellFormed(b) && PartWellFormed(c) && PartWellFormed(e) && PartWellFormed(g)
    ensures WellFormed(JoinOf(a, b, c, e, g))
  {
    hide WellFormed, CatOf, Opt;
    OptWellFormed(a);
    OptWellFormed(c);
    OptWellFormed(e);
    OptWellFormed(g);
    assert AllWellFormed([b]);
    WellFormedConcat(Opt(a), [b]);
    WellFormedConcat(Opt(a) + [b], Opt(c));
    WellFormedConcat(Opt(a) + [b] + Opt(c), Opt(e));
    WellFormedConcat(Opt(a) + [b] + Opt(c) + Opt(e), Opt(g));
    CatIsWellFormed(Opt(a) + [b] + Opt(c) + Opt(e) + Opt(g));
  }

  /** A part that is there, or not. */
  lemma PartIs(d: Doc, l: seq<Layout>)
    requires WellFormed(d)
    ensures PartWellFormed(Some(d)) && PartWellFormed(None)
    ensures PartOffers(Some(d), l) <==> |l| == 1 && Offers(d, l[0])
    ensures PartOffers(None, l) <==> l == []
  {
  }

  lemma FlushIs(a: Doc, at: Mark, r: Layout)
    requires WellFormed(a)
    ensures WellFormed(Flush(0, a, at)) && (Offers(Flush(0, a, at), r) <==> r.Broken? && r.at == at && Offers(a, r.box))
  {
  }

  lemma BlankIs(bad: nat, r: Layout)
    ensures Blank(0.0, bad).Text? && TokOf(Blank(0.0, bad)) == Worse(bad)
  {
  }

  lemma ItemsSlice(items: seq<Item>, k: nat)
    requires ItemsWellFormed(items) && k <= |items|
    ensures ItemsWellFormed(items[..k]) && ItemsWellFormed(items[k..])
  {
    hide WellFormed;
  }

  lemma ItemsJoined(items: seq<Item>, k: nat, ys: seq<Layout>, zs: seq<Layout>)
    requires ItemsWellFormed(items) && k <= |items| && ItemsWellFormed(items[..k]) && ItemsWellFormed(items[k..])
    requires ItemsOffer(items[..k], ys) && ItemsOffer(items[k..], zs)
    ensures ItemsOffer(items, ys + zs) && (ys + zs)[..k] == ys && (ys + zs)[k..] == zs
  {
    hide WellFormed, Offers;
    forall i | 0 <= i < |items| ensures Offers(items[i].d, (ys + zs)[i]) {
      if i < k { assert items[..k][i] == items[i]; } else { assert items[k..][i - k] == items[i]; }
    }
  }

  lemma ItemsCut(items: seq<Item>, k: nat, xs: seq<Layout>)
    requires ItemsWellFormed(items) && k <= |items| && ItemsOffer(items, xs)
    ensures ItemsWellFormed(items[..k]) && ItemsWellFormed(items[k..])
    ensures ItemsOffer(items[..k], xs[..k]) && ItemsOffer(items[k..], xs[k..])
  {
    hide WellFormed, Offers;
    ItemsSlice(items, k);
  }

  /** The items on the opening line. */
  lemma FirstLayouts(items: seq<Item>, k: nat, sp: Doc, f: Layout)
    requires sp.Text? && 1 <= k <= |items| && ItemsWellFormed(items[..k])
    ensures WellFormed(FirstLine(items, k, sp))
    ensures Offers(FirstLine(items, k, sp), f) <==>
            exists ys :: ItemsOffer(items[..k], ys) && f == RowOf(Spaced(ys, TokOf(sp))) && (k > 1 ==> OnOneLine(f))
  {
    hide CatOf, LineDocs, RowOf;
    LineLayouts(items[..k], sp, f);
    var line := CatOf(LineDocs(items[..k], sp));
    if k > 1 { OneIs(line, 1.0, f); }
  }

  lemma WholeIsJoin(O: Option<Doc>, items: seq<Item>, sp: Doc, close: Option<Doc>)
    requires items != []
    ensures WholeOf(O, items, sp, close) == Some(JoinOf(O, CatOf(LineDocs(items, sp)), close, None, None))
  {
    hide CatOf, LineDocs;
    var line := CatOf(LineDocs(items, sp));
    assert Opt(O) + [line] + Opt(close) + [] + [] == Opt(O) + [line] + Opt(close);
  }

  lemma OneLineSet(O: Option<Doc>, items: seq<Item>, close: Option<Doc>, sp: Doc, step: Doc, r: Layout)
    requires sp.Text? && step.Text? && GroupWellFormed(O, items, close)
    ensures WholeOf(O, items, sp, close).Some? && WellFormed(WholeOf(O, items, sp, close).value)
    ensures OnOneLine(r) && OffersOf(WholeOf(O, items, sp, close).value, r) <==> SetIn(OneLine, O, items, close, sp, step, r)
  {
    hide WellFormed, Offers, CatOf, LineDocs, RowOf, JoinOf, PartOffers, PartWellFormed, ItemsOffer, WholeOf, Spaced;
    WholeIsJoin(O, items, sp, close);
    var line := CatOf(LineDocs(items, sp));
    LineLayouts(items, sp, r);
    PartIs(line, []);
    JoinFormed(O, line, close, None, None);
    JoinLayouts(O, line, close, None, None, r);
    if OnOneLine(r) && OffersOf(WholeOf(O, items, sp, close).value, r) {
      var p :| PiecesOffer(O, line, close, None, None, p) && r == p.Row();
      OneLineTaken(O, items, close, sp, step, r, p);
    }
    if SetIn(OneLine, O, items, close, sp, step, r) {
      var x :| InStyle(OneLine, O, items, close, sp, step, r, x);
      OneLineGiven(O, items, close, sp, step, r, x);
    }
  }

  lemma RowShort(o: seq<Layout>, b: Layout, c: seq<Layout>)
    ensures o + [b] + c + [] + [] == o + [b] + c
  {
  }

  lemma OneLineTaken(O: Option<Doc>, items: seq<Item>, close: Option<Doc>, sp: Doc, step: Doc, r: Layout, p: Pieces)
    requires sp.Text? && step.Text? && GroupWellFormed(O, items, close) && OnOneLine(r)
    requires PiecesOffer(O, CatOf(LineDocs(items, sp)), close, None, None, p) && r == p.Row()
    ensures SetIn(OneLine, O, items, close, sp, step, r)
  {
    hide WellFormed, Offers, CatOf, LineDocs, RowOf, PartWellFormed, Spaced;
    LineLayouts(items, sp, p.b);
    var ys :| ItemsOffer(items, ys) && p.b == RowOf(Spaced(ys, TokOf(sp)));
    RowShort(p.a, p.b, p.c);
    ItemsSized(items, ys);
    assert InStyle(OneLine, O, items, close, sp, step, r, Inner(p.a, ys, p.c));
  }

  lemma ItemsSized(items: seq<Item>, xs: seq<Layout>)
    requires ItemsWellFormed(items) && ItemsOffer(items, xs)
    ensures |xs| == |items|
  {
  }

  lemma OneLineGiven(O: Option<Doc>, items: seq<Item>, close: Option<Doc>, sp: Doc, step: Doc, r: Layout, x: Inner)
    requires sp.Text? && step.Text? && GroupWellFormed(O, items, close) && InStyle(OneLine, O, items, close, sp, step, r, x)
    ensures WellFormed(CatOf(LineDocs(items, sp))) && OnOneLine(r)
    ensures exists p :: PiecesOffer(O, CatOf(LineDocs(items, sp)), close, None, None, p) && r == p.Row()
  {
    hide WellFormed, Offers, CatOf, LineDocs, RowOf, PartWellFormed, ItemsOffer, Spaced;
    var b := RowOf(Spaced(x.xs, TokOf(sp)));
    var line := CatOf(LineDocs(items, sp));
    LineLayouts(items, sp, b);
    RowShort(x.o, b, x.c);
    PartIs(line, []);
    var p := Pieces(x.o, b, x.c, [], []);
    assert PiecesOffer(O, line, close, None, None, p) && r == p.Row();
  }

  lemma AlignedSet(O: Option<Doc>, items: seq<Item>, close: Option<Doc>, k: nat, sp: Doc, step: Doc, r: Layout)
    requires sp.Text? && step.Text? && GroupWellFormed(O, items, close) && 1 <= k < |items|
    ensures OffersOf(AlignedOf(O, items, k, sp, close), r) <==> SetIn(Aligned(k), O, items, close, sp, step, r)
  {
    hide WellFormed, Offers, CatOf, LineDocs, RowOf, JoinOf, PartOffers, PartWellFormed, ItemsOffer, Spaced, FirstLine, StackOf;
    var first, rest := FirstLine(items, k, sp), items[k..];
    var brk, stack := Flush(0, first, items[k].at), StackOf(rest);
    ItemsSlice(items, k);
    FirstLayouts(items, k, sp, r);
    StackOffers(rest, r);
    FlushIs(first, items[k].at, r);
    PartIs(stack, []);
    JoinFormed(O, brk, Some(stack), close, None);
    JoinLayouts(O, brk, Some(stack), close, None, r);
    if OffersOf(AlignedOf(O, items, k, sp, close), r) {
      var p :| PiecesOffer(O, brk, Some(stack), close, None, p) && r == p.Row();
      AlignedTaken(O, items, close, k, sp, step, r, p);
    }
    if SetIn(Aligned(k), O, items, close, sp, step, r) {
      var x :| InStyle(Aligned(k), O, items, close, sp, step, r, x);
      var p := AlignedGiven(O, items, close, k, sp, step, r, x);
    }
  }

  /** Layouts of the items on the opening line, and of the others stacked. */
  lemma SplitTaken(items: seq<Item>, k: nat, sp: Doc, f: Layout, s: Layout) returns (xs: seq<Layout>)
    requires sp.Text? && ItemsWellFormed(items) && 1 <= k < |items| && ItemsWellFormed(items[..k]) && ItemsWellFormed(items[k..])
    requires WellFormed(FirstLine(items, k, sp)) && Offers(FirstLine(items, k, sp), f)
    requires WellFormed(StackOf(items[k..])) && Offers(StackOf(items[k..]), s)
    ensures ItemsOffer(items, xs) && f == RowOf(Spaced(xs[..k], TokOf(sp))) && (k > 1 ==> OnOneLine(f))
    ensures s == RowOf(StackLines(items[k..], xs[k..], |items| - k))
  {
    hide WellFormed, Offers, RowOf, FirstLine, StackOf;
    FirstLayouts(items, k, sp, f);
    var ys :| ItemsOffer(items[..k], ys) && f == RowOf(Spaced(ys, TokOf(sp))) && (k > 1 ==> OnOneLine(f));
    StackOffers(items[k..], s);
    var zs :| ItemsOffer(items[k..], zs) && s == RowOf(StackLines(items[k..], zs, |items[k..]|));
    ItemsJoined(items, k, ys, zs);
    xs := ys + zs;
  }

  lemma SplitGiven(items: seq<Item>, k: nat, sp: Doc, xs: seq<Layout>)
    requires sp.Text? && ItemsWellFormed(items) && 1 <= k < |items| && ItemsOffer(items, xs)
    requires k > 1 ==> OnOneLine(RowOf(Spaced(xs[..k], TokOf(sp))))
    ensures WellFormed(FirstLine(items, k, sp)) && Offers(FirstLine(items, k, sp), RowOf(Spaced(xs[..k], TokOf(sp))))
    ensures WellFormed(StackOf(items[k..])) && Offers(StackOf(items[k..]), RowOf(StackLines(items[k..], xs[k..], |items| - k)))
  {
    hide WellFormed, Offers, RowOf, FirstLine, StackOf;
    ItemsCut(items, k, xs);
    FirstLayouts(items, k, sp, RowOf(Spaced(xs[..k], TokOf(sp))));
    StackOffers(items[k..], RowOf(StackLines(items[k..], xs[k..], |items[k..]|)));
  }

  lemma RowAligned(o: seq<Layout>, b: Layout, s: seq<Layout>, c: seq<Layout>)
    requires |s| == 1
    ensures o + [b] + s + c + [] == o + [b, s[0]] + c
  {
  }

  lemma AlignedTaken(O: Option<Doc>, items: seq<Item>, close: Option<Doc>, k: nat, sp: Doc, step: Doc, r: Layout, p: Pieces)
    requires sp.Text? && step.Text? && GroupWellFormed(O, items, close) && 1 <= k < |items|
    requires PiecesOffer(O, Flush(0, FirstLine(items, k, sp), items[k].at), Some(StackOf(items[k..])), close, None, p) && r == p.Row()
    ensures SetIn(Aligned(k), O, items, close, sp, step, r)
  {
    hide WellFormed, Offers, RowOf, FirstLine, StackOf, Spaced;
    ItemsSlice(items, k);
    FirstLayouts(items, k, sp, p.b);
    FlushIs(FirstLine(items, k, sp), items[k].at, p.b);
    var xs := SplitTaken(items, k, sp, p.b.box, p.c[0]);
    RowAligned(p.a, p.b, p.c, p.e);
    assert InStyle(Aligned(k), O, items, close, sp, step, r, Inner(p.a, xs, p.e));
  }

  lemma AlignedGiven(O: Option<Doc>, items: seq<Item>, close: Option<Doc>, k: nat, sp: Doc, step: Doc, r: Layout, x: Inner) returns (p: Pieces)
    requires sp.Text? && step.Text? && GroupWellFormed(O, items, close) && 1 <= k < |items|
    requires InStyle(Aligned(k), O, items, close, sp, step, r, x)
    ensures PiecesOffer(O, Flush(0, FirstLine(items, k, sp), items[k].at), Some(StackOf(items[k..])), close, None, p) && r == p.Row()
  {
    hide WellFormed, Offers, RowOf, FirstLine, StackOf, Spaced;
    SplitGiven(items, k, sp, x.xs);
    var f, s := RowOf(Spaced(x.xs[..k], TokOf(sp))), RowOf(StackLines(items[k..], x.xs[k..], |items| - k));
    p := Pieces(x.o, Broken(f, items[k].at), [s], x.c, []);
    FlushIs(FirstLine(items, k, sp), items[k].at, p.b);
    RowAligned(p.a, p.b, p.c, p.e);
  }

  lemma RowBare(o: seq<Layout>, b: Layout)
    ensures o + [b] + [] + [] + [] == o + [b]
  {
  }

  /** An opening with some layout after it, in one row. */
  lemma OpenedLayouts(O: Option<Doc>, b: Doc, w: Layout)
    requires PartWellFormed(O) && WellFormed(b)
    ensures WellFormed(JoinOf(O, b, None, None, None))
    ensures Offers(JoinOf(O, b, None, None, None), w) <==> exists o, f :: PartOffers(O, o) && Offers(b, f) && w == RowOf(o + [f])
  {
    hide WellFormed, Offers, RowOf, JoinOf, PartWellFormed;
    PartIs(b, []);
    JoinFormed(O, b, None, None, None);
    JoinLayouts(O, b, None, None, None, w);
    if Offers(JoinOf(O, b, None, None, None), w) {
      var p :| PiecesOffer(O, b, None, None, None, p) && w == p.Row();
      RowBare(p.a, p.b);
      assert PartOffers(O, p.a) && Offers(b, p.b) && w == RowOf(p.a + [p.b]);
    }
    if o, f :| PartOffers(O, o) && Offers(b, f) && w == RowOf(o + [f]) {
      RowBare(o, f);
      assert PiecesOffer(O, b, None, None, None, Pieces(o, f, [], [], []));
    }
  }

  /** A broken box, a step in, a stack below, the closing, and a badness. */
  lemma BelowLayouts(a: Doc, at: Mark, step: Doc, rest: seq<Item>, close: Option<Doc>, bad: nat, r: Layout)
    requires WellFormed(a) && step.Text? && rest != [] && ItemsWellFormed(rest) && PartWellFormed(close)
    ensures WellFormed(StackOf(rest))
    ensures OffersOf(JoinOf(Some(Flush(0, a, at)), step, Some(StackOf(rest)), close, Some(Blank(0.0, bad))), r) <==>
            exists w, s, c :: Offers(a, w) && Offers(StackOf(rest), s) && PartOffers(close, c) &&
                              r == RowOf([Broken(w, at), TokOf(step), s] + c + [Worse(bad)])
  {
    hide WellFormed, Offers, RowOf, JoinOf, StackOf, PartOffers, PartWellFormed;
    var brk, stack, worse := Flush(0, a, at), StackOf(rest), Blank(0.0, bad);
    StackOffers(rest, r);
    FlushIs(a, at, r);
    PartIs(brk, []);
    PartIs(stack, []);
    BlankIs(bad, r);
    SpaceWellFormed(worse);
    SpaceWellFormed(step);
    PartIs(worse, []);
    JoinFormed(Some(brk), step, Some(stack), close, Some(worse));
    JoinLayouts(Some(brk), step, Some(stack), close, Some(worse), r);
    if OffersOf(JoinOf(Some(brk), step, Some(stack), close, Some(worse)), r) {
      var p :| PiecesOffer(Some(brk), step, Some(stack), close, Some(worse), p) && r == p.Row();
      BelowTaken(a, at, step, rest, close, bad, r, p);
    }
    if w, s, c :| Offers(a, w) && Offers(stack, s) && PartOffers(close, c) && r == RowOf([Broken(w, at), TokOf(step), s] + c + [Worse(bad)]) {
      BelowGiven(a, at, step, rest, close, bad, w, s, c);
    }
  }

  lemma BelowTaken(a: Doc, at: Mark, step: Doc, rest: seq<Item>, close: Option<Doc>, bad: nat, r: Layout, p: Pieces)
    requires WellFormed(a) && step.Text? && rest != [] && WellFormed(StackOf(rest)) && PartWellFormed(close)
    requires PiecesOffer(Some(Flush(0, a, at)), step, Some(StackOf(rest)), close, Some(Blank(0.0, bad)), p) && r == p.Row()
    ensures exists w, s, c :: Offers(a, w) && Offers(StackOf(rest), s) && PartOffers(close, c) &&
                              r == RowOf([Broken(w, at), TokOf(step), s] + c + [Worse(bad)])
  {
    hide WellFormed, Offers, RowOf, StackOf, PartWellFormed;
    FlushIs(a, at, p.a[0]);
    SpaceWellFormed(step);
    BlankIs(bad, r);
    SpaceWellFormed(Blank(0.0, bad));
    var w, s, c := p.a[0].box, p.c[0], p.e;
    RowBelow(Broken(w, at), TokOf(step), s, c, Worse(bad));
    assert p.a == [Broken(w, at)] && p.c == [s] && p.g == [Worse(bad)];
    assert Offers(a, w) && Offers(StackOf(rest), s) && PartOffers(close, c) && r == RowOf([Broken(w, at), TokOf(step), s] + c + [Worse(bad)]);
  }

  lemma BelowGiven(a: Doc, at: Mark, step: Doc, rest: seq<Item>, close: Option<Doc>, bad: nat, w: Layout, s: Layout, c: seq<Layout>)
    requires WellFormed(a) && step.Text? && rest != [] && WellFormed(StackOf(rest)) && PartWellFormed(close)
    requires Offers(a, w) && Offers(StackOf(rest), s) && PartOffers(close, c)
    ensures var p := Pieces([Broken(w, at)], TokOf(step), [s], c, [Worse(bad)]);
            PiecesOffer(Some(Flush(0, a, at)), step, Some(StackOf(rest)), close, Some(Blank(0.0, bad)), p) &&
            p.Row() == RowOf([Broken(w, at), TokOf(step), s] + c + [Worse(bad)])
  {
    hide WellFormed, Offers, RowOf, StackOf;
    FlushIs(a, at, Broken(w, at));
    SpaceWellFormed(step);
    BlankIs(bad, w);
    SpaceWellFormed(Blank(0.0, bad));
    RowBelow(Broken(w, at), TokOf(step), s, c, Worse(bad));
  }

  lemma RowBelow(w: Layout, b: Layout, s: Layout, c: seq<Layout>, g: Layout)
    ensures [w] + [b] + [s] + c + [g] == [w, b, s] + c + [g]
  {
  }

  lemma HungSet(O: Option<Doc>, items: seq<Item>, close: Option<Doc>, k: nat, sp: Doc, step: Doc, r: Layout)
    requires sp.Text? && step.Text? && GroupWellFormed(O, items, close) && 1 <= k < |items|
    ensures OffersOf(HungOf(O, items, k, sp, step, close), r) <==> SetIn(Hung(k), O, items, close, sp, step, r)
  {
    hide WellFormed, Offers, RowOf, JoinOf, PartOffers, PartWellFormed, FirstLine, StackOf, Spaced, ItemsOffer, Blank;
    var first, rest := FirstLine(items, k, sp), items[k..];
    var begun := JoinOf(O, first, None, None, None);
    ItemsSlice(items, k);
    FirstLayouts(items, k, sp, r);
    OpenedLayouts(O, first, r);
    BelowLayouts(begun, items[k].at, step, rest, close, 1, r);
    if OffersOf(HungOf(O, items, k, sp, step, close), r) {
      var w, s, c :| Offers(begun, w) && Offers(StackOf(rest), s) && PartOffers(close, c) &&
                     r == RowOf([Broken(w, items[k].at), TokOf(step), s] + c + [Worse(1)]);
      HungTaken(O, items, close, k, sp, step, w, s, c);
    }
    if SetIn(Hung(k), O, items, close, sp, step, r) {
      var x :| InStyle(Hung(k), O, items, close, sp, step, r, x);
      HungGiven(O, items, close, k, sp, step, r, x);
    }
  }

  lemma HungTaken(O: Option<Doc>, items: seq<Item>, close: Option<Doc>, k: nat, sp: Doc, step: Doc, w: Layout, s: Layout, c: seq<Layout>)
    requires sp.Text? && step.Text? && GroupWellFormed(O, items, close) && 1 <= k < |items|
    requires OffersOf(JoinOf(O, FirstLine(items, k, sp), None, None, None), w) && OffersOf(StackOf(items[k..]), s) && PartOffers(close, c)
    ensures SetIn(Hung(k), O, items, close, sp, step, RowOf([Broken(w, items[k].at), TokOf(step), s] + c + [Worse(1)]))
  {
    hide WellFormed, Offers, RowOf, JoinOf, PartOffers, PartWellFormed, FirstLine, StackOf, Spaced;
    ItemsSlice(items, k);
    FirstLayouts(items, k, sp, w);
    OpenedLayouts(O, FirstLine(items, k, sp), w);
    var o, f :| PartOffers(O, o) && Offers(FirstLine(items, k, sp), f) && w == RowOf(o + [f]);
    var xs := SplitTaken(items, k, sp, f, s);
    assert InStyle(Hung(k), O, items, close, sp, step, RowOf([Broken(w, items[k].at), TokOf(step), s] + c + [Worse(1)]), Inner(o, xs, c));
  }

  lemma HungGiven(O: Option<Doc>, items: seq<Item>, close: Option<Doc>, k: nat, sp: Doc, step: Doc, r: Layout, x: Inner)
    requires sp.Text? && step.Text? && GroupWellFormed(O, items, close) && 1 <= k < |items|
    requires InStyle(Hung(k), O, items, close, sp, step, r, x)
    ensures WellFormed(JoinOf(O, FirstLine(items, k, sp), None, None, None)) && WellFormed(StackOf(items[k..]))
    ensures exists w, s, c :: Offers(JoinOf(O, FirstLine(items, k, sp), None, None, None), w) && Offers(StackOf(items[k..]), s) &&
                              PartOffers(close, c) && r == RowOf([Broken(w, items[k].at), TokOf(step), s] + c + [Worse(1)])
  {
    hide WellFormed, Offers, RowOf, JoinOf, PartOffers, PartWellFormed, FirstLine, StackOf, Spaced;
    SplitGiven(items, k, sp, x.xs);
    var f, s := RowOf(Spaced(x.xs[..k], TokOf(sp))), RowOf(StackLines(items[k..], x.xs[k..], |items| - k));
    var w := RowOf(x.o + [f]);
    OpenedLayouts(O, FirstLine(items, k, sp), w);
    assert Offers(JoinOf(O, FirstLine(items, k, sp), None, None, None), w) && Offers(StackOf(items[k..]), s) &&
           PartOffers(close, x.c) && r == RowOf([Broken(w, items[k].at), TokOf(step), s] + x.c + [Worse(1)]);
  }

  lemma NextLineSet(O: Option<Doc>, items: seq<Item>, close: Option<Doc>, sp: Doc, step: Doc, r: Layout)
    requires sp.Text? && step.Text? && GroupWellFormed(O, items, close) && O.Some?
    ensures OffersOf(LispOf(O.value, items, step, close), r) <==> SetIn(NextLine, O, items, close, sp, step, r)
  {
    hide WellFormed, Offers, RowOf, JoinOf, StackOf, Spaced, Blank, OffersOf;
    BelowLayouts(O.value, items[0].at, step, items, close, 2, r);
    if OffersOf(LispOf(O.value, items, step, close), r) {
      var w, s, c :| Offers(O.value, w) && Offers(StackOf(items), s) && PartOffers(close, c) &&
                     r == RowOf([Broken(w, items[0].at), TokOf(step), s] + c + [Worse(2)]);
      StackOffers(items, s);
      var xs :| ItemsOffer(items, xs) && s == RowOf(StackLines(items, xs, |items|));
      assert InStyle(NextLine, O, items, close, sp, step, r, Inner([w], xs, c));
    }
    if SetIn(NextLine, O, items, close, sp, step, r) {
      var x :| InStyle(NextLine, O, items, close, sp, step, r, x);
      var s := RowOf(StackLines(items, x.xs, |items|));
      StackOffers(items, s);
      assert Offers(O.value, x.o[0]) && Offers(StackOf(items), s) && PartOffers(close, x.c);
    }
  }

  lemma NextItems(items: seq<Item>, x0: Layout, xs: seq<Layout>)
    requires items != [] && ItemsWellFormed(items)
    ensures ItemsOffer(items, [x0] + xs) <==> Offers(items[0].d, x0) && NextOffer(items, xs, |items| - 1)
  {
    hide WellFormed, Offers;
    if Offers(items[0].d, x0) && NextOffer(items, xs, |items| - 1) {
      forall i | 0 <= i < |items| ensures Offers(items[i].d, ([x0] + xs)[i]) {
        if i > 0 { assert Offers(items[(i - 1) + 1].d, xs[i - 1]); }
      }
    }
    if ItemsOffer(items, [x0] + xs) {
      forall i | 0 <= i < |items| - 1 ensures Offers(items[i + 1].d, xs[i]) { assert ([x0] + xs)[i + 1] == xs[i]; }
    }
  }

  lemma Headed(x: seq<Layout>)
    requires x != []
    ensures x == [x[0]] + x[1..]
  {
  }

  lemma AlignedFillSet(O: Option<Doc>, items: seq<Item>, close: Option<Doc>, sp: Doc, step: Doc, r: Layout)
    requires sp.Text? && step.Text? && GroupWellFormed(O, items, close)
    ensures OffersOf(JoinOf(O, FillOf(items[0].d, items, sp, None, |items|), close, None, None), r) <==>
            exists breaks :: SetIn(FilledAligned(breaks), O, items, close, sp, step, r)
  {
    hide WellFormed, Offers, RowOf, JoinOf, FillOf, PartWellFormed, IsFill, FillLayout, SetIn;
    var L := FillOf(items[0].d, items, sp, None, |items|);
    FillOffers(items[0].d, items, sp, None, |items| - 1, r);
    PartIs(L, []);
    JoinFormed(O, L, close, None, None);
    JoinLayouts(O, L, close, None, None, r);
    if OffersOf(JoinOf(O, L, close, None, None), r) {
      var p :| PiecesOffer(O, L, close, None, None, p) && r == p.Row();
      AlignedFillTaken(O, items, close, sp, step, r, p);
    }
    if breaks :| SetIn(FilledAligned(breaks), O, items, close, sp, step, r) {
      AlignedFillGiven(O, items, close, sp, step, breaks, r);
    }
  }

  lemma AlignedFillGiven(O: Option<Doc>, items: seq<Item>, close: Option<Doc>, sp: Doc, step: Doc, breaks: seq<bool>, r: Layout)
    requires sp.Text? && step.Text? && GroupWellFormed(O, items, close) && SetIn(FilledAligned(breaks), O, items, close, sp, step, r)
    ensures exists p :: PiecesOffer(O, FillOf(items[0].d, items, sp, None, |items|), close, None, None, p) && r == p.Row()
  {
    hide WellFormed, Offers, RowOf, FillOf, FillLayout;
    var x :| InStyle(FilledAligned(breaks), O, items, close, sp, step, r, x);
    var f := FillLayout(x.xs[0], items, x.xs[1..], sp, None, breaks);
    FillGiven(items[0].d, x.xs[0], items, x.xs, sp, None, breaks);
    RowShort(x.o, f, x.c);
    assert PiecesOffer(O, FillOf(items[0].d, items, sp, None, |items|), close, None, None, Pieces(x.o, f, x.c, [], []));
  }

  lemma FillGiven(start: Doc, s: Layout, items: seq<Item>, xs: seq<Layout>, sp: Doc, step: Option<Doc>, breaks: seq<bool>)
    requires sp.Text? && (step.Some? ==> step.value.Text?) && items != [] && ItemsWellFormed(items) && ItemsOffer(items, xs)
    requires WellFormed(start) && Offers(start, s) && |breaks| == |items| - 1
    ensures WellFormed(FillOf(start, items, sp, step, |items|))
    ensures Offers(FillOf(start, items, sp, step, |items|), FillLayout(s, items, xs[1..], sp, step, breaks))
  {
    hide WellFormed, Offers, FillOf, FillLayout;
    Headed(xs);
    NextItems(items, xs[0], xs[1..]);
    FillOffers(start, items, sp, step, |items| - 1, FillLayout(s, items, xs[1..], sp, step, breaks));
  }

  /** The layouts that filled items were made of. */
  lemma FillTaken(start: Doc, items: seq<Item>, sp: Doc, step: Option<Doc>, f: Layout)
    returns (s: Layout, xs: seq<Layout>, breaks: seq<bool>)
    requires sp.Text? && (step.Some? ==> step.value.Text?) && items != [] && ItemsWellFormed(items) && WellFormed(start)
    requires OffersOf(FillOf(start, items, sp, step, |items|), f)
    ensures |breaks| == |items| - 1 && NextOffer(items, xs, |items| - 1) && Offers(start, s)
    ensures f == FillLayout(s, items, xs, sp, step, breaks)
  {
    hide WellFormed, Offers, FillOf, FillLayout;
    FillOffers(start, items, sp, step, |items| - 1, f);
    s, xs, breaks :| |breaks| == |items| - 1 && NextOffer(items, xs, |items| - 1) && Offers(start, s) &&
                     f == FillLayout(s, items, xs, sp, step, breaks);
  }

  lemma AlignedFillTaken(O: Option<Doc>, items: seq<Item>, close: Option<Doc>, sp: Doc, step: Doc, r: Layout, p: Pieces)
    requires sp.Text? && step.Text? && GroupWellFormed(O, items, close)
    requires PiecesOffer(O, FillOf(items[0].d, items, sp, None, |items|), close, None, None, p) && r == p.Row()
    ensures exists breaks :: SetIn(FilledAligned(breaks), O, items, close, sp, step, r)
  {
    hide WellFormed, Offers, RowOf, FillOf, FillLayout, ItemsOffer, NextOffer, SetIn;
    var s, xs, breaks := FillTaken(items[0].d, items, sp, None, p.b);
    RowShort(p.a, p.b, p.c);
    AlignedFillMade(O, items, close, sp, step, p.a, s, xs, p.c, breaks);
  }

  lemma AlignedFillMade(O: Option<Doc>, items: seq<Item>, close: Option<Doc>, sp: Doc, step: Doc, o: seq<Layout>, s: Layout,
                        xs: seq<Layout>, c: seq<Layout>, breaks: seq<bool>)
    requires sp.Text? && step.Text? && GroupWellFormed(O, items, close) && PartOffers(O, o) && PartOffers(close, c)
    requires |breaks| == |items| - 1 && NextOffer(items, xs, |items| - 1) && Offers(items[0].d, s)
    ensures SetIn(FilledAligned(breaks), O, items, close, sp, step, RowOf(o + [FillLayout(s, items, xs, sp, None, breaks)] + c))
  {
    hide WellFormed, Offers, RowOf, FillLayout;
    NextItems(items, s, xs);
    var x := Inner(o, [s] + xs, c);
    assert x.xs[1..] == xs && x.xs[0] == s;
    assert InStyle(FilledAligned(breaks), O, items, close, sp, step, RowOf(o + [FillLayout(s, items, xs, sp, None, breaks)] + c), x);
  }

  lemma HungFillSet(O: Option<Doc>, items: seq<Item>, close: Option<Doc>, sp: Doc, step: Doc, r: Layout)
    requires sp.Text? && step.Text? && GroupWellFormed(O, items, close)
    ensures OffersOf(JoinOf(None, FillOf(JoinOf(O, items[0].d, None, None, None), items, sp, Some(step), |items|), close,
                            Some(Blank(0.0, 1)), None), r) <==>
            exists breaks :: SetIn(FilledHung(breaks), O, items, close, sp, step, r)
  {
    hide WellFormed, Offers, RowOf, JoinOf, FillOf, PartWellFormed, IsFill, FillLayout, Blank, SetIn, PartOffers;
    var begun := JoinOf(O, items[0].d, None, None, None);
    var H := FillOf(begun, items, sp, Some(step), |items|);
    OpenedLayouts(O, items[0].d, r);
    FillOffers(begun, items, sp, Some(step), |items| - 1, r);
    WorseLayouts(H, close, 1, r);
    if OffersOf(JoinOf(None, H, close, Some(Blank(0.0, 1)), None), r) {
      var f, c :| Offers(H, f) && PartOffers(close, c) && r == RowOf([f] + c + [Worse(1)]);
      HungFillTaken(O, items, close, sp, step, f, c);
    }
    if breaks :| SetIn(FilledHung(breaks), O, items, close, sp, step, r) {
      HungFillGiven(O, items, close, sp, step, breaks, r);
    }
  }

  /** Some layout, the closing, and a badness. */
  lemma WorseLayouts(a: Doc, close: Option<Doc>, bad: nat, r: Layout)
    requires WellFormed(a) && PartWellFormed(close)
    ensures OffersOf(JoinOf(None, a, close, Some(Blank(0.0, bad)), None), r) <==>
            exists f, c :: Offers(a, f) && PartOffers(close, c) && r == RowOf([f] + c + [Worse(bad)])
  {
    hide WellFormed, Offers, RowOf, JoinOf;
    var worse := Blank(0.0, bad);
    BlankIs(bad, r);
    SpaceWellFormed(worse);
    JoinFormed(None, a, close, Some(worse), None);
    JoinLayouts(None, a, close, Some(worse), None, r);
    if OffersOf(JoinOf(None, a, close, Some(worse), None), r) {
      var p :| PiecesOffer(None, a, close, Some(worse), None, p) && r == p.Row();
      RowFilled(p.b, p.c, Worse(bad));
      assert p.e == [Worse(bad)];
      assert Offers(a, p.b) && PartOffers(close, p.c) && r == RowOf([p.b] + p.c + [Worse(bad)]);
    }
    if f, c :| Offers(a, f) && PartOffers(close, c) && r == RowOf([f] + c + [Worse(bad)]) {
      RowFilled(f, c, Worse(bad));
      assert PiecesOffer(None, a, close, Some(worse), None, Pieces([], f, c, [Worse(bad)], []));
    }
  }

  lemma RowFilled(b: Layout, c: seq<Layout>, g: Layout)
    ensures [] + [b] + c + [g] + [] == [b] + c + [g]
  {
  }

  lemma HungFillTaken(O: Option<Doc>, items: seq<Item>, close: Option<Doc>, sp: Doc, step: Doc, f: Layout, c: seq<Layout>)
    requires sp.Text? && step.Text? && GroupWellFormed(O, items, close) && PartOffers(close, c)
    requires OffersOf(FillOf(JoinOf(O, items[0].d, None, None, None), items, sp, Some(step), |items|), f)
    ensures exists breaks :: SetIn(FilledHung(breaks), O, items, close, sp, step, RowOf([f] + c + [Worse(1)]))
  {
    hide WellFormed, Offers, RowOf, FillOf, JoinOf, FillLayout, ItemsOffer, NextOffer, SetIn, PartOffers;
    var begun := JoinOf(O, items[0].d, None, None, None);
    OpenedLayouts(O, items[0].d, f);
    var s, xs, breaks := FillTaken(begun, items, sp, Some(step), f);
    OpenedLayouts(O, items[0].d, s);
    var o, x0 :| PartOffers(O, o) && Offers(items[0].d, x0) && s == RowOf(o + [x0]);
    HungFillMade(O, items, close, sp, step, o, x0, xs, c, breaks);
  }

  lemma HungFillMade(O: Option<Doc>, items: seq<Item>, close: Option<Doc>, sp: Doc, step: Doc, o: seq<Layout>, x0: Layout,
                     xs: seq<Layout>, c: seq<Layout>, breaks: seq<bool>)
    requires sp.Text? && step.Text? && GroupWellFormed(O, items, close) && PartOffers(O, o) && PartOffers(close, c)
    requires |breaks| == |items| - 1 && NextOffer(items, xs, |items| - 1) && Offers(items[0].d, x0)
    ensures SetIn(FilledHung(breaks), O, items, close, sp, step,
              RowOf([FillLayout(RowOf(o + [x0]), items, xs, sp, Some(step), breaks)] + c + [Worse(1)]))
  {
    hide WellFormed, Offers, RowOf, FillLayout;
    NextItems(items, x0, xs);
    var x := Inner(o, [x0] + xs, c);
    assert x.xs[1..] == xs && x.xs[0] == x0;
    assert InStyle(FilledHung(breaks), O, items, close, sp, step,
                   RowOf([FillLayout(RowOf(o + [x0]), items, xs, sp, Some(step), breaks)] + c + [Worse(1)]), x);
  }

  lemma HungFillGiven(O: Option<Doc>, items: seq<Item>, close: Option<Doc>, sp: Doc, step: Doc, breaks: seq<bool>, r: Layout)
    requires sp.Text? && step.Text? && GroupWellFormed(O, items, close) && SetIn(FilledHung(breaks), O, items, close, sp, step, r)
    ensures exists f, c :: OffersOf(FillOf(JoinOf(O, items[0].d, None, None, None), items, sp, Some(step), |items|), f) &&
                           PartOffers(close, c) && r == RowOf([f] + c + [Worse(1)])
  {
    hide WellFormed, Offers, RowOf, FillOf, JoinOf, FillLayout;
    var x :| InStyle(FilledHung(breaks), O, items, close, sp, step, r, x);
    var begun, s := JoinOf(O, items[0].d, None, None, None), RowOf(x.o + [x.xs[0]]);
    assert Offers(items[0].d, x.xs[0]);
    OpenedLayouts(O, items[0].d, s);
    FillGiven(begun, s, items, x.xs, sp, Some(step), breaks);
    var f := FillLayout(s, items, x.xs[1..], sp, Some(step), breaks);
    assert OffersOf(FillOf(begun, items, sp, Some(step), |items|), f) && PartOffers(close, x.c) && r == RowOf([f] + x.c + [Worse(1)]);
  }

  // ----- All styles -----

  lemma GroupFormed(O: Option<Doc>, items: seq<Item>, close: Option<Doc>, isList: bool, firstIsElement: bool, sp: Doc, step: Doc)
    requires |items| >= 2 && sp.Text? && (!isList ==> O.Some?) && ArgsOf(O, items, close, isList, firstIsElement, sp, step).Some?
    requires WellFormed(ArgsOf(O, items, close, isList, firstIsElement, sp, step).value)
    ensures WholeOf(O, items, sp, close).Some? && GroupWellFormed(O, items, close)
  {
    hide LispOf, WholeOf, JoinOf, FillOf, WellFormed, StackChoices, AllSimpleAfterFirst, CountGroups, CatOf, LineDocs, StackedOffers, OffersOf;
    var whole := WholeOf(O, items, sp, close).value;
    var one := One(0, whole, if isList && CountGroups(items) > 1 then 0.5 else 1.0);
    var acc := if AllSimpleAfterFirst(items) then FillChoices(one, O, items, sp, step, close)
               else StackChoices(one, O, items, 1, sp, step, close);
    var r := TokOf(sp);
    if IsDeep(items, isList, firstIsElement) { OrIs(acc, LispOf(O.value, items, step, close), r); }
    assert WellFormed(acc);
    if AllSimpleAfterFirst(items) {
      FilledFormed(one, O, items, sp, step, close);
    } else {
      StackChoicesOffer(one, O, items, 1, sp, step, close, r);
    }
    OneIs(whole, one.max, r);
    WholeIsJoin(O, items, sp, close);
    JoinWellFormed(O, CatOf(LineDocs(items, sp)), close, None, None);
    CatIsWellFormed(LineDocs(items, sp));
    LineWellFormed(items, sp);
  }

  lemma FilledFormed(one: Doc, O: Option<Doc>, items: seq<Item>, sp: Doc, step: Doc, close: Option<Doc>)
    requires items != [] && WellFormed(FillChoices(one, O, items, sp, step, close))
    ensures WellFormed(one)
  {
    hide JoinOf, FillOf;
  }

  /** A group of two or more items offers exactly the layouts of its styles, made of any layouts of its
      parts. */
  lemma GroupLayouts(O: Option<Doc>, items: seq<Item>, close: Option<Doc>, isList: bool, firstIsElement: bool, sp: Doc, step: Doc, r: Layout)
    requires |items| >= 2 && sp.Text? && step.Text? && (!isList ==> O.Some?)
    requires ArgsOf(O, items, close, isList, firstIsElement, sp, step).Some?
    requires WellFormed(ArgsOf(O, items, close, isList, firstIsElement, sp, step).value)
    ensures OffersOf(ArgsOf(O, items, close, isList, firstIsElement, sp, step).value, r) <==>
            exists style :: HasStyle(style, items, isList, firstIsElement) && SetIn(style, O, items, close, sp, step, r)
  {
    hide LispOf, WholeOf, JoinOf, FillOf, WellFormed, OffersOf, SetIn, ArgsOf, StackedOffers;
    GroupFormed(O, items, close, isList, firstIsElement, sp, step);
    ArgsOffer(O, items, close, isList, firstIsElement, sp, step, r);
    OneLineSet(O, items, close, sp, step, r);
    assert HasStyle(OneLine, items, isList, firstIsElement);
    if O.Some? { NextLineSet(O, items, close, sp, step, r); }
    assert IsDeep(items, isList, firstIsElement) <==> HasStyle(NextLine, items, isList, firstIsElement);
    if AllSimpleAfterFirst(items) {
      FilledStyles(O, items, close, isList, firstIsElement, sp, step, r);
    } else {
      StackedStyles(O, items, close, isList, firstIsElement, sp, step, r);
    }
  }

  /** Some style other than one line and the next line. */
  ghost predicate SetBetween(O: Option<Doc>, items: seq<Item>, close: Option<Doc>, isList: bool, firstIsElement: bool, sp: Doc, step: Doc,
                             r: Layout)
    requires sp.Text? && step.Text?
  {
    exists style: Style :: !style.OneLine? && !style.NextLine? && HasStyle(style, items, isList, firstIsElement) &&
                    SetIn(style, O, items, close, sp, step, r)
  }

  lemma FilledStyles(O: Option<Doc>, items: seq<Item>, close: Option<Doc>, isList: bool, firstIsElement: bool, sp: Doc, step: Doc, r: Layout)
    requires GroupWellFormed(O, items, close) && sp.Text? && step.Text? && AllSimpleAfterFirst(items)
    ensures SetBetween(O, items, close, isList, firstIsElement, sp, step, r) <==>
            OffersOf(JoinOf(O, FillOf(items[0].d, items, sp, None, |items|), close, None, None), r) ||
            OffersOf(JoinOf(None, FillOf(JoinOf(O, items[0].d, None, None, None), items, sp, Some(step), |items|), close,
                            Some(Blank(0.0, 1)), None), r)
  {
    hide JoinOf, FillOf, WellFormed, OffersOf, SetIn;
    AlignedFillSet(O, items, close, sp, step, r);
    HungFillSet(O, items, close, sp, step, r);
    forall breaks | SetIn(FilledAligned(breaks), O, items, close, sp, step, r)
      ensures HasStyle(FilledAligned(breaks), items, isList, firstIsElement)
    {
      SetSized(FilledAligned(breaks), O, items, close, sp, step, r);
    }
    forall breaks | SetIn(FilledHung(breaks), O, items, close, sp, step, r)
      ensures HasStyle(FilledHung(breaks), items, isList, firstIsElement)
    {
      SetSized(FilledHung(breaks), O, items, close, sp, step, r);
    }
  }

  lemma SetSized(style: Style, O: Option<Doc>, items: seq<Item>, close: Option<Doc>, sp: Doc, step: Doc, r: Layout)
    requires sp.Text? && step.Text? && SetIn(style, O, items, close, sp, step, r)
    ensures exists x :: Sized(style, items, x)
  {
    hide GroupLayout, KeptOnLine, InnerOffers;
    var x :| InStyle(style, O, items, close, sp, step, r, x);
  }

  lemma StackedStyles(O: Option<Doc>, items: seq<Item>, close: Option<Doc>, isList: bool, firstIsElement: bool, sp: Doc, step: Doc, r: Layout)
    requires GroupWellFormed(O, items, close) && sp.Text? && step.Text? && !AllSimpleAfterFirst(items)
    ensures SetBetween(O, items, close, isList, firstIsElement, sp, step, r) <==> StackedOffers(O, items, 1, sp, step, close, r)
  {
    hide JoinOf, FillOf, WellFormed, OffersOf, SetIn, AlignedOf, HungOf;
    if StackedOffers(O, items, 1, sp, step, close, r) {
      var k :| 1 <= k && MayOpen(items, k) &&
        (OffersOf(AlignedOf(O, items, k, sp, close), r) || OffersOf(HungOf(O, items, k, sp, step, close), r));
      AlignedSet(O, items, close, k, sp, step, r);
      HungSet(O, items, close, k, sp, step, r);
      assert HasStyle(Aligned(k), items, isList, firstIsElement) && HasStyle(Hung(k), items, isList, firstIsElement);
    }
    if SetBetween(O, items, close, isList, firstIsElement, sp, step, r) {
      var style: Style :| !style.OneLine? && !style.NextLine? && HasStyle(style, items, isList, firstIsElement) &&
                   SetIn(style, O, items, close, sp, step, r);
      var k := style.k;
      assert MayOpen(items, k);
      AlignedSet(O, items, close, k, sp, step, r);
      HungSet(O, items, close, k, sp, step, r);
    }
  }

  // ----- How wide a group on one line may be -----

  /** Two of the items are groups. */
  predicate TwoGroups(items: seq<Item>)
  {
    exists i, j :: 0 <= i < j < |items| && !items[i].simple && !items[j].simple
  }

  lemma {:induction false} CountSome(items: seq<Item>)
    ensures CountGroups(items) > 0 <==> exists i :: 0 <= i < |items| && !items[i].simple
  {
    if items != [] {
      CountSome(items[1..]);
      if i :| 0 <= i < |items| && !items[i].simple { assert i > 0 ==> items[1..][i - 1] == items[i]; }
      if i :| 0 <= i < |items[1..]| && !items[1..][i].simple { assert items[i + 1] == items[1..][i]; }
    }
  }

  lemma {:induction false} CountTwo(items: seq<Item>)
    ensures CountGroups(items) > 1 <==> TwoGroups(items)
  {
    if items != [] {
      CountTwo(items[1..]);
      CountSome(items[1..]);
      if TwoGroups(items[1..]) {
        var i, j :| 0 <= i < j < |items[1..]| && !items[1..][i].simple && !items[1..][j].simple;
        assert !items[i + 1].simple && !items[j + 1].simple;
      }
      if !items[0].simple && CountGroups(items[1..]) > 0 {
        var j :| 0 <= j < |items[1..]| && !items[1..][j].simple;
        assert !items[0].simple && !items[j + 1].simple;
      }
      if TwoGroups(items) {
        var i, j :| 0 <= i < j < |items| && !items[i].simple && !items[j].simple;
        assert items[1..][j - 1] == items[j];
        if i > 0 { assert items[1..][i - 1] == items[i]; }
      }
    }
  }

  lemma {:induction false} RowBroken(ls: seq<Layout>, i: nat)
    requires i < |ls| && ls[i].Broken?
    ensures !OnOneLine(RowOf(ls))
  {
    if |ls| > 1 && i < |ls| - 1 { RowBroken(ls[..|ls| - 1], i); }
  }

  /** Stacked and from the next line, a group is never on one line. */
  lemma StackedBreaks(style: Style, O: Option<Doc>, items: seq<Item>, close: Option<Doc>, sp: Doc, step: Doc, r: Layout)
    requires sp.Text? && step.Text? && (style.Aligned? || style.Hung? || style.NextLine?) && SetIn(style, O, items, close, sp, step, r)
    ensures !OnOneLine(r)
  {
    hide RowOf, InnerOffers, OnOneLine, Spaced;
    var x :| InStyle(style, O, items, close, sp, step, r, x);
    var n := |items|;
    match style
    case Aligned(k) =>
      var s := RowOf(StackLines(items[k..], x.xs[k..], n - k));
      RowBroken(x.o + [Broken(RowOf(Spaced(x.xs[..k], TokOf(sp))), items[k].at), s] + x.c, |x.o|);
    case Hung(k) =>
      var s := RowOf(StackLines(items[k..], x.xs[k..], n - k));
      RowBroken([Broken(RowOf(x.o + [RowOf(Spaced(x.xs[..k], TokOf(sp)))]), items[k].at), TokOf(step), s] + x.c + [Worse(1)], 0);
    case NextLine =>
      RowBroken([Broken(x.o[0], items[0].at), TokOf(step), RowOf(StackLines(items, x.xs, n))] + x.c + [Worse(2)], 0);
  }

  ghost predicate WithinOf(d: Doc, r: Layout, E: Env)
  {
    WellFormed(d) && OffersWithin(d, r, E)
  }

  lemma OrWithin(a: Doc, b: Doc, r: Layout, E: Env)
    requires WellFormed(Or(0, a, b))
    ensures WellFormed(a) && WellFormed(b) && (WithinOf(Or(0, a, b), r, E) <==> WithinOf(a, r, E) || WithinOf(b, r, E))
  {
  }

  lemma WithinIsOffered(d: Doc, r: Layout, E: Env)
    requires WithinOf(d, r, E)
    ensures OffersOf(d, r) && Allowed(r, E)
  {
    WithinOffered(d, r, E);
  }

  /** A one-line layout comes from the one-line alternative, if the others are stacked. */
  lemma {:induction false} StackChoicesWithin(acc: Doc, O: Option<Doc>, items: seq<Item>, k: nat, sp: Doc, step: Doc, close: Option<Doc>,
                                              r: Layout, E: Env)
    requires GroupWellFormed(O, items, close) && sp.Text? && step.Text? && 1 <= k <= |items| && OnOneLine(r)
    requires WellFormed(StackChoices(acc, O, items, k, sp, step, close))
    ensures WithinOf(StackChoices(acc, O, items, k, sp, step, close), r, E) <==> WithinOf(acc, r, E)
    decreases |items| - k
  {
    hide AlignedOf, HungOf, WellFormed, WithinOf, OffersOf, SetIn;
    if k < |items| {
      var a, h := AlignedOf(O, items, k, sp, close), HungOf(O, items, k, sp, step, close);
      var more := Or(0, Or(0, acc, a), h);
      if items[k].simple { StackChoicesWithin(more, O, items, k + 1, sp, step, close, r, E); }
      MoreFormed(acc, O, items, k, sp, step, close);
      OrWithin(Or(0, acc, a), h, r, E);
      OrWithin(acc, a, r, E);
      if WithinOf(a, r, E) {
        WithinIsOffered(a, r, E);
        AlignedSet(O, items, close, k, sp, step, r);
        StackedBreaks(Aligned(k), O, items, close, sp, step, r);
      }
      if WithinOf(h, r, E) {
        WithinIsOffered(h, r, E);
        HungSet(O, items, close, k, sp, step, r);
        StackedBreaks(Hung(k), O, items, close, sp, step, r);
      }
    }
  }

  lemma {:induction false} MoreFormed(acc: Doc, O: Option<Doc>, items: seq<Item>, k: nat, sp: Doc, step: Doc, close: Option<Doc>)
    requires 1 <= k < |items| && WellFormed(StackChoices(acc, O, items, k, sp, step, close))
    ensures WellFormed(Or(0, Or(0, acc, AlignedOf(O, items, k, sp, close)), HungOf(O, items, k, sp, step, close)))
    decreases |items| - k
  {
    hide AlignedOf, HungOf, WellFormed;
    if items[k].simple && k + 1 < |items| {
      var more := Or(0, Or(0, acc, AlignedOf(O, items, k, sp, close)), HungOf(O, items, k, sp, step, close));
      MoreFormed(more, O, items, k + 1, sp, step, close);
      OrIs(Or(0, more, AlignedOf(O, items, k + 1, sp, close)), HungOf(O, items, k + 1, sp, step, close), TokOf(Blank(0.0, 0)));
      OrIs(more, AlignedOf(O, items, k + 1, sp, close), TokOf(Blank(0.0, 0)));
    }
  }

  lemma OneWithin(a: Doc, max: real, r: Layout, E: Env)
    requires max > 0.0 && WellFormed(a) && OnOneLine(r)
    ensures WithinOf(One(0, a, max), r, E) <==> WithinOf(a, r, E) && (IsToken(r) || Within(CostOf(r).mw, Fraction(E.R, max)))
    ensures WithinOf(a, r, E) ==> IsToken(r) || Within(CostOf(r).mw, E.R)
  {
    if OffersWithin(a, r, E) {
      WithinOffered(a, r, E);
      OneLineCost(r);
    }
  }

  /** A list with two groups among its items is on one line only within half of the ribbon; any other
      group may be, wherever its parts in a row are allowed. */
  lemma OneLineShare(O: Option<Doc>, items: seq<Item>, close: Option<Doc>, isList: bool, firstIsElement: bool, sp: Doc, step: Doc,
                     r: Layout, E: Env)
    requires |items| >= 2 && sp.Text? && step.Text? && (!isList ==> O.Some?) && OnOneLine(r)
    requires ArgsOf(O, items, close, isList, firstIsElement, sp, step).Some?
    requires WellFormed(ArgsOf(O, items, close, isList, firstIsElement, sp, step).value)
    ensures WholeOf(O, items, sp, close).Some?
    ensures var group, row := WithinOf(ArgsOf(O, items, close, isList, firstIsElement, sp, step).value, r, E),
                              WithinOf(WholeOf(O, items, sp, close).value, r, E);
            if isList && TwoGroups(items) then
              group <==> row && (IsToken(r) || Within(CostOf(r).mw, Fraction(E.R, 0.5)))
            else
              (row ==> group) && (group ==> IsToken(r) || Within(CostOf(r).mw, E.R))
  {
    hide LispOf, WholeOf, FillOf, JoinOf, WellFormed, StackChoices, WithinOf, CountGroups, OffersOf, SetIn;
    GroupFormed(O, items, close, isList, firstIsElement, sp, step);
    CountTwo(items);
    OneLineSet(O, items, close, sp, step, r);
    var whole := WholeOf(O, items, sp, close).value;
    var max := if isList && CountGroups(items) > 1 then 0.5 else 1.0;
    var one := One(0, whole, max);
    OneWithin(whole, max, r, E);
    var acc := if AllSimpleAfterFirst(items) then FillChoices(one, O, items, sp, step, close)
               else StackChoices(one, O, items, 1, sp, step, close);
    NextLineWithin(acc, O, items, close, isList, firstIsElement, sp, step, r, E);
    if AllSimpleAfterFirst(items) {
      FillChoicesWithin(one, O, items, sp, step, close, r, E);
      if isList && TwoGroups(items) { TwoNotSimple(items); }
    } else {
      StackChoicesWithin(one, O, items, 1, sp, step, close, r, E);
    }
    var d := ArgsOf(O, items, close, isList, firstIsElement, sp, step).value;
    if WithinOf(d, r, E) {
      WithinIsOffered(d, r, E);
      OneLineCost(r);
    }
  }

  lemma TwoNotSimple(items: seq<Item>)
    requires TwoGroups(items)
    ensures !AllSimpleAfterFirst(items)
  {
  }

  lemma NextLineWithin(acc: Doc, O: Option<Doc>, items: seq<Item>, close: Option<Doc>, isList: bool, firstIsElement: bool, sp: Doc,
                       step: Doc, r: Layout, E: Env)
    requires GroupWellFormed(O, items, close) && sp.Text? && step.Text? && (!isList ==> O.Some?) && OnOneLine(r)
    requires WellFormed(if IsDeep(items, isList, firstIsElement) then Or(0, acc, LispOf(O.value, items, step, close)) else acc)
    ensures WellFormed(acc)
    ensures WithinOf(if IsDeep(items, isList, firstIsElement) then Or(0, acc, LispOf(O.value, items, step, close)) else acc, r, E) <==>
            WithinOf(acc, r, E)
  {
    hide LispOf, WellFormed, WithinOf, OffersOf, SetIn;
    if IsDeep(items, isList, firstIsElement) {
      var l := LispOf(O.value, items, step, close);
      OrWithin(acc, l, r, E);
      if WithinOf(l, r, E) {
        WithinIsOffered(l, r, E);
        NextLineSet(O, items, close, sp, step, r);
        StackedBreaks(NextLine, O, items, close, sp, step, r);
      }
    }
  }

  lemma FillChoicesWithin(acc: Doc, O: Option<Doc>, items: seq<Item>, sp: Doc, step: Doc, close: Option<Doc>, r: Layout, E: Env)
    requires items != [] && WellFormed(FillChoices(acc, O, items, sp, step, close))
    ensures WithinOf(acc, r, E) ==> WithinOf(FillChoices(acc, O, items, sp, step, close), r, E)
  {
    hide JoinOf, FillOf, WellFormed, WithinOf;
    var a := JoinOf(O, FillOf(items[0].d, items, sp, None, |items|), close, None, None);
    var h := JoinOf(None, FillOf(JoinOf(O, items[0].d, None, None, None), items, sp, Some(step), |items|), close, Some(Blank(0.0, 1)), None);
    OrWithin(Or(0, acc, a), h, r, E);
    OrWithin(acc, a, r, E);
  }
}
