/** How often a layout can break at a mark: on a page each of whose marks stands in one place, at
    most once, so that the plan keeps the column of every break it makes. */
module PrinterMarks {
  import opened Wrappers
  import opened PrinterLayouts
  import opened PrinterFrontier
  import opened PrinterWalk
  import opened PrinterChoice
  import opened PrinterShapes
  import P = PrinterPage

  function Bit(b: bool): nat
  {
    if b then 1 else 0
  }

  /** How often a layout breaks at m. */
  function Breaks(r: Layout, m: Mark): nat
  {
    match r
    case Tok(_, _, _, _) => 0
    case Beside(x, y) => Breaks(x, m) + Breaks(y, m)
    case Broken(x, at) => Breaks(x, m) + Bit(at == m)
  }

  /** How often some layout of a document may. */
  function Cap(d: Doc, m: Mark): nat
    decreases d, 1
  {
    match d
    case Text(_, _, _, _, _) => 0
    case Cat(_, kids) => CapAll(kids, m)
    case Flush(_, a, at) => Cap(a, m) + Bit(at == m)
    case Or(_, a, b) => if Cap(a, m) < Cap(b, m) then Cap(b, m) else Cap(a, m)
    case One(_, _, _) => 0
  }

  function CapAll(ds: seq<Doc>, m: Mark): nat
    decreases ds, 0
  {
    if ds == [] then 0 else CapAll(ds[..|ds| - 1], m) + Cap(ds[|ds| - 1], m)
  }

  lemma {:induction false} OneLineUnbroken(r: Layout, m: Mark)
    requires OnOneLine(r)
    ensures Breaks(r, m) == 0
  {
    if r.Beside? {
      OneLineUnbroken(r.left, m);
      OneLineUnbroken(r.right, m);
    }
  }

  lemma {:induction false} LayoutBreaks(d: Doc, r: Layout, m: Mark)
    requires WellFormed(d) && Offers(d, r)
    ensures Breaks(r, m) <= Cap(d, m)
    decreases d, if d.Cat? then |d.kids| + 1 else 0
  {
    match d
    case Text(_, _, _, _, _) =>
    case Cat(_, kids) =>
      RowBreaks(d, |kids|, r, m);
      assert kids[..|kids|] == kids;
    case Flush(_, a, _) => LayoutBreaks(a, r.box, m);
    case Or(_, a, b) => if Offers(a, r) { LayoutBreaks(a, r, m); } else { LayoutBreaks(b, r, m); }
    case One(_, _, _) => OneLineUnbroken(r, m);
  }

  lemma {:induction false} RowBreaks(d: Doc, n: nat, r: Layout, m: Mark)
    requires WellFormed(d) && d.Cat? && 0 < n <= |d.kids| && OffersRow(d, n, r)
    ensures Breaks(r, m) <= CapAll(d.kids[..n], m)
    decreases d, n
  {
    assert d.kids[..n][..n - 1] == d.kids[..n - 1];
    if n == 1 {
      LayoutBreaks(d.kids[0], r, m);
    } else {
      RowBreaks(d, n - 1, r.left, m);
      LayoutBreaks(d.kids[n - 1], r.right, m);
    }
  }

  // ----- Rows and items -----

  lemma CapSnoc(ds: seq<Doc>, d: Doc, m: Mark)
    ensures CapAll(ds + [d], m) == CapAll(ds, m) + Cap(d, m)
  {
    hide Cap;
    assert (ds + [d])[..|ds|] == ds;
  }

  lemma {:induction false} CapConcat(a: seq<Doc>, b: seq<Doc>, m: Mark)
    ensures CapAll(a + b, m) == CapAll(a, m) + CapAll(b, m)
  {
    hide Cap;
    if b == [] {
      assert a + b == a;
    } else {
      var n := |b| - 1;
      assert a + b == a + b[..n] + [b[n]];
      CapConcat(a, b[..n], m);
      CapSnoc(a + b[..n], b[n], m);
    }
  }

  function PartCap(k: Option<Doc>, m: Mark): nat
  {
    if k.Some? then Cap(k.value, m) else 0
  }

  lemma CapOpt(k: Option<Doc>, m: Mark)
    ensures CapAll(Opt(k), m) == PartCap(k, m)
  {
    hide Cap;
    if k.Some? { CapSnoc([], k.value, m); assert [] + [k.value] == [k.value]; }
  }

  lemma CapCat(ds: seq<Doc>, m: Mark)
    requires ds != []
    ensures Cap(CatOf(ds), m) == CapAll(ds, m)
  {
    if |ds| == 1 { assert ds[..0] == []; }
  }

  lemma CapCatOpt(ds: seq<Doc>, m: Mark)
    ensures PartCap(CatOpt(ds), m) == CapAll(ds, m)
  {
    hide Cap, CatOf;
    if ds != [] { CapCat(ds, m); }
  }

  lemma CapJoin(a: Option<Doc>, b: Doc, c: Option<Doc>, e: Option<Doc>, g: Option<Doc>, m: Mark)
    ensures Cap(JoinOf(a, b, c, e, g), m) == PartCap(a, m) + Cap(b, m) + PartCap(c, m) + PartCap(e, m) + PartCap(g, m)
  {
    hide Cap, CapAll, CatOf, PartCap, Opt;
    CapCat(Opt(a) + [b] + Opt(c) + Opt(e) + Opt(g), m);
    CapConcat(Opt(a) + [b] + Opt(c) + Opt(e), Opt(g), m);
    CapConcat(Opt(a) + [b] + Opt(c), Opt(e), m);
    CapConcat(Opt(a) + [b], Opt(c), m);
    CapSnoc(Opt(a), b, m);
    CapOpt(a, m);
    CapOpt(c, m);
    CapOpt(e, m);
    CapOpt(g, m);
  }

  /** How often layouts of the items may break at m, counting the mark of each. */
  function ItemsCap(items: seq<Item>, m: Mark): nat
  {
    if items == [] then 0
    else
      var last := items[|items| - 1];
      ItemsCap(items[..|items| - 1], m) + Cap(last.d, m) + Bit(last.at == m)
  }

  lemma ItemsSnoc(items: seq<Item>, i: nat, m: Mark)
    requires i < |items|
    ensures ItemsCap(items[..i + 1], m) == ItemsCap(items[..i], m) + Cap(items[i].d, m) + Bit(items[i].at == m)
  {
    hide Cap;
    assert items[..i + 1][..i] == items[..i];
  }

  lemma {:induction false} ItemsSplit(items: seq<Item>, k: nat, m: Mark)
    requires k <= |items|
    ensures ItemsCap(items, m) == ItemsCap(items[..k], m) + ItemsCap(items[k..], m)
  {
    hide Cap;
    if k == |items| {
      assert items[..k] == items && items[k..] == [];
    } else {
      var n := |items| - 1;
      ItemsSplit(items[..n], k, m);
      assert items[..n][..k] == items[..k] && items[..n][k..] == items[k..][..n - k];
    }
  }

  lemma {:induction false} CapStackDocs(items: seq<Item>, n: nat, m: Mark)
    requires items != [] && n <= |items|
    ensures CapAll(StackDocs(items, n), m) + Bit(items[0].at == m) ==
            ItemsCap(items[..n], m) + (if n < |items| then Bit(items[n].at == m) else 0)
  {
    if n > 0 {
      CapStackDocs(items, n - 1, m);
      ItemsSnoc(items, n - 1, m);
      CapSnoc(StackDocs(items, n - 1), if n < |items| then Flush(0, items[n - 1].d, items[n].at) else items[n - 1].d, m);
    }
  }

  /** A stack breaks at the marks of all items but the first. */
  lemma CapStack(items: seq<Item>, m: Mark)
    requires items != []
    ensures Cap(StackOf(items), m) + Bit(items[0].at == m) == ItemsCap(items, m)
  {
    hide Cap, CapAll, CatOf;
    CapStackDocs(items, |items|, m);
    CapCat(StackDocs(items, |items|), m);
    assert items[..|items|] == items;
  }

  lemma {:induction false} CapLine(items: seq<Item>, sp: Doc, m: Mark)
    requires sp.Text?
    ensures CapAll(LineDocs(items, sp), m) <= ItemsCap(items, m)
  {
    if items != [] {
      var n := |items| - 1;
      CapLine(items[..n], sp, m);
      var before := LineDocs(items[..n], sp);
      CapSnoc(before, sp, m);
      CapSnoc(before + (if n > 0 then [sp] else []), items[n].d, m);
      assert before + [] == before;
    }
  }

  // ----- Groups -----

  /** How often a group may break at m: in its opening, its items or its closing. */
  function GroupCap(O: Option<Doc>, items: seq<Item>, close: Option<Doc>, m: Mark): nat
  {
    PartCap(O, m) + ItemsCap(items, m) + PartCap(close, m)
  }

  lemma CapWhole(O: Option<Doc>, items: seq<Item>, sp: Doc, close: Option<Doc>, m: Mark)
    requires sp.Text?
    ensures PartCap(WholeOf(O, items, sp, close), m) <= GroupCap(O, items, close, m)
  {
    hide Cap, CapAll, CatOf, PartCap, Opt, CatOpt;
    var line := CatOpt(LineDocs(items, sp));
    CapLine(items, sp, m);
    CapCatOpt(LineDocs(items, sp), m);
    CapCatOpt(Opt(O) + Opt(line) + Opt(close), m);
    CapConcat(Opt(O) + Opt(line), Opt(close), m);
    CapConcat(Opt(O), Opt(line), m);
    CapOpt(O, m);
    CapOpt(line, m);
    CapOpt(close, m);
  }

  lemma CapLisp(opening: Doc, items: seq<Item>, step: Doc, close: Option<Doc>, m: Mark)
    requires items != [] && step.Text?
    ensures Cap(LispOf(opening, items, step, close), m) <= GroupCap(Some(opening), items, close, m)
  {
    hide JoinOf, StackOf;
    CapStack(items, m);
    CapJoin(Some(Flush(0, opening, items[0].at)), step, Some(StackOf(items)), close, Some(Blank(0.0, 2)), m);
  }

  lemma CapExtend(sofar: Doc, item: Item, sp: Doc, step: Option<Doc>, m: Mark)
    requires sp.Text? && (step.Some? ==> step.value.Text?)
    ensures Cap(ExtendOf(sofar, item, sp, step), m) <= Cap(sofar, m) + Cap(item.d, m) + Bit(item.at == m)
  {
    hide JoinOf;
    var brk := Flush(0, sofar, item.at);
    CapJoin(Some(sofar), sp, Some(item.d), None, None, m);
    if step.Some? {
      CapJoin(Some(brk), step.value, Some(item.d), None, None, m);
    } else {
      CapJoin(Some(brk), item.d, None, None, None, m);
    }
  }

  lemma {:induction false} CapFill(start: Doc, items: seq<Item>, sp: Doc, step: Option<Doc>, n: nat, m: Mark)
    requires 1 <= n <= |items| && sp.Text? && (step.Some? ==> step.value.Text?)
    ensures Cap(FillOf(start, items, sp, step, n), m) + ItemsCap(items[..1], m) <= Cap(start, m) + ItemsCap(items[..n], m)
  {
    hide Cap, ItemsCap, ExtendOf;
    if n > 1 {
      CapFill(start, items, sp, step, n - 1, m);
      CapExtend(FillOf(start, items, sp, step, n - 1), items[n - 1], sp, step, m);
      ItemsSnoc(items, n - 1, m);
    }
  }

  lemma CapOr(a: Doc, b: Doc, n: nat, m: Mark)
    requires Cap(a, m) <= n && Cap(b, m) <= n
    ensures Cap(Or(0, a, b), m) <= n
  {
  }

  lemma CapFilled(acc: Doc, O: Option<Doc>, items: seq<Item>, sp: Doc, step: Doc, close: Option<Doc>, m: Mark)
    requires items != [] && sp.Text? && step.Text? && Cap(acc, m) <= GroupCap(O, items, close, m)
    ensures Cap(FillChoices(acc, O, items, sp, step, close), m) <= GroupCap(O, items, close, m)
  {
    hide Cap, JoinOf, FillOf, ItemsCap;
    var begun := JoinOf(O, items[0].d, None, None, None);
    var L := FillOf(items[0].d, items, sp, None, |items|);
    var H := FillOf(begun, items, sp, Some(step), |items|);
    CapFill(items[0].d, items, sp, None, |items|, m);
    CapFill(begun, items, sp, Some(step), |items|, m);
    ItemsSnoc(items, 0, m);
    assert items[..|items|] == items;
    CapJoin(O, items[0].d, None, None, None, m);
    CapJoin(O, L, close, None, None, m);
    CapJoin(None, H, close, Some(Blank(0.0, 1)), None, m);
    BlankCap(0.0, 1, m);
    CapOr(acc, JoinOf(O, L, close, None, None), GroupCap(O, items, close, m), m);
    CapOr(Or(0, acc, JoinOf(O, L, close, None, None)), JoinOf(None, H, close, Some(Blank(0.0, 1)), None),
      GroupCap(O, items, close, m), m);
  }

  lemma BlankCap(w: Width, bad: nat, m: Mark)
    ensures Cap(Blank(w, bad), m) == 0
  {
  }

  lemma CapFirstLine(items: seq<Item>, k: nat, sp: Doc, m: Mark)
    requires 1 <= k <= |items| && sp.Text?
    ensures Cap(FirstLine(items, k, sp), m) <= ItemsCap(items[..k], m)
  {
    hide ItemsCap, CapAll, CatOf;
    CapLine(items[..k], sp, m);
    CapCat(LineDocs(items[..k], sp), m);
  }

  lemma CapStacked(O: Option<Doc>, items: seq<Item>, k: nat, sp: Doc, step: Doc, close: Option<Doc>, m: Mark)
    requires 1 <= k < |items| && sp.Text? && step.Text?
    ensures Cap(AlignedOf(O, items, k, sp, close), m) <= GroupCap(O, items, close, m)
    ensures Cap(HungOf(O, items, k, sp, step, close), m) <= GroupCap(O, items, close, m)
  {
    hide JoinOf, StackOf, FirstLine, ItemsCap;
    var first, rest := FirstLine(items, k, sp), items[k..];
    var begun := JoinOf(O, first, None, None, None);
    ItemsSplit(items, k, m);
    CapFirstLine(items, k, sp, m);
    CapStack(rest, m);
    CapJoin(O, Flush(0, first, items[k].at), Some(StackOf(rest)), close, None, m);
    CapJoin(O, first, None, None, None, m);
    CapJoin(Some(Flush(0, begun, items[k].at)), step, Some(StackOf(rest)), close, Some(Blank(0.0, 1)), m);
  }

  lemma {:induction false} CapStackChoices(acc: Doc, O: Option<Doc>, items: seq<Item>, k: nat, sp: Doc, step: Doc,
                                           close: Option<Doc>, m: Mark)
    requires 1 <= k <= |items| && sp.Text? && step.Text? && Cap(acc, m) <= GroupCap(O, items, close, m)
    ensures Cap(StackChoices(acc, O, items, k, sp, step, close), m) <= GroupCap(O, items, close, m)
    decreases |items| - k
  {
    hide Cap, AlignedOf, HungOf, GroupCap;
    if k < |items| {
      var n := GroupCap(O, items, close, m);
      var a, h := AlignedOf(O, items, k, sp, close), HungOf(O, items, k, sp, step, close);
      CapStacked(O, items, k, sp, step, close, m);
      CapOr(acc, a, n, m);
      CapOr(Or(0, acc, a), h, n, m);
      if items[k].simple { CapStackChoices(Or(0, Or(0, acc, a), h), O, items, k + 1, sp, step, close, m); }
    }
  }

  lemma CapArgs(O: Option<Doc>, items: seq<Item>, close: Option<Doc>, isList: bool, firstIsElement: bool, sp: Doc, step: Doc, m: Mark)
    requires (!isList ==> O.Some?) && sp.Text? && step.Text?
    ensures PartCap(ArgsOf(O, items, close, isList, firstIsElement, sp, step), m) <= GroupCap(O, items, close, m)
  {
    hide Cap, WholeOf, LispOf, FillChoices, StackChoices, GroupCap, CountGroups, AllSimpleAfterFirst;
    var n, whole := GroupCap(O, items, close, m), WholeOf(O, items, sp, close);
    var deep := IsDeep(items, isList, firstIsElement);
    CapWhole(O, items, sp, close, m);
    if deep { CapLisp(O.value, items, step, close, m); }
    if |items| < 2 {
      if deep && whole.Some? { CapOr(whole.value, LispOf(O.value, items, step, close), n, m); }
    } else if whole.Some? {
      var one := One(0, whole.value, if isList && CountGroups(items) > 1 then 0.5 else 1.0);
      OneCap(one, m);
      CapFilled(one, O, items, sp, step, close, m);
      CapStackChoices(one, O, items, 1, sp, step, close, m);
      var acc := if AllSimpleAfterFirst(items) then FillChoices(one, O, items, sp, step, close)
                 else StackChoices(one, O, items, 1, sp, step, close);
      if deep { CapOr(acc, LispOf(O.value, items, step, close), n, m); }
    }
  }

  lemma OneCap(d: Doc, m: Mark)
    requires d.One?
    ensures Cap(d, m) == 0
  {
  }

  // ----- Chains -----

  function LinkCap(l: Link, m: Mark): nat
  {
    Bit(l.before == Some(m)) + Cap(l.op, m) + Bit(l.after == Some(m)) + Cap(l.operand, m)
  }

  function LinksCap(links: seq<Link>, m: Mark): nat
  {
    if links == [] then 0 else LinksCap(links[..|links| - 1], m) + LinkCap(links[|links| - 1], m)
  }

  function GatheredCap(g: Gathered, m: Mark): nat
  {
    ItemsCap(g.lines, m) + CapAll(g.cur, m) + Bit(g.mark == m)
  }

  /** The mark of the first line, which no break is made at. */
  function FirstMark(g: Gathered): Mark
  {
    if g.lines == [] then g.mark else g.lines[0].at
  }

  lemma CapFinished(g: Gathered, m: Mark)
    requires g.cur != []
    ensures ItemsCap(Finished(g), m) == GatheredCap(g, m) && Finished(g)[0].at == FirstMark(g)
  {
    hide Cap, CatOf;
    CapCat(g.cur, m);
    assert Finished(g)[..|g.lines|] == g.lines;
  }

  lemma CapSpace(at: Option<Mark>, space: Width, m: Mark)
    ensures CapAll(Opt(SpaceOf(at, space)), m) == 0
  {
    CapOpt(SpaceOf(at, space), m);
  }

  lemma CapOperator(g: Gathered, l: Link, leads: bool, space: Width, m: Mark)
    requires g.cur != []
    ensures var o := OperatorOf(g, l, SpaceOf(l.before, space), SpaceOf(l.after, space), leads);
            GatheredCap(o, m) + Cap(l.operand, m) <= GatheredCap(g, m) + LinkCap(l, m) && FirstMark(o) == FirstMark(g)
  {
    hide Cap, CapAll, ItemsCap, Opt, SpaceOf, Finished;
    var b, a := Opt(SpaceOf(l.before, space)), Opt(SpaceOf(l.after, space));
    CapSpace(l.before, space, m);
    CapSpace(l.after, space, m);
    CapConcat(g.cur, b, m);
    CapSnoc(g.cur + b, l.op, m);
    CapConcat(g.cur + b + [l.op], a, m);
    CapConcat([l.op], a, m);
    CapOpt(Some(l.op), m);
    OptOf(l.op);
    NoCap(m);
    CapFinished(g, m);
    CapFinished(g.(cur := g.cur + b + [l.op]), m);
    FinishedSome(g);
    FinishedSome(g.(cur := g.cur + b + [l.op]));
  }

  lemma OptOf(d: Doc)
    ensures Opt(Some(d)) == [d]
  {
  }

  lemma NoCap(m: Mark)
    ensures CapAll([], m) == 0
  {
  }

  lemma FinishedSome(g: Gathered)
    requires g.cur != []
    ensures Finished(g) != []
  {
  }

  lemma {:induction false} CapLinks(first: Doc, links: seq<Link>, leads: bool, space: Width, m: Mark)
    ensures var g := LinksOf(first, links, leads, space);
            GatheredCap(g, m) <= Cap(first, m) + LinksCap(links, m) + Bit(0 == m) && FirstMark(g) == 0
  {
    if links == [] {
      CapSnoc([], first, m);
      assert [] + [first] == [first];
    } else {
      hide Cap, CapAll, ItemsCap, OperatorOf, LinkCap;
      var rest, l := links[..|links| - 1], links[|links| - 1];
      CapLinks(first, rest, leads, space, m);
      var g := LinksOf(first, rest, leads, space);
      var o := OperatorOf(g, l, SpaceOf(l.before, space), SpaceOf(l.after, space), leads);
      CapOperator(g, l, leads, space, m);
      CapSnoc(o.cur, l.operand, m);
    }
  }

  lemma {:induction false} CapFlat(first: Doc, links: seq<Link>, space: Width, m: Mark)
    ensures CapAll(FlatOf(first, links, space), m) <= Cap(first, m) + LinksCap(links, m)
  {
    if links == [] {
      CapSnoc([], first, m);
      assert [] + [first] == [first];
    } else {
      hide Cap, CapAll, SpaceOf, Opt;
      var rest, l := links[..|links| - 1], links[|links| - 1];
      var b, a := Opt(SpaceOf(l.before, space)), Opt(SpaceOf(l.after, space));
      CapFlat(first, rest, space, m);
      CapConcat(FlatOf(first, rest, space), b + [l.op] + a + [l.operand], m);
      CapSnoc(b + [l.op] + a, l.operand, m);
      CapConcat(b + [l.op], a, m);
      CapSnoc(b, l.op, m);
      CapSpace(l.before, space, m);
      CapSpace(l.after, space, m);
    }
  }

  lemma CapChain(first: Doc, links: seq<Link>, leads: bool, bad: nat, space: Width, m: Mark)
    ensures Cap(ChainOf(first, links, leads, bad, space), m) <= Cap(first, m) + LinksCap(links, m)
  {
    hide CapAll, ItemsCap, CatOf, FlatOf, LinksOf, JoinOf, StackOf, LinksCap, Finished;
    var flat, g := FlatOf(first, links, space), LinksOf(first, links, leads, space);
    CapFlat(first, links, space, m);
    CapCat(flat, m);
    CapLinks(first, links, leads, space, m);
    CapFinished(g, m);
    FinishedSome(g);
    CapStack(Finished(g), m);
    CapJoin(None, StackOf(Finished(g)), Some(Blank(0.0, bad)), None, None, m);
  }

  // ----- Pages -----

  /** In how many places of a page a mark stands. */
  function Places(n: P.Page, m: Mark): nat
    decreases n, 1
  {
    match n
    case Leaf(_, _) => 0
    case Plain(_, kids, _) => PlacesAll(kids, m)
    case Group(_, opening, _, children, _, _, _, _, _, _) => PlacesAll(opening, m) + ChildPlaces(children, m)
    case Chain(_, first, links, _, _, _, _) => Places(first, m) + LinkPlaces(links, m)
  }

  function PlacesAll(ns: seq<P.Page>, m: Mark): nat
    decreases ns, 0
  {
    if ns == [] then 0 else Places(ns[0], m) + PlacesAll(ns[1..], m)
  }

  function ChildPlaces(cs: seq<P.Child>, m: Mark): nat
    decreases cs, 0
  {
    if cs == [] then 0 else ChildPlaces(cs[..|cs| - 1], m) + ChildPlace(cs[|cs| - 1], m)
  }

  function ChildPlace(c: P.Child, m: Mark): nat
    decreases c, 0
  {
    if c.Separator? then Bit(c.at == m) else Bit(c.el == m) + Places(c.page, m)
  }

  function LinkPlaces(ls: seq<P.PageLink>, m: Mark): nat
    decreases ls, 0
  {
    if ls == [] then 0 else LinkPlaces(ls[..|ls| - 1], m) + LinkPlace(ls[|ls| - 1], m)
  }

  function LinkPlace(l: P.PageLink, m: Mark): nat
    decreases l, 0
  {
    Bit(l.before == Some(m)) + Places(l.op, m) + Bit(l.after == Some(m)) + Places(l.operand, m)
  }

  lemma {:induction false} PageCap(n: P.Page, m: Mark)
    requires P.Solid(n)
    ensures PartCap(P.PageDoc(n), m) <= Places(n, m)
    decreases n, 2
  {
    if !n.Leaf? {
      InnerCap(n, m);
      CapMargins(n.left, P.InnerDoc(n), n.right, m);
    }
  }

  lemma CapMargins(left: Width, inner: Option<Doc>, right: Width, m: Mark)
    ensures PartCap(P.MarginsOf(left, inner, right), m) == PartCap(inner, m)
  {
    hide CapAll, CatOpt, Opt;
    var l, r := P.MarginOf(left), P.MarginOf(right);
    CapCatOpt(Opt(l) + Opt(inner) + Opt(r), m);
    CapConcat(Opt(l) + Opt(inner), Opt(r), m);
    CapConcat(Opt(l), Opt(inner), m);
    CapOpt(l, m);
    CapOpt(inner, m);
    CapOpt(r, m);
  }

  lemma {:induction false} InnerCap(n: P.Page, m: Mark)
    requires P.Solid(n) && !n.Leaf?
    ensures PartCap(P.InnerDoc(n), m) <= Places(n, m)
    decreases n, 1
  {
    hide Cap, CapAll, CatOpt, ArgsOf, ChainOf, P.ItemDocs, P.LinkDocs, P.PageDocs, P.PageDoc;
    match n
    case Plain(_, kids, _) =>
      DocsCap(kids, m);
      CapCatOpt(P.PageDocs(kids), m);
    case Group(_, opening, boxLeft, children, boxRight, _, isList, firstIsElement, space, indent) =>
      var O, close := P.OpeningDoc(n).0, P.OpeningDoc(n).1;
      OpeningCap(n, m);
      ItemDocsCap(children, m);
      CapArgs(O, P.ItemDocs(children).0, close, isList, firstIsElement, Blank(space, 0), Indent(indent), m);
    case Chain(_, first, links, _, leads, bad, space) =>
      PageCap(first, m);
      LinkDocsCap(links, m);
      CapChain(P.PageDoc(first).value, P.LinkDocs(links), leads, bad, space, m);
  }

  lemma {:induction false} OpeningCap(n: P.Page, m: Mark)
    requires n.Group? && P.Solid(n)
    ensures PartCap(P.OpeningDoc(n).0, m) <= PlacesAll(n.opening, m) && PartCap(P.OpeningDoc(n).1, m) == 0
    decreases n, 0
  {
    hide CapAll, CatOpt, Opt, P.PageDocs;
    if !n.isList {
      DocsCap(n.opening, m);
      var l := P.MarginOf(n.boxLeft);
      CapCatOpt(P.PageDocs(n.opening) + Opt(l), m);
      CapConcat(P.PageDocs(n.opening), Opt(l), m);
      CapOpt(l, m);
    }
  }

  lemma {:induction false} DocsCap(ns: seq<P.Page>, m: Mark)
    requires forall i :: 0 <= i < |ns| ==> P.Solid(ns[i])
    ensures CapAll(P.PageDocs(ns), m) <= PlacesAll(ns, m)
    decreases ns, 0
  {
    if ns == [] {
      NoCap(m);
    } else {
      hide Cap, CapAll, P.PageDoc, Opt;
      PageCap(ns[0], m);
      DocsCap(ns[1..], m);
      CapConcat(Opt(P.PageDoc(ns[0])), P.PageDocs(ns[1..]), m);
      CapOpt(P.PageDoc(ns[0]), m);
    }
  }

  /** Items and the separator still waiting break at no more marks than the children have. */
  lemma {:induction false} ItemDocsCap(cs: seq<P.Child>, m: Mark)
    requires forall i :: 0 <= i < |cs| ==> P.SolidChild(cs[i])
    ensures ItemsCap(P.ItemDocs(cs).0, m) + Bit(P.ItemDocs(cs).1 == Some(m)) <= ChildPlaces(cs, m)
    decreases cs, 0
  {
    if cs != [] {
      hide P.ChildDoc, ItemsCap;
      var n := |cs| - 1;
      ItemDocsCap(cs[..n], m);
      ChildCap(P.ItemDocs(cs[..n]), cs[n], m);
    }
  }

  lemma {:induction false} ChildCap(so: (seq<Item>, Option<Mark>), c: P.Child, m: Mark)
    requires P.SolidChild(c)
    ensures var more := P.ChildDoc(so, c);
            ItemsCap(more.0, m) + Bit(more.1 == Some(m)) <= ItemsCap(so.0, m) + Bit(so.1 == Some(m)) + ChildPlace(c, m)
    decreases c, 0
  {
    hide Cap, P.PageDoc, P.ItemAdded, ItemsCap;
    if c.Part? {
      PageCap(c.page, m);
      var d := P.PageDoc(c.page);
      if d.Some? { AddedCap(so.0, d.value, so.1, c.el, c.simple, m); }
    }
  }

  lemma AddedCap(items: seq<Item>, d: Doc, at: Option<Mark>, el: Mark, simple: bool, m: Mark)
    ensures ItemsCap(P.ItemAdded(items, d, at, el, simple), m) <=
            ItemsCap(items, m) + Bit(at == Some(m)) + Bit(el == m) + Cap(d, m)
  {
    hide Cap, CatOf;
    var more := P.ItemAdded(items, d, at, el, simple);
    if items != [] && at.None? {
      var n := |items| - 1;
      var p := items[n];
      assert more[..n] == items[..n];
      CapCat([p.d, d], m);
      CapSnoc([p.d], d, m);
      CapOpt(Some(p.d), m);
      assert [p.d] + [d] == [p.d, d];
    } else {
      assert more[..|items|] == items;
    }
  }

  lemma {:induction false} LinkDocsCap(ls: seq<P.PageLink>, m: Mark)
    requires forall i :: 0 <= i < |ls| ==> P.SolidLink(ls[i])
    ensures LinksCap(P.LinkDocs(ls), m) <= LinkPlaces(ls, m)
    decreases ls, 0
  {
    if ls != [] {
      hide P.LinkDoc, LinkCap;
      var n := |ls| - 1;
      LinkDocsCap(ls[..n], m);
      LinkDocCap(ls[n], m);
      LinksSnoc(P.LinkDocs(ls[..n]), P.LinkDoc(ls[n]), m);
    }
  }

  lemma LinksSnoc(links: seq<Link>, l: Link, m: Mark)
    ensures LinksCap(links + [l], m) == LinksCap(links, m) + LinkCap(l, m)
  {
    hide LinkCap;
    assert (links + [l])[..|links|] == links;
  }

  lemma {:induction false} LinkDocCap(l: P.PageLink, m: Mark)
    requires P.SolidLink(l)
    ensures LinkCap(P.LinkDoc(l), m) <= LinkPlace(l, m)
    decreases l, 0
  {
    hide Cap, P.PageDoc;
    PageCap(l.op, m);
    PageCap(l.operand, m);
  }

  // ----- Every break is kept -----

  /** Each mark of the page stands in one place. */
  ghost predicate DistinctMarks(n: P.Page)
  {
    forall m: Mark :: Places(n, m) <= 1
  }

  /** How many of the lines set start at m. */
  function NewLinesAt(events: seq<Event>, m: Mark): nat
  {
    if events == [] then 0 else NewLinesAt(events[..|events| - 1], m) + Bit(IsNewLine(events[|events| - 1], m))
  }

  predicate IsNewLine(e: Event, m: Mark)
  {
    e.NewLine? && e.at == m
  }

  lemma {:induction false} NewLinesConcat(a: seq<Event>, b: seq<Event>, m: Mark)
    ensures NewLinesAt(a + b, m) == NewLinesAt(a, m) + NewLinesAt(b, m)
  {
    if b == [] {
      assert a + b == a;
    } else {
      var n := |b| - 1;
      assert (a + b)[..|a| + n] == a + b[..n];
      NewLinesConcat(a, b[..n], m);
    }
  }

  lemma {:induction false} SettingBreaks(r: Layout, col: real, m: Mark)
    ensures NewLinesAt(Setting(r, col), m) == Breaks(r, m)
  {
    match r
    case Tok(_, _, _, _) =>
    case Beside(x, y) =>
      SettingBreaks(x, col, m);
      SettingBreaks(y, EndColumn(x, col), m);
      NewLinesConcat(Setting(x, col), Setting(y, EndColumn(x, col)), m);
    case Broken(x, at) =>
      SettingBreaks(x, col, m);
      NewLinesConcat(Setting(x, col), [NewLine(at, col)], m);
      assert [NewLine(at, col)][..0] == [];
  }

  lemma {:induction false} TwoNewLines(events: seq<Event>, m: Mark, i: nat, j: nat)
    requires i < |events| && j < |events| && IsNewLine(events[i], m) && IsNewLine(events[j], m)
    ensures NewLinesAt(events, m) >= (if i == j then 1 else 2)
  {
    var n := |events| - 1;
    if i < n && j < n {
      TwoNewLines(events[..n], m, i, j);
    } else if i < n {
      TwoNewLines(events[..n], m, i, i);
    } else if j < n {
      TwoNewLines(events[..n], m, j, j);
    }
  }

  /** A document made for the page, and a layout it offers. */
  ghost predicate LaysOut(n: P.Page, d: Doc, r: Layout)
  {
    P.Solid(n) && P.PageDoc(n) == Some(Plain(d)) && WellFormed(d) && Offers(d, r)
  }

  /** No layout of a page whose marks are distinct breaks twice at the same mark. */
  lemma BreaksOnce(n: P.Page, d: Doc, r: Layout, start: real, i: nat, j: nat)
    requires LaysOut(n, d, r) && DistinctMarks(n)
    requires var ev := Setting(r, start);
             i < j < |ev| && ev[i].NewLine? && ev[j].NewLine?
    ensures Setting(r, start)[i].at != Setting(r, start)[j].at
  {
    var ev := Setting(r, start);
    var m := ev[i].at;
    assert Places(n, m) <= 1;
    if m == ev[j].at {
      PlainOffers(d, r);
      LayoutBreaks(Plain(d), r, m);
      PageCap(n, m);
      SettingBreaks(r, start, m);
      TwoNewLines(ev, m, i, j);
    }
  }

  /** The breaks a walk keeps are those of the layout, each at the column of the first ink after it. */
  ghost predicate KeepsBreaks(breaks: map<Mark, real>, r: Layout, start: real)
  {
    var ev := Setting(r, start);
    (forall i :: 0 <= i < |ev| && ev[i].NewLine? ==>
       ev[i].at in breaks && breaks[ev[i].at] == InkColumn(ev[i + 1..], ev[i].col)) &&
    forall m :: m in breaks ==> BreaksAt(ev, m)
  }

  /** So the plan of such a page keeps the column of every break its layout makes. */
  lemma PlanKeepsBreaks(n: P.Page, d: Doc, start: real, W: real, R: Limit, eps: real)
    requires P.Solid(n) && P.PageDoc(n) == Some(Plain(d)) && WellFormed(d) && DistinctMarks(n) && Chosen(d, 0, W, R, eps).Some?
    ensures KeepsBreaks(PlannedBreaks(d, start, W, R, eps), Chosen(d, 0, W, R, eps).value.c.r, start)
  {
    hide Chosen, Places;
    PlanSound(d, W, R, eps);
    var r := Chosen(d, 0, W, R, eps).value.c.r;
    assert LaysOut(n, d, r);
    AllKept(n, d, r, start);
  }

  lemma AllKept(n: P.Page, d: Doc, r: Layout, start: real)
    requires LaysOut(n, d, r) && DistinctMarks(n)
    ensures KeepsBreaks(AfterAll(Walked(map[], None), Setting(r, start)).breaks, r, start)
  {
    hide LaysOut, DistinctMarks, AfterAll, InkColumn, Setting;
    var ev := Setting(r, start);
    var breaks := AfterAll(Walked(map[], None), ev).breaks;
    forall i | 0 <= i < |ev| && ev[i].NewLine?
      ensures ev[i].at in breaks && breaks[ev[i].at] == InkColumn(ev[i + 1..], ev[i].col)
    {
      forall j | i < j < |ev| && ev[j].NewLine? ensures ev[j].at != ev[i].at { BreaksOnce(n, d, r, start, i, j); }
      WalkRecordsInk(r, start, i);
    }
    forall m | m in breaks ensures BreaksAt(ev, m) { WalkRecordsOnlyBreaks(Walked(map[], None), ev, m); }
  }
}
