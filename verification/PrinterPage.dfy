/** The document of a whole term, from the page's elements: every term gets a document with a
    layout on one line, so it always has a plan, and the plan draws the term's text. */
module PrinterPage {
  import opened Wrappers
  import opened Sequences
  import opened PrinterLayouts
  import opened PrinterFrontier
  import opened PrinterPlan
  import opened PrinterChoice
  import opened PrinterBuilder
  import opened PrinterShapes
  import opened PrinterText

  /** A term on the page: text or a lone separator; a plain element; a compound or list with its
      opening and the children of its box; or an operator chain. Margins of zero are none. */
  datatype Page =
    | Leaf(w: Width, text: bool)
    | Plain(left: Width, kids: seq<Page>, right: Width)
    | Group(left: Width, opening: seq<Page>, boxLeft: Width, children: seq<Child>, boxRight: Width, right: Width,
            isList: bool, firstIsElement: bool, space: Width, indent: Width)
    | Chain(left: Width, first: Page, links: seq<PageLink>, right: Width, leads: bool, bad: nat, space: Width)

  /** A child of a group's box. */
  datatype Child = Separator(at: Mark) | Part(page: Page, el: Mark, simple: bool)

  datatype PageLink = PageLink(before: Option<Mark>, op: Page, after: Option<Mark>, operand: Page)

  /** Whether a term takes up any place, so that it has a document. */
  predicate Shown(n: Page)
  {
    match n
    case Leaf(_, _) => true
    case Plain(left, kids, right) => left != 0.0 || right != 0.0 || exists i :: 0 <= i < |kids| && Shown(kids[i])
    case Group(left, opening, boxLeft, children, boxRight, right, isList, _, _, _) =>
      left != 0.0 || right != 0.0 || (exists i :: 0 <= i < |children| && ShownChild(children[i])) ||
      (!isList && (boxLeft != 0.0 || exists i :: 0 <= i < |opening| && Shown(opening[i])))
    case Chain(_, _, _, _, _, _, _) => true
  }

  predicate ShownChild(c: Child)
  {
    c.Part? && Shown(c.page)
  }

  /** What the page's markup guarantees: a compound has something to open with, and operators and
      operands are not empty. */
  predicate Solid(n: Page)
  {
    match n
    case Leaf(_, _) => true
    case Plain(_, kids, _) => forall i :: 0 <= i < |kids| ==> Solid(kids[i])
    case Group(_, opening, boxLeft, children, _, _, isList, _, _, _) =>
      (forall i :: 0 <= i < |opening| ==> Solid(opening[i])) &&
      (forall i :: 0 <= i < |children| ==> SolidChild(children[i])) &&
      (isList || boxLeft != 0.0 || exists i :: 0 <= i < |opening| && Shown(opening[i]))
    case Chain(_, first, links, _, _, _, _) =>
      Solid(first) && Shown(first) && forall i :: 0 <= i < |links| ==> SolidLink(links[i])
  }

  predicate SolidChild(c: Child)
  {
    c.Part? ==> Solid(c.page)
  }

  predicate SolidLink(l: PageLink)
  {
    Solid(l.op) && Shown(l.op) && Solid(l.operand) && Shown(l.operand)
  }

  // ----- The text of a term -----

  function PageText(n: Page): seq<Layout>
    decreases n, 1
  {
    match n
    case Leaf(w, text) => if text then [Tok(w, false, true, 0)] else []
    case Plain(_, kids, _) => PagesText(kids)
    case Group(_, opening, _, children, _, _, isList, _, _, _) =>
      (if isList then [] else PagesText(opening)) + ChildrenText(children)
    case Chain(_, first, links, _, _, _, _) => PageText(first) + LinksText(links)
  }

  function PagesText(ns: seq<Page>): seq<Layout>
    decreases ns, 0
  {
    if ns == [] then [] else PageText(ns[0]) + PagesText(ns[1..])
  }

  function ChildrenText(cs: seq<Child>): seq<Layout>
    decreases cs, 0
  {
    if cs == [] then []
    else ChildrenText(cs[..|cs| - 1]) + ChildText(cs[|cs| - 1])
  }

  function ChildText(c: Child): seq<Layout>
    decreases c, 0
  {
    if c.Part? then PageText(c.page) else []
  }

  function LinksText(ls: seq<PageLink>): seq<Layout>
    decreases ls, 0
  {
    if ls == [] then []
    else LinksText(ls[..|ls| - 1]) + LinkText(ls[|ls| - 1])
  }

  function LinkText(l: PageLink): seq<Layout>
    decreases l, 0
  {
    PageText(l.op) + PageText(l.operand)
  }

  // ----- The document of a term, apart from ids -----

  function MarginOf(w: Width): Option<Doc>
  {
    if w == 0.0 then None else Some(Blank(w, 0))
  }

  function MarginsOf(left: Width, inner: Option<Doc>, right: Width): (r: Option<Doc>)
    ensures r.Some? <==> left != 0.0 || inner.Some? || right != 0.0
  {
    CatOpt(Opt(MarginOf(left)) + Opt(inner) + Opt(MarginOf(right)))
  }

  /** The document of a term: its margins around what stands between them. */
  function PageDoc(n: Page): (r: Option<Doc>)
    requires Solid(n)
    ensures Shown(n) ==> r.Some?
    decreases n, 2
  {
    if n.Leaf? then Some(Text(0, n.w, false, n.text, 0)) else MarginsOf(n.left, InnerDoc(n), n.right)
  }

  /** What stands between the margins: the children in a row, a group, or a chain. */
  function InnerDoc(n: Page): (r: Option<Doc>)
    requires Solid(n) && !n.Leaf?
    ensures Shown(n) ==> r.Some? || n.left != 0.0 || n.right != 0.0
    decreases n, 1
  {
    match n
    case Plain(_, kids, _) => CatOpt(PageDocs(kids))
    case Group(_, opening, boxLeft, children, boxRight, _, isList, firstIsElement, space, indent) =>
      GroupDoc(OpeningDoc(n).0, ItemDocs(children).0, OpeningDoc(n).1, isList, firstIsElement, space, indent)
    case Chain(_, first, links, _, leads, bad, space) =>
      Some(PrinterShapes.ChainOf(PageDoc(first).value, LinkDocs(links), leads, bad, space))
  }

  function GroupDoc(O: Option<Doc>, items: seq<Item>, close: Option<Doc>, isList: bool, firstIsElement: bool, space: Width,
                    indent: Width): (r: Option<Doc>)
    requires !isList ==> O.Some?
    ensures r.None? <==> O.None? && items == [] && close.None?
  {
    WholeSome(O, items, Blank(space, 0), close);
    ArgsOf(O, items, close, isList, firstIsElement, Blank(space, 0), Indent(indent))
  }

  lemma WholeSome(O: Option<Doc>, items: seq<Item>, sp: Doc, close: Option<Doc>)
    ensures WholeOf(O, items, sp, close).None? <==> O.None? && items == [] && close.None?
  {
  }

  function PageDocs(ns: seq<Page>): (r: seq<Doc>)
    requires forall i :: 0 <= i < |ns| ==> Solid(ns[i])
    ensures (exists i :: 0 <= i < |ns| && Shown(ns[i])) ==> r != []
    decreases ns, 0
  {
    if ns == [] then [] else Opt(PageDoc(ns[0])) + PageDocs(ns[1..])
  }

  /** The items of a box, and the separator still waiting for its item: a child without a
      separator before it joins the item before; one without a document is passed over. */
  function ItemDocs(cs: seq<Child>): (r: (seq<Item>, Option<Mark>))
    requires forall i :: 0 <= i < |cs| ==> SolidChild(cs[i])
    ensures (exists i :: 0 <= i < |cs| && ShownChild(cs[i])) ==> r.0 != []
    decreases cs, 0
  {
    if cs == [] then ([], None) else ChildDoc(ItemDocs(cs[..|cs| - 1]), cs[|cs| - 1])
  }

  function ChildDoc(so: (seq<Item>, Option<Mark>), c: Child): (r: (seq<Item>, Option<Mark>))
    requires SolidChild(c)
    ensures so.0 != [] || ShownChild(c) ==> r.0 != []
    decreases c, 0
  {
    if c.Separator? then (so.0, Some(c.at))
    else
      var d := PageDoc(c.page);
      if d.None? then so else (ItemAdded(so.0, d.value, so.1, c.el, c.simple), None)
  }

  function ItemAdded(items: seq<Item>, d: Doc, at: Option<Mark>, el: Mark, simple: bool): (r: seq<Item>)
    ensures r != []
  {
    if items != [] && at.None? then
      var p := items[|items| - 1];
      items[..|items| - 1] + [Item(CatOf([p.d, d]), p.at, p.simple && simple)]
    else items + [Item(d, if items == [] || at.None? then el else at.value, simple)]
  }

  function LinkDocs(ls: seq<PageLink>): seq<Link>
    requires forall i :: 0 <= i < |ls| ==> SolidLink(ls[i])
    decreases ls, 0
  {
    if ls == [] then [] else LinkDocs(ls[..|ls| - 1]) + [LinkDoc(ls[|ls| - 1])]
  }

  function LinkDoc(l: PageLink): Link
    requires SolidLink(l)
    decreases l, 0
  {
    Link(l.before, PageDoc(l.op).value, l.after, PageDoc(l.operand).value)
  }

  // ----- Building -----

  /** What every document of a term satisfies. */
  ghost predicate Stands(b: Builder, n: Page, d: Option<Doc>)
    reads b
  {
    Solid(n) && b.MadePart(d) && (Shown(n) ==> d.Some?) && (d.Some? ==> Flat(d.value)) && PartText(d) == PageText(n) &&
    PlainPart(d) == PageDoc(n)
  }

  /** The document of a term: its margins around what stands between them. */
  method DocOf(b: Builder, n: Page) returns (d: Option<Doc>)
    requires b.Fresh() && Solid(n)
    modifies b
    ensures b.Fresh() && b.KeepsMade() && Stands(b, n, d)
    decreases n, 3
  {
    if n.Leaf? {
      var t := b.NewText(n.w, n.text, 0);
      return Some(t);
    }
    var inner := InnerOf(b, n);
    d := Margins(b, n.left, inner, n.right);
  }

  /** A margin, where there is one. */
  method Margin(b: Builder, w: Width) returns (d: Option<Doc>)
    requires b.Fresh()
    modifies b
    ensures b.Fresh() && b.KeepsMade() && b.MadePart(d) && (d.Some? <==> w != 0.0) && (d.Some? ==> Flat(d.value)) && PartText(d) == []
    ensures PlainPart(d) == MarginOf(w)
  {
    if w == 0.0 { return None; }
    var t := b.NewText(w, false, 0);
    d := Some(t);
  }

  method Margins(b: Builder, left: Width, inner: Option<Doc>, right: Width) returns (d: Option<Doc>)
    requires b.Fresh() && b.MadePart(inner) && (inner.Some? ==> Flat(inner.value))
    modifies b
    ensures b.Fresh() && b.KeepsMade() && b.MadePart(d) && (d.Some? <==> left != 0.0 || inner.Some? || right != 0.0)
    ensures (d.Some? ==> Flat(d.value)) && PartText(d) == PartText(inner)
    ensures PlainPart(d) == MarginsOf(left, PlainPart(inner), right)
  {
    hide Labelled, SameText, WellFormed, PrinterShapes.Plain, PlainAll, Somes, TextOf, PartsText;
    assert inner.Some? ==> old(b.Made(inner.value));
    var l := Margin(b, left);
    label one:
    var r := Margin(b, right);
    assert l.Some? ==> old@one(b.Made(l.value));
    PartsText3(l, inner, r);
    PlainThree(l, inner, r);
    var kids := [l, inner, r];
    assert kids[0] == l && kids[1] == inner && kids[2] == r;
    d := b.NewCat(kids);
  }

  /** What stands between the margins of an element. */
  method InnerOf(b: Builder, n: Page) returns (d: Option<Doc>)
    requires b.Fresh() && Solid(n) && !n.Leaf?
    modifies b
    ensures b.Fresh() && b.KeepsMade() && b.MadePart(d) && (d.Some? ==> Flat(d.value)) && PartText(d) == PageText(n)
    ensures Shown(n) ==> d.Some? || n.left != 0.0 || n.right != 0.0
    ensures PlainPart(d) == InnerDoc(n)
    decreases n, 2
  {
    hide Labelled, SameText, WellFormed, PrinterShapes.Plain, PlainAll, Somes, Flat;
    match n {
      case Plain(_, kids, _) =>
        var ds := DocsOf(b, kids);
        d := b.NewCat(ds);
      case Group(_, _, _, _, _, _, _, _, _, _) => d := GroupOf(b, n);
      case Chain(_, _, _, _, _, _, _) =>
        var c := ChainOf(b, n);
        d := Some(c);
    }
  }

  /** An operator chain. */
  method ChainOf(b: Builder, n: Page) returns (d: Doc)
    requires b.Fresh() && n.Chain? && Solid(n)
    modifies b
    ensures b.Fresh() && b.KeepsMade() && b.Made(d) && Flat(d) && TextOf(d) == PageText(n)
    ensures Some(PrinterShapes.Plain(d)) == InnerDoc(n)
    decreases n, 0
  {
    hide Labelled, SameText, WellFormed, PrinterShapes.Plain, PrinterShapes.ChainOf, Flat, TextOf;
    var f := DocOf(b, n.first);
    label began:
    var ls := LinksOf(b, f.value, n.links);
    assert old@began(b.Made(f.value));
    d := b.ChainDoc(f.value, ls, n.leads, n.bad, n.space);
  }

  /** A compound, with its opening and closing, or a list, without. */
  method GroupOf(b: Builder, n: Page) returns (d: Option<Doc>)
    requires b.Fresh() && n.Group? && Solid(n)
    modifies b
    ensures b.Fresh() && b.KeepsMade() && b.MadePart(d) && (d.Some? ==> Flat(d.value)) && PartText(d) == PageText(n)
    ensures !n.isList || (exists i :: 0 <= i < |n.children| && ShownChild(n.children[i])) ==> d.Some?
    ensures PlainPart(d) == InnerDoc(n)
    decreases n, 1
  {
    hide Labelled, SameText, WellFormed, PrinterShapes.Plain, ArgsOf, Flat, TextOf, ItemsText, OpeningDoc, ItemDocs, PlainItems,
      PagesText, ChildrenText;
    var O, close := OpeningOf(b, n);
    label ready:
    var items := ItemsOf(b, n.children);
    assert O.Some? ==> old@ready(b.Made(O.value));
    assert close.Some? ==> old@ready(b.Made(close.value));
    d := b.ArgsDoc(O, items, close, n.isList, n.firstIsElement, n.space, n.indent);
  }

  /** What a compound opens and closes with. */
  function OpeningDoc(n: Page): (r: (Option<Doc>, Option<Doc>))
    requires n.Group? && Solid(n)
    ensures !n.isList ==> r.0.Some?
    decreases n, 0
  {
    if n.isList then (None, None) else (CatOpt(PageDocs(n.opening) + Opt(MarginOf(n.boxLeft))), MarginOf(n.boxRight))
  }

  method OpeningOf(b: Builder, n: Page) returns (O: Option<Doc>, close: Option<Doc>)
    requires b.Fresh() && n.Group? && Solid(n)
    modifies b
    ensures b.Fresh() && b.KeepsMade() && b.MadePart(O) && b.MadePart(close)
    ensures (O.Some? ==> Flat(O.value)) && (close.Some? ==> Flat(close.value)) && (!n.isList ==> O.Some?)
    ensures PartText(O) == (if n.isList then [] else PagesText(n.opening)) && PartText(close) == []
    ensures (PlainPart(O), PlainPart(close)) == OpeningDoc(n)
    decreases n, 0
  {
    hide Labelled, SameText, WellFormed, PrinterShapes.Plain, PlainAll, Somes, Flat, TextOf, PartsText, PagesText, PageDocs;
    O, close := None, None;
    if !n.isList {
      var ds := DocsOf(b, n.opening);
      O, close := Brackets(b, ds, n.boxLeft, n.boxRight);
    }
  }

  ghost predicate FlatItems(items: seq<Item>)
  {
    forall i :: 0 <= i < |items| ==> Flat(items[i].d)
  }

  /** The items of a box: children without a separator before them join the item before. */
  method ItemsOf(b: Builder, cs: seq<Child>) returns (items: seq<Item>)
    requires b.Fresh() && forall i :: 0 <= i < |cs| ==> SolidChild(cs[i])
    modifies b
    ensures b.Fresh() && b.KeepsMade() && b.MadeItems(items) && FlatItems(items) && ItemsText(items) == ChildrenText(cs)
    ensures (exists i :: 0 <= i < |cs| && ShownChild(cs[i])) ==> items != []
    ensures PlainItems(items) == ItemDocs(cs).0
    decreases cs, 0
  {
    hide Labelled, SameText, WellFormed, PrinterShapes.Plain, Flat, TextOf, ItemsText, PlainItems, ChildDoc, SolidChild, ShownChild;
    NoItems();
    items := [];
    var at: Option<Mark> := None;
    for i := 0 to |cs|
      invariant b.Fresh() && b.KeepsMade() && b.MadeItems(items) && FlatItems(items)
      invariant ItemsText(items) == ChildrenText(cs[..i])
      invariant (exists j :: 0 <= j < i && ShownChild(cs[j])) ==> items != []
      invariant (PlainItems(items), at) == ItemDocs(cs[..i])
    {
      assert cs[..i + 1][..i] == cs[..i];
      SeparatorIs(ItemDocs(cs[..i]), cs[i]);
      if cs[i].Separator? {
        at := Some(cs[i].at);
      } else {
        items, at := AddChild(b, items, at, cs[i]);
      }
    }
    assert cs[..|cs|] == cs;
  }

  /** One more child of a box; one without a document is passed over. */
  method AddChild(b: Builder, items: seq<Item>, at: Option<Mark>, c: Child) returns (more: seq<Item>, at': Option<Mark>)
    requires b.Fresh() && b.MadeItems(items) && FlatItems(items) && c.Part? && Solid(c.page)
    modifies b
    ensures b.Fresh() && b.KeepsMade() && b.MadeItems(more) && FlatItems(more)
    ensures ItemsText(more) == ItemsText(items) + ChildText(c)
    ensures items != [] || ShownChild(c) ==> more != []
    ensures (PlainItems(more), at') == ChildDoc((PlainItems(items), at), c)
    decreases c, 0
  {
    hide Labelled, SameText, WellFormed, PrinterShapes.Plain, Flat, TextOf, ItemsText, PlainItems, ItemAdded;
    var d := DocOf(b, c.page);
    b.ItemsStay(items);
    if d.None? { return items, at; }
    more := AddItem(b, items, d.value, at, c.el, c.simple);
    at' := None;
  }

  /** One more item, or one joined to the last. */
  method AddItem(b: Builder, items: seq<Item>, d: Doc, at: Option<Mark>, el: Mark, simple: bool) returns (more: seq<Item>)
    requires b.Fresh() && b.MadeItems(items) && FlatItems(items) && b.Made(d) && Flat(d)
    modifies b
    ensures b.Fresh() && b.KeepsMade() && b.MadeItems(more) && FlatItems(more) && ItemsText(more) == ItemsText(items) + TextOf(d)
    ensures more != [] && PlainItems(more) == ItemAdded(PlainItems(items), PrinterShapes.Plain(d), at, el, simple)
  {
    hide Labelled, SameText, WellFormed, Flat, TextOf, ItemsText, PrinterShapes.Plain;
    if items != [] && at.None? {
      more := JoinItem(b, items, d, simple);
    } else {
      var item := Item(d, if items == [] || at.None? then el else at.value, simple);
      more := items + [item];
      ItemsTextConcat(items, [item]);
      OneItem(item);
    }
  }

  method JoinItem(b: Builder, items: seq<Item>, d: Doc, simple: bool) returns (more: seq<Item>)
    requires b.Fresh() && b.MadeItems(items) && FlatItems(items) && b.Made(d) && Flat(d) && items != []
    modifies b
    ensures b.Fresh() && b.KeepsMade() && b.MadeItems(more) && FlatItems(more) && ItemsText(more) == ItemsText(items) + TextOf(d)
    ensures more != [] && PlainItems(more) == ItemAdded(PlainItems(items), PrinterShapes.Plain(d), None, 0, simple)
  {
    hide Labelled, SameText, WellFormed, Flat, TextOf, ItemsText, PartsText, PrinterShapes.Plain, PlainAll, Somes, CatOf,
      PlainItems, ItemAdded;
    PairPlain(items[|items| - 1].d, d);
    var n := |items| - 1;
    var p := items[n];
    var kids := [Some(p.d), Some(d)];
    assert kids[0].Some?;
    PartsText2(kids[0], kids[1]);
    var c := b.NewCat(kids);
    b.ItemsStay(items);
    more := items[..n] + [Item(c.value, p.at, p.simple && simple)];
    JoinedPlain(items, c.value, d, simple);
    JoinLast(items, more, d);
  }

  lemma PairPlain(a: Doc, b: Doc)
    ensures PlainAll(Somes([Some(a), Some(b)])) == [PrinterShapes.Plain(a), PrinterShapes.Plain(b)]
  {
    hide PrinterShapes.Plain, PlainAll, Somes;
    PlainTwo(Some(a), Some(b));
  }

  lemma JoinedPlain(items: seq<Item>, c: Doc, d: Doc, simple: bool)
    requires items != []
    requires PrinterShapes.Plain(c) == CatOf([PrinterShapes.Plain(items[|items| - 1].d), PrinterShapes.Plain(d)])
    ensures var p := items[|items| - 1];
            PlainItems(items[..|items| - 1] + [Item(c, p.at, p.simple && simple)]) ==
            ItemAdded(PlainItems(items), PrinterShapes.Plain(d), None, 0, simple)
  {
    hide PrinterShapes.Plain, CatOf;
  }

  lemma NoItems()
    ensures ItemsText([]) == [] && PlainItems([]) == [] && ItemDocs([]) == ([], None)
  {
  }

  lemma NoDocs()
    ensures PlainAll(Somes([])) == [] && PartsText([]) == []
  {
  }

  lemma SeparatorIs(so: (seq<Item>, Option<Mark>), c: Child)
    requires SolidChild(c)
    ensures c.Separator? ==> ChildDoc(so, c) == (so.0, Some(c.at)) && !ShownChild(c) && ChildText(c) == []
    ensures c.Part? ==> Solid(c.page)
  {
  }

  lemma LinksGrow(ls: seq<Link>, l: Link)
    ensures PlainLinks(ls + [l]) == PlainLinks(ls) + [PlainLink(l)]
  {
    hide PlainLink;
  }

  lemma OneItem(item: Item)
    ensures ItemsText([item]) == TextOf(item.d)
  {
    assert [item][1..] == [];
  }

  lemma JoinLast(items: seq<Item>, more: seq<Item>, d: Doc)
    requires |items| == |more| > 0 && items[..|items| - 1] == more[..|more| - 1]
    requires TextOf(more[|more| - 1].d) == TextOf(items[|items| - 1].d) + TextOf(d)
    ensures ItemsText(more) == ItemsText(items) + TextOf(d)
  {
    hide ItemsText, TextOf;
    var n := |items| - 1;
    ItemsTextConcat(items[..n], [items[n]]);
    ItemsTextConcat(more[..n], [more[n]]);
    OneItem(items[n]);
    OneItem(more[n]);
    assert items == items[..n] + [items[n]] && more == more[..n] + [more[n]];
    Associates(ItemsText(items[..n]), TextOf(items[n].d), TextOf(d));
  }

  /** The links of a chain, after a first operand. */
  method LinksOf(b: Builder, ghost first: Doc, links: seq<PageLink>) returns (ls: seq<Link>)
    requires b.Fresh() && Flat(first) && forall i :: 0 <= i < |links| ==> SolidLink(links[i])
    modifies b
    ensures b.Fresh() && b.KeepsMade() && b.MadeLinks(ls) && FlatChain(first, ls)
    ensures ChainText(first, ls) == TextOf(first) + LinksText(links)
    ensures PlainLinks(ls) == LinkDocs(links)
    decreases links, 0
  {
    hide Labelled, SameText, WellFormed, Flat, TextOf, ChainText, LinksText, LinkText, SolidLink,
      PlainLinks, LinkDocs, PlainLink, LinkDoc;
    ls := [];
    NoLinks(first, links);
    for i := 0 to |links|
      invariant b.Fresh() && b.KeepsMade() && b.MadeLinks(ls) && FlatChain(first, ls)
      invariant ChainText(first, ls) == TextOf(first) + LinksText(links[..i])
      invariant PlainLinks(ls) == LinkDocs(links[..i])
    {
      label before:
      var l := LinkOf(b, links[i]);
      assert forall j :: 0 <= j < |ls| ==> old@before(b.Made(ls[j].op)) && old@before(b.Made(ls[j].operand));
      ChainGrows(first, ls, l, links, i);
      LinkDocsNext(links, i);
      LinksGrow(ls, l);
      ls := ls + [l];
    }
    assert links[..|links|] == links;
  }

  lemma LinkDocsNext(links: seq<PageLink>, i: nat)
    requires i < |links| && forall j :: 0 <= j < |links| ==> SolidLink(links[j])
    ensures LinkDocs(links[..i + 1]) == LinkDocs(links[..i]) + [LinkDoc(links[i])]
  {
    hide LinkDoc, SolidLink;
    assert links[..i + 1][..i] == links[..i];
  }

  lemma NoLinks(first: Doc, links: seq<PageLink>)
    ensures ChainText(first, []) == TextOf(first) + LinksText(links[..0]) && PlainLinks([]) == LinkDocs(links[..0])
  {
  }

  lemma ChainGrows(first: Doc, ls: seq<Link>, l: Link, links: seq<PageLink>, i: nat)
    requires i < |links| && ChainText(first, ls) == TextOf(first) + LinksText(links[..i])
    requires TextOf(l.op) + TextOf(l.operand) == LinkText(links[i])
    ensures ChainText(first, ls + [l]) == TextOf(first) + LinksText(links[..i + 1])
  {
    assert (ls + [l])[..|ls|] == ls && links[..i + 1][..i] == links[..i];
    Associates(TextOf(first), LinksText(links[..i]), LinkText(links[i]));
  }

  method LinkOf(b: Builder, l: PageLink) returns (r: Link)
    requires b.Fresh() && SolidLink(l)
    modifies b
    ensures b.Fresh() && b.KeepsMade() && b.Made(r.op) && b.Made(r.operand) && Flat(r.op) && Flat(r.operand)
    ensures TextOf(r.op) + TextOf(r.operand) == LinkText(l)
    ensures PlainLink(r) == LinkDoc(l)
    decreases l, 0
  {
    hide Labelled, SameText, WellFormed, PrinterShapes.Plain, Flat, TextOf;
    var op := DocOf(b, l.op);
    label next:
    var operand := DocOf(b, l.operand);
    assert old@next(b.Made(op.value));
    r := Link(l.before, op.value, l.after, operand.value);
  }

  method DocsOf(b: Builder, ns: seq<Page>) returns (ds: seq<Option<Doc>>)
    requires b.Fresh() && forall i :: 0 <= i < |ns| ==> Solid(ns[i])
    modifies b
    ensures b.Fresh() && b.KeepsMade() && b.MadeParts(ds) && |ds| == |ns| && FlatSeq(ds) && PartsText(ds) == PagesText(ns)
    ensures forall i :: 0 <= i < |ns| && Shown(ns[i]) ==> ds[i].Some?
    ensures PlainAll(Somes(ds)) == PageDocs(ns)
    decreases ns, 0
  {
    hide Labelled, SameText, WellFormed, PrinterShapes.Plain, PlainAll, Somes, Flat, TextOf, PartsText;
    NoDocs();
    if ns == [] { return []; }
    var first := DocOf(b, ns[0]);
    label next:
    var rest := DocsOf(b, ns[1..]);
    assert first.Some? ==> old@next(b.Made(first.value));
    PartsTextConcat([first], rest);
    PartsText1(first);
    PlainMore([first], rest);
    SomesOne(first);
    PlainOpt(first);
    ds := [first] + rest;
  }

  method Brackets(b: Builder, opening: seq<Option<Doc>>, boxLeft: Width, boxRight: Width)
    returns (O: Option<Doc>, close: Option<Doc>)
    requires b.Fresh() && b.MadeParts(opening) && FlatSeq(opening)
    modifies b
    ensures b.Fresh() && b.KeepsMade() && b.MadePart(O) && b.MadePart(close)
    ensures PartText(O) == PartsText(opening) && PartText(close) == []
    ensures (O.Some? ==> Flat(O.value)) && (close.Some? ==> Flat(close.value))
    ensures O.Some? <==> boxLeft != 0.0 || exists i :: 0 <= i < |opening| && opening[i].Some?
    ensures PlainPart(O) == CatOpt(PlainAll(Somes(opening)) + Opt(MarginOf(boxLeft))) && PlainPart(close) == MarginOf(boxRight)
  {
    hide Labelled, SameText, WellFormed, TextOf, PartsText, Flat, PrinterShapes.Plain, PlainAll, Somes;
    var l := Margin(b, boxLeft);
    b.PartsStay(opening);
    label one:
    close := Margin(b, boxRight);
    b.PartsStay@one(opening);
    assert l.Some? ==> old@one(b.Made(l.value));
    label two:
    var kids := opening + [l];
    PartsTextConcat(opening, [l]);
    PartsText1(l);
    PlainMore(opening, [l]);
    SomesOne(l);
    PlainOpt(l);
    assert kids[|opening|] == l && forall i :: 0 <= i < |opening| ==> kids[i] == opening[i];
    O := b.NewCat(kids);
    assert close.Some? ==> old@two(b.Made(close.value));
  }

  /** Every term that takes up place gets a plan, however narrow the page and the ribbon, and the
      plan draws all its text, once and in order. */
  method PlanTerm(n: Page, start: real, W: real, R: Limit, eps: real) returns (breaks: map<Mark, real>, d: Doc)
    requires Solid(n) && Shown(n) && 0.0 <= eps
    ensures WellFormed(d) && Chosen(d, 0, W, R, eps).Some? && breaks == PlannedBreaks(d, start, W, R, eps)
    ensures PageDoc(n) == Some(PrinterShapes.Plain(d)) && Drawn(Chosen(d, 0, W, R, eps).value.c.r) == PageText(n)
  {
    hide Labelled, SameText, WellFormed, Flat, Drawn;
    var b := new Builder();
    var doc := DocOf(b, n);
    d := doc.value;
    FlatHasPlan(d, W, R, eps);
    PlanDrawsText(d, W, R, eps);
    breaks := Plan(d, start, W, R, eps, b.nodes);
  }
}
