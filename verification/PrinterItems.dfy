/** Which children of a group's box make up which item, and where the margins of a term go. */
module PrinterItems {
  import opened Wrappers
  import opened Sequences
  import opened PrinterLayouts
  import opened PrinterShapes
  import opened PrinterOffers
  import opened PrinterGroups
  import P = PrinterPage

  // ----- Items -----

  /** Whether a child has a document. */
  predicate HasDoc(c: P.Child)
    requires P.SolidChild(c)
  {
    c.Part? && P.PageDoc(c.page).Some?
  }

  ghost predicate AllSolid(cs: seq<P.Child>)
  {
    forall i :: 0 <= i < |cs| ==> P.SolidChild(cs[i])
  }

  /** The children with a document among the first n, in order. */
  function WithDoc(cs: seq<P.Child>, n: nat): (r: seq<nat>)
    requires AllSolid(cs) && n <= |cs|
    ensures forall i :: 0 <= i < |r| ==> r[i] < n && cs[r[i]].Part?
  {
    if n == 0 then [] else WithDoc(cs, n - 1) + if HasDoc(cs[n - 1]) then [n - 1] else []
  }

  /** The last separator among the children from one on and before another. */
  function LastSeparator(cs: seq<P.Child>, from: nat, to: nat): Option<Mark>
    requires to <= |cs|
  {
    if to <= from then None
    else if cs[to - 1].Separator? then Some(cs[to - 1].at)
    else LastSeparator(cs, from, to - 1)
  }

  function After(all: seq<nat>): nat
  {
    if all == [] then 0 else all[|all| - 1] + 1
  }

  function Joined(groups: seq<seq<nat>>): seq<nat>
  {
    if groups == [] then [] else Joined(groups[..|groups| - 1]) + groups[|groups| - 1]
  }

  predicate InBounds(cs: seq<P.Child>, group: seq<nat>)
  {
    group != [] && forall i :: 0 <= i < |group| ==> group[i] < |cs| && cs[group[i]].Part?
  }

  /** Children that are one item: no separator stands between two of them, and the item is simple if
      all of them are. */
  predicate IsOne(cs: seq<P.Child>, group: seq<nat>, item: Item)
  {
    InBounds(cs, group) && (forall i :: 0 <= i < |group| - 1 ==> LastSeparator(cs, group[i] + 1, group[i + 1]).None?) &&
    (item.simple <==> forall i :: 0 <= i < |group| ==> cs[group[i]].simple)
  }

  /** Where the break before item j is: the element itself for the first, and for others the last
      separator since the item before. */
  predicate MarkedRight(cs: seq<P.Child>, groups: seq<seq<nat>>, items: seq<Item>, j: nat)
    requires j < |groups| == |items|
  {
    InBounds(cs, groups[j]) && (j > 0 ==> InBounds(cs, groups[j - 1])) &&
    if j == 0 then items[0].at == cs[groups[0][0]].el
    else LastSeparator(cs, groups[j - 1][|groups[j - 1]| - 1] + 1, groups[j][0]) == Some(items[j].at)
  }

  /** The items of the first n children, and the separator still waiting for its item. */
  ghost predicate ItemsAre(cs: seq<P.Child>, n: nat, groups: seq<seq<nat>>, items: seq<Item>, waiting: Option<Mark>)
    requires AllSolid(cs) && n <= |cs|
  {
    |groups| == |items| && (forall j :: 0 <= j < |items| ==> IsOne(cs, groups[j], items[j])) &&
    (forall j :: 0 <= j < |items| ==> MarkedRight(cs, groups, items, j)) &&
    Joined(groups) == WithDoc(cs, n) && waiting == LastSeparator(cs, After(WithDoc(cs, n)), n)
  }

  lemma JoinedSnoc(groups: seq<seq<nat>>, g: seq<nat>)
    ensures Joined(groups + [g]) == Joined(groups) + g
  {
    assert (groups + [g])[..|groups|] == groups;
  }

  lemma JoinedLast(groups: seq<seq<nat>>, g: seq<nat>)
    requires groups != []
    ensures Joined(groups[..|groups| - 1] + [groups[|groups| - 1] + g]) == Joined(groups) + g
  {
    var n := |groups| - 1;
    JoinedSnoc(groups[..n], groups[n] + g);
    Associates(Joined(groups[..n]), groups[n], g);
  }

  /** The last child with a document is the last of the last group. */
  lemma LastJoined(cs: seq<P.Child>, n: nat, groups: seq<seq<nat>>, items: seq<Item>, waiting: Option<Mark>)
    requires AllSolid(cs) && n <= |cs| && ItemsAre(cs, n, groups, items, waiting)
    ensures groups == [] <==> WithDoc(cs, n) == []
    ensures groups != [] ==> groups[|groups| - 1] != [] && After(WithDoc(cs, n)) == groups[|groups| - 1][|groups[|groups| - 1]| - 1] + 1
  {
    if groups != [] {
      var k := |groups| - 1;
      assert IsOne(cs, groups[k], items[k]);
      assert Joined(groups) == Joined(groups[..k]) + groups[k];
    }
  }

  lemma DocNext(cs: seq<P.Child>, n: nat)
    requires AllSolid(cs) && n < |cs| && HasDoc(cs[n])
    ensures cs[n].Part? && WithDoc(cs, n + 1) == WithDoc(cs, n) + [n] && LastSeparator(cs, After(WithDoc(cs, n + 1)), n + 1) == None
  {
  }

  lemma NewAlone(cs: seq<P.Child>, n: nat, item: Item)
    requires n < |cs| && cs[n].Part? && item.simple == cs[n].simple
    ensures IsOne(cs, [n], item)
  {
    var g := [n];
    if !item.simple { assert !cs[g[0]].simple; }
  }

  lemma MarkedStays(cs: seq<P.Child>, groups: seq<seq<nat>>, items: seq<Item>, more: seq<seq<nat>>, items': seq<Item>, j: nat)
    requires j < |groups| == |items| && |groups| <= |more| == |items'| && MarkedRight(cs, groups, items, j)
    requires more[j] == groups[j] && items'[j] == items[j] && (j > 0 ==> more[j - 1] == groups[j - 1])
    ensures MarkedRight(cs, more, items', j)
  {
    hide LastSeparator, InBounds;
  }

  lemma AddedAfter(items: seq<Item>, d: Doc, waiting: Option<Mark>, el: Mark, simple: bool)
    requires items == [] || waiting.Some?
    ensures var more := P.ItemAdded(items, d, waiting, el, simple);
            |more| == |items| + 1 && (forall j :: 0 <= j < |items| ==> more[j] == items[j]) &&
            more[|items|].simple == simple && more[|items|].at == if items == [] then el else waiting.value
  {
  }

  /** A child that begins an item. */
  lemma ItemBegun(cs: seq<P.Child>, n: nat, groups: seq<seq<nat>>, items: seq<Item>, waiting: Option<Mark>, d: Doc)
    requires AllSolid(cs) && n < |cs| && ItemsAre(cs, n, groups, items, waiting) && HasDoc(cs[n]) && (items == [] || waiting.Some?)
    ensures ItemsAre(cs, n + 1, groups + [[n]], P.ItemAdded(items, d, waiting, cs[n].el, cs[n].simple), None)
  {
    hide P.PageDoc, P.Solid, P.ItemAdded, IsOne, MarkedRight, Joined, WithDoc, LastSeparator, After, HasDoc;
    DocNext(cs, n);
    JoinedSnoc(groups, [n]);
    AddedAfter(items, d, waiting, cs[n].el, cs[n].simple);
    var more, items' := groups + [[n]], P.ItemAdded(items, d, waiting, cs[n].el, cs[n].simple);
    NewAlone(cs, n, items'[|items|]);
    forall j | 0 <= j < |items'| ensures IsOne(cs, more[j], items'[j]) {
      if j < |items| { assert more[j] == groups[j] && items'[j] == items[j]; }
    }
    NewMarked(cs, n, groups, items, waiting, items');
    forall j | 0 <= j < |items'| ensures MarkedRight(cs, more, items', j) {
      if j < |items| { MarkedStays(cs, groups, items, more, items', j); }
    }
  }

  lemma NewMarked(cs: seq<P.Child>, n: nat, groups: seq<seq<nat>>, items: seq<Item>, waiting: Option<Mark>, items': seq<Item>)
    requires AllSolid(cs) && n < |cs| && ItemsAre(cs, n, groups, items, waiting) && cs[n].Part?
    requires |items'| == |items| + 1 && (items == [] || waiting.Some?)
    requires items'[|items|].at == if items == [] then cs[n].el else waiting.value
    ensures MarkedRight(cs, groups + [[n]], items', |items|)
  {
    hide P.PageDoc, P.Solid, MarkedRight, Joined, LastSeparator, WithDoc;
    LastJoined(cs, n, groups, items, waiting);
    var k, more := |groups|, groups + [[n]];
    assert more[k] == [n] && InBounds(cs, [n]);
    if k > 0 {
      assert IsOne(cs, groups[k - 1], items[k - 1]) && more[k - 1] == groups[k - 1];
    }
    MarkedIs(cs, more, items', k);
  }

  lemma MarkedIs(cs: seq<P.Child>, groups: seq<seq<nat>>, items: seq<Item>, j: nat)
    requires j < |groups| == |items| && InBounds(cs, groups[j]) && (j > 0 ==> InBounds(cs, groups[j - 1]))
    requires if j == 0 then items[0].at == cs[groups[0][0]].el
             else LastSeparator(cs, groups[j - 1][|groups[j - 1]| - 1] + 1, groups[j][0]) == Some(items[j].at)
    ensures MarkedRight(cs, groups, items, j)
  {
  }

  /** A child that joins the item before. */
  lemma ItemJoined(cs: seq<P.Child>, n: nat, groups: seq<seq<nat>>, items: seq<Item>, d: Doc)
    requires AllSolid(cs) && n < |cs| && ItemsAre(cs, n, groups, items, None) && HasDoc(cs[n]) && items != []
    ensures ItemsAre(cs, n + 1, groups[..|groups| - 1] + [groups[|groups| - 1] + [n]],
              P.ItemAdded(items, d, None, cs[n].el, cs[n].simple), None)
  {
    hide P.PageDoc, P.Solid, CatOf;
    LastJoined(cs, n, groups, items, None);
    JoinedLast(groups, [n]);
    var k := |groups| - 1;
    var g := groups[k] + [n];
    var more, items' := groups[..k] + [g], P.ItemAdded(items, d, None, cs[n].el, cs[n].simple);
    assert IsOne(cs, groups[k], items[k]);
    GroupJoined(cs, n, groups[k], items[k], items'[k]);
    forall j | 0 <= j < |items'| ensures IsOne(cs, more[j], items'[j]) {
      if j < k { assert IsOne(cs, groups[j], items[j]); }
    }
    forall j | 0 <= j < |items'| ensures MarkedRight(cs, more, items', j) {
      assert MarkedRight(cs, groups, items, j);
    }
  }

  lemma Undivided(cs: seq<P.Child>, n: nat, group: seq<nat>)
    requires n < |cs| && cs[n].Part? && InBounds(cs, group) && LastSeparator(cs, group[|group| - 1] + 1, n).None?
    requires forall i :: 0 <= i < |group| - 1 ==> LastSeparator(cs, group[i] + 1, group[i + 1]).None?
    ensures var g := group + [n];
            InBounds(cs, g) && forall i :: 0 <= i < |g| - 1 ==> LastSeparator(cs, g[i] + 1, g[i + 1]).None?
  {
    hide LastSeparator;
    var g := group + [n];
    forall i | 0 <= i < |g| - 1 ensures LastSeparator(cs, g[i] + 1, g[i + 1]).None? {
      if i < |group| - 1 { assert LastSeparator(cs, group[i] + 1, group[i + 1]).None?; }
    }
  }

  lemma GroupJoined(cs: seq<P.Child>, n: nat, group: seq<nat>, item: Item, item': Item)
    requires n < |cs| && cs[n].Part? && IsOne(cs, group, item) && LastSeparator(cs, group[|group| - 1] + 1, n).None?
    requires item'.simple == (item.simple && cs[n].simple)
    ensures IsOne(cs, group + [n], item')
  {
    hide LastSeparator;
    var g := group + [n];
    Undivided(cs, n, group);
    if item'.simple {
      forall i | 0 <= i < |g| ensures cs[g[i]].simple { if i < |group| { assert cs[group[i]].simple; } }
    } else if item.simple {
      assert !cs[g[|group|]].simple;
    } else {
      var i :| 0 <= i < |group| && !cs[group[i]].simple;
      assert !cs[g[i]].simple;
    }
  }

  lemma DocsStep(cs: seq<P.Child>, n: nat)
    requires AllSolid(cs) && n < |cs|
    ensures P.ItemDocs(cs[..n + 1]) == P.ChildDoc(P.ItemDocs(cs[..n]), cs[n])
  {
    assert cs[..n + 1][..n] == cs[..n];
  }

  /** One more child. */
  lemma ItemsNext(cs: seq<P.Child>, n: nat, groups: seq<seq<nat>>, so: (seq<Item>, Option<Mark>)) returns (more: seq<seq<nat>>)
    requires AllSolid(cs) && n < |cs| && ItemsAre(cs, n, groups, so.0, so.1)
    ensures ItemsAre(cs, n + 1, more, P.ChildDoc(so, cs[n]).0, P.ChildDoc(so, cs[n]).1)
  {
    hide P.ItemAdded, P.PageDoc, P.Solid, ItemsAre;
    var c := cs[n];
    if c.Separator? || !HasDoc(c) {
      NoItem(cs, n, groups, so.0, so.1);
      more := groups;
    } else if so.0 == [] || so.1.Some? {
      ItemBegun(cs, n, groups, so.0, so.1, P.PageDoc(c.page).value);
      more := groups + [[n]];
    } else {
      GroupsNonempty(cs, n, groups, so.0, so.1);
      ItemJoined(cs, n, groups, so.0, P.PageDoc(c.page).value);
      more := groups[..|groups| - 1] + [groups[|groups| - 1] + [n]];
    }
  }

  /** Items are the runs of children with a document that no separator divides: each child with one is
      in one item, in order; an item is simple if all its children are; and the break before it is at
      the last separator before it. */
  lemma {:induction false} ItemsOfChildren(cs: seq<P.Child>, n: nat) returns (groups: seq<seq<nat>>)
    requires AllSolid(cs) && n <= |cs|
    ensures ItemsAre(cs, n, groups, P.ItemDocs(cs[..n]).0, P.ItemDocs(cs[..n]).1)
  {
    if n == 0 {
      groups := [];
    } else {
      hide P.ChildDoc, P.ItemDocs, P.Solid, ItemsAre;
      groups := ItemsOfChildren(cs, n - 1);
      DocsStep(cs, n - 1);
      groups := ItemsNext(cs, n - 1, groups, P.ItemDocs(cs[..n - 1]));
    }
  }

  lemma GroupsNonempty(cs: seq<P.Child>, n: nat, groups: seq<seq<nat>>, items: seq<Item>, waiting: Option<Mark>)
    requires AllSolid(cs) && n <= |cs| && ItemsAre(cs, n, groups, items, waiting) && items != []
    ensures groups != []
  {
  }

  /** A separator, or a child without a document. */
  lemma NoItem(cs: seq<P.Child>, n: nat, groups: seq<seq<nat>>, items: seq<Item>, waiting: Option<Mark>)
    requires AllSolid(cs) && n < |cs| && ItemsAre(cs, n, groups, items, waiting) && !HasDoc(cs[n])
    ensures ItemsAre(cs, n + 1, groups, items, if cs[n].Separator? then Some(cs[n].at) else waiting)
  {
    hide P.PageDoc, P.Solid;
    AfterBound(cs, n);
  }

  lemma AfterBound(cs: seq<P.Child>, n: nat)
    requires AllSolid(cs) && n <= |cs|
    ensures After(WithDoc(cs, n)) <= n
  {
  }

  // ----- Margins -----

  /** The room a margin takes, if it takes any. */
  function Room(w: Width): seq<Layout>
  {
    if w == 0.0 then [] else [Tok(w, false, false, 0)]
  }

  lemma MarginIs(w: Width, l: seq<Layout>)
    ensures PartWellFormed(P.MarginOf(w)) && (PartOffers(P.MarginOf(w), l) <==> l == Room(w))
  {
  }

  ghost predicate PartsOffer(a: Option<Doc>, b: Option<Doc>, c: Option<Doc>, x: seq<Layout>, y: seq<Layout>, z: seq<Layout>)
    requires PartWellFormed(a) && PartWellFormed(b) && PartWellFormed(c)
  {
    PartOffers(a, x) && PartOffers(b, y) && PartOffers(c, z)
  }

  lemma ThreeParts(a: Option<Doc>, b: Option<Doc>, c: Option<Doc>, r: Layout)
    requires CatOpt(Opt(a) + Opt(b) + Opt(c)).Some? && PartWellFormed(a) && PartWellFormed(b) && PartWellFormed(c)
    ensures OffersOf(CatOpt(Opt(a) + Opt(b) + Opt(c)).value, r) <==>
            exists x, y, z :: PartsOffer(a, b, c, x, y, z) && x + y + z != [] && r == RowOf(x + y + z)
  {
    hide WellFormed, Offers, CatOf, RowOf, AllOffer, AllWellFormed, PartOffers, PartWellFormed;
    var ds := Opt(a) + Opt(b) + Opt(c);
    OptWellFormed(a);
    OptWellFormed(b);
    OptWellFormed(c);
    WellFormedConcat(Opt(a), Opt(b));
    WellFormedConcat(Opt(a) + Opt(b), Opt(c));
    CatLayouts(ds, r);
    if Offers(CatOf(ds), r) {
      var ls :| AllOffer(ds, ls) && ls != [] && r == RowOf(ls);
      var xy, z := OfferSplit(Opt(a) + Opt(b), Opt(c), ls);
      var x, y := OfferSplit(Opt(a), Opt(b), xy);
      OptOffer(a, x);
      OptOffer(b, y);
      OptOffer(c, z);
      assert PartsOffer(a, b, c, x, y, z) && x + y + z != [] && r == RowOf(x + y + z);
    }
    if x, y, z :| PartsOffer(a, b, c, x, y, z) && x + y + z != [] && r == RowOf(x + y + z) {
      OptOffer(a, x);
      OptOffer(b, y);
      OptOffer(c, z);
      OfferConcat(Opt(a), Opt(b), x, y);
      OfferConcat(Opt(a) + Opt(b), Opt(c), x + y, z);
    }
  }

  /** A term is set as what stands between its margins, with the left one before it and the right one
      after it. */
  lemma MarginLayouts(left: Width, inner: Option<Doc>, right: Width, r: Layout)
    requires PartWellFormed(inner) && P.MarginsOf(left, inner, right).Some?
    ensures OffersOf(P.MarginsOf(left, inner, right).value, r) <==>
            exists y :: PartOffers(inner, y) && Room(left) + y + Room(right) != [] && r == RowOf(Room(left) + y + Room(right))
  {
    hide WellFormed, Offers, CatOpt, RowOf, PartOffers, PartWellFormed, P.MarginOf, Room;
    MarginIs(left, Room(left));
    MarginIs(right, Room(right));
    ThreeParts(P.MarginOf(left), inner, P.MarginOf(right), r);
    if OffersOf(P.MarginsOf(left, inner, right).value, r) {
      var x, y, z :| PartsOffer(P.MarginOf(left), inner, P.MarginOf(right), x, y, z) && x + y + z != [] && r == RowOf(x + y + z);
      MarginIs(left, x);
      MarginIs(right, z);
    }
    if y :| PartOffers(inner, y) && Room(left) + y + Room(right) != [] && r == RowOf(Room(left) + y + Room(right)) {
      assert PartsOffer(P.MarginOf(left), inner, P.MarginOf(right), Room(left), y, Room(right));
    }
  }
}
