/** The page text that a document stands for, which every layout draws, and whether a document has a
    layout on one line. */
module PrinterText {
  import opened Wrappers
  import opened Sequences
  import opened PrinterLayouts
  import opened PrinterFrontier
  import opened PrinterPlan
  import opened PrinterChoice
  import opened PrinterShapes

  /** A document with a layout on one line. */
  predicate Flat(d: Doc)
  {
    match d
    case Text(_, _, _, _, _) => true
    case Cat(_, kids) => forall i :: 0 <= i < |kids| ==> Flat(kids[i])
    case Flush(_, _, _) => false
    case Or(_, a, b) => Flat(a) || Flat(b)
    case One(_, a, _) => Flat(a)
  }

  ghost predicate HasOneLineLayout(d: Doc)
    requires WellFormed(d)
  {
    exists r :: Offers(d, r) && OnOneLine(r)
  }

  /** Flat says what it means: some offered layout is on one line. */
  lemma {:induction false} FlatIffOneLine(d: Doc)
    requires WellFormed(d)
    ensures Flat(d) <==> HasOneLineLayout(d)
  {
    if Flat(d) {
      var r := FlatLayout(d);
      assert HasOneLineLayout(d);
    } else {
      forall r | Offers(d, r) ensures !OnOneLine(r) { NotFlatBreaks(d, r); }
    }
  }

  lemma {:induction false} FlatLayout(d: Doc) returns (r: Layout)
    requires WellFormed(d) && Flat(d)
    ensures Offers(d, r) && OnOneLine(r)
    decreases d, if d.Cat? then |d.kids| + 1 else 0
  {
    match d
    case Text(_, w, sp, unit, bad) => r := Tok(w, sp, unit, bad);
    case Cat(_, kids) => r := FlatRow(d, |kids|);
    case Or(_, a, b) => if Flat(a) { r := FlatLayout(a); } else { r := FlatLayout(b); }
    case One(_, a, _) => r := FlatLayout(a);
  }

  lemma {:induction false} FlatRow(d: Doc, n: nat) returns (r: Layout)
    requires WellFormed(d) && Flat(d) && d.Cat? && 0 < n <= |d.kids|
    ensures OffersRow(d, n, r) && OnOneLine(r)
    decreases d, n
  {
    r := FlatLayout(d.kids[n - 1]);
    if n > 1 {
      var left := FlatRow(d, n - 1);
      r := Beside(left, r);
    }
  }

  lemma {:induction false} NotFlatBreaks(d: Doc, r: Layout)
    requires WellFormed(d) && !Flat(d) && Offers(d, r)
    ensures !OnOneLine(r)
    decreases d, if d.Cat? then |d.kids| + 1 else 0
  {
    match d
    case Cat(_, kids) =>
      var i :| 0 <= i < |kids| && !Flat(kids[i]);
      NotFlatRowBreaks(d, |kids|, i, r);
    case Flush(_, _, _) =>
    case Or(_, a, b) => if Offers(a, r) { NotFlatBreaks(a, r); } else { NotFlatBreaks(b, r); }
    case One(_, a, _) => NotFlatBreaks(a, r);
  }

  lemma {:induction false} NotFlatRowBreaks(d: Doc, n: nat, i: nat, r: Layout)
    requires WellFormed(d) && d.Cat? && i < n <= |d.kids| && !Flat(d.kids[i]) && OffersRow(d, n, r)
    ensures !OnOneLine(r)
    decreases d, n
  {
    if n == 1 {
      NotFlatBreaks(d.kids[0], r);
    } else if i == n - 1 {
      NotFlatBreaks(d.kids[i], r.right);
    } else {
      NotFlatRowBreaks(d, n - 1, i, r.left);
    }
  }

  /** A flat document always gets a plan, however narrow the page and the ribbon. */
  lemma FlatHasPlan(d: Doc, W: real, R: Limit, eps: real)
    requires WellFormed(d) && Flat(d) && 0.0 <= eps
    ensures Chosen(d, 0, W, R, eps).Some?
  {
    var r := FlatLayout(d);
    assert HasLayout(d);
    PlanTotal(d, W, R, eps);
  }

  lemma {:induction false} LabelledGrows(d: Doc, before: map<nat, Doc>, after: map<nat, Doc>)
    requires Labelled(d, before)
    requires forall id :: id in before ==> id in after && after[id] == before[id]
    ensures Labelled(d, after)
  {
    match d
    case Text(_, _, _, _, _) =>
    case Cat(_, kids) =>
      forall i | 0 <= i < |kids| ensures Labelled(kids[i], after) { LabelledGrows(kids[i], before, after); }
    case Flush(_, a, _) =>
      LabelledGrows(a, before, after);
    case Or(_, a, b) =>
      LabelledGrows(a, before, after);
      LabelledGrows(b, before, after);
    case One(_, a, _) =>
      LabelledGrows(a, before, after);
  }

  // ----- The text of a document -----

  /** The tokens of page text a layout draws, from left to right and top to bottom. */
  function Drawn(r: Layout): seq<Layout>
  {
    match r
    case Tok(_, _, unit, _) => if unit then [r] else []
    case Beside(x, y) => Drawn(x) + Drawn(y)
    case Broken(x, _) => Drawn(x)
  }

  /** What the text of a document is made of. */
  lemma TextIs(d: Doc)
    ensures d.Text? && !d.unit ==> TextOf(d) == []
    ensures d.Flush? ==> TextOf(d) == TextOf(d.a)
  {
  }

  lemma HungText(o: seq<Layout>, first: seq<Layout>, rest: seq<Layout>, close: seq<Layout>)
    ensures o + first + [] + [] + [] + [] + rest + close + [] == o + (first + rest) + close
  {
  }

  /** The page text a document stands for. */
  function TextOf(d: Doc): seq<Layout>
    decreases d, 1
  {
    match d
    case Text(_, w, sp, unit, bad) => if unit then [Tok(w, sp, unit, bad)] else []
    case Cat(_, kids) => TextOfAll(kids)
    case Flush(_, a, _) => TextOf(a)
    case Or(_, a, _) => TextOf(a)
    case One(_, a, _) => TextOf(a)
  }

  function TextOfAll(ds: seq<Doc>): seq<Layout>
    decreases ds, 0
  {
    if ds == [] then [] else TextOf(ds[0]) + TextOfAll(ds[1..])
  }

  /** Alternatives stand for the same text. */
  predicate SameText(d: Doc)
  {
    match d
    case Text(_, _, _, _, _) => true
    case Cat(_, kids) => forall i :: 0 <= i < |kids| ==> SameText(kids[i])
    case Flush(_, a, _) => SameText(a)
    case Or(_, a, b) => SameText(a) && SameText(b) && TextOf(a) == TextOf(b)
    case One(_, a, _) => SameText(a)
  }

  lemma {:induction false} TextOfAllConcat(a: seq<Doc>, b: seq<Doc>)
    ensures TextOfAll(a + b) == TextOfAll(a) + TextOfAll(b)
  {
    if a == [] {
      assert a + b == b;
    } else {
      assert (a + b)[1..] == a[1..] + b;
      TextOfAllConcat(a[1..], b);
    }
  }

  /** Every layout of a document draws all of its text, once and in order. */
  lemma {:induction false} LayoutDrawsText(d: Doc, r: Layout)
    requires WellFormed(d) && SameText(d) && Offers(d, r)
    ensures Drawn(r) == TextOf(d)
    decreases d, if d.Cat? then |d.kids| + 1 else 0
  {
    match d
    case Text(_, _, _, _, _) =>
    case Cat(_, kids) =>
      RowDrawsText(d, |kids|, r);
      assert kids[..|kids|] == kids;
    case Flush(_, a, _) => LayoutDrawsText(a, r.box);
    case Or(_, a, b) => if Offers(a, r) { LayoutDrawsText(a, r); } else { LayoutDrawsText(b, r); }
    case One(_, a, _) => LayoutDrawsText(a, r);
  }

  lemma {:induction false} RowDrawsText(d: Doc, n: nat, r: Layout)
    requires WellFormed(d) && SameText(d) && d.Cat? && 0 < n <= |d.kids| && OffersRow(d, n, r)
    ensures Drawn(r) == TextOfAll(d.kids[..n])
    decreases d, n
  {
    var last := [d.kids[n - 1]];
    assert d.kids[..n] == d.kids[..n - 1] + last;
    TextOfAllConcat(d.kids[..n - 1], last);
    assert TextOfAll(last) == TextOf(d.kids[n - 1]);
    if n == 1 {
      LayoutDrawsText(d.kids[0], r);
    } else {
      RowDrawsText(d, n - 1, r.left);
      LayoutDrawsText(d.kids[n - 1], r.right);
    }
  }

  /** The plan of a document draws all of its text, once and in order. */
  lemma PlanDrawsText(d: Doc, W: real, R: Limit, eps: real)
    requires WellFormed(d) && SameText(d) && Chosen(d, 0, W, R, eps).Some?
    ensures Drawn(Chosen(d, 0, W, R, eps).value.c.r) == TextOf(d)
  {
    PlanSound(d, W, R, eps);
    LayoutDrawsText(d, Chosen(d, 0, W, R, eps).value.c.r);
  }

  // ----- Parts that may be missing -----

  function PartText(k: Option<Doc>): seq<Layout>
  {
    if k.Some? then TextOf(k.value) else []
  }

  function PartsText(kids: seq<Option<Doc>>): seq<Layout>
  {
    if kids == [] then [] else PartText(kids[0]) + PartsText(kids[1..])
  }

  lemma {:induction false} SomesText(kids: seq<Option<Doc>>)
    ensures TextOfAll(Somes(kids)) == PartsText(kids)
  {
    if kids != [] {
      SomesText(kids[1..]);
      var head := Opt(kids[0]);
      TextOfAllConcat(head, Somes(kids[1..]));
      assert TextOfAll(head) == PartText(kids[0]);
    }
  }

  lemma {:induction false} PartsTextConcat(a: seq<Option<Doc>>, b: seq<Option<Doc>>)
    ensures PartsText(a + b) == PartsText(a) + PartsText(b)
  {
    if a == [] {
      assert a + b == b;
    } else {
      assert (a + b)[1..] == a[1..] + b;
      PartsTextConcat(a[1..], b);
    }
  }

  lemma PartsText1(a: Option<Doc>)
    ensures PartsText([a]) == PartText(a)
  {
  }

  lemma PartsText2(a: Option<Doc>, b: Option<Doc>)
    ensures PartsText([a, b]) == PartText(a) + PartText(b)
  {
    hide PartText;
    assert [a, b][1..] == [b];
    PartsText1(b);
  }

  lemma PartsText3(a: Option<Doc>, b: Option<Doc>, c: Option<Doc>)
    ensures PartsText([a, b, c]) == PartText(a) + PartText(b) + PartText(c)
  {
    hide PartText;
    assert [a, b, c][1..] == [b, c];
    PartsText2(b, c);
  }

  lemma PartsText4(a: Option<Doc>, b: Option<Doc>, c: Option<Doc>, d: Option<Doc>)
    ensures PartsText([a, b, c, d]) == PartText(a) + PartText(b) + PartText(c) + PartText(d)
  {
    hide PartText;
    assert [a, b, c, d][1..] == [b, c, d];
    PartsText3(b, c, d);
  }

  lemma PartsText5(a: Option<Doc>, b: Option<Doc>, c: Option<Doc>, d: Option<Doc>, e: Option<Doc>)
    ensures PartsText([a, b, c, d, e]) == PartText(a) + PartText(b) + PartText(c) + PartText(d) + PartText(e)
  {
    hide PartText;
    assert [a, b, c, d, e][1..] == [b, c, d, e];
    PartsText4(b, c, d, e);
  }

  function ItemsText(items: seq<Item>): seq<Layout>
  {
    if items == [] then [] else TextOf(items[0].d) + ItemsText(items[1..])
  }

  lemma NoPlain()
    ensures PlainAll(Somes([])) == [] && forall sp :: LineDocs(PlainItems([]), sp) == []
  {
  }

  /** What is gathered of a chain, apart from ids. */
  function PlainGathered(lines: seq<Item>, cur: seq<Option<Doc>>, mark: Mark): Gathered
  {
    Gathered(PlainItems(lines), PlainAll(Somes(cur)), mark)
  }

  lemma SomesSome(cur: seq<Option<Doc>>)
    requires exists i :: 0 <= i < |cur| && cur[i].Some?
    ensures PlainAll(Somes(cur)) != []
  {
    hide PlainAll, Somes;
    var i :| 0 <= i < |cur| && cur[i].Some?;
    SomesMembers(cur, cur[i].value);
    PlainSize(Somes(cur));
  }

  lemma PlainSize(ds: seq<Doc>)
    ensures |PlainAll(ds)| == |ds|
  {
  }

  lemma PlainMore(cur: seq<Option<Doc>>, more: seq<Option<Doc>>)
    ensures PlainAll(Somes(cur + more)) == PlainAll(Somes(cur)) + PlainAll(Somes(more))
  {
    hide PlainAll, Somes;
    SomesConcat(cur, more);
    PlainConcat(Somes(cur), Somes(more));
  }

  lemma PlainTwo(a: Option<Doc>, b: Option<Doc>)
    ensures PlainAll(Somes([a, b])) == Opt(PlainPart(a)) + Opt(PlainPart(b))
  {
    hide PlainAll, Somes, Plain;
    SomesConcat([a], [b]);
    SomesOne(a);
    SomesOne(b);
    assert [a] + [b] == [a, b];
    PlainConcat(Opt(a), Opt(b));
    PlainOpt(a);
    PlainOpt(b);
  }

  lemma Surround<T>(i: seq<T>, p: seq<T>, t: seq<T>)
    ensures i + (p + ([] + t)) + [] == i + p + t && i + p + (t + []) == i + p + t && i + (p + ([] + t + [])) == i + p + t
  {
  }

  lemma Grouped<T>(c: seq<T>, b: seq<T>, o: seq<T>, a: seq<T>)
    ensures c + (b + o + a) == c + b + o + a && c + (b + o) == c + b + o
  {
  }

  /** An operator that stays on its line. */
  lemma StayText(texts: seq<Layout>, cur: seq<Option<Doc>>, b: Option<Doc>, op: Doc, a: Option<Doc>)
    requires PartText(b) == PartText(a) == []
    ensures texts + PartsText(cur + [b, Some(op), a]) == texts + PartsText(cur) + TextOf(op)
    ensures PlainAll(Somes(cur + [b, Some(op), a])) == PlainAll(Somes(cur)) + Opt(PlainPart(b)) + [Plain(op)] + Opt(PlainPart(a))
  {
    hide PlainAll, Somes, Plain, TextOf, PartsText;
    PartsText3(b, Some(op), a);
    PartsTextConcat(cur, [b, Some(op), a]);
    PlainThree(b, Some(op), a);
    PlainMore(cur, [b, Some(op), a]);
    Surround(texts, PartsText(cur), TextOf(op));
    Grouped(PlainAll(Somes(cur)), Opt(PlainPart(b)), [Plain(op)], Opt(PlainPart(a)));
  }

  lemma PlainFlat(flat: seq<Option<Doc>>, b: Option<Doc>, l: Link, a: Option<Doc>)
    ensures PlainAll(Somes(flat + [b, Some(l.op), a, Some(l.operand)])) ==
            PlainAll(Somes(flat)) + (Opt(PlainPart(b)) + [Plain(l.op)] + Opt(PlainPart(a)) + [Plain(l.operand)])
  {
    hide PlainAll, Somes, Plain;
    var more := [b, Some(l.op), a];
    PlainMore(flat, more + [Some(l.operand)]);
    PlainSnoc(more, l.operand);
    PlainThree(b, Some(l.op), a);
    assert more + [Some(l.operand)] == [b, Some(l.op), a, Some(l.operand)];
  }

  lemma StartChain(first: Doc)
    ensures PlainAll(Somes([Some(first)])) == [Plain(first)] && PlainItems([]) == []
  {
    hide Plain, PlainAll, Somes;
    SomesOne(Some(first));
    PlainOpt(Some(first));
  }

  /** One more item on a line. */
  lemma LineGrows(kids: seq<Option<Doc>>, items: seq<Item>, i: nat, sp: Doc)
    requires i < |items| && PlainAll(Somes(kids)) == LineDocs(PlainItems(items[..i]), Plain(sp))
    ensures var more := if i > 0 then [Some(sp), Some(items[i].d)] else [Some(items[i].d)];
            PlainAll(Somes(kids + more)) == LineDocs(PlainItems(items[..i + 1]), Plain(sp))
  {
    hide PlainAll, Somes, Plain;
    var next := PlainItems(items[..i + 1]);
    assert next[..i] == PlainItems(items[..i]);
    if i > 0 {
      PlainSnoc(kids, sp);
      PlainSnoc(kids + [Some(sp)], items[i].d);
      assert kids + [Some(sp)] + [Some(items[i].d)] == kids + [Some(sp), Some(items[i].d)];
    } else {
      PlainSnoc(kids, items[i].d);
    }
  }

  /** Ids make no difference to which items are simple. */
  lemma {:induction false} PlainCounts(items: seq<Item>)
    ensures CountGroups(PlainItems(items)) == CountGroups(items)
    ensures AllSimpleAfterFirst(PlainItems(items)) <==> AllSimpleAfterFirst(items)
    ensures forall isList, el :: IsDeep(PlainItems(items), isList, el) <==> IsDeep(items, isList, el)
  {
    hide Plain;
    var plain := PlainItems(items);
    assert forall i :: 0 <= i < |items| ==> plain[i].simple == items[i].simple;
    if items != [] {
      assert plain[1..] == PlainItems(items[1..]);
      PlainCounts(items[1..]);
    }
    forall isList, el ensures IsDeep(plain, isList, el) <==> IsDeep(items, isList, el) {
      if IsDeep(items, isList, el) {
        var i :| 0 <= i < |items| && !items[i].simple;
        assert !plain[i].simple;
      }
    }
  }

  lemma NoText()
    ensures PartsText([]) == [] && forall items: seq<Item> :: ItemsText(items[..0]) == []
  {
  }

  lemma {:induction false} ItemsTextConcat(a: seq<Item>, b: seq<Item>)
    ensures ItemsText(a + b) == ItemsText(a) + ItemsText(b)
  {
    if a == [] {
      assert a + b == b;
    } else {
      assert (a + b)[1..] == a[1..] + b;
      ItemsTextConcat(a[1..], b);
    }
  }

  lemma ItemsTextSnoc(items: seq<Item>, i: nat)
    requires i < |items|
    ensures ItemsText(items[..i + 1]) == ItemsText(items[..i]) + TextOf(items[i].d)
  {
    assert items[..i + 1] == items[..i] + [items[i]];
    ItemsTextConcat(items[..i], [items[i]]);
    assert ItemsText([items[i]]) == TextOf(items[i].d);
  }

  function ChainText(first: Doc, links: seq<Link>): seq<Layout>
  {
    if links == [] then TextOf(first)
    else
      var l := links[|links| - 1];
      ChainText(first, links[..|links| - 1]) + (TextOf(l.op) + TextOf(l.operand))
  }

  lemma ChainTextSnoc(first: Doc, links: seq<Link>, i: nat)
    requires i < |links|
    ensures ChainText(first, links[..i + 1]) ==
            ChainText(first, links[..i]) + (TextOf(links[i].op) + TextOf(links[i].operand))
  {
    assert links[..i + 1][..i] == links[..i];
  }

  predicate FlatChain(first: Doc, links: seq<Link>)
  {
    Flat(first) && forall i :: 0 <= i < |links| ==> Flat(links[i].op) && Flat(links[i].operand)
  }

  predicate FlatSeq(kids: seq<Option<Doc>>)
  {
    forall i :: 0 <= i < |kids| && kids[i].Some? ==> Flat(kids[i].value)
  }

  lemma FlatGrows(flat: seq<Option<Doc>>, b: Option<Doc>, l: Link, a: Option<Doc>)
    requires PartText(b) == PartText(a) == [] && (b.Some? ==> Flat(b.value)) && (a.Some? ==> Flat(a.value))
    ensures var more := [b, Some(l.op), a, Some(l.operand)];
            PartsText(flat + more) == PartsText(flat) + (TextOf(l.op) + TextOf(l.operand)) &&
            (FlatSeq(flat) && Flat(l.op) && Flat(l.operand) ==> FlatSeq(flat + more))
  {
    PartsText4(b, Some(l.op), a, Some(l.operand));
    PartsTextConcat(flat, [b, Some(l.op), a, Some(l.operand)]);
  }

  lemma OperandFollows(lines: seq<Item>, cur: seq<Option<Doc>>, before: seq<Layout>, l: Link)
    requires ItemsText(lines) + PartsText(cur) == before + TextOf(l.op)
    ensures ItemsText(lines) + PartsText(cur + [Some(l.operand)]) == before + (TextOf(l.op) + TextOf(l.operand))
  {
    PartsText1(Some(l.operand));
    PartsTextConcat(cur, [Some(l.operand)]);
    Associates(ItemsText(lines), PartsText(cur), TextOf(l.operand));
    Associates(before, TextOf(l.op), TextOf(l.operand));
  }
}
