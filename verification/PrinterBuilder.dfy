/** The document constructors, and the documents they make for argument groups and operator
    chains. The builder hands out fresh ids, so every document it makes is a graph whose ids
    name its nodes, as the memo of the evaluator needs. */
module PrinterBuilder {
  import opened Wrappers
  import opened PrinterLayouts
  import opened PrinterPlan
  import opened PrinterShapes
  import opened PrinterText

  class Builder {
    var nid: nat
    ghost var nodes: map<nat, Doc>

    constructor ()
      ensures Fresh() && nodes == map[]
    {
      nid := 0;
      nodes := map[];
    }

    /** Ids already given out are below the next one. */
    ghost predicate Fresh()
      reads this
    {
      forall id :: id in nodes ==> id < nid
    }

    /** A well-formed document whose nodes are all known under their ids and whose
        alternatives stand for the same text. */
    ghost predicate Made(d: Doc)
      reads this
    {
      WellFormed(d) && SameText(d) && Labelled(d, nodes)
    }

    ghost predicate MadePart(k: Option<Doc>)
      reads this
    {
      k.Some? ==> Made(k.value)
    }

    ghost predicate MadeParts(ks: seq<Option<Doc>>)
      reads this
    {
      forall i :: 0 <= i < |ks| ==> MadePart(ks[i])
    }

    ghost predicate MadeItems(items: seq<Item>)
      reads this
    {
      forall i :: 0 <= i < |items| ==> Made(items[i].d)
    }

    /** Documents made before stay made: nothing is renamed or lost. */
    twostate predicate KeepsMade()
      reads this
    {
      forall d :: old(Made(d)) ==> Made(d)
    }

    twostate lemma PartsStay(ks: seq<Option<Doc>>)
      requires KeepsMade() && old(MadeParts(ks))
      ensures MadeParts(ks)
    {
      forall i | 0 <= i < |ks| ensures MadePart(ks[i]) { assert old(MadePart(ks[i])); }
    }

    twostate lemma ItemsStay(items: seq<Item>)
      requires KeepsMade() && old(MadeItems(items))
      ensures MadeItems(items)
    {
    }

    ghost method Register(d: Doc)
      requires Fresh() && d.id == nid && WellFormed(d) && SameText(d)
      requires d.Cat? ==> forall i :: 0 <= i < |d.kids| ==> Made(d.kids[i])
      requires d.Flush? || d.One? ==> Made(d.a)
      requires d.Or? ==> Made(d.a) && Made(d.b)
      modifies this`nodes
      ensures nodes == old(nodes)[d.id := d] && Made(d) && KeepsMade()
    {
      nodes := nodes[d.id := d];
      forall x | old(Made(x)) ensures Made(x) { LabelledGrows(x, old(nodes), nodes); }
      match d
      case Text(_, _, _, _, _) =>
      case Cat(_, kids) => assert forall i :: 0 <= i < |kids| ==> old(Made(kids[i]));
      case Flush(_, a, _) => assert old(Made(a));
      case Or(_, a, b) => assert old(Made(a)) && old(Made(b));
      case One(_, a, _) => assert old(Made(a));
    }

    method NewText(w: Width, unit: bool, bad: nat) returns (d: Doc)
      requires Fresh()
      modifies this
      ensures Fresh() && KeepsMade() && Made(d) && d == Text(old(nid), w, false, unit, bad)
    {
      d := Text(nid, w, false, unit, bad);
      Register(d);
      nid := nid + 1;
    }

    method NewStep(w: Width) returns (d: Doc)
      requires Fresh()
      modifies this
      ensures Fresh() && KeepsMade() && Made(d) && d == Text(old(nid), w, true, false, 0)
    {
      d := Text(nid, w, true, false, 0);
      Register(d);
      nid := nid + 1;
    }

    /** Missing parts are dropped; fewer than two parts need no node. */
    method NewCat(kids: seq<Option<Doc>>) returns (d: Option<Doc>)
      requires Fresh() && MadeParts(kids)
      modifies this
      ensures Fresh() && KeepsMade() && MadePart(d)
      ensures d.Some? <==> exists i :: 0 <= i < |kids| && kids[i].Some?
      ensures PartText(d) == PartsText(kids)
      ensures d.Some? ==> (Flat(d.value) <==> forall i :: 0 <= i < |kids| && kids[i].Some? ==> Flat(kids[i].value))
      ensures PlainPart(d) == CatOpt(PlainAll(Somes(kids)))
    {
      var ds := Somes(kids);
      SomesText(kids);
      forall i | 0 <= i < |ds| ensures exists j :: 0 <= j < |kids| && kids[j] == Some(ds[i]) {
        SomesMembers(kids, ds[i]);
      }
      forall i | 0 <= i < |kids| && kids[i].Some? ensures kids[i].value in ds {
        SomesMembers(kids, kids[i].value);
      }
      if |ds| == 0 {
        d := None;
      } else if |ds| == 1 {
        assert TextOfAll(ds) == TextOf(ds[0]);
        d := Some(ds[0]);
      } else {
        var c := Cat(nid, ds);
        Register(c);
        nid := nid + 1;
        d := Some(c);
      }
    }

    method NewFlush(a: Doc, at: Mark) returns (d: Doc)
      requires Fresh() && Made(a)
      modifies this
      ensures Fresh() && KeepsMade() && Made(d) && d == Flush(old(nid), a, at)
    {
      d := Flush(nid, a, at);
      Register(d);
      nid := nid + 1;
    }

    method NewOr(a: Doc, b: Doc) returns (d: Doc)
      requires Fresh() && Made(a) && Made(b) && TextOf(a) == TextOf(b)
      modifies this
      ensures Fresh() && KeepsMade() && Made(d) && d == Or(old(nid), a, b)
    {
      d := Or(nid, a, b);
      Register(d);
      nid := nid + 1;
    }

    method NewOne(a: Doc, max: real) returns (d: Doc)
      requires Fresh() && Made(a) && max > 0.0
      modifies this
      ensures Fresh() && KeepsMade() && Made(d) && d == One(old(nid), a, max)
    {
      d := One(nid, a, max);
      Register(d);
      nid := nid + 1;
    }

    /** Up to five parts, the last two of which may be left out, set one after the other. */
    method Join(a: Option<Doc>, b: Doc, c: Option<Doc>, e: Option<Doc>, g: Option<Doc>) returns (d: Doc)
      requires Fresh() && MadePart(a) && Made(b) && MadePart(c) && MadePart(e) && MadePart(g)
      modifies this
      ensures Fresh() && KeepsMade() && Made(d)
      ensures TextOf(d) == PartText(a) + TextOf(b) + PartText(c) + PartText(e) + PartText(g)
      ensures Plain(d) == JoinOf(PlainPart(a), Plain(b), PlainPart(c), PlainPart(e), PlainPart(g))
    {
      hide Labelled, SameText, WellFormed, Plain, PlainAll, TextOf, PartsText, Somes, JoinOf;
      var kids := [a, Some(b), c, e, g];
      PlainJoin(a, b, c, e, g);
      assert kids[1].Some?;
      PartsText5(a, Some(b), c, e, g);
      var cat := NewCat(kids);
      d := cat.value;
    }

    /** Items on their own lines: each but the last is flushed at the mark of the next. */
    method Stack(items: seq<Item>) returns (d: Doc)
      requires Fresh() && MadeItems(items) && |items| > 0
      modifies this
      ensures Fresh() && KeepsMade() && Made(d) && TextOf(d) == ItemsText(items)
      ensures Plain(d) == StackOf(PlainItems(items))
    {
      hide Labelled, SameText, WellFormed, PlainAll, Somes, ItemsText, PartsText, Flat;
      var kids: seq<Option<Doc>> := [];
      NoPlain();
      NoText();
      for i := 0 to |items| - 1
        invariant PlainAll(Somes(kids)) == StackDocs(PlainItems(items), i)
        invariant Fresh() && KeepsMade() && MadeParts(kids) && PartsText(kids) == ItemsText(items[..i])
      {
        assert old(Made(items[i].d));
        label before:
        var f := NewFlush(items[i].d, items[i + 1].at);
        assert forall j :: 0 <= j < |kids| && kids[j].Some? ==> old@before(Made(kids[j].value));
        PartsTextConcat(kids, [Some(f)]);
        PartsText1(Some(f));
        ItemsTextSnoc(items, i);
        PlainSnoc(kids, f);
        kids := kids + [Some(f)];
      }
      var last := items[|items| - 1].d;
      assert old(Made(last));
      PartsTextConcat(kids, [Some(last)]);
      PartsText1(Some(last));
      ItemsTextSnoc(items, |items| - 1);
      assert items[..|items|] == items;
      PlainSnoc(kids, last);
      kids := kids + [Some(last)];
      assert kids[|kids| - 1].Some?;
      var c := NewCat(kids);
      d := c.value;
    }

    /** Items one after the other, with a space between. */
    method Row(items: seq<Item>, sp: Doc) returns (d: Option<Doc>)
      requires Fresh() && MadeItems(items) && Made(sp) && sp.Text? && !sp.unit
      modifies this
      ensures Fresh() && KeepsMade() && MadePart(d) && (d.None? <==> items == [])
      ensures PartText(d) == ItemsText(items)
      ensures d.Some? && (forall i :: 0 <= i < |items| ==> Flat(items[i].d)) ==> Flat(d.value)
      ensures PlainPart(d) == CatOpt(LineDocs(PlainItems(items), Plain(sp)))
    {
      hide Labelled, SameText, WellFormed, ItemsText, PartsText, Plain, PlainAll, Somes, LineDocs;
      var kids: seq<Option<Doc>> := [];
      NoText();
      NoPlain();
      assert items[..0] == [];
      for i := 0 to |items|
        invariant MadeParts(kids) && PartsText(kids) == ItemsText(items[..i])
        invariant PlainAll(Somes(kids)) == LineDocs(PlainItems(items[..i]), Plain(sp))
        invariant kids == [] <==> i == 0
        invariant forall k :: 0 <= k < |kids| ==>
                    (kids[k] == Some(sp) || exists j :: 0 <= j < i && kids[k] == Some(items[j].d))
        modifies {}
      {
        var more := if i > 0 then [Some(sp), Some(items[i].d)] else [Some(items[i].d)];
        PartsTextConcat(kids, more);
        PartsText1(Some(items[i].d));
        PartsText2(Some(sp), Some(items[i].d));
        ItemsTextSnoc(items, i);
        LineGrows(kids, items, i, sp);
        kids := kids + more;
      }
      assert items[..|items|] == items;
      assert items != [] ==> kids[0].Some?;
      d := NewCat(kids);
    }

    /** All items from the next line on, a step past the opening. */
    method Lisp(opening: Doc, items: seq<Item>, step: Doc, close: Option<Doc>) returns (d: Doc)
      requires Fresh() && Made(opening) && MadeItems(items) && |items| > 0 && Made(step) && MadePart(close)
      requires step.Text? && !step.unit
      modifies this
      ensures Fresh() && KeepsMade() && Made(d)
      ensures TextOf(d) == TextOf(opening) + ItemsText(items) + PartText(close)
      ensures Plain(d) == LispOf(Plain(opening), PlainItems(items), Plain(step), PlainPart(close))
    {
      hide Labelled, SameText, WellFormed, JoinOf, StackOf;
      var body := Stack(items);
      var f := NewFlush(opening, items[0].at);
      var worse := NewText(0.0, false, 2);
      d := Join(Some(f), step, Some(body), close, Some(worse));
    }

    /** The alternatives already gathered, or the items filled: aligned under the first, or hung. */
    method FillAlternatives(acc: Doc, O: Option<Doc>, items: seq<Item>, sp: Doc, step: Doc, close: Option<Doc>)
      returns (d: Doc)
      requires Fresh() && Made(acc) && MadePart(O) && MadeItems(items) && |items| > 0 && MadePart(close)
      requires Made(sp) && sp.Text? && !sp.unit && Made(step) && step.Text? && !step.unit
      requires TextOf(acc) == PartText(O) + ItemsText(items) + PartText(close)
      modifies this
      ensures Fresh() && KeepsMade() && Made(d) && TextOf(d) == TextOf(acc) && (Flat(acc) ==> Flat(d))
      ensures Plain(d) == FillChoices(Plain(acc), PlainPart(O), PlainItems(items), Plain(sp), Plain(step), PlainPart(close))
    {
      hide Labelled, SameText, WellFormed, JoinOf, FillOf;
      var L, h := Filled(O, items, sp, step);
      var aligned := Join(O, L, close, None, None);
      var worse := NewText(0.0, false, 1);
      var hung := Join(None, h, close, Some(worse), None);
      d := NewOr(acc, aligned);
      d := NewOr(d, hung);
    }

    /** The items filled under the first, and filled after the opening with later lines hung. */
    method Filled(O: Option<Doc>, items: seq<Item>, sp: Doc, step: Doc) returns (L: Doc, h: Doc)
      requires Fresh() && MadePart(O) && MadeItems(items) && |items| > 0
      requires Made(sp) && sp.Text? && !sp.unit && Made(step) && step.Text? && !step.unit
      modifies this
      ensures Fresh() && KeepsMade() && Made(L) && Made(h)
      ensures TextOf(L) == ItemsText(items) && TextOf(h) == PartText(O) + ItemsText(items)
      ensures Plain(L) == FillOf(Plain(items[0].d), PlainItems(items), Plain(sp), None, |items|)
      ensures Plain(h) == FillOf(JoinOf(PlainPart(O), Plain(items[0].d), None, None, None), PlainItems(items), Plain(sp),
                                 Some(Plain(step)), |items|)
    {
      hide Labelled, SameText, WellFormed, JoinOf, ExtendOf, Plain, TextOf, ItemsText, Flat;
      L := items[0].d;
      h := Join(O, items[0].d, None, None, None);
      ItemsTextSnoc(items, 0);
      NoText();
      for i := 1 to |items|
        invariant Fresh() && KeepsMade() && Made(L) && Made(h)
        invariant TextOf(L) == ItemsText(items[..i]) && TextOf(h) == PartText(O) + ItemsText(items[..i])
        invariant Plain(L) == FillOf(Plain(items[0].d), PlainItems(items), Plain(sp), None, i)
        invariant Plain(h) == FillOf(JoinOf(PlainPart(O), Plain(items[0].d), None, None, None), PlainItems(items), Plain(sp),
                                     Some(Plain(step)), i)
      {
        assert old(Made(items[i].d)) && old(Made(sp)) && old(Made(step));
        ItemsTextSnoc(items, i);
        L := Extend(L, items[i], sp, None);
        h := Extend(h, items[i], sp, Some(step));
      }
      assert items[..|items|] == items;
    }

    /** One more item after what is set so far: on the same line, or on the next one. */
    method Extend(sofar: Doc, item: Item, sp: Doc, step: Option<Doc>) returns (d: Doc)
      requires Fresh() && Made(sofar) && Made(item.d) && Made(sp) && sp.Text? && !sp.unit
      requires MadePart(step) && (step.Some? ==> step.value.Text? && !step.value.unit)
      modifies this
      ensures Fresh() && KeepsMade() && Made(d) && TextOf(d) == TextOf(sofar) + TextOf(item.d)
      ensures Plain(d) == ExtendOf(Plain(sofar), item.(d := Plain(item.d)), Plain(sp), PlainPart(step))
    {
      hide Labelled, SameText, WellFormed, JoinOf;
      var onLine := Join(Some(sofar), sp, Some(item.d), None, None);
      var f := NewFlush(sofar, item.at);
      var below := Join(Some(f), if step.Some? then step.value else item.d, if step.Some? then Some(item.d) else None, None, None);
      d := NewOr(onLine, below);
    }

    /** The alternatives already gathered, or the first k items on the opening line and the rest
        stacked, aligned or hung, for each k up to the first group after the first item. */
    method StackAlternatives(acc: Doc, O: Option<Doc>, items: seq<Item>, sp: Doc, step: Doc, close: Option<Doc>)
      returns (d: Doc)
      requires Fresh() && Made(acc) && MadePart(O) && MadeItems(items) && |items| > 1 && MadePart(close)
      requires Made(sp) && sp.Text? && !sp.unit && Made(step) && step.Text? && !step.unit
      requires TextOf(acc) == PartText(O) + ItemsText(items) + PartText(close)
      modifies this
      ensures Fresh() && KeepsMade() && Made(d) && TextOf(d) == TextOf(acc) && (Flat(acc) ==> Flat(d))
      ensures Plain(d) == StackChoices(Plain(acc), PlainPart(O), PlainItems(items), 1, Plain(sp), Plain(step), PlainPart(close))
    {
      hide Labelled, SameText, WellFormed, AlignedOf, HungOf, Plain;
      d := acc;
      var k := 1;
      while k < |items|
        invariant 1 <= k <= |items|
        invariant StackChoices(Plain(d), PlainPart(O), PlainItems(items), k, Plain(sp), Plain(step), PlainPart(close)) ==
                  StackChoices(Plain(acc), PlainPart(O), PlainItems(items), 1, Plain(sp), Plain(step), PlainPart(close))
        invariant Fresh() && KeepsMade() && Made(d)
        invariant TextOf(d) == TextOf(acc) && (Flat(acc) ==> Flat(d))
      {
        assert forall i :: 0 <= i < |items| ==> old(Made(items[i].d));
        assert old(Made(sp)) && old(Made(step)) && (O.Some? ==> old(Made(O.value))) &&
               (close.Some? ==> old(Made(close.value)));
        d := StackAt(d, O, items, k, sp, step, close);
        if !items[k].simple { return; }
        k := k + 1;
      }
    }

    method StackAt(acc: Doc, O: Option<Doc>, items: seq<Item>, k: nat, sp: Doc, step: Doc, close: Option<Doc>)
      returns (d: Doc)
      requires Fresh() && Made(acc) && MadePart(O) && MadeItems(items) && 1 <= k < |items| && MadePart(close)
      requires Made(sp) && sp.Text? && !sp.unit && Made(step) && step.Text? && !step.unit
      requires TextOf(acc) == PartText(O) + ItemsText(items) + PartText(close)
      modifies this
      ensures Fresh() && KeepsMade() && Made(d) && TextOf(d) == TextOf(acc) && (Flat(acc) ==> Flat(d))
      ensures Plain(d) == Or(0, Or(0, Plain(acc), AlignedOf(PlainPart(O), PlainItems(items), k, Plain(sp), PlainPart(close))),
                             HungOf(PlainPart(O), PlainItems(items), k, Plain(sp), Plain(step), PlainPart(close)))
    {
      hide Labelled, SameText, WellFormed, JoinOf, StackOf, FirstLine;
      ItemsTextConcat(items[..k], items[k..]);
      assert items[..k] + items[k..] == items;
      var first, rest := OpeningLine(items, k, sp);
      var aligned := Aligned(O, first, items[k].at, rest, close);
      d := NewOr(acc, aligned);
      var hung := Hung(O, first, items[k].at, step, rest, close);
      d := NewOr(d, hung);
    }

    method OpeningLine(items: seq<Item>, k: nat, sp: Doc) returns (first: Doc, rest: Doc)
      requires Fresh() && MadeItems(items) && 1 <= k < |items| && Made(sp) && sp.Text? && !sp.unit
      modifies this
      ensures Fresh() && KeepsMade() && Made(first) && Made(rest)
      ensures TextOf(first) == ItemsText(items[..k]) && TextOf(rest) == ItemsText(items[k..])
      ensures Plain(first) == FirstLine(PlainItems(items), k, Plain(sp)) && Plain(rest) == StackOf(PlainItems(items)[k..])
    {
      hide Labelled, SameText, WellFormed, StackOf, LineDocs;
      PlainItemsPrefix(items, k);
      rest := Stack(items[k..]);
      assert forall i :: 0 <= i < k ==> old(Made(items[i].d));
      var line := Row(items[..k], sp);
      first := line.value;
      if k > 1 { first := NewOne(first, 1.0); }
    }

    method Aligned(O: Option<Doc>, first: Doc, at: Mark, rest: Doc, close: Option<Doc>) returns (d: Doc)
      requires Fresh() && MadePart(O) && Made(first) && Made(rest) && MadePart(close)
      modifies this
      ensures Fresh() && KeepsMade() && Made(d)
      ensures TextOf(d) == PartText(O) + (TextOf(first) + TextOf(rest)) + PartText(close)
      ensures Plain(d) == JoinOf(PlainPart(O), Flush(0, Plain(first), at), Some(Plain(rest)), PlainPart(close), None)
    {
      hide Labelled, SameText, WellFormed, JoinOf;
      var f := NewFlush(first, at);
      d := Join(O, f, Some(rest), close, None);
    }

    method Hung(O: Option<Doc>, first: Doc, at: Mark, step: Doc, rest: Doc, close: Option<Doc>) returns (d: Doc)
      requires Fresh() && MadePart(O) && Made(first) && Made(rest) && MadePart(close)
      requires Made(step) && step.Text? && !step.unit
      modifies this
      ensures Fresh() && KeepsMade() && Made(d)
      ensures TextOf(d) == PartText(O) + (TextOf(first) + TextOf(rest)) + PartText(close)
      ensures Plain(d) == JoinOf(Some(Flush(0, JoinOf(PlainPart(O), Plain(first), None, None, None), at)), Plain(step),
                                 Some(Plain(rest)), PlainPart(close), Some(Blank(0.0, 1)))
    {
      hide Labelled, SameText, WellFormed, Flat, TextOf, JoinOf;
      var head := Join(O, first, None, None, None);
      var f := NewFlush(head, at);
      TextIs(f);
      var worse := NewText(0.0, false, 1);
      TextIs(worse);
      TextIs(step);
      d := Join(Some(f), step, Some(rest), close, Some(worse));
      HungText(PartText(O), TextOf(first), TextOf(rest), PartText(close));
    }

    /** The whole group one part after the other, before any alternative is offered. */
    method Whole(O: Option<Doc>, items: seq<Item>, sp: Doc, close: Option<Doc>) returns (d: Option<Doc>)
      requires Fresh() && MadePart(O) && MadeItems(items) && MadePart(close) && Made(sp) && sp.Text? && !sp.unit
      modifies this
      ensures Fresh() && KeepsMade() && MadePart(d)
      ensures d.None? <==> O.None? && items == [] && close.None?
      ensures PartText(d) == PartText(O) + ItemsText(items) + PartText(close)
      ensures FlatParts(O, items, close) && d.Some? ==> Flat(d.value)
      ensures PlainPart(d) == WholeOf(PlainPart(O), PlainItems(items), Plain(sp), PlainPart(close))
    {
      hide Labelled, SameText, WellFormed, Plain, PlainAll, LineDocs, Somes;
      var all := Row(items, sp);
      PlainThree(O, all, close);
      PartsText3(O, all, close);
      var kids := [O, all, close];
      assert kids[0] == O && kids[1] == all && kids[2] == close;
      d := NewCat(kids);
    }

    static predicate FlatParts(O: Option<Doc>, items: seq<Item>, close: Option<Doc>)
    {
      (O.Some? ==> Flat(O.value)) && (forall i :: 0 <= i < |items| ==> Flat(items[i].d)) &&
      (close.Some? ==> Flat(close.value))
    }

    /** A compound or list, from its opening, its items and its closing. Its layouts: on one
        line; filled when all items after the first are simple, aligned or hung; otherwise the
        first (with simple ones after it) on the opening line and the rest stacked, aligned or
        hung; and for a compound with a group inside, all items from the next line. */
    method ArgsDoc(O: Option<Doc>, items: seq<Item>, close: Option<Doc>, isList: bool,
                   firstIsElement: bool, space: Width, indent: Width) returns (d: Option<Doc>)
      requires Fresh() && MadePart(O) && MadeItems(items) && MadePart(close)
      requires !isList ==> O.Some?
      modifies this
      ensures Fresh() && KeepsMade() && MadePart(d)
      ensures d.None? <==> O.None? && items == [] && close.None?
      ensures PartText(d) == PartText(O) + ItemsText(items) + PartText(close)
      ensures FlatParts(O, items, close) && d.Some? ==> Flat(d.value)
      ensures PlainPart(d) == ArgsOf(PlainPart(O), PlainItems(items), PlainPart(close), isList, firstIsElement,
                                     Blank(space, 0), Indent(indent))
    {
      hide Labelled, SameText, WellFormed, ItemsText, WholeOf, LispOf, FillChoices, StackChoices;
      PlainCounts(items);
      var sp := NewText(space, false, 0);
      var step := NewStep(indent);
      var deep := IsDeep(items, isList, firstIsElement);
      var whole := Whole(O, items, sp, close);
      if |items| < 2 {
        if deep {
          var l := Lisp(O.value, items, step, close);
          var either := NewOr(whole.value, l);
          return Some(either);
        }
        return whole;
      }
      var acc := Alternatives(whole.value, O, items, sp, step, close, isList && CountGroups(items) > 1);
      if deep {
        var l := Lisp(O.value, items, step, close);
        acc := NewOr(acc, l);
      }
      d := Some(acc);
    }

    /** The group on one line, or filled, or stacked. */
    method Alternatives(whole: Doc, O: Option<Doc>, items: seq<Item>, sp: Doc, step: Doc, close: Option<Doc>, column: bool)
      returns (d: Doc)
      requires Fresh() && Made(whole) && MadePart(O) && MadeItems(items) && |items| > 1 && MadePart(close)
      requires Made(sp) && sp.Text? && !sp.unit && Made(step) && step.Text? && !step.unit
      requires TextOf(whole) == PartText(O) + ItemsText(items) + PartText(close)
      modifies this
      ensures Fresh() && KeepsMade() && Made(d) && TextOf(d) == TextOf(whole) && (Flat(whole) ==> Flat(d))
      ensures var one := One(0, Plain(whole), if column then 0.5 else 1.0);
              Plain(d) ==
              if AllSimpleAfterFirst(PlainItems(items))
              then FillChoices(one, PlainPart(O), PlainItems(items), Plain(sp), Plain(step), PlainPart(close))
              else StackChoices(one, PlainPart(O), PlainItems(items), 1, Plain(sp), Plain(step), PlainPart(close))
    {
      hide Labelled, SameText, WellFormed, ItemsText, FillChoices, StackChoices;
      PlainCounts(items);
      d := NewOne(whole, if column then 0.5 else 1.0);
      if AllSimpleAfterFirst(items) {
        d := FillAlternatives(d, O, items, sp, step, close);
      } else {
        d := StackAlternatives(d, O, items, sp, step, close);
      }
    }

    // ----- Operator chains -----

    ghost predicate MadeLinks(links: seq<Link>)
      reads this
    {
      forall i :: 0 <= i < |links| ==> Made(links[i].op) && Made(links[i].operand)
    }

    /** The space of a separator, where there is one. */
    method SpaceFor(at: Option<Mark>, space: Width) returns (d: Option<Doc>)
      requires Fresh()
      modifies this
      ensures Fresh() && KeepsMade() && MadePart(d) && PartText(d) == [] && (d.Some? ==> Flat(d.value))
      ensures PlainPart(d) == SpaceOf(at, space)
    {
      if at.None? { return None; }
      var t := NewText(space, false, 0);
      d := Some(t);
    }

    /** The line gathered so far becomes a line of its own, after those already finished. */
    method FinishLine(lines: seq<Item>, cur: seq<Option<Doc>>, mark: Mark) returns (more: seq<Item>)
      requires Fresh() && MadeItems(lines) && MadeParts(cur) && exists i :: 0 <= i < |cur| && cur[i].Some?
      modifies this
      ensures Fresh() && KeepsMade() && MadeItems(more) && |more| == |lines| + 1
      ensures ItemsText(more) == ItemsText(lines) + PartsText(cur)
      ensures PlainAll(Somes(cur)) != [] && PlainItems(more) == Finished(Gathered(PlainItems(lines), PlainAll(Somes(cur)), mark))
    {
      hide Labelled, SameText, WellFormed, Plain, PlainAll, Somes;
      var c := NewCat(cur);
      var item := Item(c.value, mark, true);
      ItemsTextConcat(lines, [item]);
      assert ItemsText([item]) == TextOf(item.d);
      assert forall i :: 0 <= i < |lines| ==> old(Made(lines[i].d));
      more := lines + [item];
    }

    /** One operator of a chain: an arrow or a semicolon starts its line, any other operator ends
        its line. The mark of a line is the separator the break before it is written at. */
    method AddOperator(lines: seq<Item>, cur: seq<Option<Doc>>, mark: Mark, l: Link, b: Option<Doc>,
                       a: Option<Doc>, leads: bool)
      returns (lines': seq<Item>, cur': seq<Option<Doc>>, mark': Mark)
      requires Fresh() && MadeItems(lines) && MadeParts(cur) && (exists i :: 0 <= i < |cur| && cur[i].Some?)
      requires Made(l.op) && MadePart(b) && MadePart(a) && PartText(b) == PartText(a) == []
      modifies this
      ensures Fresh() && KeepsMade() && MadeItems(lines') && MadeParts(cur')
      ensures ItemsText(lines') + PartsText(cur') == ItemsText(lines) + PartsText(cur) + TextOf(l.op)
      ensures PlainAll(Somes(cur)) != []
      ensures PlainGathered(lines', cur', mark') ==
              OperatorOf(PlainGathered(lines, cur, mark), PlainLink(l), PlainPart(b), PlainPart(a), leads)
    {
      hide Labelled, SameText, WellFormed, Plain, PlainAll, Somes, Finished, TextOf, ItemsText, PartsText, Flat, PlainItems;
      SomesSome(cur);
      var lead := leads && l.before.Some?;
      var at := if lead then l.before else l.after;
      if at.None? {
        StayText(ItemsText(lines), cur, b, l.op, a);
        lines', cur', mark' := lines, cur + [b, Some(l.op), a], mark;
      } else if lead {
        lines', cur' := LeadLine(lines, cur, mark, l.op, a);
        mark' := at.value;
      } else {
        lines' := EndLine(lines, cur, mark, b, l.op);
        NoPlain();
        NoText();
        cur', mark' := [], at.value;
      }
    }

    /** The line gathered so far is finished, and the operator starts the next. */
    method LeadLine(lines: seq<Item>, cur: seq<Option<Doc>>, mark: Mark, op: Doc, a: Option<Doc>)
      returns (lines': seq<Item>, cur': seq<Option<Doc>>)
      requires Fresh() && MadeItems(lines) && MadeParts(cur) && (exists i :: 0 <= i < |cur| && cur[i].Some?)
      requires Made(op) && MadePart(a) && PartText(a) == []
      modifies this
      ensures Fresh() && KeepsMade() && MadeItems(lines') && MadeParts(cur')
      ensures ItemsText(lines') + PartsText(cur') == ItemsText(lines) + PartsText(cur) + TextOf(op)
      ensures PlainAll(Somes(cur)) != [] && PlainItems(lines') == Finished(PlainGathered(lines, cur, mark))
      ensures PlainAll(Somes(cur')) == [Plain(op)] + Opt(PlainPart(a))
    {
      hide Labelled, SameText, WellFormed, Plain, PlainAll, Somes, Finished, TextOf, ItemsText, PartsText, Flat, PlainItems;
      lines' := FinishLine(lines, cur, mark);
      PartsText2(Some(op), a);
      PlainTwo(Some(op), a);
      cur' := [Some(op), a];
      assert old(Made(op)) && (a.Some? ==> old(Made(a.value)));
      Surround(ItemsText(lines), PartsText(cur), TextOf(op));
    }

    /** The operator ends the line gathered so far. */
    method EndLine(lines: seq<Item>, cur: seq<Option<Doc>>, mark: Mark, b: Option<Doc>, op: Doc) returns (lines': seq<Item>)
      requires Fresh() && MadeItems(lines) && MadeParts(cur) && Made(op) && MadePart(b) && PartText(b) == []
      modifies this
      ensures Fresh() && KeepsMade() && MadeItems(lines')
      ensures ItemsText(lines') + [] == ItemsText(lines) + PartsText(cur) + TextOf(op)
      ensures PlainItems(lines') == Finished(Gathered(PlainItems(lines), PlainAll(Somes(cur)) + Opt(PlainPart(b)) + [Plain(op)], mark))
    {
      hide Labelled, SameText, WellFormed, Plain, PlainAll, Somes, Finished, TextOf, ItemsText, PartsText, Flat, PlainItems;
      PartsText2(b, Some(op));
      PartsTextConcat(cur, [b, Some(op)]);
      PlainTwo(b, Some(op));
      PlainMore(cur, [b, Some(op)]);
      Grouped(PlainAll(Somes(cur)), Opt(PlainPart(b)), [Plain(op)], []);
      Surround(ItemsText(lines), PartsText(cur), TextOf(op));
      var line := cur + [b, Some(op)];
      assert line[|line| - 1].Some?;
      lines' := FinishLine(lines, line, mark);
    }

    /** The parts of a chain in one row, and its lines. */
    method ChainLines(first: Doc, links: seq<Link>, leads: bool, space: Width)
      returns (flat: seq<Option<Doc>>, lines: seq<Item>)
      requires Fresh() && Made(first) && MadeLinks(links)
      modifies this
      ensures Fresh() && KeepsMade() && MadeParts(flat) && MadeItems(lines) && |lines| > 0
      ensures PartsText(flat) == ChainText(first, links) == ItemsText(lines)
      ensures |flat| > 0 && flat[0].Some?
      ensures FlatChain(first, links) ==> FlatSeq(flat)
      ensures PlainAll(Somes(flat)) == FlatOf(Plain(first), PlainLinks(links), space)
      ensures PlainItems(lines) == Finished(LinksOf(Plain(first), PlainLinks(links), leads, space))
    {
      hide Labelled, SameText, WellFormed, Plain, PlainAll, Somes, LinkOf, Finished;
      StartChain(first);
      assert links[..0] == [] && PlainLinks([]) == [];
      flat, lines := [Some(first)], [];
      var cur, mark: Mark := [Some(first)], 0;
      PartsText1(Some(first));
      for i := 0 to |links|
        invariant Fresh() && KeepsMade() && MadeParts(flat) && MadeItems(lines) && MadeParts(cur)
        invariant PartsText(flat) == ChainText(first, links[..i])
        invariant ItemsText(lines) + PartsText(cur) == ChainText(first, links[..i])
        invariant |flat| > 0 && flat[0].Some? && |cur| > 0 && cur[|cur| - 1].Some?
        invariant FlatChain(first, links) ==> FlatSeq(flat)
        invariant PlainAll(Somes(flat)) == FlatOf(Plain(first), PlainLinks(links[..i]), space)
        invariant PlainGathered(lines, cur, mark) == LinksOf(Plain(first), PlainLinks(links[..i]), leads, space)
      {
        ChainTextSnoc(first, links, i);
        PlainLinksNext(links, i);
        flat, lines, cur, mark := AddLink(flat, lines, cur, mark, links[i], leads, space);
      }
      assert links[..|links|] == links;
      label done:
      lines := FinishLine(lines, cur, mark);
      assert forall j :: 0 <= j < |flat| && flat[j].Some? ==> old@done(Made(flat[j].value));
    }

    method AddLink(flat: seq<Option<Doc>>, lines: seq<Item>, cur: seq<Option<Doc>>, mark: Mark, l: Link,
                   leads: bool, space: Width)
      returns (flat': seq<Option<Doc>>, lines': seq<Item>, cur': seq<Option<Doc>>, mark': Mark)
      requires Fresh() && MadeParts(flat) && MadeItems(lines) && MadeParts(cur) && Made(l.op) && Made(l.operand)
      requires |cur| > 0 && cur[|cur| - 1].Some? && |flat| > 0 && flat[0].Some?
      modifies this
      ensures Fresh() && KeepsMade() && MadeParts(flat') && MadeItems(lines') && MadeParts(cur')
      ensures PartsText(flat') == PartsText(flat) + (TextOf(l.op) + TextOf(l.operand))
      ensures ItemsText(lines') + PartsText(cur') == ItemsText(lines) + PartsText(cur) + (TextOf(l.op) + TextOf(l.operand))
      ensures |cur'| > 0 && cur'[|cur'| - 1].Some? && |flat'| > 0 && flat'[0].Some?
      ensures FlatSeq(flat) && Flat(l.op) && Flat(l.operand) ==> FlatSeq(flat')
      ensures PlainAll(Somes(cur)) != []
      ensures PlainAll(Somes(flat')) ==
              PlainAll(Somes(flat)) + (Opt(SpaceOf(l.before, space)) + [Plain(l.op)] + Opt(SpaceOf(l.after, space)) + [Plain(l.operand)])
      ensures PlainGathered(lines', cur', mark') == LinkOf(PlainGathered(lines, cur, mark), PlainLink(l), leads, space)
    {
      hide Labelled, SameText, WellFormed, Flat, TextOf, ItemsText, PartsText, Plain, PlainAll, Somes, OperatorOf;
      var b, a := Spaces(l, space);
      PartsStay(flat);
      PartsStay(cur);
      ItemsStay(lines);
      flat' := flat + [b, Some(l.op), a, Some(l.operand)];
      FlatGrows(flat, b, l, a);
      assert old(Made(l.op)) && old(Made(l.operand));
      label adding:
      lines', cur', mark' := AddOperator(lines, cur, mark, l, b, a, leads);
      PartsStay@adding(flat');
      OperandFollows(lines', cur', ItemsText(lines) + PartsText(cur), l);
      PlainFlat(flat, b, l, a);
      PlainSnoc(cur', l.operand);
      cur' := cur' + [Some(l.operand)];
    }

    method Spaces(l: Link, space: Width) returns (b: Option<Doc>, a: Option<Doc>)
      requires Fresh()
      modifies this
      ensures Fresh() && KeepsMade() && MadePart(b) && MadePart(a)
      ensures PartText(b) == PartText(a) == [] && (b.Some? ==> Flat(b.value)) && (a.Some? ==> Flat(a.value))
      ensures PlainPart(b) == SpaceOf(l.before, space) && PlainPart(a) == SpaceOf(l.after, space)
    {
      b := SpaceFor(l.before, space);
      a := SpaceFor(l.after, space);
    }

    /** A chain of one operator: on one line, or a line per operand. */
    method ChainDoc(first: Doc, links: seq<Link>, leads: bool, bad: nat, space: Width) returns (d: Doc)
      requires Fresh() && Made(first) && MadeLinks(links)
      modifies this
      ensures Fresh() && KeepsMade() && Made(d)
      ensures TextOf(d) == ChainText(first, links)
      ensures FlatChain(first, links) ==> Flat(d)
      ensures Plain(d) == ChainOf(Plain(first), PlainLinks(links), leads, bad, space)
    {
      hide Labelled, SameText, WellFormed, Plain, PlainAll, Somes, Finished, LinksOf, FlatOf, CatOf;
      var flat, lines := ChainLines(first, links, leads, space);
      label parts:
      var whole := NewCat(flat);
      if |lines| < 2 { return whole.value; }
      ItemsStay@parts(lines);
      d := ChainAlternatives(whole.value, lines, bad);
    }

    method ChainAlternatives(whole: Doc, lines: seq<Item>, bad: nat) returns (d: Doc)
      requires Fresh() && Made(whole) && MadeItems(lines) && |lines| > 1 && TextOf(whole) == ItemsText(lines)
      modifies this
      ensures Fresh() && KeepsMade() && Made(d) && TextOf(d) == TextOf(whole) && (Flat(whole) ==> Flat(d))
      ensures Plain(d) == ChoiceOf(Plain(whole), PlainItems(lines), bad)
    {
      hide Labelled, SameText, WellFormed, StackOf, JoinOf;
      var one := NewOne(whole, 1.0);
      var stacked := Stack(lines);
      if bad > 0 {
        var worse := NewText(0.0, false, bad);
        stacked := Join(None, stacked, Some(worse), None, None);
      }
      d := NewOr(one, stacked);
    }
  }
}
