/** The documents of argument groups and operator chains, apart from the ids of their nodes: which
    layouts are offered, and in which order. */
module PrinterShapes {
  import opened Wrappers
  import opened Sequences
  import opened PrinterLayouts

  /** An item of an argument group: its document, the separator before it (or, for the first,
      the element itself), and whether it is simple. */
  datatype Item = Item(d: Doc, at: Mark, simple: bool)

  /** One link of an operator chain: the separators around an operator, if any, and the operand
      that follows. */
  datatype Link = Link(before: Option<Mark>, op: Doc, after: Option<Mark>, operand: Doc)

  // ----- Documents apart from ids -----

  function Plain(d: Doc): Doc
    decreases d, 1
  {
    match d
    case Text(_, w, sp, unit, bad) => Text(0, w, sp, unit, bad)
    case Cat(_, kids) => Cat(0, PlainAll(kids))
    case Flush(_, a, at) => Flush(0, Plain(a), at)
    case Or(_, a, b) => Or(0, Plain(a), Plain(b))
    case One(_, a, max) => One(0, Plain(a), max)
  }

  function PlainAll(ds: seq<Doc>): (r: seq<Doc>)
    ensures |r| == |ds| && forall i :: 0 <= i < |ds| ==> r[i] == Plain(ds[i])
    decreases ds, 0
  {
    if ds == [] then [] else [Plain(ds[0])] + PlainAll(ds[1..])
  }

  /** Ids make no difference to what is well formed and what is offered. */
  lemma {:induction false} PlainWellFormed(d: Doc)
    ensures WellFormed(Plain(d)) <==> WellFormed(d)
  {
    match d
    case Text(_, _, _, _, _) =>
    case Cat(_, kids) =>
      forall i | 0 <= i < |kids| ensures WellFormed(PlainAll(kids)[i]) <==> WellFormed(kids[i]) { PlainWellFormed(kids[i]); }
    case Flush(_, a, _) => PlainWellFormed(a);
    case Or(_, a, b) => PlainWellFormed(a); PlainWellFormed(b);
    case One(_, a, _) => PlainWellFormed(a);
  }

  lemma {:induction false} PlainOffers(d: Doc, r: Layout)
    requires WellFormed(d)
    ensures WellFormed(Plain(d)) && (Offers(Plain(d), r) <==> Offers(d, r))
    decreases d, if d.Cat? then |d.kids| + 1 else 0
  {
    PlainWellFormed(d);
    match d
    case Text(_, _, _, _, _) =>
    case Cat(_, kids) => PlainOffersRow(d, |kids|, r);
    case Flush(_, a, _) =>
      if r.Broken? { PlainOffers(a, r.box); }
    case Or(_, a, b) => PlainOffers(a, r); PlainOffers(b, r);
    case One(_, a, _) => PlainOffers(a, r);
  }

  lemma {:induction false} PlainOffersRow(d: Doc, n: nat, r: Layout)
    requires WellFormed(d) && d.Cat? && 0 < n <= |d.kids|
    ensures WellFormed(Plain(d)) && (OffersRow(Plain(d), n, r) <==> OffersRow(d, n, r))
    decreases d, n
  {
    PlainWellFormed(d);
    if n == 1 {
      PlainOffers(d.kids[0], r);
    } else if r.Beside? {
      PlainOffersRow(d, n - 1, r.left);
      PlainOffers(d.kids[n - 1], r.right);
    }
  }

  // ----- The shapes -----

  function Opt<T>(k: Option<T>): seq<T>
  {
    if k.Some? then [k.value] else []
  }

  /** Parts one after the other; a single one needs no node. */
  function CatOf(ds: seq<Doc>): Doc
    requires ds != []
  {
    if |ds| == 1 then ds[0] else Cat(0, ds)
  }

  function CatOpt(ds: seq<Doc>): Option<Doc>
  {
    if ds == [] then None else Some(CatOf(ds))
  }

  function Blank(w: Width, bad: nat): Doc
  {
    Text(0, w, false, false, bad)
  }

  function Indent(w: Width): Doc
  {
    Text(0, w, true, false, 0)
  }

  function JoinOf(a: Option<Doc>, b: Doc, c: Option<Doc>, e: Option<Doc>, g: Option<Doc>): Doc
  {
    CatOf(Opt(a) + [b] + Opt(c) + Opt(e) + Opt(g))
  }

  /** The first n items on lines of their own: each is flushed at the mark of the next. */
  function StackDocs(items: seq<Item>, n: nat): seq<Doc>
    requires n <= |items|
  {
    if n == 0 then []
    else StackDocs(items, n - 1) + [if n < |items| then Flush(0, items[n - 1].d, items[n].at) else items[n - 1].d]
  }

  function StackOf(items: seq<Item>): Doc
    requires items != []
  {
    CatOf(StackDocs(items, |items|))
  }

  /** Items one after the other, with a space between. */
  function LineDocs(items: seq<Item>, sp: Doc): (r: seq<Doc>)
    ensures r == [] <==> items == []
  {
    if items == [] then []
    else
      var n := |items| - 1;
      LineDocs(items[..n], sp) + (if n > 0 then [sp] else []) + [items[n].d]
  }

  function WholeOf(O: Option<Doc>, items: seq<Item>, sp: Doc, close: Option<Doc>): Option<Doc>
  {
    CatOpt(Opt(O) + Opt(CatOpt(LineDocs(items, sp))) + Opt(close))
  }

  /** All items from the next line on, a step past the opening. */
  function LispOf(opening: Doc, items: seq<Item>, step: Doc, close: Option<Doc>): Doc
    requires items != []
  {
    JoinOf(Some(Flush(0, opening, items[0].at)), step, Some(StackOf(items)), close, Some(Blank(0.0, 2)))
  }

  /** One more item after what is set so far: on the same line, or on the next one. */
  function ExtendOf(sofar: Doc, item: Item, sp: Doc, step: Option<Doc>): Doc
  {
    Or(0, JoinOf(Some(sofar), sp, Some(item.d), None, None),
       if step.Some? then JoinOf(Some(Flush(0, sofar, item.at)), step.value, Some(item.d), None, None)
       else JoinOf(Some(Flush(0, sofar, item.at)), item.d, None, None, None))
  }

  /** The first n items filled after something. */
  function FillOf(start: Doc, items: seq<Item>, sp: Doc, step: Option<Doc>, n: nat): Doc
    requires 1 <= n <= |items|
  {
    if n == 1 then start else ExtendOf(FillOf(start, items, sp, step, n - 1), items[n - 1], sp, step)
  }

  function FillChoices(acc: Doc, O: Option<Doc>, items: seq<Item>, sp: Doc, step: Doc, close: Option<Doc>): Doc
    requires items != []
  {
    var L := FillOf(items[0].d, items, sp, None, |items|);
    var H := FillOf(JoinOf(O, items[0].d, None, None, None), items, sp, Some(step), |items|);
    Or(0, Or(0, acc, JoinOf(O, L, close, None, None)), JoinOf(None, H, close, Some(Blank(0.0, 1)), None))
  }

  /** The first k items on the opening line. */
  function FirstLine(items: seq<Item>, k: nat, sp: Doc): Doc
    requires 1 <= k <= |items|
  {
    var line := CatOf(LineDocs(items[..k], sp));
    if k > 1 then One(0, line, 1.0) else line
  }

  function AlignedOf(O: Option<Doc>, items: seq<Item>, k: nat, sp: Doc, close: Option<Doc>): Doc
    requires 1 <= k < |items|
  {
    JoinOf(O, Flush(0, FirstLine(items, k, sp), items[k].at), Some(StackOf(items[k..])), close, None)
  }

  function HungOf(O: Option<Doc>, items: seq<Item>, k: nat, sp: Doc, step: Doc, close: Option<Doc>): Doc
    requires 1 <= k < |items|
  {
    JoinOf(Some(Flush(0, JoinOf(O, FirstLine(items, k, sp), None, None, None), items[k].at)), step, Some(StackOf(items[k..])),
           close, Some(Blank(0.0, 1)))
  }

  /** Stacked layouts for each k from one on, up to the first group after the first item. */
  function StackChoices(acc: Doc, O: Option<Doc>, items: seq<Item>, k: nat, sp: Doc, step: Doc, close: Option<Doc>): Doc
    requires 1 <= k <= |items|
    decreases |items| - k
  {
    if k == |items| then acc
    else
      var more := Or(0, Or(0, acc, AlignedOf(O, items, k, sp, close)), HungOf(O, items, k, sp, step, close));
      if items[k].simple then StackChoices(more, O, items, k + 1, sp, step, close) else more
  }

  function CountGroups(items: seq<Item>): nat
  {
    if items == [] then 0 else (if items[0].simple then 0 else 1) + CountGroups(items[1..])
  }

  predicate AllSimpleAfterFirst(items: seq<Item>)
  {
    forall i :: 1 <= i < |items| ==> items[i].simple
  }

  /** Whether the layout with all items from the next line is offered. */
  predicate IsDeep(items: seq<Item>, isList: bool, firstIsElement: bool)
  {
    !isList && firstIsElement && exists i :: 0 <= i < |items| && !items[i].simple
  }

  /** The document of a compound or list. */
  function ArgsOf(O: Option<Doc>, items: seq<Item>, close: Option<Doc>, isList: bool, firstIsElement: bool,
                  sp: Doc, step: Doc): Option<Doc>
    requires !isList ==> O.Some?
  {
    var whole := WholeOf(O, items, sp, close);
    if |items| < 2 then
      if IsDeep(items, isList, firstIsElement) && whole.Some? then Some(Or(0, whole.value, LispOf(O.value, items, step, close)))
      else whole
    else if whole.None? then None
    else
      var one := One(0, whole.value, if isList && CountGroups(items) > 1 then 0.5 else 1.0);
      var acc := if AllSimpleAfterFirst(items) then FillChoices(one, O, items, sp, step, close)
                 else StackChoices(one, O, items, 1, sp, step, close);
      Some(if IsDeep(items, isList, firstIsElement) then Or(0, acc, LispOf(O.value, items, step, close)) else acc)
  }

  // ----- Operator chains -----

  /** The lines of a chain so far, and the parts and the mark of the line being gathered. */
  datatype Gathered = Gathered(lines: seq<Item>, cur: seq<Doc>, mark: Mark)

  function Finished(g: Gathered): seq<Item>
    requires g.cur != []
  {
    g.lines + [Item(CatOf(g.cur), g.mark, true)]
  }

  /** One operator: with a separator before it an arrow or a semicolon starts its line; with one
      after it any other operator ends its line; without, it stays on the line. */
  function OperatorOf(g: Gathered, l: Link, b: Option<Doc>, a: Option<Doc>, leads: bool): Gathered
    requires g.cur != []
  {
    var lead := leads && l.before.Some?;
    var at := if lead then l.before else l.after;
    if at.None? then g.(cur := g.cur + Opt(b) + [l.op] + Opt(a))
    else if lead then Gathered(Finished(g), [l.op] + Opt(a), at.value)
    else Gathered(Finished(g.(cur := g.cur + Opt(b) + [l.op])), [], at.value)
  }

  function SpaceOf(at: Option<Mark>, space: Width): Option<Doc>
  {
    if at.Some? then Some(Blank(space, 0)) else None
  }

  function LinkOf(g: Gathered, l: Link, leads: bool, space: Width): (r: Gathered)
    requires g.cur != []
    ensures r.cur != []
  {
    var o := OperatorOf(g, l, SpaceOf(l.before, space), SpaceOf(l.after, space), leads);
    o.(cur := o.cur + [l.operand])
  }

  function LinksOf(first: Doc, links: seq<Link>, leads: bool, space: Width): (r: Gathered)
    ensures r.cur != []
  {
    if links == [] then Gathered([], [first], 0)
    else LinkOf(LinksOf(first, links[..|links| - 1], leads, space), links[|links| - 1], leads, space)
  }

  /** The parts of a chain in one row. */
  function FlatOf(first: Doc, links: seq<Link>, space: Width): (r: seq<Doc>)
    ensures r != []
  {
    if links == [] then [first]
    else
      var l := links[|links| - 1];
      FlatOf(first, links[..|links| - 1], space) + (Opt(SpaceOf(l.before, space)) + [l.op] + Opt(SpaceOf(l.after, space)) + [l.operand])
  }

  /** The document of an operator chain: on one line, or its lines stacked. */
  function ChainOf(first: Doc, links: seq<Link>, leads: bool, bad: nat, space: Width): Doc
  {
    ChoiceOf(CatOf(FlatOf(first, links, space)), Finished(LinksOf(first, links, leads, space)), bad)
  }

  function ChoiceOf(whole: Doc, lines: seq<Item>, bad: nat): Doc
    requires lines != []
  {
    if |lines| < 2 then whole
    else
      Or(0, One(0, whole, 1.0), if bad > 0 then JoinOf(None, StackOf(lines), Some(Blank(0.0, bad)), None, None) else StackOf(lines))
  }

  function PlainLink(l: Link): Link
  {
    l.(op := Plain(l.op), operand := Plain(l.operand))
  }

  function PlainLinks(links: seq<Link>): (r: seq<Link>)
    ensures |r| == |links| && forall i :: 0 <= i < |links| ==> r[i] == PlainLink(links[i])
  {
    seq(|links|, i requires 0 <= i < |links| => PlainLink(links[i]))
  }

  lemma PlainLinksNext(links: seq<Link>, i: nat)
    requires i < |links|
    ensures PlainLinks(links[..i + 1])[..i] == PlainLinks(links[..i]) && PlainLinks(links[..i + 1])[i] == PlainLink(links[i])
  {
    hide PlainLink;
  }

  // ----- From parts that may be missing -----

  function Somes(kids: seq<Option<Doc>>): seq<Doc>
  {
    if kids == [] then [] else Opt(kids[0]) + Somes(kids[1..])
  }

  lemma {:induction false} SomesMembers(kids: seq<Option<Doc>>, d: Doc)
    ensures d in Somes(kids) <==> Some(d) in kids
  {
    if kids != [] {
      SomesMembers(kids[1..], d);
    }
  }

  lemma {:induction false} SomesConcat(a: seq<Option<Doc>>, b: seq<Option<Doc>>)
    ensures Somes(a + b) == Somes(a) + Somes(b)
  {
    if a == [] {
      assert a + b == b;
    } else {
      assert (a + b)[1..] == a[1..] + b;
      SomesConcat(a[1..], b);
    }
  }

  lemma SomesOne(k: Option<Doc>)
    ensures Somes([k]) == Opt(k)
  {
    assert [k][1..] == [];
  }

  lemma Somes3(a: Option<Doc>, b: Option<Doc>, c: Option<Doc>)
    ensures Somes([a, b, c]) == Opt(a) + Opt(b) + Opt(c)
  {
    hide Somes, Opt;
    SomesOne(a);
    SomesOne(b);
    SomesOne(c);
    SomesConcat([a], [b]);
    SomesConcat([a] + [b], [c]);
    assert [a] + [b] + [c] == [a, b, c];
  }

  lemma Somes5(a: Option<Doc>, b: Option<Doc>, c: Option<Doc>, e: Option<Doc>, g: Option<Doc>)
    ensures Somes([a, b, c, e, g]) == Opt(a) + Opt(b) + Opt(c) + Opt(e) + Opt(g)
  {
    hide Somes, Opt;
    Somes3(a, b, c);
    SomesOne(e);
    SomesOne(g);
    SomesConcat([a, b, c], [e]);
    SomesConcat([a, b, c] + [e], [g]);
    assert [a, b, c] + [e] + [g] == [a, b, c, e, g];
  }

  function PlainPart(k: Option<Doc>): Option<Doc>
  {
    if k.Some? then Some(Plain(k.value)) else None
  }

  function PlainItems(items: seq<Item>): (r: seq<Item>)
    ensures |r| == |items| && forall i :: 0 <= i < |items| ==> r[i] == items[i].(d := Plain(items[i].d))
  {
    seq(|items|, i requires 0 <= i < |items| => items[i].(d := Plain(items[i].d)))
  }

  lemma PlainConcat(a: seq<Doc>, b: seq<Doc>)
    ensures PlainAll(a + b) == PlainAll(a) + PlainAll(b)
  {
    hide Plain;
  }

  lemma PlainOpt(k: Option<Doc>)
    ensures PlainAll(Opt(k)) == Opt(PlainPart(k))
  {
    hide Plain;
  }

  lemma PlainThree(a: Option<Doc>, b: Option<Doc>, c: Option<Doc>)
    ensures PlainAll(Somes([a, b, c])) == Opt(PlainPart(a)) + Opt(PlainPart(b)) + Opt(PlainPart(c))
  {
    hide PlainAll, Opt, Somes;
    Somes3(a, b, c);
    PlainConcat(Opt(a), Opt(b));
    PlainConcat(Opt(a) + Opt(b), Opt(c));
    PlainOpt(a);
    PlainOpt(b);
    PlainOpt(c);
  }

  lemma PlainJoin(a: Option<Doc>, b: Doc, c: Option<Doc>, e: Option<Doc>, g: Option<Doc>)
    ensures Somes([a, Some(b), c, e, g]) != []
    ensures CatOf(PlainAll(Somes([a, Some(b), c, e, g]))) == JoinOf(PlainPart(a), Plain(b), PlainPart(c), PlainPart(e), PlainPart(g))
  {
    hide PlainAll, Somes, Plain;
    Somes5(a, Some(b), c, e, g);
    PlainConcat(Opt(a), Opt(Some(b)));
    PlainConcat(Opt(a) + Opt(Some(b)), Opt(c));
    PlainConcat(Opt(a) + Opt(Some(b)) + Opt(c), Opt(e));
    PlainConcat(Opt(a) + Opt(Some(b)) + Opt(c) + Opt(e), Opt(g));
    PlainOpt(a);
    PlainOpt(Some(b));
    PlainOpt(c);
    PlainOpt(e);
    PlainOpt(g);
  }

  lemma PlainSnoc(kids: seq<Option<Doc>>, d: Doc)
    ensures PlainAll(Somes(kids + [Some(d)])) == PlainAll(Somes(kids)) + [Plain(d)]
  {
    hide PlainAll, Somes, Plain;
    SomesConcat(kids, [Some(d)]);
    SomesOne(Some(d));
    PlainConcat(Somes(kids), [d]);
    PlainOpt(Some(d));
  }

  lemma PlainItemsPrefix(items: seq<Item>, n: nat)
    requires n <= |items|
    ensures PlainItems(items[..n]) == PlainItems(items)[..n] && PlainItems(items[n..]) == PlainItems(items)[n..]
  {
    hide Plain;
  }
}
