/** Where the lines of an operator chain begin and end, and what they hold. */
module PrinterChains {
  import opened Wrappers
  import opened Sequences
  import opened PrinterLayouts
  import opened PrinterShapes
  import opened PrinterOffers

  /** The separator that a chain may break at for one of its operators: before it if arrows lead
      their lines and there is one, or else after it. */
  function BreakOf(l: Link, leads: bool): Option<Mark>
  {
    if leads && l.before.Some? then l.before else l.after
  }

  /** Whether the operator begins the next line rather than ends its own. */
  predicate BeginsLine(l: Link, leads: bool)
  {
    leads && l.before.Some?
  }

  function CountBreaks(links: seq<Link>, leads: bool): nat
  {
    if links == [] then 0
    else CountBreaks(links[..|links| - 1], leads) + if BreakOf(links[|links| - 1], leads).Some? then 1 else 0
  }

  /** Lines put back in one row, with a separator between. */
  function Rejoined(parts: seq<seq<Doc>>, sp: Doc): seq<Doc>
    requires parts != []
  {
    if |parts| == 1 then parts[0] else Rejoined(parts[..|parts| - 1], sp) + [sp] + parts[|parts| - 1]
  }

  lemma RejoinedMore(parts: seq<seq<Doc>>, line: seq<Doc>, sp: Doc)
    requires parts != []
    ensures Rejoined(parts + [line], sp) == Rejoined(parts, sp) + [sp] + line
  {
    assert (parts + [line])[..|parts|] == parts;
  }

  /** Parts added to the last line. */
  function Lengthened(parts: seq<seq<Doc>>, more: seq<Doc>): seq<seq<Doc>>
    requires parts != []
  {
    parts[..|parts| - 1] + [parts[|parts| - 1] + more]
  }

  lemma RejoinedLengthened(parts: seq<seq<Doc>>, more: seq<Doc>, sp: Doc)
    requires parts != []
    ensures Rejoined(Lengthened(parts, more), sp) == Rejoined(parts, sp) + more
  {
    var n := |parts| - 1;
    var longer := Lengthened(parts, more);
    assert longer[..n] == parts[..n];
    if n > 0 { Associates(Rejoined(parts[..n], sp) + [sp], parts[n], more); }
  }

  /** The line that the break of link i begins. */
  function LineAfter(links: seq<Link>, leads: bool, i: nat): nat
    requires i < |links|
  {
    CountBreaks(links[..i], leads) + 1
  }

  /** Where the break of link i is, and where its operator. */
  predicate BreaksRight(parts: seq<seq<Doc>>, marks: seq<Mark>, links: seq<Link>, leads: bool, i: nat)
    requires i < |links| && |parts| == |marks|
  {
    var k := LineAfter(links, leads, i);
    BreakOf(links[i], leads).Some? ==>
      k < |parts| && marks[k] == BreakOf(links[i], leads).value &&
      if BeginsLine(links[i], leads) then parts[k] != [] && parts[k][0] == links[i].op
      else parts[k - 1] != [] && parts[k - 1][|parts[k - 1]| - 1] == links[i].op
  }

  /** What the lines of a chain are: one more than there are breaks, each break at its separator and
      beside its operator; and putting them back in a row gives the chain. */
  ghost predicate ChainIs(parts: seq<seq<Doc>>, marks: seq<Mark>, first: Doc, links: seq<Link>, leads: bool, space: Width)
  {
    |parts| == |marks| == CountBreaks(links, leads) + 1 && (forall j :: 0 <= j < |parts| ==> parts[j] != []) &&
    (forall i :: 0 <= i < |links| ==> BreaksRight(parts, marks, links, leads, i)) &&
    Rejoined(parts, Blank(space, 0)) == FlatOf(first, links, space)
  }

  /** The lines gathered hold these parts at these marks. */
  predicate Holds(g: Gathered, parts: seq<seq<Doc>>, marks: seq<Mark>)
  {
    |parts| == |marks| == |g.lines| + 1 && parts[|g.lines|] == g.cur && marks[|g.lines|] == g.mark &&
    forall j :: 0 <= j < |g.lines| ==> parts[j] != [] && g.lines[j] == Item(CatOf(parts[j]), marks[j], true)
  }

  lemma CountMore(links: seq<Link>, l: Link, leads: bool)
    ensures CountBreaks(links + [l], leads) == CountBreaks(links, leads) + if BreakOf(l, leads).Some? then 1 else 0
  {
    assert (links + [l])[..|links|] == links;
  }

  lemma {:induction false} CountGrows(links: seq<Link>, leads: bool, i: nat)
    requires i < |links| && BreakOf(links[i], leads).Some?
    ensures LineAfter(links, leads, i) <= CountBreaks(links, leads)
  {
    var n := |links| - 1;
    if i < n {
      CountGrows(links[..n], leads, i);
      assert links[..n][..i] == links[..i];
    }
  }

  /** Later parts and lines leave the earlier breaks where they are. */
  lemma BreaksStay(parts: seq<seq<Doc>>, marks: seq<Mark>, more: seq<seq<Doc>>, marks': seq<Mark>, links: seq<Link>, l: Link,
                   leads: bool, i: nat)
    requires i < |links| && |parts| == |marks| == CountBreaks(links, leads) + 1 && |more| == |marks'| >= |parts|
    requires (forall j :: 0 <= j < |parts| ==> parts[j] != [] && marks'[j] == marks[j])
    requires forall j :: 0 <= j < |parts| - 1 ==> more[j] == parts[j]
    requires parts[|parts| - 1] <= more[|parts| - 1]
    requires BreaksRight(parts, marks, links, leads, i)
    ensures BreaksRight(more, marks', links + [l], leads, i)
  {
    assert (links + [l])[..i] == links[..i];
    if BreakOf(links[i], leads).Some? { CountGrows(links, leads, i); }
  }

  lemma FlatMore(first: Doc, links: seq<Link>, l: Link, space: Width)
    ensures FlatOf(first, links + [l], space) ==
            FlatOf(first, links, space) + (Opt(SpaceOf(l.before, space)) + [l.op] + Opt(SpaceOf(l.after, space)) + [l.operand])
  {
    assert (links + [l])[..|links|] == links;
  }

  /** A link without a break: its operator and its operand stay on the line. */
  lemma LinkStays(g: Gathered, parts: seq<seq<Doc>>, marks: seq<Mark>, l: Link, leads: bool, space: Width) returns (more: seq<seq<Doc>>)
    requires Holds(g, parts, marks) && g.cur != [] && BreakOf(l, leads).None?
    ensures var tail := Opt(SpaceOf(l.before, space)) + [l.op] + Opt(SpaceOf(l.after, space)) + [l.operand];
            more == Lengthened(parts, tail) && Rejoined(more, Blank(space, 0)) == Rejoined(parts, Blank(space, 0)) + tail
    ensures Holds(LinkOf(g, l, leads, space), more, marks)
  {
    hide Rejoined, CatOf, Opt;
    var b, a := Opt(SpaceOf(l.before, space)), Opt(SpaceOf(l.after, space));
    var tail := b + [l.op] + a + [l.operand];
    more := Lengthened(parts, tail);
    RejoinedLengthened(parts, tail, Blank(space, 0));
    assert g.cur + b + [l.op] + a + [l.operand] == g.cur + tail;
  }

  /** A link whose operator begins the next line. */
  lemma LinkLeads(g: Gathered, parts: seq<seq<Doc>>, marks: seq<Mark>, l: Link, leads: bool, space: Width) returns (more: seq<seq<Doc>>)
    requires Holds(g, parts, marks) && g.cur != [] && BeginsLine(l, leads)
    ensures var line := [l.op] + Opt(SpaceOf(l.after, space)) + [l.operand];
            more == parts + [line] &&
            Rejoined(more, Blank(space, 0)) == Rejoined(parts, Blank(space, 0)) + (Opt(SpaceOf(l.before, space)) + line)
    ensures Holds(LinkOf(g, l, leads, space), more, marks + [l.before.value])
  {
    hide Rejoined, CatOf;
    var sp, line := Blank(space, 0), [l.op] + Opt(SpaceOf(l.after, space)) + [l.operand];
    more := parts + [line];
    RejoinedMore(parts, line, sp);
    Associates(Rejoined(parts, sp), [sp], line);
    assert Opt(SpaceOf(l.before, space)) == [sp];
  }

  /** A link whose operator ends its line. */
  lemma LinkEnds(g: Gathered, parts: seq<seq<Doc>>, marks: seq<Mark>, l: Link, leads: bool, space: Width) returns (more: seq<seq<Doc>>)
    requires Holds(g, parts, marks) && g.cur != [] && BreakOf(l, leads).Some? && !BeginsLine(l, leads)
    ensures var end := Opt(SpaceOf(l.before, space)) + [l.op];
            more == Lengthened(parts, end) + [[l.operand]] &&
            Rejoined(more, Blank(space, 0)) == Rejoined(parts, Blank(space, 0)) + (end + Opt(SpaceOf(l.after, space)) + [l.operand])
    ensures Holds(LinkOf(g, l, leads, space), more, marks + [l.after.value])
  {
    hide Rejoined, CatOf;
    var sp, end := Blank(space, 0), Opt(SpaceOf(l.before, space)) + [l.op];
    more := Lengthened(parts, end) + [[l.operand]];
    RejoinedLengthened(parts, end, sp);
    RejoinedMore(Lengthened(parts, end), [l.operand], sp);
    assert Opt(SpaceOf(l.after, space)) == [sp];
    Associates(Rejoined(parts, sp), end, [sp]);
    Associates(Rejoined(parts, sp), end + [sp], [l.operand]);
    assert g.cur + Opt(SpaceOf(l.before, space)) + [l.op] == g.cur + end && [] + [l.operand] == [l.operand];
  }

  /** One more link of a chain. */
  lemma LinkMore(g: Gathered, parts: seq<seq<Doc>>, marks: seq<Mark>, first: Doc, links: seq<Link>, l: Link, leads: bool, space: Width)
    returns (more: seq<seq<Doc>>, marks': seq<Mark>)
    requires Holds(g, parts, marks) && ChainIs(parts, marks, first, links, leads, space)
    ensures g.cur != [] && Holds(LinkOf(g, l, leads, space), more, marks') && ChainIs(more, marks', first, links + [l], leads, space)
  {
    hide Rejoined, CountBreaks, FlatOf, BreaksRight, CatOf, LinkOf;
    assert g.cur != [];
    CountMore(links, l, leads);
    FlatMore(first, links, l, space);
    if BreakOf(l, leads).None? {
      more := LinkStays(g, parts, marks, l, leads, space);
      marks' := marks;
    } else if BeginsLine(l, leads) {
      more := LinkLeads(g, parts, marks, l, leads, space);
      marks' := marks + [l.before.value];
      assert Opt(SpaceOf(l.before, space)) + ([l.op] + Opt(SpaceOf(l.after, space)) + [l.operand]) ==
             Opt(SpaceOf(l.before, space)) + [l.op] + Opt(SpaceOf(l.after, space)) + [l.operand];
    } else {
      more := LinkEnds(g, parts, marks, l, leads, space);
      marks' := marks + [l.after.value];
    }
    MoreBreaks(parts, marks, more, marks', links, l, leads);
  }

  lemma MoreBreaks(parts: seq<seq<Doc>>, marks: seq<Mark>, more: seq<seq<Doc>>, marks': seq<Mark>, links: seq<Link>, l: Link, leads: bool)
    requires |parts| == |marks| == CountBreaks(links, leads) + 1 && |more| == |marks'| == CountBreaks(links + [l], leads) + 1
    requires (forall j :: 0 <= j < |parts| ==> parts[j] != [] && marks'[j] == marks[j])
    requires |more| >= |parts| && forall j :: 0 <= j < |parts| - 1 ==> more[j] == parts[j]
    requires parts[|parts| - 1] <= more[|parts| - 1]
    requires forall i :: 0 <= i < |links| ==> BreaksRight(parts, marks, links, leads, i)
    requires BreakOf(l, leads).Some? ==>
               marks'[|parts|] == BreakOf(l, leads).value &&
               if BeginsLine(l, leads) then more[|parts|] != [] && more[|parts|][0] == l.op
               else more[|parts| - 1][|more[|parts| - 1]| - 1] == l.op
    ensures forall i :: 0 <= i < |links + [l]| ==> BreaksRight(more, marks', links + [l], leads, i)
  {
    hide CountBreaks, BreaksRight;
    forall i | 0 <= i < |links + [l]| ensures BreaksRight(more, marks', links + [l], leads, i) {
      if i < |links| {
        BreaksStay(parts, marks, more, marks', links, l, leads, i);
      } else {
        BreakNew(parts, more, marks', links, l, leads);
      }
    }
  }

  lemma BreakNew(parts: seq<seq<Doc>>, more: seq<seq<Doc>>, marks': seq<Mark>, links: seq<Link>, l: Link, leads: bool)
    requires |parts| == CountBreaks(links, leads) + 1 && |more| == |marks'| == CountBreaks(links + [l], leads) + 1 >= |parts|
    requires parts[|parts| - 1] != [] && parts[|parts| - 1] <= more[|parts| - 1]
    requires BreakOf(l, leads).Some? ==>
               marks'[|parts|] == BreakOf(l, leads).value &&
               if BeginsLine(l, leads) then more[|parts|] != [] && more[|parts|][0] == l.op
               else more[|parts| - 1][|more[|parts| - 1]| - 1] == l.op
    ensures BreaksRight(more, marks', links + [l], leads, |links|)
  {
    CountMore(links, l, leads);
    assert (links + [l])[..|links|] == links;
  }

  /** The lines of a chain are what they should be: with one part or another at each mark. */
  lemma {:induction false} ChainLinesAre(first: Doc, links: seq<Link>, leads: bool, space: Width)
    returns (parts: seq<seq<Doc>>, marks: seq<Mark>)
    ensures ChainIs(parts, marks, first, links, leads, space)
    ensures Holds(LinksOf(first, links, leads, space), parts, marks)
  {
    if links == [] {
      parts, marks := [[first]], [0];
    } else {
      hide ChainIs, Holds, LinkOf;
      var rest, l := links[..|links| - 1], links[|links| - 1];
      parts, marks := ChainLinesAre(first, rest, leads, space);
      parts, marks := LinkMore(LinksOf(first, rest, leads, space), parts, marks, first, rest, l, leads, space);
      assert links == rest + [l];
    }
  }

  /** The lines that a chain is stacked in: as many as it has breaks, and one; each made of its parts
      and broken to at its mark. */
  lemma ChainStack(first: Doc, links: seq<Link>, leads: bool, space: Width) returns (parts: seq<seq<Doc>>, marks: seq<Mark>)
    ensures ChainIs(parts, marks, first, links, leads, space)
    ensures var lines := Finished(LinksOf(first, links, leads, space));
            |lines| == |parts| && forall j :: 0 <= j < |lines| ==> lines[j] == Item(CatOf(parts[j]), marks[j], true)
  {
    hide ChainIs, LinksOf;
    parts, marks := ChainLinesAre(first, links, leads, space);
    ChainNonempty(parts, marks, first, links, leads, space);
  }

  lemma ChainNonempty(parts: seq<seq<Doc>>, marks: seq<Mark>, first: Doc, links: seq<Link>, leads: bool, space: Width)
    requires ChainIs(parts, marks, first, links, leads, space)
    ensures |parts| == |marks| > 0 && forall j :: 0 <= j < |parts| ==> parts[j] != []
  {
  }

  /** Lines made of some parts, each after a break at its mark. */
  function LinesOf(parts: seq<seq<Doc>>, marks: seq<Mark>): (r: seq<Item>)
    requires |parts| == |marks| && forall j :: 0 <= j < |parts| ==> parts[j] != []
    ensures |r| == |parts| && forall j :: 0 <= j < |r| ==> r[j] == Item(CatOf(parts[j]), marks[j], true)
  {
    seq(|parts|, j requires 0 <= j < |parts| => Item(CatOf(parts[j]), marks[j], true))
  }

  /** A chain offers its parts in a row, on one line if it has a break, and if so the lines between
      its breaks, stacked. */
  lemma ChainOffersLines(first: Doc, links: seq<Link>, leads: bool, bad: nat, space: Width, r: Layout)
    returns (parts: seq<seq<Doc>>, marks: seq<Mark>)
    requires WellFormed(ChainOf(first, links, leads, bad, space))
    ensures ChainIs(parts, marks, first, links, leads, space) && |parts| == |marks| > 0 && forall j :: 0 <= j < |parts| ==> parts[j] != []
    ensures var row := Rejoined(parts, Blank(space, 0));
            if CountBreaks(links, leads) == 0 then Offers(ChainOf(first, links, leads, bad, space), r) <==> IsRow(row, r)
            else
              ItemsWellFormed(LinesOf(parts, marks)) &&
              (Offers(ChainOf(first, links, leads, bad, space), r) <==>
               (OnOneLine(r) && IsRow(row, r)) || IsStackedChain(LinesOf(parts, marks), bad, r))
  {
    hide ChainOf, IsRow, IsStackedChain, LinksOf, FlatOf, Finished, Rejoined, CountBreaks;
    parts, marks := ChainStack(first, links, leads, space);
    ChainNonempty(parts, marks, first, links, leads, space);
    ChainOffers(first, links, leads, bad, space, r);
    assert LinesOf(parts, marks) == Finished(LinksOf(first, links, leads, space));
  }
}
