/** Documents of the pretty printer, the layouts they offer, and what a layout looks like
    once drawn. Nothing here evaluates anything: this is the reference the printer is
    measured against. */
module PrinterLayouts {

  /** Pixel widths. Canvas measures, margins and paddings are taken to be nonnegative. */
  type Width = w: real | 0.0 <= w witness 0.0

  /** A separator or argument element of the page at which a break can be written. */
  type Mark = nat

  /** A node of the document graph. Shared nodes are equal values with equal ids. */
  datatype Doc =
    | Text(id: nat, w: Width, sp: bool, unit: bool, bad: nat)
    | Cat(id: nat, kids: seq<Doc>)
    | Flush(id: nat, a: Doc, at: Mark)
    | Or(id: nat, a: Doc, b: Doc)
    | One(id: nat, a: Doc, max: real)

  /** A way of setting a document: which alternatives were taken and where lines end. */
  datatype Layout =
    | Tok(w: Width, sp: bool, unit: bool, bad: nat)
    | Beside(left: Layout, right: Layout)
    | Broken(box: Layout, at: Mark)

  /** Well-formed documents: a concatenation has parts, a fraction of the ribbon is positive. */
  predicate WellFormed(d: Doc)
  {
    match d
    case Text(_, _, _, _, _) => true
    case Cat(_, kids) => |kids| > 0 && forall i :: 0 <= i < |kids| ==> WellFormed(kids[i])
    case Flush(_, a, _) => WellFormed(a)
    case Or(_, a, b) => WellFormed(a) && WellFormed(b)
    case One(_, a, max) => max > 0.0 && WellFormed(a)
  }

  /** Which layouts a document offers. */
  predicate Offers(d: Doc, r: Layout)
    requires WellFormed(d)
    decreases d, if d.Cat? then |d.kids| + 1 else 0
  {
    match d
    case Text(_, w, sp, unit, bad) => r == Tok(w, sp, unit, bad)
    case Cat(_, kids) => OffersRow(d, |kids|, r)
    case Flush(_, a, at) => r.Broken? && r.at == at && Offers(a, r.box)
    case Or(_, a, b) => Offers(a, r) || Offers(b, r)
    case One(_, a, _) => Offers(a, r) && OnOneLine(r)
  }

  /** Which layouts the first n parts of a concatenation offer, set one after the other. */
  predicate OffersRow(d: Doc, n: nat, r: Layout)
    requires WellFormed(d) && d.Cat? && 0 < n <= |d.kids|
    decreases d, n
  {
    if n == 1 then Offers(d.kids[0], r)
    else r.Beside? && OffersRow(d, n - 1, r.left) && Offers(d.kids[n - 1], r.right)
  }

  predicate OnOneLine(r: Layout)
  {
    match r
    case Tok(_, _, _, _) => true
    case Beside(x, y) => OnOneLine(x) && OnOneLine(y)
    case Broken(_, _) => false
  }

  /** A drawn line: the column it starts at and the column its last character ends at,
      both counted from the start of the box that is drawn. */
  datatype Line = Line(start: real, end: real)

  function Shift(lines: seq<Line>, dx: real): (s: seq<Line>)
    ensures |s| == |lines|
    ensures forall i :: 0 <= i < |s| ==> s[i] == Line(lines[i].start + dx, lines[i].end + dx)
  {
    seq(|lines|, i requires 0 <= i < |lines| => Line(lines[i].start + dx, lines[i].end + dx))
  }

  function LastEnd(lines: seq<Line>): real
    requires lines != []
  {
    lines[|lines| - 1].end
  }

  /** The drawing: a box set after another continues its last line, and starts its own later
      lines at the column where it began; a flushed box gets a new empty line at its start. */
  function Lines(r: Layout): (lines: seq<Line>)
    ensures lines != []
  {
    match r
    case Tok(w, _, _, _) => [Line(0.0, w)]
    case Beside(x, y) =>
      var a := Lines(x);
      var b := Shift(Lines(y), LastEnd(a));
      a[..|a| - 1] + [Line(a[|a| - 1].start, b[0].end)] + b[1..]
    case Broken(x, _) => Lines(x) + [Line(0.0, 0.0)]
  }

  /** The rightmost column any line reaches. */
  function MaxEnd(lines: seq<Line>): (m: real)
    requires lines != []
    ensures forall i :: 0 <= i < |lines| ==> lines[i].end <= m
    ensures exists i :: 0 <= i < |lines| && lines[i].end == m
  {
    if |lines| == 1 then lines[0].end
    else
      var m := MaxEnd(lines[..|lines| - 1]);
      if m < LastEnd(lines) then LastEnd(lines) else m
  }

  function Max(x: real, y: real): real
  {
    if x < y then y else x
  }

  function Height(r: Layout): nat { |Lines(r)| - 1 }
  function Widest(r: Layout): real { MaxEnd(Lines(r)) }
  function LastWidth(r: Layout): real { LastEnd(Lines(r)) }

  function Badness(r: Layout): nat
  {
    match r
    case Tok(_, _, _, bad) => bad
    case Beside(x, y) => Badness(x) + Badness(y)
    case Broken(x, _) => Badness(x)
  }

  predicate IsToken(r: Layout)
  {
    r.Tok? && r.unit
  }

  lemma MaxEndUnique(lines: seq<Line>, m: real)
    requires lines != []
    requires forall i :: 0 <= i < |lines| ==> lines[i].end <= m
    requires exists i :: 0 <= i < |lines| && lines[i].end == m
    ensures MaxEnd(lines) == m
  {
  }

  /** No drawn line ends left of the box. */
  lemma {:induction false} EndsNonnegative(r: Layout)
    ensures forall i :: 0 <= i < |Lines(r)| ==> 0.0 <= Lines(r)[i].end
  {
    match r
    case Tok(_, _, _, _) =>
    case Beside(x, y) =>
      EndsNonnegative(x);
      EndsNonnegative(y);
    case Broken(x, _) =>
      EndsNonnegative(x);
  }

  /** The measures of a box set after another, from the measures of the two. */
  lemma {:induction false} BesideMeasures(x: Layout, y: Layout)
    ensures Height(Beside(x, y)) == Height(x) + Height(y)
    ensures LastWidth(Beside(x, y)) == LastWidth(x) + LastWidth(y)
    ensures Widest(Beside(x, y)) == Max(Widest(x), LastWidth(x) + Widest(y))
  {
    hide MaxEnd, Lines;
    EndsNonnegative(y);
    BesideEnds(x, y);
    WidestBeside(Lines(x), Lines(y), Lines(Beside(x, y)));
  }

  /** Where the lines of a box set after another end. */
  lemma BesideEnds(x: Layout, y: Layout)
    ensures var a, c, lines := Lines(x), Lines(y), Lines(Beside(x, y));
            |lines| == |a| + |c| - 1 && LastEnd(lines) == LastEnd(a) + LastEnd(c) &&
            (forall i :: 0 <= i < |a| - 1 ==> lines[i].end == a[i].end) &&
            forall i :: 0 <= i < |c| ==> lines[|a| - 1 + i].end == LastEnd(a) + c[i].end
  {
    hide Lines;
    var a, c, lines := Lines(x), Lines(y), Lines(Beside(x, y));
    var b := Shift(c, LastEnd(a));
    LinesBeside(x, y);
    LinesJoined(a, b, lines);
    forall i | 0 <= i < |c| ensures lines[|a| - 1 + i].end == LastEnd(a) + c[i].end { assert b[i].end == c[i].end + LastEnd(a); }
    assert LastEnd(lines) == lines[|a| - 1 + (|c| - 1)].end;
  }

  lemma LinesBeside(x: Layout, y: Layout)
    ensures var a := Lines(x);
            var b := Shift(Lines(y), LastEnd(a));
            Lines(Beside(x, y)) == a[..|a| - 1] + [Line(a[|a| - 1].start, b[0].end)] + b[1..]
  {
  }

  lemma LinesJoined(a: seq<Line>, b: seq<Line>, lines: seq<Line>)
    requires a != [] && b != [] && lines == a[..|a| - 1] + [Line(a[|a| - 1].start, b[0].end)] + b[1..]
    ensures |lines| == |a| + |b| - 1
    ensures forall i :: 0 <= i < |a| - 1 ==> lines[i] == a[i]
    ensures forall i :: 0 <= i < |b| ==> lines[|a| - 1 + i].end == b[i].end
  {
  }

  /** The widest of some lines and of others that continue the last of them. */
  lemma WidestBeside(a: seq<Line>, c: seq<Line>, lines: seq<Line>)
    requires a != [] && c != [] && |lines| == |a| + |c| - 1 && forall i :: 0 <= i < |c| ==> 0.0 <= c[i].end
    requires forall i :: 0 <= i < |a| - 1 ==> lines[i].end == a[i].end
    requires forall i :: 0 <= i < |c| ==> lines[|a| - 1 + i].end == LastEnd(a) + c[i].end
    ensures MaxEnd(lines) == Max(MaxEnd(a), LastEnd(a) + MaxEnd(c))
  {
    hide MaxEnd;
    var w := LastEnd(a);
    var m := Max(MaxEnd(a), w + MaxEnd(c));
    var j :| 0 <= j < |c| && c[j].end == MaxEnd(c);
    var k :| 0 <= k < |a| && a[k].end == MaxEnd(a);
    if MaxEnd(a) < w + MaxEnd(c) || k == |a| - 1 {
      assert lines[|a| - 1 + j].end == m;
    } else {
      assert lines[k].end == m;
    }
    forall i | 0 <= i < |lines| ensures lines[i].end <= m {
      if i >= |a| - 1 {
        assert lines[|a| - 1 + (i - (|a| - 1))].end == w + c[i - (|a| - 1)].end;
      }
    }
    MaxEndUnique(lines, m);
  }

  lemma {:induction false} BrokenMeasures(x: Layout, at: Mark)
    ensures Height(Broken(x, at)) == Height(x) + 1
    ensures LastWidth(Broken(x, at)) == 0.0
    ensures Widest(Broken(x, at)) == Widest(x)
  {
    var a := Lines(x);
    EndsNonnegative(x);
    assert (a + [Line(0.0, 0.0)])[..|a|] == a;
  }

  /** The measures of a layout, computed from those of its parts. */
  datatype Cost = Cost(h: nat, mw: real, lw: real, b: nat)

  function CostOf(r: Layout): Cost
  {
    match r
    case Tok(w, _, _, bad) => Cost(0, w, w, bad)
    case Beside(x, y) =>
      var cx, cy := CostOf(x), CostOf(y);
      Cost(cx.h + cy.h, Max(cx.mw, cx.lw + cy.mw), cx.lw + cy.lw, cx.b + cy.b)
    case Broken(x, _) =>
      var cx := CostOf(x);
      Cost(cx.h + 1, cx.mw, 0.0, cx.b)
  }

  /** What the drawing of a layout measures. */
  function DrawnCost(r: Layout): Cost
  {
    Cost(Height(r), Widest(r), LastWidth(r), Badness(r))
  }

  /** The computed measures are those of the drawing. */
  lemma {:induction false} CostIsDrawn(r: Layout)
    ensures CostOf(r) == DrawnCost(r)
  {
    match r
    case Tok(_, _, _, _) =>
    case Beside(x, y) =>
      CostIsDrawn(x);
      CostIsDrawn(y);
      BesideMeasures(x, y);
    case Broken(x, at) =>
      CostIsDrawn(x);
      BrokenMeasures(x, at);
  }

  lemma {:induction false} OneLineCost(r: Layout)
    ensures OnOneLine(r) <==> CostOf(r).h == 0
    ensures 0.0 <= CostOf(r).lw <= CostOf(r).mw
  {
    match r
    case Tok(_, _, _, _) =>
    case Beside(x, y) =>
      OneLineCost(x);
      OneLineCost(y);
    case Broken(x, at) =>
      OneLineCost(x);
  }
}
