/** The breaks a chosen layout makes, and where on the page they put the next line. */
module PrinterWalk {
  import opened Wrappers
  import opened Sequences
  import opened PrinterLayouts
  import opened PrinterPlan

  /** Setting a layout from left to right: a token put at a column, or a new line started. */
  datatype Event =
    | Put(col: real, w: Width, sp: bool)
    | NewLine(at: Mark, col: real)

  /** Where the pen is after a layout set from col. */
  function EndColumn(r: Layout, col: real): real
  {
    match r
    case Tok(w, _, _, _) => col + w
    case Beside(x, y) => EndColumn(y, EndColumn(x, col))
    case Broken(_, _) => col
  }

  function Setting(r: Layout, col: real): seq<Event>
  {
    match r
    case Tok(w, sp, _, _) => [Put(col, w, sp)]
    case Beside(x, y) => Setting(x, col) + Setting(y, EndColumn(x, col))
    case Broken(x, at) => Setting(x, col) + [NewLine(at, col)]
  }

  /** The column of the first ink (a token with width that is not an indenting step) before the
      next line starts, or where the pen stops when the line has none. */
  function InkColumn(events: seq<Event>, col: real): real
  {
    if events == [] || events[0].NewLine? then col
    else if !events[0].sp && events[0].w != 0.0 then events[0].col
    else InkColumn(events[1..], events[0].col + events[0].w)
  }

  function PenPast(e: Event, pen: real): real
  {
    if e.Put? then pen + e.w else e.col
  }

  /** Tokens are put where the pen is, and the pen moves past them. */
  predicate Contiguous(events: seq<Event>, pen: real)
  {
    events == [] ||
    ((events[0].Put? ==> events[0].col == pen) && Contiguous(events[1..], PenPast(events[0], pen)))
  }

  // ----- The walk -----

  /** The breaks written so far, and the mark of the break still taking indents, if any. */
  datatype Walked = Walked(breaks: map<Mark, real>, open: Option<Mark>)
  {
    ghost predicate WellKept()
    {
      open.Some? ==> open.value in breaks
    }
  }

  function After(s: Walked, e: Event): Walked
    requires s.WellKept()
    ensures After(s, e).WellKept()
  {
    match e
    case NewLine(at, col) => Walked(s.breaks[at := col], Some(at))
    case Put(_, w, sp) =>
      if sp && s.open.Some? then
        Walked(s.breaks[s.open.value := s.breaks[s.open.value] + w], s.open)
      else if w != 0.0 then Walked(s.breaks, None)
      else s
  }

  function AfterAll(s: Walked, events: seq<Event>): (t: Walked)
    requires s.WellKept()
    ensures t.WellKept()
    decreases |events|
  {
    if events == [] then s else AfterAll(After(s, events[0]), events[1..])
  }

  lemma {:induction false} AfterAllConcat(s: Walked, a: seq<Event>, b: seq<Event>)
    requires s.WellKept()
    ensures AfterAll(s, a + b) == AfterAll(AfterAll(s, a), b)
    decreases |a|
  {
    if a == [] {
      assert a + b == b;
    } else {
      assert (a + b)[1..] == a[1..] + b;
      AfterAllConcat(After(s, a[0]), a[1..], b);
    }
  }

  class Walker {
    var breaks: map<Mark, real>
    var open: Option<Mark>

    constructor ()
      ensures View() == Walked(map[], None)
    {
      breaks := map[];
      open := None;
    }

    ghost function View(): Walked
      reads this
    {
      Walked(breaks, open)
    }

    /** Walking a layout does what its setting, event by event, does, and returns the column
        where the pen stops. */
    method Walk(r: Layout, col: real) returns (end: real)
      requires View().WellKept()
      modifies this
      ensures old(View()).WellKept() && View() == AfterAll(old(View()), Setting(r, col))
      ensures end == EndColumn(r, col)
      decreases r
    {
      match r
      case Tok(w, sp, _, _) =>
        if sp && open.Some? {
          breaks := breaks[open.value := breaks[open.value] + w];
        } else if w != 0.0 {
          open := None;
        }
        end := col + w;
      case Beside(x, y) =>
        AfterAllConcat(View(), Setting(x, col), Setting(y, EndColumn(x, col)));
        var mid := Walk(x, col);
        end := Walk(y, mid);
      case Broken(x, at) =>
        AfterAllConcat(View(), Setting(x, col), [NewLine(at, col)]);
        var _ := Walk(x, col);
        breaks := breaks[at := col];
        open := Some(at);
        end := col;
    }
  }

  // ----- What the walk records -----

  lemma {:induction false} ContiguousConcat(a: seq<Event>, b: seq<Event>, pen: real, mid: real)
    requires Contiguous(a, pen) && Contiguous(b, mid) && mid == PenAfter(a, pen)
    ensures Contiguous(a + b, pen)
  {
    if a == [] {
      assert a + b == b;
    } else {
      assert (a + b)[1..] == a[1..] + b;
      ContiguousConcat(a[1..], b, PenPast(a[0], pen), mid);
    }
  }

  function PenAfter(events: seq<Event>, pen: real): real
  {
    if events == [] then pen else PenAfter(events[1..], PenPast(events[0], pen))
  }

  lemma {:induction false} PenAfterConcat(a: seq<Event>, b: seq<Event>, pen: real)
    ensures PenAfter(a + b, pen) == PenAfter(b, PenAfter(a, pen))
  {
    if a == [] {
      assert a + b == b;
    } else {
      assert (a + b)[1..] == a[1..] + b;
      PenAfterConcat(a[1..], b, PenPast(a[0], pen));
    }
  }

  lemma {:induction false} SettingContiguous(r: Layout, col: real)
    ensures Contiguous(Setting(r, col), col)
    ensures PenAfter(Setting(r, col), col) == EndColumn(r, col)
  {
    match r
    case Tok(w, sp, _, _) =>
    case Beside(x, y) =>
      var mid := EndColumn(x, col);
      SettingContiguous(x, col);
      SettingContiguous(y, mid);
      ContiguousConcat(Setting(x, col), Setting(y, mid), col, mid);
      PenAfterConcat(Setting(x, col), Setting(y, mid), col);
    case Broken(x, at) =>
      SettingContiguous(x, col);
      var e := [NewLine(at, col)];
      ContiguousConcat(Setting(x, col), e, col, EndColumn(x, col));
      PenAfterConcat(Setting(x, col), e, col);
  }

  /** Once a line has ink, or its mark is not written again, its entry no longer changes. */
  lemma {:induction false} ClosedStays(s: Walked, events: seq<Event>, m: Mark)
    requires s.WellKept() && m in s.breaks && s.open != Some(m)
    requires forall i :: 0 <= i < |events| && events[i].NewLine? ==> events[i].at != m
    ensures var t := AfterAll(s, events); m in t.breaks && t.breaks[m] == s.breaks[m]
    decreases |events|
  {
    if events != [] {
      assert events[0].NewLine? ==> events[0].at != m;
      ClosedStays(After(s, events[0]), events[1..], m);
    }
  }

  /** While a break is open its entry is where the pen is, so it ends at the line's first ink. */
  lemma {:induction false} OpenReachesInk(s: Walked, events: seq<Event>, m: Mark)
    requires s.WellKept() && s.open == Some(m) && Contiguous(events, s.breaks[m])
    requires forall i :: 0 <= i < |events| && events[i].NewLine? ==> events[i].at != m
    ensures var t := AfterAll(s, events); m in t.breaks && t.breaks[m] == InkColumn(events, s.breaks[m])
    decreases |events|
  {
    if events != [] {
      var e, next := events[0], After(s, events[0]);
      assert e.NewLine? ==> e.at != m;
      if e.NewLine? || (!e.sp && e.w != 0.0) {
        ClosedStays(next, events[1..], m);
      } else {
        OpenReachesInk(next, events[1..], m);
      }
    }
  }

  lemma {:induction false} ContiguousSuffix(a: seq<Event>, b: seq<Event>, pen: real)
    requires Contiguous(a + b, pen)
    ensures Contiguous(b, PenAfter(a, pen))
  {
    if a == [] {
      assert a + b == b;
    } else {
      assert (a + b)[1..] == a[1..] + b;
      ContiguousSuffix(a[1..], b, PenPast(a[0], pen));
    }
  }

  /** The walk records, for each mark it breaks at, the column of the first ink on the line that
      break starts (steps included), taking the last time the mark is broken at. */
  lemma WalkRecordsInk(r: Layout, start: real, i: nat)
    requires i < |Setting(r, start)| && Setting(r, start)[i].NewLine?
    requires var ev := Setting(r, start);
             forall j :: i < j < |ev| && ev[j].NewLine? ==> ev[j].at != ev[i].at
    ensures var ev := Setting(r, start); var breaks := AfterAll(Walked(map[], None), ev).breaks;
            ev[i].at in breaks && breaks[ev[i].at] == InkColumn(ev[i + 1..], ev[i].col)
  {
    var ev := Setting(r, start);
    SettingContiguous(r, start);
    var before, after := ev[..i + 1], ev[i + 1..];
    assert ev == before + after && before == ev[..i] + [ev[i]];
    var s := Walked(map[], None);
    AfterAllConcat(s, before, after);
    AfterAllConcat(s, ev[..i], [ev[i]]);
    ContiguousSuffix(before, after, start);
    PenAfterConcat(ev[..i], [ev[i]], start);
    OpenReachesInk(AfterAll(s, before), after, ev[i].at);
  }

  predicate BreaksAt(events: seq<Event>, m: Mark)
  {
    exists i :: 0 <= i < |events| && events[i].NewLine? && events[i].at == m
  }

  /** Nothing else is recorded: the marks written are those the layout breaks at. */
  lemma {:induction false} WalkRecordsOnlyBreaks(s: Walked, events: seq<Event>, m: Mark)
    requires s.WellKept()
    ensures m in AfterAll(s, events).breaks <==> m in s.breaks || BreaksAt(events, m)
    decreases |events|
  {
    if events != [] {
      WalkRecordsOnlyBreaks(After(s, events[0]), events[1..], m);
      if BreaksAt(events[1..], m) {
        var i :| 0 <= i < |events[1..]| && events[1..][i].NewLine? && events[1..][i].at == m;
        assert events[i + 1].NewLine? && events[i + 1].at == m;
      }
      if BreaksAt(events, m) {
        var i :| 0 <= i < |events| && events[i].NewLine? && events[i].at == m;
        assert i > 0 ==> events[1..][i - 1] == events[i];
      }
    }
  }

  // ----- The setting is the drawing -----

  /** The columns at which the lines after the first start. */
  function BreakColumns(events: seq<Event>): seq<real>
  {
    if events == [] then []
    else (if events[0].NewLine? then [events[0].col] else []) + BreakColumns(events[1..])
  }

  lemma {:induction false} BreakColumnsConcat(a: seq<Event>, b: seq<Event>)
    ensures BreakColumns(a + b) == BreakColumns(a) + BreakColumns(b)
  {
    if a == [] {
      assert a + b == b;
    } else {
      hide BreakColumns;
      BreakColumnsConcat(a[1..], b);
      BreakColumnsFirst(a);
      BreakColumnsFirst(a + b);
      Cons(a, b);
      Associates(if a[0].NewLine? then [a[0].col] else [], BreakColumns(a[1..]), BreakColumns(b));
    }
  }

  lemma BreakColumnsFirst(events: seq<Event>)
    requires events != []
    ensures BreakColumns(events) == (if events[0].NewLine? then [events[0].col] else []) + BreakColumns(events[1..])
  {
  }

  /** Columns at which the drawing of r, put at col, starts its lines after the first. */
  predicate StartLines(cols: seq<real>, r: Layout, col: real)
  {
    |cols| == Height(r) && forall i :: 0 <= i < |cols| ==> cols[i] == col + Lines(r)[i + 1].start
  }

  lemma BesideStarts(p: seq<real>, q: seq<real>, x: Layout, y: Layout, col: real)
    requires StartLines(p, x, col) && StartLines(q, y, col + LastWidth(x))
    ensures StartLines(p + q, Beside(x, y), col)
  {
    var a, b, lines := Lines(x), Lines(y), Lines(Beside(x, y));
    forall i | 0 <= i < |p + q| ensures (p + q)[i] == col + lines[i + 1].start {
      if i < |p| {
        assert lines[i + 1].start == a[i + 1].start;
      } else {
        assert lines[i + 1].start == LastEnd(a) + b[i - |p| + 1].start;
      }
    }
  }

  lemma BrokenStarts(p: seq<real>, x: Layout, at: Mark, col: real)
    requires StartLines(p, x, col)
    ensures StartLines(p + [col], Broken(x, at), col)
  {
    forall i | 0 <= i < |p| ensures p[i] == col + Lines(Broken(x, at))[i + 1].start {
      assert Lines(Broken(x, at))[i + 1] == Lines(x)[i + 1];
    }
  }

  /** A layout set from a column starts its lines where its drawing starts them, and stops where
      the drawing's last line ends. */
  lemma {:induction false} SettingIsDrawing(r: Layout, col: real)
    ensures EndColumn(r, col) == col + LastWidth(r)
    ensures StartLines(BreakColumns(Setting(r, col)), r, col)
  {
    match r
    case Tok(w, sp, _, _) =>
    case Beside(x, y) =>
      var mid := EndColumn(x, col);
      SettingIsDrawing(x, col);
      SettingIsDrawing(y, mid);
      BreakColumnsConcat(Setting(x, col), Setting(y, mid));
      BesideMeasures(x, y);
      BesideStarts(BreakColumns(Setting(x, col)), BreakColumns(Setting(y, mid)), x, y, col);
    case Broken(x, at) =>
      SettingIsDrawing(x, col);
      BreakColumnsConcat(Setting(x, col), [NewLine(at, col)]);
      BrokenMeasures(x, at);
      BrokenStarts(BreakColumns(Setting(x, col)), x, at, col);
  }
}
