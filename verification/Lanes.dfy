/** The lanes of the dashboard's timeline: attempts in order of their start, each drawn in the
    first lane that is free. */
module Lanes {
  import opened Wrappers

  datatype Row = Row(created: real, id: nat, finished: Option<real>)

  /** When a row ends; one without an end, or with the end zero, is drawn up to now. */
  function End(row: Row, now: real): real
  {
    if row.finished.Some? && row.finished.value != 0.0 then row.finished.value else now
  }

  /** In order of start. */
  ghost predicate Ordered(rows: seq<Row>)
  {
    forall i, j :: 0 <= i < j < |rows| ==> rows[i].created <= rows[j].created
  }

  /** An earlier row has not ended when a later one starts, so they cannot share a lane. */
  ghost predicate Clash(rows: seq<Row>, now: real, i: int, j: int)
    requires 0 <= i < |rows| && 0 <= j < |rows|
  {
    i < j && rows[j].created < End(rows[i], now)
  }

  /** The rows that have a lane so far: no two that clash share one, and lanes are below a bound. */
  ghost predicate Fits(rows: seq<Row>, now: real, lane: seq<nat>, lanes: nat)
  {
    |lane| <= |rows| && (forall i :: 0 <= i < |lane| ==> lane[i] < lanes) &&
    forall i, j :: 0 <= i < |lane| && 0 <= j < |lane| && Clash(rows, now, i, j) ==> lane[i] != lane[j]
  }

  /** Rows that all clash with each other. */
  ghost predicate Clique(rows: seq<Row>, now: real, c: set<nat>)
  {
    (forall i :: i in c ==> i < |rows|) && forall i, j :: i in c && j in c && i < j ==> Clash(rows, now, i, j)
  }

  predicate IsOpen(row: Row, now: real, t: real)
  {
    row.created <= t < End(row, now)
  }

  ghost function OpenAt(rows: seq<Row>, now: real, t: real): set<nat>
  {
    set i: nat | i < |rows| && IsOpen(rows[i], now, t)
  }

  ghost predicate Positive(rows: seq<Row>, now: real)
  {
    forall i :: 0 <= i < |rows| ==> rows[i].created < End(rows[i], now)
  }

  ghost function Image(c: set<nat>, lane: seq<nat>): set<nat>
    requires forall i :: i in c ==> i < |lane|
  {
    set i | i in c :: lane[i]
  }

  /** Rows that all clash need a lane each. */
  lemma {:induction false} CliqueNeedsLanes(rows: seq<Row>, now: real, c: set<nat>, lane: seq<nat>, lanes: nat)
    requires Clique(rows, now, c) && Fits(rows, now, lane, lanes) && |lane| == |rows|
    ensures |c| <= lanes
  {
    ImageSize(rows, now, c, lane, lanes);
    var used := Image(c, lane);
    assert used <= Below(lanes);
    Fewer(used, Below(lanes));
  }

  lemma ImageGrows(c: set<nat>, i: nat, lane: seq<nat>)
    requires i in c && forall j :: j in c ==> j < |lane|
    ensures Image(c, lane) == Image(c - {i}, lane) + {lane[i]}
  {
    assert c == (c - {i}) + {i};
  }

  lemma {:induction false} ImageSize(rows: seq<Row>, now: real, c: set<nat>, lane: seq<nat>, lanes: nat)
    requires Clique(rows, now, c) && Fits(rows, now, lane, lanes) && |lane| == |rows|
    ensures |Image(c, lane)| == |c|
  {
    if c != {} {
      var i :| i in c;
      var rest := c - {i};
      ImageSize(rows, now, rest, lane, lanes);
      ImageGrows(c, i, lane);
      assert lane[i] !in Image(rest, lane);
    }
  }

  ghost function Below(n: nat): (r: set<nat>)
    ensures |r| == n && forall i: nat :: i in r <==> i < n
  {
    if n == 0 then {} else Below(n - 1) + {n - 1}
  }

  lemma {:induction false} Fewer(a: set<nat>, b: set<nat>)
    requires a <= b
    ensures |a| <= |b|
  {
    if a != {} {
      var x :| x in a;
      Fewer(a - {x}, b - {x});
    }
  }

  /** Rows open at one time clash with each other. */
  lemma OpenClash(rows: seq<Row>, now: real, t: real)
    requires Ordered(rows)
    ensures Clique(rows, now, OpenAt(rows, now, t))
  {
  }

  /** Rows of positive length that all clash are open together when the last of them starts. */
  lemma CliqueOpen(rows: seq<Row>, now: real, c: set<nat>) returns (t: real)
    requires Ordered(rows) && Positive(rows, now) && Clique(rows, now, c) && c != {}
    ensures c <= OpenAt(rows, now, t)
  {
    var last :| last in c && forall i :: i in c ==> i <= last by { HasLast(c); }
    t := rows[last].created;
  }

  lemma {:induction false} HasLast(c: set<nat>)
    requires c != {}
    ensures exists last :: last in c && forall i :: i in c ==> i <= last
  {
    var x :| x in c;
    if c != {x} {
      var rest := c - {x};
      HasLast(rest);
      var y :| y in rest && forall i :: i in rest ==> i <= y;
      var z := if x > y then x else y;
      forall i | i in c ensures i <= z {
        if i != x { assert i in rest; }
      }
      assert z in c;
    }
  }

  /** A number of rows is the greatest that are open at one time. */
  ghost predicate Busiest(rows: seq<Row>, now: real, n: nat)
  {
    (forall t :: |OpenAt(rows, now, t)| <= n) && (n > 0 ==> exists t :: |OpenAt(rows, now, t)| == n)
  }

  /** If every row has a positive length, the lanes are exactly as many as the rows that are open
      at the busiest time. */
  lemma LanesAreBusiest(rows: seq<Row>, now: real, lane: seq<nat>, lanes: nat, clique: set<nat>)
    requires Ordered(rows) && Positive(rows, now) && |lane| == |rows| && Fits(rows, now, lane, lanes)
    requires Clique(rows, now, clique) && |clique| == lanes
    ensures Busiest(rows, now, lanes)
  {
    forall t ensures |OpenAt(rows, now, t)| <= lanes {
      OpenClash(rows, now, t);
      CliqueNeedsLanes(rows, now, OpenAt(rows, now, t), lane, lanes);
    }
    if lanes > 0 {
      var t := CliqueOpen(rows, now, clique);
      Fewer(clique, OpenAt(rows, now, t));
      assert |OpenAt(rows, now, t)| == lanes;
    }
  }
  // ----- The loop -----

  /** What is known of the lanes after some rows: the row that each lane holds last. */
  ghost predicate Held(rows: seq<Row>, now: real, lane: seq<nat>, until: seq<real>, last: seq<nat>)
  {
    |last| == |until| && |lane| <= |rows| &&
    (forall l :: 0 <= l < |last| ==> last[l] < |lane| && lane[last[l]] == l && until[l] == End(rows[last[l]], now)) &&
    forall i :: 0 <= i < |lane| ==>
      lane[i] < |last| && i <= last[lane[i]] && (i == last[lane[i]] || End(rows[i], now) <= rows[last[lane[i]]].created)
  }

  /** Each row is in the first lane whose rows have all ended when it starts. */
  ghost predicate FirstFit(rows: seq<Row>, now: real, lane: seq<nat>)
    requires |lane| <= |rows|
  {
    forall i, l :: 0 <= i < |lane| && 0 <= l < lane[i] ==> Occupied(rows, now, lane, i, l)
  }

  ghost predicate Occupied(rows: seq<Row>, now: real, lane: seq<nat>, i: int, l: int)
    requires 0 <= i < |lane| <= |rows|
  {
    exists k :: 0 <= k < i && lane[k] == l && Clash(rows, now, k, i)
  }

  /** The first lane free at a time, or a new one. */
  method FirstFree(until: seq<real>, start: real) returns (lane: nat)
    ensures lane <= |until| && (lane < |until| ==> until[lane] <= start)
    ensures forall l :: 0 <= l < lane ==> start < until[l]
  {
    lane := 0;
    while lane < |until| && start < until[lane]
      invariant lane <= |until| && forall l :: 0 <= l < lane ==> start < until[l]
    {
      lane := lane + 1;
    }
  }

  /** Places the next row; the lanes' last rows and the new row clash if a lane is opened. */
  lemma NextRow(rows: seq<Row>, now: real, lane: seq<nat>, until: seq<real>, last: seq<nat>, free: nat)
    requires Ordered(rows) && Held(rows, now, lane, until, last) && |lane| < |rows| && free <= |until|
    requires free < |until| ==> until[free] <= rows[|lane|].created
    ensures var row := rows[|lane|];
            var until' := if free == |until| then until + [End(row, now)] else until[free := End(row, now)];
            var last' := if free == |until| then last + [|lane|] else last[free := |lane|];
            Held(rows, now, lane + [free], until', last')
  {
    hide Clash;
  }

  lemma NextFits(rows: seq<Row>, now: real, lane: seq<nat>, until: seq<real>, last: seq<nat>, free: nat)
    requires Ordered(rows) && Held(rows, now, lane, until, last) && |lane| < |rows| && free <= |until|
    requires free < |until| ==> until[free] <= rows[|lane|].created
    requires Fits(rows, now, lane, |until|)
    ensures Fits(rows, now, lane + [free], if free == |until| then |until| + 1 else |until|)
  {
    forall i | 0 <= i < |lane| && Clash(rows, now, i, |lane|) ensures lane[i] != free {}
  }

  lemma NextFirst(rows: seq<Row>, now: real, lane: seq<nat>, until: seq<real>, last: seq<nat>, free: nat)
    requires Held(rows, now, lane, until, last) && |lane| < |rows| && free <= |until| && FirstFit(rows, now, lane)
    requires forall l :: 0 <= l < free ==> rows[|lane|].created < until[l]
    ensures FirstFit(rows, now, lane + [free])
  {
    var more := lane + [free];
    forall i, l | 0 <= i < |more| && 0 <= l < more[i] ensures Occupied(rows, now, more, i, l) {
      if i < |lane| {
        assert Occupied(rows, now, lane, i, l);
        var k :| 0 <= k < i && lane[k] == l && Clash(rows, now, k, i);
        assert more[k] == l;
      } else {
        assert more[last[l]] == l && Clash(rows, now, last[l], i);
      }
    }
  }

  /** The lasts of all lanes clash with a row for which none is free, and with each other. */
  lemma LastsClash(rows: seq<Row>, now: real, lane: seq<nat>, until: seq<real>, last: seq<nat>)
    requires Ordered(rows) && Held(rows, now, lane, until, last) && |lane| < |rows|
    requires forall l :: 0 <= l < |until| ==> rows[|lane|].created < until[l]
    ensures Clique(rows, now, Members(last) + {|lane|}) && |Members(last) + {|lane|}| == |until| + 1
  {
    LastsDistinct(last, lane);
    assert |lane| !in Members(last);
  }

  ghost function Members(last: seq<nat>): set<nat>
  {
    set l | 0 <= l < |last| :: last[l]
  }

  lemma {:induction false} LastsDistinct(last: seq<nat>, lane: seq<nat>)
    requires forall l :: 0 <= l < |last| ==> last[l] < |lane| && lane[last[l]] == l
    ensures |Members(last)| == |last|
  {
    if last != [] {
      var n := |last| - 1;
      LastsDistinct(last[..n], lane);
      assert Members(last) == Members(last[..n]) + {last[n]};
      assert last[n] !in Members(last[..n]);
    }
  }

  lemma NoRows(rows: seq<Row>, now: real)
    ensures Held(rows, now, [], [], []) && Fits(rows, now, [], 0) && FirstFit(rows, now, []) && Clique(rows, now, {})
  {
  }

  /** Gives each row a lane. No two rows that clash share one, each row takes the first free
      lane, and no assignment has fewer. If every row has a positive length, the lanes are as
      many as the rows open at the busiest time. */
  method Allocate(rows: seq<Row>, now: real) returns (lane: seq<nat>, lanes: nat)
    requires Ordered(rows)
    ensures |lane| == |rows| && Fits(rows, now, lane, lanes) && FirstFit(rows, now, lane)
    ensures forall other, n :: |other| == |rows| && Fits(rows, now, other, n) ==> lanes <= n
    ensures Positive(rows, now) ==> Busiest(rows, now, lanes)
  {
    hide Held, Fits, FirstFit, Clique, Members, Ordered, Positive, Busiest;
    lane := [];
    ghost var clique: set<nat> := {};
    var until: seq<real> := [];
    ghost var last: seq<nat> := [];
    NoRows(rows, now);
    for j := 0 to |rows|
      invariant |lane| == j && |last| == |until| && Held(rows, now, lane, until, last)
      invariant Fits(rows, now, lane, |until|) && FirstFit(rows, now, lane)
      invariant Clique(rows, now, clique) && |clique| == |until|
    {
      var free := FirstFree(until, rows[j].created);
      NextRow(rows, now, lane, until, last, free);
      NextFits(rows, now, lane, until, last, free);
      NextFirst(rows, now, lane, until, last, free);
      var finish := End(rows[j], now);
      if free == |until| {
        LastsClash(rows, now, lane, until, last);
        clique := Members(last) + {j};
        until, last := until + [finish], last + [j];
      } else {
        until, last := until[free := finish], last[free := j];
      }
      lane := lane + [free];
    }
    lanes := |until|;
    forall other, n | |other| == |rows| && Fits(rows, now, other, n) ensures lanes <= n {
      CliqueNeedsLanes(rows, now, clique, other, n);
    }
    if Positive(rows, now) { LanesAreBusiest(rows, now, lane, lanes, clique); }
  }
}
