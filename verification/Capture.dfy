/** The filter that keeps a build's log without download-progress records, however the log is
    cut into chunks. */
module Capture {
  import opened Wrappers
  import opened Sequences

  newtype Byte = x: int | 0 <= x < 256

  type Bytes = seq<Byte>

  datatype Json =
    | Object(members: map<string, Json>)
    | List(items: seq<Json>)
    | Int(i: int)
    | Float(r: real)
    | Text(text: string)
    | Literal

  const NEWLINE: Byte := 10

  /** The longest unfinished line that is held back. */
  const LIMIT: nat := 1024 * 1024

  /** "@nix ", which announces a record. */
  const MARK: Bytes := [64, 110, 105, 120, 32]

  predicate HasType(j: Option<Json>, code: int)
  {
    j == Some(Int(code)) || (j.Some? && j.value.Float? && j.value.r == code as real)
  }

  function Member(j: Json, name: string): Option<Json>
  {
    if j.Object? && name in j.members then Some(j.members[name]) else None
  }

  /** Whether a line is a progress record: a result of type 105 with four whole numbers. */
  predicate IsProgress(parse: Bytes -> Option<Json>, line: Bytes)
  {
    MARK <= line &&
    match parse(line[|MARK|..])
    case None => false
    case Some(event) =>
      event.Object? && Member(event, "action") == Some(Text("result")) && HasType(Member(event, "type"), 105) &&
      match Member(event, "fields")
      case Some(List(items)) => |items| == 4 && forall i :: 0 <= i < |items| ==> items[i].Int?
      case _ => false
  }

  // ----- Lines -----

  /** The complete lines of some bytes, each with its newline, and what follows the last. */
  datatype Cut = Cut(lines: seq<Bytes>, tail: Bytes)

  function Split(s: Bytes): Cut
  {
    if s == [] then Cut([], [])
    else
      var before, x := Split(s[..|s| - 1]), s[|s| - 1];
      if x == NEWLINE then Cut(before.lines + [before.tail + [x]], []) else Cut(before.lines, before.tail + [x])
  }

  function Joined(lines: seq<Bytes>): Bytes
  {
    if lines == [] then [] else Joined(lines[..|lines| - 1]) + lines[|lines| - 1]
  }

  predicate IsLine(line: Bytes)
  {
    line != [] && line[|line| - 1] == NEWLINE && NEWLINE !in line[..|line| - 1]
  }

  /** Splitting loses nothing. */
  lemma {:induction false} SplitJoins(s: Bytes)
    ensures Joined(Split(s).lines) + Split(s).tail == s
  {
    if s != [] {
      var front, x := s[..|s| - 1], s[|s| - 1];
      SplitJoins(front);
      var before := Split(front);
      assert s == front + [x];
      if x == NEWLINE {
        var lines := before.lines + [before.tail + [x]];
        assert lines[..|lines| - 1] == before.lines;
        assert Joined(lines) + [] == (Joined(before.lines) + before.tail) + [x];
      } else {
        assert Joined(before.lines) + (before.tail + [x]) == (Joined(before.lines) + before.tail) + [x];
      }
    }
  }

  ghost predicate AreLines(lines: seq<Bytes>)
  {
    forall i :: 0 <= i < |lines| ==> IsLine(lines[i])
  }

  /** It cuts exactly after the newlines. */
  lemma {:induction false} SplitIsLines(s: Bytes)
    ensures NEWLINE !in Split(s).tail && AreLines(Split(s).lines)
  {
    if s != [] {
      var front, x := s[..|s| - 1], s[|s| - 1];
      SplitIsLines(front);
      if x == NEWLINE {
        var line := Split(front).tail + [x];
        assert line[..|line| - 1] == Split(front).tail;
        assert IsLine(line);
      }
    }
  }

  /** Splitting may stop anywhere and go on from the unfinished line. */
  lemma {:induction false} SplitResumes(a: Bytes, b: Bytes)
    ensures var first := Split(a);
            var rest := Split(first.tail + b);
            Split(a + b) == Cut(first.lines + rest.lines, rest.tail)
    decreases |b|
  {
    var first := Split(a);
    if b == [] {
      assert a + b == a && first.tail + b == first.tail;
      SplitIsLines(a);
      NoLines(first.tail);
    } else {
      hide Split;
      var shorter, x := b[..|b| - 1], b[|b| - 1];
      SplitResumes(a, shorter);
      Snoc(a, b);
      Snoc(first.tail, b);
      SplitSnoc(a + shorter, x);
      SplitSnoc(first.tail + shorter, x);
      var rest := Split(first.tail + shorter);
      Associates(first.lines, rest.lines, [rest.tail + [x]]);
    }
  }

  lemma SplitSnoc(s: Bytes, x: Byte)
    ensures var before := Split(s);
            Split(s + [x]) ==
            if x == NEWLINE then Cut(before.lines + [before.tail + [x]], []) else Cut(before.lines, before.tail + [x])
  {
    assert (s + [x])[..|s|] == s;
  }

  lemma {:induction false} NoLines(s: Bytes)
    requires NEWLINE !in s
    ensures Split(s) == Cut([], s)
  {
    if s != [] { NoLines(s[..|s| - 1]); }
  }

  /** Bytes without a newline put in front belong to the first line, or to the tail. */
  lemma {:induction false} SplitAfter(p: Bytes, s: Bytes)
    requires NEWLINE !in p
    ensures var c := Split(s);
            Split(p + s) == if c.lines == [] then Cut([], p + c.tail) else Cut([p + c.lines[0]] + c.lines[1..], c.tail)
    decreases |s|
  {
    if s == [] {
      assert p + s == p;
      NoLines(p);
    } else {
      SplitAfter(p, s[..|s| - 1]);
      assert (p + s)[..|p + s| - 1] == p + s[..|s| - 1];
      var before := Split(s[..|s| - 1]);
      assert p + before.tail + [s[|s| - 1]] == p + (before.tail + [s[|s| - 1]]);
    }
  }

  // ----- What the filter is for -----

  /** The lines that are not progress records. */
  function Kept(parse: Bytes -> Option<Json>, lines: seq<Bytes>): Bytes
  {
    if lines == [] then []
    else Kept(parse, lines[..|lines| - 1]) + if IsProgress(parse, lines[|lines| - 1]) then [] else lines[|lines| - 1]
  }

  /** The lines that were not omitted. */
  function Remaining(lines: seq<Bytes>, omitted: seq<bool>): Bytes
    requires |lines| == |omitted|
  {
    if lines == [] then []
    else
      var n := |lines| - 1;
      Remaining(lines[..n], omitted[..n]) + if omitted[n] then [] else lines[n]
  }

  function OmittedBytes(lines: seq<Bytes>, omitted: seq<bool>): nat
    requires |lines| == |omitted|
  {
    if lines == [] then 0
    else
      var n := |lines| - 1;
      OmittedBytes(lines[..n], omitted[..n]) + if omitted[n] then |lines[n]| else 0
  }

  function OmittedRecords(omitted: seq<bool>): nat
  {
    if omitted == [] then 0
    else OmittedRecords(omitted[..|omitted| - 1]) + if omitted[|omitted| - 1] then 1 else 0
  }

  /** Only whole progress records are omitted, and every one of them that fits the limit is. */
  ghost predicate Judged(parse: Bytes -> Option<Json>, lines: seq<Bytes>, omitted: seq<bool>)
  {
    |lines| == |omitted| &&
    forall i :: 0 <= i < |lines| ==>
      (omitted[i] ==> IsProgress(parse, lines[i])) && (|lines[i]| <= LIMIT + 1 && IsProgress(parse, lines[i]) ==> omitted[i])
  }

  /** Every progress record fits the limit. */
  ghost predicate ProgressFits(parse: Bytes -> Option<Json>, lines: seq<Bytes>)
  {
    forall i :: 0 <= i < |lines| && IsProgress(parse, lines[i]) ==> |lines[i]| <= LIMIT + 1
  }

  /** If every progress record fits the limit, what remains is the log without them. */
  lemma {:induction false} ShortLinesExact(parse: Bytes -> Option<Json>, lines: seq<Bytes>, omitted: seq<bool>)
    requires Judged(parse, lines, omitted) && ProgressFits(parse, lines)
    ensures Remaining(lines, omitted) == Kept(parse, lines)
  {
    if lines != [] {
      var n := |lines| - 1;
      ShortLinesExact(parse, lines[..n], omitted[..n]);
    }
  }

  lemma {:induction false} NothingLost(lines: seq<Bytes>, omitted: seq<bool>)
    requires |lines| == |omitted|
    ensures |Remaining(lines, omitted)| + OmittedBytes(lines, omitted) == |Joined(lines)|
  {
    if lines != [] {
      var n := |lines| - 1;
      NothingLost(lines[..n], omitted[..n]);
    }
  }

  /** What a filter has done with the bytes fed to it so far. */
  ghost predicate Faithful(parse: Bytes -> Option<Json>, fed: Bytes, emitted: Bytes, omitted: seq<bool>, pending: Bytes,
                           passthrough: bool)
  {
    var c := Split(fed);
    Judged(parse, c.lines, omitted) && emitted + pending == Remaining(c.lines, omitted) + c.tail && |pending| <= |c.tail| &&
    if passthrough then |c.tail| > LIMIT else pending == c.tail
  }

  /** Bytes emitted, omitted and pending are the bytes fed. */
  lemma Conservation(parse: Bytes -> Option<Json>, fed: Bytes, emitted: Bytes, omitted: seq<bool>, pending: Bytes, passthrough: bool)
    requires Faithful(parse, fed, emitted, omitted, pending, passthrough)
    ensures |emitted| + OmittedBytes(Split(fed).lines, omitted) + |pending| == |fed|
  {
    NothingLost(Split(fed).lines, omitted);
    SplitJoins(fed);
    assert |emitted + pending| == |Remaining(Split(fed).lines, omitted)| + |Split(fed).tail|;
  }

  // ----- One feed -----

  /** Which of the lines a feed completes are omitted; the rest of an oversized line never is. */
  function Verdicts(parse: Bytes -> Option<Json>, lines: seq<Bytes>, passthrough: bool): (r: seq<bool>)
    ensures |r| == |lines|
    ensures forall i :: 0 <= i < |r| ==> r[i] == (IsProgress(parse, lines[i]) && !(i == 0 && passthrough))
  {
    if lines == [] then []
    else
      var n := |lines| - 1;
      Verdicts(parse, lines[..n], passthrough) + [IsProgress(parse, lines[n]) && !(n == 0 && passthrough)]
  }

  lemma RemainingSnoc(lines: seq<Bytes>, omitted: seq<bool>, line: Bytes, o: bool)
    requires |lines| == |omitted|
    ensures Remaining(lines + [line], omitted + [o]) == Remaining(lines, omitted) + if o then [] else line
  {
    assert (lines + [line])[..|lines|] == lines && (omitted + [o])[..|lines|] == omitted;
  }

  lemma {:induction false} RemainingJoins(a: seq<Bytes>, x: seq<bool>, b: seq<Bytes>, y: seq<bool>)
    requires |a| == |x| && |b| == |y|
    ensures Remaining(a + b, x + y) == Remaining(a, x) + Remaining(b, y)
    decreases |b|
  {
    hide Remaining;
    if b == [] {
      Associates(a, a, a);
      Associates(x, x, x);
      Associates(Remaining(a, x), [], []);
      NoneRemain();
    } else {
      var n := |b| - 1;
      RemainingJoins(a, x, b[..n], y[..n]);
      RemainingSnoc(a + b[..n], x + y[..n], b[n], y[n]);
      RemainingSnoc(b[..n], y[..n], b[n], y[n]);
      Snoc(a, b);
      Snoc(x, y);
      Associates(Remaining(a, x), Remaining(b[..n], y[..n]), if y[n] then [] else b[n]);
    }
  }

  lemma NoneRemain()
    ensures Remaining([], []) == []
  {
  }

  lemma {:induction false} OmittedJoins(a: seq<Bytes>, x: seq<bool>, b: seq<Bytes>, y: seq<bool>)
    requires |a| == |x| && |b| == |y|
    ensures OmittedBytes(a + b, x + y) == OmittedBytes(a, x) + OmittedBytes(b, y)
    ensures OmittedRecords(x + y) == OmittedRecords(x) + OmittedRecords(y)
    decreases |b|
  {
    if b == [] {
      assert a + b == a && x + y == x;
    } else {
      var n := |b| - 1;
      OmittedJoins(a, x, b[..n], y[..n]);
      assert (a + b)[..|a + b| - 1] == a + b[..n] && (x + y)[..|x + y| - 1] == x + y[..n];
    }
  }

  /** A feed keeps faith: whatever was pending or forwarded, the lines it completes are judged
      whole or not at all. */
  lemma FeedFaithful(parse: Bytes -> Option<Json>, fed: Bytes, emitted: Bytes, omitted: seq<bool>, pending: Bytes,
                     passthrough: bool, data: Bytes)
    requires Faithful(parse, fed, emitted, omitted, pending, passthrough)
    ensures var c := Split(pending + data);
            var verdicts := Verdicts(parse, c.lines, passthrough);
            var forward := |c.tail| > LIMIT;
            Faithful(parse, fed + data, emitted + (Remaining(c.lines, verdicts) + if forward then c.tail else []),
                     omitted + verdicts, if forward then [] else c.tail, forward || (passthrough && c.lines == []))
    ensures var c := Split(pending + data);
            var verdicts := Verdicts(parse, c.lines, passthrough);
            |omitted| == |Split(fed).lines| && |omitted + verdicts| == |Split(fed + data).lines| &&
            OmittedRecords(omitted + verdicts) == OmittedRecords(omitted) + OmittedRecords(verdicts) &&
            OmittedBytes(Split(fed + data).lines, omitted + verdicts) ==
            OmittedBytes(Split(fed).lines, omitted) + OmittedBytes(c.lines, verdicts)
  {
    hide Split, IsProgress, Remaining, OmittedBytes, OmittedRecords, Verdicts, Restored;
    var before, c := Split(fed), Split(pending + data);
    var verdicts := Verdicts(parse, c.lines, passthrough);
    var ahead := before.tail[..|before.tail| - |pending|];
    var kept, passed := Remaining(before.lines, omitted), Remaining(c.lines, verdicts);
    TailParts(kept, before.tail, emitted, pending);
    FeedSplits(fed, pending, data);
    FeedJudges(parse, ahead, pending, data, passthrough);
    JudgedJoins(parse, before.lines, omitted, Restored(ahead, c.lines), verdicts);
    RestoredVerdicts(parse, ahead, c.lines, passthrough);
    RemainingJoins(before.lines, omitted, Restored(ahead, c.lines), verdicts);
    OmittedJoins(before.lines, omitted, Restored(ahead, c.lines), verdicts);
    Regroup(kept, ahead, passed, c.tail, |c.tail| > LIMIT, c.lines == []);
    assert !passthrough ==> ahead + c.tail == c.tail;
  }

  /** The lines of the log after a feed, from those before and those the feed completes. */
  lemma FeedSplits(fed: Bytes, pending: Bytes, data: Bytes)
    requires |pending| <= |Split(fed).tail| && Split(fed).tail[|Split(fed).tail| - |pending|..] == pending
    ensures NEWLINE !in pending && (Split(pending + data).lines == [] ==> |Split(pending + data).tail| >= |pending|)
    ensures var ahead := Split(fed).tail[..|Split(fed).tail| - |pending|];
            var c := Split(pending + data);
            Split(fed + data) == Cut(Split(fed).lines + Restored(ahead, c.lines), if c.lines == [] then ahead + c.tail else c.tail)
  {
    hide Split;
    var tail := Split(fed).tail;
    var ahead := tail[..|tail| - |pending|];
    SplitIsLines(fed);
    SplitResumes(fed, data);
    assert tail + data == ahead + (pending + data);
    SplitAfter(ahead, pending + data);
    SplitAfter(pending, data);
  }

  lemma RestoredVerdicts(parse: Bytes -> Option<Json>, ahead: Bytes, lines: seq<Bytes>, passthrough: bool)
    requires passthrough || ahead == []
    ensures var r, verdicts := Restored(ahead, lines), Verdicts(parse, lines, passthrough);
            Remaining(r, verdicts) == (if lines == [] then [] else ahead + Remaining(lines, verdicts)) &&
            Remaining([], []) == [] && OmittedBytes(r, verdicts) == OmittedBytes(lines, verdicts) &&
            (lines == [] ==> Remaining(lines, verdicts) == [])
  {
    hide IsProgress;
    var verdicts := Verdicts(parse, lines, passthrough);
    if lines != [] {
      if passthrough {
        assert !verdicts[0];
        RestoredRemain(ahead, lines, verdicts);
      } else {
        RestoredNone(lines);
      }
    }
  }

  lemma Regroup(kept: Bytes, ahead: Bytes, passed: Bytes, tail: Bytes, forward: bool, none: bool)
    requires none ==> passed == []
    ensures (kept + ahead) + (passed + if forward then tail else []) + (if forward then [] else tail) ==
            (kept + if none then [] else ahead + passed) + if none then ahead + tail else tail
  {
  }

  lemma TailParts(left: Bytes, tail: Bytes, emitted: Bytes, pending: Bytes)
    requires emitted + pending == left + tail && |pending| <= |tail|
    ensures var ahead := tail[..|tail| - |pending|]; tail == ahead + pending && emitted == left + ahead
  {
    var n := |tail| - |pending|;
    assert emitted == (left + tail)[..|left| + n];
    assert pending == (left + tail)[|left| + n..];
  }

  /** The lines as they are with the bytes already forwarded put back in front. */
  function Restored(ahead: Bytes, lines: seq<Bytes>): (r: seq<Bytes>)
    ensures |r| == |lines|
  {
    if lines == [] then [] else [ahead + lines[0]] + lines[1..]
  }

  /** Bytes already forwarded complete a line that is not omitted. */
  lemma {:induction false} RestoredRemain(ahead: Bytes, lines: seq<Bytes>, omitted: seq<bool>)
    requires |lines| == |omitted| && lines != [] && !omitted[0]
    ensures Remaining(Restored(ahead, lines), omitted) == ahead + Remaining(lines, omitted)
    ensures OmittedBytes(Restored(ahead, lines), omitted) == OmittedBytes(lines, omitted)
  {
    var n := |lines| - 1;
    var r := Restored(ahead, lines);
    if n == 0 {
      assert r[..0] == [] && lines[..0] == [] && omitted[..0] == [];
      assert Remaining([], []) == [] && Remaining(lines, omitted) == lines[0];
    } else {
      RestoredRemain(ahead, lines[..n], omitted[..n]);
      assert r[..n] == Restored(ahead, lines[..n]) && r[n] == lines[n];
      var last := if omitted[n] then [] else lines[n];
      assert Remaining(r, omitted) == Remaining(r[..n], omitted[..n]) + last;
      assert (ahead + Remaining(lines[..n], omitted[..n])) + last == ahead + (Remaining(lines[..n], omitted[..n]) + last);
    }
  }

  lemma RestoredNone(lines: seq<Bytes>)
    ensures Restored([], lines) == lines
  {
    if lines != [] {
      assert [] + lines[0] == lines[0];
    }
  }

  /** Every line that is completed is judged as a whole. */
  lemma FeedJudges(parse: Bytes -> Option<Json>, ahead: Bytes, pending: Bytes, data: Bytes, passthrough: bool)
    requires NEWLINE !in pending
    requires if passthrough then |ahead| + |pending| > LIMIT else ahead == []
    ensures var lines := Split(pending + data).lines;
            Judged(parse, Restored(ahead, lines), Verdicts(parse, lines, passthrough))
  {
    hide IsProgress, Split;
    var lines := Split(pending + data).lines;
    var r, verdicts := Restored(ahead, lines), Verdicts(parse, lines, passthrough);
    if passthrough {
      FirstHolds(pending, data);
      assert forall i :: 0 < i < |lines| ==> r[i] == lines[i];
    } else {
      RestoredNone(lines);
    }
  }

  /** A line completed by new data holds all that was pending, and its newline. */
  lemma FirstHolds(pending: Bytes, data: Bytes)
    requires NEWLINE !in pending
    ensures var lines := Split(pending + data).lines; lines != [] ==> |lines[0]| > |pending|
  {
    hide Split;
    SplitAfter(pending, data);
    SplitIsLines(data);
    var lines := Split(data).lines;
    assert lines != [] ==> IsLine(lines[0]);
  }

  lemma JudgedJoins(parse: Bytes -> Option<Json>, a: seq<Bytes>, x: seq<bool>, b: seq<Bytes>, y: seq<bool>)
    requires Judged(parse, a, x) && Judged(parse, b, y)
    ensures Judged(parse, a + b, x + y)
  {
    hide IsProgress;
  }

  class BuildLogFilter {
    const parse: Bytes -> Option<Json>
    var pending: Bytes
    var passthrough: bool
    var omittedRecords: nat
    var omittedBytes: nat
    /** Everything fed and emitted so far, and which complete lines were omitted. */
    ghost var fed: Bytes
    ghost var emitted: Bytes
    ghost var omitted: seq<bool>

    ghost predicate Valid()
      reads this
    {
      Faithful(parse, fed, emitted, omitted, pending, passthrough) && |pending| <= LIMIT &&
      omittedBytes == OmittedBytes(Split(fed).lines, omitted) && omittedRecords == OmittedRecords(omitted)
    }

    constructor (parse: Bytes -> Option<Json>)
      ensures Valid() && this.parse == parse && fed == [] && emitted == [] && pending == [] && !passthrough
    {
      this.parse := parse;
      pending, passthrough, omittedRecords, omittedBytes := [], false, 0, 0;
      fed, emitted, omitted := [], [], [];
    }

    /** Drops a progress record and counts it. */
    method Keep(line: Bytes) returns (out: Bytes)
      modifies this`omittedRecords, this`omittedBytes
      ensures out == if IsProgress(parse, line) then [] else line
      ensures omittedRecords == old(omittedRecords) + if IsProgress(parse, line) then 1 else 0
      ensures omittedBytes == old(omittedBytes) + if IsProgress(parse, line) then |line| else 0
    {
      if IsProgress(parse, line) {
        omittedRecords := omittedRecords + 1;
        omittedBytes := omittedBytes + |line|;
        return [];
      }
      return line;
    }

    /** Passes on the lines that a chunk completes, except progress records. */
    method Drain(lines: seq<Bytes>) returns (out: Bytes)
      modifies this`passthrough, this`omittedRecords, this`omittedBytes
      ensures var verdicts := Verdicts(parse, lines, old(passthrough));
              out == Remaining(lines, verdicts) && omittedBytes == old(omittedBytes) + OmittedBytes(lines, verdicts) &&
              omittedRecords == old(omittedRecords) + OmittedRecords(verdicts)
      ensures passthrough == (old(passthrough) && lines == [])
    {
      hide IsProgress;
      ghost var verdicts := Verdicts(parse, lines, passthrough);
      out := [];
      for i := 0 to |lines|
        invariant passthrough == (old(passthrough) && i == 0)
        invariant out == Remaining(lines[..i], verdicts[..i])
        invariant omittedBytes == old(omittedBytes) + OmittedBytes(lines[..i], verdicts[..i])
        invariant omittedRecords == old(omittedRecords) + OmittedRecords(verdicts[..i])
      {
        assert lines[..i + 1][..i] == lines[..i] && verdicts[..i + 1][..i] == verdicts[..i];
        if passthrough {
          out := out + lines[i];
        } else {
          var kept := Keep(lines[i]);
          out := out + kept;
        }
        passthrough := false;
      }
      assert lines[..|lines|] == lines && verdicts[..|verdicts|] == verdicts;
    }

    /** Takes a chunk of the log and gives back what can be written. */
    method Feed(data: Bytes) returns (out: Bytes)
      requires Valid()
      modifies this
      ensures Valid() && fed == old(fed) + data && emitted == old(emitted) + out
      ensures |emitted| + omittedBytes + |pending| == |fed|
      ensures var c := Split(old(pending) + data);
              out == Remaining(c.lines, Verdicts(parse, c.lines, old(passthrough))) + (if |c.tail| > LIMIT then c.tail else []) &&
              pending == (if |c.tail| > LIMIT then [] else c.tail) &&
              passthrough == (|c.tail| > LIMIT || (old(passthrough) && c.lines == []))
    {
      hide Split, Faithful, IsProgress, Verdicts, Remaining, OmittedBytes, OmittedRecords;
      FeedFaithful(parse, fed, emitted, omitted, pending, passthrough, data);
      var c := Split(pending + data);
      ghost var verdicts := Verdicts(parse, c.lines, passthrough);
      pending := c.tail;
      out := Drain(c.lines);
      if |pending| > LIMIT {
        out := out + pending;
        pending := [];
        passthrough := true;
      }
      assert out == Remaining(c.lines, verdicts) + if |c.tail| > LIMIT then c.tail else [];
      fed, emitted, omitted := fed + data, emitted + out, omitted + verdicts;
      Conservation(parse, fed, emitted, omitted, pending, passthrough);
    }

    /** Gives back the unfinished line, even if it resembles progress. With it, everything
        written is the log without whole progress records, and without any other loss. */
    method Finish() returns (out: Bytes)
      requires Valid()
      modifies this
      ensures pending == [] && fed == old(fed) && out == old(pending) && emitted == old(emitted) + out
      ensures |omitted| == |Split(fed).lines| && emitted == Remaining(Split(fed).lines, omitted) + Split(fed).tail
      ensures Judged(parse, Split(fed).lines, omitted)
      ensures ProgressFits(parse, Split(fed).lines) ==> emitted == Kept(parse, Split(fed).lines) + Split(fed).tail
      ensures |emitted| + omittedBytes == |fed|
    {
      hide IsProgress, Split;
      Conservation(parse, fed, emitted, omitted, pending, passthrough);
      if ProgressFits(parse, Split(fed).lines) { ShortLinesExact(parse, Split(fed).lines, omitted); }
      out, pending := pending, [];
      emitted := emitted + out;
    }
  }

  // ----- Any chunking -----

  /** What a filter holds and has written. */
  datatype Held = Held(pending: Bytes, passthrough: bool, out: Bytes)

  function FeedOn(parse: Bytes -> Option<Json>, h: Held, data: Bytes): Held
  {
    var c := Split(h.pending + data);
    var forward := |c.tail| > LIMIT;
    Held(if forward then [] else c.tail, forward || (h.passthrough && c.lines == []),
         h.out + (Remaining(c.lines, Verdicts(parse, c.lines, h.passthrough)) + if forward then c.tail else []))
  }

  function Fed(parse: Bytes -> Option<Json>, chunks: seq<Bytes>): Held
  {
    if chunks == [] then Held([], false, []) else FeedOn(parse, Fed(parse, chunks[..|chunks| - 1]), chunks[|chunks| - 1])
  }

  /** Everything written of a log that is fed in chunks. */
  function Filtered(parse: Bytes -> Option<Json>, chunks: seq<Bytes>): Bytes
  {
    Fed(parse, chunks).out + Fed(parse, chunks).pending
  }

  /** What a log is without its progress records. */
  function WithoutProgress(parse: Bytes -> Option<Json>, log: Bytes): Bytes
  {
    Kept(parse, Split(log).lines) + Split(log).tail
  }

  /** Feeds a log in chunks. */
  method FilterAll(parse: Bytes -> Option<Json>, chunks: seq<Bytes>) returns (out: Bytes)
    ensures out == Filtered(parse, chunks)
  {
    hide Split, IsProgress, Remaining, Verdicts;
    var f := new BuildLogFilter(parse);
    out := [];
    for i := 0 to |chunks|
      invariant f.Valid() && f.parse == parse && Held(f.pending, f.passthrough, out) == Fed(parse, chunks[..i])
    {
      assert chunks[..i + 1][..i] == chunks[..i];
      var more := f.Feed(chunks[i]);
      out := out + more;
    }
    assert chunks[..|chunks|] == chunks;
    var last := f.Finish();
    out := out + last;
  }

  /** Every chunking keeps faith. */
  lemma {:induction false} FedFaithful(parse: Bytes -> Option<Json>, chunks: seq<Bytes>) returns (omitted: seq<bool>)
    ensures var h := Fed(parse, chunks); Faithful(parse, Joined(chunks), h.out, omitted, h.pending, h.passthrough)
  {
    hide Split, IsProgress, Remaining, Verdicts, Faithful;
    if chunks == [] {
      omitted := [];
      NothingFed(parse);
    } else {
      var n := |chunks| - 1;
      var before := Fed(parse, chunks[..n]);
      var was := FedFaithful(parse, chunks[..n]);
      FeedFaithful(parse, Joined(chunks[..n]), before.out, was, before.pending, before.passthrough, chunks[n]);
      omitted := was + Verdicts(parse, Split(before.pending + chunks[n]).lines, before.passthrough);
    }
  }

  lemma NothingFed(parse: Bytes -> Option<Json>)
    ensures Faithful(parse, [], [], [], [], false)
  {
  }

  /** If every progress record fits the limit, what is written depends on the log alone. */
  lemma FitsIndependent(parse: Bytes -> Option<Json>, chunks: seq<Bytes>)
    requires ProgressFits(parse, Split(Joined(chunks)).lines)
    ensures Filtered(parse, chunks) == WithoutProgress(parse, Joined(chunks))
  {
    hide Split, IsProgress, Fed, Kept;
    var omitted := FedFaithful(parse, chunks);
    ShortLinesExact(parse, Split(Joined(chunks)).lines, omitted);
  }

  // ----- A longer progress record -----

  lemma {:induction false} JoinedConcat(a: seq<Bytes>, b: seq<Bytes>)
    ensures Joined(a + b) == Joined(a) + Joined(b)
    decreases |b|
  {
    if b == [] {
      Associates(a, a, a);
      Associates(Joined(a), [], []);
    } else {
      var n := |b| - 1;
      JoinedConcat(a, b[..n]);
      Snoc(a, b);
      assert (a + b)[..|a + b| - 1] == a + b[..n] && (a + b)[|a + b| - 1] == b[n];
      Associates(Joined(a), Joined(b[..n]), b[n]);
    }
  }

  lemma JoinedOne(line: Bytes)
    ensures Joined([line]) == line
  {
    assert [line][..0] == [];
  }

  /** Lines joined, and a tail, are split into those lines and that tail. */
  lemma {:induction false} SplitOfLines(lines: seq<Bytes>, tail: Bytes)
    requires AreLines(lines) && NEWLINE !in tail
    ensures Split(Joined(lines) + tail) == Cut(lines, tail)
    decreases |lines|
  {
    hide Split;
    if lines == [] {
      assert Joined(lines) + tail == tail;
      NoLines(tail);
    } else {
      var n := |lines| - 1;
      var before, last := Joined(lines[..n]), lines[n];
      SplitOfLines(lines[..n], []);
      assert before + [] == before;
      assert Joined(lines) + tail == before + (last + tail);
      SplitResumes(before, last + tail);
      assert [] + (last + tail) == last + tail;
      SplitOne(last);
      SplitResumes(last, tail);
      assert [] + tail == tail;
      NoLines(tail);
      assert lines == lines[..n] + [last];
    }
  }

  lemma {:induction false} KeptConcat(parse: Bytes -> Option<Json>, a: seq<Bytes>, b: seq<Bytes>)
    ensures Kept(parse, a + b) == Kept(parse, a) + Kept(parse, b)
    decreases |b|
  {
    hide IsProgress;
    if b == [] {
      assert a + b == a;
    } else {
      KeptConcat(parse, a, b[..|b| - 1]);
      assert (a + b)[..|a + b| - 1] == a + b[..|b| - 1];
    }
  }

  /** Lines judged without anything forwarded before are kept as they should be. */
  lemma {:induction false} VerdictsKeep(parse: Bytes -> Option<Json>, lines: seq<Bytes>)
    ensures Remaining(lines, Verdicts(parse, lines, false)) == Kept(parse, lines)
  {
    hide IsProgress;
    if lines != [] {
      var n := |lines| - 1;
      VerdictsKeep(parse, lines[..n]);
      assert Verdicts(parse, lines, false)[..n] == Verdicts(parse, lines[..n], false);
    }
  }

  /** After the forwarded part of a line, its end is written and later lines are judged. */
  lemma EndWritten(parse: Bytes -> Option<Json>, later: seq<Bytes>)
    ensures var lines := [[NEWLINE]] + later;
            Remaining(lines, Verdicts(parse, lines, true)) == [NEWLINE] + Kept(parse, later)
  {
    hide IsProgress, Kept, Remaining;
    var lines := [[NEWLINE]] + later;
    var v := Verdicts(parse, later, false);
    assert Verdicts(parse, lines, true) == [false] + v;
    RemainingJoins([[NEWLINE]], [false], later, v);
    VerdictsKeep(parse, later);
    OneRemains([NEWLINE]);
  }

  lemma OneRemains(line: Bytes)
    ensures Remaining([line], [false]) == line
  {
    assert [line][..0] == [] && [false][..0] == [];
    assert Remaining([], []) + line == line;
  }

  /** The two chunks of a log that part a line before its newline. */
  function Parted(lines: seq<Bytes>, tail: Bytes, i: nat): seq<Bytes>
    requires i < |lines| && lines[i] != []
  {
    [Joined(lines[..i]) + lines[i][..|lines[i]| - 1], [NEWLINE] + Joined(lines[i + 1..]) + tail]
  }

  lemma JoinedTwo(a: Bytes, b: Bytes)
    ensures Joined([a, b]) == a + b
  {
    hide Joined;
    JoinedConcat([a], [b]);
    JoinedOne(a);
    JoinedOne(b);
    assert [a] + [b] == [a, b];
  }

  lemma JoinedAround(lines: seq<Bytes>, i: nat)
    requires i < |lines|
    ensures Joined(lines) == Joined(lines[..i]) + lines[i] + Joined(lines[i + 1..])
  {
    hide Joined;
    JoinedConcat(lines[..i], [lines[i]]);
    JoinedOne(lines[i]);
    JoinedConcat(lines[..i] + [lines[i]], lines[i + 1..]);
    Around(lines, i);
  }

  lemma PartedJoins(lines: seq<Bytes>, tail: Bytes, i: nat)
    requires i < |lines| && AreLines(lines) && lines[i] != []
    ensures Joined(Parted(lines, tail, i)) == Joined(lines) + tail
  {
    hide Joined, IsLine;
    assert IsLine(lines[i]);
    JoinedTwo(Parted(lines, tail, i)[0], Parted(lines, tail, i)[1]);
    JoinedAround(lines, i);
    Glued(Joined(lines[..i]), lines[i], Joined(lines[i + 1..]), tail);
  }

  lemma Glued(a: Bytes, line: Bytes, b: Bytes, tail: Bytes)
    requires IsLine(line)
    ensures (a + line[..|line| - 1]) + ([NEWLINE] + b + tail) == a + line + b + tail
  {
    assert line == line[..|line| - 1] + [NEWLINE];
  }

  /** Parted within a line that is too long, a log is written with that line. */
  lemma PartedWritten(parse: Bytes -> Option<Json>, lines: seq<Bytes>, tail: Bytes, i: nat)
    requires i < |lines| && AreLines(lines) && NEWLINE !in tail && |lines[i]| > LIMIT + 1
    ensures Filtered(parse, Parted(lines, tail, i)) ==
            Kept(parse, lines[..i]) + lines[i] + Kept(parse, lines[i + 1..]) + tail
  {
    hide Split, IsProgress, Remaining, Verdicts, Kept, Joined;
    var chunks := Parted(lines, tail, i);
    assert IsLine(lines[i]);
    var body, later := lines[i][..|lines[i]| - 1], lines[i + 1..];
    var first := Fed(parse, [chunks[0]]);
    assert first == Held([], true, Kept(parse, lines[..i]) + body) by {
      SplitOfLines(lines[..i], body);
      VerdictsKeep(parse, lines[..i]);
      FedOne(parse, chunks[0]);
      assert [] + chunks[0] == chunks[0];
    }
    var second := Fed(parse, chunks);
    assert chunks[..1] == [chunks[0]];
    assert second == FeedOn(parse, first, chunks[1]);
    var ended := [[NEWLINE]] + later;
    assert Split([] + chunks[1]) == Cut(ended, tail) by {
      assert AreLines(ended);
      SplitOfLines(ended, tail);
      JoinedConcat([[NEWLINE]], later);
      JoinedOne([NEWLINE]);
      assert [] + chunks[1] == Joined(ended) + tail;
    }
    EndWritten(parse, later);
    assert lines[i] == body + [NEWLINE];
    Reordered(Kept(parse, lines[..i]), body, [NEWLINE], Kept(parse, later), tail, |tail| > LIMIT);
  }

  lemma Reordered(a: Bytes, body: Bytes, nl: Bytes, later: Bytes, tail: Bytes, forward: bool)
    ensures ((a + body) + ((nl + later) + if forward then tail else [])) + (if forward then [] else tail) ==
            a + (body + nl) + later + tail
  {
  }

  lemma FedOne(parse: Bytes -> Option<Json>, chunk: Bytes)
    ensures Fed(parse, [chunk]) == FeedOn(parse, Held([], false, []), chunk)
  {
    hide Split;
    assert [chunk][..0] == [];
    assert Fed(parse, []) == Held([], false, []);
  }

  /** What is written of a log does not depend on how it is cut into chunks exactly when every
      progress record in it fits the limit; it is then the log without those records. */
  lemma ChunkingIff(parse: Bytes -> Option<Json>, log: Bytes)
    ensures (forall chunks :: Joined(chunks) == log ==> Filtered(parse, chunks) == WithoutProgress(parse, log)) <==>
            ProgressFits(parse, Split(log).lines)
    ensures Filtered(parse, [log]) == WithoutProgress(parse, log)
  {
    hide Split, IsProgress, Filtered, WithoutProgress, Kept, Joined;
    WholeLog(parse, log);
    if ProgressFits(parse, Split(log).lines) {
      forall chunks | Joined(chunks) == log ensures Filtered(parse, chunks) == WithoutProgress(parse, log) {
        FitsIndependent(parse, chunks);
      }
    } else {
      var lines, tail := Split(log).lines, Split(log).tail;
      var i :| 0 <= i < |lines| && IsProgress(parse, lines[i]) && |lines[i]| > LIMIT + 1;
      SplitIsLines(log);
      SplitJoins(log);
      PartedJoins(lines, tail, i);
      LongWritten(parse, log, i);
      assert Joined(Parted(lines, tail, i)) == log;
    }
  }

  lemma WholeLog(parse: Bytes -> Option<Json>, log: Bytes)
    ensures Filtered(parse, [log]) == WithoutProgress(parse, log)
  {
    hide Split, IsProgress, Remaining, Verdicts, Kept;
    FedOne(parse, log);
    assert [] + log == log;
    VerdictsKeep(parse, Split(log).lines);
    var kept, tail := Kept(parse, Split(log).lines), Split(log).tail;
    assert [] + (kept + tail) + [] == kept + tail && [] + (kept + []) + tail == kept + tail;
  }

  lemma LongWritten(parse: Bytes -> Option<Json>, log: Bytes, i: nat)
    requires var c := Split(log); i < |c.lines| && IsProgress(parse, c.lines[i]) && |c.lines[i]| > LIMIT + 1
    requires AreLines(Split(log).lines) && NEWLINE !in Split(log).tail
    ensures Filtered(parse, Parted(Split(log).lines, Split(log).tail, i)) != WithoutProgress(parse, log)
  {
    hide Split, IsProgress, Filtered, Kept;
    var lines, tail := Split(log).lines, Split(log).tail;
    PartedWritten(parse, lines, tail, i);
    KeptConcat(parse, lines[..i], [lines[i]]);
    KeptConcat(parse, lines[..i] + [lines[i]], lines[i + 1..]);
    assert lines == lines[..i] + [lines[i]] + lines[i + 1..];
    KeptOne(parse, lines[i]);
    var a, b := Kept(parse, lines[..i]), Kept(parse, lines[i + 1..]);
    assert |WithoutProgress(parse, log)| == |a| + |b| + |tail|;
    assert |Filtered(parse, Parted(lines, tail, i))| == |a| + |lines[i]| + |b| + |tail|;
  }

  lemma KeptOne(parse: Bytes -> Option<Json>, line: Bytes)
    requires IsProgress(parse, line)
    ensures Kept(parse, [line]) == []
  {
    hide IsProgress;
    assert [line][..0] == [];
  }

  lemma SplitOne(line: Bytes)
    requires IsLine(line)
    ensures Split(line) == Cut([line], [])
  {
    var front := line[..|line| - 1];
    NoLines(front);
    assert front + [NEWLINE] == line;
    assert [] + [line] == [line];
  }
}
