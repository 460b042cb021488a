/** Two more steps of the converter: where it says data labels lie, and how it keeps pushed
    values in pseudo-registers. */
module Assembly {
  import opened Wrappers
  import opened Folding

  // ----- Data labels -----

  /** A line of the input that lays out data. */
  datatype Item =
    | Section(name: string)
    | Align(multiple: nat)
    | Data(tag: Option<string>, count: int, unit: nat, values: nat)
    | Label(name: string)

  /** A line of the output. */
  datatype Directive = InSection(name: string) | P2Align(k: nat) | Bytes(n: nat) | Define(tag: string) | Code

  function BitLength(a: nat): (r: nat)
    ensures a > 0 ==> r > 0
  {
    if a == 0 then 0 else 1 + BitLength(a / 2)
  }

  function RoundUp(off: int, a: nat): int
    requires a > 0
  {
    (off + a - 1) / a * a
  }

  lemma Multiplied(p: int, q: int, a: nat)
    requires p <= q
    ensures p * a <= q * a
  {
  }

  /** Rounding gives the first multiple that is not before the offset. */
  lemma RoundUpFirst(off: int, a: nat, m: int)
    requires a > 0 && m * a >= off
    ensures off <= RoundUp(off, a) <= m * a
  {
    var q := (off + a - 1) / a;
    assert q * a <= off + a - 1 < q * a + a;
    assert m < q ==> m * a + a <= q * a by {
      if m < q { Multiplied(m + 1, q, a); }
    }
    Multiplied(q, m, a);
  }

  /** The power of two that an alignment prints as. */
  function Printed(a: nat): nat
    requires a > 0
  {
    Pow2(BitLength(a) - 1)
  }

  ghost predicate IsPow2(a: nat)
  {
    exists k: nat :: a == Pow2(k)
  }

  lemma {:induction false} BitLengthPow2(k: nat)
    ensures BitLength(Pow2(k)) == k + 1
  {
    if k > 0 { BitLengthPow2(k - 1); }
  }

  /** What an alignment prints as is a power of two, and is the alignment only if that is one. */
  lemma PrintedPow2(a: nat)
    requires a > 0
    ensures IsPow2(Printed(a)) && (a == Printed(a) <==> IsPow2(a))
  {
    if IsPow2(a) {
      var k: nat :| a == Pow2(k);
      BitLengthPow2(k);
    }
  }

  /** Printed alignments place everything where it was tracked exactly for powers of two. */
  lemma AlignExact(a: nat)
    requires a > 0
    ensures (forall off: int :: RoundUp(off, a) == RoundUp(off, Printed(a))) <==> IsPow2(a)
  {
    var b := Printed(a);
    PrintedPow2(a);
    OneUp(a);
    OneUp(b);
    if a != b { assert RoundUp(1, a) != RoundUp(1, b); }
  }

  lemma OneUp(a: nat)
    requires a > 0
    ensures RoundUp(1, a) == a
  {
  }

  /** What is printed is the greatest power of two that is not above the alignment meant. */
  lemma {:induction false} PrintedBounds(a: nat)
    requires a > 0
    ensures Printed(a) <= a < 2 * Printed(a)
  {
    if a > 1 {
      PrintedBounds(a / 2);
      assert Printed(a) == 2 * Printed(a / 2);
    } else {
      assert BitLength(1) == 1 && Pow2(0) == 1;
    }
  }

  const TEXT: string := ".text"

  /** What an assembler makes of the output: how full sections are, and where data labels lie. Of
      code nothing is tracked. */
  datatype Image = Image(section: string, sizes: map<string, int>, labels: map<string, Place>)

  function Filled(sizes: map<string, int>, section: string): int
  {
    if section in sizes then sizes[section] else 0
  }

  function AssembleOn(m: Image, d: Directive): Image
  {
    var at := Filled(m.sizes, m.section);
    match d
    case InSection(name) => m.(section := name)
    case P2Align(k) => m.(sizes := m.sizes[m.section := RoundUp(at, Pow2(k))])
    case Bytes(n) => m.(sizes := m.sizes[m.section := at + n])
    case Code => m
    case Define(tag) => if m.section == TEXT then m else m.(labels := m.labels[tag := Place(m.section, at)])
  }

  function Assemble(out: seq<Directive>): Image
  {
    if out == [] then Image("", map[], map[]) else AssembleOn(Assemble(out[..|out| - 1]), out[|out| - 1])
  }

  /** What the input means: its labels where they stand, its data as often as it is repeated (not at
      all for a negative number), after as much padding as its alignments ask for. */
  function MeantOn(m: Image, item: Item): Image
  {
    var at := Filled(m.sizes, m.section);
    match item
    case Section(name) => m.(section := name)
    case Align(a) => if a == 0 then m else m.(sizes := m.sizes[m.section := RoundUp(at, a)])
    case Data(tag, count, unit, values) =>
      if m.section == TEXT then m
      else
        var tagged := if tag.Some? then m.labels[tag.value := Place(m.section, at)] else m.labels;
        m.(labels := tagged, sizes := m.sizes[m.section := at + Repeated(unit * values, count)])
    case Label(name) => if m.section == TEXT then m else m.(labels := m.labels[name := Place(m.section, at)])
  }

  function Repeated(size: nat, count: int): nat
  {
    if count <= 0 then 0 else size + Repeated(size, count - 1)
  }

  lemma {:induction false} RepeatedIs(size: nat, count: int)
    ensures Repeated(size, count) == if count > 0 then size * count else 0
  {
    if count > 0 {
      RepeatedIs(size, count - 1);
      assert size * count == size + size * (count - 1);
    }
  }

  function Meant(items: seq<Item>): Image
  {
    if items == [] then Image("", map[], map[]) else MeantOn(Meant(items[..|items| - 1]), items[|items| - 1])
  }

  lemma MeantNext(items: seq<Item>, i: nat)
    requires i < |items|
    ensures Meant(items[..i + 1]) == MeantOn(Meant(items[..i]), items[i])
  {
    assert items[..i + 1][..i] == items[..i];
  }

  /** Every alignment is to a power of two. */
  ghost predicate AllAligned(items: seq<Item>)
  {
    forall i :: 0 <= i < |items| && items[i].Align? ==> IsPow2(items[i].multiple)
  }

  /** An item that is laid out as it is tracked: aligned to a power of two, or repeated a
      number of times that is not negative. */
  ghost predicate IsExact(item: Item)
  {
    match item
    case Align(a) => IsPow2(a)
    case Data(_, count, unit, values) => count >= 0 || unit * values == 0
    case _ => true
  }

  ghost predicate AllExact(items: seq<Item>)
  {
    forall i :: 0 <= i < |items| ==> IsExact(items[i])
  }

  lemma MeantNone()
    ensures Meant([]) == Image("", map[], map[])
  {
  }

  lemma AssembleNone()
    ensures Assemble([]) == Image("", map[], map[])
  {
  }

  lemma AssembleNext(out: seq<Directive>, d: Directive)
    ensures Assemble(out + [d]) == AssembleOn(Assemble(out), d)
  {
    assert (out + [d])[..|out + [d]| - 1] == out;
  }

  /** Lays out data. If every alignment is to a power of two, the output is laid out as the input
      means; if every item is exact, the recorded offset of each label is its position in the
      output. Only an alignment to zero is refused. */
  method LayOut(items: seq<Item>) returns (labels: Option<map<string, Place>>, out: seq<Directive>)
    ensures labels.Some? <==> Align(0) !in items
    ensures labels.Some? && AllExact(items) ==> labels.value == Assemble(out).labels
    ensures labels.Some? && AllAligned(items) ==> Assemble(out) == Meant(items)
  {
    hide Pow2, BitLength, Assemble, IsPow2, Meant, RoundUp, Repeated;
    assert Meant([]) == Image("", map[], map[]) by { MeantNone(); }
    AssembleNone();
    var section, sizes, places := "", map[], map[];
    out := [];
    for i := 0 to |items|
      invariant Align(0) !in items[..i]
      invariant AllExact(items[..i]) ==> Assemble(out) == Image(section, sizes, places)
      invariant AllAligned(items[..i]) ==> Assemble(out) == Meant(items[..i])
      invariant Meant(items[..i]).section == section == Assemble(out).section
    {
      MeantNext(items, i);
      assert AllAligned(items[..i + 1]) ==> AllAligned(items[..i]) && (items[i].Align? ==> IsPow2(items[i].multiple)) by {
        assert items[..i + 1][..i] == items[..i];
      }
      assert AllExact(items[..i + 1]) ==> AllExact(items[..i]) && IsExact(items[i]) by {
        assert items[..i + 1][..i] == items[..i];
      }
      var at := Filled(sizes, section);
      match items[i] {
        case Section(name) =>
          section := name;
          AssembleNext(out, InSection(name));
          out := out + [InSection(name)];
        case Align(a) =>
          if a == 0 { return None, out; }
          PrintedPow2(a);
          sizes := sizes[section := RoundUp(at, a)];
          AssembleNext(out, P2Align(BitLength(a) - 1));
          out := out + [P2Align(BitLength(a) - 1)];
        case Data(tag, count, unit, values) =>
          if section == TEXT {
            AssembleNext(out, Code);
            out := out + [Code];
            continue;
          }
          if tag.Some? {
            AssembleNext(out, Define(tag.value));
            places := places[tag.value := Place(section, at)];
            out := out + [Define(tag.value)];
          }
          var size := unit * values;
          sizes := sizes[section := at + size * count];
          var n: nat := if count > 0 then size * count else 0;
          RepeatedIs(size, count);
          AssembleNext(out, Bytes(n));
          out := out + [Bytes(n)];
        case Label(name) =>
          if section != TEXT { places := places[name := Place(section, at)]; }
          AssembleNext(out, Define(name));
          out := out + [Define(name)];
      }
    }
    assert items[..|items|] == items;
    labels := Some(places);
  }

  // ----- Pushes and pops -----

  type Reg = nat

  type Regs = map<Reg, int>

  /** Registers apart from the stack pointer, memory, and the values pushed. */
  datatype State = State(regs: Regs, memory: map<int, int>, stack: seq<int>)

  /** An instruction; a plain one acts on registers and memory alone. */
  datatype Instr =
    | Push(r: Reg)
    | Pop(r: Reg)
    | Plain(opening: bool, act: (Regs, map<int, int>) -> (Regs, map<int, int>))

  /** An instruction of the output: one of the input, or a move to or from a pseudo-register. */
  datatype Target = Same(i: Instr) | Save(slot: nat, r: Reg) | Load(r: Reg, slot: nat)

  function Read(regs: Regs, r: Reg): int
  {
    if r in regs then regs[r] else 0
  }

  /** Runs one instruction; popping what was never pushed fails. */
  function Step(i: Instr, s: State): Option<State>
  {
    match i
    case Push(r) => Some(s.(stack := s.stack + [Read(s.regs, r)]))
    case Pop(r) =>
      if s.stack == [] then None
      else Some(s.(regs := s.regs[r := s.stack[|s.stack| - 1]], stack := s.stack[..|s.stack| - 1]))
    case Plain(_, act) => var (regs, memory) := act(s.regs, s.memory); Some(State(regs, memory, s.stack))
  }

  function Run(code: seq<Instr>, s: State): Option<State>
    decreases |code|
  {
    if code == [] then Some(s)
    else
      var next := Step(code[0], s);
      if next.None? then None else Run(code[1..], next.value)
  }

  /** A state of the output, with its pseudo-registers. */
  datatype Wide = Wide(state: State, slots: map<nat, int>)

  function StepTarget(t: Target, w: Wide): Option<Wide>
  {
    match t
    case Same(i) => var next := Step(i, w.state); if next.None? then None else Some(w.(state := next.value))
    case Save(slot, r) => Some(w.(slots := w.slots[slot := Read(w.state.regs, r)]))
    case Load(r, slot) =>
      Some(w.(state := w.state.(regs := w.state.regs[r := if slot in w.slots then w.slots[slot] else 0])))
  }

  function RunTarget(code: seq<Target>, w: Wide): Option<Wide>
    decreases |code|
  {
    if code == [] then Some(w)
    else
      var next := StepTarget(code[0], w);
      if next.None? then None else RunTarget(code[1..], next.value)
  }

  /** Instructions that may open a function. */
  predicate IsOpening(i: Instr)
  {
    i.Push? || (i.Plain? && i.opening)
  }

  /** Where the conversion of a function is: in its opening, and how many values are saved. */
  datatype Mode = Mode(opening: bool, depth: nat)

  function Convert(i: Instr, m: Mode): (Target, Mode)
  {
    if m.opening && IsOpening(i) then (Same(i), m)
    else if i.Push? then (Save(m.depth, i.r), Mode(false, m.depth + 1))
    else if i.Pop? && m.depth > 0 then (Load(i.r, m.depth - 1), Mode(false, m.depth - 1))
    else (Same(i), Mode(false, m.depth))
  }

  function ConvertAll(code: seq<Instr>, m: Mode): (seq<Target>, Mode)
    decreases |code|
  {
    if code == [] then ([], m)
    else
      var (t, next) := Convert(code[0], m);
      var (rest, last) := ConvertAll(code[1..], next);
      ([t] + rest, last)
  }

  /** The values that slots hold. */
  function Saved(slots: map<nat, int>, depth: nat): seq<int>
  {
    if depth == 0 then [] else Saved(slots, depth - 1) + [if depth - 1 in slots then slots[depth - 1] else 0]
  }

  /** The output's state stands for the input's: same registers and memory, and the input's
      stack is the output's with the saved values on top. */
  ghost predicate Stands(s: State, w: Wide, m: Mode)
  {
    s.regs == w.state.regs && s.memory == w.state.memory && s.stack == w.state.stack + Saved(w.slots, m.depth) &&
    (m.opening ==> m.depth == 0)
  }

  lemma {:induction false} SavedOther(slots: map<nat, int>, depth: nat, slot: nat, v: int)
    requires slot >= depth
    ensures Saved(slots[slot := v], depth) == Saved(slots, depth)
  {
    if depth > 0 { SavedOther(slots, depth - 1, slot, v); }
  }

  lemma PushSimulates(r: Reg, s: State, w: Wide, depth: nat)
    requires Stands(s, w, Mode(false, depth))
    ensures Stands(Step(Push(r), s).value, StepTarget(Save(depth, r), w).value, Mode(false, depth + 1))
  {
    var v, saved := Read(s.regs, r), Saved(w.slots, depth);
    SavedOther(w.slots, depth, depth, v);
    assert Saved(w.slots[depth := v], depth + 1) == saved + [v];
    assert s.stack + [v] == w.state.stack + (saved + [v]);
  }

  lemma PopSimulates(r: Reg, s: State, w: Wide, depth: nat)
    requires Stands(s, w, Mode(false, depth)) && depth > 0
    ensures Step(Pop(r), s).Some?
    ensures Stands(Step(Pop(r), s).value, StepTarget(Load(r, depth - 1), w).value, Mode(false, depth - 1))
  {
    var n := depth - 1;
    var below, top := w.state.stack + Saved(w.slots, n), if n in w.slots then w.slots[n] else 0;
    assert s.stack == below + [top];
    assert s.stack[..|s.stack| - 1] == below && s.stack[|s.stack| - 1] == top;
  }

  /** An instruction that stays is run on the same stack while nothing is saved; a plain one does
      not touch the stack. */
  lemma SameSimulates(i: Instr, s: State, w: Wide, m: Mode)
    requires Stands(s, w, m) && (i.Plain? || m.depth == 0)
    ensures Step(i, s).None? <==> Step(i, w.state).None?
    ensures Step(i, s).Some? ==> Stands(Step(i, s).value, StepTarget(Same(i), w).value, m)
  {
    if m.depth == 0 {
      assert w.state.stack + [] == w.state.stack;
      assert s == w.state;
      if Step(i, s).Some? { assert Step(i, s).value.stack + [] == Step(i, s).value.stack; }
    }
  }

  lemma StepSimulates(i: Instr, s: State, w: Wide, m: Mode)
    requires Stands(s, w, m)
    ensures var (t, next) := Convert(i, m);
            (Step(i, s).None? <==> StepTarget(t, w).None?) &&
            (Step(i, s).Some? ==> Stands(Step(i, s).value, StepTarget(t, w).value, next))
  {
    hide Saved, Read;
    if i.Push? && !m.opening {
      PushSimulates(i.r, s, w, m.depth);
    } else if i.Pop? && m.depth > 0 {
      PopSimulates(i.r, s, w, m.depth);
    } else {
      SameSimulates(i, s, w, m);
    }
  }

  /** The output does what the input does, for straight-line code: it fails where the input
      fails, and otherwise ends in a state that stands for the input's. */
  lemma {:induction false} ConversionSimulates(code: seq<Instr>, s: State, w: Wide, m: Mode)
    requires Stands(s, w, m)
    ensures var (out, last) := ConvertAll(code, m);
            (Run(code, s).None? <==> RunTarget(out, w).None?) &&
            (Run(code, s).Some? ==> Stands(Run(code, s).value, RunTarget(out, w).value, last))
    decreases |code|
  {
    if code != [] {
      StepSimulates(code[0], s, w, m);
      var (t, next) := Convert(code[0], m);
      var (rest, last) := ConvertAll(code[1..], next);
      assert ([t] + rest)[1..] == rest;
      if Step(code[0], s).Some? {
        ConversionSimulates(code[1..], Step(code[0], s).value, StepTarget(t, w).value, next);
      }
    }
  }

  /** A function whose pushes after its opening are all popped ends as it did before, with the
      same registers, memory and stack. */
  lemma BalancedSame(code: seq<Instr>, s: State, slots: map<nat, int>)
    requires ConvertAll(code, Mode(true, 0)).1.depth == 0
    ensures var r := RunTarget(ConvertAll(code, Mode(true, 0)).0, Wide(s, slots));
            if r.None? then Run(code, s).None? else Run(code, s) == Some(r.value.state)
  {
    hide ConvertAll, Run, RunTarget;
    assert s.stack + [] == s.stack;
    ConversionSimulates(code, s, Wide(s, slots), Mode(true, 0));
    var r := RunTarget(ConvertAll(code, Mode(true, 0)).0, Wide(s, slots));
    if r.Some? { assert r.value.state.stack + [] == r.value.state.stack; }
  }

  // ----- What the conversion leaves -----

  /** The longest beginning that may open a function. */
  function OpeningOf(code: seq<Instr>): (k: nat)
    ensures k <= |code|
    ensures forall i :: 0 <= i < k ==> IsOpening(code[i])
    ensures k < |code| ==> !IsOpening(code[k])
  {
    if code == [] || !IsOpening(code[0]) then 0 else 1 + OpeningOf(code[1..])
  }

  /** The opening stays as it is, and the rest is converted with nothing saved. */
  lemma {:induction false} OpeningStays(code: seq<Instr>)
    ensures var k, out := OpeningOf(code), ConvertAll(code, Mode(true, 0)).0;
            |out| == |code| && (forall i :: 0 <= i < k ==> out[i] == Same(code[i])) &&
            out[k..] == ConvertAll(code[k..], Mode(false, 0)).0
    decreases |code|
  {
    SameLength(code, Mode(true, 0));
    if code == [] {
    } else if IsOpening(code[0]) {
      OpeningStays(code[1..]);
      var k := OpeningOf(code);
      assert code[k..] == code[1..][k - 1..];
      var out, rest := ConvertAll(code, Mode(true, 0)).0, ConvertAll(code[1..], Mode(true, 0)).0;
      assert out == [Same(code[0])] + rest;
      assert out[k..] == rest[k - 1..];
    } else {
      assert Convert(code[0], Mode(true, 0)) == Convert(code[0], Mode(false, 0));
      assert code[0..] == code;
    }
  }

  lemma {:induction false} SameLength(code: seq<Instr>, m: Mode)
    ensures |ConvertAll(code, m).0| == |code|
    decreases |code|
  {
    if code != [] { SameLength(code[1..], Convert(code[0], m).1); }
  }

  /** How many values some of the output saves and does not load again. */
  function Held(out: seq<Target>): int
  {
    if out == [] then 0
    else Held(out[..|out| - 1]) + (if out[|out| - 1].Save? then 1 else if out[|out| - 1].Load? then -1 else 0)
  }

  lemma {:induction false} HeldCons(t: Target, out: seq<Target>)
    ensures Held([t] + out) == (if t.Save? then 1 else if t.Load? then -1 else 0) + Held(out)
  {
    if out == [] {
      assert [t] + out == [t] && [t][..0] == [];
    } else {
      var n := |out| - 1;
      HeldCons(t, out[..n]);
      assert ([t] + out)[..n + 1] == [t] + out[..n];
    }
  }

  /** After the opening every push is a move to a pseudo-register; a pop stays only where nothing is
      saved, and everything else stays. */
  lemma {:induction false} AfterOpening(code: seq<Instr>, depth: nat, i: nat)
    requires i < |code|
    ensures var out := ConvertAll(code, Mode(false, depth)).0;
            |out| == |code| && depth + Held(out[..i]) >= 0 &&
            (code[i].Push? ==> out[i] == Save(depth + Held(out[..i]), code[i].r)) &&
            (code[i].Pop? ==> out[i] == if depth + Held(out[..i]) > 0 then Load(code[i].r, depth + Held(out[..i]) - 1) else Same(code[i])) &&
            (code[i].Plain? ==> out[i] == Same(code[i]))
    decreases |code|
  {
    hide Held;
    var out := ConvertAll(code, Mode(false, depth)).0;
    SameLength(code, Mode(false, depth));
    HeldNone();
    if i == 0 {
      assert out[..0] == [];
    } else {
      var (t, next) := Convert(code[0], Mode(false, depth));
      var rest := ConvertAll(code[1..], next).0;
      AfterOpening(code[1..], next.depth, i - 1);
      assert out == [t] + rest && out[..i] == [t] + rest[..i - 1] && code[i] == code[1..][i - 1];
      HeldCons(t, rest[..i - 1]);
    }
  }

  lemma HeldNone()
    ensures Held([]) == 0
  {
  }

  /** A function keeps its opening; after it no push is left, and a pop only if as many values were
      loaded as saved. */
  lemma ConversionLeaves(code: seq<Instr>, i: nat)
    requires i < |code|
    ensures var k, out := OpeningOf(code), ConvertAll(code, Mode(true, 0)).0;
            |out| == |code| &&
            if i < k then out[i] == Same(code[i])
            else
              var held := Held(out[k..i]);
              held >= 0 && (code[i].Push? ==> out[i] == Save(held, code[i].r)) &&
              (code[i].Pop? ==> out[i] == if held > 0 then Load(code[i].r, held - 1) else Same(code[i])) &&
              (code[i].Plain? ==> out[i] == Same(code[i]))
  {
    hide ConvertAll, Held;
    var k, out := OpeningOf(code), ConvertAll(code, Mode(true, 0)).0;
    OpeningStays(code);
    if i >= k {
      AfterOpening(code[k..], 0, i - k);
      assert out[k..][..i - k] == out[k..i] && out[k..][i - k] == out[i] && code[k..][i - k] == code[i];
    }
  }

  lemma ConvertNone(code: seq<Instr>, m: Mode)
    requires code == []
    ensures ConvertAll(code, m) == ([], m)
  {
  }

  lemma ConvertNext(code: seq<Instr>, i: nat, m: Mode)
    requires i < |code|
    ensures var (t, next) := Convert(code[i], m);
            var (rest, last) := ConvertAll(code[i + 1..], next);
            ConvertAll(code[i..], m) == ([t] + rest, last)
  {
    assert code[i..][0] == code[i] && code[i..][1..] == code[i + 1..];
  }

  /** Converts the instructions of a function in order. */
  method Annotate(code: seq<Instr>) returns (out: seq<Target>)
    ensures out == ConvertAll(code, Mode(true, 0)).0
  {
    hide ConvertAll;
    var opening, depth := true, 0;
    out := [];
    assert code[0..] == code && out + ConvertAll(code, Mode(true, 0)).0 == ConvertAll(code, Mode(true, 0)).0;
    for i := 0 to |code|
      invariant ConvertAll(code, Mode(true, 0)) ==
                (out + ConvertAll(code[i..], Mode(opening, depth)).0, ConvertAll(code[i..], Mode(opening, depth)).1)
    {
      ghost var m, done := Mode(opening, depth), out;
      var ins := code[i];
      ConvertNext(code, i, m);
      if opening && !IsOpening(ins) { opening := false; }
      if !opening && ins.Push? {
        out := out + [Save(depth, ins.r)];
        depth := depth + 1;
      } else if !opening && ins.Pop? && depth > 0 {
        depth := depth - 1;
        out := out + [Load(ins.r, depth)];
      } else {
        out := out + [Same(ins)];
      }
      assert Convert(ins, m) == (out[|out| - 1], Mode(opening, depth));
      assert done + ([out[|out| - 1]] + ConvertAll(code[i + 1..], Mode(opening, depth)).0) ==
             out + ConvertAll(code[i + 1..], Mode(opening, depth)).0;
    }
    ConvertNone(code[|code|..], Mode(opening, depth));
  }
}
