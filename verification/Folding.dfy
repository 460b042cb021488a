/** Address expressions of the converter: evaluated to linear combinations of registers and
    labels, and printed as one base, index, symbols and displacement. */
module Folding {
  import opened Wrappers

  datatype Expr =
    | Num(n: int)
    | Name(name: string)
    | Neg(a: Expr)
    | Add(a: Expr, b: Expr)
    | Sub(a: Expr, b: Expr)
    | Mul(a: Expr, b: Expr)
    | Div(a: Expr, b: Expr)
    | Shift(a: Expr, b: Expr, left: bool)

  datatype Term = Term(name: string, scale: int)

  /** A linear combination of names plus a constant; terms keep the order in which they came up. */
  datatype Lin = Lin(terms: seq<Term>, c: int)

  /** What an expression evaluates to: a plain number, or a combination. */
  datatype Value = Plain(n: int) | Linear(lin: Lin)

  /** Where a data label lies: its section and its offset there. */
  datatype Place = Place(section: string, offset: int)

  /** What earlier lines defined. */
  datatype Context = Context(consts: map<string, int>, labels: map<string, Place>, registers: set<string>)

  type Env = string -> int

  // ----- What an expression means -----

  /** Division rounds towards minus infinity. */
  function FloorDiv(a: int, b: int): int
    requires b != 0
  {
    if b > 0 then a / b else (-a) / (-b)
  }

  function Pow2(k: nat): (r: nat)
    ensures r > 0
  {
    if k == 0 then 1 else 2 * Pow2(k - 1)
  }

  function Shifted(a: int, k: nat, left: bool): int
  {
    if left then a * Pow2(k) else FloorDiv(a, Pow2(k))
  }

  /** The number that an expression stands for, given what registers and labels stand for. */
  function Meaning(x: Context, e: Expr, env: Env): Option<int>
  {
    match e
    case Num(n) => Some(n)
    case Name(name) => Some(if name in x.consts then x.consts[name] else env(name))
    case Neg(a) => var u := Meaning(x, a, env); if u.None? then None else Some(-u.value)
    case Add(a, b) => Both(Meaning(x, a, env), Meaning(x, b, env), (u, v) => u + v)
    case Sub(a, b) => Both(Meaning(x, a, env), Meaning(x, b, env), (u, v) => u - v)
    case Mul(a, b) => Both(Meaning(x, a, env), Meaning(x, b, env), (u, v) => u * v)
    case Div(a, b) =>
      var u, v := Meaning(x, a, env), Meaning(x, b, env);
      if u.None? || v.None? || v.value == 0 then None else Some(FloorDiv(u.value, v.value))
    case Shift(a, b, left) =>
      var u, v := Meaning(x, a, env), Meaning(x, b, env);
      if u.None? || v.None? || v.value < 0 then None else Some(Shifted(u.value, v.value, left))
  }

  function Both(u: Option<int>, v: Option<int>, f: (int, int) -> int): Option<int>
  {
    if u.None? || v.None? then None else Some(f(u.value, v.value))
  }

  function Sum(terms: seq<Term>, env: Env): int
  {
    if terms == [] then 0 else Sum(terms[..|terms| - 1], env) + terms[|terms| - 1].scale * env(terms[|terms| - 1].name)
  }

  function ValueOf(v: Value, env: Env): int
  {
    match v
    case Plain(n) => n
    case Linear(l) => Sum(l.terms, env) + l.c
  }

  /** Labels of one section lie as far apart as their offsets say. */
  ghost predicate Consistent(x: Context, env: Env)
  {
    forall p, q :: p in x.labels && q in x.labels && x.labels[p].section == x.labels[q].section ==>
      env(p) - env(q) == x.labels[p].offset - x.labels[q].offset
  }

  // ----- Arithmetic on combinations -----

  ghost predicate DistinctNames(terms: seq<Term>)
  {
    forall i, j :: 0 <= i < j < |terms| ==> terms[i].name != terms[j].name
  }

  function Of(v: Value): Lin
  {
    if v.Plain? then Lin([], v.n) else v.lin
  }

  /** Adds to the scale of a name, in its place or at the end. */
  function Put(terms: seq<Term>, t: Term): (r: seq<Term>)
  {
    if terms == [] then [t]
    else if terms[0].name == t.name then [Term(t.name, terms[0].scale + t.scale)] + terms[1..]
    else [terms[0]] + Put(terms[1..], t)
  }

  function PutAll(terms: seq<Term>, more: seq<Term>): seq<Term>
  {
    if more == [] then terms else Put(PutAll(terms, more[..|more| - 1]), more[|more| - 1])
  }

  function NonZero(terms: seq<Term>): seq<Term>
  {
    if terms == [] then []
    else NonZero(terms[..|terms| - 1]) + if terms[|terms| - 1].scale != 0 then [terms[|terms| - 1]] else []
  }

  function Scaled(terms: seq<Term>, n: int): (r: seq<Term>)
    ensures |r| == |terms| && forall i :: 0 <= i < |r| ==> r[i] == Term(terms[i].name, terms[i].scale * n)
  {
    seq(|terms|, i requires 0 <= i < |terms| => Term(terms[i].name, terms[i].scale * n))
  }

  function AddLin(a: Lin, b: Lin): Lin
  {
    Lin(NonZero(PutAll(a.terms, b.terms)), a.c + b.c)
  }

  function Times(a: Lin, n: int): Lin
  {
    Lin(Scaled(a.terms, n), a.c * n)
  }

  function AddValues(u: Value, v: Value): Value
  {
    if u.Plain? && v.Plain? then Plain(u.n + v.n) else if u.Plain? then Linear(AddLin(v.lin, Of(u))) else Linear(AddLin(u.lin, Of(v)))
  }

  function NegValue(u: Value): Value
  {
    if u.Plain? then Plain(-u.n) else Linear(Times(u.lin, -1))
  }

  function SubValues(u: Value, v: Value): Value
  {
    if u.Plain? && v.Plain? then Plain(u.n - v.n) else Linear(AddLin(Of(u), Times(Of(v), -1)))
  }

  /** A product of two combinations with terms is refused. */
  function MulValues(u: Value, v: Value): Option<Value>
  {
    if u.Plain? && v.Plain? then Some(Plain(u.n * v.n))
    else if u.Plain? then Some(Linear(Times(v.lin, u.n)))
    else if v.Plain? then Some(Linear(Times(u.lin, v.n)))
    else if u.lin.terms != [] && v.lin.terms != [] then None
    else if v.lin.terms == [] then Some(Linear(Times(u.lin, v.lin.c)))
    else Some(Linear(Times(v.lin, u.lin.c)))
  }

  /** Only numbers are divided, by numbers. */
  function DivValues(u: Value, v: Value): Option<Value>
  {
    if v.Linear? || v.n == 0 || (u.Linear? && u.lin.terms != []) then None
    else Some(Plain(FloorDiv(if u.Plain? then u.n else u.lin.c, v.n)))
  }

  /** Only numbers are shifted, by numbers. */
  function ShiftValues(u: Value, v: Value, left: bool): Option<Value>
  {
    if u.Linear? || v.Linear? || v.n < 0 then None else Some(Plain(Shifted(u.n, v.n, left)))
  }

  function Compute(x: Context, e: Expr): Option<Value>
  {
    match e
    case Num(n) => Some(Plain(n))
    case Name(name) => Some(if name in x.consts then Plain(x.consts[name]) else Linear(Lin([Term(name, 1)], 0)))
    case Neg(a) => var u := Compute(x, a); if u.None? then None else Some(NegValue(u.value))
    case Add(a, b) =>
      var u, v := Compute(x, a), Compute(x, b);
      if u.None? || v.None? then None else Some(AddValues(u.value, v.value))
    case Sub(a, b) =>
      var u, v := Compute(x, a), Compute(x, b);
      if u.None? || v.None? then None else Some(SubValues(u.value, v.value))
    case Mul(a, b) =>
      var u, v := Compute(x, a), Compute(x, b);
      if u.None? || v.None? then None else MulValues(u.value, v.value)
    case Div(a, b) =>
      var u, v := Compute(x, a), Compute(x, b);
      if u.None? || v.None? then None else DivValues(u.value, v.value)
    case Shift(a, b, left) =>
      var u, v := Compute(x, a), Compute(x, b);
      if u.None? || v.None? then None else ShiftValues(u.value, v.value, left)
  }

  // ----- Label differences -----

  /** Terms of a given scale that name data labels. */
  function LabelsAt(x: Context, terms: seq<Term>, scale: int): seq<Term>
  {
    if terms == [] then []
    else
      var t := terms[|terms| - 1];
      LabelsAt(x, terms[..|terms| - 1], scale) + if t.scale == scale && t.name in x.labels then [t] else []
  }

  function Without(terms: seq<Term>, p: string, q: string): seq<Term>
  {
    if terms == [] then []
    else
      var t := terms[|terms| - 1];
      Without(terms[..|terms| - 1], p, q) + if t.name != p && t.name != q then [t] else []
  }

  /** If one label of a section is added and one is subtracted, their distance is a number. */
  function Resolve(x: Context, l: Lin): Lin
  {
    var pos, neg := LabelsAt(x, l.terms, 1), LabelsAt(x, l.terms, -1);
    if |pos| == 1 && |neg| == 1 && pos[0].name in x.labels && neg[0].name in x.labels &&
       x.labels[pos[0].name].section == x.labels[neg[0].name].section
    then Lin(Without(l.terms, pos[0].name, neg[0].name), l.c + x.labels[pos[0].name].offset - x.labels[neg[0].name].offset)
    else l
  }

  function Evaluate(x: Context, e: Expr): Option<Value>
  {
    var v := Compute(x, e);
    if v.Some? && v.value.Linear? then Some(Linear(Resolve(x, v.value.lin))) else v
  }

  // ----- Printing -----

  /** A summand of a printed address. */
  datatype Part = Reg(name: string) | Index(name: string, scale: int) | Symbol(name: string, minus: bool) | Disp(n: int)

  function PartValue(p: Part, env: Env): int
  {
    match p
    case Reg(name) => env(name)
    case Index(name, scale) => env(name) * scale
    case Symbol(name, minus) => if minus then -env(name) else env(name)
    case Disp(n) => n
  }

  function Total(parts: seq<Part>, env: Env): int
  {
    if parts == [] then 0 else Total(parts[..|parts| - 1], env) + PartValue(parts[|parts| - 1], env)
  }

  /** What a term can be in an address. */
  datatype Role = Base | Multiple | Outside

  function RoleOf(x: Context, t: Term): Role
  {
    if t.name !in x.registers then Outside else if t.scale == 1 then Base else Multiple
  }

  function Select(x: Context, terms: seq<Term>, role: Role): seq<Term>
  {
    if terms == [] then []
    else
      var t := terms[|terms| - 1];
      Select(x, terms[..|terms| - 1], role) + if RoleOf(x, t) == role then [t] else []
  }

  /** The base registers and scaled registers; three, five and nine times one register alone is
      itself plus two, four and eight times it. */
  function Registers(x: Context, terms: seq<Term>): (seq<Term>, seq<Term>)
  {
    var base, idx := Select(x, terms, Base), Select(x, terms, Multiple);
    if base == [] && |idx| == 1 && (idx[0].scale == 3 || idx[0].scale == 5 || idx[0].scale == 9)
    then ([Term(idx[0].name, 1)], [Term(idx[0].name, idx[0].scale - 1)])
    else (base, idx)
  }

  /** The parts that registers print as, unless no addressing mode has so many. */
  function RegisterParts(base: seq<Term>, idx: seq<Term>): Option<seq<Part>>
  {
    if |base| == 2 && idx == [] then Some([Reg(base[0].name), Reg(base[1].name)])
    else if |base| == 1 && |idx| <= 1 then
      Some([Reg(base[0].name)] + if idx == [] then [] else [Index(idx[0].name, idx[0].scale)])
    else if base == [] && |idx| == 1 then Some([Index(idx[0].name, idx[0].scale)])
    else if base == [] && idx == [] then Some([])
    else None
  }

  function SymbolParts(syms: seq<Term>): Option<seq<Part>>
  {
    if syms == [] then Some([])
    else
      var before, t := SymbolParts(syms[..|syms| - 1]), syms[|syms| - 1];
      if before.None? || (t.scale != 1 && t.scale != -1) then None
      else Some(before.value + [Symbol(t.name, t.scale == -1)])
  }

  predicate StartsWithMinus(parts: seq<Part>)
  {
    parts != [] && ((parts[0].Symbol? && parts[0].minus) || (parts[0].Disp? && parts[0].n < 0))
  }

  /** Prints a bracketed operand, or refuses it. */
  function FoldAddress(x: Context, e: Expr): Option<seq<Part>>
  {
    var v := Evaluate(x, e);
    if v.None? then None
    else
      var l := Of(v.value);
      var (base, idx) := Registers(x, l.terms);
      var regs, syms := RegisterParts(base, idx), SymbolParts(Select(x, l.terms, Outside));
      if regs.None? || syms.None? then None
      else
        var named := regs.value + syms.value;
        var parts := named + if l.c != 0 || named == [] then [Disp(l.c)] else [];
        if StartsWithMinus(parts) then None else Some(parts)
  }

  // ----- Meaning is preserved -----

  lemma {:induction false} SumFrom(terms: seq<Term>, env: Env)
    requires terms != []
    ensures Sum(terms, env) == terms[0].scale * env(terms[0].name) + Sum(terms[1..], env)
  {
    var n := |terms| - 1;
    if n > 0 {
      SumFrom(terms[..n], env);
      assert terms[..n][1..] == terms[1..][..n - 1] && terms[1..][n - 1] == terms[n];
    } else {
      assert terms[..0] == [] && terms[1..] == [];
    }
  }

  lemma {:induction false} PutSum(terms: seq<Term>, t: Term, env: Env)
    ensures Sum(Put(terms, t), env) == Sum(terms, env) + t.scale * env(t.name)
  {
    var r := Put(terms, t);
    SumFrom(r, env);
    if terms == [] {
      assert r[1..] == [];
    } else {
      SumFrom(terms, env);
      assert r[1..] == if terms[0].name == t.name then terms[1..] else Put(terms[1..], t);
      if terms[0].name == t.name {
        assert (terms[0].scale + t.scale) * env(t.name) == terms[0].scale * env(t.name) + t.scale * env(t.name);
      } else {
        PutSum(terms[1..], t, env);
      }
    }
  }

  lemma {:induction false} PutAllSum(terms: seq<Term>, more: seq<Term>, env: Env)
    ensures Sum(PutAll(terms, more), env) == Sum(terms, env) + Sum(more, env)
  {
    if more != [] {
      PutAllSum(terms, more[..|more| - 1], env);
      PutSum(PutAll(terms, more[..|more| - 1]), more[|more| - 1], env);
    }
  }

  lemma {:induction false} SumSnoc(terms: seq<Term>, t: Term, env: Env)
    ensures Sum(terms + [t], env) == Sum(terms, env) + t.scale * env(t.name)
  {
    assert (terms + [t])[..|terms|] == terms;
  }

  lemma {:induction false} NonZeroSum(terms: seq<Term>, env: Env)
    ensures Sum(NonZero(terms), env) == Sum(terms, env)
  {
    if terms != [] {
      var n := |terms| - 1;
      NonZeroSum(terms[..n], env);
      if terms[n].scale != 0 {
        SumSnoc(NonZero(terms[..n]), terms[n], env);
      } else {
        assert NonZero(terms) == NonZero(terms[..n]);
      }
    }
  }

  lemma {:induction false} ScaledSum(terms: seq<Term>, n: int, env: Env)
    ensures Sum(Scaled(terms, n), env) == Sum(terms, env) * n
  {
    if terms != [] {
      var k := |terms| - 1;
      ScaledSum(terms[..k], n, env);
      assert Scaled(terms, n)[..k] == Scaled(terms[..k], n);
      var s, y := terms[k].scale, env(terms[k].name);
      assert (s * n) * y == (s * y) * n;
      assert (Sum(terms[..k], env) + s * y) * n == Sum(terms[..k], env) * n + (s * y) * n;
    }
  }

  lemma AddLinValue(a: Lin, b: Lin, env: Env)
    ensures ValueOf(Linear(AddLin(a, b)), env) == ValueOf(Linear(a), env) + ValueOf(Linear(b), env)
  {
    PutAllSum(a.terms, b.terms, env);
    NonZeroSum(PutAll(a.terms, b.terms), env);
  }

  lemma TimesValue(a: Lin, n: int, env: Env)
    ensures ValueOf(Linear(Times(a, n)), env) == ValueOf(Linear(a), env) * n
  {
    ScaledSum(a.terms, n, env);
    assert (Sum(a.terms, env) + a.c) * n == Sum(a.terms, env) * n + a.c * n;
  }

  lemma OfValue(v: Value, env: Env)
    ensures ValueOf(Linear(Of(v)), env) == ValueOf(v, env)
  {
  }

  /** Every operation on values computes on what they stand for. */
  lemma OperationsCompute(u: Value, v: Value, env: Env)
    ensures ValueOf(NegValue(u), env) == -ValueOf(u, env)
    ensures ValueOf(AddValues(u, v), env) == ValueOf(u, env) + ValueOf(v, env)
    ensures ValueOf(SubValues(u, v), env) == ValueOf(u, env) - ValueOf(v, env)
    ensures MulValues(u, v).Some? ==> ValueOf(MulValues(u, v).value, env) == ValueOf(u, env) * ValueOf(v, env)
    ensures DivValues(u, v).Some? ==>
              ValueOf(v, env) != 0 && ValueOf(DivValues(u, v).value, env) == FloorDiv(ValueOf(u, env), ValueOf(v, env))
  {
    hide AddLin, Times, FloorDiv;
    OfValue(u, env);
    OfValue(v, env);
    if u.Linear? { TimesValue(u.lin, -1, env); }
    AddLinValue(Of(v), Of(u), env);
    AddLinValue(Of(u), Of(v), env);
    TimesValue(Of(v), -1, env);
    AddLinValue(Of(u), Times(Of(v), -1), env);
    TimesValue(Of(v), Of(u).c, env);
    TimesValue(Of(u), Of(v).c, env);
  }

  lemma {:induction false} ComputeMeans(x: Context, e: Expr, env: Env)
    requires Compute(x, e).Some?
    ensures Meaning(x, e, env) == Some(ValueOf(Compute(x, e).value, env))
  {
    hide NegValue, AddValues, SubValues, MulValues, DivValues, FloorDiv, Shifted;
    match e {
      case Num(_) =>
      case Name(name) => NameMeans(x, name, env);
      case Neg(a) =>
        ComputeMeans(x, a, env);
        OperationsCompute(Compute(x, a).value, Compute(x, a).value, env);
      case Add(a, b) =>
        ComputeMeans(x, a, env);
        ComputeMeans(x, b, env);
        OperationsCompute(Compute(x, a).value, Compute(x, b).value, env);
      case Sub(a, b) =>
        ComputeMeans(x, a, env);
        ComputeMeans(x, b, env);
        OperationsCompute(Compute(x, a).value, Compute(x, b).value, env);
      case Mul(a, b) =>
        ComputeMeans(x, a, env);
        ComputeMeans(x, b, env);
        OperationsCompute(Compute(x, a).value, Compute(x, b).value, env);
      case Div(a, b) =>
        ComputeMeans(x, a, env);
        ComputeMeans(x, b, env);
        OperationsCompute(Compute(x, a).value, Compute(x, b).value, env);
      case Shift(a, b, left) =>
        ComputeMeans(x, a, env);
        ComputeMeans(x, b, env);
    }
  }

  lemma NameMeans(x: Context, name: string, env: Env)
    ensures ValueOf(Linear(Lin([Term(name, 1)], 0)), env) == env(name)
  {
    SumSnoc([], Term(name, 1), env);
    assert [] + [Term(name, 1)] == [Term(name, 1)];
  }

  // ----- What evaluates -----

  /** All names stand for numbers. */
  predicate Closed(x: Context, e: Expr)
  {
    match e
    case Num(_) => true
    case Name(name) => name in x.consts
    case Neg(a) => Closed(x, a)
    case Add(a, b) => Closed(x, a) && Closed(x, b)
    case Sub(a, b) => Closed(x, a) && Closed(x, b)
    case Mul(a, b) => Closed(x, a) && Closed(x, b)
    case Div(a, b) => Closed(x, a) && Closed(x, b)
    case Shift(a, b, _) => Closed(x, a) && Closed(x, b)
  }

  /** An expression whose names all stand for numbers evaluates exactly if it has a meaning, and to a
      number. */
  lemma {:induction false} ClosedComputes(x: Context, e: Expr, env: Env)
    requires Closed(x, e)
    ensures Compute(x, e).Some? <==> Meaning(x, e, env).Some?
    ensures Compute(x, e).Some? ==> Compute(x, e).value.Plain?
  {
    hide FloorDiv, Shifted;
    match e {
      case Num(_) =>
      case Name(_) =>
      case Neg(a) => ClosedComputes(x, a, env);
      case Add(a, b) => ClosedComputes(x, a, env); ClosedComputes(x, b, env);
      case Sub(a, b) => ClosedComputes(x, a, env); ClosedComputes(x, b, env);
      case Mul(a, b) => ClosedComputes(x, a, env); ClosedComputes(x, b, env);
      case Div(a, b) =>
        ClosedComputes(x, a, env);
        ClosedComputes(x, b, env);
        if Compute(x, b).Some? { ComputeMeans(x, b, env); }
      case Shift(a, b, _) =>
        ClosedComputes(x, a, env);
        ClosedComputes(x, b, env);
        if Compute(x, b).Some? { ComputeMeans(x, b, env); }
    }
  }

  /** Names added, subtracted, and taken a number of times. */
  ghost predicate IsLinear(x: Context, e: Expr)
  {
    match e
    case Num(_) => true
    case Name(_) => true
    case Neg(a) => IsLinear(x, a)
    case Add(a, b) => IsLinear(x, a) && IsLinear(x, b)
    case Sub(a, b) => IsLinear(x, a) && IsLinear(x, b)
    case Mul(a, b) => (IsNumber(x, a) && IsLinear(x, b)) || (IsLinear(x, a) && IsNumber(x, b))
    case Div(_, _) => IsNumber(x, e)
    case Shift(_, _, _) => IsNumber(x, e)
  }

  ghost predicate IsNumber(x: Context, e: Expr)
  {
    Closed(x, e) && Meaning(x, e, _ => 0).Some?
  }

  /** Every such expression evaluates: nothing that an address can hold is refused before it is seen
      whether a mode has it. */
  lemma {:induction false} LinearComputes(x: Context, e: Expr)
    requires IsLinear(x, e)
    ensures Compute(x, e).Some?
  {
    hide Closed, Meaning;
    match e {
      case Num(_) =>
      case Name(_) =>
      case Neg(a) => LinearComputes(x, a);
      case Add(a, b) => LinearComputes(x, a); LinearComputes(x, b);
      case Sub(a, b) => LinearComputes(x, a); LinearComputes(x, b);
      case Mul(a, b) =>
        if IsNumber(x, a) && IsLinear(x, b) {
          ClosedComputes(x, a, _ => 0);
          LinearComputes(x, b);
        } else {
          LinearComputes(x, a);
          ClosedComputes(x, b, _ => 0);
        }
      case Div(_, _) => ClosedComputes(x, e, _ => 0);
      case Shift(_, _, _) => ClosedComputes(x, e, _ => 0);
    }
  }

  lemma PairNonZero(t: Term, u: Term)
    requires t.scale != 0 && u.scale != 0
    ensures NonZero([t, u]) == [t, u]
  {
    assert [t, u][..1] == [t] && [t][..0] == [];
    assert NonZero([t]) == NonZero([t][..0]) + [t];
  }

  lemma PairPut(t: Term, u: Term)
    requires t.name != u.name
    ensures PutAll([t], [u]) == [t, u]
  {
    assert [u][..0] == [] && [t][1..] == [];
    assert Put([t], u) == [t] + Put([t][1..], u);
  }

  lemma PairLabels(x: Context, t: Term, u: Term, scale: int)
    ensures LabelsAt(x, [t, u], scale) ==
            (if t.scale == scale && t.name in x.labels then [t] else []) + (if u.scale == scale && u.name in x.labels then [u] else [])
  {
    assert [t, u][..1] == [t] && [t][..0] == [];
    assert LabelsAt(x, [t], scale) == LabelsAt(x, [t][..0], scale) + if t.scale == scale && t.name in x.labels then [t] else [];
  }

  lemma PairWithout(t: Term, u: Term)
    ensures Without([t, u], t.name, u.name) == []
  {
    assert [t, u][..1] == [t] && [t][..0] == [];
    assert Without([t], t.name, u.name) == Without([t][..0], t.name, u.name);
  }

  /** The difference of two names. */
  lemma DifferenceIs(x: Context, p: string, q: string)
    requires p != q && p !in x.consts && q !in x.consts
    ensures Compute(x, Sub(Name(p), Name(q))) == Some(Linear(Lin([Term(p, 1), Term(q, -1)], 0)))
  {
    hide PutAll, NonZero;
    var a, b := Term(p, 1), Term(q, -1);
    PairPut(a, b);
    PairNonZero(a, b);
    assert Scaled([Term(q, 1)], -1) == [b];
  }

  /** The distance of two data labels of one section is replaced by its number. */
  lemma LabelDistance(x: Context, p: string, q: string)
    requires p != q && p !in x.consts && q !in x.consts && p in x.labels && q in x.labels && x.labels[p].section == x.labels[q].section
    ensures FoldImmediate(x, Sub(Name(p), Name(q))) == Some(x.labels[p].offset - x.labels[q].offset)
  {
    hide Compute, LabelsAt, Without;
    var a, b := Term(p, 1), Term(q, -1);
    DifferenceIs(x, p, q);
    PairLabels(x, a, b, 1);
    PairLabels(x, a, b, -1);
    PairWithout(a, b);
  }

  // ----- Label differences keep the value -----

  /** A name keeps its place, or is new and comes last. */
  lemma {:induction false} PutNames(terms: seq<Term>, t: Term)
    ensures var r := Put(terms, t);
            |terms| <= |r| <= |terms| + 1 && (forall i :: 0 <= i < |terms| ==> r[i].name == terms[i].name) &&
            (|r| > |terms| ==> r[|terms|].name == t.name && forall i :: 0 <= i < |terms| ==> terms[i].name != t.name)
  {
    if terms != [] && terms[0].name != t.name {
      PutNames(terms[1..], t);
    }
  }

  lemma {:induction false} PutAllDistinct(terms: seq<Term>, more: seq<Term>)
    requires DistinctNames(terms)
    ensures DistinctNames(PutAll(terms, more))
  {
    if more != [] {
      PutAllDistinct(terms, more[..|more| - 1]);
      PutNames(PutAll(terms, more[..|more| - 1]), more[|more| - 1]);
    }
  }

  lemma {:induction false} NonZeroDistinct(terms: seq<Term>)
    requires DistinctNames(terms)
    ensures DistinctNames(NonZero(terms)) && forall t :: t in NonZero(terms) ==> t in terms
  {
    if terms != [] {
      var n := |terms| - 1;
      NonZeroDistinct(terms[..n]);
      var r := NonZero(terms[..n]);
      forall i | 0 <= i < |r| ensures r[i].name != terms[n].name {
        assert r[i] in terms[..n];
      }
    }
  }

  ghost predicate Tidy(v: Value)
  {
    v.Linear? ==> DistinctNames(v.lin.terms)
  }

  lemma AddTidy(a: Lin, b: Lin)
    requires DistinctNames(a.terms)
    ensures DistinctNames(AddLin(a, b).terms)
  {
    PutAllDistinct(a.terms, b.terms);
    NonZeroDistinct(PutAll(a.terms, b.terms));
  }

  /** No name occurs twice in a combination. */
  lemma {:induction false} ComputeTidy(x: Context, e: Expr)
    requires Compute(x, e).Some?
    ensures Tidy(Compute(x, e).value)
  {
    hide DistinctNames, AddValues, SubValues, MulValues, NegValue;
    match e {
      case Num(_) =>
      case Name(name) => OneDistinct(Term(name, 1));
      case Neg(a) =>
        ComputeTidy(x, a);
        OperationsTidy(Compute(x, a).value, Plain(0));
      case Add(a, b) =>
        ComputeTidy(x, a);
        ComputeTidy(x, b);
        OperationsTidy(Compute(x, a).value, Compute(x, b).value);
      case Sub(a, b) =>
        ComputeTidy(x, a);
        ComputeTidy(x, b);
        OperationsTidy(Compute(x, a).value, Compute(x, b).value);
      case Mul(a, b) =>
        ComputeTidy(x, a);
        ComputeTidy(x, b);
        OperationsTidy(Compute(x, a).value, Compute(x, b).value);
      case Div(_, _) =>
      case Shift(_, _, _) =>
    }
  }

  lemma OperationsTidy(u: Value, v: Value)
    requires Tidy(u) && Tidy(v)
    ensures Tidy(NegValue(u)) && Tidy(AddValues(u, v)) && Tidy(SubValues(u, v))
    ensures MulValues(u, v).Some? ==> Tidy(MulValues(u, v).value)
  {
    hide DistinctNames, AddLin, Times;
    OneDistinct(Term("", 0));
    var a, b := Of(u), Of(v);
    AddTidy(a, b);
    AddTidy(b, a);
    AddTidy(a, Times(b, -1));
    TimesTidy(a, -1);
    TimesTidy(a, b.c);
    TimesTidy(b, a.c);
  }

  lemma OneDistinct(t: Term)
    ensures DistinctNames([t]) && DistinctNames([])
  {
  }

  lemma TimesTidy(a: Lin, n: int)
    requires DistinctNames(a.terms)
    ensures DistinctNames(Times(a, n).terms)
  {
  }

  /** The scale of a name, all its terms together. */
  function ScaleOf(terms: seq<Term>, name: string): int
  {
    if terms == [] then 0
    else ScaleOf(terms[..|terms| - 1], name) + if terms[|terms| - 1].name == name then terms[|terms| - 1].scale else 0
  }

  lemma Distribute(a: int, b: int, c: int)
    ensures (a + b) * c == a * c + b * c
  {
  }

  lemma {:induction false} WithoutSum(terms: seq<Term>, p: string, q: string, env: Env)
    requires p != q
    ensures Sum(terms, env) == Sum(Without(terms, p, q), env) + ScaleOf(terms, p) * env(p) + ScaleOf(terms, q) * env(q)
  {
    if terms != [] {
      var n := |terms| - 1;
      var t, rest := terms[n], Without(terms[..n], p, q);
      WithoutSum(terms[..n], p, q, env);
      Distribute(ScaleOf(terms[..n], p), t.scale, env(p));
      Distribute(ScaleOf(terms[..n], q), t.scale, env(q));
      if t.name == p || t.name == q {
        assert Without(terms, p, q) == rest;
      } else {
        SumSnoc(rest, t, env);
      }
    }
  }

  lemma {:induction false} ScaleOfAbsent(terms: seq<Term>, name: string)
    requires forall i :: 0 <= i < |terms| ==> terms[i].name != name
    ensures ScaleOf(terms, name) == 0
  {
    if terms != [] { ScaleOfAbsent(terms[..|terms| - 1], name); }
  }

  lemma {:induction false} ScaleOfMember(terms: seq<Term>, t: Term)
    requires DistinctNames(terms) && t in terms
    ensures ScaleOf(terms, t.name) == t.scale
  {
    var n := |terms| - 1;
    if terms[n] == t {
      ScaleOfAbsent(terms[..n], t.name);
    } else {
      assert t in terms[..n];
      ScaleOfMember(terms[..n], t);
    }
  }

  lemma {:induction false} LabelsAtMembers(x: Context, terms: seq<Term>, scale: int)
    ensures forall t :: t in LabelsAt(x, terms, scale) ==> t in terms && t.scale == scale && t.name in x.labels
  {
    if terms != [] { LabelsAtMembers(x, terms[..|terms| - 1], scale); }
  }

  /** Resolving a label difference keeps the value wherever labels lie as recorded. */
  lemma ResolveValue(x: Context, l: Lin, env: Env)
    requires DistinctNames(l.terms) && Consistent(x, env)
    ensures ValueOf(Linear(Resolve(x, l)), env) == ValueOf(Linear(l), env)
  {
    var pos, neg := LabelsAt(x, l.terms, 1), LabelsAt(x, l.terms, -1);
    if Resolve(x, l) != l {
      LabelsAtMembers(x, l.terms, 1);
      LabelsAtMembers(x, l.terms, -1);
      var p, q := pos[0], neg[0];
      assert p in pos && q in neg;
      ScaleOfMember(l.terms, p);
      ScaleOfMember(l.terms, q);
      WithoutSum(l.terms, p.name, q.name, env);
      assert ValueOf(Linear(l), env) == Sum(Without(l.terms, p.name, q.name), env) + env(p.name) - env(q.name) + l.c;
    }
  }

  lemma EvaluateMeans(x: Context, e: Expr, env: Env)
    requires Evaluate(x, e).Some? && Consistent(x, env)
    ensures Meaning(x, e, env) == Some(ValueOf(Evaluate(x, e).value, env))
  {
    hide Resolve, DistinctNames, Consistent;
    ComputeMeans(x, e, env);
    ComputeTidy(x, e);
    var v := Compute(x, e).value;
    if v.Linear? { ResolveValue(x, v.lin, env); }
  }

  // ----- Printing keeps the value -----

  lemma {:induction false} SelectSum(x: Context, terms: seq<Term>, env: Env)
    ensures Sum(terms, env) ==
            Sum(Select(x, terms, Base), env) + Sum(Select(x, terms, Multiple), env) + Sum(Select(x, terms, Outside), env)
    ensures forall t :: t in Select(x, terms, Base) ==> t.scale == 1
  {
    if terms != [] {
      var n := |terms| - 1;
      var t := terms[n];
      SelectSum(x, terms[..n], env);
      SelectSnoc(x, terms, Base, env);
      SelectSnoc(x, terms, Multiple, env);
      SelectSnoc(x, terms, Outside, env);
    }
  }

  lemma SelectSnoc(x: Context, terms: seq<Term>, role: Role, env: Env)
    requires terms != []
    ensures var t := terms[|terms| - 1];
            Sum(Select(x, terms, role), env) ==
            Sum(Select(x, terms[..|terms| - 1], role), env) + if RoleOf(x, t) == role then t.scale * env(t.name) else 0
  {
    var t := terms[|terms| - 1];
    if RoleOf(x, t) == role {
      SumSnoc(Select(x, terms[..|terms| - 1], role), t, env);
    } else {
      assert Select(x, terms, role) == Select(x, terms[..|terms| - 1], role);
    }
  }

  lemma {:induction false} TotalSnoc(parts: seq<Part>, p: Part, env: Env)
    ensures Total(parts + [p], env) == Total(parts, env) + PartValue(p, env)
  {
    assert (parts + [p])[..|parts|] == parts;
  }

  lemma {:induction false} TotalJoins(a: seq<Part>, b: seq<Part>, env: Env)
    ensures Total(a + b, env) == Total(a, env) + Total(b, env)
    decreases |b|
  {
    if b == [] {
      assert a + b == a;
    } else {
      TotalJoins(a, b[..|b| - 1], env);
      assert (a + b)[..|a + b| - 1] == a + b[..|b| - 1];
    }
  }

  lemma {:induction false} SymbolsTotal(syms: seq<Term>, env: Env)
    requires SymbolParts(syms).Some?
    ensures Total(SymbolParts(syms).value, env) == Sum(syms, env)
  {
    if syms != [] {
      var n := |syms| - 1;
      SymbolsTotal(syms[..n], env);
      TotalSnoc(SymbolParts(syms[..n]).value, Symbol(syms[n].name, syms[n].scale == -1), env);
    }
  }

  lemma SumOne(t: Term, env: Env)
    ensures Sum([t], env) == t.scale * env(t.name)
  {
    SumSnoc([], t, env);
    assert [] + [t] == [t];
  }

  lemma SumTwo(t: Term, u: Term, env: Env)
    ensures Sum([t, u], env) == t.scale * env(t.name) + u.scale * env(u.name)
  {
    SumOne(t, env);
    SumSnoc([t], u, env);
    assert [t] + [u] == [t, u];
  }

  /** Splitting three, five or nine times a register keeps the value. */
  lemma RegistersSum(x: Context, terms: seq<Term>, env: Env)
    ensures var (base, idx) := Registers(x, terms);
            Sum(base, env) + Sum(idx, env) == Sum(Select(x, terms, Base), env) + Sum(Select(x, terms, Multiple), env) &&
            forall t :: t in base ==> t.scale == 1
  {
    hide Sum, Select;
    var base, idx := Select(x, terms, Base), Select(x, terms, Multiple);
    SelectSum(x, terms, env);
    if base == [] && |idx| == 1 {
      assert idx == [idx[0]];
      SplitScale(idx[0], env);
    }
  }

  lemma SplitScale(t: Term, env: Env)
    ensures Sum([Term(t.name, 1)], env) + Sum([Term(t.name, t.scale - 1)], env) == Sum([t], env) + Sum([], env)
  {
    SumOne(t, env);
    SumOne(Term(t.name, 1), env);
    SumOne(Term(t.name, t.scale - 1), env);
    assert t.scale * env(t.name) == env(t.name) + (t.scale - 1) * env(t.name);
  }

  lemma RegistersTotal(base: seq<Term>, idx: seq<Term>, env: Env)
    requires RegisterParts(base, idx).Some? && forall t :: t in base ==> t.scale == 1
    ensures Total(RegisterParts(base, idx).value, env) == Sum(base, env) + Sum(idx, env)
  {
    if |base| == 2 {
      assert base == [base[0], base[1]];
      SumTwo(base[0], base[1], env);
      PairTotal(Reg(base[0].name), Reg(base[1].name), env);
    } else if |base| == 1 {
      assert base == [base[0]];
      SumOne(base[0], env);
      if idx != [] {
        assert idx == [idx[0]];
        SumOne(idx[0], env);
        assert RegisterParts(base, idx).value == [Reg(base[0].name), Index(idx[0].name, idx[0].scale)];
        PairTotal(Reg(base[0].name), Index(idx[0].name, idx[0].scale), env);
      } else {
        assert RegisterParts(base, idx).value == [Reg(base[0].name)];
        PairTotal(Reg(base[0].name), Disp(0), env);
      }
    } else if idx != [] {
      assert idx == [idx[0]];
      SumOne(idx[0], env);
      PairTotal(Index(idx[0].name, idx[0].scale), Disp(0), env);
    }
  }

  lemma PairTotal(p: Part, q: Part, env: Env)
    ensures Total([p, q], env) == PartValue(p, env) + PartValue(q, env) && Total([p], env) == PartValue(p, env)
  {
    TotalSnoc([], p, env);
    assert [] + [p] == [p];
    TotalSnoc([p], q, env);
    assert [p] + [q] == [p, q];
  }

  /** A printed address is worth what the operand's expression is worth, whatever registers and
      labels stand for. */
  lemma FoldPreserves(x: Context, e: Expr, env: Env)
    requires FoldAddress(x, e).Some? && Consistent(x, env)
    ensures Meaning(x, e, env) == Some(Total(FoldAddress(x, e).value, env))
  {
    hide Registers, RegisterParts, SymbolParts, Select, Consistent, Evaluate, Meaning, StartsWithMinus,
      Sum, Total;
    EvaluateMeans(x, e, env);
    var l := Of(Evaluate(x, e).value);
    OfValue(Evaluate(x, e).value, env);
    var (base, idx) := Registers(x, l.terms);
    var syms := Select(x, l.terms, Outside);
    SelectSum(x, l.terms, env);
    RegistersSum(x, l.terms, env);
    RegistersTotal(base, idx, env);
    SymbolsTotal(syms, env);
    var named := RegisterParts(base, idx).value + SymbolParts(syms).value;
    TotalJoins(RegisterParts(base, idx).value, SymbolParts(syms).value, env);
    TotalSnoc(named, Disp(l.c), env);
    assert named + [] == named;
  }

  /** An immediate that has no names left is replaced by its number; others stay as they are. */
  function FoldImmediate(x: Context, e: Expr): Option<int>
  {
    var v := Evaluate(x, e);
    if v.None? || Of(v.value).terms != [] then None else Some(Of(v.value).c)
  }

  lemma ImmediatePreserves(x: Context, e: Expr, env: Env)
    requires FoldImmediate(x, e).Some? && Consistent(x, env)
    ensures Meaning(x, e, env) == Some(FoldImmediate(x, e).value)
  {
    hide Meaning, Consistent, Evaluate;
    EvaluateMeans(x, e, env);
  }

  /** An address has room for two registers, one of them scaled, and no scaled symbol, and does not
      start with a minus sign. */
  lemma FoldShape(x: Context, e: Expr)
    requires FoldAddress(x, e).Some?
    ensures var parts := FoldAddress(x, e).value;
            parts != [] && !StartsWithMinus(parts) &&
            forall i :: 0 <= i < |parts| && i >= 2 ==> parts[i].Symbol? || parts[i].Disp?
  {
    hide Registers, Evaluate, StartsWithMinus;
    var l := Of(Evaluate(x, e).value);
    SymbolsOnly(Select(x, l.terms, Outside));
  }

  /** Whether some addressing mode has this many plain registers and this many scaled ones. */
  predicate HasMode(plain: nat, scaled: nat)
  {
    plain + scaled <= 2 && scaled <= 1
  }

  predicate IsUnit(t: Term)
  {
    t.scale == 1 || t.scale == -1
  }

  /** An operand is printed exactly if its expression evaluates, an addressing mode has its registers,
      no symbol is scaled, and what would come first is not subtracted. */
  lemma FoldPrintsIff(x: Context, e: Expr)
    ensures FoldAddress(x, e).Some? <==>
            Evaluate(x, e).Some? &&
            var l := Of(Evaluate(x, e).value);
            var plain, scaled, syms := Select(x, l.terms, Base), Select(x, l.terms, Multiple), Select(x, l.terms, Outside);
            HasMode(|plain|, |scaled|) && (forall i :: 0 <= i < |syms| ==> IsUnit(syms[i])) &&
            (plain == scaled == [] ==> if syms == [] then l.c >= 0 else syms[0].scale == 1)
  {
    hide Evaluate, Select, Registers, RegisterParts, SymbolParts;
    if Evaluate(x, e).Some? {
      var l := Of(Evaluate(x, e).value);
      SymbolsPrint(Select(x, l.terms, Outside));
      RegistersPrint(x, l.terms);
    }
  }

  lemma RegistersPrint(x: Context, terms: seq<Term>)
    ensures var plain, scaled := Select(x, terms, Base), Select(x, terms, Multiple);
            var parts := RegisterParts(Registers(x, terms).0, Registers(x, terms).1);
            (parts.Some? <==> HasMode(|plain|, |scaled|)) && (parts.Some? ==> (parts.value == [] <==> plain == scaled == [])) &&
            (parts.Some? && parts.value != [] ==> parts.value[0].Reg? || parts.value[0].Index?)
  {
    hide Select;
  }

  lemma {:induction false} SymbolsPrint(syms: seq<Term>)
    ensures SymbolParts(syms).Some? <==> forall i :: 0 <= i < |syms| ==> IsUnit(syms[i])
    ensures SymbolParts(syms).Some? ==>
              |SymbolParts(syms).value| == |syms| && (syms != [] ==> SymbolParts(syms).value[0] == Symbol(syms[0].name, syms[0].scale == -1))
  {
    if syms != [] { SymbolsPrint(syms[..|syms| - 1]); }
  }

  lemma {:induction false} SymbolsOnly(syms: seq<Term>)
    requires SymbolParts(syms).Some?
    ensures forall i :: 0 <= i < |SymbolParts(syms).value| ==> SymbolParts(syms).value[i].Symbol?
  {
    if syms != [] { SymbolsOnly(syms[..|syms| - 1]); }
  }
}
