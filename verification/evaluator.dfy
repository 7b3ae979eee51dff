/**
 * The tree-walking evaluator (lispy/visitor.py, `evaluate`,
 * `execute_method`, `visit`, `load_file`).
 *
 * The source keeps its state in module globals: the list of all symbol
 * tables, the stack of active scope ids, the stack of frozen snapshots
 * pushed by calls, the call stack of argument snapshots, the interned
 * atoms and the location of the node being evaluated. Here that state is a
 * `State` record threaded through every evaluation, together with what the
 * program printed and the files `require` can load.
 *
 * Every evaluation function takes a fuel bound that stands for Python's
 * recursion limit: evaluating a call consumes one unit, and running out is
 * `OutOfFuel`.
 */
module Evaluator {
  import opened Outcomes
  import opened Values
  import opened Symbols
  import Lists
  import PyOps
  import Printer
  import Paths
  import Lexing
  import Parsing

  datatype State = State(
    tables: seq<Table>,
    scopes: seq<nat>,
    frozen: seq<Table>,
    calls: seq<Table>,
    atoms: set<string>,
    location: Loc,
    output: string,
    files: map<string, string>)

  /** A value produced and the state after producing it. */
  datatype Step = Step(st: State, val: Value)

  /** Values produced left to right and the state after the last one. */
  datatype Steps = Steps(st: State, vals: seq<Value>)

  /** The start of a run: the `_main` table (scope 0) is the only table and
      the only active scope; `:true` and `:false` are interned. */
  function Initial(files: map<string, string>): (st: State)
    ensures WF(st)
  {
    State([NewTable(0, "_main", [])], [0], [], [], {":true", ":false"}, Nowhere, "", files)
  }

  /** Scope ids are positions in the table list, every active scope names
      an existing table, and the two boolean atoms are interned. */
  predicate WF(st: State) {
    && |st.tables| > 0
    && (forall k :: 0 <= k < |st.tables| ==> st.tables[k].scope == k)
    && |st.scopes| > 0
    && (forall k :: 0 <= k < |st.scopes| ==> st.scopes[k] < |st.tables|)
    && ":true" in st.atoms && ":false" in st.atoms
  }

  /** What an evaluation may change: tables are only added (existing ones
      keep their place), the three stacks come back exactly as they were,
      atoms are only added, output is only appended and the files stay. */
  predicate Frame(a: State, b: State) {
    && WF(b)
    && |a.tables| <= |b.tables|
    && b.scopes == a.scopes
    && b.frozen == a.frozen
    && b.calls == a.calls
    && a.atoms <= b.atoms
    && a.output <= b.output
    && b.files == a.files
  }

  lemma FrameTrans(a: State, b: State, c: State)
    requires Frame(a, b) && Frame(b, c)
    ensures Frame(a, c)
  {
    assert a.output == b.output[..|a.output|];
    assert b.output == c.output[..|b.output|];
  }

  /** The tables a lookup in `st` consults. */
  function VisibleIn(st: State): seq<Table> {
    Visible(st.frozen, st.tables, st.scopes, st.calls)
  }

  // ---------------------------------------------------------------------
  // evaluate
  // ---------------------------------------------------------------------

  /** `evaluate`: values that are not nodes are returned as they are; a node
      becomes the current location; `yield`, `nil` and unevaluated nodes
      evaluate to themselves; an atom is interned; numbers and strings give
      their Python value; a symbol is looked up; a call is evaluated. */
  function Eval(st: State, v: Value, fuel: nat): (r: Result<Step>)
    requires WF(st)
    ensures r.Ok? ==> Frame(st, r.value.st)
    decreases fuel, 0, 0
  {
    match v
    case PyInt(_) => Ok(Step(st, v))
    case PyStr(_) => Ok(Step(st, v))
    case PyNone => Ok(Step(st, v))
    case AtomObj(_) => Ok(Step(st, v))
    case Closure(_) => Ok(Step(st, v))
    case Yield(_, loc) => Ok(Step(st.(location := loc), v))
    case Nil(loc) => Ok(Step(st.(location := loc), v))
    case Uneval(_, loc) => Ok(Step(st.(location := loc), v))
    case Atom(name, loc) => Ok(Step(st.(location := loc, atoms := st.atoms + {name}), AtomObj(name)))
    case Numeric(n, loc) => Ok(Step(st.(location := loc), PyInt(n)))
    case Str(t, loc) => Ok(Step(st.(location := loc), PyStr(t)))
    case Symbol(name, loc) =>
      var x :- Lookup(st.frozen, st.tables, st.scopes, st.calls, name, loc);
      Ok(Step(st.(location := loc), x))
    case Call(_, _, loc) =>
      if fuel == 0 then Fail(OutOfFuel) else EvalCall(st.(location := loc), v, fuel - 1)
  }

  /** Evaluates each value in order (`map(evaluate, …)` forced to a list). */
  function EvalAll(st: State, vs: seq<Value>, fuel: nat): (r: Result<Steps>)
    requires WF(st)
    ensures r.Ok? ==> Frame(st, r.value.st) && |r.value.vals| == |vs|
    decreases fuel, 1, |vs|
  {
    if vs == [] then Ok(Steps(st, []))
    else
      var a :- Eval(st, vs[0], fuel);
      var b :- EvalAll(a.st, vs[1..], fuel);
      FrameTrans(st, a.st, b.st);
      Ok(Steps(b.st, [a.val] + b.vals))
  }

  /** A call node: an empty call is an error, a head that is not a node has
      no type to inspect, a symbol head selects a special form or a named
      closure, any other node head is evaluated and called. */
  function EvalCall(st: State, node: Value, fuel: nat): (r: Result<Step>)
    requires WF(st) && node.Call?
    ensures r.Ok? ==> Frame(st, r.value.st)
    ensures node.head == PyNone ==> r == Fail(Thrown(Execution, node.loc, EmptyCall))
    decreases fuel, 5, 0
  {
    if node.head == PyNone then Fail(Thrown(Execution, node.loc, EmptyCall))
    else if !IsNode(node.head) then Fail(Crash("AttributeError: object has no attribute 'type'"))
    else if node.head.Symbol? then Dispatch(st, node, fuel)
    else Apply(st, node, fuel)
  }

  /** The special forms a call head can name. Forms that share an
      implementation carry the parameter that tells them apart: `if` and
      `unless` are one branch form, `push`/`unshift`, `concat`/`concat!` and
      `pop`/`shift` one form each, `*`, `/` and `%` one reduction, the four
      orderings one comparison and `string`, `out`, `puts` one text form. */
  datatype Keyword =
    | KwDo | KwRequire | KwEval | KwBranch(positive: bool)
    | KwList | KwSize | KwIndex | KwExtend(front: bool) | KwConcat(bang: bool) | KwRemove(fromEnd: bool)
    | KwPlus | KwMinus | KwReduce(op: PyOps.Arith) | KwEqual | KwCompare(o: PyOps.Order)
    | KwText(kind: TextKind) | KwLet | KwLambda | KwDefine
    | KwEmpty | KwNone

  /** The special form a head name selects, tried in the source's order;
      `KwNone` for a name that is a closure call. */
  function KeywordOf(m: string): Keyword
  {
    if m == "do" then KwDo
    else if m == "require" then KwRequire
    else if m == "eval" then KwEval
    else if m == "if" then KwBranch(true)
    else if m == "unless" then KwBranch(false)
    else if m == "list" then KwList
    else if m == "size" then KwSize
    else if m == "index" then KwIndex
    else if m == "push" || m == "append" then KwExtend(false)
    else if m == "unshift" || m == "prepend" then KwExtend(true)
    else if m == "concat" || m == "merge" then KwConcat(false)
    else if m == "concat!" || m == "merge!" then KwConcat(true)
    else if m == "pop" then KwRemove(true)
    else if m == "shift" then KwRemove(false)
    else if m == "+" then KwPlus
    else if m == "-" then KwMinus
    else if m == "*" then KwReduce(PyOps.Mul)
    else if m == "/" then KwReduce(PyOps.Div)
    else if m == "%" then KwReduce(PyOps.Mod)
    else if m == "=" then KwEqual
    else if m == "<" then KwCompare(PyOps.Lt)
    else if m == ">" then KwCompare(PyOps.Gt)
    else if m == "<=" then KwCompare(PyOps.Le)
    else if m == ">=" then KwCompare(PyOps.Ge)
    else if m == "string" then KwText(Joined)
    else if m == "out" then KwText(Out)
    else if m == "puts" then KwText(Puts)
    else if m == "let" then KwLet
    else if m == "lambda" then KwLambda
    else if m == "define" then KwDefine
    else if m == "" then KwEmpty
    else KwNone
  }

  /** The special forms, selected by the head name; a symbol that names
      none of them is a closure call. Special forms cannot be shadowed. */
  function Dispatch(st: State, node: Value, fuel: nat): (r: Result<Step>)
    requires WF(st) && node.Call? && node.head.Symbol?
    ensures r.Ok? ==> Frame(st, r.value.st)
    decreases fuel, 4, 0
  {
    match KeywordOf(node.head.name)
    case KwDo => Do(st, node.operands, node.loc, fuel)
    case KwRequire => Require(st, node, fuel)
    case KwEval => EvalForm(st, node, fuel)
    case KwBranch(positive) => Branch(st, node, positive, fuel)
    case KwList => ListForm(st, node, fuel)
    case KwSize => SizeForm(st, node, fuel)
    case KwIndex => IndexForm(st, node, fuel)
    case KwExtend(front) => Extend(st, node, front, fuel)
    case KwConcat(bang) => ConcatForm(st, node, bang, fuel)
    case KwRemove(fromEnd) => RemoveForm(st, node, fromEnd, fuel)
    case KwPlus => Fold(st, PyInt(0), node.operands, PyOps.Add, fuel)
    case KwMinus => Minus(st, node, fuel)
    case KwReduce(op) => Reduce(st, node, op, fuel)
    case KwEqual => Equal(st, node, fuel)
    case KwCompare(o) => Compare(st, node, o, fuel)
    case KwText(kind) => Text(st, node, kind, fuel)
    case KwLet => Let(st, node.operands, fuel)
    case KwLambda => Lambda(st, node)
    case KwDefine => Define(st, node)
    case KwEmpty => Fail(Crash("Exception: unknown variable or method name"))
    case KwNone => Apply(st, node, fuel)
  }

  // ---------------------------------------------------------------------
  // do, eval, if, unless
  // ---------------------------------------------------------------------

  /** `do`: evaluates the operands in order until one yields; the yielded
      node is evaluated and is the result. Without a yield the result is
      `nil`, whatever the last operand gave. */
  function Do(st: State, ops: seq<Value>, loc: Loc, fuel: nat): (r: Result<Step>)
    requires WF(st)
    ensures r.Ok? ==> Frame(st, r.value.st)
    ensures ops == [] ==> r == Ok(Step(st, Nil(loc)))
    decreases fuel, 2, |ops|
  {
    if ops == [] then Ok(Step(st, Nil(loc)))
    else
      var e :- Eval(st, ops[0], fuel);
      var r :- if e.val.Yield? then Eval(e.st, e.val.inner, fuel) else Do(e.st, ops[1..], loc, fuel);
      FrameTrans(st, e.st, r.st);
      Ok(r)
  }

  /** `eval`: at most one operand; its value is returned unless it is a
      node, in which case the node's `value` is evaluated. */
  function EvalForm(st: State, node: Value, fuel: nat): (r: Result<Step>)
    requires WF(st) && node.Call?
    ensures r.Ok? ==> Frame(st, r.value.st)
    ensures |node.operands| > 1 ==> r == Fail(Thrown(Execution, node.loc, EvalArity))
    ensures node.operands == [] ==> r.Fail? && r.error.Crash?
    ensures |node.operands| == 1 && !(Eval(st, node.operands[0], fuel).Ok? && IsNode(Eval(st, node.operands[0], fuel).value.val)) ==>
              r == Eval(st, node.operands[0], fuel)
    ensures |node.operands| == 1 && Eval(st, node.operands[0], fuel).Ok? && IsNode(Eval(st, node.operands[0], fuel).value.val) ==>
              var e := Eval(st, node.operands[0], fuel).value;
              r == Eval(e.st, NodeValue(e.val), fuel)
    decreases fuel, 3, 0
  {
    var ops := node.operands;
    if |ops| > 1 then Fail(Thrown(Execution, node.loc, EvalArity))
    else if ops == [] then Fail(Crash("IndexError: list index out of range"))
    else
      var e :- Eval(st, ops[0], fuel);
      if !IsNode(e.val) then Ok(e)
      else
        var r :- Eval(e.st, NodeValue(e.val), fuel);
        FrameTrans(st, e.st, r.st);
        Ok(r)
  }

  /** `if` (`positive`) takes its second operand when the condition is the
      atom `:true`; `unless` takes it when the condition is `:false` or a
      false Python value. Otherwise the third operand, or `nil`. */
  function Branch(st: State, node: Value, positive: bool, fuel: nat): (r: Result<Step>)
    requires WF(st) && node.Call?
    ensures r.Ok? ==> Frame(st, r.value.st)
    decreases fuel, 3, 0
  {
    var ops := node.operands;
    if ops == [] then Fail(Crash("IndexError: list index out of range"))
    else
      var c :- Eval(st, ops[0], fuel);
      var taken := if positive then c.val == AtomObj(":true")
                   else c.val == AtomObj(":false") || PyOps.Falsy(c.val);
      if taken && |ops| < 2 then Fail(Crash("IndexError: list index out of range"))
      else if taken || |ops| > 2 then
        var r :- Eval(c.st, if taken then ops[1] else ops[2], fuel);
        FrameTrans(st, c.st, r.st);
        Ok(r)
      else Ok(Step(c.st, Nil(node.loc)))
  }

  // ---------------------------------------------------------------------
  // Lists
  // ---------------------------------------------------------------------

  /** `list`: evaluates the operands and wraps them as an unevaluated list
      at the form's location. */
  function ListForm(st: State, node: Value, fuel: nat): (r: Result<Step>)
    requires WF(st) && node.Call?
    ensures r.Ok? ==> Frame(st, r.value.st)
    ensures r.Ok? ==> r.value.val.Uneval? && r.value.val.inner.Call? && |Lists.Elements(r.value.val.inner)| <= |node.operands|
    ensures r.Ok? <==> EvalAll(st, node.operands, fuel).Ok?
    ensures r.Ok? ==> var vs := EvalAll(st, node.operands, fuel).value;
                      && r.value.st == vs.st && r.value.val.loc == node.loc
                      && (vs.vals == [] || vs.vals[0] != PyNone ==> Lists.Elements(r.value.val.inner) == vs.vals)
    decreases fuel, 3, 0
  {
    var vs :- EvalAll(st, node.operands, fuel);
    Ok(Step(vs.st, Uneval(Lists.MakeList(vs.vals, node.loc), node.loc)))
  }

  /** `size`: exactly one operand, which must evaluate to a list. */
  function SizeForm(st: State, node: Value, fuel: nat): (r: Result<Step>)
    requires WF(st) && node.Call?
    ensures r.Ok? ==> Frame(st, r.value.st)
    ensures |node.operands| > 1 ==> r == Fail(ThrowAt(node.operands[0], SizeArity))
    ensures r.Ok? ==> r.value.val.PyInt? && r.value.val.i >= 0
    ensures r.Ok? ==> |node.operands| == 1 && Eval(st, node.operands[0], fuel).Ok?
                      && var d := Eval(st, node.operands[0], fuel).value;
                      Lists.Size(d.val).Ok? && r.value == Step(d.st, PyInt(Lists.Size(d.val).value))
    decreases fuel, 3, 0
  {
    var ops := node.operands;
    if ops == [] then Fail(Crash("IndexError: list index out of range"))
    else if |ops| > 1 then Fail(ThrowAt(ops[0], SizeArity))
    else
      var d :- Eval(st, ops[0], fuel);
      var n :- Lists.Size(d.val);
      Ok(Step(d.st, PyInt(n)))
  }

  /** `index`: two operands, an integer and a list; the selected element is
      evaluated. Negative indices wrap around (see the README). */
  function IndexForm(st: State, node: Value, fuel: nat): (r: Result<Step>)
    requires WF(st) && node.Call?
    ensures r.Ok? ==> Frame(st, r.value.st)
    ensures |node.operands| != 2 ==> r == Fail(Thrown(Execution, node.loc, IndexArity))
    ensures r.Ok? ==> |node.operands| == 2 && Eval(st, node.operands[0], fuel).Ok?
                      && var i := Eval(st, node.operands[0], fuel).value;
                      i.val.PyInt? && Eval(i.st, node.operands[1], fuel).Ok?
                      && var d := Eval(i.st, node.operands[1], fuel).value;
                      Lists.Pick(d.val, i.val.i, node.operands[0]).Ok?
                      && r == Eval(d.st, Lists.Pick(d.val, i.val.i, node.operands[0]).value, fuel)
    decreases fuel, 3, 0
  {
    var ops := node.operands;
    if |ops| != 2 then Fail(Thrown(Execution, node.loc, IndexArity))
    else
      var i :- Eval(st, ops[0], fuel);
      var d :- Eval(i.st, ops[1], fuel);
      if !i.val.PyInt? then Fail(ThrowAt(ops[0], IndexNotInt))
      else
        var el :- Lists.Pick(d.val, i.val.i, ops[0]);
        var r :- Eval(d.st, el, fuel);
        FrameTrans(st, i.st, d.st);
        FrameTrans(st, d.st, r.st);
        Ok(r)
  }

  /** `push`/`append` (`front` false) and `unshift`/`prepend` (`front`
      true): at least two operands; all but the last are the elements, the
      last is the list. */
  function Extend(st: State, node: Value, front: bool, fuel: nat): (r: Result<Step>)
    requires WF(st) && node.Call?
    ensures r.Ok? ==> Frame(st, r.value.st)
    ensures |node.operands| < 2 ==> r == Fail(Thrown(Execution, node.loc, if front then UnshiftArity else PushArity))
    ensures r.Ok? ==> var ops := node.operands;
                      && |ops| >= 2 && EvalAll(st, ops[..|ops| - 1], fuel).Ok?
                      && var es := EvalAll(st, ops[..|ops| - 1], fuel).value;
                      Eval(es.st, ops[|ops| - 1], fuel).Ok?
                      && var d := Eval(es.st, ops[|ops| - 1], fuel).value;
                      var res := if front then Lists.Unshift(d.val, es.vals) else Lists.Push(d.val, es.vals);
                      res.Ok? && r.value == Step(d.st, res.value)
    decreases fuel, 3, 0
  {
    var ops := node.operands;
    if |ops| < 2 then Fail(Thrown(Execution, node.loc, if front then UnshiftArity else PushArity))
    else
      var es :- EvalAll(st, ops[..|ops| - 1], fuel);
      var d :- Eval(es.st, ops[|ops| - 1], fuel);
      var res :- if front then Lists.Unshift(d.val, es.vals) else Lists.Push(d.val, es.vals);
      FrameTrans(st, es.st, d.st);
      Ok(Step(d.st, res))
  }

  /** `concat`/`merge`, and with `bang` `concat!`/`merge!`, which then
      evaluates its first operand again and stores the result in it. */
  function ConcatForm(st: State, node: Value, bang: bool, fuel: nat): (r: Result<Step>)
    requires WF(st) && node.Call? && IsNode(node.head)
    ensures r.Ok? ==> Frame(st, r.value.st)
    ensures |node.operands| < 2 ==> r == Fail(Thrown(Execution, node.head.loc, ConcatArity))
    ensures r.Ok? ==> |node.operands| >= 2 && EvalAll(st, node.operands, fuel).Ok?
                      && var vs := EvalAll(st, node.operands, fuel).value;
                      var c := Lists.Concat(vs.vals, node.loc);
                      && c.Ok?
                      && (!bang ==> r.value == Step(vs.st, c.value))
                      && (bang ==> Eval(vs.st, node.operands[0], fuel).Ok?
                                   && var first := Eval(vs.st, node.operands[0], fuel).value;
                                   Lists.Replace(first.val, c.value.inner).Ok?
                                   && r.value == Step(first.st, Lists.Replace(first.val, c.value.inner).value))
    decreases fuel, 3, 0
  {
    var ops := node.operands;
    if |ops| < 2 then Fail(Thrown(Execution, node.head.loc, ConcatArity))
    else
      var vs :- EvalAll(st, ops, fuel);
      var c :- Lists.Concat(vs.vals, node.loc);
      if !bang then Ok(Step(vs.st, c))
      else
        var first :- Eval(vs.st, ops[0], fuel);
        var res :- Lists.Replace(first.val, c.inner);
        FrameTrans(st, vs.st, first.st);
        Ok(Step(first.st, res))
  }

  /** `pop` (`fromEnd`) and `shift`: an optional integer count, then the
      list; an unevaluated first operand is the list itself with count 1. */
  function RemoveForm(st: State, node: Value, fromEnd: bool, fuel: nat): (r: Result<Step>)
    requires WF(st) && node.Call?
    ensures r.Ok? ==> Frame(st, r.value.st)
    ensures r.Ok? ==> node.operands != [] && Eval(st, node.operands[0], fuel).Ok?
    ensures r.Ok? && Eval(st, node.operands[0], fuel).value.val.Uneval? ==>
              var f := Eval(st, node.operands[0], fuel).value;
              Lists.Remove(f.val, 1, fromEnd).Ok? && r.value == Step(f.st, Lists.Remove(f.val, 1, fromEnd).value)
    ensures r.Ok? && !Eval(st, node.operands[0], fuel).value.val.Uneval? ==>
              var f := Eval(st, node.operands[0], fuel).value;
              && f.val.PyInt? && |node.operands| >= 2 && Eval(f.st, node.operands[1], fuel).Ok?
              && var d := Eval(f.st, node.operands[1], fuel).value;
              Lists.Remove(d.val, f.val.i, fromEnd).Ok? && r.value == Step(d.st, Lists.Remove(d.val, f.val.i, fromEnd).value)
    decreases fuel, 3, 0
  {
    var ops := node.operands;
    if ops == [] then Fail(Crash("IndexError: list index out of range"))
    else
      var f :- Eval(st, ops[0], fuel);
      if f.val.Uneval? then
        var res :- Lists.Remove(f.val, 1, fromEnd);
        Ok(Step(f.st, res))
      else if !f.val.PyInt? then Fail(ThrowAt(ops[0], CountNotInt))
      else if |ops| < 2 then Fail(Crash("IndexError: list index out of range"))
      else
        var d :- Eval(f.st, ops[1], fuel);
        var res :- Lists.Remove(d.val, f.val.i, fromEnd);
        FrameTrans(st, f.st, d.st);
        Ok(Step(d.st, res))
  }

  // ---------------------------------------------------------------------
  // Arithmetic, equality, comparison
  // ---------------------------------------------------------------------

  /** Folds `op` over the operands, evaluating each one just before it is
      combined (`sum` and `reduce` consume a lazy `map`). */
  function Fold(st: State, acc: Value, ops: seq<Value>, op: PyOps.Arith, fuel: nat): (r: Result<Step>)
    requires WF(st)
    ensures r.Ok? ==> Frame(st, r.value.st)
    ensures ops == [] ==> r == Ok(Step(st, acc))
    decreases fuel, 2, |ops|
  {
    if ops == [] then Ok(Step(st, acc))
    else
      var e :- Eval(st, ops[0], fuel);
      var next :- PyOps.Combine(op, acc, e.val);
      var r :- Fold(e.st, next, ops[1..], op, fuel);
      FrameTrans(st, e.st, r.st);
      Ok(r)
  }

  /** `reduce` without an initial value: the first operand is the start. */
  function Reduce(st: State, node: Value, op: PyOps.Arith, fuel: nat): (r: Result<Step>)
    requires WF(st) && node.Call?
    ensures r.Ok? ==> Frame(st, r.value.st)
    ensures node.operands == [] ==> r.Fail? && r.error.Crash?
    decreases fuel, 3, 0
  {
    var ops := node.operands;
    if ops == [] then Fail(Crash("TypeError: reduce() of empty iterable with no initial value"))
    else
      var a :- Eval(st, ops[0], fuel);
      var r :- Fold(a.st, a.val, ops[1..], op, fuel);
      FrameTrans(st, a.st, r.st);
      Ok(r)
  }

  /** `-`: negation with one operand, otherwise the first minus the sum of
      the rest. */
  function Minus(st: State, node: Value, fuel: nat): (r: Result<Step>)
    requires WF(st) && node.Call?
    ensures r.Ok? ==> Frame(st, r.value.st) && r.value.val.PyInt?
    decreases fuel, 3, 0
  {
    var ops := node.operands;
    if |ops| == 1 then
      var a :- Eval(st, ops[0], fuel);
      var n :- PyOps.Negate(a.val);
      Ok(Step(a.st, n))
    else if ops == [] then Fail(Crash("IndexError: list index out of range"))
    else
      var a :- Eval(st, ops[0], fuel);
      var s :- Fold(a.st, PyInt(0), ops[1..], PyOps.Add, fuel);
      var d :- PyOps.Subtract(a.val, s.val);
      FrameTrans(st, a.st, s.st);
      Ok(Step(s.st, d))
  }

  /** `=`: the `==` reduction, then the atom the result indexes. */
  function Equal(st: State, node: Value, fuel: nat): (r: Result<Step>)
    requires WF(st) && node.Call?
    ensures r.Ok? ==> Frame(st, r.value.st)
    ensures r.Ok? ==> r.value.val in {AtomObj(":true"), AtomObj(":false")}
    decreases fuel, 3, 1
  {
    var e :- Reduce(st, node, PyOps.Same, fuel);
    var a :- PyOps.TruthAtom(e.val);
    Ok(Step(e.st, a))
  }

  /** The loop of the chained comparisons: `prev` is the last value; the
      first pair out of order gives `:false` without evaluating the rest. */
  function Chain(st: State, prev: Value, ops: seq<Value>, o: PyOps.Order, fuel: nat): (r: Result<Step>)
    requires WF(st)
    ensures r.Ok? ==> Frame(st, r.value.st)
    ensures r.Ok? ==> r.value.val in {AtomObj(":true"), AtomObj(":false")}
    decreases fuel, 2, |ops|
  {
    if ops == [] then Ok(Step(st, AtomObj(":true")))
    else
      var e :- Eval(st, ops[0], fuel);
      var ok :- PyOps.InOrder(o, prev, e.val);
      if !ok then Ok(Step(e.st, AtomObj(":false")))
      else
        var r :- Chain(e.st, e.val, ops[1..], o, fuel);
        FrameTrans(st, e.st, r.st);
        Ok(r)
  }

  /** `<`, `>`, `<=`, `>=`. */
  function Compare(st: State, node: Value, o: PyOps.Order, fuel: nat): (r: Result<Step>)
    requires WF(st) && node.Call?
    ensures r.Ok? ==> Frame(st, r.value.st)
    ensures r.Ok? ==> r.value.val in {AtomObj(":true"), AtomObj(":false")}
    decreases fuel, 3, 0
  {
    var ops := node.operands;
    if ops == [] then Fail(Crash("IndexError: list index out of range"))
    else
      var a :- Eval(st, ops[0], fuel);
      var r :- Chain(a.st, a.val, ops[1..], o, fuel);
      FrameTrans(st, a.st, r.st);
      Ok(r)
  }

  // ---------------------------------------------------------------------
  // string, out, puts
  // ---------------------------------------------------------------------

  /** The three printing forms. */
  datatype TextKind = Joined | Out | Puts

  /** What the printed operands are joined with: a space for `string` and
      `out`, a newline for `puts`. */
  function Separator(kind: TextKind): string {
    if kind == Puts then "\n" else " "
  }

  /** `string` joins the printed operands with spaces; `out` also writes
      that text; `puts` joins with newlines and writes the text and a
      newline. All three return the text. */
  function Text(st: State, node: Value, kind: TextKind, fuel: nat): (r: Result<Step>)
    requires WF(st) && node.Call?
    ensures r.Ok? ==> Frame(st, r.value.st) && r.value.val.PyStr?
    ensures r.Ok? <==> EvalAll(st, node.operands, fuel).Ok?
    ensures r.Ok? ==> r.value.val.s == Printer.Join(Separator(kind), Printer.ToSAll(EvalAll(st, node.operands, fuel).value.vals))
    ensures r.Ok? ==> EvalAll(st, node.operands, fuel).Ok? &&
                      var before := EvalAll(st, node.operands, fuel).value.st.output;
                      && (kind == Joined ==> r.value.st.output == before)
                      && (kind == Out ==> r.value.st.output == before + r.value.val.s)
                      && (kind == Puts ==> r.value.st.output == before + r.value.val.s + "\n")
    decreases fuel, 3, 0
  {
    var vs :- EvalAll(st, node.operands, fuel);
    var parts := Printer.ToSAll(vs.vals);
    match kind
    case Joined => Ok(Step(vs.st, PyStr(Printer.Join(" ", parts))))
    case Out =>
      var text := Printer.Join(" ", parts);
      Ok(Step(vs.st.(output := vs.st.output + text), PyStr(text)))
    case Puts =>
      var text := Printer.Join("\n", parts);
      Ok(Step(vs.st.(output := vs.st.output + text + "\n"), PyStr(text)))
  }

  // ---------------------------------------------------------------------
  // let, lambda, define
  // ---------------------------------------------------------------------

  /** The innermost active scope. */
  function Innermost(st: State): (k: nat)
    requires WF(st)
    ensures k < |st.tables|
  {
    st.scopes[|st.scopes| - 1]
  }

  /** Binds `name` in the innermost table at the current location. */
  function Declare(st: State, name: string, v: Value): (r: Result<State>)
    requires WF(st)
    ensures r.Ok? <==> MayBind(st.tables[Innermost(st)], name)
    ensures r.Ok? ==> Frame(st, r.value) && |r.value.tables| == |st.tables|
    ensures r.Ok? ==> name in r.value.tables[Innermost(st)].local && r.value.tables[Innermost(st)].local[name] == v
    ensures r.Ok? ==> forall k :: 0 <= k < |st.tables| && k != Innermost(st) ==> r.value.tables[k] == st.tables[k]
  {
    var target := Innermost(st);
    var t :- Bind(st.tables[target], name, v, st.location);
    Ok(st.(tables := st.tables[target := t]))
  }

  /** One operand of `let`: `(name value)` binds `name` to the value in the
      innermost table, with the immutability check. */
  function Binding(st: State, op: Value, fuel: nat): (r: Result<State>)
    requires WF(st)
    ensures r.Ok? ==> Frame(st, r.value)
    decreases fuel, 1, 0
  {
    if !op.Call? || !IsNode(op.head) || op.operands == [] then
      Fail(Crash("AttributeError: object has no attribute 'value'"))
    else
      var key := NodeValue(op.head);
      var e :- Eval(st, op.operands[0], fuel);
      if !key.PyStr? then Fail(Unsupported("binding a name that is not a string"))
      else
        var next :- Declare(e.st, key.s, e.val);
        FrameTrans(st, e.st, next);
        Ok(next)
  }

  /** `let`: binds each operand in order; the result is `None`. */
  function Let(st: State, ops: seq<Value>, fuel: nat): (r: Result<Step>)
    requires WF(st)
    ensures r.Ok? ==> Frame(st, r.value.st) && r.value.val == PyNone
    decreases fuel, 2, |ops|
  {
    if ops == [] then Ok(Step(st, PyNone))
    else
      var next :- Binding(st, ops[0], fuel);
      var r :- Let(next, ops[1..], fuel);
      FrameTrans(st, next, r.st);
      Ok(r)
  }

  /** The parameter names of a closure: every parameter must be a node
      (its `value` is read), and the model needs each value to be a
      string. */
  function ParamNames(args: seq<Value>): (r: Result<seq<string>>)
    ensures r.Ok? ==> |r.value| == |args|
    ensures r.Ok? ==> forall k :: 0 <= k < |args| ==> IsNode(args[k]) && NodeValue(args[k]) == PyStr(r.value[k])
    ensures (exists k :: 0 <= k < |args| && !IsNode(args[k])) ==> r.Fail? && r.error.Crash?
  {
    if exists k :: 0 <= k < |args| && !IsNode(args[k]) then Fail(Crash("AttributeError: object has no attribute 'value'"))
    else if exists k :: 0 <= k < |args| && !NodeValue(args[k]).PyStr? then
      Fail(Unsupported("parameter name that is not a string"))
    else Ok(seq(|args|, k requires 0 <= k < |args| => NodeValue(args[k]).s))
  }

  /** A new table for a closure, appended under the next free scope id,
      and the snapshots of every table visible from inside it. */
  function NewScope(st: State, name: string, params: seq<string>): (r: (State, seq<Table>))
    requires WF(st)
    ensures WF(r.0) && Frame(st, r.0) && |r.0.tables| == |st.tables| + 1
    ensures r.0.tables == st.tables + [NewTable(|st.tables|, name, params)]
    ensures r.0.tables[..|st.tables|] == st.tables && r.0.tables[|st.tables|] == NewTable(|st.tables|, name, params)
    ensures r.1 == FreezeAll(CurrentTables(r.0.tables, st.scopes + [|st.tables|]))
  {
    var id := |st.tables|;
    var tables := st.tables + [NewTable(id, name, params)];
    (st.(tables := tables), FreezeAll(CurrentTables(tables, st.scopes + [id])))
  }

  /** `lambda (p1 … pn) body`: a closure over a fresh table named
      `_lambda`; the head of the parameter list is the first parameter. */
  function Lambda(st: State, node: Value): (r: Result<Step>)
    requires WF(st) && node.Call?
    ensures r.Ok? ==> Frame(st, r.value.st) && |r.value.st.tables| == |st.tables| + 1
    ensures r.Ok? ==> |node.operands| >= 2 && node.operands[0].Call?
                      && r.value.val.Closure? && r.value.val.def.scope == |st.tables|
                      && r.value.val.def.name == "_lambda" && r.value.val.def.body == node.operands[1]
                      && |r.value.val.def.params| == 1 + |node.operands[0].operands|
    ensures r.Ok? ==> var args := [node.operands[0].head] + node.operands[0].operands;
                      var d := r.value.val.def;
                      && ParamNames(args) == Ok(d.params) && d.taking == args
                      && r.value.st.tables[|st.tables|] == NewTable(|st.tables|, "_lambda", d.params)
                      && d.frozen == FreezeAll(CurrentTables(r.value.st.tables, st.scopes + [|st.tables|]))
  {
    var ops := node.operands;
    if ops == [] || !ops[0].Call? then Fail(Crash("AttributeError: object has no attribute 'operands'"))
    else
      var args := [ops[0].head] + ops[0].operands;
      var names :- ParamNames(args);
      var (next, frozen) := NewScope(st, "_lambda", names);
      if |ops| < 2 then Fail(Crash("IndexError: list index out of range"))
      else Ok(Step(next, Closure(Definition(ops[1], |st.tables|, "_lambda", names, args, frozen))))
  }

  /** The closure `define` makes: its table is the next free scope id, its
      arguments are the parameter names as strings, and its snapshots are
      taken with that table active. */
  function DefinedClosure(st: State, name: string, names: seq<string>, body: Value): (c: Value)
    requires WF(st)
    ensures c.Closure? && c.def.scope == |st.tables| && c.def.name == name && c.def.params == names
    ensures c.def.body == body
    ensures |c.def.taking| == |names| && forall k :: 0 <= k < |names| ==> c.def.taking[k] == PyStr(names[k])
    ensures c.def.frozen == FreezeAll(CurrentTables(st.tables + [NewTable(|st.tables|, name, names)],
                                                    st.scopes + [|st.tables|]))
  {
    var taking := seq(|names|, k requires 0 <= k < |names| => PyStr(names[k]));
    Closure(Definition(body, |st.tables|, name, names, taking, NewScope(st, name, names).1))
  }

  /** `define` proper: the closure above, bound to `name` in the innermost
      table of the caller. */
  function DefineClosure(st: State, name: string, names: seq<string>, body: Value): (r: Result<Step>)
    requires WF(st)
    ensures r.Ok? ==> Frame(st, r.value.st) && |r.value.st.tables| == |st.tables| + 1
    ensures r.Ok? ==> r.value.val == DefinedClosure(st, name, names, body)
    ensures r.Ok? ==> var t := r.value.st.tables[Innermost(st)];
                      name in t.local && t.local[name] == r.value.val
    ensures r.Ok? ==> r.value.st.tables[|st.tables|] == NewTable(|st.tables|, name, names)
    ensures r.Fail? <==> !MayBind(st.tables[Innermost(st)], name)
  {
    var scope := NewScope(st, name, names);
    var closure := DefinedClosure(st, name, names, body);
    assert Innermost(scope.0) == Innermost(st);
    assert scope.0.tables[Innermost(st)] == st.tables[Innermost(st)];
    var declared := Declare(scope.0, name, closure);
    assert declared.Ok? <==> MayBind(st.tables[Innermost(st)], name);
    var bound :- declared;
    assert bound.tables[|st.tables|] == scope.0.tables[|st.tables|];
    assert name in bound.tables[Innermost(st)].local && bound.tables[Innermost(st)].local[name] == closure;
    FrameTrans(st, scope.0, bound);
    Ok(Step(bound, closure))
  }

  /** `define (name p1 … pn) body`: a closure over a fresh table named
      after the function, bound to the name in the innermost table. The
      snapshots are taken before the name is bound, so the body finds the
      name through the live table. */
  function Define(st: State, node: Value): (r: Result<Step>)
    requires WF(st) && node.Call?
    ensures r.Ok? ==> Frame(st, r.value.st) && |r.value.st.tables| == |st.tables| + 1
    ensures r.Ok? ==> |node.operands| >= 2 && node.operands[0].Call?
                      && r.value.val.Closure? && r.value.val.def.scope == |st.tables|
                      && r.value.val.def.body == node.operands[1]
                      && |r.value.val.def.params| == |node.operands[0].operands|
    ensures r.Ok? ==> var t := r.value.st.tables[Innermost(st)];
                      r.value.val.def.name in t.local && t.local[r.value.val.def.name] == r.value.val
    ensures r.Ok? ==> var d := r.value.val.def;
                      && IsNode(node.operands[0]) && IsNode(NodeValue(node.operands[0]))
                      && NodeValue(NodeValue(node.operands[0])) == PyStr(d.name)
                      && ParamNames(node.operands[0].operands) == Ok(d.params)
                      && d.frozen == FreezeAll(CurrentTables(st.tables + [NewTable(|st.tables|, d.name, d.params)],
                                                             st.scopes + [|st.tables|]))
  {
    var ops := node.operands;
    if ops == [] || !IsNode(ops[0]) || !IsNode(NodeValue(ops[0])) || !ops[0].Call? then
      Fail(Crash("AttributeError: object has no attribute 'value'"))
    else
      var nm := NodeValue(NodeValue(ops[0]));
      var names :- ParamNames(ops[0].operands);
      if !nm.PyStr? then Fail(Unsupported("function name that is not a string"))
      else if |ops| < 2 then Fail(Crash("IndexError: list index out of range"))
      else DefineClosure(st, nm.s, names, ops[1])
  }

  // ---------------------------------------------------------------------
  // Calls
  // ---------------------------------------------------------------------

  /** `execute_method`: the head must evaluate to a closure; the operands
      are evaluated and passed to it. */
  function Apply(st: State, node: Value, fuel: nat): (r: Result<Step>)
    requires WF(st) && node.Call? && IsNode(node.head)
    ensures r.Ok? ==> Frame(st, r.value.st)
    ensures Eval(st, node.head, fuel).Ok? && !Eval(st, node.head, fuel).value.val.Closure? ==>
              r == Fail(Thrown(Execution, node.head.loc, NotCallable))
    decreases fuel, 3, 0
  {
    var f :- Eval(st, node.head, fuel);
    if !f.val.Closure? then Fail(Thrown(Execution, node.head.loc, NotCallable))
    else
      var args :- EvalAll(f.st, node.operands, fuel);
      var r :- Invoke(args.st, f.val.def, args.vals, fuel);
      FrameTrans(st, f.st, args.st);
      FrameTrans(st, args.st, r.st);
      Ok(r)
  }

  /** Entering a call: the table `bound` (the closure's table with the
      arguments) replaces the live one, the closure's snapshots are pushed,
      its scope when it is not already active, and a snapshot of `bound` on
      the call stack. */
  function Enter(st: State, d: Definition, bound: Table): (r: State)
    requires WF(st) && d.scope < |st.tables| && bound.scope == d.scope
    ensures WF(r) && |r.tables| == |st.tables| && r.tables[d.scope] == bound
    ensures r.frozen == st.frozen + d.frozen && r.calls == st.calls + [Freeze(bound)]
    ensures r.scopes == if d.scope in st.scopes then st.scopes else st.scopes + [d.scope]
    ensures r.atoms == st.atoms && r.output == st.output && r.files == st.files
  {
    st.(tables := st.tables[d.scope := bound],
        frozen := st.frozen + d.frozen,
        scopes := if d.scope in st.scopes then st.scopes else st.scopes + [d.scope],
        calls := st.calls + [Freeze(bound)])
  }

  /** Leaving a call: the closure's live table is emptied and exactly what
      `Enter` pushed is popped, which gives back the caller's stacks. */
  function Leave(st: State, d: Definition, after: State): (r: State)
    requires WF(st) && WF(after) && d.scope < |st.tables| && |st.tables| <= |after.tables|
    requires after.scopes == if d.scope in st.scopes then st.scopes else st.scopes + [d.scope]
    requires after.frozen == st.frozen + d.frozen
    requires |after.calls| == |st.calls| + 1 && after.calls[..|st.calls|] == st.calls
    requires st.atoms <= after.atoms && st.output <= after.output && after.files == st.files
    ensures Frame(st, r) && r.tables[d.scope].local == map[]
  {
    after.(tables := after.tables[d.scope := Clean(after.tables[d.scope])],
           scopes := st.scopes,
           frozen := st.frozen,
           calls := st.calls)
  }

  /** The call itself: bind the arguments in the closure's live table (the
      arity check), enter the call, evaluate the body and leave. */
  function Invoke(st: State, d: Definition, args: seq<Value>, fuel: nat): (r: Result<Step>)
    requires WF(st)
    ensures r.Ok? ==> Frame(st, r.value.st)
    ensures r.Ok? ==> d.scope < |r.value.st.tables| && r.value.st.tables[d.scope].local == map[]
    ensures d.scope < |st.tables| && |args| != |st.tables[d.scope].params| ==>
              r == Fail(Thrown(Execution, st.location,
                               WrongArity(st.tables[d.scope].name, |st.tables[d.scope].params|, |args|)))
    decreases fuel, 2, 0
  {
    if d.scope >= |st.tables| then Fail(Unsupported("closure created in another run"))
    else
      var bound :- GiveArgs(st.tables[d.scope], args, st.location);
      var res :- Eval(Enter(st, d, bound), d.body, fuel);
      Ok(Step(Leave(st, d, res.st), res.val))
  }

  // ---------------------------------------------------------------------
  // require, load_file, visit
  // ---------------------------------------------------------------------

  /** `require`: evaluates every operand first, then loads the file each
      one names, in order; the result is `:true`. */
  function Require(st: State, node: Value, fuel: nat): (r: Result<Step>)
    requires WF(st) && node.Call?
    ensures r.Ok? ==> Frame(st, r.value.st) && r.value.val == AtomObj(":true")
    decreases fuel, 3, 0
  {
    var vs :- EvalAll(st, node.operands, fuel);
    var r :- LoadAll(vs.st, node.loc, node.operands, vs.vals, fuel);
    FrameTrans(st, vs.st, r.st);
    Ok(r)
  }

  function LoadAll(st: State, loc: Loc, ops: seq<Value>, vals: seq<Value>, fuel: nat): (r: Result<Step>)
    requires WF(st) && |ops| == |vals|
    ensures r.Ok? ==> Frame(st, r.value.st) && r.value.val == AtomObj(":true")
    decreases fuel, 2, |vals|
  {
    if vals == [] then Ok(Step(st, AtomObj(":true")))
    else
      var name :- Paths.RequireName(vals[0], ops[0]);
      var path :- Paths.Resolve(loc, name, st.files.Keys, ops[0]);
      var after :- Load(st, path, fuel);
      var r :- LoadAll(after, loc, ops[1..], vals[1..], fuel);
      FrameTrans(st, after, r.st);
      Ok(r)
  }

  /** `load_file`: lexes and parses the file and evaluates its forms in the
      same state. */
  function Load(st: State, path: string, fuel: nat): (r: Result<State>)
    requires WF(st) && path in st.files
    ensures r.Ok? ==> Frame(st, r.value)
    decreases fuel, 1, 0
  {
    var ts :- Lexing.Lex(st.files[path], path);
    var forest :- Parsing.Parse(ts);
    Visit(st, forest.forms, fuel)
  }

  /** `visit`: evaluates the top-level forms in order. */
  function Visit(st: State, forms: seq<Value>, fuel: nat): (r: Result<State>)
    requires WF(st)
    ensures r.Ok? ==> Frame(st, r.value)
    ensures forms == [] ==> r == Ok(st)
    decreases fuel, 0, |forms| + 1
  {
    if forms == [] then Ok(st)
    else
      var e :- Eval(st, forms[0], fuel);
      var r :- Visit(e.st, forms[1..], fuel);
      FrameTrans(st, e.st, r);
      Ok(r)
  }

  /** A whole run: lex and parse the program, then visit its forms from the
      initial state with the given files available to `require`. */
  function Run(src: string, file: string, files: map<string, string>, fuel: nat): (r: Result<State>)
    ensures r.Ok? ==> WF(r.value) && r.value.scopes == [0] && r.value.frozen == [] && r.value.calls == []
                      && r.value.files == files
  {
    var ts :- Lexing.Lex(src, file);
    var forest :- Parsing.Parse(ts);
    Visit(Initial(files), forest.forms, fuel)
  }
}
