/**
 * Properties of the evaluator on small programs built from literals:
 * arithmetic and comparison agree with their mathematical meaning, `do`
 * ignores the values of its operands, `let` binds what a later lookup
 * reads, and calls of things that are not closures are errors.
 */
module EvaluatorProps {
  import opened Outcomes
  import opened Values
  import opened Symbols
  import opened Evaluator
  import PyOps
  import Printer
  import Parsing

  /** Every operand is an integer literal. */
  predicate Literals(ops: seq<Value>) {
    forall k :: 0 <= k < |ops| ==> ops[k].Numeric?
  }

  /** The integers the literals stand for. */
  function Nums(ops: seq<Value>): (r: seq<int>)
    requires Literals(ops)
    ensures |r| == |ops| && forall k :: 0 <= k < |ops| ==> r[k] == ops[k].num
  {
    seq(|ops|, k requires 0 <= k < |ops| => ops[k].num)
  }

  function Sum(ns: seq<int>): int {
    if ns == [] then 0 else ns[0] + Sum(ns[1..])
  }

  function Product(ns: seq<int>): int {
    if ns == [] then 1 else ns[0] * Product(ns[1..])
  }

  /** The integers of the literals: the first one, then the rest. */
  lemma NumsCons(ops: seq<Value>)
    requires ops != [] && Literals(ops)
    ensures Literals(ops[1..])
    ensures Nums(ops) == [ops[0].num] + Nums(ops[1..])
    ensures Sum(Nums(ops)) == ops[0].num + Sum(Nums(ops[1..]))
    ensures Product(Nums(ops)) == ops[0].num * Product(Nums(ops[1..]))
  {
    assert Nums(ops) == [ops[0].num] + Nums(ops[1..]);
    assert Nums(ops)[1..] == Nums(ops[1..]);
  }

  /** The relation a comparison form names. */
  predicate Holds(o: PyOps.Order, x: int, y: int) {
    match o
    case Lt => x < y
    case Gt => x > y
    case Le => x <= y
    case Ge => x >= y
  }

  /** Every neighbouring pair is related: what a chained comparison means. */
  predicate Consecutive(o: PyOps.Order, xs: seq<int>) {
    forall k :: 0 <= k < |xs| - 1 ==> Holds(o, xs[k], xs[k + 1])
  }

  /** Evaluating a leaf: values that are not nodes are returned as they
      are; other leaves move the location to themselves; `yield`, `nil` and
      unevaluated nodes give themselves; an atom is interned; numbers and
      strings give their Python values; a symbol gives what the lookup
      finds, or the lookup's error. */
  lemma EvalLeaves(st: State, v: Value, fuel: nat)
    requires WF(st)
    ensures var r := Eval(st, v, fuel);
            && (!IsNode(v) ==> r == Ok(Step(st, v)))
            && (IsNode(v) && !v.Call? && r.Ok? ==> r.value.st.location == v.loc)
            && ((v.Yield? || v.Nil? || v.Uneval?) ==> r.Ok? && r.value.val == v)
            && (v.Atom? ==> r.Ok? && r.value.val == AtomObj(v.name) && v.name in r.value.st.atoms)
            && (v.Numeric? ==> r.Ok? && r.value.val == PyInt(v.num))
            && (v.Str? ==> r.Ok? && r.value.val == PyStr(v.text))
            && (v.Symbol? ==> r == (match Lookup(st.frozen, st.tables, st.scopes, st.calls, v.name, v.loc)
                                    case Ok(x) => Ok(Step(st.(location := v.loc), x))
                                    case Fail(e) => Fail(e)))
  {
  }

  /** A sequence with a first element is in order exactly when its first
      pair is and the rest is. */
  lemma ConsecutiveCons(o: PyOps.Order, a: int, ys: seq<int>)
    requires ys != []
    ensures Consecutive(o, [a] + ys) <==> Holds(o, a, ys[0]) && Consecutive(o, ys)
  {
    var xs := [a] + ys;
    assert forall k :: 0 <= k < |ys| ==> xs[k + 1] == ys[k];
    if Consecutive(o, ys) && Holds(o, a, ys[0]) {
      forall k | 0 <= k < |xs| - 1 ensures Holds(o, xs[k], xs[k + 1]) {
        if k > 0 { assert Holds(o, ys[k - 1], ys[k]); }
      }
    }
    if Consecutive(o, xs) {
      assert Holds(o, xs[0], xs[1]);
      forall k | 0 <= k < |ys| - 1 ensures Holds(o, ys[k], ys[k + 1]) {
        assert Holds(o, xs[k + 1], xs[k + 2]);
      }
    }
  }

  /** A call whose head is a symbol goes to the dispatcher, at the call's
      location, for one unit of fuel. */
  lemma CallOfSymbol(st: State, name: string, l: Loc, ops: seq<Value>, loc: Loc, fuel: nat)
    requires WF(st)
    ensures Eval(st, Call(Symbol(name, l), ops, loc), fuel + 1)
            == Dispatch(st.(location := loc), Call(Symbol(name, l), ops, loc), fuel)
  {
    var node := Call(Symbol(name, l), ops, loc);
    assert Eval(st, node, fuel + 1) == EvalCall(st.(location := loc), node, fuel);
  }

  /** The head names of the forms the lemmas below use. */
  lemma FormNames()
    ensures KeywordOf("+") == KwPlus && KeywordOf("-") == KwMinus && KeywordOf("=") == KwEqual
    ensures KeywordOf("<") == KwCompare(PyOps.Lt)
    ensures KeywordOf("if") == KwBranch(true) && KeywordOf("unless") == KwBranch(false)
  {
  }

  /** The head names of the reductions and of `lambda`. */
  lemma MoreFormNames()
    ensures KeywordOf("*") == KwReduce(PyOps.Mul) && KeywordOf("%") == KwReduce(PyOps.Mod)
    ensures KeywordOf("lambda") == KwLambda
  {
  }

  /** The dispatcher sends `*`, `/` and `%` to `reduce` with their
      operator. */
  lemma SelectsReduce(st: State, node: Value, op: PyOps.Arith, fuel: nat)
    requires WF(st) && node.Call? && node.head.Symbol? && KeywordOf(node.head.name) == KwReduce(op)
    ensures Dispatch(st, node, fuel) == Reduce(st, node, op, fuel)
  {
  }

  /** The dispatcher sends `lambda` to closure creation. */
  lemma SelectsLambda(st: State, node: Value, fuel: nat)
    requires WF(st) && node.Call? && node.head.Symbol? && KeywordOf(node.head.name) == KwLambda
    ensures Dispatch(st, node, fuel) == Lambda(st, node)
  {
  }

  /** What the dispatcher selects for the forms the lemmas below use. */
  lemma Selects(st: State, node: Value, fuel: nat)
    requires WF(st) && node.Call? && node.head.Symbol?
    ensures KeywordOf(node.head.name) == KwPlus ==>
              Dispatch(st, node, fuel) == Fold(st, PyInt(0), node.operands, PyOps.Add, fuel)
    ensures KeywordOf(node.head.name) == KwMinus ==> Dispatch(st, node, fuel) == Minus(st, node, fuel)
    ensures KeywordOf(node.head.name) == KwEqual ==> Dispatch(st, node, fuel) == Equal(st, node, fuel)
    ensures KeywordOf(node.head.name) == KwCompare(PyOps.Lt) ==>
              Dispatch(st, node, fuel) == Compare(st, node, PyOps.Lt, fuel)
    ensures KeywordOf(node.head.name) == KwBranch(true) ==> Dispatch(st, node, fuel) == Branch(st, node, true, fuel)
    ensures KeywordOf(node.head.name) == KwBranch(false) ==> Dispatch(st, node, fuel) == Branch(st, node, false, fuel)
  {
  }

  // ---------------------------------------------------------------------
  // Arithmetic
  // ---------------------------------------------------------------------

  /** One step of the fold: the first operand is evaluated and combined,
      and the fold goes on from there. */
  lemma FoldStep(st: State, acc: Value, ops: seq<Value>, op: PyOps.Arith, fuel: nat)
    requires WF(st) && ops != [] && Eval(st, ops[0], fuel).Ok?
    requires PyOps.Combine(op, acc, Eval(st, ops[0], fuel).value.val).Ok?
    ensures Fold(st, acc, ops, op, fuel)
            == Fold(Eval(st, ops[0], fuel).value.st,
                    PyOps.Combine(op, acc, Eval(st, ops[0], fuel).value.val).value, ops[1..], op, fuel)
  {
  }

  /** One step of the fold over an integer literal: evaluating it only
      moves the location. */
  lemma FoldLiteralStep(st: State, acc: Value, ops: seq<Value>, op: PyOps.Arith, fuel: nat)
    requires WF(st) && ops != [] && ops[0].Numeric?
    requires PyOps.Combine(op, acc, PyInt(ops[0].num)).Ok?
    ensures Fold(st, acc, ops, op, fuel)
            == Fold(st.(location := ops[0].loc), PyOps.Combine(op, acc, PyInt(ops[0].num)).value, ops[1..], op, fuel)
  {
    assert Eval(st, ops[0], fuel) == Ok(Step(st.(location := ops[0].loc), PyInt(ops[0].num)));
    FoldStep(st, acc, ops, op, fuel);
  }

  /** Folding `+` over integer literals adds them all to the start value. */
  lemma {:induction false} FoldAddLiterals(st: State, acc: int, ops: seq<Value>, fuel: nat)
    requires WF(st) && Literals(ops)
    ensures Fold(st, PyInt(acc), ops, PyOps.Add, fuel).Ok?
    ensures Fold(st, PyInt(acc), ops, PyOps.Add, fuel).value.val == PyInt(acc + Sum(Nums(ops)))
    decreases |ops|
  {
    if ops != [] {
      assert PyOps.Combine(PyOps.Add, PyInt(acc), PyInt(ops[0].num)) == Ok(PyInt(acc + ops[0].num));
      FoldLiteralStep(st, PyInt(acc), ops, PyOps.Add, fuel);
      NumsCons(ops);
      FoldAddLiterals(st.(location := ops[0].loc), acc + ops[0].num, ops[1..], fuel);
      AddAssoc(acc, ops[0].num, Sum(Nums(ops[1..])));
    } else {
      assert Nums(ops) == [];
    }
  }

  /** `+` is the left fold of addition from 0 over its operands. */
  lemma PlusIsFold(st: State, l: Loc, ops: seq<Value>, loc: Loc, fuel: nat)
    requires WF(st)
    ensures Eval(st, Call(Symbol("+", l), ops, loc), fuel + 1)
            == Fold(st.(location := loc), PyInt(0), ops, PyOps.Add, fuel)
  {
    FormNames();
    CallOfSymbol(st, "+", l, ops, loc, fuel);
    Selects(st.(location := loc), Call(Symbol("+", l), ops, loc), fuel);
  }

  /** `(+ n1 … nk)` on literals is their sum (0 for none). */
  lemma PlusLiterals(st: State, l: Loc, ops: seq<Value>, loc: Loc, fuel: nat)
    requires WF(st) && Literals(ops)
    ensures var r := Eval(st, Call(Symbol("+", l), ops, loc), fuel + 1);
            r.Ok? && r.value.val == PyInt(Sum(Nums(ops)))
  {
    FoldAddLiterals(st.(location := loc), 0, ops, fuel);
    PlusIsFold(st, l, ops, loc, fuel);
  }

  /** The `-` form on literals: the negation of one, or the first minus the
      sum of the rest. */
  lemma MinusOfLiterals(st: State, node: Value, fuel: nat)
    requires WF(st) && node.Call? && Literals(node.operands) && |node.operands| > 0
    ensures var r := Minus(st, node, fuel);
            var ops := node.operands;
            r.Ok? && r.value.val == PyInt(if |ops| == 1 then -ops[0].num else ops[0].num - Sum(Nums(ops[1..])))
  {
    if |node.operands| == 1 {
      EvalLeaves(st, node.operands[0], fuel);
    } else {
      MinusOfManyLiterals(st, node, fuel);
    }
  }

  /** The `-` form with two or more literal operands. */
  lemma MinusOfManyLiterals(st: State, node: Value, fuel: nat)
    requires WF(st) && node.Call? && Literals(node.operands) && |node.operands| > 1
    ensures var r := Minus(st, node, fuel);
            var ops := node.operands;
            r.Ok? && r.value.val == PyInt(ops[0].num - Sum(Nums(ops[1..])))
  {
    var ops := node.operands;
    assert ops[0].Numeric?;
    NumsCons(ops);
    var a := Step(st.(location := ops[0].loc), PyInt(ops[0].num));
    assert Eval(st, ops[0], fuel) == Ok(a);
    FoldAddLiterals(a.st, 0, ops[1..], fuel);
    MinusOfTwoSteps(st, node, fuel, a, Fold(a.st, PyInt(0), ops[1..], PyOps.Add, fuel).value);
  }

  /** With two or more operands, `-` subtracts the sum of the rest from the
      first, each evaluated once. */
  lemma MinusOfTwoSteps(st: State, node: Value, fuel: nat, a: Step, s: Step)
    requires WF(st) && node.Call? && |node.operands| > 1
    requires Eval(st, node.operands[0], fuel) == Ok(a) && a.val.PyInt?
    requires Fold(a.st, PyInt(0), node.operands[1..], PyOps.Add, fuel) == Ok(s) && s.val.PyInt?
    ensures Minus(st, node, fuel) == Ok(Step(s.st, PyInt(a.val.i - s.val.i)))
  {
  }

  /** `(- n)` is the negation and `(- n1 n2 … nk)` is `n1` minus the sum of
      the rest. */
  lemma MinusLiterals(st: State, l: Loc, ops: seq<Value>, loc: Loc, fuel: nat)
    requires WF(st) && Literals(ops) && |ops| > 0
    ensures var r := Eval(st, Call(Symbol("-", l), ops, loc), fuel + 1);
            r.Ok? && r.value.val == PyInt(if |ops| == 1 then -ops[0].num else ops[0].num - Sum(Nums(ops[1..])))
  {
    var node := Call(Symbol("-", l), ops, loc);
    FormNames();
    CallOfSymbol(st, "-", l, ops, loc, fuel);
    Selects(st.(location := loc), node, fuel);
    MinusOfLiterals(st.(location := loc), node, fuel);
  }

  /** Folding `*` over integer literals multiplies the start value by all
      of them. */
  lemma {:induction false} FoldMulLiterals(st: State, acc: int, ops: seq<Value>, fuel: nat)
    requires WF(st) && Literals(ops)
    ensures Fold(st, PyInt(acc), ops, PyOps.Mul, fuel).Ok?
    ensures Fold(st, PyInt(acc), ops, PyOps.Mul, fuel).value.val == PyInt(acc * Product(Nums(ops)))
    decreases |ops|
  {
    if ops != [] {
      assert PyOps.Combine(PyOps.Mul, PyInt(acc), PyInt(ops[0].num)) == Ok(PyInt(acc * ops[0].num));
      FoldLiteralStep(st, PyInt(acc), ops, PyOps.Mul, fuel);
      NumsCons(ops);
      FoldMulLiterals(st.(location := ops[0].loc), acc * ops[0].num, ops[1..], fuel);
      MulAssoc(acc, ops[0].num, Product(Nums(ops[1..])));
    } else {
      assert Nums(ops) == [];
    }
  }

  lemma AddAssoc(a: int, b: int, c: int)
    ensures a + b + c == a + (b + c)
  {
  }

  lemma MulAssoc(a: int, b: int, c: int)
    ensures a * b * c == a * (b * c)
  {
  }

  /** `(* n1 … nk)` on literals is their product: `reduce` starts from the
      first operand. */
  lemma TimesLiterals(st: State, l: Loc, ops: seq<Value>, loc: Loc, fuel: nat)
    requires WF(st) && Literals(ops) && ops != []
    ensures var r := Eval(st, Call(Symbol("*", l), ops, loc), fuel + 1);
            r.Ok? && r.value.val == PyInt(Product(Nums(ops)))
  {
    var node := Call(Symbol("*", l), ops, loc);
    var inner := st.(location := loc);
    MoreFormNames();
    CallOfSymbol(st, "*", l, ops, loc, fuel);
    SelectsReduce(inner, node, PyOps.Mul, fuel);
    EvalLeaves(inner, ops[0], fuel);
    ReduceStep(inner, node, PyOps.Mul, fuel);
    NumsCons(ops);
    FoldMulLiterals(Eval(inner, ops[0], fuel).value.st, ops[0].num, ops[1..], fuel);
  }

  /** `(% a b)` on literals is Python's floored remainder, and a zero
      divisor is the uncaught `ZeroDivisionError`. */
  lemma ModLiterals(st: State, l: Loc, a: int, b: int, loc: Loc, fuel: nat)
    requires WF(st)
    ensures var r := Eval(st, Call(Symbol("%", l), [Numeric(a, loc), Numeric(b, loc)], loc), fuel + 1);
            && (b != 0 ==> r.Ok? && r.value.val == PyInt(PyOps.PyMod(a, b)))
            && (b == 0 ==> r.Fail? && r.error.Crash?)
  {
    var ops := [Numeric(a, loc), Numeric(b, loc)];
    var node := Call(Symbol("%", l), ops, loc);
    var inner := st.(location := loc);
    MoreFormNames();
    CallOfSymbol(st, "%", l, ops, loc, fuel);
    SelectsReduce(inner, node, PyOps.Mod, fuel);
    EvalLeaves(inner, ops[0], fuel);
    ReduceStep(inner, node, PyOps.Mod, fuel);
    var ea := Eval(inner, ops[0], fuel).value;
    assert ops[1..] == [Numeric(b, loc)];
    EvalLeaves(ea.st, Numeric(b, loc), fuel);
    var eb := Eval(ea.st, Numeric(b, loc), fuel).value;
    if b != 0 {
      FoldStep(ea.st, PyInt(a), [Numeric(b, loc)], PyOps.Mod, fuel);
      assert Fold(eb.st, PyInt(PyOps.PyMod(a, b)), [], PyOps.Mod, fuel) == Ok(Step(eb.st, PyInt(PyOps.PyMod(a, b))));
    } else {
      assert PyOps.Combine(PyOps.Mod, PyInt(a), eb.val).Fail?;
    }
  }

  // ---------------------------------------------------------------------
  // Comparison and equality
  // ---------------------------------------------------------------------

  /** One step of the comparison loop: the first operand is evaluated and
      compared with the previous value; out of order stops with `:false`. */
  lemma ChainStep(st: State, prev: Value, ops: seq<Value>, o: PyOps.Order, fuel: nat)
    requires WF(st) && ops != [] && Eval(st, ops[0], fuel).Ok?
    requires PyOps.InOrder(o, prev, Eval(st, ops[0], fuel).value.val).Ok?
    ensures var e := Eval(st, ops[0], fuel).value;
            Chain(st, prev, ops, o, fuel)
            == if PyOps.InOrder(o, prev, e.val).value then Chain(e.st, e.val, ops[1..], o, fuel)
               else Ok(Step(e.st, AtomObj(":false")))
  {
  }

  /** The comparison loop over literals gives `:true` exactly when every
      neighbouring pair, starting from `a`, is related. */
  lemma {:induction false} ChainLiterals(st: State, a: int, ops: seq<Value>, o: PyOps.Order, fuel: nat)
    requires WF(st) && Literals(ops)
    ensures Chain(st, PyInt(a), ops, o, fuel).Ok?
    ensures Chain(st, PyInt(a), ops, o, fuel).value.val == AtomObj(":true") <==> Consecutive(o, [a] + Nums(ops))
    decreases |ops|
  {
    if ops != [] {
      var n := ops[0].num;
      EvalLeaves(st, ops[0], fuel);
      var e := Eval(st, ops[0], fuel);
      assert PyOps.InOrder(o, PyInt(a), PyInt(n)) == Ok(Holds(o, a, n));
      ChainStep(st, PyInt(a), ops, o, fuel);
      NumsCons(ops);
      ConsecutiveCons(o, a, [n] + Nums(ops[1..]));
      if Holds(o, a, n) {
        ChainLiterals(e.value.st, n, ops[1..], o, fuel);
      }
    }
  }

  /** A comparison starts from the value of the first operand and runs the
      loop over the rest. */
  lemma CompareStep(st: State, node: Value, o: PyOps.Order, fuel: nat)
    requires WF(st) && node.Call? && node.operands != [] && Eval(st, node.operands[0], fuel).Ok?
    ensures var e := Eval(st, node.operands[0], fuel).value;
            Compare(st, node, o, fuel) == Chain(e.st, e.val, node.operands[1..], o, fuel)
  {
  }

  /** `(< n1 … nk)` (and `>`, `<=`, `>=`) on literals is `:true` exactly
      when the literals are in that order pair by pair, `:false` otherwise. */
  lemma CompareLiterals(st: State, node: Value, o: PyOps.Order, fuel: nat)
    requires WF(st) && node.Call? && |node.operands| > 0 && Literals(node.operands)
    ensures var r := Compare(st, node, o, fuel);
            r.Ok? && (r.value.val == AtomObj(":true") <==> Consecutive(o, Nums(node.operands)))
            && (r.value.val == AtomObj(":false") <==> !Consecutive(o, Nums(node.operands)))
  {
    var ops := node.operands;
    EvalLeaves(st, ops[0], fuel);
    var a := Eval(st, ops[0], fuel);
    CompareStep(st, node, o, fuel);
    ChainLiterals(a.value.st, ops[0].num, ops[1..], o, fuel);
    assert [ops[0].num] + Nums(ops[1..]) == Nums(ops);
  }

  /** The `<` form, reached through the dispatcher. */
  lemma LessThanLiterals(st: State, l: Loc, ops: seq<Value>, loc: Loc, fuel: nat)
    requires WF(st) && |ops| > 0 && Literals(ops)
    ensures var r := Eval(st, Call(Symbol("<", l), ops, loc), fuel + 1);
            r.Ok? && (r.value.val == AtomObj(":true") <==> Consecutive(PyOps.Lt, Nums(ops)))
  {
    var node := Call(Symbol("<", l), ops, loc);
    FormNames();
    CallOfSymbol(st, "<", l, ops, loc, fuel);
    Selects(st.(location := loc), node, fuel);
    CompareLiterals(st.(location := loc), node, PyOps.Lt, fuel);
  }

  /** Under `<`, pairwise order is the same as being strictly increasing. */
  lemma {:induction false} ConsecutiveLtSorted(xs: seq<int>)
    requires Consecutive(PyOps.Lt, xs)
    ensures forall i, j :: 0 <= i < j < |xs| ==> xs[i] < xs[j]
    decreases |xs|
  {
    if |xs| > 1 {
      ConsecutiveLtSorted(xs[1..]);
      forall i, j | 0 <= i < j < |xs| ensures xs[i] < xs[j] {
        if i > 0 {
          assert xs[i] == xs[1..][i - 1] && xs[j] == xs[1..][j - 1];
        } else if j > 1 {
          assert xs[1] == xs[1..][0] && xs[j] == xs[1..][j - 1];
        }
      }
    }
  }

  /** `reduce` starts from the value of the first operand and folds the
      rest. */
  lemma ReduceStep(st: State, node: Value, op: PyOps.Arith, fuel: nat)
    requires WF(st) && node.Call? && node.operands != [] && Eval(st, node.operands[0], fuel).Ok?
    ensures var e := Eval(st, node.operands[0], fuel).value;
            Reduce(st, node, op, fuel) == Fold(e.st, e.val, node.operands[1..], op, fuel)
  {
  }

  /** `=` on two literals: the `==` of their values, as an atom. */
  lemma EqualOfTwo(st: State, node: Value, fuel: nat)
    requires WF(st) && node.Call? && |node.operands| == 2
    requires node.operands[0].Numeric? && node.operands[1].Numeric?
    ensures var r := Equal(st, node, fuel);
            r.Ok? && (r.value.val == AtomObj(":true") <==> node.operands[0].num == node.operands[1].num)
  {
    var a := node.operands[0];
    var b := node.operands[1];
    var ea := Eval(st, a, fuel).value;
    ReduceStep(st, node, PyOps.Same, fuel);
    assert node.operands[1..] == [b];
    FoldStep(ea.st, ea.val, [b], PyOps.Same, fuel);
    var eb := Eval(ea.st, b, fuel).value;
    assert Fold(eb.st, PyOps.BoolInt(a.num == b.num), [], PyOps.Same, fuel) == Ok(Step(eb.st, PyOps.BoolInt(a.num == b.num)));
  }

  /** `(= a b)` on literals is `:true` exactly when they are equal. */
  lemma EqualTwoLiterals(st: State, l: Loc, a: Value, b: Value, loc: Loc, fuel: nat)
    requires WF(st) && a.Numeric? && b.Numeric?
    ensures var r := Eval(st, Call(Symbol("=", l), [a, b], loc), fuel + 1);
            r.Ok? && (r.value.val == AtomObj(":true") <==> a.num == b.num)
  {
    var node := Call(Symbol("=", l), [a, b], loc);
    FormNames();
    CallOfSymbol(st, "=", l, [a, b], loc, fuel);
    Selects(st.(location := loc), node, fuel);
    EqualOfTwo(st.(location := loc), node, fuel);
  }

  /** The `==` fold over `2 2 1`: `2 == 2` is `True`, and `True == 1`. */
  lemma EqualOfTwoTwoOne(st: State, node: Value, fuel: nat)
    requires WF(st) && node.Call? && |node.operands| == 3
    requires node.operands[0] == Numeric(2, node.loc) && node.operands[1] == Numeric(2, node.loc)
    requires node.operands[2] == Numeric(1, node.loc)
    ensures var r := Equal(st, node, fuel);
            r.Ok? && r.value.val == AtomObj(":true")
  {
    var ops := node.operands;
    var e0 := Eval(st, ops[0], fuel).value;
    ReduceStep(st, node, PyOps.Same, fuel);
    FoldStep(e0.st, e0.val, ops[1..], PyOps.Same, fuel);
    var e1 := Eval(e0.st, ops[1], fuel).value;
    assert ops[1..][1..] == [ops[2]];
    FoldStep(e1.st, PyInt(1), [ops[2]], PyOps.Same, fuel);
    var e2 := Eval(e1.st, ops[2], fuel).value;
    assert Fold(e2.st, PyInt(1), [], PyOps.Same, fuel) == Ok(Step(e2.st, PyInt(1)));
  }

  /** `=` folds Python's `==` from the left, so with three operands the
      boolean of the first comparison meets the third operand as an
      integer: `(= 2 2 1)` is `:true`. */
  lemma EqualThreeLiterals(st: State, l: Loc, loc: Loc, fuel: nat)
    requires WF(st)
    ensures var r := Eval(st, Call(Symbol("=", l), [Numeric(2, loc), Numeric(2, loc), Numeric(1, loc)], loc), fuel + 1);
            r.Ok? && r.value.val == AtomObj(":true")
  {
    var ops := [Numeric(2, loc), Numeric(2, loc), Numeric(1, loc)];
    var node := Call(Symbol("=", l), ops, loc);
    FormNames();
    CallOfSymbol(st, "=", l, ops, loc, fuel);
    Selects(st.(location := loc), node, fuel);
    EqualOfTwoTwoOne(st.(location := loc), node, fuel);
  }

  // ---------------------------------------------------------------------
  // do, if, unless
  // ---------------------------------------------------------------------

  /** One step of `do`: an operand that does not yield is passed over. */
  lemma DoStep(st: State, ops: seq<Value>, loc: Loc, fuel: nat)
    requires WF(st) && ops != [] && Eval(st, ops[0], fuel).Ok? && !Eval(st, ops[0], fuel).value.val.Yield?
    ensures Do(st, ops, loc, fuel) == Do(Eval(st, ops[0], fuel).value.st, ops[1..], loc, fuel)
  {
  }

  /** Without a `yield`, `do` evaluates everything and gives `nil`, not the
      value of its last operand. */
  lemma {:induction false} DoLiterals(st: State, ops: seq<Value>, loc: Loc, fuel: nat)
    requires WF(st) && Literals(ops)
    ensures Do(st, ops, loc, fuel).Ok? && Do(st, ops, loc, fuel).value.val == Nil(loc)
    decreases |ops|
  {
    if ops != [] {
      EvalLeaves(st, ops[0], fuel);
      DoStep(st, ops, loc, fuel);
      DoLiterals(Eval(st, ops[0], fuel).value.st, ops[1..], loc, fuel);
    }
  }

  /** `(do (yield x) …)` gives the value of `x` and evaluates nothing after
      the yield. */
  lemma DoYield(st: State, x: Value, ly: Loc, rest: seq<Value>, loc: Loc, fuel: nat)
    requires WF(st) && x.Numeric?
    ensures var r := Do(st, [Yield(x, ly)] + rest, loc, fuel);
            r.Ok? && r.value.val == PyInt(x.num)
  {
    assert ([Yield(x, ly)] + rest)[0] == Yield(x, ly);
  }

  /** A three-operand `if` or `unless` whose branches are literals gives
      the second operand when the condition selects it, else the third. */
  lemma BranchOfLiterals(st: State, node: Value, positive: bool, fuel: nat)
    requires WF(st) && node.Call? && |node.operands| == 3
    requires node.operands[1].Numeric? && node.operands[2].Numeric?
    requires Eval(st, node.operands[0], fuel).Ok?
    ensures var c := Eval(st, node.operands[0], fuel).value.val;
            var taken := if positive then c == AtomObj(":true") else c == AtomObj(":false") || PyOps.Falsy(c);
            var r := Branch(st, node, positive, fuel);
            r.Ok? && r.value.val == PyInt(if taken then node.operands[1].num else node.operands[2].num)
  {
    var c := Eval(st, node.operands[0], fuel).value;
    EvalLeaves(c.st, node.operands[1], fuel);
    EvalLeaves(c.st, node.operands[2], fuel);
  }

  /** `if` on an atom literal takes its second operand exactly when the atom
      is `:true`, and the third otherwise. */
  lemma IfAtom(st: State, l: Loc, name: string, x: Value, y: Value, loc: Loc, fuel: nat)
    requires WF(st) && x.Numeric? && y.Numeric?
    ensures var r := Eval(st, Call(Symbol("if", l), [Atom(name, l), x, y], loc), fuel + 1);
            r.Ok? && r.value.val == PyInt(if name == ":true" then x.num else y.num)
  {
    var node := Call(Symbol("if", l), [Atom(name, l), x, y], loc);
    FormNames();
    CallOfSymbol(st, "if", l, [Atom(name, l), x, y], loc, fuel);
    Selects(st.(location := loc), node, fuel);
    EvalLeaves(st.(location := loc), Atom(name, l), fuel);
    BranchOfLiterals(st.(location := loc), node, true, fuel);
  }

  /** `unless` on an integer literal takes its second operand exactly when
      the integer is 0 (a false Python value). */
  lemma UnlessNumber(st: State, l: Loc, c: int, x: Value, y: Value, loc: Loc, fuel: nat)
    requires WF(st) && x.Numeric? && y.Numeric?
    ensures var r := Eval(st, Call(Symbol("unless", l), [Numeric(c, l), x, y], loc), fuel + 1);
            r.Ok? && r.value.val == PyInt(if c == 0 then x.num else y.num)
  {
    var node := Call(Symbol("unless", l), [Numeric(c, l), x, y], loc);
    FormNames();
    CallOfSymbol(st, "unless", l, [Numeric(c, l), x, y], loc, fuel);
    Selects(st.(location := loc), node, fuel);
    EvalLeaves(st.(location := loc), Numeric(c, l), fuel);
    BranchOfLiterals(st.(location := loc), node, false, fuel);
  }

  // ---------------------------------------------------------------------
  // let and lookup
  // ---------------------------------------------------------------------

  /** With only the first table active, the visible tables are that table. */
  lemma MainOnly(st: State)
    requires WF(st) && st.frozen == [] && st.calls == [] && st.scopes == [0]
    ensures forall t :: t in VisibleIn(st) <==> t == st.tables[0]
  {
    assert VisibleIn(st) == CurrentTables(st.tables, [0]);
    forall t | t in st.tables && t.scope in [0] ensures t == st.tables[0] {
      var k :| 0 <= k < |st.tables| && st.tables[k] == t;
    }
  }

  /** The operand `(x n)` of `let` declares `x` with the value of `n`. */
  lemma BindingOne(st: State, name: string, n: int, l: Loc, loc: Loc, fuel: nat)
    requires WF(st)
    ensures Binding(st, Call(Symbol(name, l), [Numeric(n, loc)], loc), fuel)
            == Declare(st.(location := loc), name, PyInt(n))
  {
    EvalLeaves(st, Numeric(n, loc), fuel);
    assert Eval(st, Numeric(n, loc), fuel) == Ok(Step(st.(location := loc), PyInt(n)));
  }

  /** `let` with one operand is that operand's binding. */
  lemma LetStep(st: State, op: Value, fuel: nat)
    requires WF(st) && Binding(st, op, fuel).Ok?
    ensures Let(st, [op], fuel) == Ok(Step(Binding(st, op, fuel).value, PyNone))
  {
    assert [op][1..] == [];
  }

  /** `(let (x n))` binds `x` to `n` in the innermost table. */
  lemma LetOne(st: State, name: string, n: int, l: Loc, loc: Loc, fuel: nat)
    requires WF(st) && MayBind(st.tables[Innermost(st)], name)
    ensures var r := Let(st, [Call(Symbol(name, l), [Numeric(n, loc)], loc)], fuel);
            r.Ok? && var t := r.value.st.tables[Innermost(st)];
            name in t.local && t.local[name] == PyInt(n)
  {
    BindingOne(st, name, n, l, loc, fuel);
    assert Innermost(st.(location := loc)) == Innermost(st);
    LetStep(st, Call(Symbol(name, l), [Numeric(n, loc)], loc), fuel);
  }

  /** At the top level a name bound in the first table is found by a
      lookup. */
  lemma LookupMain(st: State, name: string, v: Value, l: Loc)
    requires WF(st) && st.frozen == [] && st.calls == [] && st.scopes == [0]
    requires name in st.tables[0].local && st.tables[0].local[name] == v && v != PyNone
    ensures Lookup(st.frozen, st.tables, st.scopes, st.calls, name, l) == Ok(v)
  {
    MainOnly(st);
    var ts := VisibleIn(st);
    assert st.tables[0] in ts;
    var found := Search(ts, name);
    assert found.Some?;
  }

  /** At the top level, `(let (x n))` followed by `x` reads `n` back. */
  lemma LetThenLookup(st: State, name: string, n: int, l: Loc, loc: Loc, fuel: nat)
    requires WF(st) && st.frozen == [] && st.calls == [] && st.scopes == [0]
    requires MayBind(st.tables[0], name)
    ensures var r := Let(st, [Call(Symbol(name, l), [Numeric(n, loc)], loc)], fuel);
            r.Ok? && Eval(r.value.st, Symbol(name, l), fuel) == Ok(Step(r.value.st.(location := l), PyInt(n)))
  {
    LetOne(st, name, n, l, loc, fuel);
    var after := Let(st, [Call(Symbol(name, l), [Numeric(n, loc)], loc)], fuel).value.st;
    LookupMain(after, name, PyInt(n), l);
    EvalLeaves(after, Symbol(name, l), fuel);
  }

  // ---------------------------------------------------------------------
  // Calls
  // ---------------------------------------------------------------------

  /** The empty list evaluates to the empty-call error at its location. */
  lemma EmptyListFails(st: State, ops: seq<Value>, loc: Loc, fuel: nat)
    requires WF(st)
    ensures Eval(st, Call(PyNone, ops, loc), fuel + 1) == Fail(Thrown(Execution, loc, EmptyCall))
    ensures Eval(st, Call(PyNone, ops, loc), 0) == Fail(OutOfFuel)
  {
  }

  /** Calling a number is the not-callable error at the number. */
  lemma CallNumberFails(st: State, n: int, l: Loc, ops: seq<Value>, loc: Loc, fuel: nat)
    requires WF(st)
    ensures Eval(st, Call(Numeric(n, l), ops, loc), fuel + 1) == Fail(Thrown(Execution, l, NotCallable))
  {
    var inner := st.(location := loc);
    assert Eval(inner, Numeric(n, l), fuel) == Ok(Step(inner.(location := l), PyInt(n)));
  }

  /** A special-form name cannot be rebound as a function: `if` is always
      the conditional, whatever the tables hold. */
  lemma SpecialFormsFirst(st: State, l: Loc, ops: seq<Value>, loc: Loc, fuel: nat)
    requires WF(st)
    ensures Eval(st, Call(Symbol("if", l), ops, loc), fuel + 1)
            == Branch(st.(location := loc), Call(Symbol("if", l), ops, loc), true, fuel)
  {
    CallOfSymbol(st, "if", l, ops, loc, fuel);
  }

  // ---------------------------------------------------------------------
  // One step of the general forms
  // ---------------------------------------------------------------------

  /** One step of `do` when the operand yields: the yielded node is
      evaluated and its result is the result of the whole form. */
  lemma DoYieldStep(st: State, ops: seq<Value>, loc: Loc, fuel: nat)
    requires WF(st) && ops != [] && Eval(st, ops[0], fuel).Ok? && Eval(st, ops[0], fuel).value.val.Yield?
    ensures var e := Eval(st, ops[0], fuel).value;
            Do(st, ops, loc, fuel) == Eval(e.st, e.val.inner, fuel)
  {
  }

  /** One operand of `let`, in general: `(name value)` evaluates the value
      and declares the name with it in the innermost table; an operand
      that is not a call of a node with an operand is the source's crash. */
  lemma BindingStep(st: State, op: Value, fuel: nat)
    requires WF(st)
    ensures !op.Call? || !IsNode(op.head) || op.operands == [] ==>
              Binding(st, op, fuel).Fail? && Binding(st, op, fuel).error.Crash?
    ensures op.Call? && IsNode(op.head) && op.operands != [] && Eval(st, op.operands[0], fuel).Fail? ==>
              Binding(st, op, fuel) == Fail(Eval(st, op.operands[0], fuel).error)
    ensures op.Call? && IsNode(op.head) && op.operands != [] && Eval(st, op.operands[0], fuel).Ok?
            && NodeValue(op.head).PyStr? ==>
              var e := Eval(st, op.operands[0], fuel).value;
              Binding(st, op, fuel) == Declare(e.st, NodeValue(op.head).s, e.val)
  {
  }

  /** `let` binds its first operand and goes on with the rest from there. */
  lemma LetCons(st: State, ops: seq<Value>, fuel: nat)
    requires WF(st) && ops != [] && Binding(st, ops[0], fuel).Ok?
    ensures Let(st, ops, fuel) == Let(Binding(st, ops[0], fuel).value, ops[1..], fuel)
  {
  }

  /** `visit` evaluates the first form and goes on with the rest from the
      state it leaves; an error in a form ends the run with that error. */
  lemma VisitStep(st: State, forms: seq<Value>, fuel: nat)
    requires WF(st) && forms != []
    ensures Eval(st, forms[0], fuel).Ok? ==>
              Visit(st, forms, fuel) == Visit(Eval(st, forms[0], fuel).value.st, forms[1..], fuel)
    ensures Eval(st, forms[0], fuel).Fail? ==> Visit(st, forms, fuel) == Fail(Eval(st, forms[0], fuel).error)
  {
  }

  // ---------------------------------------------------------------------
  // index and the source's arithmetic
  // ---------------------------------------------------------------------

  /** Wherever the source's `index` does not crash, the model gives what
      the source gives: the element the as-written arithmetic selects is
      the one evaluated, and the errors are the same. */
  lemma IndexFormAsWritten(st: State, node: Value, fuel: nat)
    requires WF(st) && node.Call? && |node.operands| == 2
    requires Eval(st, node.operands[0], fuel).Ok? && Eval(st, node.operands[0], fuel).value.val.PyInt?
    requires Eval(Eval(st, node.operands[0], fuel).value.st, node.operands[1], fuel).Ok?
    ensures var i := Eval(st, node.operands[0], fuel).value;
            var d := Eval(i.st, node.operands[1], fuel).value;
            var p := Lists.PickAsWritten(d.val, i.val.i, node.operands[0]);
            && (p.Ok? ==> IndexForm(st, node, fuel) == Eval(d.st, p.value, fuel))
            && (p.Fail? && !p.error.Crash? ==> IndexForm(st, node, fuel) == Fail(p.error))
  {
    var i := Eval(st, node.operands[0], fuel).value;
    var d := Eval(i.st, node.operands[1], fuel).value;
    var at := node.operands[0];
    if Lists.ListOf(d.val).Ok? && |Lists.Elements(Lists.ListOf(d.val).value)| > 0 {
      Lists.PickAsWrittenVersusPick(d.val, i.val.i, at);
    }
    var p := Lists.PickAsWritten(d.val, i.val.i, at);
    assert p.Ok? || !p.error.Crash? ==> p == Lists.Pick(d.val, i.val.i, at);
  }

  // ---------------------------------------------------------------------
  // Closures
  // ---------------------------------------------------------------------

  /** Appending a table adds it to the current tables exactly when its
      scope is active. */
  lemma {:induction false} CurrentTablesSnoc(tables: seq<Table>, t: Table, scopes: seq<nat>)
    ensures CurrentTables(tables + [t], scopes) == CurrentTables(tables, scopes) + (if t.scope in scopes then [t] else [])
    decreases |tables|
  {
    if tables != [] {
      assert (tables + [t])[1..] == tables[1..] + [t];
      CurrentTablesSnoc(tables[1..], t, scopes);
    } else {
      assert [] + [t] == [t];
      assert [t][1..] == [];
    }
  }

  /** Activating a scope that no table has changes nothing. */
  lemma {:induction false} CurrentTablesUnused(tables: seq<Table>, scopes: seq<nat>, id: nat)
    requires forall k :: 0 <= k < |tables| ==> tables[k].scope != id
    ensures CurrentTables(tables, scopes + [id]) == CurrentTables(tables, scopes)
    decreases |tables|
  {
    if tables != [] {
      assert tables[0].scope in scopes + [id] <==> tables[0].scope in scopes;
      CurrentTablesUnused(tables[1..], scopes, id);
    }
  }

  /** The snapshots `define` takes resolve every name as the caller's
      current tables do: the closure's own table is still empty, and the
      defined name is bound only afterwards, in the live table. */
  lemma DefineSnapshot(st: State, name: string, names: seq<string>, body: Value, x: string)
    requires WF(st)
    ensures Search(DefinedClosure(st, name, names, body).def.frozen, x) == Search(CurrentTables(st.tables, st.scopes), x)
  {
    var id := |st.tables|;
    var t := NewTable(id, name, names);
    CurrentTablesSnoc(st.tables, t, st.scopes + [id]);
    CurrentTablesUnused(st.tables, st.scopes, id);
    SearchFrozen(CurrentTables(st.tables + [t], st.scopes + [id]), x);
    SearchLast(CurrentTables(st.tables, st.scopes), t, x);
  }

  /** A name that no table of a list holds is not found in it. */
  lemma SearchAbsent(ts: seq<Table>, x: string)
    requires forall t :: t in ts ==> x !in t.local
    ensures Search(ts, x) == None
  {
  }

  /** A function defined under a name that no current table holds does
      not find itself in its snapshots, although the name is bound, to the
      closure, in the caller's innermost table. */
  lemma DefineNotInSnapshot(st: State, node: Value)
    requires WF(st) && node.Call? && Define(st, node).Ok?
    requires var name := Define(st, node).value.val.def.name;
             forall t :: t in CurrentTables(st.tables, st.scopes) ==> name !in t.local
    ensures var c := Define(st, node).value.val;
            && Search(c.def.frozen, c.def.name) == None
            && var t := Define(st, node).value.st.tables[Innermost(st)];
            c.def.name in t.local && t.local[c.def.name] == c
  {
    var d := Define(st, node).value.val.def;
    SearchAbsent(CurrentTables(st.tables, st.scopes), d.name);
    DefineSnapshot(st, d.name, d.params, d.body, d.name);
  }

  /** A call of a node head: the head is evaluated to a closure, the
      operands are evaluated, and the closure is invoked on their values. */
  lemma ApplyStep(st: State, node: Value, fuel: nat)
    requires WF(st) && node.Call? && IsNode(node.head)
    requires Eval(st, node.head, fuel).Ok? && Eval(st, node.head, fuel).value.val.Closure?
    requires EvalAll(Eval(st, node.head, fuel).value.st, node.operands, fuel).Ok?
    ensures var f := Eval(st, node.head, fuel).value;
            var args := EvalAll(f.st, node.operands, fuel).value;
            Apply(st, node, fuel) == Invoke(args.st, f.val.def, args.vals, fuel)
  {
  }

  /** Calling a closure whose body is the symbol of one of its parameters
      gives the argument passed for it: the call's own table shadows every
      other binding of the name. */
  lemma InvokeParam(st: State, d: Definition, args: seq<Value>, i: nat, fuel: nat)
    requires WF(st) && d.scope < |st.tables|
    requires var t := st.tables[d.scope];
             && |args| == |t.params| && i < |args| && t.params[i] !in t.params[i + 1..]
             && d.body.Symbol? && d.body.name == t.params[i]
    requires args[i] != PyNone
    ensures Invoke(st, d, args, fuel).Ok? && Invoke(st, d, args, fuel).value.val == args[i]
  {
    var t := st.tables[d.scope];
    var bound := GiveArgs(t, args, st.location).value;
    assert bound.scope == d.scope;
    var inside := Enter(st, d, bound);
    assert inside.calls[|inside.calls| - 1] == Freeze(bound);
    LookupLastCall(inside, t.params[i], d.body.loc, fuel);
  }

  /** A name the innermost call's table binds resolves to that binding. */
  lemma LookupLastCall(st: State, x: string, l: Loc, fuel: nat)
    requires WF(st) && st.calls != []
    requires var top := st.calls[|st.calls| - 1]; x in top.local && top.local[x] != PyNone
    ensures Eval(st, Symbol(x, l), fuel) == Ok(Step(st.(location := l), st.calls[|st.calls| - 1].local[x]))
  {
    var c := st.calls;
    var before := st.frozen + CurrentTables(st.tables, st.scopes) + c[..|c| - 1];
    assert VisibleIn(st) == before + [c[|c| - 1]];
    SearchLast(before, c[|c| - 1], x);
  }

  /** A one-name parameter list names that parameter. */
  lemma OneParam(x: string, l: Loc)
    ensures ParamNames([Symbol(x, l)]) == Ok([x])
  {
    var args := [Symbol(x, l)];
    assert !exists k :: 0 <= k < |args| && !IsNode(args[k]);
    assert !exists k :: 0 <= k < |args| && !NodeValue(args[k]).PyStr?;
    assert seq(|args|, k requires 0 <= k < |args| => NodeValue(args[k]).s) == [x];
  }

  /** `(lambda (x) body)` makes a closure of one parameter `x` whose live
      table is the next free scope, declaring exactly that parameter. */
  lemma LambdaCreates(st: State, x: string, body: Value, l: Loc, fuel: nat)
    requires WF(st)
    ensures var lam := Call(Symbol("lambda", l), [Call(Symbol(x, l), [], l), body], l);
            var r := Eval(st, lam, fuel + 1);
            && r.Ok? && r.value.val.Closure? && r.value.val.def.body == body
            && r.value.val.def.scope == |st.tables| && |st.tables| < |r.value.st.tables|
            && r.value.st.tables[|st.tables|].params == [x]
  {
    var lam := Call(Symbol("lambda", l), [Call(Symbol(x, l), [], l), body], l);
    MoreFormNames();
    CallOfSymbol(st, "lambda", l, lam.operands, l, fuel);
    SelectsLambda(st.(location := l), lam, fuel);
    OneParam(x, l);
    assert [lam.operands[0].head] + lam.operands[0].operands == [Symbol(x, l)];
  }

  /** The operand list of one literal evaluates to its value. */
  lemma EvalAllOneLiteral(st: State, n: int, l: Loc, fuel: nat)
    requires WF(st)
    ensures EvalAll(st, [Numeric(n, l)], fuel) == Ok(Steps(st.(location := l), [PyInt(n)]))
  {
    EvalLeaves(st, Numeric(n, l), fuel);
    assert [Numeric(n, l)][1..] == [];
    assert EvalAll(st.(location := l), [], fuel) == Ok(Steps(st.(location := l), []));
    assert [PyInt(n)] + [] == [PyInt(n)];
  }

  /** A call whose head is itself a call goes to `execute_method`. */
  lemma CallOfCall(st: State, node: Value, fuel: nat)
    requires WF(st) && node.Call? && node.head.Call?
    ensures Eval(st, node, fuel + 1) == Apply(st.(location := node.loc), node, fuel)
  {
    assert Eval(st, node, fuel + 1) == EvalCall(st.(location := node.loc), node, fuel);
  }

  /** `((lambda (x) x) n)` is `n`: the closure is created, called on the
      value of `n`, and its body reads the parameter back. */
  lemma LambdaIdentity(st: State, x: string, n: int, l: Loc, fuel: nat)
    requires WF(st)
    ensures var lam := Call(Symbol("lambda", l), [Call(Symbol(x, l), [], l), Symbol(x, l)], l);
            var r := Eval(st, Call(lam, [Numeric(n, l)], l), fuel + 2);
            r.Ok? && r.value.val == PyInt(n)
  {
    var lam := Call(Symbol("lambda", l), [Call(Symbol(x, l), [], l), Symbol(x, l)], l);
    var node := Call(lam, [Numeric(n, l)], l);
    var inner := st.(location := l);
    CallOfCall(st, node, fuel + 1);
    LambdaCreates(inner, x, Symbol(x, l), l, fuel);
    var f := Eval(inner, lam, fuel + 1).value;
    EvalAllOneLiteral(f.st, n, l, fuel + 1);
    ApplyStep(inner, node, fuel + 1);
    InvokeParam(f.st.(location := l), f.val.def, [PyInt(n)], 0, fuel + 1);
  }

  // ---------------------------------------------------------------------
  // string, out, puts
  // ---------------------------------------------------------------------

  /** The decimal texts of integers, as `to_s` prints them. */
  function Numerals(ns: seq<int>): seq<string> {
    seq(|ns|, k requires 0 <= k < |ns| => Printer.IntToString(ns[k]))
  }

  /** The head name of each printing form. */
  function TextHead(kind: TextKind): string {
    match kind
    case Joined => "string"
    case Out => "out"
    case Puts => "puts"
  }

  /** The head names of the printing forms. */
  lemma TextNames(kind: TextKind)
    ensures KeywordOf(TextHead(kind)) == KwText(kind)
  {
  }

  /** The dispatcher sends `string`, `out` and `puts` to the text form. */
  lemma SelectsText(st: State, node: Value, kind: TextKind, fuel: nat)
    requires WF(st) && node.Call? && node.head.Symbol? && KeywordOf(node.head.name) == KwText(kind)
    ensures Dispatch(st, node, fuel) == Text(st, node, kind, fuel)
  {
  }

  /** Integer literals evaluate, left to right, to their values; nothing
      is written. */
  lemma {:induction false} EvalAllLiterals(st: State, ops: seq<Value>, fuel: nat)
    requires WF(st) && Literals(ops)
    ensures var r := EvalAll(st, ops, fuel);
            && r.Ok? && r.value.st.output == st.output
            && forall k :: 0 <= k < |ops| ==> r.value.vals[k] == PyInt(ops[k].num)
    decreases |ops|
  {
    if ops != [] {
      var a := Step(st.(location := ops[0].loc), PyInt(ops[0].num));
      assert Eval(st, ops[0], fuel) == Ok(a);
      assert Literals(ops[1..]) by {
        forall k | 0 <= k < |ops| - 1 ensures ops[1..][k].Numeric? { assert ops[1..][k] == ops[k + 1]; }
      }
      EvalAllLiterals(a.st, ops[1..], fuel);
      var b := EvalAll(a.st, ops[1..], fuel).value;
      assert EvalAll(st, ops, fuel) == Ok(Steps(b.st, [a.val] + b.vals));
      forall k | 0 <= k < |ops| ensures ([a.val] + b.vals)[k] == PyInt(ops[k].num) {
        if k > 0 { assert ops[1..][k - 1] == ops[k]; }
      }
    }
  }

  /** `(string n1 … nk)` on literals is the numbers' decimal texts joined
      by spaces and writes nothing; `out` writes that text as well; `puts`
      joins with newlines and writes the text and a newline. */
  lemma TextLiterals(st: State, kind: TextKind, l: Loc, ops: seq<Value>, loc: Loc, fuel: nat)
    requires WF(st) && Literals(ops)
    ensures var r := Eval(st, Call(Symbol(TextHead(kind), l), ops, loc), fuel + 1);
            var text := Printer.Join(Separator(kind), Numerals(Nums(ops)));
            && r.Ok? && r.value.val == PyStr(text)
            && r.value.st.output == st.output + (if kind == Joined then "" else if kind == Out then text else text + "\n")
  {
    var node := Call(Symbol(TextHead(kind), l), ops, loc);
    var inner := st.(location := loc);
    TextNames(kind);
    CallOfSymbol(st, TextHead(kind), l, ops, loc, fuel);
    SelectsText(inner, node, kind, fuel);
    EvalAllLiterals(inner, ops, fuel);
    var vs := EvalAll(inner, ops, fuel).value;
    assert Printer.ToSAll(vs.vals) == Numerals(Nums(ops));
  }

  /** What `string` prints for a natural number reads back as that number. */
  lemma StringReadsBack(st: State, l: Loc, n: nat, loc: Loc, fuel: nat)
    requires WF(st)
    ensures var r := Eval(st, Call(Symbol("string", l), [Numeric(n, loc)], loc), fuel + 1);
            r.Ok? && r.value.val.PyStr? && Parsing.NumeralValue(r.value.val.s) == Ok(n)
  {
    TextLiterals(st, Joined, l, [Numeric(n, loc)], loc, fuel);
    assert Numerals(Nums([Numeric(n, loc)])) == [Printer.IntToString(n)];
    Printer.NumeralRoundTrip(n);
  }
}
