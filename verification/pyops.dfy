/**
 * The Python operators the arithmetic, equality and comparison special
 * forms of lispy/visitor.py apply to evaluated values: `+`, `-`, `*`, `/`,
 * `%`, `==` and the four orderings, with the dynamic type checks Python
 * performs. An operand combination Python rejects is a `Crash`; one that
 * would produce a float or run string formatting is `Unsupported`.
 */
module PyOps {
  import opened Outcomes
  import opened Values

  // ---------------------------------------------------------------------
  // Integer division
  // ---------------------------------------------------------------------

  /** `e * n >= n` for positive `e` and `n`. */
  lemma {:induction false} MulAtLeast(e: int, n: int)
    requires e >= 1 && n > 0
    ensures e * n >= n
    decreases e
  {
    if e > 1 {
      MulAtLeast(e - 1, n);
      assert e * n == (e - 1) * n + n;
    }
  }

  /** Euclidean division is unique: `x == q * n + r` with `0 <= r < n`
      determines the quotient and the remainder. */
  lemma DivModUnique(x: int, n: int, q: int, r: int)
    requires n > 0 && 0 <= r < n && x == q * n + r
    ensures x / n == q && x % n == r
  {
    var d := x / n;
    var m := x % n;
    assert x == d * n + m && 0 <= m < n;
    assert (d - q) * n == r - m;
    if d - q >= 1 {
      MulAtLeast(d - q, n);
    } else if d - q <= -1 {
      MulAtLeast(q - d, n);
    }
  }

  /** Python's `//`: the quotient rounded towards negative infinity. */
  function FloorDiv(a: int, b: int): int
    requires b != 0
  {
    if b > 0 then a / b
    else if a % -b == 0 then -(a / -b)
    else -(a / -b) - 1
  }

  /** Python's `%` on integers: the remainder of floor division, which
      takes the sign of the divisor. */
  function PyMod(a: int, b: int): (r: int)
    requires b != 0
    ensures a == b * FloorDiv(a, b) + r
    ensures b > 0 ==> 0 <= r < b
    ensures b < 0 ==> b < r <= 0
  {
    if b > 0 then a % b
    else
      var q := a / -b;
      var m := a % -b;
      assert a == q * -b + m;
      if m == 0 then
        assert a == b * -q;
        0
      else
        assert a == b * (-q - 1) + (m + b);
        m + b
  }

  /** The remainder is the only value in the divisor's sign range that
      completes a quotient. */
  lemma PyModUnique(a: int, b: int, q: int, r: int)
    requires b != 0 && a == b * q + r
    requires (b > 0 && 0 <= r < b) || (b < 0 && b < r <= 0)
    ensures PyMod(a, b) == r && FloorDiv(a, b) == q
  {
    var d := FloorDiv(a, b);
    var m := PyMod(a, b);
    assert b * (d - q) == r - m;
    if b > 0 {
      DivModUnique(a, b, q, r);
      DivModUnique(a, b, d, m);
    } else {
      DivModUnique(-a, -b, q, -r);
      DivModUnique(-a, -b, d, -m);
    }
  }

  // ---------------------------------------------------------------------
  // Strings
  // ---------------------------------------------------------------------

  /** `s * n`: `n` copies of `s`, none when `n <= 0`. */
  function Repeat(s: string, n: int): (r: string)
    ensures |r| == if n <= 0 then 0 else n * |s|
    decreases if n <= 0 then 0 else n
  {
    if n <= 0 then "" else s + Repeat(s, n - 1)
  }

  /** Repetition distributes over adding counts. */
  lemma {:induction false} RepeatAdd(s: string, m: nat, n: nat)
    ensures Repeat(s, m + n) == Repeat(s, m) + Repeat(s, n)
    decreases m
  {
    if m > 0 {
      RepeatAdd(s, m - 1, n);
      assert Repeat(s, m + n) == s + Repeat(s, m - 1 + n);
    }
  }

  /** Python's `<` on strings: lexicographic order by code point, a proper
      prefix coming first. */
  predicate StrLess(a: string, b: string)
    decreases |a|
  {
    if a == [] then b != []
    else if b == [] then false
    else if a[0] != b[0] then a[0] < b[0]
    else StrLess(a[1..], b[1..])
  }

  /** `StrLess` is a strict total order. */
  lemma {:induction false} StrLessIrreflexive(a: string)
    ensures !StrLess(a, a)
    decreases |a|
  {
    if a != [] {
      StrLessIrreflexive(a[1..]);
    }
  }

  lemma {:induction false} StrLessTransitive(a: string, b: string, c: string)
    requires StrLess(a, b) && StrLess(b, c)
    ensures StrLess(a, c)
    decreases |a|
  {
    if a != [] && b != [] && c != [] && a[0] == b[0] && b[0] == c[0] {
      StrLessTransitive(a[1..], b[1..], c[1..]);
    }
  }

  lemma {:induction false} StrLessTotal(a: string, b: string)
    ensures StrLess(a, b) || a == b || StrLess(b, a)
    decreases |a|
  {
    if a != [] && b != [] && a[0] == b[0] {
      StrLessTotal(a[1..], b[1..]);
      if a[1..] == b[1..] {
        assert a == [a[0]] + a[1..] && b == [b[0]] + b[1..];
      }
    }
  }

  // ---------------------------------------------------------------------
  // Operators on values
  // ---------------------------------------------------------------------

  /** The binary operators the reducing special forms fold with. */
  datatype Arith = Add | Mul | Div | Mod | Same

  /** Python's `a == b` on evaluated values. An atom compares its name hash
      with the other operand's, so comparing an atom with anything that is
      not an atom fails; everything else compares by value (see the README
      for nodes and closures). */
  function PyEq(a: Value, b: Value): (r: Result<bool>)
    ensures (a.AtomObj? || b.AtomObj?) && !(a.AtomObj? && b.AtomObj?) ==> r.Fail? && r.error.Crash?
    ensures a.AtomObj? && b.AtomObj? ==> r == Ok(a.atom == b.atom)
    ensures !a.AtomObj? && !b.AtomObj? ==> r == Ok(a == b)
  {
    if a.AtomObj? && b.AtomObj? then Ok(a.atom == b.atom)
    else if a.AtomObj? || b.AtomObj? then Fail(Crash("AttributeError: object has no attribute 'hash'"))
    else Ok(a == b)
  }

  /** Python's truth value of an evaluated value: `None`, `0` and the empty
      string are false; atoms, closures and nodes are true. */
  predicate Falsy(v: Value) {
    v == PyNone || v == PyInt(0) || v == PyStr("")
  }

  /** A boolean as Python stores it when it is used as an integer. */
  function BoolInt(b: bool): (r: Value)
    ensures r.PyInt? && (r.i == 1 <==> b) && (r.i == 0 <==> !b)
  {
    if b then PyInt(1) else PyInt(0)
  }

  /** Python `int` arithmetic: unbounded, so Dafny's `int` operators as
      they are. */
  function IntAdd(x: int, y: int): int { x + y }
  function IntSub(x: int, y: int): int { x - y }
  function IntMul(x: int, y: int): int { x * y }
  function IntNeg(x: int): int { -x }

  /** One step of `sum`, `reduce` with `*`, `/`, `%` or `==`. */
  function Combine(op: Arith, a: Value, b: Value): (r: Result<Value>)
    ensures op == Add ==> (r.Ok? <==> a.PyInt? && b.PyInt?)
    ensures op == Add && r.Ok? ==> r.value == PyInt(a.i + b.i)
    ensures op == Mul && a.PyInt? && b.PyInt? ==> r == Ok(PyInt(a.i * b.i))
    ensures op == Mul && a.PyInt? && b.PyStr? ==> r == Ok(PyStr(Repeat(b.s, a.i)))
    ensures op == Mul && a.PyStr? && b.PyInt? ==> r == Ok(PyStr(Repeat(a.s, b.i)))
    ensures op == Mul && r.Ok? ==> (a.PyInt? || a.PyStr?) && (b.PyInt? || b.PyStr?) && !(a.PyStr? && b.PyStr?)
    ensures op == Div ==> r.Fail?
    ensures op == Mod && a.PyInt? && b.PyInt? && b.i != 0 ==> r == Ok(PyInt(PyMod(a.i, b.i)))
    ensures op == Mod && r.Ok? ==> a.PyInt? && b.PyInt? && b.i != 0
    ensures (op == Div || op == Mod) && a.PyInt? && b == PyInt(0) ==> r.Fail? && r.error.Crash?
    ensures op == Same && PyEq(a, b).Ok? ==> r == Ok(BoolInt(PyEq(a, b).value))
    ensures op == Same && PyEq(a, b).Fail? ==> r.Fail?
  {
    match op
    case Add =>
      if a.PyInt? && b.PyInt? then Ok(PyInt(IntAdd(a.i, b.i)))
      else Fail(Crash("TypeError: unsupported operand type(s) for +"))
    case Mul =>
      if a.PyInt? && b.PyInt? then Ok(PyInt(IntMul(a.i, b.i)))
      else if a.PyInt? && b.PyStr? then Ok(PyStr(Repeat(b.s, a.i)))
      else if a.PyStr? && b.PyInt? then Ok(PyStr(Repeat(a.s, b.i)))
      else Fail(Crash("TypeError: unsupported operand type(s) for *"))
    case Div =>
      if a.PyInt? && b.PyInt? then
        if b.i == 0 then Fail(Crash("ZeroDivisionError: division by zero"))
        else Fail(Unsupported("true division produces a float"))
      else Fail(Crash("TypeError: unsupported operand type(s) for /"))
    case Mod =>
      if a.PyInt? && b.PyInt? then
        if b.i == 0 then Fail(Crash("ZeroDivisionError: integer division or modulo by zero"))
        else Ok(PyInt(PyMod(a.i, b.i)))
      else if a.PyStr? then Fail(Unsupported("string %-formatting"))
      else Fail(Crash("TypeError: unsupported operand type(s) for %"))
    case Same =>
      var e :- PyEq(a, b);
      Ok(BoolInt(e))
  }

  /** Unary `-`. */
  function Negate(v: Value): (r: Result<Value>)
    ensures r.Ok? <==> v.PyInt?
    ensures r.Ok? ==> r.value.PyInt? && r.value.i + v.i == 0
  {
    if v.PyInt? then Ok(PyInt(IntNeg(v.i))) else Fail(Crash("TypeError: bad operand type for unary -"))
  }

  /** Binary `-` between the first operand and the sum of the rest. */
  function Subtract(a: Value, b: Value): (r: Result<Value>)
    ensures r.Ok? <==> a.PyInt? && b.PyInt?
    ensures r.Ok? ==> r.value.PyInt? && r.value.i + b.i == a.i
  {
    if a.PyInt? && b.PyInt? then Ok(PyInt(IntSub(a.i, b.i))) else Fail(Crash("TypeError: unsupported operand type(s) for -"))
  }

  /** `[ATOMS[':false'], ATOMS[':true']][v]`: Python list indexing with the
      result of the `==` reduction, negative indices counting from the end. */
  function TruthAtom(v: Value): (r: Result<Value>)
    ensures r.Ok? <==> v.PyInt? && -2 <= v.i <= 1
    ensures r.Ok? ==> r.value == AtomObj(if v.i == 1 || v.i == -1 then ":true" else ":false")
    ensures v == BoolInt(true) ==> r == Ok(AtomObj(":true"))
    ensures v == BoolInt(false) ==> r == Ok(AtomObj(":false"))
  {
    if !v.PyInt? then Fail(Crash("TypeError: list indices must be integers"))
    else if v.i == 0 || v.i == -2 then Ok(AtomObj(":false"))
    else if v.i == 1 || v.i == -1 then Ok(AtomObj(":true"))
    else Fail(Crash("IndexError: list index out of range"))
  }

  /** The four chained comparisons. */
  datatype Order = Lt | Gt | Le | Ge

  /** Whether `a` and `b` are in the order `o` asks for. */
  function InOrder(o: Order, a: Value, b: Value): (r: Result<bool>)
    ensures r.Ok? <==> (a.PyInt? && b.PyInt?) || (a.PyStr? && b.PyStr?)
    ensures a.PyInt? && b.PyInt? ==> r == Ok(match o
                                             case Lt => a.i < b.i
                                             case Gt => a.i > b.i
                                             case Le => a.i <= b.i
                                             case Ge => a.i >= b.i)
    ensures a.PyStr? && b.PyStr? ==> r == Ok(match o
                                             case Lt => StrLess(a.s, b.s)
                                             case Gt => StrLess(b.s, a.s)
                                             case Le => !StrLess(b.s, a.s)
                                             case Ge => !StrLess(a.s, b.s))
  {
    if a.PyInt? && b.PyInt? then
      match o
      case Lt => Ok(!(a.i >= b.i))
      case Gt => Ok(!(a.i <= b.i))
      case Le => Ok(!(a.i > b.i))
      case Ge => Ok(!(a.i < b.i))
    else if a.PyStr? && b.PyStr? then
      match o
      case Lt => Ok(StrLess(a.s, b.s))
      case Gt => Ok(StrLess(b.s, a.s))
      case Le => Ok(!StrLess(b.s, a.s))
      case Ge => Ok(!StrLess(a.s, b.s))
    else Fail(Crash("TypeError: '<' not supported between instances"))
  }
}
