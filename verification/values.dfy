/**
 * The objects the interpreter manipulates (lispy/tree.py and the runtime
 * classes of lispy/visitor.py).
 *
 * Python is dynamically typed: the evaluator returns tree nodes and plain
 * host values alike, and a list built at run time (`list`, `concat`) stores
 * evaluated host values in the head and operand slots of a `Call` node. So
 * the node shapes of the tree and the host values share one closed type.
 */
module Values {
  import opened Outcomes

  datatype Value =
    // tree.py nodes; every node carries the location it was parsed at
    | Nil(loc: Loc)
    | Numeric(num: int, loc: Loc)
    | Symbol(name: string, loc: Loc)
    | Atom(name: string, loc: Loc)
    | Str(text: string, loc: Loc)
    | Uneval(inner: Value, loc: Loc)
    | Yield(inner: Value, loc: Loc)
    | Call(head: Value, operands: seq<Value>, loc: Loc)
    // host values produced by evaluation
    | PyInt(i: int)
    | PyStr(s: string)
    | PyNone
    | AtomObj(atom: string)
    | Closure(def: Definition)

  /** A closure: the body, the id of its live symbol table, the names its
      parameters bind, the parameter objects as written (used only for
      printing), and the snapshots of every table visible at creation. */
  datatype Definition = Definition(
    body: Value,
    scope: nat,
    name: string,
    params: seq<string>,
    taking: seq<Value>,
    frozen: seq<Table>)

  /** A symbol table. `local` maps names to values; a name mapped to `PyNone`
      counts as unbound for lookup. */
  datatype Table = Table(
    scope: nat,
    name: string,
    local: map<string, Value>,
    mutables: set<string>,
    params: seq<string>,
    frozen: bool)

  /** Python's `is_node`: only tree nodes have a `value` attribute. */
  predicate IsNode(v: Value) {
    v.Nil? || v.Numeric? || v.Symbol? || v.Atom? || v.Str? || v.Uneval? || v.Yield? || v.Call?
  }

  /** The `value` attribute of a node: `'nil'` for Nil, the head for a Call,
      the wrapped node for Uneval and Yield, the literal payload otherwise. */
  function NodeValue(v: Value): (r: Value)
    requires IsNode(v)
    ensures v.Nil? ==> r == PyStr("nil")
    ensures v.Call? ==> r == v.head
    ensures (v.Uneval? || v.Yield?) ==> r == v.inner
    ensures v.Numeric? ==> r == PyInt(v.num)
    ensures (v.Symbol? || v.Atom?) ==> r == PyStr(v.name)
    ensures v.Str? ==> r == PyStr(v.text)
  {
    match v
    case Nil(_) => PyStr("nil")
    case Numeric(n, _) => PyInt(n)
    case Symbol(n, _) => PyStr(n)
    case Atom(n, _) => PyStr(n)
    case Str(t, _) => PyStr(t)
    case Uneval(x, _) => x
    case Yield(x, _) => x
    case Call(h, _, _) => h
  }

  /** `EX.throw(op.location, …)`: the execution error at an operand's
      location. A value that is not a node has no location, and asking for
      one fails. */
  function ThrowAt(op: Value, cause: Cause): (e: Error)
    ensures IsNode(op) ==> e == Thrown(Execution, op.loc, cause)
    ensures !IsNode(op) ==> e.Crash?
  {
    if IsNode(op) then Thrown(Execution, op.loc, cause)
    else Crash("AttributeError: object has no attribute 'location'")
  }

  /** The top-level forest the parser fills (tree.py `Tree`). */
  datatype Forest = Forest(file: string, forms: seq<Value>)

  /** `Tree.push`: appends one form. */
  function Push(t: Forest, form: Value): (r: Forest)
    ensures r.file == t.file
    ensures |r.forms| == |t.forms| + 1
    ensures r.forms[..|t.forms|] == t.forms && r.forms[|t.forms|] == form
  {
    t.(forms := t.forms + [form])
  }
}
