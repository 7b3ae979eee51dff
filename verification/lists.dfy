/**
 * The list algebra of the evaluator (lispy/visitor.py, `check_list` and the
 * `size`, `index`, `push`, `unshift`, `concat`, `concat!`, `pop` and
 * `shift` special forms, after their operands are evaluated).
 *
 * A list is a node whose `value` is a `Call`: usually an `Uneval` wrapping a
 * call, as `'(1 2 3)` and `(list 1 2 3)` produce. The call's head is the
 * first element and its operands the rest; a head of `None` marks the empty
 * list. The source mutates the call in place and returns the same wrapper;
 * here each operation returns the wrapper holding the updated call.
 */
module Lists {
  import opened Outcomes
  import opened Values
  import opened PyOps

  /** A node whose `value` slot holds a node that can be replaced. */
  predicate IsWrapper(w: Value) {
    w.Uneval? || w.Yield? || w.Call?
  }

  /** Stores `c` in the `value` slot of a wrapper. */
  function SetValue(w: Value, c: Value): (r: Value)
    requires IsWrapper(w)
    ensures IsWrapper(r) && NodeValue(r) == c
  {
    match w
    case Uneval(_, loc) => Uneval(c, loc)
    case Yield(_, loc) => Yield(c, loc)
    case Call(_, ops, loc) => Call(c, ops, loc)
  }

  /** Replacing the value with what was there gives the wrapper back, and a
      second replacement overrides the first. */
  lemma SetValueLaws(w: Value, c: Value, d: Value)
    requires IsWrapper(w)
    ensures SetValue(w, NodeValue(w)) == w
    ensures SetValue(SetValue(w, c), d) == SetValue(w, d)
  {
  }

  /** `check_list`: the argument must be a node whose value is a `Call`; the
      result is that call. A non-node, or a node whose value is not a node,
      has no attribute to inspect; any other node is the not-a-list error at
      its own location. */
  function ListOf(v: Value): (r: Result<Value>)
    ensures r.Ok? ==> IsWrapper(v) && r.value.Call? && r.value == NodeValue(v)
    ensures IsWrapper(v) && NodeValue(v).Call? ==> r.Ok?
    ensures IsNode(v) && IsNode(NodeValue(v)) && !NodeValue(v).Call? ==> r == Fail(Thrown(Execution, v.loc, NotAList))
    ensures (!IsNode(v) || !IsNode(NodeValue(v))) ==> r.Fail? && r.error.Crash?
  {
    if !IsNode(v) || !IsNode(NodeValue(v)) then Fail(Crash("AttributeError: object has no attribute 'type'"))
    else if NodeValue(v).Call? then Ok(NodeValue(v))
    else Fail(Thrown(Execution, v.loc, NotAList))
  }

  /** A list stored into a wrapper is read back by `check_list`. */
  lemma ListOfSetValue(w: Value, c: Value)
    requires IsWrapper(w) && c.Call?
    ensures ListOf(SetValue(w, c)) == Ok(c)
  {
  }

  /** The elements of a list: none when the head is `None`, otherwise the
      head followed by the operands. */
  function Elements(c: Value): seq<Value>
    requires c.Call?
  {
    if c.head == PyNone then [] else [c.head] + c.operands
  }

  /** The shape the list constructors produce: an empty list has no
      operands either. */
  predicate WellShaped(c: Value)
    requires c.Call?
  {
    c.head == PyNone ==> c.operands == []
  }

  /** No element is `None`. */
  predicate NoNone(es: seq<Value>) {
    forall k :: 0 <= k < |es| ==> es[k] != PyNone
  }

  /** The call `tree.Call(head, loc, *tail)` a list constructor builds from
      a sequence of elements, `None` as head for no elements. A first element
      that is itself `None` makes the list read as empty. */
  function MakeList(es: seq<Value>, loc: Loc): (r: Value)
    ensures r.Call? && r.loc == loc
    ensures es == [] || es[0] != PyNone ==> WellShaped(r)
    ensures es == [] || es[0] != PyNone ==> Elements(r) == es
    ensures es != [] && es[0] == PyNone ==> Elements(r) == []
  {
    if es == [] then Call(PyNone, [], loc) else Call(es[0], es[1..], loc)
  }

  /** `size`: the number of elements. */
  function Size(v: Value): (r: Result<int>)
    ensures r.Ok? <==> ListOf(v).Ok?
    ensures r.Ok? ==> r.value == |Elements(ListOf(v).value)|
    ensures r.Fail? ==> ListOf(v).Fail? && r.error == ListOf(v).error
  {
    var c :- ListOf(v);
    if c.head == PyNone then Ok(0) else Ok(1 + |c.operands|)
  }

  // ---------------------------------------------------------------------
  // index
  // ---------------------------------------------------------------------

  /** The slot `index` reads for an index `i < n` into `n` elements, as the
      source computes it: a negative index is replaced by its magnitude, the
      magnitude is reduced modulo `n` only when it exceeds `n`, and the slot
      is `n` minus the result. */
  function SlotAsWritten(i: int, n: nat): (k: int)
    requires n > 0 && i < n
    ensures 0 <= k <= n
    ensures 0 <= i ==> k == i
  {
    if i >= 0 then i
    else
      var a := -i;
      var a' := if a > n then a % n else a;
      n - a'
  }

  /** The slot the wrap-around the source describes selects: `i` modulo `n`,
      which for `-n <= i < 0` counts from the end. */
  function Slot(i: int, n: nat): (k: nat)
    requires n > 0
    ensures k < n
    ensures 0 <= i < n ==> k == i
    ensures 0 <= i + n && i < 0 ==> k == n + i
  {
    if 0 <= i < n then
      DivModUnique(i, n, 0, i);
      i % n
    else if 0 <= i + n && i < 0 then
      DivModUnique(i, n, -1, n + i);
      i % n
    else i % n
  }

  /** Shifting an index by the length selects the same slot. */
  lemma SlotPeriodic(i: int, n: nat)
    requires n > 0
    ensures Slot(i + n, n) == Slot(i, n) && Slot(i - n, n) == Slot(i, n)
  {
    var q := i / n;
    var m := i % n;
    assert i == q * n + m;
    DivModUnique(i + n, n, q + 1, m);
    DivModUnique(i - n, n, q - 1, m);
  }

  /** The two slot computations agree except on magnitudes that are a
      multiple of `n` above `n`, where the source's slot is one past the
      last element. */
  lemma SlotAsWrittenAgrees(i: int, n: nat)
    requires n > 0 && i < n
    ensures (0 <= i + n || (-i) % n != 0) ==> SlotAsWritten(i, n) == Slot(i, n)
    ensures (i + n < 0 && (-i) % n == 0) ==> SlotAsWritten(i, n) == n
  {
    if i + n < 0 {
      var a := -i;
      var q := a / n;
      var m := a % n;
      assert a == q * n + m;
      if m != 0 {
        assert i == (-q - 1) * n + (n - m);
        DivModUnique(i, n, -q - 1, n - m);
      }
    }
  }

  /** `index` after the arity and integer checks, as written: the element
      the source evaluates next, or the error. Errors about the index are
      reported at the index operand `at`. */
  function PickAsWritten(data: Value, i: int, at: Value): (r: Result<Value>)
    ensures r.Ok? ==> ListOf(data).Ok? && r.value in Elements(ListOf(data).value)
  {
    var c :- ListOf(data);
    var es := Elements(c);
    if es == [] then Fail(ThrowAt(at, EmptyIndex))
    else if i >= |es| then Fail(ThrowAt(at, IndexRange(i, |es| - 1)))
    else
      var k := SlotAsWritten(i, |es|);
      if k == |es| then Fail(Crash("IndexError: list index out of range")) else Ok(es[k])
  }

  /** `index` with the wrap-around the source intends for every negative
      index: element `i mod n`. */
  function Pick(data: Value, i: int, at: Value): (r: Result<Value>)
    ensures r.Ok? <==> ListOf(data).Ok? && 0 < |Elements(ListOf(data).value)| && i < |Elements(ListOf(data).value)|
    ensures r.Ok? ==> r.value == Elements(ListOf(data).value)[i % |Elements(ListOf(data).value)|]
    ensures ListOf(data).Ok? && Elements(ListOf(data).value) == [] ==> r == Fail(ThrowAt(at, EmptyIndex))
    ensures ListOf(data).Ok? && 0 < |Elements(ListOf(data).value)| <= i ==>
              r == Fail(ThrowAt(at, IndexRange(i, |Elements(ListOf(data).value)| - 1)))
  {
    var c :- ListOf(data);
    var es := Elements(c);
    if es == [] then Fail(ThrowAt(at, EmptyIndex))
    else if i >= |es| then Fail(ThrowAt(at, IndexRange(i, |es| - 1)))
    else Ok(es[Slot(i, |es|)])
  }

  /** Below the length, the source's `index` selects the slot it computes,
      or crashes when that slot is one past the end. */
  lemma PickAsWrittenBelow(data: Value, i: int, at: Value)
    requires ListOf(data).Ok? && 0 < |Elements(ListOf(data).value)| && i < |Elements(ListOf(data).value)|
    ensures var es := Elements(ListOf(data).value);
            var k := SlotAsWritten(i, |es|);
            PickAsWritten(data, i, at) == if k == |es| then Fail(Crash("IndexError: list index out of range")) else Ok(es[k])
  {
  }

  /** The source's `index` crashes exactly on the negative indices whose
      magnitude is a multiple of the length above the length, and elsewhere
      returns what the wrap-around returns. */
  lemma PickAsWrittenVersusPick(data: Value, i: int, at: Value)
    requires ListOf(data).Ok? && |Elements(ListOf(data).value)| > 0
    ensures var n := |Elements(ListOf(data).value)|;
            (i + n < 0 && (-i) % n == 0) ==>
              (PickAsWritten(data, i, at).Fail? && PickAsWritten(data, i, at).error.Crash? && Pick(data, i, at).Ok?)
    ensures var n := |Elements(ListOf(data).value)|;
            !(i + n < 0 && (-i) % n == 0) ==> PickAsWritten(data, i, at) == Pick(data, i, at)
  {
    var n := |Elements(ListOf(data).value)|;
    if i < n {
      SlotAsWrittenAgrees(i, n);
      PickAsWrittenBelow(data, i, at);
    }
  }

  /** A concrete instance: index -4 into the two-element list `'(1 2)`. */
  lemma PickAsWrittenCounterexample()
    ensures var l := Uneval(Call(PyInt(1), [PyInt(2)], Nowhere), Nowhere);
            PickAsWritten(l, -4, Numeric(-4, Nowhere)).Fail?
            && PickAsWritten(l, -4, Numeric(-4, Nowhere)).error.Crash?
            && Pick(l, -4, Numeric(-4, Nowhere)) == Ok(PyInt(1))
  {
    var l := Uneval(Call(PyInt(1), [PyInt(2)], Nowhere), Nowhere);
    assert Elements(ListOf(l).value) == [PyInt(1), PyInt(2)];
    assert SlotAsWritten(-4, 2) == 2;
    assert Slot(-4, 2) == 0;
  }

  // ---------------------------------------------------------------------
  // push, unshift
  // ---------------------------------------------------------------------

  /** `push e1 … ek L` after evaluation: the elements go to the back. On an
      empty list the first element becomes the head. */
  function Push(data: Value, elems: seq<Value>): (r: Result<Value>)
    requires |elems| > 0
    ensures r.Ok? <==> ListOf(data).Ok?
    ensures r.Fail? ==> r.error == ListOf(data).error
    ensures r.Ok? ==> ListOf(r.value).Ok? && SetValue(r.value, NodeValue(data)) == data
    ensures r.Ok? && WellShaped(ListOf(data).value) && (Elements(ListOf(data).value) == [] ==> elems[0] != PyNone) ==>
              Elements(ListOf(r.value).value) == Elements(ListOf(data).value) + elems
  {
    var c :- ListOf(data);
    var c' := if c.head == PyNone then c.(head := elems[0], operands := c.operands + elems[1..])
              else c.(operands := c.operands + elems);
    ListOfSetValue(data, c');
    SetValueLaws(data, c', NodeValue(data));
    Ok(SetValue(data, c'))
  }

  /** The elements of `s` in the opposite order. */
  function Reverse<T>(s: seq<T>): (r: seq<T>)
    ensures |r| == |s|
    ensures forall k :: 0 <= k < |s| ==> r[k] == s[|s| - 1 - k]
  {
    if s == [] then [] else Reverse(s[1..]) + [s[0]]
  }

  /** `unshift e1 … ek L` after evaluation: the elements go to the front in
      reverse order, so the last one ends up first. */
  function Unshift(data: Value, elems: seq<Value>): (r: Result<Value>)
    requires |elems| > 0
    ensures r.Ok? <==> ListOf(data).Ok?
    ensures r.Fail? ==> r.error == ListOf(data).error
    ensures r.Ok? ==> ListOf(r.value).Ok? && SetValue(r.value, NodeValue(data)) == data
    ensures r.Ok? && WellShaped(ListOf(data).value) && elems[|elems| - 1] != PyNone ==>
              Elements(ListOf(r.value).value) == Reverse(elems) + Elements(ListOf(data).value)
  {
    var c :- ListOf(data);
    var rev := Reverse(elems);
    var c' := if c.head == PyNone then c.(head := rev[0], operands := rev[1..] + c.operands)
              else c.(head := rev[0], operands := rev[1..] + [c.head] + c.operands);
    ListOfSetValue(data, c');
    SetValueLaws(data, c', NodeValue(data));
    assert rev == [rev[0]] + rev[1..];
    Ok(SetValue(data, c'))
  }

  // ---------------------------------------------------------------------
  // concat, concat!
  // ---------------------------------------------------------------------

  /** `check_list` on each argument in order; the first failure wins. */
  function ListsOf(vs: seq<Value>): (r: Result<seq<Value>>)
    ensures r.Ok? <==> forall k :: 0 <= k < |vs| ==> ListOf(vs[k]).Ok?
    ensures r.Ok? ==> |r.value| == |vs| && forall k :: 0 <= k < |vs| ==> r.value[k] == ListOf(vs[k]).value
  {
    if vs == [] then Ok([])
    else
      var c :- ListOf(vs[0]);
      var cs :- ListsOf(vs[1..]);
      assert forall k :: 1 <= k < |vs| ==> vs[1..][k - 1] == vs[k];
      Ok([c] + cs)
  }

  /** The elements of each list, one after the other. */
  function Flatten(cs: seq<Value>): seq<Value>
    requires forall k :: 0 <= k < |cs| ==> cs[k].Call?
  {
    if cs == [] then [] else Elements(cs[0]) + Flatten(cs[1..])
  }

  /** The first element of a flattening is the head of a non-empty list, so
      it is never `None`. */
  lemma {:induction false} FlattenHead(cs: seq<Value>)
    requires forall k :: 0 <= k < |cs| ==> cs[k].Call?
    ensures Flatten(cs) != [] ==> Flatten(cs)[0] != PyNone
    decreases |cs|
  {
    if cs != [] && Elements(cs[0]) == [] {
      FlattenHead(cs[1..]);
    }
  }

  /** `concat L1 … Lk` after evaluation: a fresh unevaluated list holding
      the elements of all arguments in order; empty arguments add nothing. */
  function Concat(vals: seq<Value>, loc: Loc): (r: Result<Value>)
    ensures r.Ok? <==> ListsOf(vals).Ok?
    ensures r.Fail? ==> r.error == ListsOf(vals).error
    ensures r.Ok? ==> r.value.Uneval? && r.value.loc == loc && r.value.inner.Call? && r.value.inner.loc == loc
    ensures r.Ok? ==> WellShaped(r.value.inner) && Elements(r.value.inner) == Flatten(ListsOf(vals).value)
  {
    var cs :- ListsOf(vals);
    FlattenHead(cs);
    Ok(Uneval(MakeList(Flatten(cs), loc), loc))
  }

  /** `concat!` stores the concatenation into its re-evaluated first
      argument. Integers, strings and `None` have no `value` attribute to
      assign; atoms, closures and the nodes whose value is not a node slot
      would grow an attribute the model has no room for. */
  function Replace(first: Value, c: Value): (r: Result<Value>)
    ensures r.Ok? <==> IsWrapper(first)
    ensures r.Ok? ==> IsWrapper(r.value) && NodeValue(r.value) == c && SetValue(r.value, NodeValue(first)) == first
    ensures (first.PyInt? || first.PyStr? || first.PyNone?) ==> r.Fail? && r.error.Crash?
    ensures !IsWrapper(first) && !(first.PyInt? || first.PyStr? || first.PyNone?) ==> r.Fail? && r.error.Unsupported?
  {
    if IsWrapper(first) then
      SetValueLaws(first, c, NodeValue(first));
      Ok(SetValue(first, c))
    else if first.PyInt? || first.PyStr? || first.PyNone? then Fail(Crash("AttributeError: object has no attribute 'value'"))
    else Fail(Unsupported("attribute assignment on a value without a value slot"))
  }

  // ---------------------------------------------------------------------
  // pop, shift
  // ---------------------------------------------------------------------

  /** How many elements `pop`/`shift` take off: the loop runs `amount`
      times and stops early once the list is empty. */
  function Taken(amount: int, n: nat): (k: nat)
    ensures k <= n
    ensures amount <= 0 ==> k == 0
    ensures 0 <= amount <= n ==> k == amount
    ensures amount >= n ==> k == n
  {
    if amount <= 0 then 0 else if amount >= n then n else amount
  }

  /** `pop [n] L` (`fromEnd`) and `shift [n] L` after evaluation: removes up
      to `amount` elements from the back or the front and returns the list;
      an empty list is returned untouched. */
  function Remove(data: Value, amount: int, fromEnd: bool): (r: Result<Value>)
    ensures r.Ok? <==> ListOf(data).Ok?
    ensures r.Fail? ==> r.error == ListOf(data).error
    ensures r.Ok? ==> ListOf(r.value).Ok? && SetValue(r.value, NodeValue(data)) == data
    ensures r.Ok? && ListOf(data).value.head == PyNone ==> r.value == data
    ensures r.Ok? && (fromEnd || NoNone(Elements(ListOf(data).value))) ==>
              var es := Elements(ListOf(data).value);
              var rest := Elements(ListOf(r.value).value);
              |rest| == |es| - Taken(amount, |es|)
              && (fromEnd ==> rest == es[..|rest|])
              && (!fromEnd ==> rest == es[|es| - |rest|..])
  {
    var c :- ListOf(data);
    if c.head == PyNone then Ok(data)
    else
      var es := Elements(c);
      var k := Taken(amount, |es|);
      var kept := if fromEnd then es[..|es| - k] else es[k..];
      var c' := MakeList(kept, c.loc);
      ListOfSetValue(data, c');
      SetValueLaws(data, c', NodeValue(data));
      assert fromEnd && kept != [] ==> kept[0] == es[0];
      assert !fromEnd && kept != [] ==> kept[0] == es[k];
      Ok(SetValue(data, c'))
  }
}
