/**
 * The parser (lispy/parsing.py): a recursive-descent reader over the token
 * stream. `Datum` is the source's `atom` and returns the node it read and the
 * cursor left on the last token it consumed; `Operands` is the loop that
 * collects a list's operands; `Forms` is the top-level `parse` recursion.
 */
module Parsing {
  import opened Outcomes
  import opened Values
  import opened Lexing

  // ---------------------------------------------------------------------
  // Numerals
  // ---------------------------------------------------------------------

  /** Digits and underscores only, never two underscores in a row. */
  predicate SingleUnderscores(s: string) {
    if |s| == 0 then true
    else (IsDigit(s[0]) || (s[0] == '_' && !(|s| > 1 && s[1] == '_'))) && SingleUnderscores(s[1..])
  }

  /** Python's `int()` accepts decimal digits with single underscores
      between them. */
  predicate IsPyDecimal(s: string) {
    |s| > 0 && IsDigit(s[0]) && IsDigit(s[|s| - 1]) && SingleUnderscores(s)
  }

  /** A run of digits is a decimal numeral. */
  lemma {:induction false} AllDigitsDecimal(s: string)
    requires forall k :: 0 <= k < |s| ==> IsDigit(s[k])
    ensures SingleUnderscores(s)
    ensures |s| > 0 ==> IsPyDecimal(s)
  {
    if |s| > 0 {
      AllDigitsDecimal(s[1..]);
    }
  }

  /** The value of the digits of `s`, reading left to right and skipping
      underscores. */
  function DecimalValue(s: string): nat {
    if s == [] then 0
    else if IsDigit(s[|s| - 1]) then 10 * DecimalValue(s[..|s| - 1]) + (s[|s| - 1] as int - '0' as int)
    else DecimalValue(s[..|s| - 1])
  }

  /** `numeric`: a numeral with a `.` would be a float (not modelled);
      otherwise `int()` either accepts it or raises. */
  function NumeralValue(text: string): (r: Result<int>)
    ensures '.' in text ==> r.Fail? && r.error.Unsupported?
    ensures '.' !in text && IsPyDecimal(text) ==> r == Ok(DecimalValue(text))
    ensures '.' !in text && !IsPyDecimal(text) ==> r.Fail? && r.error.Crash?
  {
    if '.' in text then Fail(Unsupported("float literal"))
    else if IsPyDecimal(text) then Ok(DecimalValue(text))
    else Fail(Crash("ValueError: invalid literal for int() with base 10"))
  }

  // ---------------------------------------------------------------------
  // Lists and atoms
  // ---------------------------------------------------------------------

  /** A node read and the index of the last token it consumed. */
  datatype Parsed = Parsed(node: Value, at: nat)

  /** Operands read and the index of the last token consumed. */
  datatype ParsedSeq = ParsedSeq(nodes: seq<Value>, at: nat)

  /** Termination measure: tokens left to the right of the cursor. */
  function Left(toks: seq<Token>, i: nat): nat {
    if i <= |toks| then |toks| - i else 0
  }

  /** `atom` on a token that is a whole datum by itself: a numeral, a
      symbol, an atom, a string or `nil`. Any other kind (a stray `)`, the
      end of file) yields the integer -1, which the caller then skips or
      stores as it is. */
  function Leaf(t: Token, i: nat): (r: Result<Parsed>)
    ensures r.Ok? ==> r.value.at == i
    ensures t.kind == SymbolTok ==> r == Ok(Parsed(Symbol(t.text, t.loc), i))
  {
    match t.kind
    case NumericTok =>
      var n :- NumeralValue(t.text);
      Ok(Parsed(Numeric(n, t.loc), i))
    case SymbolTok => Ok(Parsed(Symbol(t.text, t.loc), i))
    case AtomTok => Ok(Parsed(Atom(t.text, t.loc), i))
    case StringTok => Ok(Parsed(Str(t.text, t.loc), i))
    case NilTok => Ok(Parsed(Nil(t.loc), i))
    case _ => Ok(Parsed(PyInt(-1), i))
  }

  /** `atom(stream.current(), stream)` with the cursor at `i`: a list, a
      quoted datum, or a single token. */
  function Datum(toks: seq<Token>, i: nat): (r: Result<Parsed>)
    ensures r.Ok? ==> r.value.at >= i
    decreases Left(toks, i), 2
  {
    var t := Peek(toks, i);
    if t.kind == LParen then ListAt(toks, i)
    else if t.kind == UnevalTok then
      var inner :- Datum(toks, i + 1);
      Ok(Parsed(Uneval(inner.node, t.loc), inner.at))
    else Leaf(t, i)
  }

  /** `atom` on a `(`: `()` is a call with no head; otherwise the head, the
      operands up to the `)`, and the list closed over them. */
  function ListAt(toks: seq<Token>, i: nat): (r: Result<Parsed>)
    requires Peek(toks, i).kind == LParen
    ensures r.Ok? ==> r.value.at > i
    decreases Left(toks, i), 1
  {
    var t := Peek(toks, i);
    if Peek(toks, i + 1).kind == RParen then
      Ok(Parsed(Call(PyNone, [], t.loc), i + 1))
    else
      var caller :- Datum(toks, i + 1);
      var ops :- Operands(toks, caller.at, []);
      Close(caller.node, ops.nodes, t.loc, ops.at + 1)
  }

  /** The operand loop: while the token after the cursor is not `)`, fail at
      the end of file, else read the next datum. */
  function Operands(toks: seq<Token>, i: nat, acc: seq<Value>): (r: Result<ParsedSeq>)
    ensures r.Ok? ==> r.value.at >= i && Peek(toks, r.value.at + 1).kind == RParen
    ensures r.Ok? ==> |r.value.nodes| >= |acc| && r.value.nodes[..|acc|] == acc
    decreases Left(toks, i), 0
  {
    if Peek(toks, i + 1).kind == RParen then Ok(ParsedSeq(acc, i))
    else if Peek(toks, i).kind == EOFTok then Fail(Thrown(Stage.Parse, Peek(toks, i).loc, MissingParen))
    else
      var d :- Datum(toks, i + 1);
      Operands(toks, d.at, acc + [d.node])
  }

  /** Builds the node for a closed list: a head whose `value` is `yield`
      makes a `Yield` of the first operand, anything else a `Call`. */
  function Close(caller: Value, ops: seq<Value>, loc: Loc, at: nat): (r: Result<Parsed>)
    ensures r.Ok? ==> r.value.at == at
    ensures r.Ok? <==> IsNode(caller) && (NodeValue(caller) == PyStr("yield") ==> |ops| > 0)
    ensures r.Ok? && NodeValue(caller) == PyStr("yield") ==> r.value.node == Yield(ops[0], loc)
    ensures r.Ok? && NodeValue(caller) != PyStr("yield") ==> r.value.node == Call(caller, ops, loc)
  {
    if !IsNode(caller) then Fail(Crash("AttributeError: 'int' object has no attribute 'value'"))
    else if NodeValue(caller) == PyStr("yield") then
      if |ops| == 0 then Fail(Crash("IndexError: list index out of range"))
      else Ok(Parsed(Yield(ops[0], loc), at))
    else Ok(Parsed(Call(caller, ops, loc), at))
  }

  /** The top-level recursion of `parse`: read a datum at the cursor, keep
      it unless it is -1, stop when the next token is the end of file. */
  function Forms(toks: seq<Token>, i: nat, acc: seq<Value>): (r: Result<seq<Value>>)
    ensures r.Ok? ==> |r.value| >= |acc| && r.value[..|acc|] == acc
    decreases Left(toks, i)
  {
    var d :- Datum(toks, i);
    var kept := if d.node == PyInt(-1) then acc else acc + [d.node];
    if Peek(toks, d.at + 1).kind == EOFTok then Ok(kept)
    else Forms(toks, d.at + 1, kept)
  }

  /** `parse`: drops the line terminators, then reads every top-level form
      from the stream's cursor into a fresh tree. */
  function Parse(ts: TokenStream): (r: Result<Forest>)
    requires ts.i >= 0
    ensures r.Ok? ==> r.value.file == ts.file
  {
    var purged := Purge(ts, Terminator);
    var forms :- Forms(purged.tokens, ts.i, []);
    Ok(Forest(ts.file, forms))
  }
}
