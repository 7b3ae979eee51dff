/**
 * Properties of the parser: what it builds from simple token streams, and
 * reading printed numbers and names back through the lexer and parser.
 */
module ParsingProps {
  import opened Outcomes
  import opened Values
  import opened Lexing
  import opened Parsing
  import Printer
  import LexingProps

  // ---------------------------------------------------------------------
  // purge
  // ---------------------------------------------------------------------

  /** Dropping a kind that does not occur changes nothing. */
  lemma {:induction false} WithoutAbsent(tokens: seq<Token>, kind: Kind)
    requires forall k :: 0 <= k < |tokens| ==> tokens[k].kind != kind
    ensures Without(tokens, kind) == tokens
  {
    if tokens != [] {
      WithoutAbsent(tokens[1..], kind);
    }
  }

  /** `purge` keeps the order: dropping a kind from a concatenation drops
      it from each part. */
  lemma {:induction false} WithoutAppend(a: seq<Token>, b: seq<Token>, kind: Kind)
    ensures Without(a + b, kind) == Without(a, kind) + Without(b, kind)
    decreases |a|
  {
    if a != [] {
      assert (a + b)[0] == a[0] && (a + b)[1..] == a[1..] + b;
      WithoutAppend(a[1..], b, kind);
      if a[0].kind != kind {
        assert Without(a + b, kind) == [a[0]] + (Without(a[1..], kind) + Without(b, kind));
      }
    } else {
      assert a + b == b;
    }
  }

  /** `purge` is idempotent. */
  lemma PurgeIdempotent(ts: TokenStream, kind: Kind)
    ensures Purge(Purge(ts, kind), kind) == Purge(ts, kind)
  {
    var once := Without(ts.tokens, kind);
    assert forall k :: 0 <= k < |once| ==> once[k].kind != kind by {
      forall k | 0 <= k < |once| ensures once[k].kind != kind {
        assert once[k] in once;
      }
    }
    WithoutAbsent(once, kind);
  }

  // ---------------------------------------------------------------------
  // Lists of symbols
  // ---------------------------------------------------------------------

  /** The symbol node each token reads as. */
  function SymbolsOf(ts: seq<Token>): (r: seq<Value>)
    ensures |r| == |ts|
  {
    if ts == [] then [] else [Symbol(ts[0].text, ts[0].loc)] + SymbolsOf(ts[1..])
  }

  /** One step of `atom` on a symbol token. */
  lemma DatumSymbol(toks: seq<Token>, i: nat)
    requires Peek(toks, i).kind == SymbolTok
    ensures Datum(toks, i) == Ok(Parsed(Symbol(Peek(toks, i).text, Peek(toks, i).loc), i))
  {
  }

  /** A quote wraps the datum after it in an unevaluated node at the
      quote's location. */
  lemma DatumQuote(toks: seq<Token>, i: nat, d: Parsed)
    requires Peek(toks, i).kind == UnevalTok && Datum(toks, i + 1) == Ok(d)
    ensures Datum(toks, i) == Ok(Parsed(Uneval(d.node, Peek(toks, i).loc), d.at))
  {
  }

  /** One step of `atom` on a `(` that does not close at once: read the
      head, then the operands, then close the list. */
  lemma DatumList(toks: seq<Token>, i: nat, caller: Parsed, ops: ParsedSeq)
    requires Peek(toks, i).kind == LParen && Peek(toks, i + 1).kind != RParen
    requires Datum(toks, i + 1) == Ok(caller) && Operands(toks, caller.at, []) == Ok(ops)
    ensures Datum(toks, i) == Close(caller.node, ops.nodes, Peek(toks, i).loc, ops.at + 1)
  {
    assert Datum(toks, i) == ListAt(toks, i);
  }

  /** The operand loop stops when the next token is `)`. */
  lemma OperandsClose(toks: seq<Token>, i: nat, acc: seq<Value>)
    requires Peek(toks, i + 1).kind == RParen
    ensures Operands(toks, i, acc) == Ok(ParsedSeq(acc, i))
  {
  }

  /** The operand loop otherwise reads one datum and goes on after it. */
  lemma OperandsNext(toks: seq<Token>, i: nat, acc: seq<Value>, d: Parsed)
    requires Peek(toks, i + 1).kind != RParen && Peek(toks, i).kind != EOFTok
    requires Datum(toks, i + 1) == Ok(d)
    ensures Operands(toks, i, acc) == Operands(toks, d.at, acc + [d.node])
  {
  }

  /** The operand loop over `m` symbol tokens after the cursor, closed by a
      `)`, reads exactly those symbols and stops before the `)`. */
  lemma {:induction false} OperandsOfSymbols(toks: seq<Token>, i: nat, m: nat, acc: seq<Value>)
    requires i + m + 1 < |toks|
    requires toks[i].kind != EOFTok
    requires forall j :: i < j <= i + m ==> toks[j].kind == SymbolTok
    requires toks[i + m + 1].kind == RParen
    ensures Operands(toks, i, acc) == Ok(ParsedSeq(acc + SymbolsOf(toks[i + 1..i + m + 1]), i + m))
    decreases m
  {
    if m == 0 {
      assert Peek(toks, i + 1) == toks[i + 1];
      OperandsClose(toks, i, acc);
      assert SymbolsOf(toks[i + 1..i + 1]) == [];
      assert acc + [] == acc;
    } else {
      var t := toks[i + 1];
      var sym := Symbol(t.text, t.loc);
      assert Peek(toks, i + 1) == t && Peek(toks, i) == toks[i];
      DatumSymbol(toks, i + 1);
      OperandsNext(toks, i, acc, Parsed(sym, i + 1));
      OperandsOfSymbols(toks, i + 1, m - 1, acc + [sym]);
      assert toks[i + 1..i + m + 1][1..] == toks[i + 2..i + m + 1];
      assert [sym] + SymbolsOf(toks[i + 2..i + m + 1]) == SymbolsOf(toks[i + 1..i + m + 1]);
      assert acc + [sym] + SymbolsOf(toks[i + 2..i + m + 1]) == acc + SymbolsOf(toks[i + 1..i + m + 1]);
    }
  }

  /** A `(` followed by a head symbol, `m` operand symbols and a `)` is
      closed over exactly those symbols. */
  lemma DatumOfSymbolList(toks: seq<Token>, i: nat, m: nat)
    requires i + m + 2 < |toks|
    requires toks[i].kind == LParen
    requires forall j :: i < j <= i + 1 + m ==> toks[j].kind == SymbolTok
    requires toks[i + m + 2].kind == RParen
    ensures Datum(toks, i)
            == Close(Symbol(toks[i + 1].text, toks[i + 1].loc), SymbolsOf(toks[i + 2..i + m + 2]), toks[i].loc, i + m + 2)
  {
    var head := Symbol(toks[i + 1].text, toks[i + 1].loc);
    assert Peek(toks, i) == toks[i] && Peek(toks, i + 1) == toks[i + 1];
    DatumSymbol(toks, i + 1);
    OperandsOfSymbols(toks, i + 1, m, []);
    var ops := ParsedSeq([] + SymbolsOf(toks[i + 2..i + m + 2]), i + m + 1);
    DatumList(toks, i, Parsed(head, i + 1), ops);
    assert [] + SymbolsOf(toks[i + 2..i + m + 2]) == SymbolsOf(toks[i + 2..i + m + 2]);
  }

  /** The top-level loop reads one datum and stops when the end of file
      follows it. */
  lemma FormsLast(toks: seq<Token>, i: nat, acc: seq<Value>, node: Value, at: nat)
    requires Datum(toks, i) == Ok(Parsed(node, at)) && node != PyInt(-1)
    requires Peek(toks, at + 1).kind == EOFTok
    ensures Forms(toks, i, acc) == Ok(acc + [node])
  {
  }

  /** A token stream without line terminators whose datum at the cursor
      ends just before the end of file is a program of that one form. */
  lemma ParseOneForm(file: string, toks: seq<Token>, i: nat, node: Value, at: nat)
    requires forall k :: 0 <= k < |toks| ==> toks[k].kind != Terminator
    requires Datum(toks, i) == Ok(Parsed(node, at)) && node != PyInt(-1)
    requires Peek(toks, at + 1).kind == EOFTok
    ensures Parsing.Parse(TokenStream(file, toks, i)) == Ok(Forest(file, [node]))
  {
    WithoutAbsent(toks, Terminator);
    FormsLast(toks, i, [], node, at);
    assert [] + [node] == [node];
  }

  /** The datum at the `(` of a parenthesised list of symbols. */
  lemma SymbolListDatum(toks: seq<Token>, lp: Token, syms: seq<Token>, rp: Token, eof: Token)
    requires toks == [lp] + syms + [rp, eof]
    requires lp.kind == LParen && rp.kind == RParen
    requires |syms| > 0 && forall k :: 0 <= k < |syms| ==> syms[k].kind == SymbolTok
    requires syms[0].text != "yield"
    ensures Datum(toks, 0)
            == Ok(Parsed(Call(Symbol(syms[0].text, syms[0].loc), SymbolsOf(syms[1..]), lp.loc), |syms| + 1))
  {
    var n := |syms|;
    assert forall k :: 1 <= k <= n ==> toks[k] == syms[k - 1];
    assert toks[n + 1] == rp && toks[0] == lp;
    DatumOfSymbolList(toks, 0, n - 1);
    assert toks[2..n + 1] == syms[1..];
  }

  /** A parenthesised list of symbols whose head is not `yield` parses to a
      call of the head symbol on the other symbols, at the `(`. */
  lemma ParseSymbolList(file: string, lp: Token, syms: seq<Token>, rp: Token, eof: Token)
    requires lp.kind == LParen && rp.kind == RParen && eof.kind == EOFTok
    requires |syms| > 0 && forall k :: 0 <= k < |syms| ==> syms[k].kind == SymbolTok
    requires syms[0].text != "yield"
    ensures var toks := [lp] + syms + [rp, eof];
            Parsing.Parse(TokenStream(file, toks, 0))
            == Ok(Forest(file, [Call(Symbol(syms[0].text, syms[0].loc), SymbolsOf(syms[1..]), lp.loc)]))
  {
    var toks := [lp] + syms + [rp, eof];
    var n := |syms|;
    SymbolListDatum(toks, lp, syms, rp, eof);
    assert forall k :: 1 <= k <= n ==> toks[k] == syms[k - 1];
    assert toks[n + 2] == eof && toks[0] == lp && toks[n + 1] == rp;
    var call := Call(Symbol(syms[0].text, syms[0].loc), SymbolsOf(syms[1..]), lp.loc);
    ParseOneForm(file, toks, 0, call, n + 1);
  }

  // ---------------------------------------------------------------------
  // The empty list, yield, a missing parenthesis, a stray parenthesis
  // ---------------------------------------------------------------------

  /** The datum at `(` `)`. */
  lemma EmptyListDatum(lp: Token, rp: Token, eof: Token)
    requires lp.kind == LParen && rp.kind == RParen
    ensures Datum([lp, rp, eof], 0) == Ok(Parsed(Call(PyNone, [], lp.loc), 1))
  {
    var toks := [lp, rp, eof];
    assert Peek(toks, 0) == lp && Peek(toks, 1) == rp;
    assert ListAt(toks, 0) == Ok(Parsed(Call(PyNone, [], lp.loc), 1));
  }

  /** `()` reads as a call with no head and no operands. */
  lemma ParseEmptyList(file: string, lp: Token, rp: Token, eof: Token)
    requires lp.kind == LParen && rp.kind == RParen && eof.kind == EOFTok
    ensures Parsing.Parse(TokenStream(file, [lp, rp, eof], 0)) == Ok(Forest(file, [Call(PyNone, [], lp.loc)]))
  {
    EmptyListDatum(lp, rp, eof);
    ParseOneForm(file, [lp, rp, eof], 0, Call(PyNone, [], lp.loc), 1);
  }

  /** `(yield x)` reads as a yield node wrapping `x`, at the `(`. */
  lemma ParseYield(file: string, lp: Token, y: Token, x: Token, rp: Token, eof: Token)
    requires lp.kind == LParen && rp.kind == RParen && eof.kind == EOFTok
    requires y.kind == SymbolTok && y.text == "yield" && x.kind == SymbolTok
    ensures Parsing.Parse(TokenStream(file, [lp, y, x, rp, eof], 0)) == Ok(Forest(file, [Yield(Symbol(x.text, x.loc), lp.loc)]))
  {
    var toks := [lp, y, x, rp, eof];
    DatumOfSymbolList(toks, 0, 1);
    assert toks[2..3] == [x];
    assert SymbolsOf(toks[2..3]) == [Symbol(x.text, x.loc)];
    ParseOneForm(file, toks, 0, Yield(Symbol(x.text, x.loc), lp.loc), 3);
  }

  /** The operand loop after `(f` meets the end of file. */
  lemma MissingParenOperands(lp: Token, f: Token, eof: Token)
    requires lp.kind == LParen && f.kind == SymbolTok && eof.kind == EOFTok
    ensures Operands([lp, f, eof], 1, []) == Fail(Thrown(Stage.Parse, eof.loc, MissingParen))
  {
    var toks := [lp, f, eof];
    var e := Thrown(Stage.Parse, eof.loc, MissingParen);
    assert Datum(toks, 2) == Ok(Parsed(PyInt(-1), 2));
    assert Operands(toks, 2, [PyInt(-1)]) == Fail(e);
  }

  /** The datum at the `(` of `(f` fails with the operand loop. */
  lemma MissingParenDatum(lp: Token, f: Token, eof: Token)
    requires lp.kind == LParen && f.kind == SymbolTok && eof.kind == EOFTok
    ensures Datum([lp, f, eof], 0) == Fail(Thrown(Stage.Parse, eof.loc, MissingParen))
  {
    MissingParenOperands(lp, f, eof);
    assert ListAt([lp, f, eof], 0) == Fail(Thrown(Stage.Parse, eof.loc, MissingParen));
  }

  /** `(f` with nothing after it is the missing-parenthesis error, reported
      at the end-of-file token. */
  lemma ParseMissingParen(file: string, lp: Token, f: Token, eof: Token)
    requires lp.kind == LParen && f.kind == SymbolTok && eof.kind == EOFTok
    ensures Parsing.Parse(TokenStream(file, [lp, f, eof], 0)) == Fail(Thrown(Stage.Parse, eof.loc, MissingParen))
  {
    var toks := [lp, f, eof];
    MissingParenDatum(lp, f, eof);
    WithoutAbsent(toks, Terminator);
    assert Forms(toks, 0, []) == Fail(Thrown(Stage.Parse, eof.loc, MissingParen));
  }

  /** A stray `)` at the top level is skipped. */
  lemma ParseStrayParen(file: string, rp: Token, eof: Token)
    requires rp.kind == RParen && eof.kind == EOFTok
    ensures Parsing.Parse(TokenStream(file, [rp, eof], 0)) == Ok(Forest(file, []))
  {
    WithoutAbsent([rp, eof], Terminator);
  }

  // ---------------------------------------------------------------------
  // Reading printed values back
  // ---------------------------------------------------------------------

  /** The datum of a printed numeral token is its integer. */
  lemma NumeralDatum(n: nat, t: Token, e: Token)
    requires t.kind == NumericTok && t.text == Printer.Digits(n)
    ensures Datum([t, e], 0) == Ok(Parsed(Numeric(n, t.loc), 0))
  {
    Printer.NumeralRoundTrip(n);
    assert Leaf(t, 0) == Ok(Parsed(Numeric(n, t.loc), 0));
  }

  /** The tokens of a printed numeral parse to its numeral node. */
  lemma ParseNumeralTokens(n: nat, file: string, t: Token, e: Token)
    requires t.kind == NumericTok && t.text == Printer.Digits(n) && e.kind == EOFTok
    ensures Parsing.Parse(TokenStream(file, [t, e], 0)) == Ok(Forest(file, [Numeric(n, t.loc)]))
  {
    NumeralDatum(n, t, e);
    ParseOneForm(file, [t, e], 0, Numeric(n, t.loc), 0);
  }

  /** A non-negative integer printed by `to_s` reads back, through the
      lexer and the parser, as the numeral node of that integer. */
  lemma ReadPrintedNumeral(n: nat, file: string)
    ensures var src := Printer.IntToString(n);
            Lex(src, file).Ok?
            && Parsing.Parse(Lex(src, file).value) == Ok(Forest(file, [Numeric(n, At(1, 1, |src|, file))]))
  {
    var d := Printer.Digits(n);
    assert Printer.IntToString(n) == d;
    LexingProps.LexNumeral(n, file);
    ParseNumeralTokens(n, file, MakeToken(NumericTok, d, 1, 1, file), MakeToken(EOFTok, [EOF], 1, 1 + |d|, file));
  }

  /** A name printed by `to_s` reads back as the same symbol, provided it
      is an identifier and does not start with `nil`. */
  lemma ReadPrintedSymbol(name: string, loc: Loc, file: string)
    requires |name| > 0 && IsSymChar(name[0])
    requires forall k :: 0 <= k < |name| ==> IsIdentChar(name[k])
    requires !(|name| >= 3 && name[..3] == "nil")
    ensures var src := Printer.ToS(Symbol(name, loc));
            Lex(src, file).Ok?
            && Parsing.Parse(Lex(src, file).value) == Ok(Forest(file, [Symbol(name, At(1, 1, |name|, file))]))
  {
    assert Printer.ToS(Symbol(name, loc)) == name;
    LexingProps.LexSymbol(name, file);
    var t := MakeToken(SymbolTok, name, 1, 1, file);
    var toks := [t, MakeToken(EOFTok, [EOF], 1, 1 + |name|, file)];
    assert Datum(toks, 0) == Ok(Parsed(Symbol(name, t.loc), 0));
    assert Peek(toks, 1).kind == EOFTok;
    ParseOneForm(file, toks, 0, Symbol(name, t.loc), 0);
  }
}
