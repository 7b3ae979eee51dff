/**
 * Properties of the lexer: the corrected string scan against the scan as
 * written, and what simple sources lex to.
 */
module LexingProps {
  import opened Outcomes
  import opened Lexing
  import Printer

  // ---------------------------------------------------------------------
  // The string scan as written and corrected
  // ---------------------------------------------------------------------

  /** The corrected scan changes nothing but the inputs on which the scan
      as written reads past the end of the text: wherever the two differ,
      the one as written fails with an index error. */
  lemma {:induction false} ScanStringAgrees(s: seq<char>, i: nat, j: nat, line: int, column: int, contents: string)
    requires i + j < |s| && s[|s| - 1] == EOF
    ensures ScanStringAsWritten(s, i, j, line, column, contents) == ScanString(s, i, j, line, column, contents)
            || ScanStringAsWritten(s, i, j, line, column, contents) == Fail(Crash("IndexError: string index out of range"))
    decreases |s| - (i + j)
  {
    if s[i + j] == '"' || i + j + 1 == |s| || s[i + j + 1] == EOF {
    } else if s[i + j] == '\n' {
      ScanStringAgrees(s, i, j + 1, line + 1, 1, contents + "\\n");
    } else if s[i + j] == '\\' {
      ScanStringAgrees(s, i, j + 2, line, column + 1, contents + ['\\', s[i + j + 1]]);
    } else {
      ScanStringAgrees(s, i, j + 1, line, column + 1, contents + [s[i + j]]);
    }
  }

  /** A quote as the last character of the source (`"`), and an escape
      pair as the last two (`"\a`): the scan as written reads past the end
      marker and fails with an index error, the corrected scan reports the
      unclosed string. */
  lemma ScanStringAtEndOfInput()
    ensures ScanStringAsWritten(['"', EOF], 0, 1, 1, 1, "") == Fail(Crash("IndexError: string index out of range"))
    ensures ScanString(['"', EOF], 0, 1, 1, 1, "") == Fail(Thrown(Syntax, Partial(1, 1), UnterminatedString))
    ensures ScanStringAsWritten(['"', '\\', 'a', EOF], 0, 1, 1, 1, "") == Fail(Crash("IndexError: string index out of range"))
    ensures ScanString(['"', '\\', 'a', EOF], 0, 1, 1, 1, "") == Fail(Thrown(Syntax, Partial(1, 2), UnterminatedString))
  {
    var s := ['"', '\\', 'a', EOF];
    assert ScanStringAsWritten(s, 0, 1, 1, 1, "") == ScanStringAsWritten(s, 0, 3, 1, 2, "\\a");
    assert ScanString(s, 0, 1, 1, 1, "") == ScanString(s, 0, 3, 1, 2, "\\a");
  }

  /** Whatever follows an opening quote, the lexer either finds the closing
      quote or reports the unclosed string; it never fails otherwise. */
  lemma LexUnclosedString(t: string, file: string)
    requires forall k :: 0 <= k < |t| ==> t[k] != '"'
    ensures Lex("\"" + t, file).Fail?
    ensures Lex("\"" + t, file).error.Thrown? && Lex("\"" + t, file).error.cause == UnterminatedString
  {
    var s := "\"" + t + [EOF];
    assert s[0] == '"';
  }

  /** The scan as written reports the unclosed string when the rest of the
      text holds no quote and no backslash and is not empty: no escape
      pair can jump over the end marker. */
  lemma {:induction false} ScanAsWrittenUnclosed(s: seq<char>, j: nat, line: int, column: int, contents: string)
    requires 1 <= j < |s| - 1 && s[|s| - 1] == EOF
    requires forall k :: j <= k < |s| - 1 ==> s[k] != '"' && s[k] != '\\'
    ensures var r := ScanStringAsWritten(s, 0, j, line, column, contents);
            r.Fail? && r.error.Thrown? && r.error.cause == UnterminatedString
    decreases |s| - j
  {
    if s[j + 1] != EOF {
      if s[j] == '\n' {
        ScanAsWrittenUnclosed(s, j + 1, line + 1, 1, contents + "\\n");
      } else {
        ScanAsWrittenUnclosed(s, j + 1, line, column + 1, contents + [s[j]]);
      }
    }
  }

  /** For the source's own string loop: an opening quote followed by text
      with no quote and no backslash is the unclosed-string error when that
      text is not empty (and, by ScanStringAtEndOfInput, an index error
      when it is). */
  lemma UnclosedAsWritten(t: string)
    requires t != [] && forall k :: 0 <= k < |t| ==> t[k] != '"' && t[k] != '\\'
    ensures var r := ScanStringAsWritten("\"" + t + [EOF], 0, 1, 1, 1, "");
            r.Fail? && r.error.Thrown? && r.error.cause == UnterminatedString
  {
    var s := "\"" + t + [EOF];
    forall k | 1 <= k < |s| - 1 ensures s[k] != '"' && s[k] != '\\' {
      assert s[k] == t[k - 1];
    }
    ScanAsWrittenUnclosed(s, 1, 1, 1, "");
  }

  // ---------------------------------------------------------------------
  // Simple sources
  // ---------------------------------------------------------------------

  /** A greedy run that meets a character outside the class at `m` has
      length `m - k`. */
  lemma {:induction false} RunUpTo(s: seq<char>, k: nat, m: nat, p: char -> bool)
    requires k <= m < |s|
    requires forall j :: k <= j < m ==> p(s[j])
    requires !p(s[m])
    ensures Run(s, k, p) == m - k
    decreases m - k
  {
    if k < m {
      RunUpTo(s, k + 1, m, p);
    }
  }

  /** A source that is one comment lexes to the end-of-file token alone,
      placed after the comment. */
  lemma LexComment(text: string, file: string)
    requires forall k :: 0 <= k < |text| ==> text[k] != '\n' && text[k] != EOF
    ensures Lex(";" + text, file) == Ok(TokenStream(file, [MakeToken(EOFTok, [EOF], 1, 2 + |text|, file)], 0))
  {
    var s := ";" + text + [EOF];
    assert forall k :: 0 <= k < |text| + 1 ==> NotLineEnd(s[k]) by {
      forall k | 0 <= k < |text| + 1 ensures NotLineEnd(s[k]) {
        if k > 0 { assert s[k] == text[k - 1]; }
      }
    }
    assert s[|text| + 1] == EOF;
    RunUpTo(s, 0, |text| + 1, NotLineEnd);
    assert LexFrom(s, 0, 1, 1, file) == LexFrom(s, |text| + 1, 1, 2 + |text|, file);
  }

  /** One step of the scanner at a token of fixed text. */
  lemma StepFixed(s: seq<char>, i: nat, kind: Kind, n: nat, line: int, column: int, file: string)
    requires i < |s| && s[|s| - 1] == EOF && Classify(s, i) == Fixed(kind, n)
    ensures i + n < |s|
    ensures LexFrom(s, i, line, column, file)
            == Emit(MakeToken(kind, s[i..i + n], line, column, file), LexFrom(s, i + n, line, column + n, file))
  {
    match Classify(s, i)
    case Fixed(_, _) =>
  }

  /** `(`, `)` and the quote each give one token of their own character at
      the current position, and the scan goes on one column further. */
  lemma StepPunctuation(s: seq<char>, i: nat, line: int, column: int, file: string)
    requires i < |s| && s[|s| - 1] == EOF
    requires s[i] == '(' || s[i] == ')' || s[i] == '\''
    ensures var kind := if s[i] == '(' then LParen else if s[i] == ')' then RParen else UnevalTok;
            LexFrom(s, i, line, column, file)
            == Emit(MakeToken(kind, [s[i]], line, column, file), LexFrom(s, i + 1, line, column + 1, file))
  {
    assert s[i..i + 1] == [s[i]];
    assert !(i + 3 <= |s| && s[i..i + 3] == "nil") by {
      if i + 3 <= |s| { assert s[i..i + 3][0] == s[i]; }
    }
  }

  /** `nil` at the current position is a nil token of span 3, whatever
      follows it, so it wins over atoms and symbols. */
  lemma StepNil(s: seq<char>, i: nat, line: int, column: int, file: string)
    requires i + 3 < |s| && s[|s| - 1] == EOF && s[i..i + 3] == "nil"
    ensures LexFrom(s, i, line, column, file)
            == Emit(MakeToken(NilTok, "nil", line, column, file), LexFrom(s, i + 3, line, column + 3, file))
  {
    assert s[i] == 'n';
  }

  /** A newline outside a string is a terminator token at its own column;
      the scan goes on at column 1 of the next line. */
  lemma StepNewline(s: seq<char>, i: nat, line: int, column: int, file: string)
    requires i < |s| && s[|s| - 1] == EOF && s[i] == '\n'
    ensures LexFrom(s, i, line, column, file)
            == Emit(MakeToken(Terminator, "\n", line, column, file), LexFrom(s, i + 1, line + 1, 1, file))
  {
    assert !(i + 3 <= |s| && s[i..i + 3] == "nil") by {
      if i + 3 <= |s| { assert s[i..i + 3][0] == s[i]; }
    }
    assert !IsSymChar(s[i]) && !IsDigit(s[i]);
  }

  /** An identifier character that does not begin `nil` starts a symbol. */
  lemma ClassifySymbol(s: seq<char>, i: nat)
    requires i < |s| && s[|s| - 1] == EOF
    requires IsSymChar(s[i]) && !(i + 3 <= |s| && s[i..i + 3] == "nil")
    ensures Classify(s, i) == Fixed(SymbolTok, SymbolLen(s, i))
  {
    assert s[i] != ':' && s[i] != '\'' && s[i] != '"' && s[i] != ';' && s[i] != '(' && s[i] != ')';
  }

  /** A digit starts a numeral. */
  lemma ClassifyNumeric(s: seq<char>, i: nat)
    requires i < |s| && s[|s| - 1] == EOF && IsDigit(s[i])
    ensures Classify(s, i) == Fixed(NumericTok, NumericLen(s, i))
  {
    assert !(i + 3 <= |s| && s[i..i + 3] == "nil") by {
      if i + 3 <= |s| { assert s[i..i + 3][0] == s[i]; }
    }
    assert !IsSymChar(s[i]);
  }

  /** One step of the scanner at an identifier character. */
  lemma StepSymbol(s: seq<char>, i: nat, n: nat, line: int, column: int, file: string)
    requires i < |s| && s[|s| - 1] == EOF
    requires IsSymChar(s[i]) && !(i + 3 <= |s| && s[i..i + 3] == "nil")
    requires n == SymbolLen(s, i)
    ensures LexFrom(s, i, line, column, file)
            == Emit(MakeToken(SymbolTok, s[i..i + n], line, column, file), LexFrom(s, i + n, line, column + n, file))
  {
    ClassifySymbol(s, i);
    StepFixed(s, i, SymbolTok, n, line, column, file);
  }

  /** One step of the scanner at a digit. */
  lemma StepNumeric(s: seq<char>, i: nat, n: nat, line: int, column: int, file: string)
    requires i < |s| && s[|s| - 1] == EOF
    requires IsDigit(s[i]) && n == NumericLen(s, i)
    ensures LexFrom(s, i, line, column, file)
            == Emit(MakeToken(NumericTok, s[i..i + n], line, column, file), LexFrom(s, i + n, line, column + n, file))
  {
    ClassifyNumeric(s, i);
    StepFixed(s, i, NumericTok, n, line, column, file);
  }

  /** The numeral expression matches all of a run of digits that the end
      marker follows. */
  lemma NumericLenDigits(d: string)
    requires |d| > 0 && forall k :: 0 <= k < |d| ==> IsDigit(d[k])
    ensures NumericLen(d + [EOF], 0) == |d|
  {
    var s := d + [EOF];
    assert forall k :: 0 <= k < |d| ==> IsDigit(s[k]) by {
      forall k | 0 <= k < |d| ensures IsDigit(s[k]) { assert s[k] == d[k]; }
    }
    assert s[|d|] == EOF;
    RunUpTo(s, 0, |d|, IsDigit);
    var p1 := Run(s, 0, IsDigit);
    assert FractionEnd(s, p1) == p1;
    assert RadixEnd(s, p1) == p1;
    assert ExponentEnd(s, p1) == p1;
    assert Run(s, p1, IsNumTail) == 0;
  }

  /** A source that is one token of `n` characters followed by the end
      marker lexes to that token and the end-of-file token. */
  lemma LexOneToken(src: string, kind: Kind, file: string)
    requires kind != EOFTok
    requires var s := src + [EOF];
             LexFrom(s, 0, 1, 1, file)
             == Emit(MakeToken(kind, src, 1, 1, file), LexFrom(s, |src|, 1, 1 + |src|, file))
    ensures Lex(src, file)
            == Ok(TokenStream(file, [MakeToken(kind, src, 1, 1, file), MakeToken(EOFTok, [EOF], 1, 1 + |src|, file)], 0))
  {
    var s := src + [EOF];
    assert s[|src|] == EOF;
    var rest := LexFrom(s, |src|, 1, 1 + |src|, file);
    assert rest == Ok([MakeToken(EOFTok, [EOF], 1, 1 + |src|, file)]);
    var t := MakeToken(kind, src, 1, 1, file);
    var e := Emit(t, rest);
    assert e == Ok([t] + rest.value);
    assert LexFrom(s, 0, 1, 1, file) == e;
    assert [t] + rest.value == [t, MakeToken(EOFTok, [EOF], 1, 1 + |src|, file)];
    assert Lex(src, file) == Ok(TokenStream(file, [t] + rest.value, 0));
  }

  /** The printed form of a non-negative integer lexes to one numeral token
      holding exactly its digits. */
  lemma LexNumeral(n: nat, file: string)
    ensures var d := Printer.Digits(n);
            Lex(Printer.IntToString(n), file)
            == Ok(TokenStream(file, [MakeToken(NumericTok, d, 1, 1, file), MakeToken(EOFTok, [EOF], 1, 1 + |d|, file)], 0))
  {
    var d := Printer.Digits(n);
    var s := d + [EOF];
    NumericLenDigits(d);
    assert s[0] == d[0];
    assert s[0..|d|] == d;
    StepNumeric(s, 0, |d|, 1, 1, file);
    LexOneToken(d, NumericTok, file);
  }

  /** An identifier that does not start with `nil` lexes to one symbol
      token holding the whole identifier. */
  lemma LexSymbol(name: string, file: string)
    requires |name| > 0 && IsSymChar(name[0])
    requires forall k :: 0 <= k < |name| ==> IsIdentChar(name[k])
    requires !(|name| >= 3 && name[..3] == "nil")
    ensures Lex(name, file)
            == Ok(TokenStream(file, [MakeToken(SymbolTok, name, 1, 1, file), MakeToken(EOFTok, [EOF], 1, 1 + |name|, file)], 0))
  {
    var s := name + [EOF];
    assert s[0] == name[0];
    assert forall k :: 1 <= k < |name| ==> IsIdentChar(s[k]) by {
      forall k | 1 <= k < |name| ensures IsIdentChar(s[k]) { assert s[k] == name[k]; }
    }
    assert s[|name|] == EOF;
    RunUpTo(s, 1, |name|, IsIdentChar);
    assert s[0..|name|] == name;
    assert !(3 <= |s| && s[0..3] == "nil") by {
      if |name| >= 3 { assert s[0..3] == name[..3]; }
      else if 3 <= |s| { assert s[0..3][|name|] == EOF; }
    }
    StepSymbol(s, 0, |name|, 1, 1, file);
    LexOneToken(name, SymbolTok, file);
  }

  /** A `nil` prefix is split off an identifier: `nilly` lexes as the nil
      token followed by the symbol `ly`. */
  lemma LexNilPrefix(file: string)
    ensures Lex("nilly", file)
            == Ok(TokenStream(file, [MakeToken(NilTok, "nil", 1, 1, file), MakeToken(SymbolTok, "ly", 1, 4, file),
                                     MakeToken(EOFTok, [EOF], 1, 6, file)], 0))
  {
    var s := "nilly" + [EOF];
    assert s[0..3] == "nil";
    assert s[3..6] != "nil" by { assert s[3..6][0] == 'l'; }
    assert Run(s, 4, IsIdentChar) == 1;
    assert SymbolLen(s, 3) == 2;
    assert s[3..5] == "ly";
    var eof := LexFrom(s, 5, 1, 6, file);
    assert eof == Ok([MakeToken(EOFTok, [EOF], 1, 6, file)]);
    StepSymbol(s, 3, 2, 1, 4, file);
    var a := MakeToken(NilTok, "nil", 1, 1, file);
    var b := MakeToken(SymbolTok, "ly", 1, 4, file);
    var ly := LexFrom(s, 3, 1, 4, file);
    assert ly == Emit(b, eof);
    assert ly == Ok([b] + eof.value);
    var all := LexFrom(s, 0, 1, 1, file);
    assert all == Emit(a, ly);
    assert all == Ok([a] + ly.value);
    assert [a] + ([b] + eof.value) == [a, b, MakeToken(EOFTok, [EOF], 1, 6, file)];
    assert Lex("nilly", file) == Ok(TokenStream(file, all.value, 0));
  }
}
