/**
 * The lexer (lispy/lexing.py): a character-at-a-time scanner that tracks
 * line and column and turns source text into tokens, and the cursor type
 * the parser walks the tokens with.
 *
 * The source matches atoms, symbols and numerals with regular expressions
 * anchored at the current position. Each of those expressions is a fixed
 * leading character class followed by greedy runs and optional groups whose
 * tail can always match the empty string, so the first match the regex engine
 * finds is the greedy one; here each is a character-class predicate and a
 * greedy scan.
 */
module Lexing {
  import opened Outcomes

  /** The end-of-input marker the lexer appends to the text. */
  const EOF: char := '\0'

  datatype Kind =
    | LParen | RParen | NilTok | UnevalTok | StringTok
    | AtomTok | SymbolTok | NumericTok | Terminator | EOFTok

  datatype Token = Token(kind: Kind, text: string, loc: Loc)

  /** A token built the way `Token.__init__` builds it: the span recorded in
      its location is the length of its text. */
  function MakeToken(kind: Kind, text: string, line: int, column: int, file: string): Token {
    Token(kind, text, At(line, column, |text|, file))
  }

  /** The shared token `current`, `next` and `ahead` return past the end. */
  const EofToken: Token := Token(EOFTok, [EOF], Implicit)

  // ---------------------------------------------------------------------
  // Character classes of the identifier and numeral expressions
  // ---------------------------------------------------------------------

  predicate IsDigit(c: char) {
    '0' <= c <= '9'
  }

  /** The characters an identifier may start with. */
  predicate IsSymChar(c: char) {
    c == '_' || ('A' <= c <= 'Z') || ('a' <= c <= 'z') || IsSymPunct(c)
  }

  /** The punctuation of the identifier's leading class: plus, minus,
      equals, less, greater, star, slash, percent, caret, ampersand,
      dollar, pound sign, hash, tilde, backslash, not sign, comma, dot,
      question and exclamation marks and the at sign. */
  predicate IsSymPunct(c: char) {
    || c == '+' || c == '-' || c == '=' || c == '<' || c == '>' || c == '*' || c == '/'
    || c == '%' || c == '^' || c == '&' || c == '$' || c == '\U{A3}' || c == '#' || c == '~'
    || c == '\\' || c == '\U{AC}' || c == ',' || c == '.' || c == '?' || c == '!' || c == '@'
  }

  /** The characters an identifier may continue with. */
  predicate IsIdentChar(c: char) {
    IsDigit(c) || c == '\'' || IsSymChar(c)
  }

  /** The characters allowed right after the `:` of an atom. */
  predicate IsAtomStart(c: char) {
    IsDigit(c) || IsSymChar(c)
  }

  /** The trailing class of the numeral expression, `[0-9a-fA-f]`; its
      range `A-f` also takes in `[`, `\`, `]`, `^`, `_` and the backquote. */
  predicate IsNumTail(c: char) {
    IsDigit(c) || ('A' <= c <= 'f')
  }

  /** Any character but a newline or the end marker (the comment body). */
  predicate NotLineEnd(c: char) {
    c != '\n' && c != EOF
  }

  /** Length of the longest run of characters satisfying `p` from `k`. */
  function Run(s: seq<char>, k: nat, p: char -> bool): (n: nat)
    requires k <= |s|
    ensures k + n <= |s|
    ensures forall j :: k <= j < k + n ==> p(s[j])
    ensures k + n == |s| || !p(s[k + n])
    decreases |s| - k
  {
    if k == |s| || !p(s[k]) then 0 else 1 + Run(s, k + 1, p)
  }

  /** Length of the atom match at `k` (0 when there is none). */
  function AtomLen(s: seq<char>, k: nat): (n: nat)
    requires k < |s|
    ensures k + n <= |s|
    ensures s[|s| - 1] == EOF ==> k + n < |s|
    ensures n > 0 ==> n >= 2 && s[k] == ':' && IsAtomStart(s[k + 1])
    ensures n > 0 ==> forall j :: k + 2 <= j < k + n ==> IsIdentChar(s[j])
    ensures n > 0 ==> k + n == |s| || !IsIdentChar(s[k + n])
  {
    if s[k] == ':' && k + 1 < |s| && IsAtomStart(s[k + 1]) then 2 + Run(s, k + 2, IsIdentChar) else 0
  }

  /** Length of the symbol match at `k` (0 when there is none). */
  function SymbolLen(s: seq<char>, k: nat): (n: nat)
    requires k < |s|
    ensures k + n <= |s|
    ensures s[|s| - 1] == EOF ==> k + n < |s|
    ensures n > 0 <==> IsSymChar(s[k])
    ensures n > 0 ==> forall j :: k + 1 <= j < k + n ==> IsIdentChar(s[j])
    ensures n > 0 ==> k + n == |s| || !IsIdentChar(s[k + n])
  {
    if IsSymChar(s[k]) then 1 + Run(s, k + 1, IsIdentChar) else 0
  }

  /** End of the optional group `(\.[0-9]+)?` starting at `p`. */
  function FractionEnd(s: seq<char>, p: nat): (q: nat)
    requires p <= |s|
    ensures p <= q <= |s|
    ensures forall j :: p <= j < q ==> s[j] == '.' || IsDigit(s[j])
  {
    if p + 1 < |s| && s[p] == '.' && IsDigit(s[p + 1]) then p + 1 + Run(s, p + 1, IsDigit) else p
  }

  /** End of the optional group `([xob][0-9]+)?` starting at `p`. */
  function RadixEnd(s: seq<char>, p: nat): (q: nat)
    requires p <= |s|
    ensures p <= q <= |s|
    ensures forall j :: p <= j < q ==> s[j] == 'x' || s[j] == 'o' || s[j] == 'b' || IsDigit(s[j])
  {
    if p + 1 < |s| && (s[p] == 'x' || s[p] == 'o' || s[p] == 'b') && IsDigit(s[p + 1]) then p + 1 + Run(s, p + 1, IsDigit) else p
  }

  /** End of the optional group `(e[\+\-]?)?` starting at `p`. */
  function ExponentEnd(s: seq<char>, p: nat): (q: nat)
    requires p <= |s|
    ensures p <= q <= |s|
    ensures forall j :: p <= j < q ==> s[j] == 'e' || s[j] == '+' || s[j] == '-'
  {
    if p < |s| && s[p] == 'e' then (if p + 1 < |s| && (s[p + 1] == '+' || s[p + 1] == '-') then p + 2 else p + 1) else p
  }

  /** Length of the numeral match at `k` (0 when there is none): digits,
      then each optional group greedily, then the trailing class. */
  function NumericLen(s: seq<char>, k: nat): (n: nat)
    requires k < |s|
    ensures k + n <= |s|
    ensures s[|s| - 1] == EOF ==> k + n < |s|
    ensures n > 0 <==> IsDigit(s[k])
    ensures forall j :: k <= j < k + n ==> s[j] != EOF && s[j] != '\n' && s[j] != '"'
  {
    if !IsDigit(s[k]) then 0
    else
      var p1 := k + Run(s, k, IsDigit);
      var p4 := ExponentEnd(s, RadixEnd(s, FractionEnd(s, p1)));
      p4 + Run(s, p4, IsNumTail) - k
  }

  // ---------------------------------------------------------------------
  // The scanner
  // ---------------------------------------------------------------------

  /** Where a string literal's scan stopped: the offset of the closing quote
      from the opening one, the line and column reached, and the contents. */
  datatype StringScan = StringScan(close: nat, line: int, column: int, contents: string)

  /** The string loop of `lex` as the source writes it: `s[i]` is the
      opening quote and `j` the offset being read. A newline is kept as the
      two characters `\n` and advances the line; an escape keeps the
      backslash and the next character and advances the column once; any
      other character advances the column. Neither quote advances the
      column. The test for the end marker looks one character ahead of `j`
      only, so an opening quote or an escape pair that sits right before the
      end marker makes the loop read past the text: an index error instead
      of the lexical error. */
  function ScanStringAsWritten(s: seq<char>, i: nat, j: nat, line: int, column: int, contents: string)
    : (r: Result<StringScan>)
    requires i + j <= |s|
    ensures r.Ok? ==> j <= r.value.close && i + r.value.close < |s| && s[i + r.value.close] == '"'
    ensures r.Fail? ==> r.error.Crash? || (r.error.Thrown? && r.error.stage == Syntax && r.error.cause == UnterminatedString)
    decreases |s| - (i + j)
  {
    if i + j >= |s| then Fail(Crash("IndexError: string index out of range"))
    else if s[i + j] == '"' then Ok(StringScan(j, line, column, contents))
    else if i + j + 1 >= |s| then Fail(Crash("IndexError: string index out of range"))
    else if s[i + j + 1] == EOF then Fail(Thrown(Syntax, Partial(line, column), UnterminatedString))
    else if s[i + j] == '\n' then ScanStringAsWritten(s, i, j + 1, line + 1, 1, contents + "\\n")
    else if s[i + j] == '\\' then ScanStringAsWritten(s, i, j + 2, line, column + 1, contents + ['\\', s[i + j + 1]])
    else ScanStringAsWritten(s, i, j + 1, line, column + 1, contents + [s[i + j]])
  }

  /** The string loop with the bounds test the error message promises: an
      opening quote or escape pair that reaches the final end marker is the
      lexical error, so the scan never reads past the text. Everything else
      is as written, including that an end marker inside the text followed
      by more text does not end the string. */
  function ScanString(s: seq<char>, i: nat, j: nat, line: int, column: int, contents: string)
    : (r: Result<StringScan>)
    requires i + j < |s| && s[|s| - 1] == EOF
    ensures r.Ok? ==> j <= r.value.close && i + r.value.close < |s| && s[i + r.value.close] == '"'
    ensures r.Fail? ==> r.error.Thrown? && r.error.stage == Syntax && r.error.cause == UnterminatedString
    decreases |s| - (i + j)
  {
    if s[i + j] == '"' then Ok(StringScan(j, line, column, contents))
    else if i + j + 1 == |s| || s[i + j + 1] == EOF then Fail(Thrown(Syntax, Partial(line, column), UnterminatedString))
    else if s[i + j] == '\n' then ScanString(s, i, j + 1, line + 1, 1, contents + "\\n")
    else if s[i + j] == '\\' then ScanString(s, i, j + 2, line, column + 1, contents + ['\\', s[i + j + 1]])
    else ScanString(s, i, j + 1, line, column + 1, contents + [s[i + j]])
  }

  /** Prepends a token to a scan result. */
  function Emit(t: Token, r: Result<seq<Token>>): (q: Result<seq<Token>>)
    requires t.kind != EOFTok && t.loc.At? && t.loc.span == |t.text|
    requires r.Ok? ==> EndsWithEof(r.value) && SpansMatch(r.value)
    ensures q.Ok? <==> r.Ok?
    ensures r.Ok? ==> q.value == [t] + r.value
    ensures q.Ok? ==> EndsWithEof(q.value) && SpansMatch(q.value)
    ensures r.Fail? ==> q == r
  {
    match r
    case Ok(ts) => Ok([t] + ts)
    case Fail(e) => Fail(e)
  }

  /** Every token's recorded span equals the length of its text. */
  predicate SpansMatch(ts: seq<Token>) {
    forall k :: 0 <= k < |ts| ==> ts[k].loc.At? && ts[k].loc.span == |ts[k].text|
  }

  /** Exactly one end-of-file token, and it comes last. */
  predicate EndsWithEof(ts: seq<Token>) {
    |ts| > 0 && ts[|ts| - 1].kind == EOFTok && forall k :: 0 <= k < |ts| - 1 ==> ts[k].kind != EOFTok
  }

  /** What the main loop of `lex` finds at an offset, checked in the
      source's order: the end marker, a comment (skipped up to the line
      end), a token whose text is the next `n` characters, the opening quote
      of a string, a newline, or any other character (skipped). */
  datatype Lexeme =
    | AtEnd
    | Comment(n: nat)
    | Fixed(kind: Kind, n: nat)
    | Quote
    | Newline
    | Other

  function Classify(s: seq<char>, i: nat): (x: Lexeme)
    requires i < |s| && s[|s| - 1] == EOF
    ensures x.AtEnd? <==> s[i] == EOF
    ensures x.Comment? ==> 0 < x.n && i + x.n < |s|
    ensures x.Fixed? ==> 0 < x.n && i + x.n < |s| && x.kind !in {EOFTok, StringTok, Terminator}
    ensures x.Quote? ==> s[i] == '"'
    ensures x.Newline? ==> s[i] == '\n'
    ensures x.Other? ==> s[i] != EOF
  {
    var c := s[i];
    if c == EOF then AtEnd
    else if c == ';' then Comment(Run(s, i, NotLineEnd))
    else if c == '(' then Fixed(LParen, 1)
    else if c == ')' then Fixed(RParen, 1)
    else if i + 3 <= |s| && s[i..i + 3] == "nil" then
      assert s[i + 2] == 'l';
      Fixed(NilTok, 3)
    else if c == '\'' then Fixed(UnevalTok, 1)
    else if c == '"' then Quote
    else if AtomLen(s, i) > 0 then Fixed(AtomTok, AtomLen(s, i))
    else if SymbolLen(s, i) > 0 then Fixed(SymbolTok, SymbolLen(s, i))
    else if NumericLen(s, i) > 0 then Fixed(NumericTok, NumericLen(s, i))
    else if c == '\n' then Newline
    else Other
  }

  /** The main loop of `lex` from offset `i` of `s`, which is the source with
      the end marker appended, at the given line and column. Every branch
      moves `i` forward without passing the final end marker, so the loop
      always meets it and emits the end-of-file token last. */
  function LexFrom(s: seq<char>, i: nat, line: int, column: int, file: string)
    : (r: Result<seq<Token>>)
    requires i < |s| && s[|s| - 1] == EOF
    ensures r.Ok? ==> EndsWithEof(r.value) && SpansMatch(r.value)
    ensures r.Fail? ==> r.error.Thrown? && r.error.stage == Syntax && r.error.cause == UnterminatedString
    decreases |s| - i
  {
    match Classify(s, i)
    case AtEnd => Ok([MakeToken(EOFTok, [EOF], line, column, file)])
    case Comment(n) => LexFrom(s, i + n, line, column + n, file)
    case Fixed(kind, n) =>
      Emit(MakeToken(kind, s[i..i + n], line, column, file), LexFrom(s, i + n, line, column + n, file))
    case Quote =>
      (match ScanString(s, i, 1, line, column, "")
       case Fail(e) => Fail(e)
       case Ok(sc) =>
         Emit(MakeToken(StringTok, sc.contents, line, column, file),
              LexFrom(s, i + sc.close + 1, sc.line, sc.column, file)))
    case Newline => Emit(MakeToken(Terminator, "\n", line, column, file), LexFrom(s, i + 1, line + 1, 1, file))
    case Other => LexFrom(s, i + 1, line, column + 1, file)
  }

  // ---------------------------------------------------------------------
  // Token streams
  // ---------------------------------------------------------------------

  /** `TokenStream`: the file, the tokens and the cursor. */
  datatype TokenStream = TokenStream(file: string, tokens: seq<Token>, i: int)

  /** `lex`: scans `src` followed by the end marker from line 1, column 1. */
  function Lex(src: string, file: string): (r: Result<TokenStream>)
    ensures r.Ok? ==> r.value.file == file && r.value.i == 0
    ensures r.Ok? ==> EndsWithEof(r.value.tokens) && SpansMatch(r.value.tokens)
  {
    match LexFrom(src + [EOF], 0, 1, 1, file)
    case Ok(ts) => Ok(TokenStream(file, ts, 0))
    case Fail(e) => Fail(e)
  }

  /** Python list indexing: a negative index counts from the end. */
  function PyAt<T>(s: seq<T>, k: int): (r: Result<T>)
    ensures r.Ok? <==> -|s| <= k < |s|
    ensures 0 <= k < |s| ==> r == Ok(s[k])
    ensures -|s| <= k < 0 ==> r == Ok(s[|s| + k])
  {
    if 0 <= k < |s| then Ok(s[k])
    else if -|s| <= k < 0 then Ok(s[|s| + k])
    else Fail(Crash("IndexError: list index out of range"))
  }

  /** The token at index `k`, or the shared end-of-file token past the end. */
  function Peek(tokens: seq<Token>, k: nat): Token {
    if k >= |tokens| then EofToken else tokens[k]
  }

  /** `current`: the focused token; the end-of-file token once the cursor
      is at or past the end. */
  function Current(ts: TokenStream): (r: Result<Token>)
    ensures ts.i >= |ts.tokens| ==> r == Ok(EofToken)
    ensures 0 <= ts.i ==> r == Ok(Peek(ts.tokens, ts.i))
  {
    if ts.i >= |ts.tokens| then Ok(EofToken) else PyAt(ts.tokens, ts.i)
  }

  /** `next`: moves the cursor `j` forward and returns the token there. */
  function Next(ts: TokenStream, j: int): (r: Result<(TokenStream, Token)>)
    ensures r.Ok? ==> r.value.0 == ts.(i := ts.i + j)
    ensures 0 <= ts.i + j ==> r == Ok((ts.(i := ts.i + j), Peek(ts.tokens, ts.i + j)))
  {
    var moved := ts.(i := ts.i + j);
    match Current(moved)
    case Ok(t) => Ok((moved, t))
    case Fail(e) => Fail(e)
  }

  /** `ahead`: the token `j` places after the cursor, without moving it. */
  function Ahead(ts: TokenStream, j: int): (r: Result<Token>)
    ensures ts.i + j >= |ts.tokens| ==> r == Ok(EofToken)
    ensures 0 <= ts.i + j ==> r == Ok(Peek(ts.tokens, ts.i + j))
  {
    if ts.i + j >= |ts.tokens| then Ok(EofToken) else PyAt(ts.tokens, ts.i + j)
  }

  /** `back`: moves the cursor `j` backward and returns the token there;
      there is no end-of-file fallback, so an out-of-range cursor fails. */
  function Back(ts: TokenStream, j: int): (r: Result<(TokenStream, Token)>)
    ensures r.Ok? <==> -|ts.tokens| <= ts.i - j < |ts.tokens|
    ensures r.Ok? ==> r.value.0 == ts.(i := ts.i - j)
    ensures 0 <= ts.i - j < |ts.tokens| ==> r.Ok? && r.value.1 == ts.tokens[ts.i - j]
  {
    var moved := ts.(i := ts.i - j);
    match PyAt(ts.tokens, moved.i)
    case Ok(t) => Ok((moved, t))
    case Fail(e) => Fail(e)
  }

  /** `push`: appends the given tokens. */
  function PushTokens(ts: TokenStream, more: seq<Token>): (r: TokenStream)
    ensures r.tokens == ts.tokens + more && r.i == ts.i && r.file == ts.file
  {
    ts.(tokens := ts.tokens + more)
  }

  /** The tokens of `tokens` whose kind is not `kind`, in order. */
  function Without(tokens: seq<Token>, kind: Kind): (r: seq<Token>)
    ensures forall t :: t in r <==> t in tokens && t.kind != kind
    ensures |r| <= |tokens|
  {
    if tokens == [] then []
    else if tokens[0].kind == kind then Without(tokens[1..], kind)
    else [tokens[0]] + Without(tokens[1..], kind)
  }

  /** `purge`: drops every token of one kind. */
  function Purge(ts: TokenStream, kind: Kind): (r: TokenStream)
    ensures r.tokens == Without(ts.tokens, kind) && r.i == ts.i && r.file == ts.file
  {
    ts.(tokens := Without(ts.tokens, kind))
  }
}
