/**
 * The printer `to_s` (lispy/visitor.py) and the pieces of Python's `str`
 * and `repr` it relies on: decimal integers, string literals as Python
 * shows them inside a list, and `str.join`.
 */
module Printer {
  import opened Outcomes
  import opened Values
  import Lexing
  import Parsing

  // ---------------------------------------------------------------------
  // Integers
  // ---------------------------------------------------------------------

  /** The decimal digit for `d`. */
  function DigitChar(d: nat): (c: char)
    requires d < 10
    ensures Lexing.IsDigit(c) && c as int - '0' as int == d
  {
    ('0' as int + d) as char
  }

  /** The decimal digits of `n`, most significant first, no leading zero. */
  function Digits(n: nat): (r: string)
    ensures |r| > 0 && forall k :: 0 <= k < |r| ==> Lexing.IsDigit(r[k])
    ensures |r| > 1 ==> r[0] != '0'
    decreases n
  {
    if n < 10 then [DigitChar(n)] else Digits(n / 10) + [DigitChar(n % 10)]
  }

  /** `str(i)` for an integer. */
  function IntToString(i: int): (r: string)
    ensures |r| > 0
    ensures i < 0 ==> r[0] == '-' && r[1..] == Digits(-i)
    ensures i >= 0 ==> r == Digits(i)
  {
    if i < 0 then "-" + Digits(-i) else Digits(i)
  }

  /** Reading the digits back gives the number: the parser's numeral
      conversion inverts the printer on non-negative integers. */
  lemma {:induction false} DigitsRoundTrip(n: nat)
    ensures Parsing.IsPyDecimal(Digits(n)) && '.' !in Digits(n)
    ensures Parsing.DecimalValue(Digits(n)) == n
    decreases n
  {
    var r := Digits(n);
    Parsing.AllDigitsDecimal(r);
    if n >= 10 {
      DigitsRoundTrip(n / 10);
      assert r[..|r| - 1] == Digits(n / 10);
    }
  }

  lemma NumeralRoundTrip(n: nat)
    ensures Parsing.NumeralValue(IntToString(n)) == Ok(n)
  {
    DigitsRoundTrip(n);
  }

  // ---------------------------------------------------------------------
  // repr of strings, str of lists, join
  // ---------------------------------------------------------------------

  /** The hexadecimal digit for `d`, lower case. */
  function HexChar(d: nat): char
    requires d < 16
  {
    if d < 10 then ('0' as int + d) as char else ('a' as int + d - 10) as char
  }

  /** Whether `repr` shows `c` as it is (besides the quote and the
      backslash): Python's `str.isprintable` on Latin-1, where the control
      characters, the no-break space and the soft hyphen are escaped. Every
      character above U+00FF counts as printable. */
  predicate Printable(c: char) {
    || (' ' <= c < '\U{7F}')
    || ('\U{A1}' <= c <= '\U{FF}' && c != '\U{AD}')
    || c > '\U{FF}'
  }

  /** How `repr` shows one character inside quotes `q`. */
  function EscapeChar(c: char, q: char): (r: string)
    ensures |r| >= 1
    ensures Printable(c) && c != q && c != '\\' ==> r == [c]
    ensures !Printable(c) && c != q && c != '\\' && c != '\n' && c != '\r' && c != '\t' ==>
              c as int < 0x100 && |r| == 4 && r[..2] == "\\x"
  {
    if c == q || c == '\\' then ['\\', c]
    else if c == '\n' then "\\n"
    else if c == '\r' then "\\r"
    else if c == '\t' then "\\t"
    else if !Printable(c) then "\\x" + [HexChar(c as int / 16 % 16), HexChar(c as int % 16)]
    else [c]
  }

  function Escape(s: string, q: char): string {
    if s == [] then "" else EscapeChar(s[0], q) + Escape(s[1..], q)
  }

  /** `repr(s)`: single quotes unless the text holds a single quote and no
      double quote. */
  function PyRepr(s: string): (r: string)
    ensures |r| >= 2 && r[0] == r[|r| - 1] && r[0] in "'\""
  {
    var q := if '\'' in s && '"' !in s then '"' else '\'';
    [q] + Escape(s, q) + [q]
  }

  /** A plain string is shown as itself in single quotes. */
  lemma {:induction false} EscapePlain(s: string, q: char)
    requires forall k :: 0 <= k < |s| ==> Printable(s[k]) && s[k] != q && s[k] != '\\'
    ensures Escape(s, q) == s
    decreases |s|
  {
    if s != [] {
      EscapePlain(s[1..], q);
    }
  }

  lemma PyReprPlain(s: string)
    requires forall k :: 0 <= k < |s| ==> Printable(s[k]) && s[k] != '\'' && s[k] != '\\'
    ensures PyRepr(s) == "'" + s + "'"
  {
    EscapePlain(s, '\'');
  }

  /** `sep.join(parts)`. */
  function Join(sep: string, parts: seq<string>): (r: string)
    ensures parts == [] ==> r == ""
    ensures |parts| == 1 ==> r == parts[0]
  {
    if parts == [] then ""
    else if |parts| == 1 then parts[0]
    else parts[0] + sep + Join(sep, parts[1..])
  }

  /** Joining with a separator adds one separator between neighbours. */
  lemma {:induction false} JoinLength(sep: string, parts: seq<string>)
    requires |parts| > 0
    ensures |Join(sep, parts)| == SumLengths(parts) + (|parts| - 1) * |sep|
    decreases |parts|
  {
    if |parts| > 1 {
      JoinLength(sep, parts[1..]);
    }
  }

  function SumLengths(parts: seq<string>): nat {
    if parts == [] then 0 else |parts[0]| + SumLengths(parts[1..])
  }

  /** `str(list_of_strings)`. */
  function ListRepr(parts: seq<string>): string {
    "[" + Join(", ", seq(|parts|, k requires 0 <= k < |parts| => PyRepr(parts[k]))) + "]"
  }

  // ---------------------------------------------------------------------
  // to_s
  // ---------------------------------------------------------------------

  /** `to_s`: `None` prints as nothing, a closure as its table name and
      parameters, an atom, symbol or number as its text, `nil` as itself,
      an unevaluated node with a leading quote, and a call as its head and
      operands in parentheses; string and yield nodes have no case and print
      as a placeholder. */
  function ToS(v: Value): (r: string)
    ensures v.Uneval? ==> |r| > 0 && r[0] == '\''
    ensures v.Call? ==> |r| >= 2 && r[0] == '(' && r[|r| - 1] == ')'
    decreases v
  {
    match v
    case PyNone => ""
    case Closure(d) =>
      "<definition`" + d.name + "' taking"
      + ListRepr(seq(|d.taking|, k requires 0 <= k < |d.taking| => ToS(d.taking[k]))) + ">"
    case AtomObj(n) => n
    case PyInt(i) => IntToString(i)
    case PyStr(s) => s
    case Symbol(n, _) => n
    case Atom(n, _) => n
    case Numeric(n, _) => IntToString(n)
    case Nil(_) => "nil"
    case Uneval(x, _) => "'" + ToS(x)
    case Call(h, ops, _) =>
      var joined := Join(" ", seq(|ops|, k requires 0 <= k < |ops| => ToS(ops[k])));
      "(" + ToS(h) + (if |joined| > 0 then " " + joined else "") + ")"
    case Str(_, _) => "UNMAPED_DATATYPE"
    case Yield(_, _) => "UNMAPED_DATATYPE"
  }

  /** `to_s` of every value, in order. */
  function ToSAll(vs: seq<Value>): (r: seq<string>)
    ensures |r| == |vs| && forall k :: 0 <= k < |vs| ==> r[k] == ToS(vs[k])
  {
    seq(|vs|, k requires 0 <= k < |vs| => ToS(vs[k]))
  }
}
