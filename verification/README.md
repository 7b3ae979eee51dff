# lispy in Dafny

A model of the `lispy` interpreter: a small Lisp whose pipeline is a
character-at-a-time lexer, a recursive-descent parser that builds a tree of
`Call`, `Symbol`, `Atom`, `Numeric`, `String`, `Uneval`, `Yield` and `Nil`
nodes, and a tree-walking evaluator. The evaluator has symbol tables, frozen
closure snapshots, a call stack, interned atoms and some thirty special forms:
`do`, `require`, `eval`, `if`, `unless`, the list forms, arithmetic,
comparisons, `let`, `lambda` and `define`.

Every user-facing error (`EX.throw`, which prints a diagnostic and exits)
becomes a `Fail(Thrown(stage, location, cause))` result. An uncaught Python
exception becomes `Fail(Crash(…))`. The interpreter's global state is a
record threaded through evaluation. Python's recursion limit becomes a fuel
bound.

| file | module | models |
|---|---|---|
| outcomes.dfy | `Outcomes` | locations, error stages and causes, `Result`, `Option` |
| values.dfy | `Values` | tree nodes and run-time values (`lispy/tree.py`, `Atomise`, `Definition`, `SymbolTable`) |
| symbols.dfy | `Symbols` | binding, `give_args`, `freeze`, `clean`, `current_tables`, `search_tables`, `symbol_declared` |
| pyops.dfy | `PyOps` | the Python operators the arithmetic, `=` and comparison forms apply |
| lists.dfy | `Lists` | `check_list` and the list algebra of `size`, `index`, `push`, `unshift`, `concat`, `concat!`, `pop`, `shift` |
| printer.dfy | `Printer` | `to_s`, with `str` of integers, `repr` of strings and `str.join` |
| paths.dfy | `Paths` | `name_node`, the file name `require` derives, `os.path.dirname` |
| lexing.dfy | `Lexing` | `lex`, `Token`, `TokenStream` |
| parsing.dfy | `Parsing` | `numeric`, `atom`, `parse` |
| evaluator.dfy | `Evaluator` | `evaluate`, `execute_method`, `visit`, `load_file` |
| lexing_props.dfy, parsing_props.dfy, evaluator_props.dfy | `LexingProps`, `ParsingProps`, `EvaluatorProps` | lemmas relating several operations |

## Model

| member | source | states |
|---|---|---|
| Values.NodeValue | lispy/tree.py:27-59 | a `Nil` node's value is `'nil'`; a call's value is its head; a data node's value is exactly its payload |
| Values.Push | lispy/tree.py:1-6 | pushing a form onto the tree appends it, keeping the earlier forms and the file |
| Symbols.NewTable | lispy/visitor.py:36-44 | a new table has the given scope, name and parameters, no bindings, no mutables, and is not frozen |
| Symbols.Freeze | lispy/visitor.py:45-51 | a snapshot is the table flagged frozen, with the same bindings |
| Symbols.Clean | lispy/visitor.py:78-79 | cleaning empties the bindings and changes nothing else |
| Symbols.Bind | lispy/visitor.py:53-61 | binding succeeds iff the name is new, mutable or starts with `$`. On success the name maps to the value and every other entry is kept. Otherwise it is the immutable-rebind error at the current location |
| Symbols.BindAllValues | lispy/visitor.py:75-76 | the argument loop binds parameter i to argument i unless a later parameter has the same name; other names keep their values |
| Symbols.GiveArgs | lispy/visitor.py:69-76 | the arity error iff the argument count differs from the parameter count; otherwise each parameter is bound to its argument and only parameter keys are added |
| Symbols.CurrentTables | lispy/visitor.py:105-109 | exactly the tables whose scope is active |
| Symbols.Search | lispy/visitor.py:119-125 | the binding found is from the LAST table holding the name; there is none iff no table holds it |
| Symbols.Lookup | lispy/visitor.py:112-133 | a lookup gives the last binding across frozen, active and call-stack tables. With some active table, absence or a binding to `None` is the unbound-symbol error at the current location |
| Symbols.Declared | lispy/visitor.py:137-144 | a name is declared iff some visible table holds it, whatever the value |
| Symbols.SearchFrozen | lispy/visitor.py:45-51 | snapshots resolve every name exactly as the tables they were taken from |
| Symbols.SearchLast | lispy/visitor.py:119-125 | a table added at the back shadows the rest when it holds the name, and is transparent otherwise |
| PyOps.PyEq | lispy/visitor.py:21-22 | atoms are equal iff their names are; comparing an atom with a non-atom fails; other values compare by value |
| PyOps.PyMod | lispy/visitor.py:525-527 | Python's `%`: quotient and remainder recompose the dividend, and the remainder has the divisor's sign |
| PyOps.PyModUnique | lispy/visitor.py:525-527 | any quotient/remainder pair with the remainder in the divisor's sign range is the one `%` computes |
| PyOps.Repeat | lispy/visitor.py:517-519 | string times integer has length count times length, and is empty for a count of zero or less |
| PyOps.RepeatAdd | lispy/visitor.py:517-519 | repeating m + n times is repeating m times followed by n times |
| PyOps.StrLessIrreflexive | lispy/visitor.py:533-540 | string `<` is irreflexive |
| PyOps.StrLessTransitive | lispy/visitor.py:533-540 | string `<` is transitive |
| PyOps.StrLessTotal | lispy/visitor.py:533-540 | any two strings are equal or ordered one way or the other |
| PyOps.Combine | lispy/visitor.py:507-531 | the operator applied per element: the integer sum, product or floored remainder; string repetition; `==` as 0/1; the type and zero-division failures |
| PyOps.Negate | lispy/visitor.py:511-513 | unary minus succeeds exactly on integers, giving the additive inverse |
| PyOps.Subtract | lispy/visitor.py:514-515 | binary minus succeeds exactly on two integers, and adding back the subtrahend gives the minuend |
| PyOps.TruthAtom | lispy/visitor.py:529-531 | indexing `[:false, :true]` with the result of the `==` reduction: `True` gives `:true`, `False` gives `:false`, negative indices count from the back, and anything else fails |
| PyOps.InOrder | lispy/visitor.py:533-567 | each of `<`, `>`, `<=`, `>=` on two integers or two strings is the matching order; mixed operands fail |
| Lists.ListOf | lispy/visitor.py:179-190 | a list is a node whose value is a call; a node holding a non-call node is the not-a-list error at its location; a non-node fails |
| Lists.ListOfSetValue | lispy/visitor.py:179-190 | a call stored into a wrapper is read back as a list |
| Lists.MakeList | lispy/visitor.py:339-347 | the call built from evaluated elements has exactly those elements; no elements gives head `None` |
| Lists.Size | lispy/visitor.py:349-358 | `size` is the element count of a list, and a non-list fails as `check_list` does |
| Lists.SlotAsWritten | lispy/visitor.py:387-396 | the slot the code computes is within 0..n, and is i for a non-negative index |
| Lists.Slot | lispy/visitor.py:387-396 | the wrap-around slot is in range; it is i for 0 <= i < n and n + i for -n <= i < 0 |
| Lists.SlotPeriodic | lispy/visitor.py:387-396 | shifting an index by the length selects the same slot |
| Lists.SlotAsWrittenAgrees | lispy/visitor.py:387-396 | the code's slot equals the wrap-around slot except when the magnitude is a multiple of n above n, where it is n |
| Lists.PickAsWritten | lispy/visitor.py:374-398 | a successful `index` as written yields an element of the list |
| Lists.Pick | lispy/visitor.py:374-398 | `index` succeeds iff the argument is a non-empty list and i < length, and then yields element i mod length. An empty list or i >= length is the respective error at the index operand |
| Lists.PickAsWrittenVersusPick | lispy/visitor.py:387-398 | the code crashes exactly on the negative indices whose magnitude is a multiple of the length above it; otherwise it agrees with the wrap-around |
| Lists.PickAsWrittenCounterexample | lispy/visitor.py:393-398 | index -4 into `'(1 2)` crashes as written and gives `1` with the wrap-around |
| Lists.Push | lispy/visitor.py:409-417 | `push` appends the elements after the list's elements, returns the same wrapper updated, and a non-list fails |
| Lists.Reverse | lispy/visitor.py:425 | element k of the reversal is element n-1-k of the input |
| Lists.Unshift | lispy/visitor.py:425-439 | `unshift` puts the elements, reversed, before the list's elements and returns the same wrapper updated |
| Lists.ListsOf | lispy/visitor.py:446-447 | every argument passes `check_list`, or the first failure is reported |
| Lists.FlattenHead | lispy/visitor.py:449-457 | the first element of a concatenation is never `None`, so the result is well formed |
| Lists.Concat | lispy/visitor.py:441-457 | `concat` of lists is a fresh unevaluated list of all their elements in order; empty lists add nothing |
| Lists.Replace | lispy/visitor.py:462-467 | `concat!` stores the result into its first argument's value slot (an unevaluated list, a `yield` or a call) and reading the slot back gives the result; an integer, string or `None` first argument is the source's attribute error; any other first argument is `Unsupported` (see "## Left out") |
| Lists.Taken | lispy/visitor.py:488-492 | the removal loop takes min(count, size) elements, none for a count of zero or less |
| Lists.Remove | lispy/visitor.py:469-499 | `pop`/`shift` remove `Taken` elements from the back/front and keep the rest in order; an empty list is returned untouched |
| Printer.DigitChar | lispy/visitor.py:158 | the digit character of d is a digit whose code is d above `'0'` |
| Printer.Digits | lispy/visitor.py:158 | decimal digits, at least one, with no leading zero |
| Printer.IntToString | lispy/visitor.py:158-161 | `str(i)`: a minus sign before the digits of -i for a negative i, the digits of i otherwise |
| Printer.DigitsRoundTrip | lispy/parsing.py:11-14 | the printed digits are a Python decimal numeral without `.` whose value is the number |
| Printer.NumeralRoundTrip | lispy/parsing.py:11-14 | `numeric` of `str(n)` gives n back |
| Printer.EscapeChar | lispy/visitor.py:154-155 | `repr` keeps a printable character that is neither the quote nor a backslash; an unprintable one without a named escape is `\x` and two hex digits, enough because only Latin-1 characters count as unprintable |
| Printer.PyRepr | lispy/visitor.py:154-155 | `repr` of a string is enclosed in matching quotes |
| Printer.PyReprPlain | lispy/visitor.py:154-155 | a plain string is shown as itself in single quotes |
| Printer.Join | lispy/visitor.py:170-171 | joining nothing is empty and joining one part is that part |
| Printer.JoinLength | lispy/visitor.py:170-171 | a join is as long as its parts plus one separator between each pair of neighbours |
| Printer.ToS | lispy/visitor.py:149-176 | an unevaluated node prints with a leading quote; a call prints in parentheses |
| Printer.ToSAll | lispy/visitor.py:570-571 | each operand printed in order |
| Paths.Drop1 | lispy/visitor.py:280 | the name without its first character |
| Paths.RequireName | lispy/visitor.py:264-288 | a `require` operand names a file iff it is a string, an atom or an unevaluated symbol; anything else is the not-a-name error at the operand |
| Paths.RequireNameForms | lispy/visitor.py:278-284 | `:foo`, `"foo"` and `'foo` all name the file `foo` |
| Paths.LastSlash | lispy/visitor.py:290 | the position of the last `/`, or -1 when there is none |
| Paths.StripSlashes | lispy/visitor.py:290 | removing the trailing slashes leaves a prefix that does not end in one |
| Paths.DirnameOfJoin | lispy/visitor.py:290-291 | the directory of `d/n` is `d` |
| Paths.DirOf | lispy/visitor.py:290 | the directory of the file a location names, empty for the implicit location; the partial location of an unclosed string and the absent location fail |
| Paths.Resolve | lispy/visitor.py:290-298 | `require` loads the sibling path if it exists, else that path with `.lispy`, else it is the file-not-found error |
| Paths.ResolveSibling | lispy/visitor.py:290-298 | a `require` in `d/f` looks for `d/name`, then `d/name.lispy` |
| Lexing.Run | lispy/lexing.py:13 | a greedy scan: every character read is in the class and the one after it is not |
| Lexing.AtomLen | lispy/lexing.py:20 | an atom match is `:`, a leading identifier character or digit, then the longest run of identifier characters |
| Lexing.SymbolLen | lispy/lexing.py:12-18 | a symbol match exists iff the first character is an identifier starter, and it runs to the last identifier character |
| Lexing.FractionEnd | lispy/lexing.py:21 | the optional fraction group covers only dots and digits |
| Lexing.RadixEnd | lispy/lexing.py:21 | the optional radix group covers only `x`, `o`, `b` and digits |
| Lexing.ExponentEnd | lispy/lexing.py:21 | the optional exponent group covers only `e` and a sign |
| Lexing.NumericLen | lispy/lexing.py:21 | a numeral match exists iff the first character is a digit, and never covers the end marker, a newline or a quote |
| Lexing.ScanStringAsWritten | lispy/lexing.py:203-226 | the string loop as written stops at the closing quote, or fails with the lexical error or an index error |
| Lexing.ScanString | lispy/lexing.py:203-230 | the corrected loop stops at the closing quote or reports the unclosed string, and never fails in any other way |
| Lexing.Classify | lispy/lexing.py:137-282 | one step of the scan loop, tried in the source's order. The end marker is recognised exactly at `'\0'`. A fixed-text token never reaches the end marker |
| Lexing.LexFrom | lispy/lexing.py:137-282 | the token list ends with exactly one EOF token; every token's span equals its text length; with the corrected string scan the only failure is the unclosed string |
| Lexing.Lex | lispy/lexing.py:126-135 | `lex` yields a stream at cursor 0 for the file, ending in one EOF token, with matching spans |
| Lexing.Current | lispy/lexing.py:59-62 | the focused token, or the EOF token at or past the end |
| Lexing.Next | lispy/lexing.py:84-88 | moves the cursor j forward and returns the token there, or the EOF token past the end |
| Lexing.Ahead | lispy/lexing.py:92-95 | the token j after the cursor without moving, or the EOF token past the end |
| Lexing.Back | lispy/lexing.py:98-100 | moves the cursor j back; it fails exactly when the new cursor is outside Python's index range, as there is no EOF fallback |
| Lexing.PushTokens | lispy/lexing.py:69-75 | pushing appends the tokens and keeps the cursor |
| Lexing.Without | lispy/lexing.py:107-113 | exactly the tokens of other kinds remain |
| Lexing.Purge | lispy/lexing.py:107-113 | `purge` replaces the tokens by those of other kinds and keeps the cursor |
| LexingProps.ScanStringAgrees | lispy/lexing.py:207-211 | the corrected string loop differs from the one as written only where the latter crashes with an index error |
| LexingProps.ScanStringAtEndOfInput | lispy/lexing.py:207-211 | a lone `"`, or `"\a`, at the end of input crashes as written; the corrected loop reports the unclosed string |
| LexingProps.LexUnclosedString | lispy/lexing.py:203-211 | with the corrected string scan, a source that opens a string and never closes it is the unclosed-string error |
| LexingProps.ScanAsWrittenUnclosed | lispy/lexing.py:203-211 | the source's string loop, from any offset after the opening quote, reports the unclosed string when the rest of the text is not empty and holds no quote and no backslash |
| LexingProps.UnclosedAsWritten | lispy/lexing.py:203-211 | for the source's own loop, `"` followed by non-empty text without quotes or backslashes is the unclosed-string error |
| LexingProps.LexComment | lispy/lexing.py:150-156 | a comment produces no token; only the EOF token follows, after the comment's columns |
| LexingProps.StepPunctuation | lispy/lexing.py:159-200 | `(`, `)` and `'` each give one token of their kind at the current line and column, and the column advances by 1 |
| LexingProps.StepNil | lispy/lexing.py:181-189 | `nil` gives a nil token of span 3 whatever follows, ahead of atoms and symbols |
| LexingProps.StepNewline | lispy/lexing.py:271-281 | a newline gives a terminator at its own column; the line advances and the column resets to 1 |
| LexingProps.StepSymbol | lispy/lexing.py:246-256 | an identifier starter that does not begin `nil` gives one symbol token spanning the longest identifier |
| LexingProps.StepNumeric | lispy/lexing.py:259-269 | a digit gives one numeric token spanning the numeral match |
| LexingProps.NumericLenDigits | lispy/lexing.py:21 | the numeral expression matches all of a digit run ended by the end marker |
| LexingProps.LexNumeral | lispy/lexing.py:259-269 | the printed form of a natural number lexes to one numeric token with its digits, then EOF |
| LexingProps.LexSymbol | lispy/lexing.py:246-256 | an identifier not starting with `nil` lexes to one symbol token, then EOF |
| LexingProps.LexNilPrefix | lispy/lexing.py:181-189 | `nilly` lexes as the nil token, then the symbol `ly` |
| Parsing.AllDigitsDecimal | lispy/parsing.py:14 | a run of digits is accepted by `int()` |
| Parsing.NumeralValue | lispy/parsing.py:11-14 | a numeral with `.` is a float (not modelled); a Python decimal gives its value; anything else makes `int()` fail |
| Parsing.Leaf | lispy/parsing.py:56-69 | a single-token datum stays at its token; a symbol token reads as the symbol node |
| Parsing.Datum | lispy/parsing.py:34-69 | reading a datum never moves the cursor back |
| Parsing.ListAt | lispy/parsing.py:38-55 | a list consumes at least its `(` and the token after it |
| Parsing.Operands | lispy/parsing.py:45-52 | the operand loop stops before a `)` and only appends to the operands read so far |
| Parsing.Close | lispy/parsing.py:52-55 | a list is closed iff its head is a node (and a `yield` head has an operand); a `yield` head makes a yield of the first operand, any other a call |
| Parsing.Forms | lispy/parsing.py:24-32 | top-level forms are appended after those read before |
| Parsing.Parse | lispy/parsing.py:16-32 | the tree belongs to the stream's file |
| ParsingProps.WithoutAbsent | lispy/lexing.py:107-113 | dropping a kind that does not occur changes nothing |
| ParsingProps.WithoutAppend | lispy/lexing.py:107-113 | `purge` keeps order: dropping a kind from a concatenation drops it from each part |
| ParsingProps.PurgeIdempotent | lispy/lexing.py:107-113 | purging twice is purging once |
| ParsingProps.DatumSymbol | lispy/parsing.py:58-59 | a symbol token reads as the symbol node at its location |
| ParsingProps.DatumQuote | lispy/parsing.py:62-63 | a quote wraps the next datum in an unevaluated node at the quote's location |
| ParsingProps.DatumList | lispy/parsing.py:38-55 | a `(` not closed at once reads the head, then the operands, then closes the list |
| ParsingProps.OperandsClose | lispy/parsing.py:46 | the operand loop stops at a `)` |
| ParsingProps.OperandsNext | lispy/parsing.py:46-51 | otherwise the loop reads one datum and continues after it |
| ParsingProps.OperandsOfSymbols | lispy/parsing.py:45-52 | the loop over m symbols closed by `)` reads exactly those symbols in order |
| ParsingProps.DatumOfSymbolList | lispy/parsing.py:38-55 | `(h a1 … am)` of symbols closes over the head and the operands in source order |
| ParsingProps.FormsLast | lispy/parsing.py:24-29 | the top-level loop stops after a datum followed by EOF |
| ParsingProps.ParseOneForm | lispy/parsing.py:16-29 | terminator-free tokens holding one datum before EOF parse to a tree of that one form |
| ParsingProps.SymbolListDatum | lispy/parsing.py:38-55 | the datum at the `(` of a list of symbols is the call of the head on the rest |
| ParsingProps.ParseSymbolList | lispy/parsing.py:38-55 | `(h a1 … an)` parses to the call of h on a1 … an, at the `(` |
| ParsingProps.EmptyListDatum | lispy/parsing.py:42-44 | the datum at `(` `)` is a headless call and consumes the `)` |
| ParsingProps.ParseEmptyList | lispy/parsing.py:42-44 | `()` parses to a call with no head and no operands |
| ParsingProps.ParseYield | lispy/parsing.py:53-54 | `(yield x)` parses to a yield node wrapping x, at the `(` |
| ParsingProps.MissingParenOperands | lispy/parsing.py:46-50 | the operand loop after `(f` meets EOF and fails |
| ParsingProps.MissingParenDatum | lispy/parsing.py:46-50 | the datum `(f` fails with the operand loop |
| ParsingProps.ParseMissingParen | lispy/parsing.py:46-50 | `(f` without `)` is the missing-parenthesis parse error at the EOF token |
| ParsingProps.ParseStrayParen | lispy/parsing.py:24-27 | a stray top-level `)` reads as -1 and is skipped |
| ParsingProps.NumeralDatum | lispy/parsing.py:56-57 | a printed numeral token reads as its integer |
| ParsingProps.ParseNumeralTokens | lispy/parsing.py:56-57 | the tokens of a printed numeral parse to its numeral node |
| ParsingProps.ReadPrintedNumeral | lispy/parsing.py:56-57 | a natural number printed by `to_s` lexes and parses back to its numeral node |
| ParsingProps.ReadPrintedSymbol | lispy/parsing.py:58-59 | a name printed by `to_s` lexes and parses back to the same symbol |
| Evaluator.Initial | lispy/visitor.py:87-91 | the start state is well formed: the `_main` table is the only table and scope, and `:true` and `:false` are interned |
| Evaluator.FrameTrans | lispy/visitor.py:639-663 | the stack discipline composes over successive evaluations |
| Evaluator.Eval | lispy/visitor.py:207-240 | evaluation keeps the state well formed, restores all three stacks, only adds tables and atoms, only appends output |
| Evaluator.EvalAll | lispy/visitor.py:339 | one value per operand, with the same frame guarantee |
| Evaluator.EvalCall | lispy/visitor.py:241-249 | an empty call is the empty-call error at its location |
| Evaluator.Dispatch | lispy/visitor.py:250-631 | every special form keeps the frame guarantee |
| Evaluator.Do | lispy/visitor.py:250-258 | `do` with no operands is `nil` at the form's location |
| Evaluator.EvalForm | lispy/visitor.py:308-314 | `eval` with more than one operand is the arity error and with none a crash; with one, a value that is not a node is returned as it is, and a node's `value` is evaluated and is the result |
| Evaluator.Branch | lispy/visitor.py:316-332 | `if` and `unless` keep the frame guarantee |
| Evaluator.ListForm | lispy/visitor.py:334-347 | `list` succeeds iff its operands evaluate; it gives an unevaluated list at the form's location, in the state after the operands, whose elements are the operands' values (unless the first value is `None`) |
| Evaluator.SizeForm | lispy/visitor.py:349-358 | `size` with extra operands is the arity error at the first; a result is the element count Lists.Size gives for the value of the one operand |
| Evaluator.IndexForm | lispy/visitor.py:360-398 | `index` without exactly two operands is the arity error at the form; a result needs an integer first operand and is the evaluation of the element Lists.Pick selects by it from the value of the second |
| Evaluator.Extend | lispy/visitor.py:400-439 | `push`/`unshift` with fewer than two operands is the matching arity error; a result is Lists.Push (or Lists.Unshift) of the values of all but the last operand onto the value of the last |
| Evaluator.ConcatForm | lispy/visitor.py:441-467 | `concat` with fewer than two operands is the arity error at the head; a result is Lists.Concat of the operands' values, and for `concat!` that list stored by Lists.Replace into the re-evaluated first operand, with the `Unsupported` case of the Lists.Replace line under "## Left out" |
| Evaluator.RemoveForm | lispy/visitor.py:469-505 | `pop`/`shift` on an unevaluated first operand is Lists.Remove of one element from it; otherwise the first operand must be an integer count and the result is Lists.Remove of that many from the value of the second |
| Evaluator.Fold | lispy/visitor.py:507-509 | a fold over no operands is its start value; each step is EvaluatorProps.FoldStep |
| Evaluator.Reduce | lispy/visitor.py:517-527 | `reduce` of no operands fails; otherwise EvaluatorProps.ReduceStep folds the rest from the first value |
| Evaluator.Minus | lispy/visitor.py:511-515 | a `-` result is an integer; EvaluatorProps.MinusOfTwoSteps gives its value |
| Evaluator.Equal | lispy/visitor.py:529-531 | a `=` result is `:true` or `:false`; EvaluatorProps.EqualOfTwo gives which |
| Evaluator.Chain | lispy/visitor.py:533-540 | the comparison loop gives `:true` or `:false`; each step is EvaluatorProps.ChainStep |
| Evaluator.Compare | lispy/visitor.py:533-567 | a comparison gives `:true` or `:false`; EvaluatorProps.CompareStep starts the loop |
| Evaluator.Text | lispy/visitor.py:569-589 | succeeds iff every operand evaluates; the text is `to_s` of the operands' values joined by a space (`string`, `out`) or a newline (`puts`); `string` writes nothing, `out` writes the text, `puts` the text and a newline |
| Evaluator.Declare | lispy/visitor.py:597 | binding into the innermost table succeeds iff `bind` allows it, sets the name and leaves other tables alone |
| Evaluator.Binding | lispy/visitor.py:594-597 | one `let` operand keeps the frame guarantee |
| Evaluator.Let | lispy/visitor.py:591-599 | `let` returns `None` |
| Evaluator.ParamNames | lispy/visitor.py:603-604 | one name per parameter, each the parameter node's value; a non-node parameter fails |
| Evaluator.NewScope | lispy/visitor.py:602-607 | a closure's table is appended under the next free scope id, with snapshots of every table visible from inside |
| Evaluator.Lambda | lispy/visitor.py:601-608 | `lambda` appends one table named `_lambda` under the next scope id declaring the parameter names, which are the values of the parameter nodes with the list's head first; the closure keeps the body, the parameter nodes, and snapshots of the current tables with the new one active |
| Evaluator.DefineClosure | lispy/visitor.py:613-625 | the new table gets the next scope id and declares the parameters; the closure takes the names as strings and snapshots the current tables with the new one active, before the name is bound; the name is then bound to the closure in the innermost table, which fails exactly when `bind` refuses the name |
| Evaluator.Define | lispy/visitor.py:610-625 | `define (f p…) body` creates one table and binds f to a closure over body whose name is f's value and whose parameters are the values of the p nodes; its snapshots are of the caller's current tables with the new one active |
| Evaluator.Apply | lispy/visitor.py:639-647 | calling a head that evaluates to a non-closure is the not-callable error at the head |
| Evaluator.Enter | lispy/visitor.py:648-655 | entering pushes the closure's snapshots, its scope when inactive, and a snapshot of the bound table |
| Evaluator.Leave | lispy/visitor.py:658-662 | leaving pops exactly what entering pushed and empties the callee's table |
| Evaluator.Invoke | lispy/visitor.py:648-663 | after a call the stacks equal those before and the callee table is empty; a wrong argument count is the arity error |
| Evaluator.Require | lispy/visitor.py:260-306 | `require` returns `:true` |
| Evaluator.LoadAll | lispy/visitor.py:264-305 | loading the named files keeps the frame guarantee and returns `:true` |
| Evaluator.Load | lispy/visitor.py:93-99 | loading a file evaluates its forms in the caller's state under the frame guarantee |
| Evaluator.Visit | lispy/visitor.py:667-672 | forms are evaluated in order; no forms leave the state unchanged |
| Evaluator.Run | lispy/visitor.py:667-672 | a run ends with only the main scope active and empty snapshot and call stacks |
| EvaluatorProps.EvalLeaves | lispy/visitor.py:207-240 | non-nodes are returned unchanged; `yield`, `nil` and unevaluated nodes evaluate to themselves; an atom is interned; a number or string gives its value; a symbol is looked up at its location |
| EvaluatorProps.CallOfSymbol | lispy/visitor.py:241-249 | a call with a symbol head goes to the special forms at the call's location |
| EvaluatorProps.FoldAddLiterals | lispy/visitor.py:507-509 | folding `+` over integer literals adds them all |
| EvaluatorProps.PlusIsFold | lispy/visitor.py:507-509 | `+` is the left fold of addition from 0 |
| EvaluatorProps.PlusLiterals | lispy/visitor.py:507-509 | `(+ n1 … nk)` is the sum of the literals, 0 for none |
| EvaluatorProps.MinusOfLiterals | lispy/visitor.py:511-515 | `-` on literals is the negation of one, or the first minus the sum of the rest |
| EvaluatorProps.MinusLiterals | lispy/visitor.py:511-515 | the same through the dispatcher |
| EvaluatorProps.ChainLiterals | lispy/visitor.py:533-540 | the comparison loop on literals gives `:true` iff every neighbouring pair is in order |
| EvaluatorProps.CompareLiterals | lispy/visitor.py:533-567 | each comparison form on literals gives `:true` iff every neighbouring pair is in order |
| EvaluatorProps.LessThanLiterals | lispy/visitor.py:533-540 | `(< n1 … nk)` on literals gives `:true` iff they are pairwise ordered |
| EvaluatorProps.ConsecutiveLtSorted | lispy/visitor.py:533-540 | pairwise `<` is strictly increasing |
| EvaluatorProps.EqualOfTwo | lispy/visitor.py:529-531 | `=` on two literals is `:true` iff they are equal |
| EvaluatorProps.EqualTwoLiterals | lispy/visitor.py:529-531 | the same through the dispatcher |
| EvaluatorProps.EqualOfTwoTwoOne | lispy/visitor.py:529-531 | `(= 2 2 1)` folds `2 == 2` to `True`, and `True == 1` holds |
| EvaluatorProps.EqualThreeLiterals | lispy/visitor.py:529-531 | so `(= 2 2 1)` is `:true`: `=` is meaningful only for two operands |
| EvaluatorProps.DoLiterals | lispy/visitor.py:250-258 | `do` without a yield gives `nil`, not its last value |
| EvaluatorProps.DoYield | lispy/visitor.py:250-258 | `(do (yield x) …)` gives x's value and evaluates nothing after |
| EvaluatorProps.BranchOfLiterals | lispy/visitor.py:316-332 | a three-operand `if`/`unless` takes the second operand iff its condition test holds, else the third |
| EvaluatorProps.IfAtom | lispy/visitor.py:316-323 | `if` on an atom literal takes its second operand iff the atom is `:true` |
| EvaluatorProps.UnlessNumber | lispy/visitor.py:325-332 | `unless` on an integer literal takes its second operand iff the integer is 0 |
| EvaluatorProps.BindingOne | lispy/visitor.py:594-597 | the `let` operand `(x n)` binds x to n in the innermost table |
| EvaluatorProps.LetOne | lispy/visitor.py:591-599 | `(let (x n))` binds x to n in the innermost table and returns `None` |
| EvaluatorProps.LookupMain | lispy/visitor.py:112-133 | at the top level a name bound in the main table is found |
| EvaluatorProps.LetThenLookup | lispy/visitor.py:591-599 | at the top level, `(let (x n))` followed by `x` gives n |
| EvaluatorProps.EmptyListFails | lispy/visitor.py:242-245 | evaluating `()` is the empty-call error at its location |
| EvaluatorProps.CallNumberFails | lispy/visitor.py:639-645 | calling a number is the not-callable error at the number |
| EvaluatorProps.SpecialFormsFirst | lispy/visitor.py:246-323 | `if` is always the special form, whatever the tables bind `if` to |
| EvaluatorProps.FoldMulLiterals | lispy/visitor.py:517-519 | folding `*` over integer literals multiplies the start value by all of them |
| EvaluatorProps.TimesLiterals | lispy/visitor.py:517-519 | `(* n1 … nk)` on literals is their product |
| EvaluatorProps.ModLiterals | lispy/visitor.py:525-527 | `(% a b)` on literals is Python's floored remainder, and a zero divisor is an uncaught error |
| EvaluatorProps.FoldStep | lispy/visitor.py:507-509 | one step of the left fold, for any operands: the first operand is evaluated and combined with the accumulator, and the fold goes on from the state it leaves |
| EvaluatorProps.ReduceStep | lispy/visitor.py:517-527 | `reduce` starts from the first operand's value and folds the rest, for any operands |
| EvaluatorProps.MinusOfTwoSteps | lispy/visitor.py:511-515 | with two or more operands, `-` is the first value minus the sum of the rest, each evaluated once |
| EvaluatorProps.ChainStep | lispy/visitor.py:533-540 | one step of the comparison loop, for any operands: out of order stops with `:false`, in order goes on from the new value |
| EvaluatorProps.CompareStep | lispy/visitor.py:533-567 | a comparison starts the loop from the first operand's value |
| EvaluatorProps.EvalAllLiterals | lispy/visitor.py:569-589 | integer literals evaluate to their values, in order, and write nothing |
| EvaluatorProps.TextLiterals | lispy/visitor.py:569-589 | `(string n1 … nk)` is the decimal texts joined by spaces and writes nothing; `out` also writes it; `puts` joins by newlines and writes the text and a newline |
| EvaluatorProps.StringReadsBack | lispy/visitor.py:569-571 | the text `string` gives for a natural number reads back as that number |
| EvaluatorProps.DoYieldStep | lispy/visitor.py:250-258 | when an operand of `do` yields, the result of the form is the evaluation of the yielded node |
| EvaluatorProps.BindingStep | lispy/visitor.py:594-597 | a `let` operand `(name value)` is the declaration of the name with the value's evaluation in the innermost table; a failing value fails the same way; a malformed operand crashes |
| EvaluatorProps.LetCons | lispy/visitor.py:591-599 | `let` binds its first operand and continues with the rest from the resulting state |
| EvaluatorProps.VisitStep | lispy/visitor.py:667-671 | `visit` evaluates the first form and continues from the state it leaves; an error in a form is the error of the run |
| EvaluatorProps.IndexFormAsWritten | lispy/visitor.py:360-398 | wherever the source's `index` does not crash, the model evaluates the element the source selects, or fails with the source's error |
| EvaluatorProps.CurrentTablesSnoc | lispy/visitor.py:105-109 | appending a table adds it to the current tables exactly when its scope is active |
| EvaluatorProps.CurrentTablesUnused | lispy/visitor.py:105-109 | activating a scope no table has leaves the current tables as they were |
| EvaluatorProps.DefineSnapshot | lispy/visitor.py:613-620 | the snapshots `define` takes resolve every name exactly as the caller's current tables do |
| EvaluatorProps.DefineNotInSnapshot | lispy/visitor.py:610-625 | a function defined under a name no current table holds does not find itself in its snapshots, while the name is bound to it in the caller's innermost table |
| EvaluatorProps.ApplyStep | lispy/visitor.py:639-647 | calling a node head that evaluates to a closure invokes it on the values of the operands |
| EvaluatorProps.InvokeParam | lispy/visitor.py:648-663 | a closure whose body is the symbol of one of its parameters returns the argument passed for it, whatever else binds the name |
| EvaluatorProps.LambdaCreates | lispy/visitor.py:601-608 | `(lambda (x) body)` makes a closure over body whose table is the next scope and declares just `x` |
| EvaluatorProps.LambdaIdentity | lispy/visitor.py:601-663 | `((lambda (x) x) n)` evaluates to n |

## Left out

- Floating point: a numeral containing `.` and true division `/` give `Unsupported`, as does `%` with a string left operand (string formatting).
- String escapes: the lexer keeps a string's contents as its loop builds them; the `ast.literal_eval` decoding of escapes is not modelled.
- Scope ids: the source uses `id(node)` of the `lambda`/`define` node; the model uses the next free table index. So evaluating the same `define` node twice makes two tables here. In the source it makes two tables with one id, and lookups by id find the first.
- Identity: `=` on two nodes or two closures and `is` on atoms compare object identity in the source. The model compares structurally, and compares atoms by name, which interning makes equivalent. Atom hash collisions are not modelled.
- Aliasing: `push`, `unshift`, `pop`, `shift` and `concat!` mutate a list in place. The model returns the updated wrapper, so other references to the same list do not see the change.
- Python's recursion limit is the `fuel` argument of the evaluator; running out is `OutOfFuel`. Two recursions of the source have no bound here: the parser's, once per form, and `visit`'s, once per top-level form (lispy/visitor.py:667-671). Evaluator.Visit spends no fuel per form, so a file with more top-level forms than the recursion limit allows runs here and fails in the source.
- `require` and `load_file`: the file system is the `files` map of the state. `os.path.isfile` is membership in it, and reading a file is looking it up.
- `out` and `puts` append to the `output` string of the state instead of writing to standard output.
- Debug tracing under `conf.DEBUG`, `walk` with its prelude auto-load, and `lispy/config.py` are left out.
- `lispy/err.py` is left out: it reads the source file, prints a coloured snippet and exits. The model records stage, location and cause. For an unclosed string the lexer passes a location without a file name, on which the reporter itself would fail; the model keeps that location as `Partial`.
- `lispy/tree.py` as it stands defines no `Yield` or `String` class, yet `lispy/parsing.py` and `lispy/visitor.py` build and test them; the model has both as node variants. `tree.Define` is never constructed and has no variant.
- The default location of `Token` is one dictionary shared by all tokens built without a location. The shared EOF token here has the location `Implicit` with no span.
- `TokenStream.pop`, `behind`, `size` and the `__str__` methods, and the box drawing of `tree.py`, are left out.
- A parameter, `let` name or function name whose node value is not a string gives `Unsupported`: table keys are strings here.
- Lists.Replace: a `concat!` first argument that is not an unevaluated list, a `yield` or a call gives `Unsupported`. That covers atoms, closures, `nil` and the number, symbol, atom and string nodes. In the source, `first.value = …` (lispy/visitor.py:465) succeeds on each of these plain objects and the form returns `first` with its new attribute. The model's values have no slot to hold a list there. `concat` has already checked that the first operand is a list, so such a value arises only when evaluating the first operand a second time gives a different value, as in `(concat! $x (do (let ($x nil)) (yield '(2))))` after `$x` was bound to a list.
- Where the documented behaviour and the code differ, the model follows the code. The exceptions are the two defects under "## Findings": there the evaluator and the lexer use the corrected definitions (the next lines name what that changes). `do` without a `yield` gives `nil`, not its last operand's value. There are no `_`, `break`, `next` or `prog` names, and no stack-overflow error other than running out of fuel.
- The macro-expansion pass, the driver scripts, the Tk front end and the older top-level copy of the interpreter are not part of this model.
- Evaluator.Eval: its contract states the frame guarantee only. The value of each leaf case is stated by EvaluatorProps.EvalLeaves, and compound forms by the EvaluatorProps lemmas for literal operands.
- Evaluator.Branch: its contract states the frame guarantee only; which operand is taken is stated by EvaluatorProps.BranchOfLiterals for literal branches.
- Evaluator.IndexForm: selects with the corrected Lists.Pick, so `(index -4 '(1 2))` gives 1 where the source raises an index error. EvaluatorProps.IndexFormAsWritten states that the model agrees with the source wherever the source does not crash.
- Evaluator.Do: its contract states the frame guarantee and the empty case; one step is EvaluatorProps.DoStep and EvaluatorProps.DoYieldStep.
- Evaluator.Binding: its contract states the frame guarantee only; what it binds is EvaluatorProps.BindingStep.
- Evaluator.Let: its contract states the frame guarantee and the `None` result; one step is EvaluatorProps.LetCons.
- Evaluator.Visit: its contract states the frame guarantee and the empty case; one step is EvaluatorProps.VisitStep.
- Evaluator.Require: the files loaded are not stated in its contract beyond the frame guarantee and the `:true` result.
- Parsing.Datum: its contract states cursor progress only. What it builds is stated by the ParsingProps lemmas for symbols, lists of symbols, `()`, `yield`, quotes, numerals and the missing parenthesis.
- Parsing.Parse: its contract states the file only; ParsingProps.ParseOneForm and the lemmas built on it state the forms.
- Printer.ToS: its contract states the shape of quoted and call output; the full text is its definition, and ParsingProps.ReadPrintedNumeral and ParsingProps.ReadPrintedSymbol read numbers and names back.
- Lists.Push: the elements are stated for a well-shaped list (an empty list has no operands) whose new head is not `None`; the other inputs are not covered.
- Lists.Unshift: the elements are stated for a well-shaped list whose new first element is not `None`.
- Lists.Remove: the remaining elements are stated for `pop`, and for `shift` when no element is `None`.
- Lists.PickAsWritten: its contract states only that a result is an element; Lists.PickAsWrittenVersusPick relates it to Lists.Pick.
- Lexing.LexFrom: runs the corrected Lexing.ScanString. Where the source's loop raises an index error (an opening quote, or an escape pair, right before the end of input) the model reports the unclosed string. LexingProps.ScanStringAgrees states that this is the only difference.
- Lexing.Lex: runs Lexing.LexFrom, so it has the same difference, and so do Evaluator.Load and Evaluator.Run.
- LexingProps.LexUnclosedString: proved for the corrected scan. In the source, an empty rest or a rest ending in an escape pair is an index error (LexingProps.ScanStringAtEndOfInput). LexingProps.UnclosedAsWritten proves the source's own loop agrees when the rest is non-empty and has no backslash.
- Printer.EscapeChar: every character above U+00FF counts as printable (Printer.Printable) and is kept. Python's `repr` escapes the ones whose Unicode category is not printable (U+2028, U+2029, format characters, unassigned code points) with `\u` or `\U` forms. The Unicode database is not modelled.
- Printer.PyReprPlain: inherits the same approximation above U+00FF through Printer.Printable, as does Printer.PyRepr.
- Lexing.ScanStringAsWritten: its contract states the outcomes only; LexingProps.ScanStringAgrees relates it to Lexing.ScanString.

## Findings

| source | as written | input that shows it | evidently intended | confidence | as-written member | corrected member |
|---|---|---|---|---|---|---|
| lispy/visitor.py:393-396 | a negative index is replaced by its magnitude, reduced modulo the length only when it exceeds the length, and subtracted from the length; a magnitude that is a multiple of the length above it gives the length itself, so `dlist[index]` raises an index error | `(index -4 '(1 2))` | the wrap-around the comment describes: element i mod length, here `1` | not executed | Lists.PickAsWritten | Lists.Pick |
| lispy/lexing.py:207-211 | the unclosed-string test looks only at the character after the current one, so an opening quote or an escape pair right before the end of input reads past the text and raises an index error | the source text `"` alone, or `"\a` | the "Unexpected EOF while reading string" lexical error | not executed | Lexing.ScanStringAsWritten | Lexing.ScanString |
