/**
 * Failure model of the interpreter.
 *
 * Every stage reports a user-facing error through `EX.throw`, which prints a
 * diagnostic and ends the process; here that becomes a `Thrown` failure that
 * records the stage, the location and the cause. Python exceptions the code
 * does not catch (an index past the end, an attribute missing on an int) end
 * the process as well and become `Crash`. Behaviour the model deliberately
 * does not cover (floating point, string %-formatting) becomes `Unsupported`,
 * and the evaluator's recursion bound becomes `OutOfFuel`.
 */
module Outcomes {

  /** A source position. `At` is what the lexer attaches to every token;
      `Implicit` is the location of the shared end-of-file token handed out
      once a token stream's cursor is past its end; `Partial` is the
      line/column-only location the lexer passes when a string is not closed;
      `Nowhere` is the evaluator's current location before any node ran. */
  datatype Loc =
    | At(line: int, column: int, span: nat, file: string)
    | Implicit
    | Partial(line: int, column: int)
    | Nowhere

  /** The three error kinds of the error reporter. */
  datatype Stage = Syntax | Parse | Execution

  datatype Cause =
    | UnterminatedString
    | MissingParen
    | ImmutableRebind(symbol: string)
    | WrongArity(table: string, expected: nat, got: nat)
    | Unbound(symbol: string)
    | EmptyCall
    | NotCallable
    | NotAName
    | FileNotFound(path: string)
    | EvalArity
    | SizeArity
    | IndexArity
    | IndexNotInt
    | NotUnevaluated
    | NotAList
    | EmptyIndex
    | IndexRange(index: int, last: int)
    | PushArity
    | UnshiftArity
    | ConcatArity
    | CountNotInt

  datatype Error =
    | Thrown(stage: Stage, loc: Loc, cause: Cause)
    | Crash(what: string)
    | Unsupported(what: string)
    | OutOfFuel

  datatype Result<+T> = Ok(value: T) | Fail(error: Error) {
    predicate IsFailure() {
      Fail?
    }

    function PropagateFailure<U>(): Result<U>
      requires Fail?
    {
      Fail(error)
    }

    function Extract(): T
      requires Ok?
    {
      value
    }
  }

  datatype Option<+T> = None | Some(value: T)
}
