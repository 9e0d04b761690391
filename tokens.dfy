/** Classified lexical tokens, as the external lexer hands them to the grammar scanner. */
module Tokens {

  /** The nine token categories the scanner distinguishes (one Visit overload each). */
  datatype Kind =
    | Variable
    | Constant
    | Number
    | BinaryOp
    | UnaryOp
    | FunctionName
    | LBracket
    | RBracket
    | FuncSeparator

  /** A token: its category and its text (the function name for a FunctionName token). */
  datatype Token = Token(kind: Kind, text: string)

  /** Number of tokens of kind `k` in `ts`. */
  function Count(ts: seq<Token>, k: Kind): (n: nat)
    ensures n <= |ts|
    ensures n == 0 <==> forall i :: 0 <= i < |ts| ==> ts[i].kind != k
  {
    if ts == [] then 0
    else Count(ts[..|ts| - 1], k) + (if ts[|ts| - 1].kind == k then 1 else 0)
  }

  /** Bracket balance of `ts`: opening brackets minus closing brackets. */
  function Balance(ts: seq<Token>): int
  {
    Count(ts, LBracket) - Count(ts, RBracket)
  }
}
