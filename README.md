# MathGrammarScanner — a verified model of the expression grammar scanner

The math-expression parser checks the token list produced by its lexer
before building an expression tree. `MathGrammarScanner`
(`src/MathParser/Handlers/MathGrammarScanner.cs`) does this in one forward pass
over the tokens. It is a finite automaton whose edges say which token kinds
may follow the previous one. Beside the automaton it keeps a bracket counter.
It also keeps four parallel stacks that track open function calls: the name,
the separators seen, the required arity and the bracket depth at which the
call opened. A scan either accepts the list or stops at the first violation.

This project models that scanner in Dafny and proves what it guarantees.

- `tokens.dfy` (module `Tokens`): the nine token kinds and tokens, with
  counting helpers.
- `grammar.dfy` (module `Grammar`): the automaton. The constructor of the
  source builds four successor predicates and lets states share them by
  reference. Here `EdgeSet` names those four predicates, `Successors` gives
  the kinds each one matches, and `Edge` maps every state to its predicate.
- `session.dfy` (module `ScanModel`): the session fields as a value
  (`Session`). It has one function per session operation (`Enter`,
  `ArgLeave`, `Leave`, `Step`, `EndCheck`), and `Run` and `ScanOutcome` for a
  whole scan.
  Exceptions become the `ScanError` datatype.
- `scanner.dfy` (module `Scanner`): the class `MathGrammarScanner`. Its
  mutable fields mirror the source's, and a `Scan` method loops over the
  tokens. Each method is proved equal to the corresponding function of
  `ScanModel`.
- `properties.dfy` (module `ScanProperties`): the guarantees. These cover
  fail-fast scanning, the bracket counter, the end-of-input verdict, closing
  a call at its own depth, and the nesting invariant of the call stack.
- `scenarios.dfy` (module `Scenarios`): verdicts on small token patterns.
  Each one holds for every choice of token texts and function names.
- `reuse.dfy` (module `ScannerReuse`): one scanner object driven through two
  of those patterns in a row.

The arity table (`Tables.FunctionsArgsNumberTable` in the source) is a
`map<string, int>` given to the constructor. A stack is a `seq` whose last
element is the top.

## Where the code accepts more than its own grammar

The header comment of the scanner (MathGrammarScanner.cs:15-18) gives a formal
grammar. The model follows the code. The proofs show that the code accepts
token lists that grammar rejects:

- The state after the last token is never checked. `x +` is accepted, and so
  is a lone function name, which leaves its call on the stack
  (`TrailingOperatorAccepted`, `TrailingFunctionNameAccepted`).
- The bracket counter may go below zero and come back, so `x ) + f ( y` is
  accepted with `f` never closed (`UnderflowHidesOpenCall`). The stacks are
  guaranteed empty only when no prefix closes more brackets than it opened
  (`BalancedScanClosesCalls`).
- A separator always counts toward the innermost open call, at any bracket
  depth. So `f ( ( x , y ) )` passes for an `f` of arity 2
  (`NestedSeparatorCounts`).
- A separator with no open call, and a function name missing from the arity
  table, are not syntax errors in the source. They are runtime exceptions: a
  pop of an empty `Stack`, and a dictionary lookup of a missing key. The model
  reports them as `EmptyStack` and `UnknownFunction`. After an
  `UnknownFunction`, `functions` and `argumentsCounters` are one entry taller
  than the other two stacks, exactly as in the source. The next `Scan` resets
  them.
- A syntax error reports the offending token only, not the automaton state.

## Model

| member | source | states |
|---|---|---|
| `Grammar.SuccessorTable` | src/MathParser/Handlers/MathGrammarScanner.cs:36-89 | The start, BinaryOp, LBracket and FuncSeparator states allow {Variable, Constant, Number, FunctionName, LBracket, UnaryOp}. Variable, Constant, Number and RBracket share the set {BinaryOp, RBracket, FuncSeparator}. UnaryOp allows the start set minus UnaryOp. FunctionName allows only LBracket. |
| `Grammar.OnlyFunctionNameDemandsBracket` | src/MathParser/Handlers/MathGrammarScanner.cs:85-86 | A state admits exactly {LBracket} if and only if it was entered by a function name. |
| `ScanModel.Enter` | src/MathParser/Handlers/MathGrammarScanner.cs:262-268 | Opening a call pushes the name and a separator count of 0. It succeeds if and only if the name is in the arity table, and then also pushes the arity and the current bracket depth. A missing name fails with `UnknownFunction` after the first two pushes. Equal stack heights are preserved on success. |
| `ScanModel.ArgLeave` | src/MathParser/Handlers/MathGrammarScanner.cs:269-272 | A separator fails with `EmptyStack` if and only if no call is open, and then changes nothing. Otherwise it adds 1 to the innermost separator count only, and every other field is unchanged. |
| `ScanModel.Leave` | src/MathParser/Handlers/MathGrammarScanner.cs:273-300 | Closing a call pops exactly one entry from each of the four stacks. It succeeds if and only if separators + 1 equals the arity. Fewer arguments fail with `TooFewArguments`, and more fail with `TooManyArguments`, each naming the function. |
| `ScanModel.Step` | src/MathParser/Handlers/MathGrammarScanner.cs:105-216 | A token is rejected with `UnexpectedToken` if and only if its kind is outside the current edge's successor set, and a rejection leaves the session untouched. An accepted token moves to the edge of the state named by its kind. On success the stacks stay aligned and the counter changes by +1 for '(', -1 for ')' and 0 otherwise. |
| `ScanModel.EndCheck` | src/MathParser/Handlers/MathGrammarScanner.cs:241-260 | The end-of-input check succeeds if and only if the counter is 0. A negative counter reports a missing '(' and a positive one a missing ')'. |
| `ScanModel.Run` | src/MathParser/Handlers/MathGrammarScanner.cs:91-100 | A run starts from the reset session. It ends with aligned stacks if it succeeds, and in the state of the last token's kind, or the start state for an empty list. |
| `ScanModel.RunStopsAtFailure` | src/MathParser/Handlers/MathGrammarScanner.cs:232-240 | Once a run has failed, any further tokens leave the result unchanged. |
| `ScanProperties.AcceptedPrefixes` | src/MathParser/Handlers/MathGrammarScanner.cs:97-100 | In an accepted run, every prefix is accepted, and each token's kind is in the successor set of the state the prefix before it leaves. |
| `ScanProperties.AcceptedPrefixClosed` | src/MathParser/Handlers/MathGrammarScanner.cs:94-100 | Every prefix of an accepted run is itself accepted. |
| `ScanProperties.FailureIsUnique` | src/MathParser/Handlers/MathGrammarScanner.cs:94-100 | In a failed run, no index before a failing index is also failing, so there is at most one. Every prefix up to a failing index was accepted. |
| `ScanProperties.FirstFailure` | src/MathParser/Handlers/MathGrammarScanner.cs:91-103 | A failed run fails at exactly one index. Every prefix up to it was accepted. The result is that token's step, and it equals the run cut just after that token, so later tokens are never processed. |
| `ScanProperties.CounterTracksBrackets` | src/MathParser/Handlers/MathGrammarScanner.cs:151-181 | After any accepted token list, the counter equals the number of '(' minus the number of ')'. |
| `ScanProperties.ScanVerdict` | src/MathParser/Handlers/MathGrammarScanner.cs:241-260 | A scan succeeds if and only if every token is accepted and the brackets balance. A failed run reports its own error. Otherwise a negative balance reports a missing '(' and a positive one a missing ')'. |
| `ScanProperties.CallClosesAtItsOwnDepth` | src/MathParser/Handlers/MathGrammarScanner.cs:164-181 | An accepted ')' lowers the counter by 1. If the counter then equals the innermost recorded depth, the call is popped and its arity checked (too few, too many or success). Otherwise the stacks are unchanged and the step succeeds. |
| `ScanProperties.ClosingBracketMatchesInnermost` | src/MathParser/Handlers/MathGrammarScanner.cs:164-175 | In a nested session that accepts ')', every call outside the innermost one was recorded strictly below the depth the ')' returns to. So a ')' can only close the innermost open call. |
| `ScanProperties.StepKeepsNesting` | src/MathParser/Handlers/MathGrammarScanner.cs:127-181 | Every accepted token preserves the nesting invariant. Recorded depths strictly increase inwards and never exceed the counter. The innermost depth equals the counter exactly when a function name awaits its '('. |
| `ScanProperties.RunIsNested` | src/MathParser/Handlers/MathGrammarScanner.cs:164-175 | Every accepted run ends in a session satisfying the nesting invariant. |
| `ScanProperties.DepthsNonNegative` | src/MathParser/Handlers/MathGrammarScanner.cs:262-267 | If no prefix closes more brackets than it opened, every recorded call depth is at least 0. |
| `ScanProperties.BalancedScanClosesCalls` | src/MathParser/Handlers/MathGrammarScanner.cs:241-260 | A successful scan whose prefixes never underflow, and that does not end with a function name, leaves all four stacks empty. |
| `Scanner.MathGrammarScanner.constructor` | src/MathParser/Handlers/MathGrammarScanner.cs:21-90 | A new scanner holds the given arity table and starts at the start edge, with counter 0 and empty stacks. |
| `Scanner.MathGrammarScanner.Scan` | src/MathParser/Handlers/MathGrammarScanner.cs:91-103 | The outcome is `ScanOutcome` of the tokens alone, whatever an earlier scan left in the fields. The fields end as the run left them. |
| `Scanner.MathGrammarScanner.Visit` | src/MathParser/Handlers/MathGrammarScanner.cs:105-216 | The nine visit overloads. The new fields and the outcome are exactly `Step` of the old fields. |
| `Scanner.MathGrammarScanner.Reset` | src/MathParser/Handlers/MathGrammarScanner.cs:218-231 | Reset empties the four stacks, zeroes the counter and restores the start edge. |
| `Scanner.MathGrammarScanner.CompareBracketCounters` | src/MathParser/Handlers/MathGrammarScanner.cs:241-260 | Returns `EndCheck` of the current counter. |
| `Scanner.MathGrammarScanner.FunctionEnter` | src/MathParser/Handlers/MathGrammarScanner.cs:262-268 | Updates the fields exactly as `Enter` does. |
| `Scanner.MathGrammarScanner.FunctionArgLeave` | src/MathParser/Handlers/MathGrammarScanner.cs:269-272 | Updates the fields exactly as `ArgLeave` does. |
| `Scanner.MathGrammarScanner.FunctionLeave` | src/MathParser/Handlers/MathGrammarScanner.cs:273-300 | Updates the fields exactly as `Leave` does. |
| `Scenarios.UnopenedBracket` | src/MathParser/Handlers/MathGrammarScanner.cs:249-252 | `1 + x )` fails with a missing '('. |
| `Scenarios.OneArgumentTooMany` | src/MathParser/Handlers/MathGrammarScanner.cs:288-291 | `f ( x , y )` with f of arity 1 fails with `TooManyArguments(f)`. |
| `Scenarios.TwoArgumentsTooFew` | src/MathParser/Handlers/MathGrammarScanner.cs:284-287 | `f ( x )` with f of arity 2 fails with `TooFewArguments(f)`. |
| `Scenarios.NegatedBracket` | src/MathParser/Handlers/MathGrammarScanner.cs:57-64 | `- ( 2 * x )` is accepted: a unary operator may precede '('. |
| `Scenarios.TrailingOperatorAccepted` | src/MathParser/Handlers/MathGrammarScanner.cs:241-260 | `x +` is accepted: the final state is not checked. |
| `Scenarios.TrailingFunctionNameAccepted` | src/MathParser/Handlers/MathGrammarScanner.cs:127-139 | A lone known function name is accepted, and its call stays on the stack. |
| `Scenarios.UnderflowHidesOpenCall` | src/MathParser/Handlers/MathGrammarScanner.cs:164-181 | `x ) + f ( y` is accepted, with `f` still open. |
| `Scenarios.NestedSeparatorCounts` | src/MathParser/Handlers/MathGrammarScanner.cs:182-194 | `f ( ( x , y ) )` with f of arity 2 is accepted: the inner separator counts for `f`. |
| `Scenarios.SeparatorOutsideCall` | src/MathParser/Handlers/MathGrammarScanner.cs:269-272 | `( x , y )` fails with `EmptyStack`. |
| `Scenarios.EmptyCallRejected` | src/MathParser/Handlers/MathGrammarScanner.cs:79-80 | `f ( )` fails with `UnexpectedToken` at the ')'. |
| `Scenarios.MissingArityEntry` | src/MathParser/Handlers/MathGrammarScanner.cs:266 | A list that starts with a function name missing from the table fails with `UnknownFunction`, whatever tokens follow it. |
| `ScannerReuse.ReuseAfterFailure` | src/MathParser/Handlers/MathGrammarScanner.cs:218-231 | One scanner that fails a scan then gives the second scan the verdict of a fresh scan. |

## Left out

- The expression-tree evaluator (`src/Parser/Function/ExpTree/ExpNodes.cs`) is left out. It is floating-point arithmetic over `Math.*` calls. Its one non-numeric feature, a node with one or two children, carries nothing to prove.
- The one-dimensional search methods (`GoldenSection1.cs`, `Swan1.cs`) are left out. They are floating-point loops over an external function evaluator.
- The visitor plumbing (`EmptyTokenVisitor`, `Accept`) is replaced by a match on the token kind. The predicate classes (`*TokenPredicate`, `DisjunctionTokenPredicate`) become membership in `Successors`. Sharing one predicate object between states becomes `Edge` mapping those states to the same `EdgeSet`. Mutating a shared predicate after construction does not happen in the source and is not modelled.
- `int` is 32-bit in the source. The bracket counter, the separator counts and the arities are unbounded integers here. Wrap-around after 2^31 nested brackets or separators is not modelled.
- The exceptions' message, `Source` and `Data` strings become `ScanError` constructors. `UnexpectedToken` carries the token itself rather than its `ToString()`. A function's name is the token's `text`.
- The tokenizer and the tree builder are not part of this model.
