/**
 * The scan session as a value, and one scan as a function of the token list.
 * The four call stacks are sequences whose last element is the top.
 */
module ScanModel {
  import opened Tokens
  import opened Grammar

  /** The bracket reported missing when the input ends unbalanced. */
  datatype Bracket = Open | Close

  /** The ways a scan can fail; the source throws an exception for each. */
  datatype ScanError =
    | UnexpectedToken(token: Token)      // token outside the current successor set
    | UnknownFunction(name: string)      // function name absent from the arity table
    | EmptyStack                         // ',' with no open function call: pop of an empty stack
    | TooFewArguments(call: string)    // call closed with fewer arguments than its arity
    | TooManyArguments(call: string)   // call closed with more arguments than its arity
    | UnbalancedBrackets(missing: Bracket)

  datatype Outcome = Ok | Fail(error: ScanError)

  /** The scanner's session fields: current edge, bracket counter and the four call stacks. */
  datatype Session = Session(
    edge: EdgeSet,
    counter: int,
    functions: seq<string>,
    argumentCounts: seq<int>,
    maxArguments: seq<int>,
    bracketValues: seq<int>)

  /** A session together with the outcome of the last operation on it. */
  datatype Progress = Progress(session: Session, outcome: Outcome)

  /** The session right after a reset: start edge, counter 0, empty stacks. */
  const Initial := Session(Edge(MathExp), 0, [], [], [], [])

  /** The four call stacks have equal height: one entry each per open call. */
  predicate Aligned(s: Session)
  {
    |s.functions| == |s.argumentCounts| == |s.maxArguments| == |s.bracketValues|
  }

  function Last<T>(s: seq<T>): T
    requires |s| > 0
  {
    s[|s| - 1]
  }

  function DropLast<T>(s: seq<T>): seq<T>
    requires |s| > 0
  {
    s[..|s| - 1]
  }

  /** Change in the bracket counter caused by accepting a token of kind `k`. */
  function Delta(k: Kind): int
  {
    if k == LBracket then 1 else if k == RBracket then -1 else 0
  }

  /**
   * Opening a function call: push the name and a separator count of 0; then
   * look the arity up (failing, with those two pushes done, on a missing
   * name) and push it with the current bracket depth.
   */
  function Enter(arities: map<string, int>, s: Session, name: string): (p: Progress)
    ensures p.outcome.Ok? <==> name in arities
    ensures p.outcome.Fail? ==> p.outcome.error == UnknownFunction(name)
    ensures p.session.functions == s.functions + [name]
    ensures p.session.argumentCounts == s.argumentCounts + [0]
    ensures p.outcome.Ok? ==>
      p.session.maxArguments == s.maxArguments + [arities[name]] &&
      p.session.bracketValues == s.bracketValues + [s.counter]
    ensures p.session.edge == s.edge && p.session.counter == s.counter
    ensures Aligned(s) && p.outcome.Ok? ==> Aligned(p.session)
  {
    var pushed := s.(functions := s.functions + [name], argumentCounts := s.argumentCounts + [0]);
    if name !in arities then Progress(pushed, Fail(UnknownFunction(name)))
    else Progress(pushed.(maxArguments := s.maxArguments + [arities[name]],
                          bracketValues := s.bracketValues + [s.counter]), Ok)
  }

  /** A separator: one more argument for the innermost call; a pop of an empty stack without one. */
  function ArgLeave(s: Session): (p: Progress)
    ensures p.outcome.Fail? <==> s.argumentCounts == []
    ensures p.outcome.Fail? ==> p == Progress(s, Fail(EmptyStack))
    ensures p.outcome.Ok? ==>
      |p.session.argumentCounts| == |s.argumentCounts| &&
      DropLast(p.session.argumentCounts) == DropLast(s.argumentCounts) &&
      Last(p.session.argumentCounts) == Last(s.argumentCounts) + 1
    ensures p.session.(argumentCounts := s.argumentCounts) == s
  {
    if s.argumentCounts == [] then Progress(s, Fail(EmptyStack))
    else
      var n := |s.argumentCounts| - 1;
      Progress(s.(argumentCounts := s.argumentCounts[n := s.argumentCounts[n] + 1]), Ok)
  }

  /**
   * Closing a function call: pop one entry from each stack and compare the
   * arguments seen (separators + 1) with the arity.
   */
  function Leave(s: Session): (p: Progress)
    requires Aligned(s) && s.bracketValues != []
    ensures Aligned(p.session)
    ensures p.session == s.(functions := DropLast(s.functions),
                            argumentCounts := DropLast(s.argumentCounts),
                            maxArguments := DropLast(s.maxArguments),
                            bracketValues := DropLast(s.bracketValues))
    ensures p.outcome.Ok? <==> Last(s.argumentCounts) + 1 == Last(s.maxArguments)
    ensures Last(s.argumentCounts) + 1 < Last(s.maxArguments) ==>
      p.outcome == Fail(TooFewArguments(Last(s.functions)))
    ensures Last(s.argumentCounts) + 1 > Last(s.maxArguments) ==>
      p.outcome == Fail(TooManyArguments(Last(s.functions)))
  {
    var expected := Last(s.maxArguments);
    var seen := Last(s.argumentCounts) + 1;
    var name := Last(s.functions);
    var popped := s.(functions := DropLast(s.functions),
                     argumentCounts := DropLast(s.argumentCounts),
                     maxArguments := DropLast(s.maxArguments),
                     bracketValues := DropLast(s.bracketValues));
    if expected == seen then Progress(popped, Ok)
    else if seen < expected then Progress(popped, Fail(TooFewArguments(name)))
    else Progress(popped, Fail(TooManyArguments(name)))
  }

  /**
   * One token: reject it unless the current edge matches its kind; otherwise
   * move to the edge of the state named by its kind and apply that state's
   * side effect.
   */
  function Step(arities: map<string, int>, s: Session, t: Token): (p: Progress)
    requires Aligned(s)
    ensures (p.outcome == Fail(UnexpectedToken(t))) <==> !Accepts(s.edge, t.kind)
    ensures !Accepts(s.edge, t.kind) ==> p.session == s
    ensures Accepts(s.edge, t.kind) ==> p.session.edge == Edge(After(t.kind))
    ensures p.outcome.Ok? ==> Aligned(p.session) && p.session.counter == s.counter + Delta(t.kind)
  {
    if !Accepts(s.edge, t.kind) then Progress(s, Fail(UnexpectedToken(t)))
    else
      var moved := s.(edge := Edge(After(t.kind)));
      match t.kind
      case FunctionName => Enter(arities, moved, t.text)
      case LBracket => Progress(moved.(counter := s.counter + 1), Ok)
      case RBracket =>
        var closed := moved.(counter := s.counter - 1);
        if closed.bracketValues != [] && closed.counter == Last(closed.bracketValues)
        then Leave(closed)
        else Progress(closed, Ok)
      case FuncSeparator => ArgLeave(moved)
      case _ => Progress(moved, Ok)
  }

  /** Feed `ts` to a freshly reset session, stopping at the first failure. */
  function Run(arities: map<string, int>, ts: seq<Token>): (p: Progress)
    ensures p.outcome.Ok? ==> Aligned(p.session)
    ensures p.outcome.Ok? ==> p.session.edge == (if ts == [] then Edge(MathExp) else Edge(After(Last(ts).kind)))
  {
    if ts == [] then Progress(Initial, Ok)
    else
      var before := Run(arities, DropLast(ts));
      if before.outcome.Fail? then before
      else Step(arities, before.session, Last(ts))
  }

  /**
   * The end-of-input check on the bracket counter: a negative counter means
   * more ')' than '(', so a '(' is missing; a positive one, a ')'.
   */
  function EndCheck(counter: int): (r: Outcome)
    ensures r.Ok? <==> counter == 0
    ensures counter < 0 ==> r == Fail(UnbalancedBrackets(Open))
    ensures counter > 0 ==> r == Fail(UnbalancedBrackets(Close))
  {
    if counter == 0 then Ok
    else Fail(UnbalancedBrackets(if counter < 0 then Open else Close))
  }

  /** A whole scan: the token run, then the end-of-input bracket check. */
  function ScanOutcome(arities: map<string, int>, ts: seq<Token>): Outcome
  {
    var p := Run(arities, ts);
    if p.outcome.Fail? then p.outcome else EndCheck(p.session.counter)
  }

  /** Once a run has failed, later tokens change nothing. */
  lemma {:induction false} RunStopsAtFailure(arities: map<string, int>, ts: seq<Token>, rest: seq<Token>)
    requires Run(arities, ts).outcome.Fail?
    ensures Run(arities, ts + rest) == Run(arities, ts)
    decreases |rest|
  {
    if rest == [] {
      assert ts + rest == ts;
    } else {
      assert DropLast(ts + rest) == ts + DropLast(rest);
      RunStopsAtFailure(arities, ts, DropLast(rest));
      assert Run(arities, DropLast(ts + rest)).outcome.Fail?;
    }
  }
}
