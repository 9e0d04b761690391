/**
 * The grammar scanner object. Its fields are the session state that every
 * scan resets and then updates token by token; the arity table is fixed at
 * construction.
 */
module Scanner {
  import opened Tokens
  import opened Grammar
  import opened ScanModel

  class MathGrammarScanner {
    /** Required argument count per function name. */
    const arities: map<string, int>

    var edgesCurrent: EdgeSet
    var bracketCounter: int
    var functions: seq<string>
    var argumentsCounters: seq<int>
    var maxArguments: seq<int>
    var bracketValues: seq<int>

    /** The session fields as a value. */
    function Snapshot(): Session
      reads this
    {
      Session(edgesCurrent, bracketCounter, functions, argumentsCounters, maxArguments, bracketValues)
    }

    constructor (arities: map<string, int>)
      ensures this.arities == arities
      ensures Snapshot() == Initial
    {
      this.arities := arities;
      edgesCurrent := Edge(MathExp);
      bracketCounter := 0;
      functions, argumentsCounters, maxArguments, bracketValues := [], [], [], [];
    }

    /**
     * Validate `tokens`. The outcome is that of a scan from the reset state,
     * whatever earlier scans left behind; the fields end as the run left them.
     */
    method Scan(tokens: seq<Token>) returns (outcome: Outcome)
      modifies this
      ensures outcome == ScanOutcome(arities, tokens)
      ensures Snapshot() == Run(arities, tokens).session
    {
      Reset();
      var i := 0;
      while i < |tokens|
        invariant 0 <= i <= |tokens|
        invariant Run(arities, tokens[..i]) == Progress(Snapshot(), Ok)
      {
        assert DropLast(tokens[..i + 1]) == tokens[..i];
        outcome := Visit(tokens[i]);
        if outcome.Fail? {
          assert tokens[..i + 1] + tokens[i + 1..] == tokens;
          RunStopsAtFailure(arities, tokens[..i + 1], tokens[i + 1..]);
          return;
        }
        i := i + 1;
      }
      assert tokens[..i] == tokens;
      outcome := CompareBracketCounters();
    }

    /** One token: the successor check, the transition and the state's side effect. */
    method Visit(t: Token) returns (outcome: Outcome)
      requires Aligned(Snapshot())
      modifies this
      ensures Progress(Snapshot(), outcome) == Step(arities, old(Snapshot()), t)
    {
      if !Accepts(edgesCurrent, t.kind) {
        return Fail(UnexpectedToken(t));
      }
      edgesCurrent := Edge(After(t.kind));
      match t.kind
      case FunctionName =>
        outcome := FunctionEnter(t.text);
      case LBracket =>
        bracketCounter := bracketCounter + 1;
        outcome := Ok;
      case RBracket =>
        bracketCounter := bracketCounter - 1;
        if |bracketValues| != 0 && bracketCounter == bracketValues[|bracketValues| - 1] {
          outcome := FunctionLeave();
        } else {
          outcome := Ok;
        }
      case FuncSeparator =>
        outcome := FunctionArgLeave();
      case _ =>
        outcome := Ok;
    }

    /** Empty stacks, counter 0, start edge. */
    method Reset()
      modifies this
      ensures Snapshot() == Initial
    {
      functions := [];
      argumentsCounters := [];
      maxArguments := [];
      bracketValues := [];
      bracketCounter := 0;
      edgesCurrent := Edge(MathExp);
    }

    /** The end-of-input check: the brackets must balance. */
    method CompareBracketCounters() returns (outcome: Outcome)
      ensures outcome == EndCheck(bracketCounter)
    {
      if bracketCounter != 0 {
        if bracketCounter < 0 {
          outcome := Fail(UnbalancedBrackets(Open));
        } else {
          outcome := Fail(UnbalancedBrackets(Close));
        }
      } else {
        outcome := Ok;
      }
    }

    method FunctionEnter(name: string) returns (outcome: Outcome)
      modifies this
      ensures Progress(Snapshot(), outcome) == Enter(arities, old(Snapshot()), name)
    {
      functions := functions + [name];
      argumentsCounters := argumentsCounters + [0];
      if name !in arities {
        return Fail(UnknownFunction(name));
      }
      maxArguments := maxArguments + [arities[name]];
      bracketValues := bracketValues + [bracketCounter];
      outcome := Ok;
    }

    method FunctionArgLeave() returns (outcome: Outcome)
      modifies this
      ensures Progress(Snapshot(), outcome) == ArgLeave(old(Snapshot()))
    {
      if argumentsCounters == [] {
        return Fail(EmptyStack);
      }
      var top := |argumentsCounters| - 1;
      argumentsCounters := argumentsCounters[top := argumentsCounters[top] + 1];
      outcome := Ok;
    }

    method FunctionLeave() returns (outcome: Outcome)
      requires Aligned(Snapshot()) && bracketValues != []
      modifies this
      ensures Progress(Snapshot(), outcome) == Leave(old(Snapshot()))
    {
      var args1 := maxArguments[|maxArguments| - 1];
      maxArguments := maxArguments[..|maxArguments| - 1];
      var args2 := argumentsCounters[|argumentsCounters| - 1] + 1;
      argumentsCounters := argumentsCounters[..|argumentsCounters| - 1];
      var funcName := functions[|functions| - 1];
      functions := functions[..|functions| - 1];
      bracketValues := bracketValues[..|bracketValues| - 1];
      if args1 != args2 {
        if args2 < args1 {
          outcome := Fail(TooFewArguments(funcName));
        } else {
          outcome := Fail(TooManyArguments(funcName));
        }
      } else {
        outcome := Ok;
      }
    }
  }
}
