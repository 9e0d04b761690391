/** The scanner object driven through the scenarios: one instance, two scans. */
module ScannerReuse {
  import opened Tokens
  import opened ScanModel
  import opened Scanner
  import opened Scenarios

  /**
   * One scanner used twice: the second scan starts from the reset state, so
   * the failure of the first leaves no trace in it.
   */
  method ReuseAfterFailure() returns (first: Outcome, second: Outcome)
    ensures first == Fail(UnknownFunction("g"))
    ensures second == Fail(UnbalancedBrackets(Open))
  {
    var scanner := new MathGrammarScanner(map[]);
    var g, lb, x, rb := Token(FunctionName, "g"), Token(LBracket, "("), Token(Variable, "x"), Token(RBracket, ")");
    first := scanner.Scan([g, lb, x, rb]);
    MissingArityEntry(map[], "g", [lb, x, rb]);
    assert [g] + [lb, x, rb] == [g, lb, x, rb];
    var one, plus := Token(Number, "1"), Token(BinaryOp, "+");
    second := scanner.Scan([one, plus, x, rb]);
    UnopenedBracket(map[], one, plus, x, rb);
  }
}
