/**
 * Verdicts on small token patterns, each stated for every choice of token
 * texts and function names, including the patterns on which the code accepts
 * more than the documented grammar.
 */
module Scenarios {
  import opened Tokens
  import opened Grammar
  import opened ScanModel

  /** One more token after an accepted run: the result is that token's step from the run's session. */
  lemma RunExtend(a: map<string, int>, ts: seq<Token>, t: Token, s: Session, p: Progress)
    requires Run(a, ts) == Progress(s, Ok)
    requires Aligned(s) && Step(a, s, t) == p
    ensures Run(a, ts + [t]) == p
  {
    assert DropLast(ts + [t]) == ts;
  }

  /** `1 + x )`: a ')' with nothing open is reported at the end as a missing '('. */
  lemma UnopenedBracket(a: map<string, int>, t0: Token, t1: Token, t2: Token, t3: Token)
    requires t0.kind == Number && t1.kind == BinaryOp && t2.kind == Variable && t3.kind == RBracket
    ensures ScanOutcome(a, [t0, t1, t2, t3]) == Fail(UnbalancedBrackets(Open))
  {
    var s1 := Initial.(edge := OperandEdges);
    var s2 := Initial;
    var s4 := s1.(counter := -1);
    assert Run(a, [t0]) == Progress(s1, Ok) by {
      assert [] + [t0] == [t0];
      RunExtend(a, [], t0, Initial, Progress(s1, Ok));
    }
    assert Run(a, [t0, t1]) == Progress(s2, Ok) by {
      assert [t0] + [t1] == [t0, t1];
      RunExtend(a, [t0], t1, s1, Progress(s2, Ok));
    }
    assert Run(a, [t0, t1, t2]) == Progress(s1, Ok) by {
      assert [t0, t1] + [t2] == [t0, t1, t2];
      RunExtend(a, [t0, t1], t2, s2, Progress(s1, Ok));
    }
    assert [t0, t1, t2] + [t3] == [t0, t1, t2, t3];
    RunExtend(a, [t0, t1, t2], t3, s1, Progress(s4, Ok));
  }

  /** A function name read first: its call is pushed and only '(' may follow. */
  lemma CallNamed(a: map<string, int>, f: string)
    requires f in a
    ensures Run(a, [Token(FunctionName, f)]) == Progress(Session(LBracketEdge, 0, [f], [0], [a[f]], [0]), Ok)
  {
    var t0 := Token(FunctionName, f);
    assert [] + [t0] == [t0];
    RunExtend(a, [], t0, Initial, Progress(Session(LBracketEdge, 0, [f], [0], [a[f]], [0]), Ok));
  }

  /** The opening `f (` of a call: one open call, recorded at depth 0, one bracket deep. */
  lemma CallBracketOpened(a: map<string, int>, f: string, t1: Token)
    requires f in a
    requires t1.kind == LBracket
    ensures Run(a, [Token(FunctionName, f), t1]) == Progress(Session(MathExpEdges, 1, [f], [0], [a[f]], [0]), Ok)
  {
    var t0 := Token(FunctionName, f);
    var s1 := Session(LBracketEdge, 0, [f], [0], [a[f]], [0]);
    CallNamed(a, f);
    assert [t0] + [t1] == [t0, t1];
    RunExtend(a, [t0], t1, s1, Progress(s1.(edge := MathExpEdges, counter := 1), Ok));
  }

  /** The opening `f ( x` of a call, with its first argument read. */
  lemma CallOpened(a: map<string, int>, f: string, t1: Token, t2: Token)
    requires f in a
    requires t1.kind == LBracket && t2.kind == Variable
    ensures Run(a, [Token(FunctionName, f), t1, t2]) == Progress(Session(OperandEdges, 1, [f], [0], [a[f]], [0]), Ok)
  {
    var t0 := Token(FunctionName, f);
    var s2 := Session(MathExpEdges, 1, [f], [0], [a[f]], [0]);
    CallBracketOpened(a, f, t1);
    assert [t0, t1] + [t2] == [t0, t1, t2];
    RunExtend(a, [t0, t1], t2, s2, Progress(s2.(edge := OperandEdges), Ok));
  }

  /** `f ( x , y )` with `f` of arity 1: too many arguments, reported with the function's name. */
  lemma OneArgumentTooMany(a: map<string, int>, f: string, t1: Token, t2: Token, t3: Token, t4: Token, t5: Token)
    requires f in a && a[f] == 1
    requires t1.kind == LBracket && t2.kind == Variable && t3.kind == FuncSeparator
    requires t4.kind == Variable && t5.kind == RBracket
    ensures ScanOutcome(a, [Token(FunctionName, f), t1, t2, t3, t4, t5]) == Fail(TooManyArguments(f))
  {
    var t0 := Token(FunctionName, f);
    var s3 := Session(OperandEdges, 1, [f], [0], [1], [0]);
    var s4 := s3.(edge := MathExpEdges, argumentCounts := [1]);
    var s5 := s4.(edge := OperandEdges);
    CallOpened(a, f, t1, t2);
    assert Run(a, [t0, t1, t2, t3]) == Progress(s4, Ok) by {
      assert [t0, t1, t2] + [t3] == [t0, t1, t2, t3];
      RunExtend(a, [t0, t1, t2], t3, s3, Progress(s4, Ok));
    }
    assert Run(a, [t0, t1, t2, t3, t4]) == Progress(s5, Ok) by {
      assert [t0, t1, t2, t3] + [t4] == [t0, t1, t2, t3, t4];
      RunExtend(a, [t0, t1, t2, t3], t4, s4, Progress(s5, Ok));
    }
    assert [t0, t1, t2, t3, t4] + [t5] == [t0, t1, t2, t3, t4, t5];
    RunExtend(a, [t0, t1, t2, t3, t4], t5, s5, Progress(Initial.(edge := OperandEdges), Fail(TooManyArguments(f))));
  }

  /** `f ( x )` with `f` of arity 2: too few arguments. */
  lemma TwoArgumentsTooFew(a: map<string, int>, f: string, t1: Token, t2: Token, t3: Token)
    requires f in a && a[f] == 2
    requires t1.kind == LBracket && t2.kind == Variable && t3.kind == RBracket
    ensures ScanOutcome(a, [Token(FunctionName, f), t1, t2, t3]) == Fail(TooFewArguments(f))
  {
    var t0 := Token(FunctionName, f);
    var s3 := Session(OperandEdges, 1, [f], [0], [2], [0]);
    CallOpened(a, f, t1, t2);
    assert [t0, t1, t2] + [t3] == [t0, t1, t2, t3];
    RunExtend(a, [t0, t1, t2], t3, s3, Progress(Initial.(edge := OperandEdges), Fail(TooFewArguments(f))));
  }

  /** The opening `- ( 2` of NegatedBracket: one bracket deep, an operand just read. */
  lemma NegatedBracketOpened(a: map<string, int>, t0: Token, t1: Token, t2: Token)
    requires t0.kind == UnaryOp && t1.kind == LBracket && t2.kind == Number
    ensures Run(a, [t0, t1, t2]) == Progress(Initial.(edge := OperandEdges, counter := 1), Ok)
  {
    var s1 := Initial.(edge := UnaryOpEdges);
    var s2 := Initial.(counter := 1);
    assert Run(a, [t0]) == Progress(s1, Ok) by {
      assert [] + [t0] == [t0];
      RunExtend(a, [], t0, Initial, Progress(s1, Ok));
    }
    assert Run(a, [t0, t1]) == Progress(s2, Ok) by {
      assert [t0] + [t1] == [t0, t1];
      RunExtend(a, [t0], t1, s1, Progress(s2, Ok));
    }
    assert [t0, t1] + [t2] == [t0, t1, t2];
    RunExtend(a, [t0, t1], t2, s2, Progress(s2.(edge := OperandEdges), Ok));
  }

  /** `- ( 2 * x )`: a unary operator may precede '('. */
  lemma NegatedBracket(a: map<string, int>, t0: Token, t1: Token, t2: Token, t3: Token, t4: Token, t5: Token)
    requires t0.kind == UnaryOp && t1.kind == LBracket && t2.kind == Number
    requires t3.kind == BinaryOp && t4.kind == Variable && t5.kind == RBracket
    ensures ScanOutcome(a, [t0, t1, t2, t3, t4, t5]) == Ok
  {
    var s2 := Initial.(counter := 1);
    var s3 := s2.(edge := OperandEdges);
    NegatedBracketOpened(a, t0, t1, t2);
    assert Run(a, [t0, t1, t2, t3]) == Progress(s2, Ok) by {
      assert [t0, t1, t2] + [t3] == [t0, t1, t2, t3];
      RunExtend(a, [t0, t1, t2], t3, s3, Progress(s2, Ok));
    }
    assert Run(a, [t0, t1, t2, t3, t4]) == Progress(s3, Ok) by {
      assert [t0, t1, t2, t3] + [t4] == [t0, t1, t2, t3, t4];
      RunExtend(a, [t0, t1, t2, t3], t4, s2, Progress(s3, Ok));
    }
    assert [t0, t1, t2, t3, t4] + [t5] == [t0, t1, t2, t3, t4, t5];
    RunExtend(a, [t0, t1, t2, t3, t4], t5, s3, Progress(Initial.(edge := OperandEdges), Ok));
  }


  /** `x +`: the final state is not checked, so a trailing binary operator is accepted. */
  lemma TrailingOperatorAccepted(a: map<string, int>, t0: Token, t1: Token)
    requires t0.kind == Variable && t1.kind == BinaryOp
    ensures ScanOutcome(a, [t0, t1]) == Ok
  {
    var s1 := Initial.(edge := OperandEdges);
    assert Run(a, [t0]) == Progress(s1, Ok) by {
      assert [] + [t0] == [t0];
      RunExtend(a, [], t0, Initial, Progress(s1, Ok));
    }
    assert [t0] + [t1] == [t0, t1];
    RunExtend(a, [t0], t1, s1, Progress(Initial, Ok));
  }

  /** `f`: a lone function name is accepted and its call is left open. */
  lemma TrailingFunctionNameAccepted(a: map<string, int>, f: string)
    requires f in a
    ensures ScanOutcome(a, [Token(FunctionName, f)]) == Ok
    ensures Run(a, [Token(FunctionName, f)]).session.functions == [f]
  {
    CallNamed(a, f);
  }

  /** The opening `x ) +` of UnderflowHidesOpenCall: the counter is already below zero. */
  lemma StrayCloseThenOperator(a: map<string, int>, t0: Token, t1: Token, t2: Token)
    requires t0.kind == Variable && t1.kind == RBracket && t2.kind == BinaryOp
    ensures Run(a, [t0, t1, t2]) == Progress(Initial.(counter := -1), Ok)
  {
    var s1 := Initial.(edge := OperandEdges);
    var s2 := s1.(counter := -1);
    assert Run(a, [t0]) == Progress(s1, Ok) by {
      assert [] + [t0] == [t0];
      RunExtend(a, [], t0, Initial, Progress(s1, Ok));
    }
    assert Run(a, [t0, t1]) == Progress(s2, Ok) by {
      assert [t0] + [t1] == [t0, t1];
      RunExtend(a, [t0], t1, s1, Progress(s2, Ok));
    }
    assert [t0, t1] + [t2] == [t0, t1, t2];
    RunExtend(a, [t0, t1], t2, s2, Progress(Initial.(counter := -1), Ok));
  }

  /**
   * `x ) + f ( y`: the counter dips below zero and comes back, so the scan
   * succeeds although the brackets are out of order and `f` is never closed.
   */
  lemma UnderflowHidesOpenCall(a: map<string, int>, f: string, t0: Token, t1: Token, t2: Token, t4: Token, t5: Token)
    requires f in a
    requires t0.kind == Variable && t1.kind == RBracket && t2.kind == BinaryOp
    requires t4.kind == LBracket && t5.kind == Variable
    ensures ScanOutcome(a, [t0, t1, t2, Token(FunctionName, f), t4, t5]) == Ok
    ensures Run(a, [t0, t1, t2, Token(FunctionName, f), t4, t5]).session.functions == [f]
  {
    var t3 := Token(FunctionName, f);
    var s3 := Initial.(counter := -1);
    var s4 := Session(LBracketEdge, -1, [f], [0], [a[f]], [-1]);
    var s5 := s4.(edge := MathExpEdges, counter := 0);
    StrayCloseThenOperator(a, t0, t1, t2);
    assert Run(a, [t0, t1, t2, t3]) == Progress(s4, Ok) by {
      assert [t0, t1, t2] + [t3] == [t0, t1, t2, t3];
      RunExtend(a, [t0, t1, t2], t3, s3, Progress(s4, Ok));
    }
    assert Run(a, [t0, t1, t2, t3, t4]) == Progress(s5, Ok) by {
      assert [t0, t1, t2, t3] + [t4] == [t0, t1, t2, t3, t4];
      RunExtend(a, [t0, t1, t2, t3], t4, s4, Progress(s5, Ok));
    }
    assert [t0, t1, t2, t3, t4] + [t5] == [t0, t1, t2, t3, t4, t5];
    RunExtend(a, [t0, t1, t2, t3, t4], t5, s5, Progress(s5.(edge := OperandEdges), Ok));
  }


  /** The opening `f ( ( x` of NestedSeparatorCounts: one open call, recorded at depth 0, two brackets deep. */
  lemma NestedCallOpened(a: map<string, int>, f: string, t1: Token, t2: Token, t3: Token)
    requires f in a && a[f] == 2
    requires t1.kind == LBracket && t2.kind == LBracket && t3.kind == Variable
    ensures Run(a, [Token(FunctionName, f), t1, t2, t3]) == Progress(Session(OperandEdges, 2, [f], [0], [2], [0]), Ok)
  {
    var t0 := Token(FunctionName, f);
    var s2 := Session(MathExpEdges, 1, [f], [0], [2], [0]);
    var s3 := s2.(counter := 2);
    CallBracketOpened(a, f, t1);
    assert Run(a, [t0, t1, t2]) == Progress(s3, Ok) by {
      assert [t0, t1] + [t2] == [t0, t1, t2];
      RunExtend(a, [t0, t1], t2, s2, Progress(s3, Ok));
    }
    assert [t0, t1, t2] + [t3] == [t0, t1, t2, t3];
    RunExtend(a, [t0, t1, t2], t3, s3, Progress(s3.(edge := OperandEdges), Ok));
  }


  /**
   * `f ( ( x , y ) )` with `f` of arity 2: a separator inside an inner pair
   * of brackets still counts toward the enclosing call.
   */
  lemma NestedSeparatorCounts(a: map<string, int>, f: string,
                              t1: Token, t2: Token, t3: Token, t4: Token, t5: Token, t6: Token, t7: Token)
    requires f in a && a[f] == 2
    requires t1.kind == LBracket && t2.kind == LBracket && t3.kind == Variable && t4.kind == FuncSeparator
    requires t5.kind == Variable && t6.kind == RBracket && t7.kind == RBracket
    ensures ScanOutcome(a, [Token(FunctionName, f), t1, t2, t3, t4, t5, t6, t7]) == Ok
  {
    var t0 := Token(FunctionName, f);
    var s4 := Session(OperandEdges, 2, [f], [0], [2], [0]);
    var s5 := s4.(edge := MathExpEdges, argumentCounts := [1]);
    var s6 := s5.(edge := OperandEdges);
    var s7 := s6.(counter := 1);
    var s8 := Initial.(edge := OperandEdges);
    NestedCallOpened(a, f, t1, t2, t3);
    assert Run(a, [t0, t1, t2, t3, t4]) == Progress(s5, Ok) by {
      assert [t0, t1, t2, t3] + [t4] == [t0, t1, t2, t3, t4];
      RunExtend(a, [t0, t1, t2, t3], t4, s4, Progress(s5, Ok));
    }
    assert Run(a, [t0, t1, t2, t3, t4, t5]) == Progress(s6, Ok) by {
      assert [t0, t1, t2, t3, t4] + [t5] == [t0, t1, t2, t3, t4, t5];
      RunExtend(a, [t0, t1, t2, t3, t4], t5, s5, Progress(s6, Ok));
    }
    assert Run(a, [t0, t1, t2, t3, t4, t5, t6]) == Progress(s7, Ok) by {
      assert [t0, t1, t2, t3, t4, t5] + [t6] == [t0, t1, t2, t3, t4, t5, t6];
      RunExtend(a, [t0, t1, t2, t3, t4, t5], t6, s6, Progress(s7, Ok));
    }
    assert [t0, t1, t2, t3, t4, t5, t6] + [t7] == [t0, t1, t2, t3, t4, t5, t6, t7];
    RunExtend(a, [t0, t1, t2, t3, t4, t5, t6], t7, s7, Progress(s8, Ok));
  }

  /** `( x , y )`: a separator outside any call pops an empty stack. */
  lemma SeparatorOutsideCall(a: map<string, int>, t0: Token, t1: Token, t2: Token, t3: Token, t4: Token)
    requires t0.kind == LBracket && t1.kind == Variable && t2.kind == FuncSeparator
    requires t3.kind == Variable && t4.kind == RBracket
    ensures ScanOutcome(a, [t0, t1, t2, t3, t4]) == Fail(EmptyStack)
  {
    var s1 := Initial.(counter := 1);
    var s2 := s1.(edge := OperandEdges);
    assert Run(a, [t0]) == Progress(s1, Ok) by {
      assert [] + [t0] == [t0];
      RunExtend(a, [], t0, Initial, Progress(s1, Ok));
    }
    assert Run(a, [t0, t1]) == Progress(s2, Ok) by {
      assert [t0] + [t1] == [t0, t1];
      RunExtend(a, [t0], t1, s1, Progress(s2, Ok));
    }
    assert Run(a, [t0, t1, t2]) == Progress(s1, Fail(EmptyStack)) by {
      assert [t0, t1] + [t2] == [t0, t1, t2];
      RunExtend(a, [t0, t1], t2, s2, Progress(s1, Fail(EmptyStack)));
    }
    RunStopsAtFailure(a, [t0, t1, t2], [t3, t4]);
    assert [t0, t1, t2] + [t3, t4] == [t0, t1, t2, t3, t4];
  }

  /** `f ( )`: a call needs an argument, so ')' right after '(' is an unexpected token. */
  lemma EmptyCallRejected(a: map<string, int>, f: string, t1: Token, t2: Token)
    requires f in a
    requires t1.kind == LBracket && t2.kind == RBracket
    ensures ScanOutcome(a, [Token(FunctionName, f), t1, t2]) == Fail(UnexpectedToken(t2))
  {
    var t0 := Token(FunctionName, f);
    var s2 := Session(MathExpEdges, 1, [f], [0], [a[f]], [0]);
    CallBracketOpened(a, f, t1);
    assert [t0, t1] + [t2] == [t0, t1, t2];
    RunExtend(a, [t0, t1], t2, s2, Progress(s2, Fail(UnexpectedToken(t2))));
  }


  /** `g ( x )` with `g` missing from the arity table: the lookup fails at the name. */
  lemma MissingArityEntry(a: map<string, int>, g: string, rest: seq<Token>)
    requires g !in a
    ensures ScanOutcome(a, [Token(FunctionName, g)] + rest) == Fail(UnknownFunction(g))
  {
    var t0 := Token(FunctionName, g);
    assert Run(a, [t0]) == Progress(Session(LBracketEdge, 0, [g], [0], [], []), Fail(UnknownFunction(g))) by {
      assert [] + [t0] == [t0];
      RunExtend(a, [], t0, Initial, Progress(Session(LBracketEdge, 0, [g], [0], [], []), Fail(UnknownFunction(g))));
    }
    RunStopsAtFailure(a, [t0], rest);
  }

}
