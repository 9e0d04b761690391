/** What a scan guarantees, stated over the functional model of the session. */
module ScanProperties {
  import opened Tokens
  import opened Grammar
  import opened ScanModel

  /** Token `i` of `ts` was read after an accepted prefix and was in that prefix's successor set. */
  ghost predicate AcceptedAt(arities: map<string, int>, ts: seq<Token>, i: int)
    requires 0 <= i < |ts|
  {
    Run(arities, ts[..i]).outcome.Ok? && Accepts(Run(arities, ts[..i]).session.edge, ts[i].kind)
  }

  /** Every token of an accepted run was in the successor set of the state before it. */
  lemma {:induction false} AcceptedPrefixes(arities: map<string, int>, ts: seq<Token>)
    requires Run(arities, ts).outcome.Ok?
    ensures forall i :: 0 <= i < |ts| ==> AcceptedAt(arities, ts, i)
  {
    if ts != [] {
      var init := DropLast(ts);
      var before := Run(arities, init);
      assert before.outcome.Ok?;
      assert Run(arities, ts) == Step(arities, before.session, Last(ts));
      AcceptedPrefixes(arities, init);
      forall i | 0 <= i < |ts|
        ensures AcceptedAt(arities, ts, i)
      {
        if i < |init| {
          assert ts[..i] == init[..i] && ts[i] == init[i];
          assert AcceptedAt(arities, init, i);
        } else {
          assert ts[..i] == init && ts[i] == Last(ts);
        }
      }
    }
  }

  /**
   * The run over `ts` failed at index `i`: the prefix before `i` was
   * accepted, the result is the step of token `i`, and it is already the
   * result of the run cut just after that token.
   */
  ghost predicate FailsAt(arities: map<string, int>, ts: seq<Token>, i: int)
  {
    0 <= i < |ts| && Run(arities, ts[..i]).outcome.Ok? &&
    Run(arities, ts[..i + 1]) == Run(arities, ts) &&
    Run(arities, ts) == Step(arities, Run(arities, ts[..i]).session, ts[i])
  }

  /** Cutting an accepted run shorter gives an accepted run. */
  lemma {:induction false} AcceptedPrefixClosed(arities: map<string, int>, ts: seq<Token>, j: int, i: int)
    requires 0 <= j <= i <= |ts|
    requires Run(arities, ts[..i]).outcome.Ok?
    ensures Run(arities, ts[..j]).outcome.Ok?
    decreases i - j
  {
    if j < i {
      assert DropLast(ts[..i]) == ts[..i - 1];
      AcceptedPrefixClosed(arities, ts, j, i - 1);
    }
  }

  /** At most one token is the one a failed run failed at, and every prefix up to it was accepted. */
  lemma FailureIsUnique(arities: map<string, int>, ts: seq<Token>)
    requires Run(arities, ts).outcome.Fail?
    ensures forall i, j :: FailsAt(arities, ts, i) && 0 <= j < i ==> !FailsAt(arities, ts, j)
    ensures forall i, j :: FailsAt(arities, ts, i) && 0 <= j <= i ==> Run(arities, ts[..j]).outcome.Ok?
  {
    forall i, j | FailsAt(arities, ts, i) && 0 <= j < i
      ensures !FailsAt(arities, ts, j)
    {
      AcceptedPrefixClosed(arities, ts, j + 1, i);
    }
    forall i, j | FailsAt(arities, ts, i) && 0 <= j <= i
      ensures Run(arities, ts[..j]).outcome.Ok?
    {
      AcceptedPrefixClosed(arities, ts, j, i);
    }
  }

  /**
   * A failed run failed at exactly one token: every prefix up to it was
   * accepted, and the tokens after it were never looked at.
   */
  lemma {:induction false} FirstFailure(arities: map<string, int>, ts: seq<Token>)
    requires Run(arities, ts).outcome.Fail?
    ensures exists i :: FailsAt(arities, ts, i)
    ensures forall i, j :: FailsAt(arities, ts, i) && 0 <= j < i ==> !FailsAt(arities, ts, j)
    ensures forall i, j :: FailsAt(arities, ts, i) && 0 <= j <= i ==> Run(arities, ts[..j]).outcome.Ok?
  {
    var init := DropLast(ts);
    if Run(arities, init).outcome.Fail? {
      FirstFailure(arities, init);
      var i :| FailsAt(arities, init, i);
      assert init[..i] == ts[..i] && init[..i + 1] == ts[..i + 1];
      assert Run(arities, ts) == Run(arities, init);
      assert FailsAt(arities, ts, i);
    } else {
      var i := |ts| - 1;
      assert ts[..i] == init;
      assert ts[..i + 1] == ts;
      assert FailsAt(arities, ts, i);
    }
    FailureIsUnique(arities, ts);
  }

  /** After an accepted run the counter is the number of '(' minus the number of ')'. */
  lemma {:induction false} CounterTracksBrackets(arities: map<string, int>, ts: seq<Token>)
    requires Run(arities, ts).outcome.Ok?
    ensures Run(arities, ts).session.counter == Count(ts, LBracket) - Count(ts, RBracket)
  {
    if ts != [] {
      CounterTracksBrackets(arities, DropLast(ts));
    }
  }

  /**
   * The verdict of a whole scan: a failed run reports its own error; an
   * accepted run then succeeds exactly when the brackets balance, and
   * otherwise names the side that is missing.
   */
  lemma ScanVerdict(arities: map<string, int>, ts: seq<Token>)
    ensures ScanOutcome(arities, ts) == Ok <==> Run(arities, ts).outcome.Ok? && Balance(ts) == 0
    ensures Run(arities, ts).outcome.Fail? ==> ScanOutcome(arities, ts) == Run(arities, ts).outcome
    ensures Run(arities, ts).outcome.Ok? && Balance(ts) < 0 ==>
      ScanOutcome(arities, ts) == Fail(UnbalancedBrackets(Open))
    ensures Run(arities, ts).outcome.Ok? && Balance(ts) > 0 ==>
      ScanOutcome(arities, ts) == Fail(UnbalancedBrackets(Close))
  {
    if Run(arities, ts).outcome.Ok? {
      CounterTracksBrackets(arities, ts);
    }
  }

  /**
   * A ')' that brings the counter back to the depth recorded for the
   * innermost call closes that call and checks its arity; any other ')'
   * leaves the call stacks alone.
   */
  lemma CallClosesAtItsOwnDepth(arities: map<string, int>, s: Session, t: Token)
    requires Aligned(s) && t.kind == RBracket && Accepts(s.edge, RBracket)
    ensures var p := Step(arities, s, t);
      p.session.counter == s.counter - 1 &&
      if s.bracketValues != [] && s.counter - 1 == Last(s.bracketValues) then
        |p.session.bracketValues| == |s.bracketValues| - 1 &&
        p.session.functions == DropLast(s.functions) &&
        (p.outcome.Ok? <==> Last(s.argumentCounts) + 1 == Last(s.maxArguments)) &&
        (Last(s.argumentCounts) + 1 < Last(s.maxArguments) ==> p.outcome == Fail(TooFewArguments(Last(s.functions)))) &&
        (Last(s.argumentCounts) + 1 > Last(s.maxArguments) ==> p.outcome == Fail(TooManyArguments(Last(s.functions))))
      else
        p.outcome.Ok? &&
        p.session.functions == s.functions && p.session.argumentCounts == s.argumentCounts &&
        p.session.maxArguments == s.maxArguments && p.session.bracketValues == s.bracketValues
  {
  }

  /** Recorded depths strictly increase from the outermost call inwards. */
  ghost predicate Increasing(depths: seq<int>)
  {
    forall i, j :: 0 <= i < j < |depths| ==> depths[i] < depths[j]
  }

  /** No recorded depth exceeds `bound`. */
  ghost predicate AtMost(depths: seq<int>, bound: int)
  {
    forall i :: 0 <= i < |depths| ==> depths[i] <= bound
  }

  /**
   * The shape of the call stack: recorded depths strictly increase from the
   * outermost call inwards and never exceed the counter; the innermost depth
   * equals the counter exactly when a function name is waiting for its '('.
   */
  ghost predicate Nested(s: Session)
  {
    Aligned(s) && Increasing(s.bracketValues) && AtMost(s.bracketValues, s.counter) &&
    (s.edge == LBracketEdge <==> s.bracketValues != [] && Last(s.bracketValues) == s.counter)
  }

  /** Away from the state that awaits '(', every recorded depth is strictly below the counter. */
  lemma StrictlyBelow(s: Session)
    requires Nested(s) && s.edge != LBracketEdge
    ensures AtMost(s.bracketValues, s.counter - 1)
  {
    var bv := s.bracketValues;
    forall i | 0 <= i < |bv| ensures bv[i] <= s.counter - 1 {
      if i < |bv| - 1 {
        assert bv[i] < bv[|bv| - 1];
      }
    }
  }

  /**
   * In a nested session a ')' can only close the innermost call: every
   * outer call was recorded strictly below the depth the ')' returns to.
   */
  lemma ClosingBracketMatchesInnermost(s: Session)
    requires Nested(s) && Accepts(s.edge, RBracket)
    ensures forall k :: 0 <= k < |s.bracketValues| - 1 ==> s.bracketValues[k] < s.counter - 1
  {
    var bv := s.bracketValues;
    StrictlyBelow(s);
    forall k | 0 <= k < |bv| - 1 ensures bv[k] < s.counter - 1 {
      assert bv[k] < bv[|bv| - 1];
    }
  }

  /** Every accepted token keeps the call stack nested. */
  lemma StepKeepsNesting(arities: map<string, int>, s: Session, t: Token)
    requires Nested(s)
    requires Step(arities, s, t).outcome.Ok?
    ensures Nested(Step(arities, s, t).session)
  {
    var p := Step(arities, s, t);
    var bv := s.bracketValues;
    OnlyFunctionNameDemandsBracket(t.kind);
    assert s.edge != LBracketEdge || t.kind == LBracket;
    if s.edge == LBracketEdge {
      assert p.session == s.(edge := MathExpEdges, counter := s.counter + 1);
    } else {
      StrictlyBelow(s);
      match t.kind
      case FunctionName =>
        assert p.session.bracketValues == bv + [s.counter];
        assert p.session.counter == s.counter && p.session.edge == LBracketEdge;
      case RBracket =>
        var q := p.session.bracketValues;
        assert p.session.counter == s.counter - 1;
        if bv != [] && s.counter - 1 == Last(bv) {
          assert q == DropLast(bv);
          if q != [] {
            assert Last(q) < Last(bv);
          }
        } else {
          assert q == bv;
        }
      case _ =>
        assert p.session.bracketValues == bv;
    }
  }

  /** Every accepted run ends in a nested session. */
  lemma {:induction false} RunIsNested(arities: map<string, int>, ts: seq<Token>)
    requires Run(arities, ts).outcome.Ok?
    ensures Nested(Run(arities, ts).session)
  {
    if ts != [] {
      RunIsNested(arities, DropLast(ts));
      StepKeepsNesting(arities, Run(arities, DropLast(ts)).session, Last(ts));
    }
  }

  /** No prefix of `ts` closes more brackets than it has opened. */
  ghost predicate NeverUnderflows(ts: seq<Token>)
  {
    forall k :: 0 <= k <= |ts| ==> Balance(ts[..k]) >= 0
  }

  /** No recorded depth is negative. */
  ghost predicate NonNegative(depths: seq<int>)
  {
    forall i :: 0 <= i < |depths| ==> depths[i] >= 0
  }

  /** If the counter never went negative, every recorded call depth is non-negative. */
  lemma {:induction false} DepthsNonNegative(arities: map<string, int>, ts: seq<Token>)
    requires Run(arities, ts).outcome.Ok? && NeverUnderflows(ts)
    ensures NonNegative(Run(arities, ts).session.bracketValues)
  {
    if ts != [] {
      var init := DropLast(ts);
      var prev := Run(arities, init).session;
      assert Run(arities, ts) == Step(arities, prev, Last(ts));
      assert NeverUnderflows(init) by {
        forall k | 0 <= k <= |init| ensures Balance(init[..k]) >= 0 {
          assert init[..k] == ts[..k];
        }
      }
      DepthsNonNegative(arities, init);
      CounterTracksBrackets(arities, init);
      assert ts[..|init|] == init;
      assert prev.counter >= 0;
      var bv := Run(arities, ts).session.bracketValues;
      if Last(ts).kind == FunctionName {
        assert bv == prev.bracketValues + [prev.counter];
      } else if Last(ts).kind == RBracket {
        assert bv == prev.bracketValues || bv == DropLast(prev.bracketValues);
      } else {
        assert bv == prev.bracketValues;
      }
    }
  }

  /**
   * A scan that succeeds on input whose brackets never underflow, and that
   * does not end with a function name, leaves no function call open.
   */
  lemma BalancedScanClosesCalls(arities: map<string, int>, ts: seq<Token>)
    requires ScanOutcome(arities, ts) == Ok
    requires NeverUnderflows(ts)
    requires ts == [] || Last(ts).kind != FunctionName
    ensures var s := Run(arities, ts).session;
      s.functions == [] && s.argumentCounts == [] && s.maxArguments == [] && s.bracketValues == []
  {
    var s := Run(arities, ts).session;
    RunIsNested(arities, ts);
    DepthsNonNegative(arities, ts);
    if ts != [] {
      OnlyFunctionNameDemandsBracket(Last(ts).kind);
    }
  }
}
