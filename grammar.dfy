/**
 * The finite automaton behind the scanner: which token kinds may follow
 * which. The constructor of the scanner builds four distinct successor
 * predicates and lets several states share one of them; here each shared
 * predicate is an `EdgeSet` identifier and `Edge` maps a state to it.
 */
module Grammar {
  import opened Tokens

  /** An automaton state: the start symbol, or the kind of the last accepted token. */
  datatype State = MathExp | After(kind: Kind)

  /** The four successor predicates the constructor builds, by identity. */
  datatype EdgeSet =
    | MathExpEdges   // what may start an expression or follow an operator, '(' or ','
    | OperandEdges   // what may follow an operand or ')'
    | UnaryOpEdges   // what may follow a unary operator
    | LBracketEdge   // a function name must be followed by '('

  /**
   * Whether a successor predicate matches a token of kind `k`: a terminal
   * predicate tests one kind, a disjunction tests each of its members in turn.
   */
  predicate Accepts(e: EdgeSet, k: Kind)
  {
    match e
    case MathExpEdges =>
      k == Variable || k == Constant || k == Number || k == FunctionName || k == LBracket || k == UnaryOp
    case OperandEdges => k == BinaryOp || k == RBracket || k == FuncSeparator
    case UnaryOpEdges => k == Variable || k == Number || k == Constant || k == FunctionName || k == LBracket
    case LBracketEdge => k == LBracket
  }

  /** The token kinds a successor predicate matches, as a set. */
  function Successors(e: EdgeSet): (kinds: set<Kind>)
    ensures forall k :: k in kinds <==> Accepts(e, k)
  {
    match e
    case MathExpEdges => {Variable, Constant, Number, FunctionName, LBracket, UnaryOp}
    case OperandEdges => {BinaryOp, RBracket, FuncSeparator}
    case UnaryOpEdges => {Variable, Number, Constant, FunctionName, LBracket}
    case LBracketEdge => {LBracket}
  }

  /** The edge table: the predicate each state owns (shared by reference in the source). */
  function Edge(st: State): EdgeSet
  {
    match st
    case MathExp => MathExpEdges
    case After(k) =>
      match k
      case Variable => OperandEdges
      case Constant => OperandEdges
      case Number => OperandEdges
      case RBracket => OperandEdges
      case BinaryOp => MathExpEdges
      case LBracket => MathExpEdges
      case FuncSeparator => MathExpEdges
      case UnaryOp => UnaryOpEdges
      case FunctionName => LBracketEdge
  }

  /** The successor sets, stated per state, with the sharing between states made explicit. */
  lemma SuccessorTable()
    ensures Successors(Edge(MathExp)) == {Variable, Constant, Number, FunctionName, LBracket, UnaryOp}
    ensures Edge(After(BinaryOp)) == Edge(After(LBracket)) == Edge(After(FuncSeparator)) == Edge(MathExp)
    ensures Successors(Edge(After(Variable))) == {BinaryOp, RBracket, FuncSeparator}
    ensures Edge(After(Constant)) == Edge(After(Number)) == Edge(After(RBracket)) == Edge(After(Variable))
    ensures Successors(Edge(After(UnaryOp))) == Successors(Edge(MathExp)) - {UnaryOp}
    ensures Successors(Edge(After(FunctionName))) == {LBracket}
  {
  }

  /** Only a function name leads to the state that demands '('; no other state admits exactly '('. */
  lemma OnlyFunctionNameDemandsBracket(k: Kind)
    ensures Edge(After(k)) == LBracketEdge <==> k == FunctionName
    ensures (forall j :: Accepts(Edge(After(k)), j) <==> j == LBracket) <==> k == FunctionName
  {
    if k != FunctionName {
      assert Edge(After(k)) != LBracketEdge;
      match Edge(After(k))
      case MathExpEdges => assert Accepts(MathExpEdges, Variable);
      case OperandEdges => assert Accepts(OperandEdges, BinaryOp);
      case UnaryOpEdges => assert Accepts(UnaryOpEdges, Variable);
    }
  }
}
