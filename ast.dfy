/**
 * The AST classes of Parser.kt: a closed family of seven node kinds, each holding the token
 * that licensed it. The subset types give each kind the token type its Kotlin constructor
 * demands (a `Sum` holds a `Plus`, a literal a `Num`, ...).
 */
module Ast {
  import opened Lexer

  type PlusToken = t: TokenOrPar | t.Plus? witness Plus(0)
  type MinusToken = t: TokenOrPar | t.Minus? witness Minus(0)
  type AsteriskToken = t: TokenOrPar | t.Asterisk? witness Asterisk(0)
  type SlashToken = t: TokenOrPar | t.Slash? witness Slash(0)
  type NumToken = t: TokenOrPar | t.Num? witness Num(0, 0)

  datatype ArithmeticExpression =
    | Sum(plus: PlusToken, arg1: ArithmeticExpression, arg2: ArithmeticExpression)
    | Subtraction(minus: MinusToken, arg1: ArithmeticExpression, arg2: ArithmeticExpression)
    | Multiplication(asterisk: AsteriskToken, arg1: ArithmeticExpression, arg2: ArithmeticExpression)
    | Division(slash: SlashToken, arg1: ArithmeticExpression, arg2: ArithmeticExpression)
    | UnaryMinus(minus: MinusToken, arg: ArithmeticExpression)
    | UnaryPlus(plus: PlusToken, arg: ArithmeticExpression)
    | FromNum(num: NumToken)
  {
    predicate IsBinary() {
      Sum? || Subtraction? || Multiplication? || Division?
    }

    predicate IsUnary() {
      UnaryMinus? || UnaryPlus?
    }
  }

  /** The `token` property: the operator or literal that produced the node. */
  function TokenOf(e: ArithmeticExpression): (t: Token)
    ensures t.Num? <==> e.FromNum?
    ensures e.Sum? || e.UnaryPlus? <==> t.Plus?
    ensures e.Subtraction? || e.UnaryMinus? <==> t.Minus?
    ensures e.Multiplication? <==> t.Asterisk?
    ensures e.Division? <==> t.Slash?
  {
    match e
    case Sum(t, _, _) => t
    case Subtraction(t, _, _) => t
    case Multiplication(t, _, _) => t
    case Division(t, _, _) => t
    case UnaryMinus(t, _) => t
    case UnaryPlus(t, _) => t
    case FromNum(t) => t
  }

  function NodeCount(e: ArithmeticExpression): nat {
    if e.FromNum? then 1
    else if e.IsUnary() then 1 + NodeCount(e.arg)
    else 1 + NodeCount(e.arg1) + NodeCount(e.arg2)
  }

  /** The `arguments` list: the children, left to right, each a smaller tree. */
  function Arguments(e: ArithmeticExpression): (args: seq<ArithmeticExpression>)
    ensures |args| == if e.IsBinary() then 2 else if e.IsUnary() then 1 else 0
    ensures e.IsBinary() ==> args == [e.arg1, e.arg2]
    ensures e.IsUnary() ==> args == [e.arg]
    ensures forall a | a in args :: NodeCount(a) < NodeCount(e)
  {
    match e
    case FromNum(_) => []
    case UnaryMinus(_, a) => [a]
    case UnaryPlus(_, a) => [a]
    case Sum(_, a, b) => [a, b]
    case Subtraction(_, a, b) => [a, b]
    case Multiplication(_, a, b) => [a, b]
    case Division(_, a, b) => [a, b]
  }

  /** The tokens of the tree in source order: each binary node's token between its two
      arguments, each unary node's token before its argument. */
  function InOrder(e: ArithmeticExpression): (r: seq<TokenOrPar>)
    ensures |r| == NodeCount(e)
  {
    if e.FromNum? then [e.num]
    else if e.IsUnary() then [TokenOf(e)] + InOrder(e.arg)
    else InOrder(e.arg1) + [TokenOf(e)] + InOrder(e.arg2)
  }
}
