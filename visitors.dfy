/**
 * visitors/PolishNotation.kt: the tokens of a tree in post-order (reverse Polish notation),
 * collected by a visitor that appends into one shared list.
 */
module Visitors {
  import opened Lexer
  import opened Ast
  import opened Parser

  /** The post-order token list of a tree: its arguments' lists, left to right, then its own
      token. It has one token per node, and ends with the root's. */
  function Polish(e: ArithmeticExpression): (r: seq<Token>)
    ensures |r| == NodeCount(e)
    ensures r[|r| - 1] == TokenOf(e)
  {
    if e.FromNum? then [e.num]
    else if e.IsUnary() then Polish(e.arg) + [TokenOf(e)]
    else Polish(e.arg1) + Polish(e.arg2) + [TokenOf(e)]
  }

  /** The lists of the first `n` trees of `es`, one after the other. */
  function PolishFirst(es: seq<ArithmeticExpression>, n: nat): seq<Token>
    requires n <= |es|
  {
    if n == 0 then [] else PolishFirst(es, n - 1) + Polish(es[n - 1])
  }

  /** The `visit` shape: every argument's list, in order, and then the node's token. */
  lemma PolishArguments(e: ArithmeticExpression)
    ensures Polish(e) == PolishFirst(Arguments(e), |Arguments(e)|) + [TokenOf(e)]
  {
    var args, t := Arguments(e), TokenOf(e);
    if e.FromNum? {
      assert Polish(e) == [t];
    } else if e.IsUnary() {
      assert args == [e.arg];
      assert Polish(e) == Polish(e.arg) + [t];
      assert PolishFirst(args, 1) == [] + Polish(e.arg) == Polish(e.arg);
    } else {
      assert args == [e.arg1, e.arg2];
      assert Polish(e) == Polish(e.arg1) + Polish(e.arg2) + [t];
      assert PolishFirst(args, 1) == [] + Polish(e.arg1) == Polish(e.arg1);
      assert PolishFirst(args, 2) == Polish(e.arg1) + Polish(e.arg2);
    }
  }

  /** The number tokens of a list, in order. */
  function Operands(s: seq<TokenOrPar>): seq<TokenOrPar> {
    if s == [] then [] else (if s[0].Num? then [s[0]] else []) + Operands(s[1..])
  }

  lemma {:induction false} OperandsAppend(a: seq<TokenOrPar>, b: seq<TokenOrPar>)
    ensures Operands(a + b) == Operands(a) + Operands(b)
  {
    if a == [] {
      assert a + b == b;
    } else {
      assert (a + b)[0] == a[0];
      assert (a + b)[1..] == a[1..] + b;
      OperandsAppend(a[1..], b);
    }
  }

  /** Post-order holds the same tokens as source order, each as often. */
  lemma {:induction false} PolishPermutesInOrder(e: ArithmeticExpression)
    ensures multiset(Polish(e)) == multiset(InOrder(e))
    decreases e, 1
  {
    if e.IsUnary() {
      PolishPermutesInOrder(e.arg);
      assert Polish(e) == Polish(e.arg) + [TokenOf(e)];
      assert InOrder(e) == [TokenOf(e)] + InOrder(e.arg);
    } else if e.IsBinary() {
      BinaryPermutes(e);
    }
  }

  lemma {:induction false} BinaryPermutes(e: ArithmeticExpression)
    requires e.IsBinary()
    ensures multiset(Polish(e)) == multiset(InOrder(e))
    decreases e, 0
  {
    var t, a, b := TokenOf(e), e.arg1, e.arg2;
    PolishPermutesInOrder(a);
    PolishPermutesInOrder(b);
    assert Polish(e) == Polish(a) + Polish(b) + [t];
    assert InOrder(e) == InOrder(a) + [t] + InOrder(b);
    MovedOperatorPermutes(Polish(a), Polish(b), InOrder(a), InOrder(b), t);
  }

  lemma MovedOperatorPermutes(pa: seq<TokenOrPar>, pb: seq<TokenOrPar>, ia: seq<TokenOrPar>, ib: seq<TokenOrPar>, t: TokenOrPar)
    requires multiset(pa) == multiset(ia) && multiset(pb) == multiset(ib)
    ensures multiset(pa + pb + [t]) == multiset(ia + [t] + ib)
  {
  }

  /** Post-order moves operators, never operands: the numbers come out in the order the
      tree holds them in the source. */
  lemma {:induction false} PolishKeepsOperandOrder(e: ArithmeticExpression)
    ensures Operands(Polish(e)) == Operands(InOrder(e))
    decreases e, 1
  {
    if e.IsUnary() {
      PolishKeepsOperandOrder(e.arg);
      assert Polish(e) == Polish(e.arg) + [TokenOf(e)];
      assert InOrder(e) == [TokenOf(e)] + InOrder(e.arg);
      OperatorAfter(Polish(e.arg), InOrder(e.arg), TokenOf(e));
    } else if e.IsBinary() {
      BinaryOperands(e);
    }
  }

  lemma {:induction false} BinaryOperands(e: ArithmeticExpression)
    requires e.IsBinary()
    ensures Operands(Polish(e)) == Operands(InOrder(e))
    decreases e, 0
  {
    var t, a, b := TokenOf(e), e.arg1, e.arg2;
    PolishKeepsOperandOrder(a);
    PolishKeepsOperandOrder(b);
    assert Polish(e) == Polish(a) + Polish(b) + [t];
    assert InOrder(e) == InOrder(a) + [t] + InOrder(b);
    OperatorBetween(Polish(a), Polish(b), InOrder(a), InOrder(b), t);
  }

  /** Moving a unary operator from before its operand list to after it changes no operand's place. */
  lemma OperatorAfter(pa: seq<TokenOrPar>, ia: seq<TokenOrPar>, t: TokenOrPar)
    requires Operands(pa) == Operands(ia) && !t.Num?
    ensures Operands(pa + [t]) == Operands([t] + ia)
  {
    OperandsAppend(pa, [t]);
    OperandsAppend([t], ia);
    assert Operands([t]) == [];
  }

  /** Moving an operator from between two operand lists to after them changes no operand's place. */
  lemma OperatorBetween(pa: seq<TokenOrPar>, pb: seq<TokenOrPar>, ia: seq<TokenOrPar>, ib: seq<TokenOrPar>, t: TokenOrPar)
    requires Operands(pa) == Operands(ia) && Operands(pb) == Operands(ib) && !t.Num?
    ensures Operands(pa + pb + [t]) == Operands(ia + [t] + ib)
  {
    OperandsAppend(pa + pb, [t]);
    OperandsAppend(pa, pb);
    OperandsAppend(ia + [t], ib);
    OperandsAppend(ia, [t]);
    assert Operands([t]) == [];
  }

  /** What the printer makes of a parsed expression: every non-parenthesis token of the input
      exactly once, with the numbers in their input order. */
  lemma PolishOfParse(ts: seq<TokenOrPar>, input: string)
    requires WellFormed(ts, input) && Parse(ts, input).Ok?
    ensures multiset(Polish(Parse(ts, input).value)) == multiset(NonParen(ts, 0, |ts|))
    ensures Operands(Polish(Parse(ts, input).value)) == Operands(NonParen(ts, 0, |ts|))
  {
    PolishPermutesInOrder(Parse(ts, input).value);
    PolishKeepsOperandOrder(Parse(ts, input).value);
  }

  /** The Kotlin visitor: `res` is the list every `visit` appends to. */
  class PolishNotationVisitor {
    var res: seq<Token>

    /** Kotlin's constructor takes the list to append to, an empty one by default. */
    constructor (res: seq<Token>)
      ensures this.res == res
    {
      this.res := res;
    }

    /** Visits the arguments left to right, then appends the node's token; returns `res`. */
    method Visit(e: ArithmeticExpression) returns (r: seq<Token>)
      modifies this
      ensures res == old(res) + Polish(e) && r == res
      decreases NodeCount(e)
    {
      var args := Arguments(e);
      ghost var start := res;
      for i := 0 to |args|
        invariant res == start + PolishFirst(args, i)
      {
        ghost var done, next := PolishFirst(args, i), Polish(args[i]);
        var _ := Visit(args[i]);
        AppendAssoc(start, done, next);
      }
      PolishArguments(e);
      ghost var last := [TokenOf(e)];
      AppendAssoc(start, PolishFirst(args, |args|), last);
      res := res + [TokenOf(e)];
      return res;
    }
  }

  /** `polishNotation`: a fresh visitor per call, so the result depends on the tree alone. */
  method PolishNotation(e: ArithmeticExpression) returns (r: seq<Token>)
    ensures r == Polish(e)
  {
    var visitor := new PolishNotationVisitor([]);
    r := visitor.Visit(e);
  }
}
