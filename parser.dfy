/**
 * The recursive-descent parser of Parser.kt: three precedence tiers (sums and differences,
 * products and quotients, unary plus and minus) over atoms (a number or a parenthesised
 * expression), reading the token list through a cursor that only moves forward.
 *
 * The functions SumsOrDiffs, SumsLoop, MultiOrDivs, MulLoop, Unary, Argument and Atom
 * describe each parsing routine as a function of the cursor index at which it starts; the
 * methods of class ParserState are the routines themselves, proved to compute them.
 * An Outcome is what a routine gives back: a tree and the cursor after it (Kotlin returns
 * the tree and leaves the cursor there), nothing found (Kotlin's `null`; the cursor has not
 * moved), or a thrown error.
 */
module Parser {
  import opened Wrappers
  import opened Chars
  import opened Diagnostics
  import opened Lexer
  import opened Ast

  /** What the parser needs of its token list: positions strictly increasing and inside the
      input, as every list `tokenize` returns has them. Without it the Kotlin code may index
      the input out of bounds while building a message. */
  ghost predicate WellFormed(ts: seq<TokenOrPar>, input: string) {
    Positioned(ts, 0, |input|)
  }

  // ---------------------------------------------------------------------------
  // The tokens a tree accounts for

  function Keep(t: TokenOrPar): seq<TokenOrPar> {
    if t.LPar? || t.RPar? then [] else [t]
  }

  /** The tokens of `ts[i..j]` with the parentheses dropped, in order. */
  function NonParen(ts: seq<TokenOrPar>, i: nat, j: nat): seq<TokenOrPar>
    requires i <= j <= |ts|
    decreases j - i
  {
    if i == j then [] else Keep(ts[i]) + NonParen(ts, i + 1, j)
  }

  /** Regrouping a concatenation, as a lemma the proofs call (cheaper than asserting it). */
  lemma AppendAssoc<T>(a: seq<T>, b: seq<T>, c: seq<T>)
    ensures (a + b) + c == a + (b + c)
  {
  }

  lemma {:induction false} NonParenSplit(ts: seq<TokenOrPar>, i: nat, j: nat, k: nat)
    requires i <= j <= k <= |ts|
    ensures NonParen(ts, i, k) == NonParen(ts, i, j) + NonParen(ts, j, k)
    decreases j - i
  {
    if i == j {
      assert [] + NonParen(ts, j, k) == NonParen(ts, j, k);
    } else {
      var head, rest := Keep(ts[i]), NonParen(ts, j, k);
      assert NonParen(ts, i, k) == head + NonParen(ts, i + 1, k);
      assert NonParen(ts, i, j) == head + NonParen(ts, i + 1, j);
      NonParenSplit(ts, i + 1, j, k);
      assert head + (NonParen(ts, i + 1, j) + rest) == (head + NonParen(ts, i + 1, j)) + rest;
    }
  }

  /** The binary node a loop builds for operator `op`: Kotlin passes `::Sum`, `::Subtraction`,
      `::Multiplication` or `::Division` to `whenToken` as the combiner. */
  function Combine(op: TokenOrPar, arg1: ArithmeticExpression, arg2: ArithmeticExpression): (e: ArithmeticExpression)
    requires op.Plus? || op.Minus? || op.Asterisk? || op.Slash?
    ensures e.IsBinary() && TokenOf(e) == op && e.arg1 == arg1 && e.arg2 == arg2
    ensures InOrder(e) == InOrder(arg1) + Keep(op) + InOrder(arg2)
  {
    match op
    case Plus(_) => Sum(op, arg1, arg2)
    case Minus(_) => Subtraction(op, arg1, arg2)
    case Asterisk(_) => Multiplication(op, arg1, arg2)
    case Slash(_) => Division(op, arg1, arg2)
  }

  /** One turn of an operator loop: the operator at `j` and its argument in `j+1..k`, then
      whatever the rest of the loop consumed in `k..m`. */
  lemma LoopStep(ts: seq<TokenOrPar>, j: nat, k: nat, m: nat,
                 res: ArithmeticExpression, b: ArithmeticExpression, e: ArithmeticExpression)
    requires j < k <= m <= |ts|
    requires ts[j].Plus? || ts[j].Minus? || ts[j].Asterisk? || ts[j].Slash?
    requires InOrder(b) == NonParen(ts, j + 1, k)
    requires InOrder(e) == InOrder(Combine(ts[j], res, b)) + NonParen(ts, k, m)
    ensures InOrder(e) == InOrder(res) + NonParen(ts, j, m)
  {
    var a, op, x, r := InOrder(res), Keep(ts[j]), InOrder(b), NonParen(ts, k, m);
    NonParenSplit(ts, j + 1, k, m);
    assert NonParen(ts, j, m) == op + (x + r);
    AppendAssoc(a + op, x, r);
    AppendAssoc(a, op, x + r);
  }

  /** A parenthesis opening a range adds no token. */
  lemma LeadingParen(ts: seq<TokenOrPar>, i: nat, j: nat)
    requires i < j <= |ts| && (ts[i].LPar? || ts[i].RPar?)
    ensures NonParen(ts, i, j) == NonParen(ts, i + 1, j)
  {
    assert [] + NonParen(ts, i + 1, j) == NonParen(ts, i + 1, j);
  }

  /** A parenthesis closing a range adds no token. */
  lemma TrailingParen(ts: seq<TokenOrPar>, i: nat, j: nat)
    requires i < j <= |ts| && (ts[j - 1].LPar? || ts[j - 1].RPar?)
    ensures NonParen(ts, i, j) == NonParen(ts, i, j - 1)
  {
    NonParenSplit(ts, i, j - 1, j);
    LeadingParen(ts, j - 1, j);
    assert NonParen(ts, i, j - 1) + [] == NonParen(ts, i, j - 1);
  }

  /** Parentheses add no token to what a tree accounts for: `ts[i]` opens and `ts[k-1]` closes. */
  lemma ParenStep(ts: seq<TokenOrPar>, i: nat, k: nat)
    requires i + 1 < k <= |ts| && ts[i].LPar? && ts[k - 1].RPar?
    ensures NonParen(ts, i, k) == NonParen(ts, i + 1, k - 1)
  {
    LeadingParen(ts, i, k);
    TrailingParen(ts, i + 1, k);
  }

  // ---------------------------------------------------------------------------
  // Cursor positions and error values

  /** The `position` property: the offset of the token under the cursor, or the input's
      length once every token is consumed. */
  function PositionAt(ts: seq<TokenOrPar>, input: string, j: nat): (p: nat)
    requires j <= |ts| && WellFormed(ts, input)
    ensures p <= |input| && (p == |input| <==> j == |ts|)
    ensures forall a | 0 <= a < j :: ts[a].position < p
    ensures 1 <= j ==> 1 <= p
  {
    if j < |ts| then
      assert 1 <= j ==> ts[j - 1].position < ts[j].position;
      ts[j].position
    else
      |input|
  }

  /** `argumentNotFound(k)`: quotes the input character at `k` and the one after it. */
  function ArgumentNotFound(input: string, k: nat): (r: Error)
    requires k < |input|
    ensures r.MissingArgument? && r.position == k + 2 && Quotes(input, r)
  {
    MissingArgument(input[k], k + 2, CharAt(input, k + 1))
  }

  /** The error `parseExpression` raises when tokens remain at index `j`. */
  function TrailingAt(ts: seq<TokenOrPar>, input: string, j: nat): (r: Error)
    requires j < |ts| && WellFormed(ts, input)
    ensures r.ExpectedEos? && r.position == ts[j].position + 1 && Quotes(input, r)
  {
    ExpectedEos(ts[j].position + 1, input[ts[j].position])
  }

  /** An error whose numbers and characters agree with the input it is about:
      the quoted characters are the input's at the printed (1-based) positions. */
  ghost predicate Quotes(input: string, e: Error) {
    match e
    case MissingArgument(op, p, found) =>
      2 <= p <= |input| + 1 && input[p - 2] == op && found == CharAt(input, p - 1)
    case UnclosedParen(p, lp, found) =>
      1 <= lp < p <= |input| + 1 && found == CharAt(input, p - 1)
    case ExpectedEos(p, c) =>
      1 <= p <= |input| && input[p - 1] == c
    case _ => false
  }

  datatype Outcome = Found(expr: ArithmeticExpression, next: nat) | NotFound | Fail(error: Error)

  /** The argument parsers `whenToken` is given. */
  datatype Tier = UnaryTier | MultiOrDivsTier

  /** A routine started at index `i` either found a tree that consumed at least one token and
      accounts, in source order, for exactly the non-parenthesis tokens it consumed, or found
      nothing, or failed with an error that quotes the input correctly. */
  ghost predicate Sound(ts: seq<TokenOrPar>, input: string, i: nat, r: Outcome)
    requires i <= |ts|
  {
    match r
    case Found(e, j) => i < j <= |ts| && InOrder(e) == NonParen(ts, i, j)
    case NotFound => true
    case Fail(err) => Quotes(input, err)
  }

  /** What a loop over one tier's operators gives back, having started with `res` at `j`:
      `res` extended by the non-parenthesis tokens it went on to consume. */
  ghost predicate Extends(ts: seq<TokenOrPar>, input: string, res: ArithmeticExpression, j: nat, r: Outcome)
    requires j <= |ts|
  {
    match r
    case Found(e, m) => j <= m <= |ts| && InOrder(e) == InOrder(res) + NonParen(ts, j, m)
    case NotFound => false
    case Fail(err) => Quotes(input, err)
  }

  /** No operand can start at `i`: the tokens are used up, or a `)`, `*` or `/` is next. */
  ghost predicate NoOperandAt(ts: seq<TokenOrPar>, i: nat) {
    i == |ts| || (i < |ts| && (ts[i].RPar? || ts[i].Asterisk? || ts[i].Slash?))
  }

  /** The tokens that take an argument after them: the four operators and `(`. */
  predicate TakesArgument(t: TokenOrPar) {
    t.Plus? || t.Minus? || t.Asterisk? || t.Slash? || t.LPar?
  }

  /** A missing argument printed at `p` is the one for the token at `m - 1`, which takes an
      argument, when no operand starts at `m`; `p` is the 1-based position of the token at `m`
      (one past the input's end when there is none). */
  ghost predicate MissingAfter(ts: seq<TokenOrPar>, input: string, m: nat, p: nat) {
    WellFormed(ts, input) && 0 < m <= |ts| && TakesArgument(ts[m - 1]) && NoOperandAt(ts, m)
    && p == PositionAt(ts, input, m) + 1
  }

  /** An unclosed parenthesis printed at `p` with opening position `lp`: the `(` is the token
      at `a`, and `p` is the 1-based position of a later token `b` that is no `)` (one past the
      input's end when there is none). That `b` is where the bracketed Sum ended is
      `UnclosedAfterSum`, proved separately. */
  ghost predicate UnclosedAt(ts: seq<TokenOrPar>, input: string, a: nat, b: nat, p: nat, lp: nat) {
    WellFormed(ts, input) && a < b <= |ts| && ts[a].LPar? && lp == ts[a].position + 1
    && (b == |ts| || !ts[b].RPar?) && p == PositionAt(ts, input, b) + 1
  }

  /** Where a routine started at `i` may report an error: a missing argument right after a
      token at `i` or later, or an unclosed `(` at `i` or later. No other error kind arises
      there. Which of the failing sites is the one reported is not stated here. */
  ghost predicate Locates(ts: seq<TokenOrPar>, input: string, i: nat, e: Error) {
    match e
    case MissingArgument(_, p, _) => exists m | i < m :: MissingAfter(ts, input, m, p)
    case UnclosedParen(p, lp, _) => exists a, b | i <= a :: UnclosedAt(ts, input, a, b, p, lp)
    case _ => false
  }

  ghost predicate Located(ts: seq<TokenOrPar>, input: string, i: nat, r: Outcome) {
    r.Fail? ==> Locates(ts, input, i, r.error)
  }

  // ---------------------------------------------------------------------------
  // The parsing routines as functions of the cursor index


  /** `parseSumsOrDiffs` (and the private `parseExpression`, which is the same routine). */
  function SumsOrDiffs(ts: seq<TokenOrPar>, input: string, i: nat): (r: Outcome)
    requires WellFormed(ts, input) && i <= |ts|
    ensures Sound(ts, input, i, r) && Located(ts, input, i, r)
    ensures r.NotFound? <==> NoOperandAt(ts, i)
    decreases |ts| - i, 4
  {
    match MultiOrDivs(ts, input, i)
    case Found(e, j) =>
      var r := SumsLoop(ts, input, e, j);
      if r.Found? then NonParenSplit(ts, i, j, r.next); r else r
    case r => r
  }

  /** The `while (true)` loop of `parseSumsOrDiffs`: while a `+` or `-` is next, pops it,
      parses a product for the second argument, and makes the tree built so far the first. */
  function SumsLoop(ts: seq<TokenOrPar>, input: string, res: ArithmeticExpression, j: nat): (r: Outcome)
    requires WellFormed(ts, input) && j <= |ts|
    ensures Extends(ts, input, res, j, r) && Located(ts, input, j, r)
    decreases |ts| - j, 3
  {
    if j < |ts| && (ts[j].Plus? || ts[j].Minus?) then
      var arg := Argument(ts, input, j, MultiOrDivsTier);
      if arg.Found? then
        var r := SumsLoop(ts, input, Combine(ts[j], res, arg.expr), arg.next);
        if r.Found? then LoopStep(ts, j, arg.next, r.next, res, arg.expr, r.expr); r else r
      else
        arg
    else
      Found(res, j)
  }

  /** `parseMultiOrDivs`. */
  function MultiOrDivs(ts: seq<TokenOrPar>, input: string, i: nat): (r: Outcome)
    requires WellFormed(ts, input) && i <= |ts|
    ensures Sound(ts, input, i, r) && Located(ts, input, i, r)
    ensures r.NotFound? <==> NoOperandAt(ts, i)
    decreases |ts| - i, 2
  {
    match Unary(ts, input, i)
    case Found(e, j) =>
      var r := MulLoop(ts, input, e, j);
      if r.Found? then NonParenSplit(ts, i, j, r.next); r else r
    case r => r
  }

  /** The `while (true)` loop of `parseMultiOrDivs`, over `*` and `/`. */
  function MulLoop(ts: seq<TokenOrPar>, input: string, res: ArithmeticExpression, j: nat): (r: Outcome)
    requires WellFormed(ts, input) && j <= |ts|
    ensures Extends(ts, input, res, j, r) && Located(ts, input, j, r)
    decreases |ts| - j, 1
  {
    if j < |ts| && (ts[j].Asterisk? || ts[j].Slash?) then
      var arg := Argument(ts, input, j, UnaryTier);
      if arg.Found? then
        var r := MulLoop(ts, input, Combine(ts[j], res, arg.expr), arg.next);
        if r.Found? then LoopStep(ts, j, arg.next, r.next, res, arg.expr, r.expr); r else r
      else
        arg
    else
      Found(res, j)
  }

  /** `parseUnary`: a `+` or `-` next makes a unary node over a recursively parsed unary
      argument; anything else is left to `parseAtom`. */
  function Unary(ts: seq<TokenOrPar>, input: string, i: nat): (r: Outcome)
    requires WellFormed(ts, input) && i <= |ts|
    ensures Sound(ts, input, i, r) && Located(ts, input, i, r)
    ensures r.NotFound? <==> NoOperandAt(ts, i)
    decreases |ts| - i, 1
  {
    if i < |ts| && (ts[i].Plus? || ts[i].Minus?) then
      var arg := Argument(ts, input, i, UnaryTier);
      if arg.Found? then
        Found(if ts[i].Plus? then UnaryPlus(ts[i], arg.expr) else UnaryMinus(ts[i], arg.expr), arg.next)
      else
        arg
    else
      Atom(ts, input, i)
  }

  /** `whenToken` up to combining: pops the operator at `i` and parses its argument with the
      given tier; finding none is the missing-argument error, quoting the input character just
      before the token that follows the operator (the last character at end of input). */
  function Argument(ts: seq<TokenOrPar>, input: string, i: nat, tier: Tier): (r: Outcome)
    requires WellFormed(ts, input) && i < |ts| && TakesArgument(ts[i]) && !ts[i].LPar?
    ensures !r.NotFound?
    ensures Sound(ts, input, i + 1, r) && Located(ts, input, i, r)
    ensures NoOperandAt(ts, i + 1) ==> r.Fail? && r.error.MissingArgument? && MissingAfter(ts, input, i + 1, r.error.position)
    decreases |ts| - i, 0
  {
    var arg := if tier == UnaryTier then Unary(ts, input, i + 1) else MultiOrDivs(ts, input, i + 1);
    if arg.NotFound? then
      var err := ArgumentNotFound(input, PositionAt(ts, input, i + 1) - 1);
      assert MissingAfter(ts, input, i + 1, err.position);
      Fail(err)
    else
      arg
  }

  /** `parseAtom`: a number, or `(` expression `)`, which yields the inner tree itself. */
  function Atom(ts: seq<TokenOrPar>, input: string, i: nat): (r: Outcome)
    requires WellFormed(ts, input) && i <= |ts|
    ensures Sound(ts, input, i, r) && Located(ts, input, i, r)
    ensures r.NotFound? <==> i == |ts| || !(ts[i].Num? || ts[i].LPar?)
    decreases |ts| - i, 0
  {
    if i == |ts| then NotFound
    else if ts[i].Num? then Found(FromNum(ts[i]), i + 1)
    else if ts[i].LPar? then Closing(ts, input, i, SumsOrDiffs(ts, input, i + 1))
    else NotFound
  }

  /** The rest of `parseAtom` once the expression after the `(` at `i` has been parsed:
      none is a missing argument for the `(`; a tree must be followed by `)`, and otherwise
      the message names where the `)` was expected, the `(`, and the unquoted character found. */
  function Closing(ts: seq<TokenOrPar>, input: string, i: nat, inner: Outcome): (r: Outcome)
    requires WellFormed(ts, input) && i < |ts| && ts[i].LPar?
    requires Sound(ts, input, i + 1, inner) && Located(ts, input, i + 1, inner)
    requires inner.NotFound? ==> NoOperandAt(ts, i + 1)
    ensures !r.NotFound? && Sound(ts, input, i, r) && Located(ts, input, i, r)
    ensures inner.NotFound? ==> r.Fail? && r.error.MissingArgument? && MissingAfter(ts, input, i + 1, r.error.position)
    ensures inner.Found? && (inner.next == |ts| || !ts[inner.next].RPar?) ==>
      r.Fail? && r.error.UnclosedParen? && UnclosedAt(ts, input, i, inner.next, r.error.position, r.error.openPosition)
  {
    match inner
    case NotFound =>
      var err := ArgumentNotFound(input, PositionAt(ts, input, i + 1) - 1);
      assert MissingAfter(ts, input, i + 1, err.position);
      Fail(err)
    case Fail(err) => Fail(err)
    case Found(e, j) =>
      var endPos := PositionAt(ts, input, j);
      if j < |ts| && ts[j].RPar? then
        ParenStep(ts, i, j + 1);
        Found(e, j + 1)
      else
        assert UnclosedAt(ts, input, i, j, endPos + 1, ts[i].position + 1);
        Fail(UnclosedParen(endPos + 1, ts[i].position + 1, CharAt(input, endPos)))
  }

  /** The public `parseExpression(tokens, input)`. */
  function Parse(ts: seq<TokenOrPar>, input: string): (r: Result<ArithmeticExpression, Error>)
    requires WellFormed(ts, input)
    ensures r == Err(EmptyInput) <==> ts == []
    ensures r.Ok? ==> InOrder(r.value) == NonParen(ts, 0, |ts|)
    ensures r.Err? && ts != [] ==> Quotes(input, r.error)
    ensures r.Err? && ts != [] && !r.error.ExpectedEos? ==> Locates(ts, input, 0, r.error)
    ensures r.Err? && r.error.ExpectedEos? ==>
      var s := SumsOrDiffs(ts, input, 0);
      var j := if s.Found? then s.next else 0;
      j < |ts| && r.error.position == ts[j].position + 1
  {
    if ts == [] then Err(EmptyInput)
    else match SumsOrDiffs(ts, input, 0)
      case Fail(err) => Err(err)
      case Found(e, j) =>
        if j < |ts| then Err(TrailingAt(ts, input, j)) else Ok(e)
      case NotFound => Err(TrailingAt(ts, input, 0))
  }

  /** `tokenizeAndParse(input)`: "Empty input" exactly for a blank text. */
  function ParseText(input: string): (r: Result<ArithmeticExpression, Error>)
    ensures r == Err(EmptyInput) <==> forall k | 0 <= k < |input| :: IsWhitespace(input[k])
    ensures r.Ok? ==> Lex(input).Ok? && InOrder(r.value) == NonParen(Lex(input).value, 0, |Lex(input).value|)
  {
    LexBlank(input);
    LexVerdict(input);
    match Lex(input)
    case Err(e) => Err(e)
    case Ok(ts) => Parse(ts, input)
  }

  // ---------------------------------------------------------------------------
  // Associativity and precedence

  /** A chain of `+` and `-` is left-associative: when the loop consumed anything, the root is
      the node of the last operator it consumed, at some `k`; its second argument is the one
      product parsed right after that operator, and its first argument is `res` extended by
      everything before it. */
  lemma {:induction false} SumsLoopLeftAssociative(ts: seq<TokenOrPar>, input: string, res: ArithmeticExpression, j: nat)
    requires WellFormed(ts, input) && j <= |ts|
    ensures var r := SumsLoop(ts, input, res, j);
      r.Found? && j < r.next ==>
        r.expr.IsBinary() &&
        exists k | j <= k < r.next ::
          (ts[k].Plus? || ts[k].Minus?) && r.expr == Combine(ts[k], r.expr.arg1, r.expr.arg2) &&
          MultiOrDivs(ts, input, k + 1) == Found(r.expr.arg2, r.next) &&
          InOrder(r.expr.arg1) == InOrder(res) + NonParen(ts, j, k)
    ensures var r := SumsLoop(ts, input, res, j);
      r.Found? && j == r.next ==> r.expr == res
    decreases |ts| - j
  {
    var r := SumsLoop(ts, input, res, j);
    if r.Found? && j < r.next {
      var arg := Argument(ts, input, j, MultiOrDivsTier);
      var c := Combine(ts[j], res, arg.expr);
      SumsLoopLeftAssociative(ts, input, c, arg.next);
      if r.next == arg.next {
        assert InOrder(res) + [] == InOrder(res);
        assert NonParen(ts, j, j) == [];
        assert MultiOrDivs(ts, input, j + 1) == Found(r.expr.arg2, r.next);
      } else {
        var k :| arg.next <= k < r.next && (ts[k].Plus? || ts[k].Minus?) &&
          r.expr == Combine(ts[k], r.expr.arg1, r.expr.arg2) &&
          MultiOrDivs(ts, input, k + 1) == Found(r.expr.arg2, r.next) &&
          InOrder(r.expr.arg1) == InOrder(c) + NonParen(ts, arg.next, k);
        LoopStep(ts, j, arg.next, k, res, arg.expr, r.expr.arg1);
      }
    }
  }

  /** The same for a chain of `*` and `/`, whose arguments are unary expressions: unary `+` and
      `-` bind tighter than the binary operators. */
  lemma {:induction false} MulLoopLeftAssociative(ts: seq<TokenOrPar>, input: string, res: ArithmeticExpression, j: nat)
    requires WellFormed(ts, input) && j <= |ts|
    ensures var r := MulLoop(ts, input, res, j);
      r.Found? && j < r.next ==>
        r.expr.IsBinary() &&
        exists k | j <= k < r.next ::
          (ts[k].Asterisk? || ts[k].Slash?) && r.expr == Combine(ts[k], r.expr.arg1, r.expr.arg2) &&
          Unary(ts, input, k + 1) == Found(r.expr.arg2, r.next) &&
          InOrder(r.expr.arg1) == InOrder(res) + NonParen(ts, j, k)
    ensures var r := MulLoop(ts, input, res, j);
      r.Found? && j == r.next ==> r.expr == res
    decreases |ts| - j
  {
    var r := MulLoop(ts, input, res, j);
    if r.Found? && j < r.next {
      var arg := Argument(ts, input, j, UnaryTier);
      var c := Combine(ts[j], res, arg.expr);
      MulLoopLeftAssociative(ts, input, c, arg.next);
      if r.next == arg.next {
        assert InOrder(res) + [] == InOrder(res);
        assert NonParen(ts, j, j) == [];
        assert Unary(ts, input, j + 1) == Found(r.expr.arg2, r.next);
      } else {
        var k :| arg.next <= k < r.next && (ts[k].Asterisk? || ts[k].Slash?) &&
          r.expr == Combine(ts[k], r.expr.arg1, r.expr.arg2) &&
          Unary(ts, input, k + 1) == Found(r.expr.arg2, r.next) &&
          InOrder(r.expr.arg1) == InOrder(c) + NonParen(ts, arg.next, k);
        LoopStep(ts, j, arg.next, k, res, arg.expr, r.expr.arg1);
      }
    }
  }

  /** Parentheses make no node: `(` expression `)` is the inner tree itself. */
  lemma ParenthesesMakeNoNode(ts: seq<TokenOrPar>, input: string, i: nat)
    requires WellFormed(ts, input) && i < |ts| && ts[i].LPar?
    ensures var inner := SumsOrDiffs(ts, input, i + 1);
      inner.Found? && inner.next < |ts| && ts[inner.next].RPar? ==>
        Atom(ts, input, i) == Found(inner.expr, inner.next + 1)
  {
  }

  // ---------------------------------------------------------------------------
  // The grammar the parser recognises
  //
  //   Sum   := Sum ('+' | '-') Mul | Mul
  //   Mul   := Mul ('*' | '/') Unary | Unary
  //   Unary := ('+' | '-') Unary | Atom
  //   Atom  := Num | '(' Sum ')'
  //
  // Each predicate says that the span `ts[i..j]` derives from its symbol. The lemmas below
  // prove that every routine finds a tree exactly for the spans its symbol derives, up to the
  // first token that cannot continue the span, so Parse accepts exactly the lists that
  // derive from Sum.

  ghost predicate DerivesAtom(ts: seq<TokenOrPar>, i: nat, j: nat)
    decreases j - i, 0
  {
    i < j <= |ts| &&
    ((j == i + 1 && ts[i].Num?) ||
     (ts[i].LPar? && ts[j - 1].RPar? && DerivesSum(ts, i + 1, j - 1)))
  }

  ghost predicate DerivesUnary(ts: seq<TokenOrPar>, i: nat, j: nat)
    decreases j - i, 1
  {
    i < j <= |ts| &&
    (((ts[i].Plus? || ts[i].Minus?) && DerivesUnary(ts, i + 1, j)) || DerivesAtom(ts, i, j))
  }

  ghost predicate DerivesMul(ts: seq<TokenOrPar>, i: nat, j: nat)
    decreases j - i, 2
  {
    i < j <= |ts| &&
    (DerivesUnary(ts, i, j) ||
     exists k | i < k < j - 1 ::
       DerivesMul(ts, i, k) && (ts[k].Asterisk? || ts[k].Slash?) && DerivesUnary(ts, k + 1, j))
  }

  ghost predicate DerivesSum(ts: seq<TokenOrPar>, i: nat, j: nat)
    decreases j - i, 3
  {
    i < j <= |ts| &&
    (DerivesMul(ts, i, j) ||
     exists k | i < k < j - 1 ::
       DerivesSum(ts, i, k) && (ts[k].Plus? || ts[k].Minus?) && DerivesMul(ts, k + 1, j))
  }

  /** The token at `j`, if any, cannot continue a product: it is no `*` or `/`. */
  ghost predicate EndsMul(ts: seq<TokenOrPar>, j: nat) {
    j == |ts| || (j < |ts| && !ts[j].Asterisk? && !ts[j].Slash?)
  }

  /** The token at `j`, if any, cannot continue a sum: it is no binary operator. */
  ghost predicate EndsSum(ts: seq<TokenOrPar>, j: nat) {
    EndsMul(ts, j) && (j == |ts| || (!ts[j].Plus? && !ts[j].Minus?))
  }

  // Completeness: a span the grammar derives is what the routine finds.

  lemma {:induction false} AtomComplete(ts: seq<TokenOrPar>, input: string, i: nat, j: nat)
    requires WellFormed(ts, input) && DerivesAtom(ts, i, j)
    ensures Atom(ts, input, i).Found? && Atom(ts, input, i).next == j
    decreases j - i, 0
  {
    if ts[i].LPar? {
      SumComplete(ts, input, i + 1, j - 1);
    }
  }

  lemma {:induction false} UnaryComplete(ts: seq<TokenOrPar>, input: string, i: nat, j: nat)
    requires WellFormed(ts, input) && DerivesUnary(ts, i, j)
    ensures Unary(ts, input, i).Found? && Unary(ts, input, i).next == j
    decreases j - i, 1
  {
    if ts[i].Plus? || ts[i].Minus? {
      UnaryComplete(ts, input, i + 1, j);
    } else {
      AtomComplete(ts, input, i, j);
    }
  }

  /** A derived product prefix `ts[i..k]` is a state the `*`/`/` loop passes through. */
  lemma {:induction false} MulReaches(ts: seq<TokenOrPar>, input: string, i: nat, k: nat) returns (res: ArithmeticExpression)
    requires WellFormed(ts, input) && DerivesMul(ts, i, k)
    ensures MultiOrDivs(ts, input, i) == MulLoop(ts, input, res, k)
    decreases k - i, 2
  {
    if DerivesUnary(ts, i, k) {
      UnaryComplete(ts, input, i, k);
      res := MulStart(ts, input, i);
    } else {
      var m :| i < m < k - 1 && DerivesMul(ts, i, m) && (ts[m].Asterisk? || ts[m].Slash?) && DerivesUnary(ts, m + 1, k);
      var prev := MulReaches(ts, input, i, m);
      UnaryComplete(ts, input, m + 1, k);
      res := MulTurn(ts, input, prev, m, k);
    }
  }

  /** The product loop starts after the first factor. */
  lemma MulStart(ts: seq<TokenOrPar>, input: string, i: nat) returns (res: ArithmeticExpression)
    requires WellFormed(ts, input) && i <= |ts| && Unary(ts, input, i).Found?
    ensures MultiOrDivs(ts, input, i) == MulLoop(ts, input, res, Unary(ts, input, i).next)
  {
    res := Unary(ts, input, i).expr;
  }

  /** One turn of the product loop: the operator at `m` and the factor up to `k`. */
  lemma MulTurn(ts: seq<TokenOrPar>, input: string, prev: ArithmeticExpression, m: nat, k: nat)
    returns (res: ArithmeticExpression)
    requires WellFormed(ts, input) && m < k <= |ts| && (ts[m].Asterisk? || ts[m].Slash?)
    requires Unary(ts, input, m + 1).Found? && Unary(ts, input, m + 1).next == k
    ensures MulLoop(ts, input, prev, m) == MulLoop(ts, input, res, k)
  {
    var arg := Argument(ts, input, m, UnaryTier);
    assert arg == Unary(ts, input, m + 1);
    res := Combine(ts[m], prev, arg.expr);
  }

  lemma {:induction false} MulComplete(ts: seq<TokenOrPar>, input: string, i: nat, j: nat)
    requires WellFormed(ts, input) && DerivesMul(ts, i, j) && EndsMul(ts, j)
    ensures MultiOrDivs(ts, input, i).Found? && MultiOrDivs(ts, input, i).next == j
    decreases j - i, 3
  {
    var res := MulReaches(ts, input, i, j);
  }

  /** A derived sum prefix `ts[i..k]`, ended as a product, is a state the `+`/`-` loop passes through. */
  lemma {:induction false} SumReaches(ts: seq<TokenOrPar>, input: string, i: nat, k: nat) returns (res: ArithmeticExpression)
    requires WellFormed(ts, input) && DerivesSum(ts, i, k) && EndsMul(ts, k)
    ensures SumsOrDiffs(ts, input, i) == SumsLoop(ts, input, res, k)
    decreases k - i, 4
  {
    if DerivesMul(ts, i, k) {
      MulComplete(ts, input, i, k);
      res := MultiOrDivs(ts, input, i).expr;
    } else {
      var m :| i < m < k - 1 && DerivesSum(ts, i, m) && (ts[m].Plus? || ts[m].Minus?) && DerivesMul(ts, m + 1, k);
      var prev := SumReaches(ts, input, i, m);
      MulComplete(ts, input, m + 1, k);
      res := SumTurn(ts, input, prev, m, k);
    }
  }

  /** One turn of the sum loop: the operator at `m` and the product up to `k`. */
  lemma SumTurn(ts: seq<TokenOrPar>, input: string, prev: ArithmeticExpression, m: nat, k: nat)
    returns (res: ArithmeticExpression)
    requires WellFormed(ts, input) && m < k <= |ts| && (ts[m].Plus? || ts[m].Minus?)
    requires MultiOrDivs(ts, input, m + 1).Found? && MultiOrDivs(ts, input, m + 1).next == k
    ensures SumsLoop(ts, input, prev, m) == SumsLoop(ts, input, res, k)
  {
    var arg := Argument(ts, input, m, MultiOrDivsTier);
    assert arg == MultiOrDivs(ts, input, m + 1);
    res := Combine(ts[m], prev, arg.expr);
  }

  lemma {:induction false} SumComplete(ts: seq<TokenOrPar>, input: string, i: nat, j: nat)
    requires WellFormed(ts, input) && DerivesSum(ts, i, j) && EndsSum(ts, j)
    ensures SumsOrDiffs(ts, input, i).Found? && SumsOrDiffs(ts, input, i).next == j
    decreases j - i, 5
  {
    var res := SumReaches(ts, input, i, j);
  }

  // Soundness: what a routine finds is a span the grammar derives.

  lemma {:induction false} AtomDerives(ts: seq<TokenOrPar>, input: string, i: nat)
    requires WellFormed(ts, input) && i <= |ts|
    ensures Atom(ts, input, i).Found? ==> DerivesAtom(ts, i, Atom(ts, input, i).next)
    decreases |ts| - i, 0
  {
    if i < |ts| && ts[i].LPar? {
      SumsDerives(ts, input, i + 1);
      var inner := SumsOrDiffs(ts, input, i + 1);
      if inner.Found? && inner.next < |ts| && ts[inner.next].RPar? {
        assert Atom(ts, input, i) == Found(inner.expr, inner.next + 1);
        assert DerivesAtom(ts, i, inner.next + 1);
      }
    }
  }

  lemma {:induction false} UnaryDerives(ts: seq<TokenOrPar>, input: string, i: nat)
    requires WellFormed(ts, input) && i <= |ts|
    ensures Unary(ts, input, i).Found? ==> DerivesUnary(ts, i, Unary(ts, input, i).next)
    decreases |ts| - i, 1
  {
    if i < |ts| && (ts[i].Plus? || ts[i].Minus?) {
      UnaryDerives(ts, input, i + 1);
    } else {
      AtomDerives(ts, input, i);
    }
  }

  /** A product, an operator `*` or `/` at `k`, and a unary expression make a product. */
  lemma MulGrows(ts: seq<TokenOrPar>, i: nat, k: nat, j: nat)
    requires DerivesMul(ts, i, k) && k < |ts| && (ts[k].Asterisk? || ts[k].Slash?) && DerivesUnary(ts, k + 1, j)
    ensures DerivesMul(ts, i, j)
  {
    assert i < k < j - 1;
  }

  /** A sum, an operator `+` or `-` at `k`, and a product make a sum. */
  lemma SumGrows(ts: seq<TokenOrPar>, i: nat, k: nat, j: nat)
    requires DerivesSum(ts, i, k) && k < |ts| && (ts[k].Plus? || ts[k].Minus?) && DerivesMul(ts, k + 1, j)
    ensures DerivesSum(ts, i, j)
  {
    assert i < k < j - 1;
  }

  lemma {:induction false} MulLoopDerives(ts: seq<TokenOrPar>, input: string, i: nat, res: ArithmeticExpression, k: nat)
    requires WellFormed(ts, input) && DerivesMul(ts, i, k)
    ensures var r := MulLoop(ts, input, res, k); r.Found? ==> DerivesMul(ts, i, r.next) && EndsMul(ts, r.next)
    decreases |ts| - k, 1
  {
    if k < |ts| && (ts[k].Asterisk? || ts[k].Slash?) {
      var arg := Argument(ts, input, k, UnaryTier);
      if arg.Found? {
        UnaryDerives(ts, input, k + 1);
        MulGrows(ts, i, k, arg.next);
        MulLoopDerives(ts, input, i, Combine(ts[k], res, arg.expr), arg.next);
      }
    }
  }

  lemma {:induction false} MulDerives(ts: seq<TokenOrPar>, input: string, i: nat)
    requires WellFormed(ts, input) && i <= |ts|
    ensures var r := MultiOrDivs(ts, input, i); r.Found? ==> DerivesMul(ts, i, r.next) && EndsMul(ts, r.next)
    decreases |ts| - i, 2
  {
    UnaryDerives(ts, input, i);
    var u := Unary(ts, input, i);
    if u.Found? {
      MulLoopDerives(ts, input, i, u.expr, u.next);
    }
  }

  lemma {:induction false} SumsLoopDerives(ts: seq<TokenOrPar>, input: string, i: nat, res: ArithmeticExpression, k: nat)
    requires WellFormed(ts, input) && DerivesSum(ts, i, k) && EndsMul(ts, k)
    ensures var r := SumsLoop(ts, input, res, k); r.Found? ==> DerivesSum(ts, i, r.next) && EndsSum(ts, r.next)
    decreases |ts| - k, 3
  {
    if k < |ts| && (ts[k].Plus? || ts[k].Minus?) {
      var arg := Argument(ts, input, k, MultiOrDivsTier);
      assert arg.Found? ==> arg == MultiOrDivs(ts, input, k + 1);
      if arg.Found? {
        MulDerives(ts, input, k + 1);
        SumGrows(ts, i, k, arg.next);
        var next := Combine(ts[k], res, arg.expr);
        SumsLoopDerives(ts, input, i, next, arg.next);
        assert SumsLoop(ts, input, res, k) == SumsLoop(ts, input, next, arg.next);
      }
    } else {
      assert SumsLoop(ts, input, res, k) == Found(res, k);
    }
  }

  lemma {:induction false} SumsDerives(ts: seq<TokenOrPar>, input: string, i: nat)
    requires WellFormed(ts, input) && i <= |ts|
    ensures var r := SumsOrDiffs(ts, input, i); r.Found? ==> DerivesSum(ts, i, r.next) && EndsSum(ts, r.next)
    decreases |ts| - i, 4
  {
    MulDerives(ts, input, i);
    var m := MultiOrDivs(ts, input, i);
    if m.Found? {
      SumsLoopDerives(ts, input, i, m.expr, m.next);
    }
  }

  // Both directions, routine by routine.

  /** `parseAtom` finds a tree ending at `j` exactly when `ts[i..j]` is an atom. */
  lemma AtomRecognises(ts: seq<TokenOrPar>, input: string, i: nat, j: nat)
    requires WellFormed(ts, input) && i <= |ts|
    ensures (Atom(ts, input, i).Found? && Atom(ts, input, i).next == j) <==> DerivesAtom(ts, i, j)
  {
    AtomDerives(ts, input, i);
    if DerivesAtom(ts, i, j) {
      AtomComplete(ts, input, i, j);
    }
  }

  /** `parseUnary` finds a tree ending at `j` exactly when `ts[i..j]` is a unary expression. */
  lemma UnaryRecognises(ts: seq<TokenOrPar>, input: string, i: nat, j: nat)
    requires WellFormed(ts, input) && i <= |ts|
    ensures (Unary(ts, input, i).Found? && Unary(ts, input, i).next == j) <==> DerivesUnary(ts, i, j)
  {
    UnaryDerives(ts, input, i);
    if DerivesUnary(ts, i, j) {
      UnaryComplete(ts, input, i, j);
    }
  }

  /** `parseMultiOrDivs` finds a tree ending at `j` exactly when `ts[i..j]` is a product and
      the token at `j` cannot extend it. */
  lemma MultiOrDivsRecognises(ts: seq<TokenOrPar>, input: string, i: nat, j: nat)
    requires WellFormed(ts, input) && i <= |ts|
    ensures (MultiOrDivs(ts, input, i).Found? && MultiOrDivs(ts, input, i).next == j) <==>
      DerivesMul(ts, i, j) && EndsMul(ts, j)
  {
    MulDerives(ts, input, i);
    if DerivesMul(ts, i, j) && EndsMul(ts, j) {
      MulComplete(ts, input, i, j);
    }
  }

  /** `parseSumsOrDiffs` finds a tree ending at `j` exactly when `ts[i..j]` is a sum and the
      token at `j` cannot extend it. */
  lemma SumsOrDiffsRecognises(ts: seq<TokenOrPar>, input: string, i: nat, j: nat)
    requires WellFormed(ts, input) && i <= |ts|
    ensures (SumsOrDiffs(ts, input, i).Found? && SumsOrDiffs(ts, input, i).next == j) <==>
      DerivesSum(ts, i, j) && EndsSum(ts, j)
  {
    SumsDerives(ts, input, i);
    if DerivesSum(ts, i, j) && EndsSum(ts, j) {
      SumComplete(ts, input, i, j);
    }
  }

  /** The tokens from `j` on are left over: no sum starts the list (`j` is 0), or the longest
      sum that starts it ends just before `j`. */
  ghost predicate Leftover(ts: seq<TokenOrPar>, j: nat) {
    j < |ts| && ((j == 0 && NoOperandAt(ts, 0)) || (DerivesSum(ts, 0, j) && EndsSum(ts, j)))
  }

  /** "Expected EOS" is raised exactly when tokens are left over, and it names the first of them. */
  lemma ParseReportsLeftover(ts: seq<TokenOrPar>, input: string, j: nat)
    requires WellFormed(ts, input)
    ensures Leftover(ts, j) ==> Parse(ts, input) == Err(TrailingAt(ts, input, j))
    ensures Parse(ts, input).Err? && Parse(ts, input).error.ExpectedEos? ==>
      exists k: nat :: Leftover(ts, k) && Parse(ts, input).error.position == ts[k].position + 1
  {
    var s := SumsOrDiffs(ts, input, 0);
    if s.Found? {
      SumsOrDiffsRecognises(ts, input, 0, s.next);
    }
    if Leftover(ts, j) && j != 0 {
      SumsOrDiffsRecognises(ts, input, 0, j);
    }
    if Parse(ts, input).Err? && Parse(ts, input).error.ExpectedEos? {
      var k := if s.Found? then s.next else 0;
      assert Leftover(ts, k);
    }
  }

  // Where an unclosed parenthesis is reported

  /** An unclosed `(` at token `a`, reported where the Sum after it ended: the span from `a + 1`
      to `b` derives from Sum, and the token at `b` can extend it by no operator. */
  ghost predicate UnclosedAfterSum(ts: seq<TokenOrPar>, input: string, a: nat, b: nat, p: nat, lp: nat) {
    UnclosedAt(ts, input, a, b, p, lp) && DerivesSum(ts, a + 1, b) && EndsSum(ts, b)
  }

  ghost predicate ClosesAt(ts: seq<TokenOrPar>, input: string, i: nat, r: Outcome) {
    r.Fail? && r.error.UnclosedParen? ==>
      exists a, b | i <= a :: UnclosedAfterSum(ts, input, a, b, r.error.position, r.error.openPosition)
  }

  lemma {:induction false} SumsOrDiffsClosesAt(ts: seq<TokenOrPar>, input: string, i: nat)
    requires WellFormed(ts, input) && i <= |ts|
    ensures ClosesAt(ts, input, i, SumsOrDiffs(ts, input, i))
    decreases |ts| - i, 4
  {
    MultiOrDivsClosesAt(ts, input, i);
    var m := MultiOrDivs(ts, input, i);
    if m.Found? {
      SumsLoopClosesAt(ts, input, m.expr, m.next);
    }
  }

  lemma {:induction false} SumsLoopClosesAt(ts: seq<TokenOrPar>, input: string, res: ArithmeticExpression, j: nat)
    requires WellFormed(ts, input) && j <= |ts|
    ensures ClosesAt(ts, input, j, SumsLoop(ts, input, res, j))
    decreases |ts| - j, 3
  {
    if j < |ts| && (ts[j].Plus? || ts[j].Minus?) {
      ArgumentClosesAt(ts, input, j, MultiOrDivsTier);
      var arg := Argument(ts, input, j, MultiOrDivsTier);
      if arg.Found? {
        SumsLoopClosesAt(ts, input, Combine(ts[j], res, arg.expr), arg.next);
      }
    }
  }

  lemma {:induction false} MultiOrDivsClosesAt(ts: seq<TokenOrPar>, input: string, i: nat)
    requires WellFormed(ts, input) && i <= |ts|
    ensures ClosesAt(ts, input, i, MultiOrDivs(ts, input, i))
    decreases |ts| - i, 2
  {
    UnaryClosesAt(ts, input, i);
    var u := Unary(ts, input, i);
    if u.Found? {
      MulLoopClosesAt(ts, input, u.expr, u.next);
    }
  }

  lemma {:induction false} MulLoopClosesAt(ts: seq<TokenOrPar>, input: string, res: ArithmeticExpression, j: nat)
    requires WellFormed(ts, input) && j <= |ts|
    ensures ClosesAt(ts, input, j, MulLoop(ts, input, res, j))
    decreases |ts| - j, 1
  {
    if j < |ts| && (ts[j].Asterisk? || ts[j].Slash?) {
      ArgumentClosesAt(ts, input, j, UnaryTier);
      var arg := Argument(ts, input, j, UnaryTier);
      if arg.Found? {
        MulLoopClosesAt(ts, input, Combine(ts[j], res, arg.expr), arg.next);
      }
    }
  }

  lemma {:induction false} UnaryClosesAt(ts: seq<TokenOrPar>, input: string, i: nat)
    requires WellFormed(ts, input) && i <= |ts|
    ensures ClosesAt(ts, input, i, Unary(ts, input, i))
    decreases |ts| - i, 1
  {
    if i < |ts| && (ts[i].Plus? || ts[i].Minus?) {
      ArgumentClosesAt(ts, input, i, UnaryTier);
    } else {
      AtomClosesAt(ts, input, i);
    }
  }

  lemma {:induction false} ArgumentClosesAt(ts: seq<TokenOrPar>, input: string, i: nat, tier: Tier)
    requires WellFormed(ts, input) && i < |ts| && TakesArgument(ts[i]) && !ts[i].LPar?
    ensures ClosesAt(ts, input, i, Argument(ts, input, i, tier))
    decreases |ts| - i, 0
  {
    if tier == UnaryTier {
      UnaryClosesAt(ts, input, i + 1);
    } else {
      MultiOrDivsClosesAt(ts, input, i + 1);
    }
  }

  lemma {:induction false} AtomClosesAt(ts: seq<TokenOrPar>, input: string, i: nat)
    requires WellFormed(ts, input) && i <= |ts|
    ensures ClosesAt(ts, input, i, Atom(ts, input, i))
    decreases |ts| - i, 0
  {
    if i < |ts| && ts[i].LPar? {
      SumsOrDiffsClosesAt(ts, input, i + 1);
      SumsDerives(ts, input, i + 1);
      var inner := SumsOrDiffs(ts, input, i + 1);
      assert Atom(ts, input, i) == Closing(ts, input, i, inner);
      if inner.Found? && (inner.next == |ts| || !ts[inner.next].RPar?) {
        var r := Closing(ts, input, i, inner);
        assert UnclosedAfterSum(ts, input, i, inner.next, r.error.position, r.error.openPosition);
      }
    }
  }

  /** An unclosed-parenthesis error of `parseExpression` names a `(` and is printed at the
      token where the Sum after that `(` ended, which is no `)`. */
  lemma ParseClosesAt(ts: seq<TokenOrPar>, input: string)
    requires WellFormed(ts, input)
    ensures var r := Parse(ts, input);
      r.Err? && r.error.UnclosedParen? ==>
        exists a, b :: UnclosedAfterSum(ts, input, a, b, r.error.position, r.error.openPosition)
  {
    if ts != [] {
      SumsOrDiffsClosesAt(ts, input, 0);
    }
  }

  /** The parser accepts exactly the token lists the grammar derives from Sum. */
  lemma ParseAcceptsGrammar(ts: seq<TokenOrPar>, input: string)
    requires WellFormed(ts, input)
    ensures Parse(ts, input).Ok? <==> DerivesSum(ts, 0, |ts|)
  {
    SumsOrDiffsRecognises(ts, input, 0, |ts|);
  }

  /** A text parses exactly when it tokenizes into a list the grammar derives from Sum. */
  lemma ParseTextAcceptsGrammar(input: string)
    ensures ParseText(input).Ok? <==> Lex(input).Ok? && DerivesSum(Lex(input).value, 0, |Lex(input).value|)
  {
    if Lex(input).Ok? {
      ParseAcceptsGrammar(Lex(input).value, input);
    }
  }

  // ---------------------------------------------------------------------------
  // The parser itself

  /** Kotlin's `ParserState`: the token list, the input (for messages) and the cursor. */
  class ParserState {
    const list: seq<TokenOrPar>
    const input: string
    var curIndex: nat

    ghost predicate Valid()
      reads this
    {
      WellFormed(list, input) && curIndex <= |list|
    }

    /** Kotlin's `init` rejects an empty list with "Empty input"; ParseExpression makes that
        check before it builds the state. */
    constructor (list: seq<TokenOrPar>, input: string)
      requires WellFormed(list, input) && list != []
      ensures Valid() && this.list == list && this.input == input && curIndex == 0
    {
      this.list := list;
      this.input := input;
      curIndex := 0;
    }

    function Position(): (p: nat)
      reads this
      requires Valid()
      ensures p == PositionAt(list, input, curIndex)
    {
      if curIndex < |list| then list[curIndex].position else |input|
    }

    function Peek(): (r: Option<TokenOrPar>)
      reads this
      requires Valid()
      ensures r.Some? <==> curIndex < |list|
      ensures r.Some? ==> r.value == list[curIndex]
    {
      if curIndex < |list| then Some(list[curIndex]) else None
    }

    method Pop() returns (r: Option<TokenOrPar>)
      requires Valid()
      modifies this
      ensures Valid() && r == old(Peek())
      ensures curIndex == if old(curIndex) < |list| then old(curIndex) + 1 else old(curIndex)
    {
      r := Peek();
      if r.Some? {
        curIndex := curIndex + 1;
      }
    }

    method ParseExpression() returns (r: Outcome)
      requires Valid()
      modifies this
      ensures Valid() && r == SumsOrDiffs(list, input, old(curIndex))
      ensures r.Found? ==> curIndex == r.next
      ensures r.NotFound? ==> curIndex == old(curIndex)
      decreases |list| - curIndex, 5
    {
      r := ParseSumsOrDiffs();
    }

    method WhenToken(tier: Tier) returns (r: Outcome)
      requires Valid() && curIndex < |list| && TakesArgument(list[curIndex]) && !list[curIndex].LPar?
      modifies this
      ensures Valid() && r == Argument(list, input, old(curIndex), tier)
      ensures r.Found? ==> curIndex == r.next
      decreases |list| - curIndex, 0
    {
      var _ := Pop();
      var arg: Outcome;
      if tier == UnaryTier {
        arg := ParseUnary();
      } else {
        arg := ParseMultiOrDivs();
      }
      if arg.NotFound? {
        return Fail(ArgumentNotFound(input, Position() - 1));
      }
      return arg;
    }

    method ParseSumsOrDiffs() returns (r: Outcome)
      requires Valid()
      modifies this
      ensures Valid() && r == SumsOrDiffs(list, input, old(curIndex))
      ensures r.Found? ==> curIndex == r.next
      ensures r.NotFound? ==> curIndex == old(curIndex)
      decreases |list| - curIndex, 4
    {
      var first := ParseMultiOrDivs();
      if !first.Found? {
        return first;
      }
      var res := first.expr;
      while true
        invariant Valid() && old(curIndex) < curIndex
        invariant SumsOrDiffs(list, input, old(curIndex)) == SumsLoop(list, input, res, curIndex)
        decreases |list| - curIndex
      {
        var cur := Peek();
        if cur.Some? && cur.value.Plus? {
          var arg := WhenToken(MultiOrDivsTier);
          if !arg.Found? {
            return arg;
          }
          res := Sum(cur.value, res, arg.expr);
        } else if cur.Some? && cur.value.Minus? {
          var arg := WhenToken(MultiOrDivsTier);
          if !arg.Found? {
            return arg;
          }
          res := Subtraction(cur.value, res, arg.expr);
        } else {
          return Found(res, curIndex);
        }
      }
    }

    method ParseMultiOrDivs() returns (r: Outcome)
      requires Valid()
      modifies this
      ensures Valid() && r == MultiOrDivs(list, input, old(curIndex))
      ensures r.Found? ==> curIndex == r.next
      ensures r.NotFound? ==> curIndex == old(curIndex)
      decreases |list| - curIndex, 2
    {
      var first := ParseUnary();
      if !first.Found? {
        return first;
      }
      var res := first.expr;
      while true
        invariant Valid() && old(curIndex) < curIndex
        invariant MultiOrDivs(list, input, old(curIndex)) == MulLoop(list, input, res, curIndex)
        decreases |list| - curIndex
      {
        var cur := Peek();
        if cur.Some? && cur.value.Asterisk? {
          var arg := WhenToken(UnaryTier);
          if !arg.Found? {
            return arg;
          }
          res := Multiplication(cur.value, res, arg.expr);
        } else if cur.Some? && cur.value.Slash? {
          var arg := WhenToken(UnaryTier);
          if !arg.Found? {
            return arg;
          }
          res := Division(cur.value, res, arg.expr);
        } else {
          return Found(res, curIndex);
        }
      }
    }

    method ParseUnary() returns (r: Outcome)
      requires Valid()
      modifies this
      ensures Valid() && r == Unary(list, input, old(curIndex))
      ensures r.Found? ==> curIndex == r.next
      ensures r.NotFound? ==> curIndex == old(curIndex)
      decreases |list| - curIndex, 1
    {
      var cur := Peek();
      if cur.Some? && cur.value.Plus? {
        var arg := WhenToken(UnaryTier);
        if !arg.Found? {
          return arg;
        }
        return Found(UnaryPlus(cur.value, arg.expr), curIndex);
      } else if cur.Some? && cur.value.Minus? {
        var arg := WhenToken(UnaryTier);
        if !arg.Found? {
          return arg;
        }
        return Found(UnaryMinus(cur.value, arg.expr), curIndex);
      }
      r := ParseAtom();
    }

    method ParseAtom() returns (r: Outcome)
      requires Valid()
      modifies this
      ensures Valid() && r == Atom(list, input, old(curIndex))
      ensures r.Found? ==> curIndex == r.next
      ensures r.NotFound? ==> curIndex == old(curIndex)
      decreases |list| - curIndex, 0
    {
      var cur := Peek();
      if cur.Some? && cur.value.Num? {
        var _ := Pop();
        return Found(FromNum(cur.value), curIndex);
      } else if cur.Some? && cur.value.LPar? {
        var open := curIndex;
        var _ := Pop();
        var inner := ParseExpression();
        r := CloseParen(open, inner);
        return;
      }
      return NotFound;
    }

    /** The rest of `parseAtom` once the expression after the `(` at index `open` is parsed. */
    method CloseParen(open: nat, inner: Outcome) returns (r: Outcome)
      requires Valid() && open < |list| && list[open].LPar?
      requires Sound(list, input, open + 1, inner) && Located(list, input, open + 1, inner)
      requires inner.NotFound? ==> NoOperandAt(list, open + 1)
      requires inner.Found? ==> curIndex == inner.next
      requires inner.NotFound? ==> curIndex == open + 1
      modifies this
      ensures Valid() && r == Closing(list, input, open, inner)
      ensures r.Found? ==> curIndex == r.next
    {
      if inner.NotFound? {
        return Fail(ArgumentNotFound(input, Position() - 1));
      } else if inner.Fail? {
        return inner;
      }
      var endPos := Position();
      var par := Pop();
      if par.None? || !par.value.RPar? {
        return Fail(UnclosedParen(endPos + 1, list[open].position + 1, CharAt(input, endPos)));
      }
      return Found(inner.expr, curIndex);
    }
  }

  /** The public `parseExpression(tokens, input)`: the whole list must make one expression. */
  method ParseExpression(tokens: seq<TokenOrPar>, input: string) returns (r: Result<ArithmeticExpression, Error>)
    requires WellFormed(tokens, input)
    ensures r == Parse(tokens, input)
  {
    if |tokens| == 0 {
      return Err(EmptyInput);
    }
    var parserState := new ParserState(tokens, input);
    var expression := parserState.ParseExpression();
    if expression.Fail? {
      return Err(expression.error);
    }
    if parserState.curIndex < |parserState.list| || expression.NotFound? {
      var p := parserState.Position();
      return Err(ExpectedEos(p + 1, input[p]));
    }
    return Ok(expression.expr);
  }

  /** `tokenizeAndParse`: a tokenizer error comes first; otherwise the parser's verdict. */
  method TokenizeAndParse(input: string) returns (r: Result<ArithmeticExpression, Error>)
    ensures r == ParseText(input)
  {
    var tokens := Tokenize(input);
    if tokens.Err? {
      return Err(tokens.error);
    }
    r := ParseExpression(tokens.value, input);
  }
}
