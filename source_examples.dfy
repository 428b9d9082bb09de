/**
 * The repository's own test cases (src/test/kotlin/TokenizerTests.kt and ParserTests.kt),
 * stated about the model: each test input gives the token list, tree or message the test
 * expects.
 *
 * Every example lemma takes its input as a parameter fixed by its `requires`. A token list is
 * proved one token at a time, from the end: `Lex<Case><k>` says what the scan gives from the
 * end of token k-1 (from 0 when k is 0) onwards, given the input and the expected list
 * element by element (`<Case>Text`, `<Case>Tokens`). An expected message is written in the
 * pieces `Message` joins (fixed text, quoted character, decimal number), so that its proof
 * comes down to reading off the digits.
 */
module SourceExamples {
  import opened Wrappers
  import opened Chars
  import opened Diagnostics
  import opened Lexer
  import opened Ast
  import opened Parser

  // ---------------------------------------------------------------------------
  // One token of a scan

  /** Blanks from `i`, then the one-character token `ts[m]`, then whatever scans to the rest. */
  lemma SymbolStep(s: string, i: nat, ts: seq<TokenOrPar>, m: nat)
    requires m < |ts| && !ts[m].Num? && i <= ts[m].position < |s|
    requires forall k | i <= k < ts[m].position :: IsWhitespace(s[k])
    requires s[ts[m].position] == Symbol(ts[m])
    requires Scan(s, ts[m].position + 1) == Ok(ts[m + 1..])
    ensures Scan(s, i) == Ok(ts[m..])
  {
    var t := ts[m];
    SymbolSpells(s, t);
    ScanStep(s, i, t);
    assert Scan(s, i) == Prepend([t], Ok(ts[m + 1..]));
    assert ts[m..] == [t] + ts[m + 1..];
  }

  /** A digit with no digit after it spells the one-digit number at its index. */
  lemma OneDigit(s: string, j: nat, d: nat)
    requires j < |s| && d < 10 && s[j] == Digit(d)
    requires j + 1 == |s| || !IsDigit(s[j + 1])
    ensures Spells(s, Num(d, j)) && TokenEnd(s, Num(d, j)) == j + 1
  {
    DigitRunEndUnique(s, j, j + 1);
    assert s[j..j + 1] == [Digit(d)];
    assert DecimalValue(s[j..j + 1]) == DecimalValue([]) * 10 + d;
  }

  /** Blanks from `i`, then the one-digit number `ts[m]`, then whatever scans to the rest. */
  lemma DigitStep(s: string, i: nat, ts: seq<TokenOrPar>, m: nat, d: nat)
    requires m < |ts| && ts[m].Num? && ts[m].value == d < 10 && i <= ts[m].position < |s|
    requires forall k | i <= k < ts[m].position :: IsWhitespace(s[k])
    requires s[ts[m].position] == Digit(d)
    requires ts[m].position + 1 == |s| || !IsDigit(s[ts[m].position + 1])
    requires Scan(s, ts[m].position + 1) == Ok(ts[m + 1..])
    ensures Scan(s, i) == Ok(ts[m..])
  {
    var t := ts[m];
    assert t == Num(d, t.position);
    OneDigit(s, t.position, d);
    ScanStep(s, i, t);
    assert Scan(s, i) == Prepend([t], Ok(ts[m + 1..]));
    assert ts[m..] == [t] + ts[m + 1..];
  }

  /** Nothing but blanks from `i` on. */
  lemma BlankEnd(s: string, i: nat)
    requires i <= |s|
    requires forall k | i <= k < |s| :: IsWhitespace(s[k])
    ensures Scan(s, i) == Ok([])
  {
    SkipSpacesFromUnique(s, i, |s|);
  }

  // ---------------------------------------------------------------------------
  // TokenizerTests

  /** The input `"  2*( 5* 2+6* 3)-- 4-(+ (4) )"`, character by character. */
  predicate DifficultCaseText(s: string) {
    |s| == 29 && s[0] == ' ' && s[1] == ' ' && s[2] == '2' && s[3] == '*' && s[4] == '(' &&
    s[5] == ' ' && s[6] == '5' && s[7] == '*' && s[8] == ' ' && s[9] == '2' && s[10] == '+' &&
    s[11] == '6' && s[12] == '*' && s[13] == ' ' && s[14] == '3' && s[15] == ')' && s[16] == '-' &&
    s[17] == '-' && s[18] == ' ' && s[19] == '4' && s[20] == '-' && s[21] == '(' && s[22] == '+' &&
    s[23] == ' ' && s[24] == '(' && s[25] == '4' && s[26] == ')' && s[27] == ' ' && s[28] == ')'
  }

  /** Its expected token list, element by element. */
  predicate DifficultCaseTokens(ts: seq<TokenOrPar>) {
    |ts| == 21 && ts[0] == Num(2, 2) && ts[1] == Asterisk(3) && ts[2] == LPar(4) &&
    ts[3] == Num(5, 6) && ts[4] == Asterisk(7) && ts[5] == Num(2, 9) && ts[6] == Plus(10) &&
    ts[7] == Num(6, 11) && ts[8] == Asterisk(12) && ts[9] == Num(3, 14) && ts[10] == RPar(15) &&
    ts[11] == Minus(16) && ts[12] == Minus(17) && ts[13] == Num(4, 19) && ts[14] == Minus(20) &&
    ts[15] == LPar(21) && ts[16] == Plus(22) && ts[17] == LPar(24) && ts[18] == Num(4, 25) &&
    ts[19] == RPar(26) && ts[20] == RPar(28)
  }

  lemma DifficultCaseTextHolds(s: string)
    requires s == "  2*( 5* 2+6* 3)-- 4-(+ (4) )"
    ensures DifficultCaseText(s)
  {
    assert s[28] == ')';
    assert s[27] == ' ';
    assert s[26] == ')';
    assert s[25] == '4';
    assert s[24] == '(';
    assert s[23] == ' ';
    assert s[22] == '+';
    assert s[21] == '(';
    assert s[20] == '-';
    assert s[19] == '4';
    assert s[18] == ' ';
    assert s[17] == '-';
    assert s[16] == '-';
    assert s[15] == ')';
    assert s[14] == '3';
    assert s[13] == ' ';
    assert s[12] == '*';
    assert s[11] == '6';
    assert s[10] == '+';
    assert s[9] == '2';
    assert s[8] == ' ';
    assert s[7] == '*';
    assert s[6] == '5';
    assert s[5] == ' ';
    assert s[4] == '(';
    assert s[3] == '*';
    assert s[2] == '2';
    assert s[1] == ' ';
    assert s[0] == ' ';
  }

  lemma DifficultCaseTokensHold(ts: seq<TokenOrPar>)
    requires ts == [Num(2, 2), Asterisk(3), LPar(4), Num(5, 6), Asterisk(7), Num(2, 9), Plus(10), Num(6, 11), Asterisk(12), Num(3, 14), RPar(15), Minus(16), Minus(17), Num(4, 19), Minus(20), LPar(21), Plus(22), LPar(24), Num(4, 25), RPar(26), RPar(28)]
    ensures DifficultCaseTokens(ts)
  {
  }

  lemma LexDifficultCase21(s: string, ts: seq<TokenOrPar>)
    requires DifficultCaseText(s) && DifficultCaseTokens(ts)
    ensures Scan(s, 29) == Ok(ts[21..])
  {
    BlankEnd(s, 29);
    assert ts[21..] == [];
  }

  lemma LexDifficultCase20(s: string, ts: seq<TokenOrPar>)
    requires DifficultCaseText(s) && DifficultCaseTokens(ts)
    ensures Scan(s, 27) == Ok(ts[20..])
  {
    LexDifficultCase21(s, ts);
    SymbolStep(s, 27, ts, 20);
  }

  lemma LexDifficultCase19(s: string, ts: seq<TokenOrPar>)
    requires DifficultCaseText(s) && DifficultCaseTokens(ts)
    ensures Scan(s, 26) == Ok(ts[19..])
  {
    LexDifficultCase20(s, ts);
    SymbolStep(s, 26, ts, 19);
  }

  lemma LexDifficultCase18(s: string, ts: seq<TokenOrPar>)
    requires DifficultCaseText(s) && DifficultCaseTokens(ts)
    ensures Scan(s, 25) == Ok(ts[18..])
  {
    LexDifficultCase19(s, ts);
    DigitStep(s, 25, ts, 18, 4);
  }

  lemma LexDifficultCase17(s: string, ts: seq<TokenOrPar>)
    requires DifficultCaseText(s) && DifficultCaseTokens(ts)
    ensures Scan(s, 23) == Ok(ts[17..])
  {
    LexDifficultCase18(s, ts);
    SymbolStep(s, 23, ts, 17);
  }

  lemma LexDifficultCase16(s: string, ts: seq<TokenOrPar>)
    requires DifficultCaseText(s) && DifficultCaseTokens(ts)
    ensures Scan(s, 22) == Ok(ts[16..])
  {
    LexDifficultCase17(s, ts);
    SymbolStep(s, 22, ts, 16);
  }

  lemma LexDifficultCase15(s: string, ts: seq<TokenOrPar>)
    requires DifficultCaseText(s) && DifficultCaseTokens(ts)
    ensures Scan(s, 21) == Ok(ts[15..])
  {
    LexDifficultCase16(s, ts);
    SymbolStep(s, 21, ts, 15);
  }

  lemma LexDifficultCase14(s: string, ts: seq<TokenOrPar>)
    requires DifficultCaseText(s) && DifficultCaseTokens(ts)
    ensures Scan(s, 20) == Ok(ts[14..])
  {
    LexDifficultCase15(s, ts);
    SymbolStep(s, 20, ts, 14);
  }

  lemma LexDifficultCase13(s: string, ts: seq<TokenOrPar>)
    requires DifficultCaseText(s) && DifficultCaseTokens(ts)
    ensures Scan(s, 18) == Ok(ts[13..])
  {
    LexDifficultCase14(s, ts);
    DigitStep(s, 18, ts, 13, 4);
  }

  lemma LexDifficultCase12(s: string, ts: seq<TokenOrPar>)
    requires DifficultCaseText(s) && DifficultCaseTokens(ts)
    ensures Scan(s, 17) == Ok(ts[12..])
  {
    LexDifficultCase13(s, ts);
    SymbolStep(s, 17, ts, 12);
  }

  lemma LexDifficultCase11(s: string, ts: seq<TokenOrPar>)
    requires DifficultCaseText(s) && DifficultCaseTokens(ts)
    ensures Scan(s, 16) == Ok(ts[11..])
  {
    LexDifficultCase12(s, ts);
    SymbolStep(s, 16, ts, 11);
  }

  lemma LexDifficultCase10(s: string, ts: seq<TokenOrPar>)
    requires DifficultCaseText(s) && DifficultCaseTokens(ts)
    ensures Scan(s, 15) == Ok(ts[10..])
  {
    LexDifficultCase11(s, ts);
    SymbolStep(s, 15, ts, 10);
  }

  lemma LexDifficultCase9(s: string, ts: seq<TokenOrPar>)
    requires DifficultCaseText(s) && DifficultCaseTokens(ts)
    ensures Scan(s, 13) == Ok(ts[9..])
  {
    LexDifficultCase10(s, ts);
    DigitStep(s, 13, ts, 9, 3);
  }

  lemma LexDifficultCase8(s: string, ts: seq<TokenOrPar>)
    requires DifficultCaseText(s) && DifficultCaseTokens(ts)
    ensures Scan(s, 12) == Ok(ts[8..])
  {
    LexDifficultCase9(s, ts);
    SymbolStep(s, 12, ts, 8);
  }

  lemma LexDifficultCase7(s: string, ts: seq<TokenOrPar>)
    requires DifficultCaseText(s) && DifficultCaseTokens(ts)
    ensures Scan(s, 11) == Ok(ts[7..])
  {
    LexDifficultCase8(s, ts);
    DigitStep(s, 11, ts, 7, 6);
  }

  lemma LexDifficultCase6(s: string, ts: seq<TokenOrPar>)
    requires DifficultCaseText(s) && DifficultCaseTokens(ts)
    ensures Scan(s, 10) == Ok(ts[6..])
  {
    LexDifficultCase7(s, ts);
    SymbolStep(s, 10, ts, 6);
  }

  lemma LexDifficultCase5(s: string, ts: seq<TokenOrPar>)
    requires DifficultCaseText(s) && DifficultCaseTokens(ts)
    ensures Scan(s, 8) == Ok(ts[5..])
  {
    LexDifficultCase6(s, ts);
    DigitStep(s, 8, ts, 5, 2);
  }

  lemma LexDifficultCase4(s: string, ts: seq<TokenOrPar>)
    requires DifficultCaseText(s) && DifficultCaseTokens(ts)
    ensures Scan(s, 7) == Ok(ts[4..])
  {
    LexDifficultCase5(s, ts);
    SymbolStep(s, 7, ts, 4);
  }

  lemma LexDifficultCase3(s: string, ts: seq<TokenOrPar>)
    requires DifficultCaseText(s) && DifficultCaseTokens(ts)
    ensures Scan(s, 5) == Ok(ts[3..])
  {
    LexDifficultCase4(s, ts);
    DigitStep(s, 5, ts, 3, 5);
  }

  lemma LexDifficultCase2(s: string, ts: seq<TokenOrPar>)
    requires DifficultCaseText(s) && DifficultCaseTokens(ts)
    ensures Scan(s, 4) == Ok(ts[2..])
  {
    LexDifficultCase3(s, ts);
    SymbolStep(s, 4, ts, 2);
  }

  lemma LexDifficultCase1(s: string, ts: seq<TokenOrPar>)
    requires DifficultCaseText(s) && DifficultCaseTokens(ts)
    ensures Scan(s, 3) == Ok(ts[1..])
  {
    LexDifficultCase2(s, ts);
    SymbolStep(s, 3, ts, 1);
  }

  lemma LexDifficultCase0(s: string, ts: seq<TokenOrPar>)
    requires DifficultCaseText(s) && DifficultCaseTokens(ts)
    ensures Scan(s, 0) == Ok(ts[0..])
  {
    LexDifficultCase1(s, ts);
    DigitStep(s, 0, ts, 0, 2);
  }

  /** TokenizerTests.difficultCase. `TestUtils.bigString` is not part of this model; this is
      the text its expected token positions determine, with spaces as the blanks. */
  lemma TokenizerDifficultCase(s: string, ts: seq<TokenOrPar>)
    requires s == "  2*( 5* 2+6* 3)-- 4-(+ (4) )"
    requires ts == [Num(2, 2), Asterisk(3), LPar(4), Num(5, 6), Asterisk(7), Num(2, 9), Plus(10), Num(6, 11), Asterisk(12), Num(3, 14), RPar(15), Minus(16), Minus(17), Num(4, 19), Minus(20), LPar(21), Plus(22), LPar(24), Num(4, 25), RPar(26), RPar(28)]
    ensures Lex(s) == Ok(ts)
  {
    DifficultCaseTextHolds(s);
    DifficultCaseTokensHold(ts);
    LexDifficultCase0(s, ts);
    assert ts[0..] == ts;
  }

  /** TokenizerTests.failure: the `q` is the first character no recogniser accepts, and the
      message numbers it from 1. */
  lemma TokenizerFailure(s: string)
    requires s == "1  q"
    ensures Lex(s) == Err(UnexpectedCharacter('q', 4))
    ensures Message(Lex(s).error) == "Unexpected character '" + "q" + "' at position " + "4"
  {
    assert NatToString(4) == "4";
    assert Message(UnexpectedCharacter('q', 4)) == "Unexpected character '" + "q" + "' at position " + "4";
    LexVerdict(s);
    assert !Acceptable(s[3]);
    var p := Lex(s).error.position;
    assert Acceptable(s[0]) && Acceptable(s[1]) && Acceptable(s[2]);
    assert p == 4;
  }

  // ---------------------------------------------------------------------------
  // ParserTests.difficultCase: products bind tighter than sums, `-` chains to the left,
  // `--` is a subtraction of a negation, and parentheses leave no node

  /** The first bracket: `5* 2+6* 3` is a sum of two products. */
  lemma DifficultFirstBracket(s: string, ts: seq<TokenOrPar>)
    requires DifficultCaseTokens(ts) && WellFormed(ts, s)
    ensures SumsOrDiffs(ts, s, 3) == Found(Sum(Plus(10), Multiplication(Asterisk(7), FromNum(Num(5, 6)), FromNum(Num(2, 9))), Multiplication(Asterisk(12), FromNum(Num(6, 11)), FromNum(Num(3, 14)))), 10)
  {
    var m1 := Multiplication(Asterisk(7), FromNum(Num(5, 6)), FromNum(Num(2, 9)));
    var m2 := Multiplication(Asterisk(12), FromNum(Num(6, 11)), FromNum(Num(3, 14)));
    assert Unary(ts, s, 5) == Found(FromNum(Num(2, 9)), 6);
    assert MulLoop(ts, s, m1, 6) == Found(m1, 6);
    assert MulLoop(ts, s, FromNum(Num(5, 6)), 4) == Found(m1, 6);
    assert Unary(ts, s, 3) == Found(FromNum(Num(5, 6)), 4);
    assert MultiOrDivs(ts, s, 3) == Found(m1, 6);
    assert Unary(ts, s, 9) == Found(FromNum(Num(3, 14)), 10);
    assert MulLoop(ts, s, m2, 10) == Found(m2, 10);
    assert MulLoop(ts, s, FromNum(Num(6, 11)), 8) == Found(m2, 10);
    assert Unary(ts, s, 7) == Found(FromNum(Num(6, 11)), 8);
    assert MultiOrDivs(ts, s, 7) == Found(m2, 10);
    assert SumsLoop(ts, s, Sum(Plus(10), m1, m2), 10) == Found(Sum(Plus(10), m1, m2), 10);
    assert SumsLoop(ts, s, m1, 6) == Found(Sum(Plus(10), m1, m2), 10);
  }

  /** `( 5* 2+6* 3)` as the argument of `*`: the sum itself, with the closing parenthesis
      consumed. */
  lemma DifficultFirstAtom(s: string, ts: seq<TokenOrPar>)
    requires DifficultCaseTokens(ts) && WellFormed(ts, s)
    ensures Argument(ts, s, 1, UnaryTier) == Found(Sum(Plus(10), Multiplication(Asterisk(7), FromNum(Num(5, 6)), FromNum(Num(2, 9))), Multiplication(Asterisk(12), FromNum(Num(6, 11)), FromNum(Num(3, 14)))), 11)
  {
    DifficultFirstBracket(s, ts);
    assert Atom(ts, s, 2) == Found(Sum(Plus(10), Multiplication(Asterisk(7), FromNum(Num(5, 6)), FromNum(Num(2, 9))), Multiplication(Asterisk(12), FromNum(Num(6, 11)), FromNum(Num(3, 14)))), 11);
  }

  /** `2*( ... )`: the bracket's tree becomes the second argument of the product. */
  lemma DifficultProduct(s: string, ts: seq<TokenOrPar>)
    requires DifficultCaseTokens(ts) && WellFormed(ts, s)
    ensures MultiOrDivs(ts, s, 0) == Found(Multiplication(Asterisk(3), FromNum(Num(2, 2)), Sum(Plus(10), Multiplication(Asterisk(7), FromNum(Num(5, 6)), FromNum(Num(2, 9))), Multiplication(Asterisk(12), FromNum(Num(6, 11)), FromNum(Num(3, 14))))), 11)
  {
    var inner := Sum(Plus(10), Multiplication(Asterisk(7), FromNum(Num(5, 6)), FromNum(Num(2, 9))), Multiplication(Asterisk(12), FromNum(Num(6, 11)), FromNum(Num(3, 14))));
    var prod := Multiplication(Asterisk(3), FromNum(Num(2, 2)), inner);
    DifficultFirstAtom(s, ts);
    assert MulLoop(ts, s, prod, 11) == Found(prod, 11);
    assert MulLoop(ts, s, FromNum(Num(2, 2)), 1) == Found(prod, 11);
    assert Unary(ts, s, 0) == Found(FromNum(Num(2, 2)), 1);
  }

  /** `(+ (4) )`: a unary plus over a doubly bracketed number. */
  lemma DifficultSecondBracket(s: string, ts: seq<TokenOrPar>)
    requires DifficultCaseTokens(ts) && WellFormed(ts, s)
    ensures MultiOrDivs(ts, s, 15) == Found(UnaryPlus(Plus(22), FromNum(Num(4, 25))), 21)
  {
    var four := FromNum(Num(4, 25));
    var up := UnaryPlus(Plus(22), FromNum(Num(4, 25)));
    assert Unary(ts, s, 18) == Found(four, 19);
    assert MulLoop(ts, s, four, 19) == Found(four, 19);
    assert MultiOrDivs(ts, s, 18) == Found(four, 19);
    assert SumsLoop(ts, s, four, 19) == Found(four, 19);
    assert SumsOrDiffs(ts, s, 18) == Found(four, 19);
    assert Atom(ts, s, 17) == Found(four, 20);
    assert Unary(ts, s, 17) == Found(four, 20);
    assert Unary(ts, s, 16) == Found(up, 20);
    assert MulLoop(ts, s, up, 20) == Found(up, 20);
    assert MultiOrDivs(ts, s, 16) == Found(up, 20);
    assert SumsLoop(ts, s, up, 20) == Found(up, 20);
    assert SumsOrDiffs(ts, s, 16) == Found(up, 20);
    assert Atom(ts, s, 15) == Found(up, 21);
    assert Unary(ts, s, 15) == Found(up, 21);
    assert MulLoop(ts, s, up, 21) == Found(up, 21);
  }

  /** `- 4` after the first `-`: a unary minus, and a product tier of its own. */
  lemma DifficultNegation(s: string, ts: seq<TokenOrPar>)
    requires DifficultCaseTokens(ts) && WellFormed(ts, s)
    ensures MultiOrDivs(ts, s, 12) == Found(UnaryMinus(Minus(17), FromNum(Num(4, 19))), 14)
  {
    var neg := UnaryMinus(Minus(17), FromNum(Num(4, 19)));
    assert Unary(ts, s, 13) == Found(FromNum(Num(4, 19)), 14);
    assert Unary(ts, s, 12) == Found(neg, 14);
    assert MulLoop(ts, s, neg, 14) == Found(neg, 14);
  }

  /** The whole token list: `product -- 4 - (...)` is `(product - (-4)) - (...)`. */
  lemma DifficultTokens(s: string, ts: seq<TokenOrPar>)
    requires DifficultCaseTokens(ts) && WellFormed(ts, s)
    ensures Parse(ts, s) == Ok(Subtraction(Minus(20), Subtraction(Minus(16), Multiplication(Asterisk(3), FromNum(Num(2, 2)), Sum(Plus(10), Multiplication(Asterisk(7), FromNum(Num(5, 6)), FromNum(Num(2, 9))), Multiplication(Asterisk(12), FromNum(Num(6, 11)), FromNum(Num(3, 14))))), UnaryMinus(Minus(17), FromNum(Num(4, 19)))), UnaryPlus(Plus(22), FromNum(Num(4, 25)))))
  {
    var prod := Multiplication(Asterisk(3), FromNum(Num(2, 2)), Sum(Plus(10), Multiplication(Asterisk(7), FromNum(Num(5, 6)), FromNum(Num(2, 9))), Multiplication(Asterisk(12), FromNum(Num(6, 11)), FromNum(Num(3, 14)))));
    var neg := UnaryMinus(Minus(17), FromNum(Num(4, 19)));
    var sub1 := Subtraction(Minus(16), prod, neg);
    var up := UnaryPlus(Plus(22), FromNum(Num(4, 25)));
    var sub2 := Subtraction(Minus(20), sub1, up);
    DifficultProduct(s, ts);
    DifficultSecondBracket(s, ts);
    DifficultNegation(s, ts);
    assert SumsLoop(ts, s, sub2, 21) == Found(sub2, 21);
    assert SumsLoop(ts, s, sub1, 14) == Found(sub2, 21);
    assert SumsLoop(ts, s, prod, 11) == Found(sub2, 21);
    assert SumsOrDiffs(ts, s, 0) == Found(sub2, 21);
  }

  /** ParserTests.difficultCase: the tree the test prints, node for node. */
  lemma ParserDifficultCase(s: string)
    requires s == "  2*( 5* 2+6* 3)-- 4-(+ (4) )"
    ensures ParseText(s) == Ok(Subtraction(Minus(20), Subtraction(Minus(16), Multiplication(Asterisk(3), FromNum(Num(2, 2)), Sum(Plus(10), Multiplication(Asterisk(7), FromNum(Num(5, 6)), FromNum(Num(2, 9))), Multiplication(Asterisk(12), FromNum(Num(6, 11)), FromNum(Num(3, 14))))), UnaryMinus(Minus(17), FromNum(Num(4, 19)))), UnaryPlus(Plus(22), FromNum(Num(4, 25)))))
  {
    var ts := [Num(2, 2), Asterisk(3), LPar(4), Num(5, 6), Asterisk(7), Num(2, 9), Plus(10), Num(6, 11), Asterisk(12), Num(3, 14), RPar(15), Minus(16), Minus(17), Num(4, 19), Minus(20), LPar(21), Plus(22), LPar(24), Num(4, 25), RPar(26), RPar(28)];
    DifficultCaseTokensHold(ts);
    TokenizerDifficultCase(s, ts);
    assert WellFormed(ts, s);
    DifficultTokens(s, ts);
    assert ParseText(s) == Parse(ts, s);
  }

  // ---------------------------------------------------------------------------
  // ParserTests.failure: the six inputs and the messages the test expects

  /** The input `"  2 +"`, character by character. */
  predicate MissingArgumentAtEndText(s: string) {
    |s| == 5 && s[0] == ' ' && s[1] == ' ' && s[2] == '2' && s[3] == ' ' && s[4] == '+'
  }

  /** Its expected token list, element by element. */
  predicate MissingArgumentAtEndTokens(ts: seq<TokenOrPar>) {
    |ts| == 2 && ts[0] == Num(2, 2) && ts[1] == Plus(4)
  }

  lemma MissingArgumentAtEndTextHolds(s: string)
    requires s == "  2 +"
    ensures MissingArgumentAtEndText(s)
  {
    assert s[4] == '+';
    assert s[3] == ' ';
    assert s[2] == '2';
    assert s[1] == ' ';
    assert s[0] == ' ';
  }

  lemma MissingArgumentAtEndTokensHold(ts: seq<TokenOrPar>)
    requires ts == [Num(2, 2), Plus(4)]
    ensures MissingArgumentAtEndTokens(ts)
  {
  }

  lemma LexMissingArgumentAtEnd2(s: string, ts: seq<TokenOrPar>)
    requires MissingArgumentAtEndText(s) && MissingArgumentAtEndTokens(ts)
    ensures Scan(s, 5) == Ok(ts[2..])
  {
    BlankEnd(s, 5);
    assert ts[2..] == [];
  }

  lemma LexMissingArgumentAtEnd1(s: string, ts: seq<TokenOrPar>)
    requires MissingArgumentAtEndText(s) && MissingArgumentAtEndTokens(ts)
    ensures Scan(s, 3) == Ok(ts[1..])
  {
    LexMissingArgumentAtEnd2(s, ts);
    SymbolStep(s, 3, ts, 1);
  }

  lemma LexMissingArgumentAtEnd0(s: string, ts: seq<TokenOrPar>)
    requires MissingArgumentAtEndText(s) && MissingArgumentAtEndTokens(ts)
    ensures Scan(s, 0) == Ok(ts[0..])
  {
    LexMissingArgumentAtEnd1(s, ts);
    DigitStep(s, 0, ts, 0, 2);
  }

  lemma LexMissingArgumentAtEnd(s: string, ts: seq<TokenOrPar>)
    requires s == "  2 +"
    requires ts == [Num(2, 2), Plus(4)]
    ensures Lex(s) == Ok(ts)
  {
    MissingArgumentAtEndTextHolds(s);
    MissingArgumentAtEndTokensHold(ts);
    LexMissingArgumentAtEnd0(s, ts);
    assert ts[0..] == ts;
  }

  lemma MessageMissingArgumentAtEnd()
    ensures Message(MissingArgument('+', 6, None)) == "Expected an argument for '" + "+" + "' at position " + "6" + " but found " + "EOS"
  {
    assert NatToString(6) == "6";
  }

  lemma ParseMissingArgumentAtEnd(s: string, ts: seq<TokenOrPar>)
    requires MissingArgumentAtEndText(s) && MissingArgumentAtEndTokens(ts) && WellFormed(ts, s)
    ensures Parse(ts, s) == Err(MissingArgument('+', 6, None))
  {
    var two := FromNum(Num(2, 2));
    assert Unary(ts, s, 0) == Found(two, 1);
    assert MulLoop(ts, s, two, 1) == Found(two, 1);
    assert MultiOrDivs(ts, s, 0) == Found(two, 1);
    assert Unary(ts, s, 2) == NotFound;
    assert MultiOrDivs(ts, s, 2) == NotFound;
    assert PositionAt(ts, s, 2) == 5;
    assert SumsLoop(ts, s, two, 1) == Fail(MissingArgument('+', 6, None));
  }

  /** `"  2 +"`: nothing follows the `+`, so the position is that of the end of the input. */
  lemma MissingArgumentAtEnd(s: string)
    requires s == "  2 +"
    ensures ParseText(s) == Err(MissingArgument('+', 6, None))
    ensures Message(ParseText(s).error) == "Expected an argument for '" + "+" + "' at position " + "6" + " but found " + "EOS"
  {
    MessageMissingArgumentAtEnd();
    var ts := [Num(2, 2), Plus(4)];
    LexMissingArgumentAtEnd(s, ts);
    MissingArgumentAtEndTextHolds(s);
    MissingArgumentAtEndTokensHold(ts);
    assert WellFormed(ts, s);
    ParseMissingArgumentAtEnd(s, ts);
    assert ParseText(s) == Parse(ts, s);
  }

  /** The input `"  2 + 3 * ()"`, character by character. */
  predicate MissingArgumentInBracketsText(s: string) {
    |s| == 12 && s[0] == ' ' && s[1] == ' ' && s[2] == '2' && s[3] == ' ' && s[4] == '+' &&
    s[5] == ' ' && s[6] == '3' && s[7] == ' ' && s[8] == '*' && s[9] == ' ' && s[10] == '(' &&
    s[11] == ')'
  }

  /** Its expected token list, element by element. */
  predicate MissingArgumentInBracketsTokens(ts: seq<TokenOrPar>) {
    |ts| == 6 && ts[0] == Num(2, 2) && ts[1] == Plus(4) && ts[2] == Num(3, 6) &&
    ts[3] == Asterisk(8) && ts[4] == LPar(10) && ts[5] == RPar(11)
  }

  lemma MissingArgumentInBracketsTextHolds(s: string)
    requires s == "  2 + 3 * ()"
    ensures MissingArgumentInBracketsText(s)
  {
    assert s[11] == ')';
    assert s[10] == '(';
    assert s[9] == ' ';
    assert s[8] == '*';
    assert s[7] == ' ';
    assert s[6] == '3';
    assert s[5] == ' ';
    assert s[4] == '+';
    assert s[3] == ' ';
    assert s[2] == '2';
    assert s[1] == ' ';
    assert s[0] == ' ';
  }

  lemma MissingArgumentInBracketsTokensHold(ts: seq<TokenOrPar>)
    requires ts == [Num(2, 2), Plus(4), Num(3, 6), Asterisk(8), LPar(10), RPar(11)]
    ensures MissingArgumentInBracketsTokens(ts)
  {
  }

  lemma LexMissingArgumentInBrackets6(s: string, ts: seq<TokenOrPar>)
    requires MissingArgumentInBracketsText(s) && MissingArgumentInBracketsTokens(ts)
    ensures Scan(s, 12) == Ok(ts[6..])
  {
    BlankEnd(s, 12);
    assert ts[6..] == [];
  }

  lemma LexMissingArgumentInBrackets5(s: string, ts: seq<TokenOrPar>)
    requires MissingArgumentInBracketsText(s) && MissingArgumentInBracketsTokens(ts)
    ensures Scan(s, 11) == Ok(ts[5..])
  {
    LexMissingArgumentInBrackets6(s, ts);
    SymbolStep(s, 11, ts, 5);
  }

  lemma LexMissingArgumentInBrackets4(s: string, ts: seq<TokenOrPar>)
    requires MissingArgumentInBracketsText(s) && MissingArgumentInBracketsTokens(ts)
    ensures Scan(s, 9) == Ok(ts[4..])
  {
    LexMissingArgumentInBrackets5(s, ts);
    SymbolStep(s, 9, ts, 4);
  }

  lemma LexMissingArgumentInBrackets3(s: string, ts: seq<TokenOrPar>)
    requires MissingArgumentInBracketsText(s) && MissingArgumentInBracketsTokens(ts)
    ensures Scan(s, 7) == Ok(ts[3..])
  {
    LexMissingArgumentInBrackets4(s, ts);
    SymbolStep(s, 7, ts, 3);
  }

  lemma LexMissingArgumentInBrackets2(s: string, ts: seq<TokenOrPar>)
    requires MissingArgumentInBracketsText(s) && MissingArgumentInBracketsTokens(ts)
    ensures Scan(s, 5) == Ok(ts[2..])
  {
    LexMissingArgumentInBrackets3(s, ts);
    DigitStep(s, 5, ts, 2, 3);
  }

  lemma LexMissingArgumentInBrackets1(s: string, ts: seq<TokenOrPar>)
    requires MissingArgumentInBracketsText(s) && MissingArgumentInBracketsTokens(ts)
    ensures Scan(s, 3) == Ok(ts[1..])
  {
    LexMissingArgumentInBrackets2(s, ts);
    SymbolStep(s, 3, ts, 1);
  }

  lemma LexMissingArgumentInBrackets0(s: string, ts: seq<TokenOrPar>)
    requires MissingArgumentInBracketsText(s) && MissingArgumentInBracketsTokens(ts)
    ensures Scan(s, 0) == Ok(ts[0..])
  {
    LexMissingArgumentInBrackets1(s, ts);
    DigitStep(s, 0, ts, 0, 2);
  }

  lemma LexMissingArgumentInBrackets(s: string, ts: seq<TokenOrPar>)
    requires s == "  2 + 3 * ()"
    requires ts == [Num(2, 2), Plus(4), Num(3, 6), Asterisk(8), LPar(10), RPar(11)]
    ensures Lex(s) == Ok(ts)
  {
    MissingArgumentInBracketsTextHolds(s);
    MissingArgumentInBracketsTokensHold(ts);
    LexMissingArgumentInBrackets0(s, ts);
    assert ts[0..] == ts;
  }

  lemma MessageMissingArgumentInBrackets()
    ensures Message(MissingArgument('(', 12, Some(')'))) == "Expected an argument for '" + "(" + "' at position " + "12" + " but found " + "')'"
  {
    assert NatToString(12) == "12";
  }

  lemma ParseMissingArgumentInBrackets(s: string, ts: seq<TokenOrPar>)
    requires MissingArgumentInBracketsText(s) && MissingArgumentInBracketsTokens(ts) && WellFormed(ts, s)
    ensures Parse(ts, s) == Err(MissingArgument('(', 12, Some(')')))
  {
    var err := MissingArgument('(', 12, Some(')'));
    var two, three := FromNum(Num(2, 2)), FromNum(Num(3, 6));
    assert Unary(ts, s, 5) == NotFound;
    assert MultiOrDivs(ts, s, 5) == NotFound;
    assert SumsOrDiffs(ts, s, 5) == NotFound;
    assert Atom(ts, s, 4) == Fail(err);
    assert Unary(ts, s, 4) == Fail(err);
    assert Unary(ts, s, 2) == Found(three, 3);
    assert MulLoop(ts, s, three, 3) == Fail(err);
    assert MultiOrDivs(ts, s, 2) == Fail(err);
    assert Unary(ts, s, 0) == Found(two, 1);
    assert MulLoop(ts, s, two, 1) == Found(two, 1);
    assert MultiOrDivs(ts, s, 0) == Found(two, 1);
    assert SumsLoop(ts, s, two, 1) == Fail(err);
  }

  /** `"  2 + 3 * ()"`: an empty bracket is a missing argument of the `(`. */
  lemma MissingArgumentInBrackets(s: string)
    requires s == "  2 + 3 * ()"
    ensures ParseText(s) == Err(MissingArgument('(', 12, Some(')')))
    ensures Message(ParseText(s).error) == "Expected an argument for '" + "(" + "' at position " + "12" + " but found " + "')'"
  {
    MessageMissingArgumentInBrackets();
    var ts := [Num(2, 2), Plus(4), Num(3, 6), Asterisk(8), LPar(10), RPar(11)];
    LexMissingArgumentInBrackets(s, ts);
    MissingArgumentInBracketsTextHolds(s);
    MissingArgumentInBracketsTokensHold(ts);
    assert WellFormed(ts, s);
    ParseMissingArgumentInBrackets(s, ts);
    assert ParseText(s) == Parse(ts, s);
  }

  /** `""`: no tokens at all. */
  lemma EmptyInputFailure(s: string)
    requires s == ""
    ensures ParseText(s) == Err(EmptyInput)
    ensures Message(ParseText(s).error) == "Empty input"
  {
  }

  /** The input `"  2 + 3 * (2"`, character by character. */
  predicate UnclosedAtEndText(s: string) {
    |s| == 12 && s[0] == ' ' && s[1] == ' ' && s[2] == '2' && s[3] == ' ' && s[4] == '+' &&
    s[5] == ' ' && s[6] == '3' && s[7] == ' ' && s[8] == '*' && s[9] == ' ' && s[10] == '(' &&
    s[11] == '2'
  }

  /** Its expected token list, element by element. */
  predicate UnclosedAtEndTokens(ts: seq<TokenOrPar>) {
    |ts| == 6 && ts[0] == Num(2, 2) && ts[1] == Plus(4) && ts[2] == Num(3, 6) &&
    ts[3] == Asterisk(8) && ts[4] == LPar(10) && ts[5] == Num(2, 11)
  }

  lemma UnclosedAtEndTextHolds(s: string)
    requires s == "  2 + 3 * (2"
    ensures UnclosedAtEndText(s)
  {
    assert s[11] == '2';
    assert s[10] == '(';
    assert s[9] == ' ';
    assert s[8] == '*';
    assert s[7] == ' ';
    assert s[6] == '3';
    assert s[5] == ' ';
    assert s[4] == '+';
    assert s[3] == ' ';
    assert s[2] == '2';
    assert s[1] == ' ';
    assert s[0] == ' ';
  }

  lemma UnclosedAtEndTokensHold(ts: seq<TokenOrPar>)
    requires ts == [Num(2, 2), Plus(4), Num(3, 6), Asterisk(8), LPar(10), Num(2, 11)]
    ensures UnclosedAtEndTokens(ts)
  {
  }

  lemma LexUnclosedAtEnd6(s: string, ts: seq<TokenOrPar>)
    requires UnclosedAtEndText(s) && UnclosedAtEndTokens(ts)
    ensures Scan(s, 12) == Ok(ts[6..])
  {
    BlankEnd(s, 12);
    assert ts[6..] == [];
  }

  lemma LexUnclosedAtEnd5(s: string, ts: seq<TokenOrPar>)
    requires UnclosedAtEndText(s) && UnclosedAtEndTokens(ts)
    ensures Scan(s, 11) == Ok(ts[5..])
  {
    LexUnclosedAtEnd6(s, ts);
    DigitStep(s, 11, ts, 5, 2);
  }

  lemma LexUnclosedAtEnd4(s: string, ts: seq<TokenOrPar>)
    requires UnclosedAtEndText(s) && UnclosedAtEndTokens(ts)
    ensures Scan(s, 9) == Ok(ts[4..])
  {
    LexUnclosedAtEnd5(s, ts);
    SymbolStep(s, 9, ts, 4);
  }

  lemma LexUnclosedAtEnd3(s: string, ts: seq<TokenOrPar>)
    requires UnclosedAtEndText(s) && UnclosedAtEndTokens(ts)
    ensures Scan(s, 7) == Ok(ts[3..])
  {
    LexUnclosedAtEnd4(s, ts);
    SymbolStep(s, 7, ts, 3);
  }

  lemma LexUnclosedAtEnd2(s: string, ts: seq<TokenOrPar>)
    requires UnclosedAtEndText(s) && UnclosedAtEndTokens(ts)
    ensures Scan(s, 5) == Ok(ts[2..])
  {
    LexUnclosedAtEnd3(s, ts);
    DigitStep(s, 5, ts, 2, 3);
  }

  lemma LexUnclosedAtEnd1(s: string, ts: seq<TokenOrPar>)
    requires UnclosedAtEndText(s) && UnclosedAtEndTokens(ts)
    ensures Scan(s, 3) == Ok(ts[1..])
  {
    LexUnclosedAtEnd2(s, ts);
    SymbolStep(s, 3, ts, 1);
  }

  lemma LexUnclosedAtEnd0(s: string, ts: seq<TokenOrPar>)
    requires UnclosedAtEndText(s) && UnclosedAtEndTokens(ts)
    ensures Scan(s, 0) == Ok(ts[0..])
  {
    LexUnclosedAtEnd1(s, ts);
    DigitStep(s, 0, ts, 0, 2);
  }

  lemma LexUnclosedAtEnd(s: string, ts: seq<TokenOrPar>)
    requires s == "  2 + 3 * (2"
    requires ts == [Num(2, 2), Plus(4), Num(3, 6), Asterisk(8), LPar(10), Num(2, 11)]
    ensures Lex(s) == Ok(ts)
  {
    UnclosedAtEndTextHolds(s);
    UnclosedAtEndTokensHold(ts);
    LexUnclosedAtEnd0(s, ts);
    assert ts[0..] == ts;
  }

  lemma MessageUnclosedAtEnd()
    ensures Message(UnclosedParen(13, 11, None)) == "Expected ')' at position " + "13" + " for '(' at position " + "11" + " but found " + "EOS"
  {
    assert NatToString(13) == "13";
    assert NatToString(11) == "11";
  }

  lemma ParseUnclosedAtEnd(s: string, ts: seq<TokenOrPar>)
    requires UnclosedAtEndText(s) && UnclosedAtEndTokens(ts) && WellFormed(ts, s)
    ensures Parse(ts, s) == Err(UnclosedParen(13, 11, None))
  {
    var err := UnclosedParen(13, 11, None);
    var two, three, two2 := FromNum(Num(2, 2)), FromNum(Num(3, 6)), FromNum(Num(2, 11));
    assert Unary(ts, s, 5) == Found(two2, 6);
    assert MulLoop(ts, s, two2, 6) == Found(two2, 6);
    assert MultiOrDivs(ts, s, 5) == Found(two2, 6);
    assert SumsLoop(ts, s, two2, 6) == Found(two2, 6);
    assert SumsOrDiffs(ts, s, 5) == Found(two2, 6);
    assert PositionAt(ts, s, 6) == 12;
    assert Atom(ts, s, 4) == Fail(err);
    assert Unary(ts, s, 4) == Fail(err);
    assert Unary(ts, s, 2) == Found(three, 3);
    assert MulLoop(ts, s, three, 3) == Fail(err);
    assert MultiOrDivs(ts, s, 2) == Fail(err);
    assert Unary(ts, s, 0) == Found(two, 1);
    assert MulLoop(ts, s, two, 1) == Found(two, 1);
    assert MultiOrDivs(ts, s, 0) == Found(two, 1);
    assert SumsLoop(ts, s, two, 1) == Fail(err);
  }

  /** `"  2 + 3 * (2"`: the input ends where the `)` is expected. */
  lemma UnclosedAtEnd(s: string)
    requires s == "  2 + 3 * (2"
    ensures ParseText(s) == Err(UnclosedParen(13, 11, None))
    ensures Message(ParseText(s).error) == "Expected ')' at position " + "13" + " for '(' at position " + "11" + " but found " + "EOS"
  {
    MessageUnclosedAtEnd();
    var ts := [Num(2, 2), Plus(4), Num(3, 6), Asterisk(8), LPar(10), Num(2, 11)];
    LexUnclosedAtEnd(s, ts);
    UnclosedAtEndTextHolds(s);
    UnclosedAtEndTokensHold(ts);
    assert WellFormed(ts, s);
    ParseUnclosedAtEnd(s, ts);
    assert ParseText(s) == Parse(ts, s);
  }

  /** The input `"  2 + 3 * (2 3"`, character by character. */
  predicate UnclosedBeforeNumberText(s: string) {
    |s| == 14 && s[0] == ' ' && s[1] == ' ' && s[2] == '2' && s[3] == ' ' && s[4] == '+' &&
    s[5] == ' ' && s[6] == '3' && s[7] == ' ' && s[8] == '*' && s[9] == ' ' && s[10] == '(' &&
    s[11] == '2' && s[12] == ' ' && s[13] == '3'
  }

  /** Its expected token list, element by element. */
  predicate UnclosedBeforeNumberTokens(ts: seq<TokenOrPar>) {
    |ts| == 7 && ts[0] == Num(2, 2) && ts[1] == Plus(4) && ts[2] == Num(3, 6) &&
    ts[3] == Asterisk(8) && ts[4] == LPar(10) && ts[5] == Num(2, 11) && ts[6] == Num(3, 13)
  }

  lemma UnclosedBeforeNumberTextHolds(s: string)
    requires s == "  2 + 3 * (2 3"
    ensures UnclosedBeforeNumberText(s)
  {
    assert s[13] == '3';
    assert s[12] == ' ';
    assert s[11] == '2';
    assert s[10] == '(';
    assert s[9] == ' ';
    assert s[8] == '*';
    assert s[7] == ' ';
    assert s[6] == '3';
    assert s[5] == ' ';
    assert s[4] == '+';
    assert s[3] == ' ';
    assert s[2] == '2';
    assert s[1] == ' ';
    assert s[0] == ' ';
  }

  lemma UnclosedBeforeNumberTokensHold(ts: seq<TokenOrPar>)
    requires ts == [Num(2, 2), Plus(4), Num(3, 6), Asterisk(8), LPar(10), Num(2, 11), Num(3, 13)]
    ensures UnclosedBeforeNumberTokens(ts)
  {
  }

  lemma LexUnclosedBeforeNumber7(s: string, ts: seq<TokenOrPar>)
    requires UnclosedBeforeNumberText(s) && UnclosedBeforeNumberTokens(ts)
    ensures Scan(s, 14) == Ok(ts[7..])
  {
    BlankEnd(s, 14);
    assert ts[7..] == [];
  }

  lemma LexUnclosedBeforeNumber6(s: string, ts: seq<TokenOrPar>)
    requires UnclosedBeforeNumberText(s) && UnclosedBeforeNumberTokens(ts)
    ensures Scan(s, 12) == Ok(ts[6..])
  {
    LexUnclosedBeforeNumber7(s, ts);
    DigitStep(s, 12, ts, 6, 3);
  }

  lemma LexUnclosedBeforeNumber5(s: string, ts: seq<TokenOrPar>)
    requires UnclosedBeforeNumberText(s) && UnclosedBeforeNumberTokens(ts)
    ensures Scan(s, 11) == Ok(ts[5..])
  {
    LexUnclosedBeforeNumber6(s, ts);
    DigitStep(s, 11, ts, 5, 2);
  }

  lemma LexUnclosedBeforeNumber4(s: string, ts: seq<TokenOrPar>)
    requires UnclosedBeforeNumberText(s) && UnclosedBeforeNumberTokens(ts)
    ensures Scan(s, 9) == Ok(ts[4..])
  {
    LexUnclosedBeforeNumber5(s, ts);
    SymbolStep(s, 9, ts, 4);
  }

  lemma LexUnclosedBeforeNumber3(s: string, ts: seq<TokenOrPar>)
    requires UnclosedBeforeNumberText(s) && UnclosedBeforeNumberTokens(ts)
    ensures Scan(s, 7) == Ok(ts[3..])
  {
    LexUnclosedBeforeNumber4(s, ts);
    SymbolStep(s, 7, ts, 3);
  }

  lemma LexUnclosedBeforeNumber2(s: string, ts: seq<TokenOrPar>)
    requires UnclosedBeforeNumberText(s) && UnclosedBeforeNumberTokens(ts)
    ensures Scan(s, 5) == Ok(ts[2..])
  {
    LexUnclosedBeforeNumber3(s, ts);
    DigitStep(s, 5, ts, 2, 3);
  }

  lemma LexUnclosedBeforeNumber1(s: string, ts: seq<TokenOrPar>)
    requires UnclosedBeforeNumberText(s) && UnclosedBeforeNumberTokens(ts)
    ensures Scan(s, 3) == Ok(ts[1..])
  {
    LexUnclosedBeforeNumber2(s, ts);
    SymbolStep(s, 3, ts, 1);
  }

  lemma LexUnclosedBeforeNumber0(s: string, ts: seq<TokenOrPar>)
    requires UnclosedBeforeNumberText(s) && UnclosedBeforeNumberTokens(ts)
    ensures Scan(s, 0) == Ok(ts[0..])
  {
    LexUnclosedBeforeNumber1(s, ts);
    DigitStep(s, 0, ts, 0, 2);
  }

  lemma LexUnclosedBeforeNumber(s: string, ts: seq<TokenOrPar>)
    requires s == "  2 + 3 * (2 3"
    requires ts == [Num(2, 2), Plus(4), Num(3, 6), Asterisk(8), LPar(10), Num(2, 11), Num(3, 13)]
    ensures Lex(s) == Ok(ts)
  {
    UnclosedBeforeNumberTextHolds(s);
    UnclosedBeforeNumberTokensHold(ts);
    LexUnclosedBeforeNumber0(s, ts);
    assert ts[0..] == ts;
  }

  lemma MessageUnclosedBeforeNumber()
    ensures Message(UnclosedParen(14, 11, Some('3'))) == "Expected ')' at position " + "14" + " for '(' at position " + "11" + " but found " + "3"
  {
    assert NatToString(14) == "14";
    assert NatToString(11) == "11";
  }

  /** The `(` at token 4 encloses `2` and is followed by the number `3`. */
  lemma UnclosedBeforeNumberAtom(s: string, ts: seq<TokenOrPar>)
    requires UnclosedBeforeNumberText(s) && UnclosedBeforeNumberTokens(ts) && WellFormed(ts, s)
    ensures Atom(ts, s, 4) == Fail(UnclosedParen(14, 11, Some('3')))
  {
    var two2 := FromNum(Num(2, 11));
    assert Unary(ts, s, 5) == Found(two2, 6);
    assert MulLoop(ts, s, two2, 6) == Found(two2, 6);
    assert MultiOrDivs(ts, s, 5) == Found(two2, 6);
    assert SumsLoop(ts, s, two2, 6) == Found(two2, 6);
    assert SumsOrDiffs(ts, s, 5) == Found(two2, 6);
    assert PositionAt(ts, s, 6) == 13;
  }

  /** So the product `3 * (2 3` from token 2 fails with it. */
  lemma UnclosedBeforeNumberProduct(s: string, ts: seq<TokenOrPar>)
    requires UnclosedBeforeNumberText(s) && UnclosedBeforeNumberTokens(ts) && WellFormed(ts, s)
    ensures MultiOrDivs(ts, s, 2) == Fail(UnclosedParen(14, 11, Some('3')))
  {
    var err := UnclosedParen(14, 11, Some('3'));
    var three := FromNum(Num(3, 6));
    UnclosedBeforeNumberAtom(s, ts);
    assert Unary(ts, s, 4) == Fail(err);
    assert Unary(ts, s, 2) == Found(three, 3);
    assert MulLoop(ts, s, three, 3) == Fail(err);
  }

  lemma ParseUnclosedBeforeNumber(s: string, ts: seq<TokenOrPar>)
    requires UnclosedBeforeNumberText(s) && UnclosedBeforeNumberTokens(ts) && WellFormed(ts, s)
    ensures Parse(ts, s) == Err(UnclosedParen(14, 11, Some('3')))
  {
    var err := UnclosedParen(14, 11, Some('3'));
    var two := FromNum(Num(2, 2));
    UnclosedBeforeNumberProduct(s, ts);
    assert Unary(ts, s, 0) == Found(two, 1);
    assert MulLoop(ts, s, two, 1) == Found(two, 1);
    assert MultiOrDivs(ts, s, 0) == Found(two, 1);
    assert SumsLoop(ts, s, two, 1) == Fail(err);
  }

  /** `"  2 + 3 * (2 3"`: a number stands where the `)` is expected; unlike the other two
      messages, this one does not quote the character it found. */
  lemma UnclosedBeforeNumber(s: string)
    requires s == "  2 + 3 * (2 3"
    ensures ParseText(s) == Err(UnclosedParen(14, 11, Some('3')))
    ensures Message(ParseText(s).error) == "Expected ')' at position " + "14" + " for '(' at position " + "11" + " but found " + "3"
  {
    MessageUnclosedBeforeNumber();
    var ts := [Num(2, 2), Plus(4), Num(3, 6), Asterisk(8), LPar(10), Num(2, 11), Num(3, 13)];
    LexUnclosedBeforeNumber(s, ts);
    UnclosedBeforeNumberTextHolds(s);
    UnclosedBeforeNumberTokensHold(ts);
    assert WellFormed(ts, s);
    ParseUnclosedBeforeNumber(s, ts);
    assert ParseText(s) == Parse(ts, s);
  }

  /** The input `"2 2"`, character by character. */
  predicate TrailingNumberText(s: string) {
    |s| == 3 && s[0] == '2' && s[1] == ' ' && s[2] == '2'
  }

  /** Its expected token list, element by element. */
  predicate TrailingNumberTokens(ts: seq<TokenOrPar>) {
    |ts| == 2 && ts[0] == Num(2, 0) && ts[1] == Num(2, 2)
  }

  lemma TrailingNumberTextHolds(s: string)
    requires s == "2 2"
    ensures TrailingNumberText(s)
  {
    assert s[2] == '2';
    assert s[1] == ' ';
    assert s[0] == '2';
  }

  lemma TrailingNumberTokensHold(ts: seq<TokenOrPar>)
    requires ts == [Num(2, 0), Num(2, 2)]
    ensures TrailingNumberTokens(ts)
  {
  }

  lemma LexTrailingNumber2(s: string, ts: seq<TokenOrPar>)
    requires TrailingNumberText(s) && TrailingNumberTokens(ts)
    ensures Scan(s, 3) == Ok(ts[2..])
  {
    BlankEnd(s, 3);
    assert ts[2..] == [];
  }

  lemma LexTrailingNumber1(s: string, ts: seq<TokenOrPar>)
    requires TrailingNumberText(s) && TrailingNumberTokens(ts)
    ensures Scan(s, 1) == Ok(ts[1..])
  {
    LexTrailingNumber2(s, ts);
    DigitStep(s, 1, ts, 1, 2);
  }

  lemma LexTrailingNumber0(s: string, ts: seq<TokenOrPar>)
    requires TrailingNumberText(s) && TrailingNumberTokens(ts)
    ensures Scan(s, 0) == Ok(ts[0..])
  {
    LexTrailingNumber1(s, ts);
    DigitStep(s, 0, ts, 0, 2);
  }

  lemma LexTrailingNumber(s: string, ts: seq<TokenOrPar>)
    requires s == "2 2"
    requires ts == [Num(2, 0), Num(2, 2)]
    ensures Lex(s) == Ok(ts)
  {
    TrailingNumberTextHolds(s);
    TrailingNumberTokensHold(ts);
    LexTrailingNumber0(s, ts);
    assert ts[0..] == ts;
  }

  lemma MessageTrailingNumber()
    ensures Message(ExpectedEos(3, '2')) == "Expected EOS at position " + "3" + " but found '" + "2" + "'"
  {
    assert NatToString(3) == "3";
  }

  lemma ParseTrailingNumber(s: string, ts: seq<TokenOrPar>)
    requires TrailingNumberText(s) && TrailingNumberTokens(ts) && WellFormed(ts, s)
    ensures Parse(ts, s) == Err(ExpectedEos(3, '2'))
  {
    var two := FromNum(Num(2, 0));
    assert Unary(ts, s, 0) == Found(two, 1);
    assert MulLoop(ts, s, two, 1) == Found(two, 1);
    assert MultiOrDivs(ts, s, 0) == Found(two, 1);
    assert SumsLoop(ts, s, two, 1) == Found(two, 1);
    assert SumsOrDiffs(ts, s, 0) == Found(two, 1);
  }

  /** `"2 2"`: a whole expression is parsed before the second number, which is left over. */
  lemma TrailingNumber(s: string)
    requires s == "2 2"
    ensures ParseText(s) == Err(ExpectedEos(3, '2'))
    ensures Message(ParseText(s).error) == "Expected EOS at position " + "3" + " but found '" + "2" + "'"
  {
    MessageTrailingNumber();
    var ts := [Num(2, 0), Num(2, 2)];
    LexTrailingNumber(s, ts);
    TrailingNumberTextHolds(s);
    TrailingNumberTokensHold(ts);
    assert WellFormed(ts, s);
    ParseTrailingNumber(s, ts);
    assert ParseText(s) == Parse(ts, s);
  }

  // ---------------------------------------------------------------------------
  // The quoted character of a missing argument

  /** The input `"2 + )"`, character by character. */
  predicate MissingArgumentQuotesBlankText(s: string) {
    |s| == 5 && s[0] == '2' && s[1] == ' ' && s[2] == '+' && s[3] == ' ' && s[4] == ')'
  }

  /** Its expected token list, element by element. */
  predicate MissingArgumentQuotesBlankTokens(ts: seq<TokenOrPar>) {
    |ts| == 3 && ts[0] == Num(2, 0) && ts[1] == Plus(2) && ts[2] == RPar(4)
  }

  lemma MissingArgumentQuotesBlankTextHolds(s: string)
    requires s == "2 + )"
    ensures MissingArgumentQuotesBlankText(s)
  {
    assert s[4] == ')';
    assert s[3] == ' ';
    assert s[2] == '+';
    assert s[1] == ' ';
    assert s[0] == '2';
  }

  lemma MissingArgumentQuotesBlankTokensHold(ts: seq<TokenOrPar>)
    requires ts == [Num(2, 0), Plus(2), RPar(4)]
    ensures MissingArgumentQuotesBlankTokens(ts)
  {
  }

  lemma LexMissingArgumentQuotesBlank3(s: string, ts: seq<TokenOrPar>)
    requires MissingArgumentQuotesBlankText(s) && MissingArgumentQuotesBlankTokens(ts)
    ensures Scan(s, 5) == Ok(ts[3..])
  {
    BlankEnd(s, 5);
    assert ts[3..] == [];
  }

  lemma LexMissingArgumentQuotesBlank2(s: string, ts: seq<TokenOrPar>)
    requires MissingArgumentQuotesBlankText(s) && MissingArgumentQuotesBlankTokens(ts)
    ensures Scan(s, 3) == Ok(ts[2..])
  {
    LexMissingArgumentQuotesBlank3(s, ts);
    SymbolStep(s, 3, ts, 2);
  }

  lemma LexMissingArgumentQuotesBlank1(s: string, ts: seq<TokenOrPar>)
    requires MissingArgumentQuotesBlankText(s) && MissingArgumentQuotesBlankTokens(ts)
    ensures Scan(s, 1) == Ok(ts[1..])
  {
    LexMissingArgumentQuotesBlank2(s, ts);
    SymbolStep(s, 1, ts, 1);
  }

  lemma LexMissingArgumentQuotesBlank0(s: string, ts: seq<TokenOrPar>)
    requires MissingArgumentQuotesBlankText(s) && MissingArgumentQuotesBlankTokens(ts)
    ensures Scan(s, 0) == Ok(ts[0..])
  {
    LexMissingArgumentQuotesBlank1(s, ts);
    DigitStep(s, 0, ts, 0, 2);
  }

  lemma LexMissingArgumentQuotesBlank(s: string, ts: seq<TokenOrPar>)
    requires s == "2 + )"
    requires ts == [Num(2, 0), Plus(2), RPar(4)]
    ensures Lex(s) == Ok(ts)
  {
    MissingArgumentQuotesBlankTextHolds(s);
    MissingArgumentQuotesBlankTokensHold(ts);
    LexMissingArgumentQuotesBlank0(s, ts);
    assert ts[0..] == ts;
  }

  lemma MessageMissingArgumentQuotesBlank()
    ensures Message(MissingArgument(' ', 5, Some(')'))) == "Expected an argument for '" + " " + "' at position " + "5" + " but found " + "')'"
  {
    assert NatToString(5) == "5";
  }

  lemma ParseMissingArgumentQuotesBlank(s: string, ts: seq<TokenOrPar>)
    requires MissingArgumentQuotesBlankText(s) && MissingArgumentQuotesBlankTokens(ts) && WellFormed(ts, s)
    ensures Parse(ts, s) == Err(MissingArgument(' ', 5, Some(')')))
  {
    var err := MissingArgument(' ', 5, Some(')'));
    var two := FromNum(Num(2, 0));
    assert Unary(ts, s, 0) == Found(two, 1);
    assert MulLoop(ts, s, two, 1) == Found(two, 1);
    assert MultiOrDivs(ts, s, 0) == Found(two, 1);
    assert Unary(ts, s, 2) == NotFound;
    assert MultiOrDivs(ts, s, 2) == NotFound;
    assert PositionAt(ts, s, 2) == 4;
    assert SumsLoop(ts, s, two, 1) == Fail(err);
  }

  /** `"2 + )"`: the message quotes the character just before the token after the operator,
      which here is the blank between `+` and `)`, not the `+`. */
  lemma MissingArgumentQuotesBlank(s: string)
    requires s == "2 + )"
    ensures ParseText(s) == Err(MissingArgument(' ', 5, Some(')')))
    ensures Message(ParseText(s).error) == "Expected an argument for '" + " " + "' at position " + "5" + " but found " + "')'"
  {
    MessageMissingArgumentQuotesBlank();
    var ts := [Num(2, 0), Plus(2), RPar(4)];
    LexMissingArgumentQuotesBlank(s, ts);
    MissingArgumentQuotesBlankTextHolds(s);
    MissingArgumentQuotesBlankTokensHold(ts);
    assert WellFormed(ts, s);
    ParseMissingArgumentQuotesBlank(s, ts);
    assert ParseText(s) == Parse(ts, s);
  }

}
