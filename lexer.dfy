/**
 * The tokenizer of Tokenizer.kt: a forward-only cursor over the input that skips
 * whitespace, then recognises, in this order, `(`, `)`, `+`, `-`, `*`, `/` and a maximal
 * run of decimal digits, tagging each token with the 0-based offset of its first character.
 *
 * The pure functions SkipSpacesFrom, DigitRunEnd, NumberAt, TokenAt and Scan say what the
 * cursor methods of class Tokenizer compute; the lemmas at the end characterise Lex.
 */
module Lexer {
  import opened Wrappers
  import opened Chars
  import opened Diagnostics

  /** Kotlin's sealed `TokenOrPar` hierarchy; `Num.value` is the exact digit fold. */
  datatype TokenOrPar =
    | LPar(position: nat)
    | RPar(position: nat)
    | Plus(position: nat)
    | Minus(position: nat)
    | Asterisk(position: nat)
    | Slash(position: nat)
    | Num(value: nat, position: nat)

  /** Kotlin's `Token`: everything but the parentheses. */
  type Token = t: TokenOrPar | !t.LPar? && !t.RPar? witness Num(0, 0)

  /** The character a one-character token is read from. */
  function Symbol(t: TokenOrPar): char
    requires !t.Num?
  {
    match t
    case LPar(_) => '('
    case RPar(_) => ')'
    case Plus(_) => '+'
    case Minus(_) => '-'
    case Asterisk(_) => '*'
    case Slash(_) => '/'
  }

  /** A character some recogniser of the chain accepts. */
  predicate StartsToken(c: char) {
    c == '(' || c == ')' || c == '+' || c == '-' || c == '*' || c == '/' || IsDigit(c)
  }

  /** A character the tokenizer never complains about. */
  predicate Acceptable(c: char) {
    IsWhitespace(c) || StartsToken(c)
  }

  // ---------------------------------------------------------------------------
  // What the cursor does, as functions of the input and the cursor index

  /** Where `skipSpaces` leaves a cursor that starts at `i`. */
  function SkipSpacesFrom(s: string, i: nat): (j: nat)
    requires i <= |s|
    ensures i <= j <= |s|
    ensures forall k | i <= k < j :: IsWhitespace(s[k])
    ensures j == |s| || !IsWhitespace(s[j])
    decreases |s| - i
  {
    if i < |s| && IsWhitespace(s[i]) then SkipSpacesFrom(s, i + 1) else i
  }

  /** The end of the maximal run of digits that starts at `i`. */
  function DigitRunEnd(s: string, i: nat): (j: nat)
    requires i <= |s|
    ensures i <= j <= |s|
    ensures forall k | i <= k < j :: IsDigit(s[k])
    ensures j == |s| || !IsDigit(s[j])
    decreases |s| - i
  {
    if i < |s| && IsDigit(s[i]) then DigitRunEnd(s, i + 1) else i
  }

  /** Any index that ends a run of digits begun at `i` is the one DigitRunEnd finds. */
  lemma DigitRunEndUnique(s: string, i: nat, j: nat)
    requires i <= j <= |s|
    requires forall k | i <= k < j :: IsDigit(s[k])
    requires j == |s| || !IsDigit(s[j])
    ensures DigitRunEnd(s, i) == j
  {
  }

  lemma DigitsOfRun(s: string, i: nat, j: nat)
    requires i <= j <= |s|
    requires forall k | i <= k < j :: IsDigit(s[k])
    ensures AllDigits(s[i..j])
  {
    forall k | 0 <= k < j - i ensures IsDigit(s[i..j][k]) {
      assert s[i..j][k] == s[i + k];
    }
  }

  /** The index just after the text token `t` was read from. */
  function TokenEnd(s: string, t: TokenOrPar): nat
    requires t.position <= |s|
  {
    if t.Num? then DigitRunEnd(s, t.position) else t.position + 1
  }

  /** Token `t` is what the recogniser chain reads at `t.position`: its own character there,
      or, for a number, a digit there and the fold of the whole run of digits. */
  ghost predicate Spells(s: string, t: TokenOrPar) {
    t.position < |s| &&
    if t.Num? then
      IsDigit(s[t.position]) &&
      var j := DigitRunEnd(s, t.position);
      DigitsOfRun(s, t.position, j);
      t.value == DecimalValue(s[t.position..j])
    else
      s[t.position] == Symbol(t)
  }

  /** `readNum` started at `i`: the number token and the index after its digits, or nothing. */
  function NumberAt(s: string, i: nat): (r: Option<(TokenOrPar, nat)>)
    requires i <= |s|
    ensures r.Some? <==> i < |s| && IsDigit(s[i])
    ensures r.Some? ==>
      var (t, j) := r.value;
      t.Num? && t.position == i && Spells(s, t) && j == TokenEnd(s, t) && i < j
  {
    if i < |s| && IsDigit(s[i]) then
      var j := DigitRunEnd(s, i);
      DigitsOfRun(s, i, j);
      Some((Num(DecimalValue(s[i..j]), i), j))
    else None
  }

  /** The recogniser chain of `readToken` at `i` (spaces already skipped): the first
      recogniser that accepts wins. */
  function TokenAt(s: string, i: nat): (r: Option<(TokenOrPar, nat)>)
    requires i <= |s|
    ensures r.Some? <==> i < |s| && StartsToken(s[i])
    ensures r.Some? ==>
      var (t, j) := r.value;
      t.position == i && Spells(s, t) && j == TokenEnd(s, t) && i < j <= |s|
  {
    if i == |s| then None
    else if s[i] == '(' then Some((LPar(i), i + 1))
    else if s[i] == ')' then Some((RPar(i), i + 1))
    else if s[i] == '+' then Some((Plus(i), i + 1))
    else if s[i] == '-' then Some((Minus(i), i + 1))
    else if s[i] == '*' then Some((Asterisk(i), i + 1))
    else if s[i] == '/' then Some((Slash(i), i + 1))
    else NumberAt(s, i)
  }

  /** Positions at least `lo`, below `hi`, and strictly increasing. */
  ghost predicate Positioned(ts: seq<TokenOrPar>, lo: nat, hi: nat) {
    (forall a | 0 <= a < |ts| :: lo <= ts[a].position < hi) &&
    (forall a, b | 0 <= a < b < |ts| :: ts[a].position < ts[b].position)
  }

  /** Puts `acc` in front of the tokens of a successful result. */
  function Prepend(acc: seq<TokenOrPar>, r: Result<seq<TokenOrPar>, Error>): Result<seq<TokenOrPar>, Error> {
    match r
    case Ok(ts) => Ok(acc + ts)
    case Err(e) => Err(e)
  }

  /** The tokens `tokenize` collects from cursor index `i` on, or the error it throws. */
  function Scan(s: string, i: nat): (r: Result<seq<TokenOrPar>, Error>)
    requires i <= |s|
    ensures r.Ok? ==> |r.value| <= |s| - i
    ensures r.Err? ==>
      r.error.UnexpectedCharacter? && i < r.error.position <= |s| &&
      r.error.ch == s[r.error.position - 1] && !Acceptable(r.error.ch)
    decreases |s| - i
  {
    var j := SkipSpacesFrom(s, i);
    match TokenAt(s, j)
    case Some((t, k)) => Prepend([t], Scan(s, k))
    case None => if j < |s| then Err(UnexpectedCharacter(s[j], j + 1)) else Ok([])
  }

  lemma PrependEmpty(r: Result<seq<TokenOrPar>, Error>)
    ensures Prepend([], r) == r
  {
    if r.Ok? {
      assert [] + r.value == r.value;
    }
  }

  lemma PrependPrepend(acc: seq<TokenOrPar>, t: TokenOrPar, r: Result<seq<TokenOrPar>, Error>)
    ensures Prepend(acc, Prepend([t], r)) == Prepend(acc + [t], r)
  {
    if r.Ok? {
      assert acc + ([t] + r.value) == (acc + [t]) + r.value;
    }
  }

  /** Every token `Scan` collects spells itself at its position, and the positions increase. */
  lemma {:induction false} ScanSound(s: string, i: nat)
    requires i <= |s|
    ensures Scan(s, i).Ok? ==> Positioned(Scan(s, i).value, i, |s|)
    ensures Scan(s, i).Ok? ==> forall a | 0 <= a < |Scan(s, i).value| :: Spells(s, Scan(s, i).value[a])
    decreases |s| - i
  {
    var j := SkipSpacesFrom(s, i);
    if TokenAt(s, j).Some? {
      var (t, k) := TokenAt(s, j).value;
      ScanSound(s, k);
      if Scan(s, k).Ok? {
        var rest := Scan(s, k).value;
        assert Scan(s, i).value == [t] + rest;
        assert forall a | 1 <= a < |rest| + 1 :: ([t] + rest)[a] == rest[a - 1];
      }
    }
  }

  /** `tokenize(input)`. */
  function Lex(s: string): (r: Result<seq<TokenOrPar>, Error>)
    ensures r.Ok? ==> Positioned(r.value, 0, |s|)
    ensures r.Ok? ==> forall a | 0 <= a < |r.value| :: Spells(s, r.value[a])
  {
    ScanSound(s, 0);
    Scan(s, 0)
  }

  // ---------------------------------------------------------------------------
  // What a tokenization is, independently of the cursor

  /** Only one recogniser can accept a given character, and none accepts a blank:
      the order of the chain decides nothing but which check runs first. */
  lemma RecognisersDisjoint(c: char)
    ensures IsWhitespace(c) ==> !StartsToken(c)
    ensures IsDigit(c) ==> c != '(' && c != ')' && c != '+' && c != '-' && c != '*' && c != '/'
  {
  }

  ghost predicate BlankBetween(s: string, a: nat, b: nat) {
    b <= |s| && forall k | a <= k < b :: IsWhitespace(s[k])
  }

  /** From index `i` on, the input is blanks, the text of ts[0], blanks, the text of ts[1],
      ..., and blanks up to its end. */
  ghost predicate Tiles(s: string, ts: seq<TokenOrPar>, i: nat)
    decreases |ts|
  {
    if ts == [] then BlankBetween(s, i, |s|)
    else
      i <= ts[0].position && Spells(s, ts[0]) && BlankBetween(s, i, ts[0].position) &&
      Tiles(s, ts[1..], TokenEnd(s, ts[0]))
  }

  lemma SkipSpacesFromUnique(s: string, i: nat, j: nat)
    requires i <= j <= |s|
    requires forall k | i <= k < j :: IsWhitespace(s[k])
    requires j == |s| || !IsWhitespace(s[j])
    ensures SkipSpacesFrom(s, i) == j
  {
  }

  lemma TokenAtSpelled(s: string, t: TokenOrPar)
    requires Spells(s, t)
    ensures TokenAt(s, t.position) == Some((t, TokenEnd(s, t)))
  {
  }

  /** A one-character token whose character stands at its position spells itself. */
  lemma SymbolSpells(s: string, t: TokenOrPar)
    requires !t.Num? && t.position < |s| && s[t.position] == Symbol(t)
    ensures Spells(s, t) && TokenEnd(s, t) == t.position + 1
  {
  }

  /** Blanks from `i`, then a token that spells itself: the scan reads it and goes on after it. */
  lemma ScanStep(s: string, i: nat, t: TokenOrPar)
    requires i <= t.position && Spells(s, t)
    requires forall k | i <= k < t.position :: IsWhitespace(s[k])
    ensures Scan(s, i) == Prepend([t], Scan(s, TokenEnd(s, t)))
  {
    SkipSpacesFromUnique(s, i, t.position);
    TokenAtSpelled(s, t);
  }

  lemma {:induction false} ScanTiles(s: string, i: nat)
    requires i <= |s|
    requires Scan(s, i).Ok?
    ensures Tiles(s, Scan(s, i).value, i)
    decreases |s| - i
  {
    var j := SkipSpacesFrom(s, i);
    match TokenAt(s, j)
    case Some((t, k)) =>
      ScanTiles(s, k);
      assert Scan(s, i).value == [t] + Scan(s, k).value;
    case None =>
  }

  lemma {:induction false} TilesScan(s: string, ts: seq<TokenOrPar>, i: nat)
    requires i <= |s|
    requires Tiles(s, ts, i)
    ensures Scan(s, i) == Ok(ts)
    decreases |ts|
  {
    if ts == [] {
      SkipSpacesFromUnique(s, i, |s|);
    } else {
      var t := ts[0];
      RecognisersDisjoint(s[t.position]);
      SkipSpacesFromUnique(s, i, t.position);
      TokenAtSpelled(s, t);
      TilesScan(s, ts[1..], TokenEnd(s, t));
      assert [t] + ts[1..] == ts;
    }
  }

  /** `tokenize` succeeds with `ts` exactly when the input is blanks and the texts of the tokens
      of `ts`, in order: the tokens account for every non-blank character, each token is read
      at its first non-blank character, and a number takes the whole run of digits. */
  lemma LexTiles(s: string, ts: seq<TokenOrPar>)
    ensures Lex(s) == Ok(ts) <==> Tiles(s, ts, 0)
  {
    if Lex(s) == Ok(ts) {
      ScanTiles(s, 0);
    }
    if Tiles(s, ts, 0) {
      TilesScan(s, ts, 0);
    }
  }

  /** Empty or all-blank input, and only such input, gives no tokens. */
  lemma LexBlank(s: string)
    ensures Lex(s) == Ok([]) <==> forall k | 0 <= k < |s| :: IsWhitespace(s[k])
  {
    LexTiles(s, []);
  }

  /** The error names the first character no recogniser accepts, with its 1-based position. */
  ghost predicate FirstUnacceptable(s: string, i: nat, e: Error) {
    e.UnexpectedCharacter? && i < e.position <= |s| &&
    s[e.position - 1] == e.ch && !Acceptable(e.ch) &&
    forall k | i <= k < e.position - 1 :: Acceptable(s[k])
  }

  lemma {:induction false} ScanVerdict(s: string, i: nat)
    requires i <= |s|
    ensures Scan(s, i).Ok? ==> forall k | i <= k < |s| :: Acceptable(s[k])
    ensures Scan(s, i).Err? ==> FirstUnacceptable(s, i, Scan(s, i).error)
    decreases |s| - i
  {
    var j := SkipSpacesFrom(s, i);
    match TokenAt(s, j)
    case Some((t, k)) =>
      ScanVerdict(s, k);
      assert forall m | j <= m < k :: StartsToken(s[m]);
    case None =>
  }

  /** `tokenize` fails exactly when some character is neither blank nor the start or part of a
      token, and then it reports the first such character, at its 1-based position. */
  lemma LexVerdict(s: string)
    ensures Lex(s).Ok? <==> forall k | 0 <= k < |s| :: Acceptable(s[k])
    ensures Lex(s).Err? ==> FirstUnacceptable(s, 0, Lex(s).error)
  {
    ScanVerdict(s, 0);
    if Lex(s).Err? {
      var p := Lex(s).error.position;
      assert !Acceptable(s[p - 1]);
    }
  }

  // ---------------------------------------------------------------------------
  // The cursor

  /** Kotlin's private `Tokenizer`: the input and a cursor that only moves forward. */
  class Tokenizer {
    const input: string
    var position: nat

    ghost predicate Valid()
      reads this
    {
      position <= |input|
    }

    constructor (input: string)
      ensures Valid() && this.input == input && position == 0
    {
      this.input := input;
      position := 0;
    }

    function CharsLeft(): (n: nat)
      reads this
      requires Valid()
      ensures n == 0 <==> position == |input|
    {
      |input| - position
    }

    function CurChar(): (c: Option<char>)
      reads this
      ensures c.Some? <==> position < |input|
      ensures c.Some? ==> c.value == input[position]
    {
      if position < |input| then Some(input[position]) else None
    }

    /** Applies `make` to the current character; moves past it exactly when `make` accepts it. */
    method ReadObject<T>(make: char -> Option<T>) returns (r: Option<T>)
      requires Valid()
      modifies this
      ensures Valid()
      ensures r == if old(position) < |input| then make(input[old(position)]) else None
      ensures position == if r.Some? then old(position) + 1 else old(position)
    {
      var c := CurChar();
      if c.Some? {
        r := make(c.value);
        if r.Some? {
          position := position + 1;
        }
      } else {
        r := None;
      }
    }

    method ReadIf(accept: char -> bool) returns (r: Option<char>)
      requires Valid()
      modifies this
      ensures Valid()
      ensures r == if old(position) < |input| && accept(input[old(position)])
                   then Some(input[old(position)]) else None
      ensures position == if r.Some? then old(position) + 1 else old(position)
    {
      r := ReadObject(c => if accept(c) then Some(c) else None);
    }

    method ReadChar(expected: char) returns (r: Option<char>)
      requires Valid()
      modifies this
      ensures Valid()
      ensures r.Some? <==> old(position) < |input| && input[old(position)] == expected
      ensures r.Some? ==> r.value == expected
      ensures position == if r.Some? then old(position) + 1 else old(position)
    {
      r := ReadIf(c => c == expected);
    }

    /** The tail-recursive `skipSpaces`. */
    method SkipSpaces()
      requires Valid()
      modifies this
      ensures Valid() && position == SkipSpacesFrom(input, old(position))
      decreases |input| - position
    {
      var c := ReadIf(IsWhitespace);
      if c.Some? {
        SkipSpaces();
      }
    }

    /** `readNum`: folds a maximal run of digits into `accumulator * 10 + digit`. */
    method ReadNum() returns (r: Option<TokenOrPar>)
      requires Valid()
      modifies this
      ensures Valid()
      ensures NumberAt(input, old(position)) == if r.Some? then Some((r.value, position)) else None
      ensures r.None? ==> position == old(position)
    {
      var start := position;
      var first := ReadObject(DigitToIntOrNull);
      if first.None? {
        return None;
      }
      var accumulator := first.value;
      assert input[start..position][..0] == [];
      while true
        invariant Valid() && start < position
        invariant forall k | start <= k < position :: IsDigit(input[k])
        invariant AllDigits(input[start..position])
        invariant accumulator == DecimalValue(input[start..position])
        decreases |input| - position
      {
        ghost var before := position;
        var digit := ReadObject(DigitToIntOrNull);
        if digit.None? {
          break;
        }
        assert input[start..position][..position - 1 - start] == input[start..before];
        accumulator := accumulator * 10 + digit.value;
      }
      DigitRunEndUnique(input, start, position);
      return Some(Num(accumulator, start));
    }

    /** `readToken`: skips spaces, then tries the recognisers in their fixed order. */
    method ReadToken() returns (r: Option<TokenOrPar>)
      requires Valid()
      modifies this
      ensures Valid()
      ensures TokenAt(input, SkipSpacesFrom(input, old(position)))
              == if r.Some? then Some((r.value, position)) else None
      ensures r.None? ==> position == SkipSpacesFrom(input, old(position))
    {
      SkipSpaces();
      var start := position;
      var c := ReadChar('(');
      if c.Some? { return Some(LPar(start)); }
      c := ReadChar(')');
      if c.Some? { return Some(RPar(start)); }
      c := ReadChar('+');
      if c.Some? { return Some(Plus(start)); }
      c := ReadChar('-');
      if c.Some? { return Some(Minus(start)); }
      c := ReadChar('*');
      if c.Some? { return Some(Asterisk(start)); }
      c := ReadChar('/');
      if c.Some? { return Some(Slash(start)); }
      r := ReadNum();
    }
  }

  /** `tokenize`: reads tokens until none is recognised; then either the input is used up
      or the character under the cursor is reported with its 1-based position. */
  method Tokenize(input: string) returns (r: Result<seq<TokenOrPar>, Error>)
    ensures r == Lex(input)
  {
    var tokenizer := new Tokenizer(input);
    var tokens: seq<TokenOrPar> := [];
    PrependEmpty(Lex(input));
    while true
      invariant tokenizer.Valid() && tokenizer.input == input
      invariant Lex(input) == Prepend(tokens, Scan(input, tokenizer.position))
      decreases |input| - tokenizer.position
    {
      var token := tokenizer.ReadToken();
      if token.Some? {
        PrependPrepend(tokens, token.value, Scan(input, tokenizer.position));
        tokens := tokens + [token.value];
      } else if tokenizer.CharsLeft() > 0 {
        return Err(UnexpectedCharacter(tokenizer.CurChar().value, tokenizer.position + 1));
      } else {
        break;
      }
    }
    assert Scan(input, tokenizer.position) == Ok([]);
    assert tokens + [] == tokens;
    return Ok(tokens);
  }
}
