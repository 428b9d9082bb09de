/**
 * The errors the tokenizer and the parser raise (in Kotlin, an `IllegalArgumentException`
 * with a message), as values carrying the numbers and characters the message quotes,
 * and the exact message text.
 */
module Diagnostics {
  import opened Wrappers
  import opened Chars

  /** Every position held here is the 1-based number the message prints. */
  datatype Error =
    | UnexpectedCharacter(ch: char, position: nat)
    | EmptyInput
    | MissingArgument(operator: char, position: nat, found: Option<char>)
    | UnclosedParen(position: nat, openPosition: nat, found: Option<char>)
    | ExpectedEos(position: nat, ch: char)

  /** Kotlin's `input.elementAtOrNull(k)`. */
  function CharAt(input: string, k: nat): (r: Option<char>)
    ensures r.Some? <==> k < |input|
    ensures r.Some? ==> r.value == input[k]
  {
    if k < |input| then Some(input[k]) else None
  }

  /** The text a missing-argument message ends with: the quoted character, or EOS. */
  function QuotedOrEos(found: Option<char>): string {
    match found
    case Some(c) => "'" + [c] + "'"
    case None => "EOS"
  }

  /** The text an unclosed-parenthesis message ends with: the bare character, or EOS. */
  function BareOrEos(found: Option<char>): string {
    match found
    case Some(c) => [c]
    case None => "EOS"
  }

  /** The words each kind of message opens with. */
  function Opening(e: Error): string {
    match e
    case UnexpectedCharacter(_, _) => "Unexpected character '"
    case EmptyInput => "Empty input"
    case MissingArgument(_, _, _) => "Expected an argument for '"
    case UnclosedParen(_, _, _) => "Expected ')' at position "
    case ExpectedEos(_, _) => "Expected EOS at position "
  }

  /** The message of the exception the source throws for `e`: it opens with the words of its
      kind and ends with the quoted character (or EOS) the error carries. */
  function Message(e: Error): string {
    match e
    case UnexpectedCharacter(c, p) =>
      "Unexpected character '" + [c] + "' at position " + NatToString(p)
    case EmptyInput =>
      "Empty input"
    case MissingArgument(op, p, found) =>
      "Expected an argument for '" + [op] + "' at position " + NatToString(p)
      + " but found " + QuotedOrEos(found)
    case UnclosedParen(p, lp, found) =>
      "Expected ')' at position " + NatToString(p) + " for '(' at position " + NatToString(lp)
      + " but found " + BareOrEos(found)
    case ExpectedEos(p, c) =>
      "Expected EOS at position " + NatToString(p) + " but found '" + [c] + "'"
  }

  lemma PrefixOfAppend(a: string, b: string)
    ensures a <= a + b
  {
    assert (a + b)[..|a|] == a;
  }

  /** Every message opens with the words of its kind. */
  lemma MessageOpens(e: Error)
    ensures Opening(e) <= Message(e)
  {
    match e
    case UnexpectedCharacter(c, p) =>
      var o := "Unexpected character '";
      PrefixOfAppend(o, [c]);
      PrefixOfAppend(o + [c], "' at position ");
      PrefixOfAppend(o + [c] + "' at position ", NatToString(p));
    case EmptyInput =>
    case MissingArgument(op, p, found) =>
      var o := "Expected an argument for '";
      PrefixOfAppend(o, [op]);
      PrefixOfAppend(o + [op], "' at position ");
      PrefixOfAppend(o + [op] + "' at position ", NatToString(p));
      PrefixOfAppend(o + [op] + "' at position " + NatToString(p), " but found ");
      PrefixOfAppend(o + [op] + "' at position " + NatToString(p) + " but found ", QuotedOrEos(found));
    case UnclosedParen(p, lp, found) =>
      var o := "Expected ')' at position ";
      PrefixOfAppend(o, NatToString(p));
      PrefixOfAppend(o + NatToString(p), " for '(' at position ");
      PrefixOfAppend(o + NatToString(p) + " for '(' at position ", NatToString(lp));
      PrefixOfAppend(o + NatToString(p) + " for '(' at position " + NatToString(lp), " but found ");
      PrefixOfAppend(o + NatToString(p) + " for '(' at position " + NatToString(lp) + " but found ", BareOrEos(found));
    case ExpectedEos(p, c) =>
      var o := "Expected EOS at position ";
      PrefixOfAppend(o, NatToString(p));
      PrefixOfAppend(o + NatToString(p), " but found '");
      PrefixOfAppend(o + NatToString(p) + " but found '", [c]);
      PrefixOfAppend(o + NatToString(p) + " but found '" + [c], "'");
  }

  /** The second and tenth characters of each opening: `n`, `m` or `x`, then `a`, `'` or `E`
      after "Expected ". */
  lemma OpeningMarks(e: Error)
    ensures |Opening(e)| >= 10
    ensures Opening(e)[1] == (if e.UnexpectedCharacter? then 'n' else if e.EmptyInput? then 'm' else 'x')
    ensures e.MissingArgument? ==> Opening(e)[9] == 'a'
    ensures e.UnclosedParen? ==> Opening(e)[9] == '\''
    ensures e.ExpectedEos? ==> Opening(e)[9] == 'E'
  {
  }

  /** Two errors whose messages are equal are of the same kind: the message tells the kinds apart. */
  lemma MessageTellsKinds(e1: Error, e2: Error)
    requires Message(e1) == Message(e2)
    ensures e1.UnexpectedCharacter? == e2.UnexpectedCharacter? && e1.EmptyInput? == e2.EmptyInput? &&
      e1.MissingArgument? == e2.MissingArgument? && e1.UnclosedParen? == e2.UnclosedParen? &&
      e1.ExpectedEos? == e2.ExpectedEos?
  {
    MessageOpens(e1);
    MessageOpens(e2);
    OpeningMarks(e1);
    OpeningMarks(e2);
    var m := Message(e1);
    assert m[1] == Opening(e1)[1] == Opening(e2)[1];
    assert m[9] == Opening(e1)[9] == Opening(e2)[9];
  }
}
