# ArithmeticParser in Dafny

A model of the front end of ArithmeticParser, a Kotlin reader of arithmetic expressions
(numbers, `+ - * /`, unary `+`/`-`, parentheses), with proofs about it:

- **Tokenizer** (`lexer.dfy`, module `Lexer`). This is `Tokenizer.kt`. Class `Tokenizer` is the
  forward-only cursor, with `ReadObject`, `ReadIf`, `ReadChar`, `SkipSpaces`, `ReadNum` and
  `ReadToken`. Method `Tokenize` is the `tokenize` loop. Each is proved to compute a pure
  function of the input and the cursor: `SkipSpacesFrom`, `NumberAt`, `TokenAt`, `Scan`, and
  `Lex` for the whole input. Lemmas then say what a tokenization is without the cursor:
  - the tokens, with the blanks, tile the input;
  - the positions strictly increase;
  - a number takes the whole run of digits, and its value is the digit fold;
  - an error names the first character no recogniser accepts, at its 1-based position.
- **AST** (`ast.dfy`, module `Ast`). These are the seven node classes of `Parser.kt`, as one
  datatype whose subset types give each node kind the token type its constructor demands.
  It also holds the `token` and `arguments` properties.
- **Parser** (`parser.dfy`, module `Parser`). This is the recursive descent of `Parser.kt`.
  - Class `ParserState` holds the token list, the input and the mutable `curIndex`. Its methods
    are `Position`, `Peek`, `Pop`, `WhenToken` and the four parsing routines. Each routine is
    proved to compute a function of the start index (`SumsOrDiffs`, `SumsLoop`, `MultiOrDivs`,
    `MulLoop`, `Unary`, `Argument`, `Atom`, `Closing`). Each also leaves the cursor just after
    what it consumed.
  - A routine returns an `Outcome`: a tree and the next index, nothing found (Kotlin's
    `null`), or the error Kotlin throws.
  - Every routine is proved sound: a tree it finds holds, in source order, exactly the
    non-parenthesis tokens it consumed, and an error quotes the input at the positions it
    prints.
  - The loops are proved left-associative, and parentheses are proved to make no node.
  - The grammar `Sum := Sum (+|-) Mul | Mul`, `Mul := Mul (*|/) Unary | Unary`,
    `Unary := (+|-) Unary | Atom`, `Atom := Num | ( Sum )` is stated over spans of the token
    list. Each routine is proved to find a tree ending at `j` exactly when its span derives
    from its symbol and the token at `j` cannot extend it. So `parseExpression` succeeds
    exactly on the lists that derive from `Sum`, and `tokenizeAndParse` exactly on the texts
    that tokenize into such a list.
- **Errors** (`diagnostics.dfy`, module `Diagnostics`). The five exceptions are values, and
  `Message` gives each one's exact text. Each
  message opens with the words of its kind, so two equal messages come from errors of the
  same kind. `chars.dfy` (module `Chars`) holds the ASCII
  character classes, the decimal fold and the decimal rendering of a natural number.
- **Polish notation** (`visitors.dfy`, module `Visitors`). This is
  `visitors/PolishNotation.kt`. Class `PolishNotationVisitor` appends into its shared list
  `res`, and its `Visit` is proved to append the post-order list `Polish(e)`. The post-order
  list is a permutation of the tree's tokens in source order, and it keeps the numbers in
  source order.
- **Test cases** (`source_examples.dfy`, module `SourceExamples`). The repository's tokenizer
  and parser tests are stated as lemmas about `Lex`, `ParseText` and `Message`: the token
  list, the tree, and each failure with its exact message.

`wrappers.dfy` holds `Option` and `Result`.

Two points to know when reading the model:

- **Missing argument.** The message for a missing argument is built from `position - 1`
  (`Parser.kt:89`), where `position` is the offset of the token after the operator, or the
  input length. So it quotes the character just before that token. That is the operator
  only when nothing separates the two: for `"2 + )"` the message is
  `Expected an argument for ' ' at position 5 but found ')'`.
- **The difficult-case input.** The input of the difficult-case tests is `TestUtils.bigString`,
  which is not part of this model. Its expected token positions fix every non-blank
  character and leave 8 blanks before the last token; any trailing blanks are not fixed. The
  model uses `"  2*( 5* 2+6* 3)-- 4-(+ (4) )"`, with spaces as the blanks.

## Model

| member | source | states |
|---|---|---|
| Chars.DigitToIntOrNull | src/main/kotlin/Tokenizer.kt:37-39 | A digit value exactly for the characters `0`-`9`, and the digit character of that value is the character read |
| Chars.IsWhitespace | src/main/kotlin/Tokenizer.kt:33 | A blank is a control character or the space, and never a digit |
| Chars.DecimalValue | src/main/kotlin/Tokenizer.kt:37-40 | The fold `acc * 10 + digit` over a run of digits is below 10 to the number of digits, and zero exactly for a run of zeros |
| Chars.NatToString | src/main/kotlin/Parser.kt:95 | The decimal text of `n` is non-empty and all digits, has no leading zero, and folds back to `n` under the tokenizer's digit fold |
| Diagnostics.CharAt | src/main/kotlin/Parser.kt:94 | `elementAtOrNull`: a character exactly when the index is inside the input, and then the input's character there |
| Lexer.SkipSpacesFrom | src/main/kotlin/Tokenizer.kt:32-33 | From `i`, stops at the first non-blank character or the end, and every character it passed is blank |
| Lexer.DigitRunEnd | src/main/kotlin/Tokenizer.kt:38-41 | The run of digits from `i` is maximal: all digits, and the next character (if any) is not one |
| Lexer.NumberAt | src/main/kotlin/Tokenizer.kt:35-43 | A number is read exactly when a digit is under the cursor; it sits at the cursor, spells itself there (the fold of the whole run of digits), and the cursor moves past the run |
| Lexer.TokenAt | src/main/kotlin/Tokenizer.kt:48-59 | A token is recognised exactly when the character starts one; the token sits at the cursor, spells itself there, and the cursor moves past its text (by at least one) |
| Lexer.Lex | src/main/kotlin/Tokenizer.kt:63-72 | The tokens' positions strictly increase and lie below the input length, and each token is its own character (or maximal digit run with its fold) at its position |
| Lexer.Scan | src/main/kotlin/Tokenizer.kt:63-72 | The loop from cursor index `i` yields at most one token per remaining character, or fails with an unexpected-character error at a 1-based position after `i` that quotes a character the input holds there and no recogniser or blank accepts |
| Lexer.ScanSound | src/main/kotlin/Tokenizer.kt:63-72 | The same for the scan from any cursor index: positions at or after the cursor, increasing, and each token spelled at its position |
| Lexer.RecognisersDisjoint | src/main/kotlin/Tokenizer.kt:48-59 | No blank starts a token, and a digit is none of the six symbols, so the order of the recognisers decides nothing |
| Lexer.LexTiles | src/main/kotlin/Tokenizer.kt:45-72 | `tokenize` gives `ts` if and only if the input is blanks and the texts of the tokens of `ts`, in order |
| Lexer.LexBlank | src/main/kotlin/Tokenizer.kt:63-72 | Empty or all-blank input, and only such input, gives no tokens |
| Lexer.LexVerdict | src/main/kotlin/Tokenizer.kt:63-72 | `tokenize` fails if and only if some character is neither blank nor part of a token; the error names the first such character at its 1-based position |
| Lexer.Tokenizer.constructor | src/main/kotlin/Tokenizer.kt:17-19 | A new cursor stands at 0 over the given input |
| Lexer.Tokenizer.CharsLeft | src/main/kotlin/Tokenizer.kt:21-22 | Zero exactly when the cursor is at the end of the input |
| Lexer.Tokenizer.CurChar | src/main/kotlin/Tokenizer.kt:24-25 | The character under the cursor, or nothing exactly at the end |
| Lexer.Tokenizer.ReadObject | src/main/kotlin/Tokenizer.kt:27 | The result of `make` on the current character (nothing at the end); the cursor moves by one exactly when that result is present |
| Lexer.Tokenizer.ReadIf | src/main/kotlin/Tokenizer.kt:29 | The current character if the predicate accepts it, and the cursor moves past it exactly then |
| Lexer.Tokenizer.ReadChar | src/main/kotlin/Tokenizer.kt:28 | Succeeds exactly when the current character is the expected one, and then moves past it |
| Lexer.Tokenizer.SkipSpaces | src/main/kotlin/Tokenizer.kt:32-33 | Leaves the cursor where `SkipSpacesFrom` says: the first non-blank character at or after it |
| Lexer.Tokenizer.ReadNum | src/main/kotlin/Tokenizer.kt:35-43 | Reads the maximal run of digits at the cursor, with the left fold `acc * 10 + digit` as its value and the run's start as its position; with no digit there, reads nothing and does not move |
| Lexer.Tokenizer.ReadToken | src/main/kotlin/Tokenizer.kt:45-61 | After skipping blanks, the token the recogniser chain accepts and the cursor after it; when none accepts, nothing, with the cursor after the blanks |
| Lexer.Tokenize | src/main/kotlin/Tokenizer.kt:63-72 | The loop's result is `Lex(input)`: the tokens, or the error for the character under the cursor at its 1-based position |
| Diagnostics.MessageOpens | src/main/kotlin/Parser.kt:134-139 | Every message opens with the words of its kind: "Unexpected character '" (Tokenizer.kt:69), "Empty input" (Parser.kt:4), "Expected EOS at position " (Parser.kt:75), "Expected an argument for '" (Parser.kt:95), "Expected ')' at position " (here) |
| Diagnostics.MessageTellsKinds | src/main/kotlin/Parser.kt:134-139 | Two errors with equal messages are of the same kind, across the five messages the source throws |
| Ast.TokenOf | src/main/kotlin/Parser.kt:35-62 | A literal holds a number; a sum or unary plus holds a `+`; a subtraction or unary minus a `-`; a product a `*`; a quotient a `/` |
| Ast.Arguments | src/main/kotlin/Parser.kt:35-63 | Two arguments `[arg1, arg2]` for a binary node, `[arg]` for a unary node, none for a literal, each smaller than the node |
| Parser.Combine | src/main/kotlin/Parser.kt:98-118 | The operator's node (`Sum`, `Subtraction`, `Multiplication` or `Division`) with the tree so far as first argument; its tokens are the first argument's, the operator, then the second's |
| Parser.PositionAt | src/main/kotlin/Parser.kt:11-12 | The current token's offset, or the input length exactly once the list is used up; it exceeds the offset of every token already consumed |
| Parser.SumsOrDiffs | src/main/kotlin/Parser.kt:98-107 | Sound: a tree found consumed at least one token and holds, in source order, exactly the non-parenthesis tokens consumed; an error quotes the input at the positions it prints and is of a kind and place that can arise (`Locates`): a missing argument right after an operator or `(` at the start or later, with no operand after it, printed at the 1-based position of the token after it; or an unclosed `(` at the start or later, with the `(`'s own 1-based position, printed at the 1-based position of a later token that is no `)` (one past the end when none). Nothing is found exactly when the tokens are used up or `)`, `*` or `/` is next |
| Parser.SumsLoop | src/main/kotlin/Parser.kt:100-106 | The `+`/`-` loop extends the tree so far by exactly the non-parenthesis tokens it consumes, or fails with an error that quotes the input and is located from the loop's start on |
| Parser.MultiOrDivs | src/main/kotlin/Parser.kt:109-118 | Sound, errors of a kind and place that can arise (`Locates`), and nothing found in exactly the same cases, as for `SumsOrDiffs` |
| Parser.MulLoop | src/main/kotlin/Parser.kt:111-117 | The `*`/`/` loop extends the tree so far by exactly the non-parenthesis tokens it consumes, or fails with an error that quotes the input and is located from the loop's start on |
| Parser.Unary | src/main/kotlin/Parser.kt:120-124 | Sound, errors of a kind and place that can arise (`Locates`), and nothing found in exactly the same cases, as for `SumsOrDiffs` |
| Parser.ArgumentNotFound | src/main/kotlin/Parser.kt:93-96 | `argumentNotFound(k)`: a missing-argument error printing position `k + 2`, quoting the input character at `k` and the one after it (or EOS) |
| Parser.TrailingAt | src/main/kotlin/Parser.kt:74-75 | The "Expected EOS" error for a leftover token: it prints the token's 1-based position and quotes the input character there |
| Parser.Argument | src/main/kotlin/Parser.kt:82-96 | After the operator at `i` is popped, never "nothing found": the argument's tree, or an error located from `i` on. When no operand follows the operator (end of tokens, `)`, `*` or `/`), the error is the missing argument for the token at `i`, printed at the 1-based position of the token after the operator (one past the input's end when there is none), so it quotes the character just before that token and the one after it |
| Parser.Atom | src/main/kotlin/Parser.kt:126-144 | Sound, and errors of a kind and place that can arise (`Locates`), as for `SumsOrDiffs`; nothing is found exactly when the tokens are used up or the next is no number and no `(` |
| Parser.Closing | src/main/kotlin/Parser.kt:129-141 | Sound: `(`, the inner tree and `)` account for the inner tree's tokens only. Nothing inside is the missing argument for the `(` at `i`, printed at the 1-based position of the token after it; an inner tree ending at `j` with no `)` there is the unclosed-parenthesis error, printed at the 1-based position of token `j` (one past the input's end when there is none), with the 1-based position of the `(` at `i` as opening position; an inner error passes through, located |
| Parser.Parse | src/main/kotlin/Parser.kt:71-77 | "Empty input" if and only if the list is empty; a tree holds, in source order, every non-parenthesis token of the list; any other error quotes the input correctly; "Expected EOS" is printed at the 1-based position of the token where the sum parsed from the start stopped (token 0 when none was found); every other error is located from the start |
| Parser.ParseText | src/main/kotlin/Parser.kt:79 | "Empty input" if and only if the text is blank; a tree means the text tokenizes and the tree holds all its non-parenthesis tokens in source order |
| Parser.AtomRecognises | src/main/kotlin/Parser.kt:126-144 | `parseAtom` finds a tree ending at `j` if and only if the span up to `j` is a number or `(` Sum `)` |
| Parser.UnaryRecognises | src/main/kotlin/Parser.kt:120-124 | `parseUnary` finds a tree ending at `j` if and only if the span up to `j` is `+`/`-` signs before an atom |
| Parser.MultiOrDivsRecognises | src/main/kotlin/Parser.kt:109-118 | `parseMultiOrDivs` finds a tree ending at `j` if and only if the span up to `j` derives from Mul and the token at `j` (if any) is no `*` or `/` |
| Parser.SumsOrDiffsRecognises | src/main/kotlin/Parser.kt:98-107 | `parseSumsOrDiffs` finds a tree ending at `j` if and only if the span up to `j` derives from Sum and the token at `j` (if any) is no binary operator |
| Parser.SumsOrDiffsClosesAt | src/main/kotlin/Parser.kt:126-144 | An unclosed-parenthesis error from `parseSumsOrDiffs` at `i` names a `(` at `a >= i`, and is printed at the 1-based position of the token `b` where the Sum after that `(` ended: the span `a+1..b` derives from Sum, the token at `b` is no binary operator and no `)` (or the tokens end there) |
| Parser.ParseClosesAt | src/main/kotlin/Parser.kt:71-77 | The same for an unclosed-parenthesis error of `parseExpression` |
| Parser.ParseReportsLeftover | src/main/kotlin/Parser.kt:71-77 | "Expected EOS" is raised exactly when tokens are left over, naming the first of them: the list does not start with an operand and it is token 0, or the longest Sum the list starts with ends just before it |
| Parser.ParseAcceptsGrammar | src/main/kotlin/Parser.kt:71-77 | `parseExpression` returns a tree if and only if the whole token list derives from Sum |
| Parser.ParseTextAcceptsGrammar | src/main/kotlin/Parser.kt:79 | `tokenizeAndParse` returns a tree if and only if the text tokenizes and its token list derives from Sum |
| Parser.SumsLoopLeftAssociative | src/main/kotlin/Parser.kt:98-107 | The root of a `+`/`-` chain is the node of the last operator consumed; its second argument is the one product parsed after it, and its first argument holds everything before it |
| Parser.MulLoopLeftAssociative | src/main/kotlin/Parser.kt:109-118 | The same for `*`/`/`, whose second arguments are unary expressions, so unary operators bind tighter |
| Parser.ParenthesesMakeNoNode | src/main/kotlin/Parser.kt:128-141 | `(` expression `)` parses to the inner tree itself, with both parentheses consumed |
| Parser.ParserState.constructor | src/main/kotlin/Parser.kt:1-9 | A new state over a non-empty list stands at index 0 |
| Parser.ParserState.Position | src/main/kotlin/Parser.kt:11-12 | The `position` property is `PositionAt` of the cursor |
| Parser.ParserState.Peek | src/main/kotlin/Parser.kt:14 | The token under the cursor, present exactly when one remains |
| Parser.ParserState.Pop | src/main/kotlin/Parser.kt:15 | Returns what `Peek` saw and advances the cursor by one exactly when a token remained |
| Parser.ParserState.ParseExpression | src/main/kotlin/Parser.kt:81 | Computes `SumsOrDiffs` from the cursor and leaves the cursor after the tree, or unmoved when nothing was found |
| Parser.ParserState.WhenToken | src/main/kotlin/Parser.kt:82-91 | Pops the operator, then computes `Argument` for the given tier and leaves the cursor after the argument |
| Parser.ParserState.ParseSumsOrDiffs | src/main/kotlin/Parser.kt:98-107 | Computes `SumsOrDiffs` from the cursor (loop invariant: the rest of the loop is `SumsLoop` of the tree so far) and leaves the cursor after the tree |
| Parser.ParserState.ParseMultiOrDivs | src/main/kotlin/Parser.kt:109-118 | Computes `MultiOrDivs` from the cursor, through `MulLoop`, and leaves the cursor after the tree |
| Parser.ParserState.ParseUnary | src/main/kotlin/Parser.kt:120-124 | Computes `Unary` from the cursor and leaves the cursor after the tree |
| Parser.ParserState.ParseAtom | src/main/kotlin/Parser.kt:126-144 | Computes `Atom` from the cursor and leaves the cursor after the tree |
| Parser.ParserState.CloseParen | src/main/kotlin/Parser.kt:130-141 | Computes `Closing`: the missing-argument error for an empty bracket, the inner error, the unclosed-parenthesis error, or the inner tree with the `)` consumed |
| Parser.ParseExpression | src/main/kotlin/Parser.kt:71-77 | The public entry computes `Parse`: empty input, the routine's error, "Expected EOS" at the first leftover token, or the tree |
| Parser.TokenizeAndParse | src/main/kotlin/Parser.kt:79 | Computes `ParseText`: the tokenizer's error first, otherwise the parser's verdict |
| Visitors.Polish | src/main/kotlin/visitors/PolishNotation.kt:9-11 | The post-order list has one token per node, none of them a parenthesis (its type is Kotlin's `Token`), and ends with the root's token |
| Visitors.PolishArguments | src/main/kotlin/visitors/PolishNotation.kt:9-10 | Post-order is every argument's list, left to right, then the node's own token |
| Visitors.PolishPermutesInOrder | src/main/kotlin/visitors/PolishNotation.kt:9-11 | The post-order list holds the same tokens as the source-order list, each as often |
| Visitors.PolishKeepsOperandOrder | src/main/kotlin/visitors/PolishNotation.kt:9-11 | The numbers appear in post-order in the same order as in the source |
| Visitors.PolishOfParse | src/main/kotlin/visitors/PolishNotation.kt:15 | For a parsed list, the printed tokens are exactly its non-parenthesis tokens (as a multiset), with the numbers in input order |
| Visitors.PolishNotationVisitor.constructor | src/main/kotlin/visitors/PolishNotation.kt:7 | A new visitor's list is the one it is given; `PolishNotation` gives it the empty list, Kotlin's default |
| Visitors.PolishNotationVisitor.Visit | src/main/kotlin/visitors/PolishNotation.kt:8-12 | Appends `Polish(e)` to the shared list and returns the list |
| Visitors.PolishNotation | src/main/kotlin/visitors/PolishNotation.kt:15 | With a fresh visitor per call, the result is `Polish(e)`, a function of the tree alone |
| SourceExamples.TokenizerDifficultCase | src/test/kotlin/TokenizerTests.kt:5-12 | The difficult-case text tokenizes to the 21 tokens the test lists, with their positions and values |
| SourceExamples.TokenizerFailure | src/test/kotlin/TokenizerTests.kt:14-19 | `"1  q"` fails with `Unexpected character 'q' at position 4` |
| SourceExamples.ParserDifficultCase | src/test/kotlin/ParserTests.kt:7-24 | The difficult-case text parses to the tree the test prints, node for node |
| SourceExamples.MissingArgumentAtEnd | src/test/kotlin/ParserTests.kt:40 | `"  2 +"` fails with `Expected an argument for '+' at position 6 but found EOS` |
| SourceExamples.MissingArgumentInBrackets | src/test/kotlin/ParserTests.kt:41 | `"  2 + 3 * ()"` fails with `Expected an argument for '(' at position 12 but found ')'` |
| SourceExamples.EmptyInputFailure | src/test/kotlin/ParserTests.kt:42 | `""` fails with `Empty input` |
| SourceExamples.UnclosedAtEnd | src/test/kotlin/ParserTests.kt:43 | `"  2 + 3 * (2"` fails with `Expected ')' at position 13 for '(' at position 11 but found EOS` |
| SourceExamples.UnclosedBeforeNumber | src/test/kotlin/ParserTests.kt:44 | `"  2 + 3 * (2 3"` fails with `Expected ')' at position 14 for '(' at position 11 but found 3` |
| SourceExamples.TrailingNumber | src/test/kotlin/ParserTests.kt:45 | `"2 2"` fails with `Expected EOS at position 3 but found '2'` |
| SourceExamples.MissingArgumentQuotesBlank | src/main/kotlin/Parser.kt:89 | `"2 + )"` fails with a message that quotes the blank before `)`, not the `+` |

## Left out

- `visitors/Evaluator.kt`, which does `Double` arithmetic, is not part of this model. Division by zero, rounding, NaN and infinity are floating-point behaviour. Precedence and associativity are stated over the tree shape instead.
- `Num.value` is the exact digit fold as a `nat`, not a `Double`. Precision loss on very long runs of digits is not modelled.
- `Repl.kt`, a stdin/stdout loop, is not part of this model.
- The `toString` renderings are left out: they rely on JVM class names and `prependIndent`. The difficult-case parse is stated as an equal tree, not as equal text.
- Kotlin's `isWhitespace` and `digitToIntOrNull` cover all of Unicode. The model keeps their ASCII part: the blanks HT, LF, VT, FF, CR, FS, GS, RS, US and space, and the digits `0`-`9`.
- The visitor double dispatch (`accept`, `ExpressionVisitor`) is left out. `Visit` matches on the datatype instead.
- Stack depth on deep nesting is not modelled.
- Parser.SumsOrDiffs: the contracts of the routines above `Argument` and `Closing` (`SumsOrDiffs`, `MultiOrDivs`, `Unary`, `Atom`, `Parse`) do not say which of several failing sites is the one reported, the first the left-to-right parse reaches. They say what kind of site it is and where (`Locates`; for an unclosed `(`, also `SumsOrDiffsClosesAt`). The exact error at each site is stated by `Argument` and `Closing`, and each test case pins its own error.
- Parser.Parse: requires a well-formed token list, meaning positions strictly increasing and inside the input. Every list `tokenize` returns has that form (`Lexer.Lex`). On other lists the Kotlin code may index the input out of bounds while building a message, and the model does not cover that.
- Parser.ParserState.constructor: the `init` check that throws "Empty input" is made by `Parser.ParseExpression` before the state is built. The constructor requires a non-empty list, and the observable result is the same.
- Parser.ParserState.WhenToken: returns the parsed argument. The caller applies the combiner (`::Sum`, `UnaryPlus`, ...) that Kotlin passes in as a lambda.
- Kotlin's `String` is indexed in UTF-16 code units, and a Dafny `string` in Unicode scalar values. For a character outside the Basic Multilingual Plane (such as an emoji), Kotlin's positions count two units, and the unexpected-character message (`Tokenizer.kt:69`) quotes only the high surrogate. The model counts one position and quotes the whole character.
- Visitors.PolishNotationVisitor.constructor: Kotlin's visitor holds the caller's `MutableList` itself, so appends are visible through the caller's reference. The model copies the given list into the field as a value, so that aliasing is not modelled. The only caller, `polishNotation`, passes a fresh empty list, where the two agree.
- SourceExamples.TokenizerDifficultCase: `TestUtils.bigString` is not part of this model. The text is rebuilt from the test's token positions, with spaces as the blanks.
- SourceExamples.ParserDifficultCase: uses the same rebuilt text.
- The test inputs have only one-digit numbers. Multi-digit runs are covered by the general lemmas about `ReadNum`, `NumberAt` and `Lex`, not by an example.
