# A verified model of `analisador.py`

`analisador.py` is a lexer and a recogniser for a tiny imperative language. The language has:

- declarations (`int x = 10;`);
- assignments whose right-hand side is one binary operation (`x = x + 5;`);
- `if (x > 0) { ... }` conditionals with a braced block.

This project models both halves in Dafny and proves what they do.

**Lexer (module `Lexical`, `lexer.dfy`).**

- The source joins an ordered table of eleven named patterns into one alternation. It runs `re.finditer` over the input and drops whitespace.
- Each alternative is modelled as a scanning function over characters (`RuleEnd`):
  - a greedy run of a character class;
  - the `\b` word-boundary test;
  - the keyword list tried in order.
- The alternation is modelled as the first alternative of the table that matches (`MatchAt`).
- `re.finditer` is modelled as `FindIter`: at a position where nothing matches, it skips exactly one character. The generator `lexer` is modelled as `Lexer`.
- Separately, the texts each pattern describes are written as predicates (`Shape`, `RuleMatches`), and the match the regex engine must report is written as `Wins`: the first alternative in table order, with the longest text for that alternative. The scanner is proved to agree with these definitions.

**Recogniser (module `Syntax`, `parser.dfy`).**

- Class `Parser` keeps the tokens and a cursor `pos`, plus the field `current` that mirrors `current_token`. The source's `pop(0)` on a mutable list becomes an advance of the cursor over a fixed sequence. The list the source still holds is `Rest()`.
- Every production is a method on the shared cursor. Each method is proved equal to a state-passing reference function: `MatchEnd`, `DeclarationEnd`, `ExpressionEnd`, `AssignmentEnd`, `ConditionalEnd` or `ProgramEnd`.
- Each reference function returns `Done(pos)` with the cursor after the production, or `Failed(pos)` with the cursor at the token where the source raises.
- `program` is modelled as a `while` loop, and `program` and `conditional` call each other, as in the source. Termination is proved on the number of remaining tokens.

**Grammar (module `Grammar`, `grammar.dfy`).**

- Declarations, assignments, conditionals and blocks are defined as predicates on token sequences, independently of the recogniser.
- `program` is proved sound and complete for blocks: it accepts exactly a block followed by `}` or the end of the stream, and stops there.

**Examples (module `Examples`, `demonstrations.dfy`).**

- The three demonstration inputs of the source, worked through the lexer and the parser.
- The small inputs the token table is about: `int`, `integer`, `10`, `3.14`, `3.`, `3if`, a skipped `@`, and a lone `.`.
- The inputs `int = 10;`, `x = 5;`, `x = ;` and `x = x + ;`, lexed, with the place where parsing fails on each. These cover each `SyntaxError` that `declaration` and `expression` raise.
- Token-level cases for the conditional and the dispatch of `program`. Examples are an empty block, a missing `}`, a stray `}` and `else`.

## Model

| member | source | states |
|---|---|---|
| Lexical.RunEnd | analisador.py:16-17 | the greedy repetition stops at the first character outside the class: every character it passes is in the class, and the one it stops at is not |
| Lexical.OccursAt | analisador.py:7 | a literal word occurs at p exactly when it fits in the input and the slice there equals it |
| Lexical.KeywordEnd | analisador.py:7 | the keyword group (the words `if`, `else`, `int`, `float` tried in order, then `\b`) tried at p reports an end inside the input; which word it reports is stated by `KeywordEndSpec` |
| Lexical.KeywordEndSpec | analisador.py:7 | the keyword group reports a reserved word followed by a word boundary, and reports nothing only when no reserved word at p is followed by a boundary |
| Lexical.RuleEnd | analisador.py:7-17 | each of the eleven alternatives, tried at p, reports a non-empty match inside the input; what it matches is stated by `RuleEndSpec` |
| Lexical.KeywordLetters | analisador.py:7 | every reserved word is two to five letters long and made only of letters |
| Lexical.KeywordUnique | analisador.py:7 | two reserved words both standing at p, each followed by a word boundary, end at the same place |
| Lexical.NumberRule | analisador.py:8 | the number scanner matches the longest text of the form digits, optionally a point and digits, and matches nothing when no such text starts at p |
| Lexical.KeywordRule | analisador.py:7 | the keyword scanner matches a reserved word with a boundary on both sides, no longer such word, and nothing when none exists |
| Lexical.RunRule | analisador.py:16-17 | the identifier and whitespace scanners match the longest text of their class shape, and nothing when none starts at p |
| Lexical.RuleEndSpec | analisador.py:7-17 | every alternative of the table, as scanned, matches the longest text its pattern describes, or reports no match exactly when it cannot match at p |
| Lexical.FirstRule | analisador.py:22 | the alternation from table index i reports a non-empty match starting at p and inside the input; which alternative wins is stated by `FirstRuleSpec` and `FirstRuleAt` |
| Lexical.FirstRuleSpec | analisador.py:22 | the alternation from table index i reports the first alternative that matches, every earlier one failing, or nothing when all fail |
| Lexical.FirstRuleAt | analisador.py:22 | an alternative that matches, with every earlier alternative in the table failing, is the one the alternation reports |
| Lexical.MatchAt | analisador.py:22 | a reported match starts at p and is non-empty and inside the input |
| Lexical.MatchAtSpec | analisador.py:22-23 | the joined pattern reports (k, p, e) if and only if k is the first alternative in table order that can match at p and e is its longest match; it reports nothing if and only if no alternative can match at p |
| Lexical.NoMatchIff | analisador.py:23 | nothing matches at p if and only if the character there starts no alternative |
| Lexical.FindIter | analisador.py:23 | every reported match falls inside the input, after the starting position |
| Lexical.FindIterOrdered | analisador.py:23 | the matches of `re.finditer` come left to right and do not overlap |
| Lexical.FindIterMatches | analisador.py:23 | every match `re.finditer` reports is the winner of the table at its start |
| Lexical.FindIterTiles | analisador.py:23 | winning matches that tile the input from p to its end are exactly what `re.finditer` yields from p |
| Lexical.FindIterGaps | analisador.py:23 | every character no reported match covers is one no alternative can start with |
| Lexical.Reconstruct | analisador.py:23 | on input made only of characters an alternative can start with, the texts of the matches, whitespace included, put together give the input back |
| Lexical.SkipUnmatched | analisador.py:23 | a character that no alternative can start with, such as `@`, yields no match and no error; scanning resumes at the next position |
| Lexical.Significant | analisador.py:26 | the non-whitespace matches: no more of them than matches, and none of them whitespace; `SignificantSub` and `SignificantOrdered` state that exactly the non-whitespace matches are kept, in order |
| Lexical.Emit | analisador.py:24-27 | at most one token per match and no whitespace token; `EmitSignificant` states that the tokens are, one for one, the kind and text of the non-whitespace matches |
| Lexical.Lexer | analisador.py:21-27 | the generator `lexer` never yields a whitespace token; `LexerKinds` and `LexerSpans` state the kinds, shapes, order and texts of what it yields |
| Lexical.SignificantSub | analisador.py:26 | dropping whitespace keeps exactly the non-whitespace matches of the list: every kept match is one of them, and each of them is kept |
| Lexical.SignificantOrdered | analisador.py:26 | dropping whitespace keeps the remaining matches in order |
| Lexical.EmitSignificant | analisador.py:24-27 | `lexer` yields one token per non-whitespace match, in order, with the matched kind and exactly the matched text |
| Lexical.EmitConcat | analisador.py:23-27 | the tokens of consecutive runs of matches are the tokens of each run in turn |
| Lexical.LexerKinds | analisador.py:7-27 | `lexer` never yields a whitespace token, every lexeme has the shape of its kind, and every keyword lexeme is `if`, `else`, `int` or `float` |
| Lexical.LexerSpans | analisador.py:21-27 | the tokens are the non-whitespace matches, left to right and non-overlapping, each lexeme being the exact input text at its span |
| Lexical.KeywordWins | analisador.py:7 | a reserved word with a word boundary on both sides is a keyword token of exactly that word |
| Lexical.IdentifierNamedLikeKeyword | analisador.py:7-16 | a reserved word scanned as an identifier always has a word character right before it, as in `3if` |
| Lexical.IdentifierWins | analisador.py:16 | a whole word that starts with a letter or `_` and is not reserved is one identifier spanning the whole word |
| Lexical.DigitDecides | analisador.py:8 | a digit always starts a number |
| Lexical.WordDecides | analisador.py:7-16 | a letter or `_` starts a keyword when the keyword alternative matches, and an identifier otherwise |
| Lexical.NumberWins | analisador.py:8 | a digit run containing at most one point, followed by neither a digit nor a second point, is one number |
| Lexical.SpaceDecides | analisador.py:17 | a whitespace character starts a whitespace run |
| Lexical.SpaceWins | analisador.py:17 | a maximal run of whitespace is one whitespace match |
| Lexical.SymbolKind | analisador.py:9-15 | each operator or punctuation character is matched, alone, by its own alternative |
| Lexical.SymbolDecides | analisador.py:9-15 | an operator or punctuation character is a one-character token of its kind; `=` is an assignment and not an operator |
| Syntax.StartsDeclaration | analisador.py:48 | the dispatch test for a declaration, a keyword `int` or `float`; it has no contract of its own, and `ProgramEnd`, `Grammar.ProgramSound` and `Grammar.StatementComplete` state what follows from it |
| Syntax.StartsConditional | analisador.py:52 | the dispatch test for a conditional, the keyword `if`; it has no contract of its own, and `Grammar.ConditionalSound` and `Grammar.ConditionalComplete` state what follows from it |
| Syntax.MatchEnd | analisador.py:97-101 | `match(k)` advances exactly one token on success, and the cursor stays in the stream |
| Syntax.DeclarationEnd | analisador.py:60-65 | `declaration` succeeds if and only if the next five tokens are KEYWORD IDENTIFIER ASSIGN NUMBER SEMICOLON, and then consumes exactly them; on failure the cursor is at the first token that breaks the sequence |
| Syntax.ExpressionEnd | analisador.py:73-84 | `expression` succeeds if and only if the next three tokens are operand OPERATOR operand, an operand being an identifier or a number, and then consumes exactly them; on failure the cursor is at the offending token |
| Syntax.AssignmentEnd | analisador.py:67-71 | `assignment` succeeds if and only if the next six tokens are IDENTIFIER ASSIGN operand OPERATOR operand SEMICOLON, and then consumes exactly them; on failure the cursor is at the offending token |
| Syntax.ConditionalEnd | analisador.py:86-95 | a successful `conditional` starts with `KEYWORD ( IDENTIFIER OPERATOR NUMBER ) {`, spans at least eight tokens and ends on `}`; any keyword passes its first `match`, and the `if` is guaranteed only by the dispatch of `program` (analisador.py:52) |
| Syntax.ProgramEnd | analisador.py:46-58 | `program` returns normally only at a closing brace or at the end of the stream, and its cursor never leaves the stream |
| Syntax.Recognizes | analisador.py:43-44 | whether `parse` returns without raising; it has no contract of its own, and `Grammar.ParseAccepts` states exactly which token streams it holds for |
| Syntax.Parser.constructor | analisador.py:32-35 | the parser keeps the tokens and makes the first one current |
| Syntax.Parser.NextToken | analisador.py:37-41 | the head of the remaining list becomes the current token, or None once the list is empty; the cursor advances by one at most |
| Syntax.Parser.Match | analisador.py:97-101 | succeeds if and only if the current token exists and has kind k; it then advances by exactly one token and otherwise leaves the cursor unchanged |
| Syntax.Parser.Declaration | analisador.py:60-65 | the method's outcome and final cursor are those of `DeclarationEnd` |
| Syntax.Parser.Assignment | analisador.py:67-71 | the method's outcome and final cursor are those of `AssignmentEnd` |
| Syntax.Parser.Expression | analisador.py:73-84 | the method's outcome and final cursor are those of `ExpressionEnd`; a missing current token fails |
| Syntax.Parser.Conditional | analisador.py:86-95 | the method's outcome and final cursor are those of `ConditionalEnd` |
| Syntax.Parser.Program | analisador.py:46-58 | the dispatch loop's outcome and final cursor are those of `ProgramEnd`; the loop terminates |
| Syntax.Parser.Parse | analisador.py:43-44 | `parse` has the outcome of `program` |
| Syntax.Analyze | analisador.py:112-114 | lexing a text and parsing it with a fresh parser returns exactly when the token list is recognised |
| Grammar.ConditionalSteps | analisador.py:86-95 | `conditional` succeeds if and only if the head fits, `program` returns after it, and a `}` follows, and it then ends right after that brace |
| Grammar.ProgramSound | analisador.py:46-58 | what `program` consumes is a block of statements |
| Grammar.ConditionalSound | analisador.py:86-95 | what `conditional` consumes, started on `if`, is a conditional statement |
| Grammar.ProgramComplete | analisador.py:46-58 | `program` accepts every block followed by `}` or the end of the stream, and stops exactly there |
| Grammar.StatementComplete | analisador.py:47-53 | from the first token of a statement, the dispatch of `program` gets past the whole statement |
| Grammar.ConditionalComplete | analisador.py:86-95 | `conditional` accepts every conditional statement and stops right after its brace |
| Grammar.ParseAccepts | analisador.py:43-58 | `parse` returns if and only if the tokens start with a block followed by `}` or by the end of the stream |
| Examples.Lex1 | analisador.py:106-109 | `int x = 10; x = x + 5;` lexes to its eleven tokens |
| Examples.Lex2 | analisador.py:118-121 | `if (x > 0) { x = x - 1; }` lexes to its fourteen tokens |
| Examples.Lex3 | analisador.py:130-133 | `float y = 3.14;` lexes to KEYWORD IDENTIFIER ASSIGN NUMBER(3.14) SEMICOLON |
| Examples.LexInt | analisador.py:7 | `int` is one keyword token |
| Examples.LexInteger | analisador.py:16 | `integer` is one identifier token, not a keyword followed by more |
| Examples.LexTen | analisador.py:8 | `10` is one number token |
| Examples.LexPi | analisador.py:8 | `3.14` is one number token |
| Examples.LexThree | analisador.py:8 | `3.` is one number token |
| Examples.LexThreeIf | analisador.py:7-16 | `3if` is NUMBER `3` followed by IDENTIFIER `if`, because `\b` fails between `3` and `i` |
| Examples.LexAt | analisador.py:23 | `x @ 5;` lexes to `x`, `5`, `;`, with `@` skipped |
| Examples.LexNoName | analisador.py:6-27 | `int = 10;` lexes to KEYWORD ASSIGN NUMBER SEMICOLON |
| Examples.LexNoOperator | analisador.py:6-27 | `x = 5;` lexes to IDENTIFIER ASSIGN NUMBER SEMICOLON |
| Examples.LexNoOperand | analisador.py:6-27 | `x = ;` lexes to IDENTIFIER ASSIGN SEMICOLON |
| Examples.LexNoSecondOperand | analisador.py:6-27 | `x = x + ;` lexes to IDENTIFIER ASSIGN IDENTIFIER OPERATOR SEMICOLON |
| Examples.LexDot | analisador.py:8 | a lone `.` yields no token |
| Examples.Parse1 | analisador.py:112-114 | the tokens of the first demonstration are accepted, every token consumed |
| Examples.Parse2 | analisador.py:124-126 | the tokens of the second demonstration are accepted, every token consumed |
| Examples.Parse3 | analisador.py:136-138 | the tokens of the third demonstration are accepted, every token consumed |
| Examples.DemonstrationsAccepted | analisador.py:105-139 | the three demonstration programs, lexed and parsed, are recognised |
| Examples.DeclarationWithoutName | analisador.py:60-65 | the tokens of `int = 10;` fail at token 1, where the identifier is expected |
| Examples.ExpressionWithoutOperator | analisador.py:76-78 | the tokens of `x = 5;` fail at token 3, where the operator is expected |
| Examples.ExpressionWithoutOperand | analisador.py:83-84 | the tokens of `x = ;` fail at token 2, where `expression` wants an identifier or a number |
| Examples.ExpressionWithoutSecondOperand | analisador.py:79-82 | the tokens of `x = x + ;` fail at token 4, where `expression` wants an identifier or a number after the operator |
| Examples.MalformedRejected | analisador.py:21-84 | the texts `int = 10;`, `x = 5;`, `x = ;` and `x = x + ;`, lexed and parsed, are rejected |
| Examples.EmptyBlockAccepted | analisador.py:86-95 | `if (x > 0) { }` is accepted |
| Examples.MissingBraceRejected | analisador.py:86-101 | `if (x > 0) { x = x - 1;` fails at the end of the stream, where `}` is expected |
| Examples.StrayBraceAccepted | analisador.py:54-56 | a `}` at top level ends `program` successfully and leaves the remaining tokens unread |
| Examples.ElseRejected | analisador.py:57-58 | a statement starting with `else` fails on that token |

## Left out

- Unicode character classes. In the source, `\d`, `\w` and `\s` are Unicode classes. The model uses the ASCII ones, and treats every other character as one no alternative can start with.
- The regular-expression engine as such. Each pattern of the table is written out as its own scanner, and those scanners are proved against independent definitions of the texts they match.
- Generator laziness. `lexer` is modelled by the whole list it yields when run to its end.
- Exception types and messages. Every `SyntaxError` is one failure outcome, carrying the cursor of the token it was raised on. The message text is not modelled.
- `expression` at the end of the stream. There the source raises `TypeError`, from indexing `None`, instead of `SyntaxError`. The model counts it as a failure like any other.
- The list mutation by `pop(0)`. It is modelled as a cursor advancing over a fixed token sequence. The list the source still holds is the ghost function `Rest()`.
- Python's recursion limit. A deep enough nesting of conditionals raises `RecursionError` in the source. The model has no depth limit.
- The `print` calls of the demonstration driver (analisador.py:103-139). Only its three inputs and the outcome of parsing them are kept.
- Errors for unmatched characters. One might expect a character that no pattern matches to be a lexical error that stops tokenisation. The code instead skips such characters silently (`re.finditer`, analisador.py:23). The model follows the code.
- Acceptance at top level. One might expect top-level recognition to succeed only when the stream is exhausted. The code's `program` also returns at a `}` at top level and leaves the remaining tokens unread (analisador.py:54-56). The model follows the code.
