# Lox front end — a verified model

This project models the front end of a Lox compiler written in C++: the
token type, the hand-written scanner that turns source text into tokens one
call at a time, the abstract syntax tree, the recursive-descent parser that
builds statements from the scanner's tokens while reporting syntax errors,
and the AST printer that renders trees as text.

Modules, one per part of the program:

- `Tokens` (token.dfy): the 40 token kinds in declaration order, the
  immutable token value, its default and kind-only constructors and the
  numeric code of a kind.
- `Types`, `Ast` (types.dfy, node.dfy): the literal variant and the two node
  sum types.
- `Scanning` (scanner.dfy): what one `NextToken` call computes, stated as
  functions of the text, the cursor and the line counter. `Lex` gives the whole
  token stream those calls produce. The class `Scanner` keeps the source's
  three counters as fields, and each of its methods is proved equal to those
  functions.
- `ScanningFacts` (scanner_facts.dfy): what the scanner guarantees about
  tokens. Numbers are the longest numeral. The keyword trie answers a keyword
  exactly when the keyword is a prefix of the word. Strings run to the next
  quote. Lines count newlines. Each punctuation character gets its token.
- `Grammar` (grammar.dfy): every parser production as a function over the
  token sequence and a position. Its result is the node built, the position
  reached, every diagnostic requested, and whether the parser stalled.
- `Parsing` (parser.dfy): the class `Parser`, with the source's fields
  (scanner, current, previous, error flag, panic flag). Every production method
  is proved to produce exactly what its `Grammar` namesake specifies, over the
  tokens the scanner returns.
- `GrammarFacts` (grammar_facts.dfy): properties of the grammar:
  - the shape each precedence level builds;
  - when each operator node is built;
  - error recovery on a stray token;
  - the nil defaults;
  - the `for` desugaring into `while`;
  - declaration, argument and parameter order;
  - when the top-level loop reaches Eof, and a program that does.
- `GroupingFacts` (grouping_facts.dfy): the parser never builds a grouping
  node. `primary` has no case for `(`, so the Grouping variant of the tree
  stays unused. One lemma per production carries this through every
  expression and statement up to a whole program.
- `Printing` (printer.dfy): the printer's rendering as functions, and the
  string stream as a class. The visits that fill a stream step by step
  (block, function declaration, if statement) are methods proved to produce
  what the functions say. Lemmas about the output cover parenthesis balance,
  the parameter separators and the else branch.

## Model

| member | source | states |
|---|---|---|
| Tokens.DefaultToken | src/token.hpp:86-90 | a default token has kind Error, an empty lexeme and line 0 |
| Tokens.KindToken | src/token.hpp:55 | a kind-only token has that kind, an empty lexeme and line 0 |
| Tokens.TypeInt | src/token.hpp:70-74 | the code of a kind is its index in the declaration order of the enumeration |
| Tokens.TypeIntInjective | src/token.hpp:23-44 | two kinds have the same code exactly when they are equal; Error and Eof are the last two codes |
| Types.DefaultLiteral | src/types.hpp:33-39 | a value-initialised literal holds nil |
| Ast.NilLiteral | src/node.hpp:122-130 | the default literal node is a literal holding nil |
| Scanning.CharAt | src/scanner.hpp:44-47 | `Peek` returns the character at the cursor, and NUL at the end of the text |
| Scanning.CharAfter | src/scanner.hpp:49-56 | `PeekNext` returns the character after the cursor, and NUL when there is none |
| Scanning.IsAlpha | src/scanner.cpp:12-17 | a letter or underscore is never a digit |
| Scanning.CharacterClasses | src/scanner.cpp:7-17 | `IsDigit` holds exactly for `0`-`9`, and `IsAlpha` exactly for `a`-`z`, `A`-`Z` and `_` |
| Scanning.IdentifierKinds | src/scanner.cpp:54-97 | the keyword trie answers Identifier or one of the sixteen keyword kinds, nothing else |
| Scanning.PunctuationOf | src/scanner.cpp:155-172 | a punctuation character is never a quote, a letter or a digit, and a two-character operator differs from its one-character form |
| Scanning.PunctuationCharacters | src/scanner.cpp:155-172 | the switch handles exactly the characters `(){};,.-+/*!=<>`, and exactly `!`, `=`, `<`, `>` may take a following `=` |
| Scanning.RunEnd | src/scanner.cpp:101 | the scanning loops stop at the first character outside the run, or at the end; every character skipped is in the run |
| Scanning.SkipWhitespaceFrom | src/scanner.cpp:19-52 | skipping whitespace and comments moves forward, stays within the text, and stops where neither whitespace nor a `//` comment starts; when nothing skippable is at the cursor it stops at once with the line unchanged |
| Scanning.SkipPassesOnlySkippable | src/scanner.cpp:19-52 | every character skipped is a blank, carriage return, tab or newline, or lies in a `//` comment before its newline |
| Scanning.SkipCountsNewlines | src/scanner.cpp:19-52 | after skipping, the line counter has grown by the number of newlines skipped |
| Scanning.Made | src/scanner.hpp:92-95 | `MakeToken` spells the text from start to cursor, with the given kind and the current line |
| Scanning.CheckKeywordAt | src/scanner.hpp:73-81 | `CheckKeyword` answers the keyword exactly when the text after offset `s` begins with `rest`, and Identifier otherwise |
| Scanning.ScanIdentifier | src/scanner.cpp:99-103 | scanning an identifier never moves the cursor backwards or past the end |
| Scanning.ScanNumber | src/scanner.cpp:124-137 | scanning a number never moves the cursor backwards or past the end |
| Scanning.ScanString | src/scanner.cpp:106-122 | scanning a string never moves the cursor backwards or past the end |
| Scanning.TokenAt | src/scanner.cpp:150-177 | a token that starts at a character consumes at least that character, never goes backwards in lines, and is never Eof |
| Scanning.ScanToken | src/scanner.cpp:140-178 | `NextToken` consumes at least one character while any remain; it answers Eof exactly when only whitespace was left, with an empty lexeme and the cursor at the end |
| Scanning.Lex | src/scanner.cpp:140-178 | the stream of successive `NextToken` results is empty exactly at the end of the text, and every token ends beyond the starting cursor |
| Scanning.LexResumes | src/scanner.cpp:140-178 | scanning resumed from the cursor and line after any token yields the rest of the same stream |
| Scanning.LexCursorsIncrease | src/scanner.cpp:140-178 | later tokens of the stream end strictly further into the text |
| Scanning.Scanner.constructor | src/scanner.hpp:24-27 | a new scanner has start, cursor and line at 0, and the whole text's token stream still to come |
| Scanning.Scanner.IsAtEnd | src/scanner.hpp:32-36 | at the end exactly when the cursor has reached the length of the text; otherwise `Peek` gives the character at the cursor |
| Scanning.Scanner.Peek | src/scanner.hpp:44-47 | the character at the cursor, and NUL at the end |
| Scanning.Scanner.PeekNext | src/scanner.hpp:49-56 | the character after the cursor, and NUL when there is none |
| Scanning.Scanner.CheckKeyword | src/scanner.hpp:73-81 | answers the keyword exactly when the text at offset `s` from the start spells `rest`, and Identifier otherwise |
| Scanning.Scanner.IdentifierType | src/scanner.cpp:54-97 | answers Identifier or one of the sixteen keyword kinds |
| Scanning.Scanner.Advance | src/scanner.hpp:39-42 | returns the character at the cursor and moves the cursor one place |
| Scanning.Scanner.Match | src/scanner.hpp:58-71 | consumes the next character exactly when it exists and is the expected one |
| Scanning.Scanner.MakeToken | src/scanner.hpp:92-95 | the token spells the text from start to cursor, with the given kind and the current line |
| Scanning.Scanner.ErrorToken | src/scanner.hpp:97-100 | an error token carries the message as its lexeme, kind Error and the current line |
| Scanning.Scanner.SkipWhitespace | src/scanner.cpp:19-52 | leaves cursor and line where `SkipWhitespaceFrom` says |
| Scanning.Scanner.SkipComment | src/scanner.cpp:38-41 | a comment runs to the next newline or the end of the text |
| Scanning.Scanner.Identifier | src/scanner.cpp:99-103 | produces the token and counters `ScanIdentifier` specifies |
| Scanning.Scanner.String | src/scanner.cpp:106-122 | produces the token and counters `ScanString` specifies |
| Scanning.Scanner.StringBody | src/scanner.cpp:108-112 | runs to the next quote or the end, counting each newline passed |
| Scanning.Scanner.Number | src/scanner.cpp:124-137 | produces the token and counters `ScanNumber` specifies |
| Scanning.Scanner.DigitRun | src/scanner.cpp:126 | runs to the first character that is not a digit |
| Scanning.Scanner.TokenAtStart | src/scanner.cpp:150-177 | dispatches on the first character as `TokenAt` specifies |
| Scanning.Scanner.NextToken | src/scanner.cpp:140-178 | computes what `ScanToken` specifies and returns the next token of the stream, or Eof once the stream is used up |
| ScanningFacts.EofIsSticky | src/scanner.cpp:145-148 | once `NextToken` answers Eof the cursor is at the end of the text, and every later call answers the same Eof |
| ScanningFacts.NumberIsLongestNumeral | src/scanner.cpp:124-137 | a number token is the longest numeral at its start: digits, and a fraction only when a digit follows the dot |
| ScanningFacts.FractionalNumeral | src/scanner.cpp:129-134 | digits, a dot and digits make a numeral that is not an integer |
| ScanningFacts.KeywordsAreLetters | src/scanner.cpp:59-94 | every keyword the trie checks is spelled in letters |
| ScanningFacts.ReadKeywordIsPrefix | src/scanner.cpp:54-97 | a keyword the trie reads at a word start is a prefix of that word |
| ScanningFacts.TrieAnswersPrefixKeyword | src/scanner.cpp:54-97 | the trie answers Identifier or a keyword that is a prefix of the word |
| ScanningFacts.TrieAnswersAtoC | src/scanner.cpp:59-60 | for words starting before `d`, a keyword answer was read from the text |
| ScanningFacts.TrieAnswersDtoE | src/scanner.cpp:61 | the same, for words starting with `d` or `e` |
| ScanningFacts.TrieAnswersF | src/scanner.cpp:63-73 | the same, for words starting with `f` |
| ScanningFacts.TrieAnswersGtoP | src/scanner.cpp:75-78 | the same, for words starting with `g` to `p` |
| ScanningFacts.TrieAnswersQtoS | src/scanner.cpp:79-80 | the same, for words starting with `q` to `s` |
| ScanningFacts.TrieAnswersT | src/scanner.cpp:82-91 | the same, for words starting with `t` |
| ScanningFacts.TrieAnswersUtoZ | src/scanner.cpp:93-94 | the same, for words starting after `t` |
| ScanningFacts.PrefixIsRead | src/scanner.cpp:54-97 | a keyword that is a prefix of the word is read by the trie |
| ScanningFacts.TrieFindsPrefixKeyword | src/scanner.cpp:54-97 | the trie answers a keyword whenever that keyword is a prefix of the word |
| ScanningFacts.TrieFindsAtoF | src/scanner.cpp:59-73 | the same, for and, class, else, false, for and fun |
| ScanningFacts.TrieFindsGtoP | src/scanner.cpp:75-78 | the same, for if, nil, or and print |
| ScanningFacts.TrieFindsQtoS | src/scanner.cpp:79-80 | the same, for return and super |
| ScanningFacts.TrieFindsTtoZ | src/scanner.cpp:82-94 | the same, for this, true, var and while |
| ScanningFacts.IdentifierToken | src/scanner.cpp:99-103 | a word token spells the longest run of identifier characters, and its kind is Identifier or a keyword that prefixes it |
| ScanningFacts.ClosedStringToken | src/scanner.cpp:106-122 | a terminated string token spells both quotes and holds no quote between them |
| ScanningFacts.ClosedStringLine | src/scanner.cpp:108-121 | a string token carries the line of its closing quote, after counting the newlines inside |
| ScanningFacts.UnterminatedStringToken | src/scanner.cpp:114-117 | a string with no closing quote gives the error token "Unterminated string." and consumes the rest of the text |
| ScanningFacts.PunctuationIsDistinct | src/scanner.cpp:152-174 | no punctuation character is a letter, a digit or a quote, so the dispatch order does not matter |
| ScanningFacts.OneCharToken | src/scanner.cpp:157-167 | each single-character punctuation gives its own token, one character long |
| ScanningFacts.TwoCharOperatorToken | src/scanner.cpp:169-172 | `!`, `=`, `<` and `>` followed by `=` give the two-character operator; otherwise they give the one-character one |
| ScanningFacts.UnexpectedCharacterToken | src/scanner.cpp:152-177 | a character that starts no token gives the error "Unexpected character.", and only such a character does |
| ScanningFacts.TokenLineCountsSkippedNewlines | src/scanner.cpp:140-143 | a token starts where skipping stops, on a line that counts every newline skipped |
| ScanningFacts.CommentStopsAtNewline | src/scanner.cpp:35-42 | a `//` comment covers everything up to the next newline, and not the newline |
| ScanningFacts.WordScansAsPrefixKeyword | src/scanner.cpp:54-103 | a word that a keyword prefixes scans as that keyword, whole |
| ScanningFacts.KeywordScansAsItself | src/scanner.cpp:54-103 | each keyword on its own scans as its kind |
| ScanningFacts.OrangeScansAsOr | src/scanner.cpp:77 | the word `orange` scans as the keyword `or` |
| ScanningFacts.ClassyScansAsClass | src/scanner.cpp:60 | the word `classy` scans as the keyword `class` |
| Grammar.DiagAt | src/parser.cpp:522-544 | a diagnostic carries the token's line and the message, "at end" for Eof, no place for an error token, and the lexeme otherwise |
| Grammar.Cur | src/parser.cpp:550-560 | the current token is the next stream token, or a synthesised Eof past the end |
| Grammar.Prev | src/parser.cpp:550-553 | the previous token is the default token before the first advance, and the token before the current one afterwards |
| Grammar.Expect | src/parser.cpp:590-600 | `Consume` moves past a token of the expected kind; otherwise it stays and asks for one diagnostic at the current token |
| Grammar.FirstOnly | src/parser.cpp:520-543 | since panic mode is never left, what is printed is the first diagnostic requested and nothing after it: a prefix of the requested list, at most one long, empty exactly when none was requested |
| Grammar.Primary | src/parser.cpp:480-515 | primary consumes one token exactly when it is true, false, a number, a string or an identifier; otherwise it yields nil and a diagnostic |
| Grammar.CallSuffix | src/parser.cpp:459-474 | the call loop never moves backwards and never stalls |
| Grammar.FinishCall | src/parser.cpp:461-473 | one call suffix builds a call node on the callee so far |
| Grammar.ArgumentList | src/parser.cpp:461-468 | the argument list is empty exactly when `)` follows `(` |
| Grammar.Arguments | src/parser.cpp:464-467 | the argument loop reads at least one argument and consumes input; `ArgumentsKeepOrder` states the order |
| Grammar.Call | src/parser.cpp:452-477 | call consumes input or asks for a diagnostic, and never stalls |
| Grammar.Unary | src/parser.cpp:436-449 | unary consumes input or asks for a diagnostic, and never stalls |
| Grammar.FactorRest | src/parser.cpp:422-431 | the `*` / `/` loop never moves backwards and never stalls |
| Grammar.Factor | src/parser.cpp:415-433 | factor consumes input or asks for a diagnostic |
| Grammar.TermRest | src/parser.cpp:401-410 | the `+` / `-` loop never moves backwards and never stalls |
| Grammar.Term | src/parser.cpp:394-412 | term consumes input or asks for a diagnostic |
| Grammar.Comparison | src/parser.cpp:377-391 | comparison consumes input or asks for a diagnostic |
| Grammar.Equality | src/parser.cpp:360-374 | equality consumes input or asks for a diagnostic |
| Grammar.LogicAnd | src/parser.cpp:344-357 | `and` consumes input or asks for a diagnostic |
| Grammar.LogicOr | src/parser.cpp:328-341 | `or` consumes input or asks for a diagnostic |
| Grammar.Assignment | src/parser.cpp:298-325 | assignment consumes input or asks for a diagnostic |
| Grammar.Expression | src/parser.cpp:292-296 | an expression consumes input or asks for a diagnostic, and never stalls |
| Grammar.ExpressionStatement | src/parser.cpp:261-267 | builds an expression statement |
| Grammar.PrintStatement | src/parser.cpp:239-245 | builds a print statement |
| Grammar.ReturnValue | src/parser.cpp:276-282 | with `;` next, the return value is read without consuming anything or asking for a diagnostic |
| Grammar.ReturnStatement | src/parser.cpp:270-285 | builds a return statement whose keyword is the token before the current one |
| Grammar.Initializer | src/parser.cpp:51-56 | the initializer consumes input exactly when `=` follows the name |
| Grammar.VarDeclaration | src/parser.cpp:46-60 | builds a variable statement |
| Grammar.Statement | src/parser.cpp:98-129 | a statement consumes input or asks for a diagnostic, and stalls only after a diagnostic |
| Grammar.Desugar | src/parser.cpp:176-196 | a `for` becomes a `while` with condition true when none was given, the increment appended to the body in a block, and the whole wrapped in a block after the initializer |
| Grammar.ForInitializer | src/parser.cpp:140-152 | there is no initializer exactly when `;` comes first; `var` gives a variable statement and anything else an expression statement |
| Grammar.ForCondition | src/parser.cpp:156-162 | there is no condition exactly when `;` comes first |
| Grammar.ForIncrement | src/parser.cpp:165-171 | there is no increment exactly when `)` comes first |
| Grammar.ForHeader | src/parser.cpp:137-171 | the clauses consume input or ask for a diagnostic |
| Grammar.ForStatement | src/parser.cpp:132-197 | a `for` consumes input or asks for a diagnostic |
| Grammar.ElseBranch | src/parser.cpp:210-214 | an else branch is parsed exactly when `else` follows and nothing has stalled |
| Grammar.IfStatement | src/parser.cpp:200-218 | builds an if statement |
| Grammar.WhileStatement | src/parser.cpp:221-236 | builds a while statement |
| Grammar.Declaration | src/parser.cpp:28-43 | a declaration consumes input or asks for a diagnostic |
| Grammar.DeclarationStep | src/parser.cpp:18-20 | one turn of a declaration loop is stalled when it consumed nothing |
| Grammar.BlockDeclarations | src/parser.cpp:251-255 | the block loop ends at `}` or end of input unless it stalled |
| Grammar.BlockStatement | src/parser.cpp:248-258 | a block consumes input or asks for a diagnostic |
| Grammar.Parameters | src/parser.cpp:75-79 | the parameter loop reads at least one parameter; `ParametersKeepOrder` states the order |
| Grammar.Parameter | src/parser.cpp:77-78 | a parameter is consumed exactly when it is an identifier, and then it is that token, with no diagnostic |
| Grammar.ParameterList | src/parser.cpp:71-80 | the parameter list consumes input or asks for a diagnostic |
| Grammar.FunHeader | src/parser.cpp:66-83 | a function header consumes input or asks for a diagnostic |
| Grammar.FunDeclaration | src/parser.cpp:63-90 | builds a function statement |
| Grammar.ParseFrom | src/parser.cpp:17-22 | the top-level loop keeps the statements before it and ends at Eof unless it stalled |
| Grammar.Parse | src/parser.cpp:14-23 | parsing ends at Eof, or stalls only after a diagnostic |
| Parsing.Parser.constructor | src/parser.hpp:33-37 | a new parser holds the scanner's first token, with no diagnostic |
| Parsing.Parser.IsAtEnd | src/parser.cpp:18 | the parser is at the end exactly when the current token is Eof |
| Parsing.Parser.Check | src/parser.hpp:61-65 | `Check` holds exactly when the current token has the given kind |
| Parsing.Parser.Advance | src/parser.cpp:550-560 | the previous token becomes the current one, and the position moves one token |
| Parsing.Parser.NextFromScanner | src/parser.cpp:554-559 | takes the scanner's next token, or Eof once the scanner is at the end |
| Parsing.Parser.Match | src/parser.cpp:563-572 | advances exactly when the current token has the kind |
| Parsing.Parser.MatchAny | src/parser.cpp:575-587 | advances exactly when the current token has one of the kinds |
| Parsing.Parser.ErrorAt | src/parser.cpp:522-544 | records the diagnostic, and prints it only when not already in panic mode |
| Parsing.Parser.ErrorAtCurrent | src/parser.hpp:48-52 | records a diagnostic at the current token |
| Parsing.Parser.Consume | src/parser.cpp:590-600 | moves as `Expect` specifies |
| Parsing.Parser.Expression | src/parser.cpp:292-296 | produces exactly the node, position and diagnostics `Grammar.Expression` specifies |
| Parsing.Parser.Assignment | src/parser.cpp:298-325 | the same, for `Grammar.Assignment` |
| Parsing.Parser.LogicOr | src/parser.cpp:328-341 | the same, for `Grammar.LogicOr` |
| Parsing.Parser.LogicAnd | src/parser.cpp:344-357 | the same, for `Grammar.LogicAnd` |
| Parsing.Parser.Equality | src/parser.cpp:360-374 | the same, for `Grammar.Equality` |
| Parsing.Parser.Comparison | src/parser.cpp:377-391 | the same, for `Grammar.Comparison` |
| Parsing.Parser.Term | src/parser.cpp:394-412 | the same, for `Grammar.Term` |
| Parsing.Parser.TermStep | src/parser.cpp:401-410 | one turn of the term loop leaves the rest of the loop computing the same result |
| Parsing.Parser.Factor | src/parser.cpp:415-433 | the same, for `Grammar.Factor` |
| Parsing.Parser.FactorStep | src/parser.cpp:422-431 | one turn of the factor loop leaves the rest of the loop computing the same result |
| Parsing.Parser.Unary | src/parser.cpp:436-449 | the same, for `Grammar.Unary` |
| Parsing.Parser.Call | src/parser.cpp:452-477 | the same, for `Grammar.Call` |
| Parsing.Parser.CallStep | src/parser.cpp:459-474 | one turn of the call loop leaves the rest of the loop computing the same result |
| Parsing.Parser.FinishCall | src/parser.cpp:461-473 | the same, for `Grammar.FinishCall` |
| Parsing.Parser.ArgumentList | src/parser.cpp:461-468 | the same, for `Grammar.ArgumentList` |
| Parsing.Parser.Arguments | src/parser.cpp:464-467 | the same, for `Grammar.Arguments` |
| Parsing.Parser.ArgumentTurn | src/parser.cpp:466-467 | reads one argument, and continues exactly when a comma follows |
| Parsing.Parser.Primary | src/parser.cpp:480-515 | the same, for `Grammar.Primary` |
| Parsing.Parser.PrimaryFromNumber | src/parser.cpp:491-514 | the number, string, identifier and error arms of primary |
| Parsing.Parser.PrimaryFromString | src/parser.cpp:501-514 | the string, identifier and error arms of primary |
| Parsing.Parser.StopIfStalled | src/parser.cpp:18-20 | a loop turn that consumed nothing stops the loop, instead of repeating it forever |
| Parsing.Parser.DeclarationStep | src/parser.cpp:18-20 | the same, for `Grammar.DeclarationStep` |
| Parsing.Parser.ExpressionStatement | src/parser.cpp:261-267 | the same, for `Grammar.ExpressionStatement` |
| Parsing.Parser.PrintStatement | src/parser.cpp:239-245 | the same, for `Grammar.PrintStatement` |
| Parsing.Parser.ReturnStatement | src/parser.cpp:270-285 | the same, for `Grammar.ReturnStatement` |
| Parsing.Parser.Initializer | src/parser.cpp:51-56 | the same, for `Grammar.Initializer` |
| Parsing.Parser.VarDeclaration | src/parser.cpp:46-60 | the same, for `Grammar.VarDeclaration` |
| Parsing.Parser.Statement | src/parser.cpp:98-129 | the same, for `Grammar.Statement` |
| Parsing.Parser.StatementFromReturn | src/parser.cpp:109-128 | the arms of statement from `return` on |
| Parsing.Parser.StatementFromFor | src/parser.cpp:113-128 | the arms of statement from `for` on |
| Parsing.Parser.StatementFromIf | src/parser.cpp:117-128 | the arms of statement from `if` on |
| Parsing.Parser.StatementFromWhile | src/parser.cpp:121-128 | the `while` and expression arms of statement |
| Parsing.Parser.ForInitializer | src/parser.cpp:140-152 | the same, for `Grammar.ForInitializer` |
| Parsing.Parser.ForCondition | src/parser.cpp:156-162 | the same, for `Grammar.ForCondition` |
| Parsing.Parser.ForIncrement | src/parser.cpp:165-171 | the same, for `Grammar.ForIncrement` |
| Parsing.Parser.ForHeader | src/parser.cpp:137-171 | the same, for `Grammar.ForHeader` |
| Parsing.Parser.ForStatement | src/parser.cpp:132-197 | the same, for `Grammar.ForStatement` |
| Parsing.Parser.ElseBranch | src/parser.cpp:210-214 | the same, for `Grammar.ElseBranch` |
| Parsing.Parser.IfStatement | src/parser.cpp:200-218 | the same, for `Grammar.IfStatement` |
| Parsing.Parser.WhileStatement | src/parser.cpp:221-236 | the same, for `Grammar.WhileStatement` |
| Parsing.Parser.Declaration | src/parser.cpp:28-43 | the same, for `Grammar.Declaration` |
| Parsing.Parser.BlockDeclarations | src/parser.cpp:251-255 | the same, for `Grammar.BlockDeclarations` |
| Parsing.Parser.BlockStatement | src/parser.cpp:248-258 | the same, for `Grammar.BlockStatement`, wrapped in a block node |
| Parsing.Parser.Parameters | src/parser.cpp:75-79 | the same, for `Grammar.Parameters` |
| Parsing.Parser.ParameterTurn | src/parser.cpp:77-79 | reads one parameter, and continues exactly when a comma follows |
| Parsing.Parser.ParameterList | src/parser.cpp:71-80 | the same, for `Grammar.ParameterList` |
| Parsing.Parser.FunHeader | src/parser.cpp:66-83 | the same, for `Grammar.FunHeader` |
| Parsing.Parser.FunDeclaration | src/parser.cpp:63-90 | the same, for `Grammar.FunDeclaration` |
| Parsing.Parser.Parse | src/parser.cpp:14-23 | the same, for the top-level loop `Grammar.ParseFrom` |
| GrammarFacts.DisjunctionIsNoAssignment | src/parser.cpp:328-341 | what `or` builds is never an assignment |
| GrammarFacts.PrimaryShape | src/parser.cpp:480-515 | primary builds a variable node exactly for an identifier, named by that token, and a literal otherwise |
| GrammarFacts.CallSuffixShape | src/parser.cpp:459-474 | without a `(` the call loop returns the callee unchanged and consumes nothing; after a `(` it returns a call node, consumes input, and the callee sits at the bottom of the chain of call nodes |
| GrammarFacts.WrapsCalleeTransitive | src/parser.cpp:459-474 | a chain of calls built on a chain built on the callee is still built on the callee |
| GrammarFacts.ArgumentsKeepOrder | src/parser.cpp:464-467 | the argument loop keeps the arguments already read, in order, and the next is the expression at the current token |
| GrammarFacts.ParametersKeepOrder | src/parser.cpp:75-79 | the parameter loop keeps the names already read, in order, and the next is the parameter at the current token |
| GrammarFacts.UnaryShape | src/parser.cpp:436-449 | unary builds only unary, call, variable or literal nodes |
| GrammarFacts.UnaryWrapsOperand | src/parser.cpp:436-449 | a unary node is built exactly when `!` or `-` is the current token; it holds that token and the unary parsed after it |
| GrammarFacts.FactorRestShape | src/parser.cpp:422-431 | the factor loop keeps a product a product |
| GrammarFacts.FactorShape | src/parser.cpp:415-433 | factor builds a product: `*` / `/` nodes over unary operands |
| GrammarFacts.TermRestShape | src/parser.cpp:401-410 | the term loop keeps a sum a sum |
| GrammarFacts.TermShape | src/parser.cpp:394-412 | term builds a sum: `+` / `-` nodes over products, grouped to the left |
| GrammarFacts.ComparisonShape | src/parser.cpp:377-391 | comparison builds at most one comparison node over sums |
| GrammarFacts.EqualityShape | src/parser.cpp:360-374 | equality builds at most one `==` / `!=` node over comparisons |
| GrammarFacts.LogicAndShape | src/parser.cpp:344-357 | `and` builds at most one logical node over equalities |
| GrammarFacts.ConjunctionJoinShape | src/parser.cpp:349-355 | the `and` branch joins two equalities into a conjunction |
| GrammarFacts.EqualitiesConjoin | src/parser.cpp:349-355 | the two equalities on either side of an `and` form a conjunction |
| GrammarFacts.LogicAndJoinNode | src/parser.cpp:349-355 | after an `and`, the logical node holds that token, the equality before it and the equality after it |
| GrammarFacts.LogicOrShape | src/parser.cpp:328-341 | `or` builds at most one logical node over conjunctions |
| GrammarFacts.ExpressionShape | src/parser.cpp:292-325 | an expression is a chain of assignments ending in a disjunction |
| GrammarFacts.ComparisonBuildsCompare | src/parser.cpp:377-391 | a comparison node is built exactly when `<`, `<=`, `>` or `>=` follows the left operand |
| GrammarFacts.EqualityBuildsBinary | src/parser.cpp:360-374 | an equality node is built exactly when `==` or `!=` follows the left operand |
| GrammarFacts.LogicAndBuildsLogical | src/parser.cpp:344-357 | a logical node is built exactly when `and` follows the left operand |
| GrammarFacts.LogicOrBuildsLogical | src/parser.cpp:328-341 | an `or` node is built exactly when `or` follows the left operand |
| GrammarFacts.AssignmentBuildsAssign | src/parser.cpp:298-318 | an assignment node is built exactly when `=` follows a variable |
| GrammarFacts.AssignmentRejectsTarget | src/parser.cpp:307-324 | `=` after anything other than a variable parses the value, reports "Invalid target assignment" at the `=`, and keeps the left side |
| GrammarFacts.Rejected | src/parser.cpp:509-514 | what a rejected primary leaves: nil, no token consumed, no stall |
| GrammarFacts.DigitSpellings | src/parser.cpp:491-499 | a lexeme is taken for a number exactly when it starts with a digit |
| GrammarFacts.ScannedNumbersConvert | src/parser.cpp:491-499 | a token the scanner starts at a digit is a Number whose lexeme starts with a digit |
| GrammarFacts.FactorRejectsStray | src/parser.cpp:415-515 | on a token that starts no expression, factor consumes nothing and yields nil with the "Invalid literal token." diagnostic |
| GrammarFacts.ComparisonRejectsStray | src/parser.cpp:377-515 | the same, for comparison |
| GrammarFacts.ExpressionRejectsStray | src/parser.cpp:292-515 | the same, for a whole expression |
| GrammarFacts.DeclarationStallsOnStray | src/parser.cpp:18-20 | a declaration that starts with a stray token consumes nothing, reports two diagnostics, and stalls the loop |
| GrammarFacts.ParseStallsOnStray | src/parser.cpp:14-23 | a program that starts with a stray token stalls at once, with those two diagnostics |
| GrammarFacts.VarWithoutInitializer | src/parser.cpp:46-60 | `var x;` declares x with the nil literal |
| GrammarFacts.ReturnWithoutValue | src/parser.cpp:270-285 | `return;` returns the nil literal |
| GrammarFacts.ForWithoutClauses | src/parser.cpp:132-197 | `for (;;) body` is `while (true) body` |
| GrammarFacts.ForWithAllClauses | src/parser.cpp:176-196 | a `for` with all three clauses is a block of the initializer and a `while` whose body is a block of the body and the increment |
| GrammarFacts.ParseFromKeepsOrder | src/parser.cpp:17-22 | the top-level loop keeps earlier statements in order, and the next is the declaration at the current token |
| GrammarFacts.BlockDeclarationsKeepOrder | src/parser.cpp:251-255 | the same, for the block loop |
| GrammarFacts.BlockEndsAtBrace | src/parser.cpp:248-258 | a block that did not stall consumes its `}`, or reports "Expect '}' after block." at end of input |
| GrammarFacts.ParseFromCompletes | src/parser.cpp:17-22 | the top-level loop finishes without stalling exactly when each declaration it reaches before Eof consumes input and does not stall; then it ends at Eof |
| GrammarFacts.ParseCompletes | src/parser.cpp:14-23 | the same, for a whole parse |
| GrammarFacts.CallWithoutArguments | src/parser.cpp:452-477 | `f()` followed by `;` parses as one call node on the variable `f`, with no arguments, ending before the `;` |
| GrammarFacts.CallStatementParses | src/parser.cpp:14-23 | the program `f();` reaches Eof through declarations that each make progress, and parses to one expression statement holding that call, with no diagnostics |
| GroupingFacts.ParenthesisIsInvalidLiteral | src/parser.cpp:480-515 | `primary` has no case for `(`: an opening parenthesis yields nil with the "Invalid literal token." diagnostic, so no grouping node is built |
| GroupingFacts.CallSuffixNoGrouping | src/parser.cpp:459-474 | the call loop adds no grouping node to a grouping-free callee |
| GroupingFacts.FinishCallNoGrouping | src/parser.cpp:461-473 | a call node built on a grouping-free callee holds no grouping node |
| GroupingFacts.ArgumentListNoGrouping | src/parser.cpp:461-468 | no argument of a call holds a grouping node |
| GroupingFacts.ArgumentsNoGrouping | src/parser.cpp:464-467 | the argument loop appends only grouping-free arguments |
| GroupingFacts.CallNoGrouping | src/parser.cpp:452-477 | call builds no grouping node |
| GroupingFacts.UnaryNoGrouping | src/parser.cpp:436-449 | unary builds no grouping node |
| GroupingFacts.FactorRestNoGrouping | src/parser.cpp:422-431 | the `*` / `/` loop adds no grouping node to a grouping-free left operand |
| GroupingFacts.FactorNoGrouping | src/parser.cpp:415-433 | factor builds no grouping node |
| GroupingFacts.TermRestNoGrouping | src/parser.cpp:401-410 | the `+` / `-` loop adds no grouping node to a grouping-free left operand |
| GroupingFacts.TermNoGrouping | src/parser.cpp:394-412 | term builds no grouping node |
| GroupingFacts.ComparisonNoGrouping | src/parser.cpp:377-391 | comparison builds no grouping node |
| GroupingFacts.EqualityNoGrouping | src/parser.cpp:360-374 | equality builds no grouping node |
| GroupingFacts.LogicAndNoGrouping | src/parser.cpp:344-357 | `and` builds no grouping node |
| GroupingFacts.ConjunctionNoGrouping | src/parser.cpp:349-355 | the `and` branch joins two grouping-free operands |
| GroupingFacts.LogicOrNoGrouping | src/parser.cpp:328-341 | `or` builds no grouping node |
| GroupingFacts.AssignmentNode | src/parser.cpp:307-322 | after `=`, assignment builds an assignment node to the variable for a variable target and keeps the target otherwise |
| GroupingFacts.AssignmentNoGrouping | src/parser.cpp:298-325 | assignment builds no grouping node |
| GroupingFacts.AssignedNoGrouping | src/parser.cpp:307-322 | the `=` branch builds no grouping node |
| GroupingFacts.ExpressionNoGrouping | src/parser.cpp:292-296 | no expression the parser builds contains a grouping node |
| GroupingFacts.ExpressionStatementNoGrouping | src/parser.cpp:261-267 | an expression statement holds no grouping node |
| GroupingFacts.PrintStatementNoGrouping | src/parser.cpp:239-245 | a print statement holds no grouping node |
| GroupingFacts.ReturnStatementNoGrouping | src/parser.cpp:270-285 | a return statement holds no grouping node |
| GroupingFacts.VarDeclarationNoGrouping | src/parser.cpp:46-60 | a variable declaration holds no grouping node |
| GroupingFacts.ForInitializerNoGrouping | src/parser.cpp:140-152 | a `for` initializer holds no grouping node |
| GroupingFacts.ForConditionNoGrouping | src/parser.cpp:156-162 | a `for` condition holds no grouping node |
| GroupingFacts.ForIncrementNoGrouping | src/parser.cpp:165-171 | a `for` increment holds no grouping node |
| GroupingFacts.ForHeaderNoGrouping | src/parser.cpp:137-171 | none of the three `for` clauses holds a grouping node |
| GroupingFacts.DesugarNoGrouping | src/parser.cpp:176-196 | the `while` form of a `for` adds no grouping node to its clauses and body |
| GroupingFacts.StatementDispatch | src/parser.cpp:98-129 | statement hands each keyword to its production and anything else to the expression statement |
| GroupingFacts.StatementNoGrouping | src/parser.cpp:98-129 | no statement the parser builds holds a grouping node, nested statements included |
| GroupingFacts.PrintBranchNoGrouping | src/parser.cpp:101-104 | the `print` branch of statement holds no grouping node |
| GroupingFacts.BlockBranchNoGrouping | src/parser.cpp:105-108 | the block branch of statement holds no grouping node |
| GroupingFacts.ReturnBranchNoGrouping | src/parser.cpp:109-112 | the `return` branch of statement holds no grouping node |
| GroupingFacts.ForBranchNoGrouping | src/parser.cpp:113-116 | the `for` branch of statement holds no grouping node |
| GroupingFacts.IfBranchNoGrouping | src/parser.cpp:117-120 | the `if` branch of statement holds no grouping node |
| GroupingFacts.WhileBranchNoGrouping | src/parser.cpp:121-124 | the `while` branch of statement holds no grouping node |
| GroupingFacts.ForStatementNoGrouping | src/parser.cpp:132-197 | a `for` statement holds no grouping node |
| GroupingFacts.ElseBranchNoGrouping | src/parser.cpp:210-214 | an else branch holds no grouping node |
| GroupingFacts.IfStatementNoGrouping | src/parser.cpp:200-218 | an if statement holds no grouping node |
| GroupingFacts.WhileStatementNoGrouping | src/parser.cpp:221-236 | a while statement holds no grouping node |
| GroupingFacts.DeclarationDispatch | src/parser.cpp:28-43 | declaration hands `var` and `fun` to their productions and anything else to statement |
| GroupingFacts.DeclarationNoGrouping | src/parser.cpp:28-43 | a declaration holds no grouping node |
| GroupingFacts.VarBranchNoGrouping | src/parser.cpp:31-34 | the `var` branch of declaration holds no grouping node |
| GroupingFacts.FunBranchNoGrouping | src/parser.cpp:35-38 | the `fun` branch of declaration holds no grouping node |
| GroupingFacts.StatementBranchNoGrouping | src/parser.cpp:39-42 | the statement branch of declaration holds no grouping node |
| GroupingFacts.BlockDeclarationsNoGrouping | src/parser.cpp:251-255 | the block loop appends only grouping-free statements |
| GroupingFacts.BlockStatementNoGrouping | src/parser.cpp:248-258 | no statement of a block holds a grouping node |
| GroupingFacts.FunDeclarationNoGrouping | src/parser.cpp:63-90 | no statement of a function body holds a grouping node |
| GroupingFacts.ParseFromNoGrouping | src/parser.cpp:17-22 | the top-level loop appends only grouping-free statements |
| GroupingFacts.ParseNoGrouping | src/parser.cpp:14-23 | no statement of a parsed program holds a grouping node, whatever the tokens |
| Printing.LiteralText | src/ast_printer.hpp:51-67 | nil prints as "nil", and a boolean prints as "true" exactly when it is true |
| Printing.Parenthesize | src/ast_printer.hpp:206-214 | one pair of parentheses around the name and the operand, separated by a space |
| Printing.Parenthesize2 | src/ast_printer.hpp:216-225 | one pair of parentheses around the name and two operands; the operands are separated by two spaces |
| Printing.ShowExpr | src/ast_printer.hpp:36-117 | operator and grouping nodes print inside one pair of parentheses; a variable prints as its name; an assignment prints its name first and ends with a newline |
| Printing.ParamList | src/ast_printer.hpp:156-163 | the parameter list starts with the first name and ends with the last |
| Printing.ShowStmt | src/ast_printer.hpp:119-204 | print and return statements are parenthesised; a variable declaration starts with `var ` and its name; a function starts with its name and `(`; if and while end with the closing brace line |
| Printing.ShowBlock | src/ast_printer.hpp:139-148 | a list prints nothing exactly when it is empty, and the output has at least as many characters as there are statements |
| Printing.StringStream.constructor | src/ast_printer.hpp:153 | a new stream is empty |
| Printing.StringStream.Str | src/ast_printer.hpp:166 | the contents are everything before the put position followed by everything after it |
| Printing.StringStream.Write | src/ast_printer.hpp:154-158 | writing overwrites from the put position, grows the buffer once past its end, and moves the put position past the text |
| Printing.StringStream.SeekBack | src/ast_printer.hpp:162 | seeking back moves the put position and leaves the contents unchanged |
| Printing.VisitBlock | src/ast_printer.hpp:139-148 | the block visit prints each statement followed by a newline, in order |
| Printing.VisitFun | src/ast_printer.hpp:150-167 | the function visit prints the name, the parameters separated by ", ", then the body header and the body |
| Printing.WriteParameters | src/ast_printer.hpp:156-159 | writes each parameter followed by ", " |
| Printing.VisitIf | src/ast_printer.hpp:176-193 | the if visit prints the condition and the then branch, then the else branch only when there is one |
| Printing.ShowBlockAppend | src/ast_printer.hpp:139-148 | the rendering of two statement lists joined is the two renderings joined |
| Printing.TrailingCommasJoin | src/ast_printer.hpp:156-163 | writing each parameter with ", " then stepping back two places leaves the separated list |
| Printing.ParamListCommas | src/ast_printer.hpp:150-167 | with comma-free names, n parameters print with n - 1 commas |
| Printing.NoParameters | src/ast_printer.hpp:160-164 | a function without parameters prints "()" before its body header |
| Printing.ElseOnlyWhenPresent | src/ast_printer.hpp:186-191 | an if with an else prints the if without it, followed by the else block |
| Printing.ParenthesizeCount | src/ast_printer.hpp:206-214 | one-operand parenthesizing adds one opening and one closing parenthesis |
| Printing.Parenthesize2Count | src/ast_printer.hpp:216-225 | two-operand parenthesizing adds one opening and one closing parenthesis |
| Printing.AssignCount | src/ast_printer.hpp:77-83 | an assignment adds no parentheses to its value |
| Printing.PairCount | src/ast_printer.hpp:36-41 | a binary, logical or comparison node adds one pair of parentheses to its operands |
| Printing.GroupingCount | src/ast_printer.hpp:70-74 | a grouping adds one pair of parentheses |
| Printing.ParenthesesCountOperators | src/ast_printer.hpp:227-231 | with parenthesis-free names and literals, a rendered expression holds one `(` and one `)` per operator or grouping node |

## Left out

- Integer widths: lines and indices are unbounded naturals. The source's 32-bit counters and the 16-bit `TypeInt` never wrap in the model.
- Tokens.TypeInt: returns the kind's index as a natural number, not a 16-bit value; all 40 codes fit.
- Number values: a number literal is kept as its spelling. The conversion to a 64-bit float (`from_chars`) and the printer's `to_string` are not modelled. The conversion failure at src/parser.cpp:495-498 is modelled as "the spelling does not start with a digit". The scanner never produces such a spelling.
- Printing.LiteralText: prints a number as its spelling, not as `to_string` of the converted float.
- The printer's call-expression case (src/ast_printer.hpp:97-111) is not part of this model. The rendering functions require call-free trees.
- Diagnostics: `ErrorAt` writes to standard output. The model records each diagnostic as a value (line, place, message) in `reported`. It also keeps the full list of requested diagnostics, `errs`, as ghost state.
- Lifetimes: a token's lexeme is a view into the source text, or into a message literal. The model copies the characters.
- Non-termination: `Parse` and the block loop repeat forever in the source when a declaration consumes nothing (after panic mode, nothing resynchronises). The model detects that state and stops the loop, setting `stalled`. Every stall is proved to follow a reported diagnostic.
- There is no error synchronisation: panic mode, once entered, is never left, and only the first diagnostic is printed.
- `Match` and `Consume` are never asked for Eof in the source. The model requires `k != Eof` of them.
- Reading at the end of the text: `Peek` at the end indexes one past the view, which is undefined behaviour in C++. The model yields NUL there, which is what the loops rely on.
- Keyword trie: a keyword answer requires only that the keyword be a prefix of the word, so `orange` is the keyword `or` and `classy` is `class`. The model follows the code (`ScanningFacts.OrangeScansAsOr`), not exact keyword matching.
- String token line: `MakeToken` runs after the closing quote, so a string token carries the line of its closing quote. The model follows the code.
- Grammar.Desugar: src/parser.cpp:178-181 and :192 construct a `BlockStmtNode` from two statements, but src/node.hpp:219 declares only a constructor taking a vector of statements, so these two calls do not compile as written. The model reads each as a block of those two statements in the order given: `[body, increment]` and `[initializer, while]`, with the increment wrapped as an expression statement.
- Header and implementation disagree. parser.hpp declares `Parse` returning one expression and lists only the expression productions. The model follows parser.cpp: `Parse` returns the statement list, and every production defined there is modelled.
- llvm_visitor.hpp/.cpp, main.cpp, log.hpp and common.hpp are not part of this model. They are code generation, the driver and logging.
