# DTDX tokenizer and content-model printer, in Dafny

DTDX is a whitespace-sensitive text notation for XML document type definitions.
This project models four files of its Go implementation:

- **The lexing engine** (`internal/lexer/lexer.go`), in `lexer.dfy`. A `Lex` object holds a cursor over an immutable source text: `start` and `position` delimit the pending text, and `atEOF` records that the end rune has been read. Its rune primitives (`Next`, `Backup`, `Peek`, `Accept`, `AcceptRun`, `AcceptTo`, `LookingAt`) move the cursor, and `Emit`, `Ignore` and `Errorf` deliver tokens. The model is a class with these fields, plus `tokens` (the delivered tokens in order) and `indents` (the scanner's indentation stack). The delivering methods (`Emit`, `Errorf`, `Ignore`) are proved against pure functions on the `Snapshot` value of the object. The rune primitives state their effect on `position` and `atEOF` field by field, with `RunEnd` and `StopAt` saying where a run ends.
- **Tokens and their printable form** (`internal/lexer/token.go`), in `tokens.dfy`. This covers `TokenType.String`, `Token.String` and the decimal rendering `strconv.Itoa` that it relies on. `strconv.Itoa`'s text and an unregistered type's `tok_N` name are proved to parse back. A token's rendering gives back its value once its type's name is known. It gives back the whole token under a registry whose names hold no comma, never look like `tok_N` and are distinct. The scanner's registry is proved to be such a registry; an arbitrary one need not be.
- **The DTDX scanner** (`internal/parser/scanner.go`), in `scanner.dfy`. Its state functions appear twice:
  - a pure function `Scan*` from one snapshot to the next, which is the specification;
  - a method over `Lex` that moves the cursor with the engine's primitives as the Go code does, proved to reach the state its `Scan*` function describes.

  `Start` is the driver loop of the engine. `ScanRun` is the pure run of a whole session.
- **The properties of the token stream**, in `scanner_props.dfy`:
  - the indentation stack stays a strictly increasing stack with base 0;
  - open levels always equal indents minus dedents;
  - the end of input closes every level;
  - a stopped session ends with exactly one closing token, the end-of-input token or an error.

  `dispatch.dfy` follows each rune of `OuterState` into the state it hands over to. `scanner_examples.dfy` works two of the scanner's own test inputs (`TestReference` and `TestRunawayQuote`) through `ScanRun`, plus a few inputs of its own. `scanner_messages.dfy` shows that the numbers in the error messages read back.
- **The content-model printer** (`internal/parser/element.go`), in `element.dfy`. This is `ContentModel.String`, `baseString` and `getSep`, both as written and as evidently intended. See Findings.

Modelling choices:

- Runes are Dafny `char`s, so every rune has width 1.
- `unicode.IsLetter`, `unicode.IsDigit` and `strconv.IsPrint` are parameters, the `Tables` datatype.
- The state `Stop` stands for the nil state function.
- The state `Panic` stands for the Go panic that `measure` raises on a rune other than space or tab.
- The indentation stack that `updateIndent` keeps in the engine's untyped state slot is the field `indents`, which starts as `[0]`.

Two behaviours of the code that the model keeps as they are:

- A line indented by 2 under the stack `[0, 4]` pops one level, with one dedent token. It then reports "Inconsistent dedent. Expecting 0 but found 2." (scanner.go:144-153, `InconsistentDedentExample`).
- `quoteHelper` reads the closing quote but never drops it (scanner.go:188). The quote stays pending. A blank or a newline after it drops it. A one-rune token right after it carries it: in `a="x"=` the second equals token holds the quote and `=` (`PendingQuoteJoinsToken`). The same holds for an identifier, directive, comment or ellipsis right after it, since those states too emit from the pending start: `a="x"abc` gives the identifier `"abc`, and `a="x"...` gives the malformed-ellipsis error with `"...`. At the very end of the input it makes `measure` panic (`QuoteAtEndPanics`).

## Model

| member | source | states |
|---|---|---|
| Tokens.DigitsRoundTrip | internal/lexer/token.go:22 | The decimal digits of n are digits only, have no leading zero unless n is 0, and read back as n |
| Tokens.ItoaRoundTrip | internal/lexer/token.go:22 | `strconv.Itoa` gives an optional minus sign, present exactly for negative numbers, then digits, and parses back to the number |
| Tokens.Itoa | internal/lexer/token.go:22 | The decimal text of a number is never empty |
| Tokens.ItoaInjective | internal/lexer/token.go:22 | Different numbers render differently |
| Tokens.TypeName | internal/lexer/token.go:18-23 | A registered type renders as its registered name. Any other renders as `tok_` followed by a decimal that parses back to the type |
| Tokens.UnregisteredNamesDistinct | internal/lexer/token.go:18-23 | Two unregistered types with the same rendering are the same type |
| Tokens.TokenString | internal/lexer/token.go:35-37 | A token's rendering has the length of `{`, the type's name, `, "`, the value and `"}`, opens with `{` and closes with `"}` |
| Tokens.TokenStringValue | internal/lexer/token.go:35-37 | The rendering holds the type's name after `{`, then `, "`, then the value before the closing `"}` |
| Tokens.TypeNameInjective | internal/lexer/token.go:18-23 | Under a readable registry, two token types with the same name are the same type |
| Tokens.TokenStringReadsBack | internal/lexer/token.go:35-37 | Under a readable registry, two tokens with the same rendering are the same token, type and value |
| Tokens.AmbiguousRegistry | internal/lexer/token.go:35-37 | Without that condition it fails: a registered name holding `, "` makes two different tokens render alike |
| Tokens.TokenStringDeterminesValue | internal/lexer/token.go:35-37 | Two tokens whose renderings and type names agree carry the same value |
| Tokens.RenderingExamples | internal/lexer/token.go:18-37 | `{dedentTok, ""}` for a registered type, `{tok_-1, "x"}` and `tok_13` for unregistered ones |
| Lexer.RunEnd | internal/lexer/lexer.go:224-228 | Where a run over a set stops: every rune before the stop is in the set, and the one at the stop is not |
| Lexer.StopAt | internal/lexer/lexer.go:231-236 | Where a scan up to a set of stop runes stops: no rune before the stop is a stop rune, and the one at the stop is |
| Lexer.Emitted | internal/lexer/lexer.go:145-152 | Emit appends one token holding exactly the pending text and leaves nothing pending |
| Lexer.Ignored | internal/lexer/lexer.go:167-169 | Ignore drops the pending text and changes nothing else |
| Lexer.Errored | internal/lexer/lexer.go:156-163 | Errorf appends one error token with the message and leaves the cursor where it is |
| Lexer.Lex.constructor | internal/lexer/lexer.go:93-100 | A new lexer is at offset 0 of its source with nothing delivered, and the indentation stack is `[0]` |
| Lexer.Lex.Current | internal/lexer/lexer.go:139-141 | The pending text is the source between start and position |
| Lexer.Lex.Emit | internal/lexer/lexer.go:145-152 | The new token is the old pending text, start moves up to the position, and the state is `Emitted` of the old one |
| Lexer.Lex.Errorf | internal/lexer/lexer.go:156-163 | One error token is appended with the message; the cursor does not move |
| Lexer.Lex.Ignore | internal/lexer/lexer.go:167-169 | Start moves up to the position; nothing else changes |
| Lexer.Lex.Peek | internal/lexer/lexer.go:173-178 | Returns the next rune, or the end rune at the end, and leaves the cursor and the end flag as they were |
| Lexer.Lex.Next | internal/lexer/lexer.go:182-199 | Returns the rune at the position and moves one further. At the end it returns the end rune, stays put and sets the end flag |
| Lexer.Lex.Backup | internal/lexer/lexer.go:204-212 | Undoes a Next: clears the end flag if it was set, otherwise moves back one rune but never before start |
| Lexer.Lex.Accept | internal/lexer/lexer.go:215-221 | Consumes the next rune exactly when it is in the set, and says whether it did |
| Lexer.Lex.AcceptRun | internal/lexer/lexer.go:224-228 | Moves to the end of the run of runes from the set (`RunEnd`), not past the end of the source |
| Lexer.Lex.AcceptTo | internal/lexer/lexer.go:231-236 | Moves to the first rune from the set, a newline or NUL (`StopAt`), or to the end |
| Lexer.Lex.LookingAt | internal/lexer/lexer.go:239-244 | True exactly when the source continues with the prefix at the position |
| Lexer.MovingThroughString | internal/lexer/lexer_test/lexer_test.go:54-78 | Reading `123` yields 1, 2, 3, then the end rune, with pending text `1`, `12`, `123`, `123` |
| Lexer.Rewind | internal/lexer/lexer_test/lexer_test.go:101-119 | After Next on `1` the pending text is `1`; after Backup it is empty |
| Scanner.Width | internal/parser/scanner.go:157-170 | The indentation width of blanks is at least their count and at most four times it |
| Scanner.Measure | internal/parser/scanner.go:157-170 | The measuring loop computes `Width`: a space adds 1, a tab moves to the next multiple of 4 |
| Scanner.PopsKeepsBase | internal/parser/scanner.go:144-149 | The dedent loop never pops the base level 0; what remains is a valid stack whose top is at most the new width |
| Scanner.PopsCount | internal/parser/scanner.go:145-148 | The loop goes on popping exactly while the level on top is above the new width |
| Scanner.RegisteredNames | internal/parser/scanner.go:32-46 | Each of the 13 token types renders as its own registered name, no two alike, and the unregistered error type renders as `tok_-1` |
| Scanner.ScannerNamesReadable | internal/parser/scanner.go:32-46 | The scanner's 13 names hold no comma, none starts with `tok_`, and no two are alike |
| Scanner.ScannerRenderingReadsBack | internal/parser/scanner.go:32-46 | With the scanner's registry, a token's rendering determines its type and its value |
| Scanner.ScanIndent | internal/parser/scanner.go:130-155 | `updateIndent` keeps the stack valid and the cursor in place, and goes on to Outer, stops or panics |
| Scanner.ScanDedent | internal/parser/scanner.go:144-153 | The dedent case keeps the stack valid and the cursor in place, and goes on to Outer or stops |
| Scanner.Popped | internal/parser/scanner.go:145-149 | After the dedent loop nothing is pending and the top of the stack is at most the new width |
| Scanner.ScanNewline | internal/parser/scanner.go:119-128 | NewlineState moves forward. It comes back to itself only past a newline, and otherwise goes to Outer or ends |
| Scanner.ScanQuote | internal/parser/scanner.go:182-192 | A quoted value moves the cursor and keeps the stack, then goes on to Outer or stops |
| Scanner.ScanDirective | internal/parser/scanner.go:197-201 | A directive keeps the stack and goes on to Outer |
| Scanner.ScanComment | internal/parser/scanner.go:204-208 | A comment keeps the stack and goes on to Outer |
| Scanner.IsAlphaNumeric | internal/parser/scanner.go:223-225 | The underscore continues an identifier; the end rune never does, when the tables leave it out of the letters and digits |
| Scanner.IdentEnd | internal/parser/scanner.go:211-225 | An identifier runs over letters, digits and `_` and stops at the first other rune |
| Scanner.ScanIdentifier | internal/parser/scanner.go:211-221 | An identifier keeps the stack and goes on to Outer |
| Scanner.ScanReference | internal/parser/scanner.go:228-237 | A run of dots keeps the stack and goes on to Outer or stops |
| Scanner.ScanEnd | internal/parser/scanner.go:105-108 | At the end rune the session stops, or panics on a pending non-blank text; the cursor stays put |
| Scanner.OuterTurn | internal/parser/scanner.go:77-115 | One pass of OuterState's loop either moves on with nothing pending and at most one new token, of one of the one-rune token types, or returns. A return that ends the session before the end of input is the unexpected-character error |
| Scanner.ScanOuter | internal/parser/scanner.go:76-116 | OuterState never moves back, and hands over to another running state only after reading a rune |
| Scanner.ScanStep | internal/lexer/lexer.go:107-110 | One state function call: the cursor moves forward, or the next state ranks lower, which bounds the session |
| Scanner.ScanRun | internal/lexer/lexer.go:103-113 | Running state functions until the nil state always ends, in Stop or Panic |
| Scanner.PopLevels | internal/parser/scanner.go:145-149 | The dedent loop reaches `Popped`: one dedent token per popped level, and the new top is returned |
| Scanner.UpdateIndent | internal/parser/scanner.go:130-155 | The method reaches the state `ScanIndent` describes |
| Scanner.Dedent | internal/parser/scanner.go:144-153 | The method reaches the state `ScanDedent` describes |
| Scanner.Finish | internal/parser/scanner.go:105-108 | The method reaches the state `ScanEnd` describes |
| Scanner.OuterPass | internal/parser/scanner.go:78-114 | One pass of the loop reaches the turn `OuterTurn` describes |
| Scanner.OuterState | internal/parser/scanner.go:76-116 | The loop reaches the state `ScanOuter` describes |
| Scanner.NewlineState | internal/parser/scanner.go:119-128 | The method reaches the state `ScanNewline` describes |
| Scanner.QuoteHelper | internal/parser/scanner.go:182-192 | The method reaches the state `ScanQuote` describes |
| Scanner.DoubleQuoteState | internal/parser/scanner.go:173-175 | `ScanQuote` with the double quote |
| Scanner.SingleQuoteState | internal/parser/scanner.go:178-180 | `ScanQuote` with the single quote |
| Scanner.DirectiveState | internal/parser/scanner.go:197-201 | The method reaches the state `ScanDirective` describes |
| Scanner.CommentState | internal/parser/scanner.go:204-208 | The method reaches the state `ScanComment` describes |
| Scanner.IdentifierState | internal/parser/scanner.go:211-221 | The loop reaches the state `ScanIdentifier` describes |
| Scanner.ReferenceState | internal/parser/scanner.go:228-237 | The method reaches the state `ScanReference` describes |
| Scanner.RunState | internal/lexer/lexer.go:109 | Calling the current state function reaches the state `ScanStep` describes |
| Scanner.Start | internal/lexer/lexer.go:103-113 | The driver loop reaches `ScanRun` and ends in Stop or Panic |
| Scanner.Tokenize | internal/lexer/lexer.go:93-121 | A whole session from a fresh lexer delivers the tokens `ScanRun` gives |
| ScannerProps.DedentsCount | internal/parser/scanner.go:145-146 | n pops deliver n dedent tokens and no indent token |
| ScannerProps.DedentsShape | internal/parser/scanner.go:145-147 | The first dedent token carries the pending whitespace; later ones are empty |
| ScannerProps.ErrorFinishes | internal/lexer/lexer.go:154-163 | An error token closes the stream: it is the only closing token and the last |
| ScannerProps.TabStop | internal/parser/scanner.go:163-164 | A tab moves the width to the next multiple of 4 |
| ScannerProps.SpaceAddsOne | internal/parser/scanner.go:161-162 | A space adds 1 to the width |
| ScannerProps.WidthExamples | internal/parser/scanner.go:157-170 | A tab is width 4, and two spaces then a tab are also width 4 |
| ScannerProps.PopsSplit | internal/parser/scanner.go:145-148 | The popped levels are exactly those above the new width; all those left are at most the width |
| ScannerProps.StackTop | internal/parser/scanner.go:134 | The top of the stack is not negative, and it is 0 only when the stack holds just the base |
| ScannerProps.PopsToBase | internal/parser/scanner.go:134 | Measuring width 0 pops every level but the base |
| ScannerProps.DedentPops | internal/parser/scanner.go:144-149 | The dedent loop pops at least one level, never the base. It delivers one dedent per popped level, and every popped level is above the width |
| ScannerProps.DedentConsistent | internal/parser/scanner.go:144-153 | A dedent goes on to Outer if and only if the new width is one of the open levels |
| ScannerProps.DedentError | internal/parser/scanner.go:150-151 | An inconsistent dedent ends with the error naming the level reached and the width found |
| Scanner.DedentMessage | internal/parser/scanner.go:151 | The inconsistent-dedent text; its contract is `DedentMessageReadsBack` |
| Scanner.UnexpectedMessage | internal/parser/scanner.go:113 | The unexpected-character text; its contract is `UnexpectedMessageShape` |
| Scanner.UnicodeNotation | internal/parser/scanner.go:113 | Go's `%#U` of a rune; its contracts are `NotationShape`, `NotationReadsBack` and `NotationExamples` |
| Scanner.HexDigits | internal/parser/scanner.go:113 | The upper-case hexadecimal digits of a number, at least one; read back by `HexRoundTrip` |
| Scanner.ZeroPad | internal/parser/scanner.go:113 | Pads to at least the width, never shortens; `PadKeepsNumber` shows the number is kept |
| ScannerMessages.DedentMessageReadsBack | internal/parser/scanner.go:151 | The inconsistent-dedent message determines the level reached and the width found |
| ScannerMessages.DedentTextReadsBack | internal/parser/scanner.go:151 | In the message's fixed text, the two inserted texts read back when the first holds no space |
| ScannerMessages.ItoaHasNoSpace | internal/lexer/token.go:22 | The decimal text of a number holds no space |
| ScannerMessages.UnexpectedMessageShape | internal/parser/scanner.go:113 | The unexpected-character message is its fixed opening text, the rune in `%#U` notation, then its fixed closing text |
| ScannerMessages.NotationShape | internal/parser/scanner.go:113 | `%#U` starts with `U+` and ends with the rune between single quotes exactly when the rune is printable |
| ScannerMessages.NotationReadsBack | internal/parser/scanner.go:113 | The hexadecimal digits of `%#U` are at least four and denote the rune's code point |
| ScannerMessages.HexRoundTrip | internal/parser/scanner.go:113 | The upper-case hexadecimal digits of a number are hexadecimal digits and read back as the number |
| ScannerMessages.PadKeepsNumber | internal/parser/scanner.go:113 | Padding the digits with leading zeros does not change the number they denote |
| ScannerMessages.NotationExamples | internal/parser/scanner.go:113 | `A` is written `U+0041 'A'`; the non-printable NUL is written `U+0000` |
| ScannerProps.PoppedKeeps | internal/parser/scanner.go:145-149 | The dedent loop keeps open levels equal to indents minus dedents, and adds no closing token |
| ScannerProps.DedentKeeps | internal/parser/scanner.go:144-153 | A dedent keeps the account and leaves nothing pending, or finishes the stream with an error |
| ScannerProps.DedentStopFinishes | internal/parser/scanner.go:150-152 | An inconsistent dedent ends the session with its error token as the only closing token |
| ScannerProps.IndentSame | internal/parser/scanner.go:138-140 | A line as deep as the top of the stack gives no token, keeps the stack and drops the pending blanks |
| ScannerProps.IndentUpKeeps | internal/parser/scanner.go:141-143 | A deeper line adds exactly one indent token holding its blanks, pushes its width and keeps the account |
| ScannerProps.IndentDown | internal/parser/scanner.go:138-145 | A shallower line goes through the dedent branch |
| ScannerProps.IndentKeeps | internal/parser/scanner.go:130-155 | `updateIndent` keeps the account, or finishes with an error, or panics without delivering anything |
| ScannerProps.EndClosesAll | internal/parser/scanner.go:105-108 | At the end with nothing pending, each open level gets an empty dedent, then the end-of-input token; the stack is back to `[0]` |
| ScannerProps.EndKeeps | internal/parser/scanner.go:105-108 | The end stops exactly when nothing is pending. The stream then ends with the end-of-input token with all levels closed; otherwise it panics and delivers nothing |
| ScannerProps.TurnEndKeeps | internal/parser/scanner.go:105-108 | A pass that reads the end rune settles the session |
| ScannerProps.TurnContinueKeeps | internal/parser/scanner.go:79-92 | A pass that loops keeps the scanner resumable |
| ScannerProps.TurnDispatchKeeps | internal/parser/scanner.go:93-112 | A pass that hands over to another state has only read one rune and keeps the scanner resumable |
| ScannerProps.TurnErrorKeeps | internal/parser/scanner.go:113 | A pass that stops before the end finishes the stream with an error |
| ScannerProps.TurnKeeps | internal/parser/scanner.go:77-115 | Every pass of OuterState's loop keeps the scanner resumable or settles it |
| ScannerProps.OuterKeeps | internal/parser/scanner.go:76-116 | OuterState leaves the scanner resumable in its next state, or finished, or panicked with no closing token |
| ScannerProps.NewlineKeeps | internal/parser/scanner.go:119-128 | The same for NewlineState |
| ScannerProps.QuoteKeeps | internal/parser/scanner.go:182-192 | The same for the quote states |
| ScannerProps.ReferenceKeeps | internal/parser/scanner.go:228-237 | The same for ReferenceState |
| ScannerProps.StepKeeps | internal/lexer/lexer.go:108-110 | The same for every state function |
| ScannerProps.RunKeeps | internal/lexer/lexer.go:107-110 | The same for a whole run of state functions |
| ScannerProps.SessionFinishes | internal/lexer/lexer.go:103-113 | Every session ends. A stopped session delivers exactly one closing token, the last; if that is the end-of-input token, every indent was matched by a dedent |
| Dispatch.BlankDropped | internal/parser/scanner.go:79-80 | Space and tab are dropped with anything pending, and the loop goes on |
| Dispatch.OneRuneToken | internal/parser/scanner.go:83-92 | From a state with nothing pending, each of `=`, `(`, `)`, the comma, the bar, `&`, `*`, `+` and `?` becomes one token of its type whose value is that rune |
| Dispatch.PendingQuoteJoinsToken | internal/parser/scanner.go:83-92 | With a closing quote still pending, the one-rune token after it holds the quote and the rune |
| Dispatch.HashDispatch | internal/parser/scanner.go:99-104 | `#` and a capital give a directive, the run of capitals; any other `#` gives a comment, the rest of the line |
| Dispatch.IdentifierDispatch | internal/parser/scanner.go:109-112 | A letter, `_` or `:` starts an identifier running over letters, digits and `_` |
| Dispatch.ReferenceDispatch | internal/parser/scanner.go:228-237 | A run of dots is a reference token exactly when it is three dots long, otherwise the malformed-ellipsis error with the dots |
| Dispatch.UnexpectedRune | internal/parser/scanner.go:109-113 | Any other rune ends the session with the unexpected-character error |
| Dispatch.QuoteDispatch | internal/parser/scanner.go:182-192 | The quote token holds the text between the delimiters, and the closing delimiter stays pending. Without a closing delimiter before a newline, NUL or the end, the error holds the rest |
| Dispatch.QuoteAtEndPanics | internal/parser/scanner.go:186-188 | A closing quote at the very end stays pending, and measuring it at the end panics |
| Dispatch.BlankLineSkipped | internal/parser/scanner.go:119-125 | A blank line gives no token and the scan goes on as if from the next line |
| Dispatch.NewlineIgnoresStart | internal/parser/scanner.go:120 | NewlineState drops the pending text first, so where it starts does not matter |
| ScannerExamples.ReferenceExample | internal/parser/scanner_test.go:120-128 | `...` gives the reference token, then the end-of-input token |
| ScannerExamples.TwoDotsExample | internal/parser/scanner.go:228-237 | `..` gives the malformed-ellipsis error |
| ScannerExamples.FourDotsExample | internal/parser/scanner.go:228-237 | `....` gives the malformed-ellipsis error |
| ScannerExamples.InconsistentDedentExample | internal/parser/scanner.go:144-153 | Width 2 under `[0, 4]`: one dedent token, then "Inconsistent dedent. Expecting 0 but found 2." |
| ScannerExamples.RunawayQuoteExample | internal/parser/scanner_test.go:152-166 | The unclosed quote gives the identifier, `=`, then "Runaway quote: one attr2='2' attr3=" |
| ContentModels.GetSep | internal/parser/element.go:85-93 | Choice and all lists each have their own separator; every separator ends with a space and holds no parenthesis |
| ContentModels.String | internal/parser/element.go:50-55 | A missing fragment renders `EMPTY`; a fragment with a multiplicity ends with its mark |
| ContentModels.BaseString | internal/parser/element.go:57-83 | A sequence and a one-child group are written in parentheses; choice, all, a group of other than one child and an unknown fragment give `EMPTY` |
| ContentModels.ChildStrings | internal/parser/element.go:74-78 | The k-th part is the rendering of the k-th child |
| ContentModels.WriteList | internal/parser/element.go:70-80 | The buffer loop writes `(`, the children's renderings joined by the separator, then `)`, which is what `BaseString` gives a sequence |
| ContentModels.WriteStep | internal/parser/element.go:75-78 | Each pass of the buffer loop extends the text by a separator and the next child's rendering |
| ContentModels.SequenceBase | internal/parser/element.go:70-80 | A sequence's base text is its children's renderings joined by its separator, in parentheses |
| ContentModels.JoinSnoc | internal/parser/element.go:75-78 | One more child adds a separator and its rendering |
| ContentModels.Rendering | internal/parser/element.go:50-55 | A nil model renders `EMPTY`; any other renders its base text followed by nothing, `?`, `*` or `+` |
| ContentModels.LeafRendering | internal/parser/element.go:59-62 | `#PCDATA` renders `(#PCDATA)`; an element fragment renders the element's name |
| ContentModels.SingleGroupRendering | internal/parser/element.go:63-66 | A group of one child renders the child in parentheses |
| ContentModels.SequenceRendering | internal/parser/element.go:70-80 | A sequence renders its children, comma-separated, in parentheses |
| ContentModels.Separators | internal/parser/element.go:85-93 | The bar between spaces for choice, `&` between spaces for all, a comma and a space otherwise |
| ContentModels.EmptyCases | internal/parser/element.go:67-82 | As written, choice, all, a group of other than one child, and an unknown fragment render `EMPTY` |
| ContentModels.ChoiceRendersEmpty | internal/parser/element.go:68-82 | The choice of `a` and `b` renders `EMPTY` |
| ContentModels.FixedString | internal/parser/element.go:50-55 | Corrected: a missing fragment renders `EMPTY`; a fragment with a multiplicity ends with its mark |
| ContentModels.FixedBaseString | internal/parser/element.go:57-83 | Corrected: every group, sequence, choice and all list is written in parentheses; an unknown fragment gives `EMPTY` |
| ContentModels.FixedChildStrings | internal/parser/element.go:74-78 | The k-th part is the corrected rendering of the k-th child |
| ContentModels.FixedListRendering | internal/parser/element.go:63-80 | Corrected: every group, sequence, choice and all list renders its children joined by its separator, in parentheses |
| ContentModels.FixedChoiceExample | internal/parser/element.go:68-80 | Corrected: the choice of `a` and `b` with `*` renders `a` and `b` separated by a spaced bar, in parentheses, followed by `*` |
| ContentModels.AgreesWhereUnaffected | internal/parser/element.go:57-83 | Both renderings agree on every tree where no choice, all or several-child group is rendered |
| ContentModels.AffectedDiffers | internal/parser/element.go:63-82 | On a choice, all or several-child group the two renderings differ |
| ContentModels.FixedBalanced | internal/parser/element.go:57-83 | With element names free of parentheses, the corrected rendering has as many `)` as `(` |

## Left out

- The goroutine, the bounded channel, `NextToken` and the closing of the channel (lexer.go:103-121) are not modelled: they are concurrency. Tokens are appended to a sequence in delivery order, and the driver is a plain loop.
- UTF-8 decoding is not modelled, because the source is a sequence of code points. `Next` and `Backup` move one rune at a time; rune widths and invalid encodings are not modelled.
- The tables `unicode.IsLetter`, `unicode.IsDigit` and `strconv.IsPrint` are parameters, not Unicode data.
- The `TokenTypeStringer` hook (lexer.go:65-76) is not modelled: it is a global variable that no core file sets. `Token.String` renders the type through `TokenType.String`.
- The global `TokenName` registry and the `init` registration are not modelled as state. The rendering functions take the registry as a map. The names the scanner's `init` registers are the constant map `ScannerNames`; the registration itself, a write to a global, is not modelled.
- A Go panic is modelled as the state `Panic`, which ends the session. Its message is not modelled.
- Lexer.Lex.Next requires that the end rune has not been read yet. The Go code panics when called past the end, and no scanner state does that.
- Lexer.Lex.AcceptRun requires, when NUL is one of the runes to accept, that the run stops before the end. Otherwise the Go loop reads past the end and panics (lexer.go:225). No scanner state passes NUL to it.
- Tokens.Itoa: its own contract says only that the text is not empty. This keeps cheap the proofs about every message that embeds a number. What `strconv.Itoa` promises is stated by `ItoaRoundTrip`, `ItoaInjective` and `ItoaHasNoSpace`.
- The multiplicity of a fragment is one of the four values the parser stores (none, `?`, `*`, `+`). The Go type is a string and could hold any other text, which would be written after the fragment as it is.
- The model has no state-function values: the `startState` of `New` is the `init` argument of `Start`, and `State` enumerates the scanner's states.
- `internal/parser/parser.go` and `internal/parser/attribute.go` are not part of this model. An element's attributes and its own content model are not read by the printer.
- ContentModels.Renderable excludes an element fragment without an element and a sequence without children. In Go these dereference nil or index an empty slice.
- Pointer identity and sharing between fragments are not modelled: a fragment is a tree value, and a nil child is `Nil`, which renders `EMPTY`.

## Findings

| source | as written | input that shows it | evidently intended | confidence | as-written member | corrected member |
|---|---|---|---|---|---|---|
| internal/parser/element.go:67-69 | `case choiceModelType:` and `case allModelType:` have empty bodies, and Go cases do not fall through. A choice, an all list, and a group of several children (whose `fallthrough` lands in the empty choice case) leave the switch and return `EMPTY` | the choice of elements `a` and `b`: `Node([a, b], None, ChoiceModel, Single)` renders `EMPTY` | `a` and `b` separated by a spaced bar, in parentheses: these cases share the sequence's join with their own separator, as `getSep` and the `fallthrough` show | not executed | ContentModels.ChoiceRendersEmpty | ContentModels.FixedListRendering |
