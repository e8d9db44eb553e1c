# ts2asm lexer and parser core in Dafny

This project models the lexing and parsing toolkit of ts2asm, a TypeScript
library, and proves properties about it:

- **Tokens** (`Tokens`): a type tag, optional text and a line stamp, and the `is(type?, data?)` match.
- **Scanner** (`Scanning`): an insertion-ordered table of named passes. `next()` tries the passes in order. The first one that succeeds names the token, and its read counts move the offset and the line counter. When no pass succeeds, `next()` yields an "error" token with a diagnostic.
- **TypeScript scanner** (`TypeScriptLang`): eight passes registered in a fixed order. They recognise number literals, identifiers, string literals, operators, brackets, parentheses, terminators and whitespace. Each pass is a function of (text, offset) and is what the table holds. Each loop in the source is a method proved equal to that function.
- **Tokenizer** (`Tokenizing`): runs `next()` while text remains. It stops at the first error token and drops the tokens whose type is in `skipTypes`.
- **Accessors** (`Accessors`): a cursor over a copied array, and `Staccessor`, the same cursor with a stack of saved offsets.
- **Grammar** (`Grammar`): languages, statement templates and requirements, as live objects and as their JSON definitions.
- **Parser** (`Parsing`): a backtracking matcher. It tries the templates in order at the cursor and rolls the cursor back after each failed attempt.
- **Legacy statements** (`LegacyStatements`): the earlier statement and template classes of `src/parser/statement.ts`.
- **Scenario** (`Scenarios`): one end-to-end example. The TypeScript passes tokenize `x=5;`, and a grammar with one assignment template parses the resulting tokens to the end.

Objects whose methods update fields are classes: `Scanner`, `Accessor`, `Staccessor`, `Requirement`, `StatementTemplate` and `Language` in the grammar, `Parser`, and the legacy `Statement` and `StatementTemplate`. The loops of `next()`, the tokenizer, the TypeScript passes and the parser are methods with invariants, proved against specification functions: `NextStep`, `ScanAll`, `CappedRun`, `StringPass`, `WhitespacePass`, `FindIn`, `MeetReqs` and `ParseFrom`. Lemmas state the properties of those functions. The `fromJSON` loops are proved against direct postconditions instead, and the `setItems` copy is specified by the function `Copy`.

JavaScript values are modelled as follows:
- `undefined` is `Option.None`.
- A method that may throw returns an `Outcome` (`Pass` or `Fail(message)`), or a `Result`. The thrown messages are the source's own strings.
- A JavaScript `Map` or `Set` that iterates in insertion order is a sequence without repeats.

Where the design and the code differ, the model follows the code:

- `Language.addStatementTemplate` checks for a duplicate but never inserts the template. As a result, `Language.fromJSON` produces a language with no templates (`Grammar.Language.FromJSON`).
- The abstract flag of a template is stored but never consulted, and `repeat` is stored but ignored by the parser.
- At or past the end of the text, `next()` does not yield an end-of-file token. The operator pass "succeeds" there, because `"...".includes("")` is true, so the token is `"oper"` with empty data (`TypeScriptLang.NextAtEndYieldsOperator`).
- In the string pass, the escape flag outlives the escaped quote itself. So `"\""` never closes (`TypeScriptLang.StringPassEscapeOutlivesQuote`).
- The parser's cursor differs in four ways:
  - `Parser.parse` builds a plain `Accessor`, yet calls `save`, `restore` and `restore(true)`, which only a `Staccessor` has. The model uses a `Staccessor`.
  - In the code, `restore(true)` on a `Staccessor` would ignore its argument and rewind, since JavaScript drops extra arguments. The model follows the intent stated in the comment at `src/parser/parser.ts:42`: pop the stack without moving (`Accessors.Staccessor.Discard`).
  - The calls to `slice`, `getLastSave` and `getOffset` at `src/parser/parser.ts:37-40` exist on neither accessor and would raise TypeErrors. They only feed a log line, so they are dropped.
  - `Staccessor.stack` is never initialised in the source, so `save()` would throw. The model starts it empty.
- The parser calls getters (`getStatementTemplates`, `getRequirements`, `getTokenType`, and others) that `src/parser/language.ts` does not define. The model reads the corresponding fields instead, through a value snapshot of the language taken when `parse` starts.
- Reading past the last token gives `undefined`. A requirement that constrains the token then raises a TypeError, which the model records as the `Threw` and `Crashed` outcomes.

## Model

| member | source | states |
|---|---|---|
| Tokens.NewToken | src/tokenizer/token.ts:7-9 | a new token has the given type and no data, line or line char |
| Tokens.Is | src/tokenizer/token.ts:10-19 | `is` holds iff every supplied argument equals the token's field; omitted ones match anything |
| Tokens.IsWithoutArguments | src/tokenizer/token.ts:10-19 | with both arguments omitted every token matches |
| Tokens.IsTypeOnly | src/tokenizer/token.ts:10-14 | with only a type, the match is exactly a type comparison |
| Tokens.IsMismatchForcesFalse | src/tokenizer/token.ts:12-17 | any supplied argument that differs makes the match false, whatever the other is |
| Tokens.StandardTagsDistinct | src/tokenizer/token.ts:20-33 | the seven standard type tags are pairwise distinct |
| Scanning.Names | src/tokenizer/scanner.ts:26 | the pass table's names, one per entry, in insertion order |
| Scanning.IndexOf | src/tokenizer/scanner.ts:61-63 | a present name is found at the first entry carrying it |
| Scanning.SetEntry | src/tokenizer/scanner.ts:53-56 | `Map.set`: an existing name keeps its place with the new pass, a new name goes at the end, other entries are unchanged |
| Scanning.RemoveEntry | src/tokenizer/scanner.ts:64-68 | `Map.delete`: one entry fewer, those before it stay, those after it move up by one |
| Scanning.SetEntryKeepsNamesDistinct | src/tokenizer/scanner.ts:53-56 | setting a pass keeps the names distinct and adds the name only if it was new |
| Scanning.RemoveEntryKeepsOthers | src/tokenizer/scanner.ts:64-68 | deleting keeps names distinct, removes that name, and keeps every other name present iff it was |
| Scanning.FirstMatch | src/tokenizer/scanner.ts:95-110 | the index of the first pass in table order that succeeds, all earlier ones failing; None iff every pass fails |
| Scanning.ErrorMessage | src/tokenizer/scanner.ts:111-115 | the diagnostic opens with a quote and the next six characters of the text (none past its end), followed by `..."` |
| Scanning.NextStep | src/tokenizer/scanner.ts:82-118 | the counters of a step never move back, and exactly the tokens made by a pass carry a line stamp (the error token has none) |
| Scanning.FirstMatchAt | src/tokenizer/scanner.ts:95-110 | a pass that succeeds after only failures is the first match |
| Scanning.FirstMatchNone | src/tokenizer/scanner.ts:111-115 | when every pass fails there is no first match |
| Scanning.NextStepFirstMatchWins | src/tokenizer/scanner.ts:82-118 | at any offset, including at or past the end, the first succeeding pass names the token, its data is the consumed slice, offset and line counter move by what it read, the line stamp is the new counter; with no success the token is "error" and nothing moves |
| Scanning.Scanner.constructor | src/tokenizer/scanner.ts:32-37 | no passes, no data, offset and counters zero |
| Scanning.Scanner.AddPass | src/tokenizer/scanner.ts:44-48 | throws exactly when the name is taken (table unchanged, the source's message); otherwise appends the pass at the end; names stay distinct |
| Scanning.Scanner.SetPass | src/tokenizer/scanner.ts:53-56 | the table becomes `SetEntry` of the old one, names stay distinct, nothing else changes |
| Scanning.Scanner.RemovePass | src/tokenizer/scanner.ts:64-68 | throws exactly when the name is absent; otherwise the entry is gone and the rest of the table is kept |
| Scanning.Scanner.SetData | src/tokenizer/scanner.ts:69-72 | replaces the text and leaves offset and line counter as they were |
| Scanning.Scanner.Next | src/tokenizer/scanner.ts:82-118 | throws without text; otherwise returns the token and new offset/line counter of `NextStep`, having called exactly the passes up to the first success |
| TypeScriptLang.RunLength | src/langs/typescript/typescript.ts:36-45 | the run starting at `i` lies inside the bound, is made of the class's characters, and is maximal |
| TypeScriptLang.CappedRun | src/langs/typescript/typescript.ts:33-54 | the maximal run of the class at the offset, capped at 309 characters, within the text; success iff non-empty; no lines; no match past the end |
| TypeScriptLang.ScanCappedRun | src/langs/typescript/typescript.ts:26-85 | the number and identifier closures' loop computes `CappedRun` |
| TypeScriptLang.NumberPass | src/langs/typescript/typescript.ts:26-55 | the number pass reads the maximal run of digits capped at 309, succeeds iff it is non-empty, never counts lines |
| TypeScriptLang.IdentifierPass | src/langs/typescript/typescript.ts:56-85 | the same for letters, digits and `_` |
| TypeScriptLang.StringBody | src/langs/typescript/typescript.ts:108-124 | the scan after the opening quote counts no lines; a failure has read everything to the end; a success reads at least one more character and stops on the quote |
| TypeScriptLang.StringPass | src/langs/typescript/typescript.ts:86-125 | no match unless the text at the offset is a quote; on success at least both delimiters are read, within the text, ending on the opening quote character |
| TypeScriptLang.ScanString | src/langs/typescript/typescript.ts:86-125 | the string closure's loop computes `StringPass` |
| TypeScriptLang.StringBodyFacts | src/langs/typescript/typescript.ts:108-124 | after the opening quote, success ends on an unescaped closing quote inside the text; failure has run to the end |
| TypeScriptLang.StringPassDelimiters | src/langs/typescript/typescript.ts:86-125 | fails unless the text opens with a quote; on success reads both delimiters, ends on the opening quote character not preceded by a backslash, and counts no lines |
| TypeScriptLang.StringPassNeedsClosingQuote | src/langs/typescript/typescript.ts:108-124 | without a later matching quote the string pass fails |
| TypeScriptLang.StringPassSkipsEscapedQuote | src/langs/typescript/typescript.ts:116-119 | an escaped quote does not close a literal: `"a\"b"` is read whole |
| TypeScriptLang.StringPassEscapeOutlivesQuote | src/langs/typescript/typescript.ts:110-120 | the escape flag survives the escaped quote, so `"\""` does not close |
| TypeScriptLang.OperatorPass | src/langs/typescript/typescript.ts:126-137 | succeeds reading one character iff the character is an operator (see `SingleCharPassesInsideText`) |
| TypeScriptLang.SingleCharPass | src/langs/typescript/typescript.ts:126-173 | the shared body of the four single-character passes: success iff the offset is at or past the end or the character there is in the set; a success reads exactly one character and no line, a failure is the no-match result (see also `SingleCharPassesInsideText`, `SingleCharPassesPastEnd`) |
| TypeScriptLang.BracketPass | src/langs/typescript/typescript.ts:138-149 | the same for brackets |
| TypeScriptLang.ParenthesisPass | src/langs/typescript/typescript.ts:150-161 | the same for parentheses |
| TypeScriptLang.TerminatorPass | src/langs/typescript/typescript.ts:162-173 | the same for terminators |
| TypeScriptLang.SingleCharPassesInsideText | src/langs/typescript/typescript.ts:126-173 | before the end, each single-character pass succeeds iff the character is in its set, and then reads exactly one character |
| TypeScriptLang.SingleCharPassesPastEnd | src/langs/typescript/typescript.ts:132 | at or past the end every single-character pass succeeds with one character read |
| TypeScriptLang.ScanWhitespace | src/langs/typescript/typescript.ts:174-199 | the whitespace closure's loop computes `WhitespacePass` |
| TypeScriptLang.WhitespacePass | src/langs/typescript/typescript.ts:174-199 | reads the maximal uncapped run of spaces and newlines, counts its newlines as lines, succeeds iff non-empty; no match past the end |
| TypeScriptLang.TypeScriptPasses | src/langs/typescript/typescript.ts:24-200 | the table of eight passes, in registration order, under distinct names |
| TypeScriptLang.NewTypeScriptScanner | src/langs/typescript/typescript.ts:24-200 | a fresh scanner holding the eight passes in registration order; no `addPass` throws |
| TypeScriptLang.AddNextPass | src/langs/typescript/typescript.ts:26-174 | each registration finds its name free and appends its pass |
| TypeScriptLang.NameNotYetAdded | src/langs/typescript/typescript.ts:15-23 | each pass name differs from all names registered before it |
| TypeScriptLang.TypeScriptPassesWellBehaved | src/langs/typescript/typescript.ts:24-200 | every pass that succeeds before the end reads between one and the remaining characters |
| TypeScriptLang.DigitIsClaimedByNumberPass | src/langs/typescript/typescript.ts:26-85 | registration order decides overlaps: a digit is claimed by the number pass, not the identifier pass |
| TypeScriptLang.NextAtEndYieldsOperator | src/tokenizer/scanner.ts:88-110 | at the end of the text `next()` yields an "oper" token with empty data, not an end-of-file token |
| TypeScriptLang.PassesPastEnd | src/langs/typescript/typescript.ts:26-137 | past the end the number, identifier and string passes fail and the operator pass succeeds |
| Tokenizing.NextStepAdvances | src/tokenizer/scanner.ts:95-115 | when every pass consumes something, a step moves forward on every non-error token; when passes also stay inside the text, it ends inside it and the token's data is the consumed slice |
| Tokenizing.ScanAll | src/tokenizer/tokenizer.ts:13-29 | the loop emits no error tokens, never moves back, ends at or past the end unless rejected, and ends inside the text when every pass stays inside it |
| Tokenizing.Show | src/tokenizer/tokenizer.ts:16 | `${token.data}`: the data itself when present, the text "undefined" when absent; `Tokenize` rejects with this text |
| Tokenizing.OvershootEndsScan | src/tokenizer/tokenizer.ts:13-31 | a pass claiming more than remains ends the loop: the scan resolves with that token last, holding the rest of the text |
| Tokenizing.ScanAllUnfold | src/tokenizer/tokenizer.ts:13-18 | one turn of the loop: an error ends it with the token's data, otherwise the token precedes the rest of the scan |
| Tokenizing.ScanAllCoversText | src/tokenizer/tokenizer.ts:13-29 | without an error, the tokens' texts spell out the rest of the input exactly and the scan ends at its end |
| Tokenizing.ScanAllStopsAtNoMatch | src/tokenizer/tokenizer.ts:15-18 | where no pass matches, the scan rejects with the scanner's diagnostic and keeps no tokens |
| Tokenizing.Keep | src/tokenizer/tokenizer.ts:20-28 | without `skipTypes` every token is kept; the filter never adds tokens |
| Tokenizing.KeepSnoc | src/tokenizer/tokenizer.ts:20-28 | each further token is appended unless its type is skipped |
| Tokenizing.KeepSelects | src/tokenizer/tokenizer.ts:20-28 | a token survives iff it was scanned and its type is not skipped |
| Tokenizing.KeepNothingSkipped | src/tokenizer/tokenizer.ts:20-28 | a filter naming none of the tokens' types keeps the list unchanged |
| Tokenizing.ContinuesStep | src/tokenizer/tokenizer.ts:13-29 | the loop invariant (emitted tokens followed by the scan from here) survives a step, and an error step ends the run |
| Tokenizing.Tokenize | src/tokenizer/tokenizer.ts:5-33 | rejects with the error token's data if the scan hits one, otherwise resolves with the kept tokens; the scanner ends at the scan's offset and line counter |
| JsStrings.Substring | src/tokenizer/scanner.ts:101-104 | `substring`: the slice between the bounds, with bounds clamped to the text and swapped when out of order |
| JsStrings.CharAt | src/langs/typescript/typescript.ts:37 | `charAt`: the one-character string inside the text, the empty string outside it |
| JsStrings.Includes | src/langs/typescript/typescript.ts:37 | `includes` with a needle of at most one character: the empty needle is always included, and a one-character needle is included iff it occurs at some index |
| JsStrings.NatToString | src/tokenizer/scanner.ts:114 | a number in a template literal: decimal digits, one digit below ten, no leading zero otherwise |
| JsStrings.NatToStringRoundTrip | src/tokenizer/scanner.ts:114 | reading the digits back gives the number |
| Accessors.Copy | src/accessor.ts:20-24 | the copy has every item, in place |
| Accessors.Accessor.constructor | src/accessor.ts:6-9 | `size` empty slots, offset 0 |
| Accessors.Accessor.SetOffset | src/accessor.ts:10-13 | the offset becomes the argument, items unchanged |
| Accessors.Accessor.Rewind | src/accessor.ts:14-18 | moves back by `count`, stopping at 0 |
| Accessors.Accessor.SetItems | src/accessor.ts:20-24 | items become a copy of the array, offset unchanged |
| Accessors.Accessor.Next | src/accessor.ts:26-30 | returns what `peak` gave and advances exactly one place |
| Accessors.PeakAgreesWithHasNext | src/accessor.ts:32-38 | on copied items, `peak` finds an item iff `hasNext`, and it is the item at the offset |
| Accessors.Staccessor.constructor | src/accessor.ts:47-49 | an empty cursor of `size` slots with an empty stack |
| Accessors.Staccessor.Save | src/accessor.ts:51-54 | pushes the current offset |
| Accessors.Staccessor.Restore | src/accessor.ts:56-59 | pops the latest save into the offset |
| Accessors.Staccessor.Discard | src/parser/parser.ts:42-43 | `restore(true)`: pops the latest save and keeps the offset |
| Accessors.SaveAdvanceRestore | src/accessor.ts:50-59 | save, any number of `next` calls, restore: offset and stack are back as they were |
| Grammar.Requirement.constructor | src/parser/language.ts:170-172 | every field is unset |
| Grammar.Requirement.SetType | src/parser/language.ts:173-176 | sets only the type |
| Grammar.Requirement.SetTokenType | src/parser/language.ts:177-180 | sets only the token type |
| Grammar.Requirement.SetTokenData | src/parser/language.ts:181-184 | sets only the token data |
| Grammar.Requirement.SetStatementId | src/parser/language.ts:185-188 | sets only the statement id |
| Grammar.Requirement.SetRepeats | src/parser/language.ts:189-192 | sets only the repeat count |
| Grammar.Requirement.FromJSON | src/parser/language.ts:193-203 | a fresh requirement holding every member of the definition unchanged (no default repeat) |
| Grammar.Copied | src/parser/language.ts:193-203 | the value a requirement built from a definition holds: the type is present, and reading the five members back gives the definition unchanged |
| Grammar.RequirementValues | src/parser/language.ts:128 | the requirements' field values, one per requirement, in order |
| Grammar.StatementTemplate.constructor | src/parser/language.ts:130-133 | the id is set, there are no requirements and no abstract flag |
| Grammar.StatementTemplate.SetAbstract | src/parser/language.ts:134-137 | sets the abstract flag only |
| Grammar.StatementTemplate.AddRequirement | src/parser/language.ts:144-148 | throws exactly for an object already listed (list unchanged); otherwise appends it; no object is listed twice |
| Grammar.StatementTemplate.FromJSON | src/parser/language.ts:149-160 | keeps id and abstract flag, and builds one fresh requirement per definition, in order, each a copy of it; no duplicate throw |
| Grammar.TemplateValues | src/parser/language.ts:83 | the templates' values, one per template, in iteration order |
| Grammar.Language.constructor | src/parser/language.ts:85-88 | the name is set and there are no templates |
| Grammar.Language.AddStatementTemplate | src/parser/language.ts:95-98 | throws exactly for a template already present; never inserts |
| Grammar.Language.CreateStatementTemplate | src/parser/language.ts:99-103 | returns a fresh template with that id and no requirements; adding it does not throw |
| Grammar.Language.FromJSON | src/parser/language.ts:104-114 | keeps the name; no template definition ends up in the language |
| Grammar.Language.Snapshot | src/parser/parser.ts:30 | stands in for the missing `getStatementTemplates()`: one value per template in the Set's iteration order, each the template's current id and requirement values |
| Parsing.TokenMeetRequirement | src/parser/parser.ts:52-57 | the check holds iff the token has the required type and data where required; it throws iff the token is undefined and something is required |
| Parsing.PeakAt | src/accessor.ts:36-38 | `peak()` as a value: the item at the position inside the array, and undefined whenever the position is outside it |
| Parsing.TokenMeetRequirementIsTokenIs | src/parser/parser.ts:52-57 | on a present token the check is `token.is(tokenType, tokenData)` |
| Parsing.FindIn | src/parser/parser.ts:28-49 | a match never ends before its start |
| Parsing.MeetReqs | src/parser/parser.ts:60-76 | a match never ends before its start |
| Parsing.TokenRequirementsConsumeOneEach | src/parser/parser.ts:61-69 | token requirements match iff each token in turn meets its requirement, consuming one token per requirement |
| Parsing.StatementRequirementEndsTheList | src/parser/parser.ts:70-73 | nothing after the first statement requirement is looked at |
| Parsing.FindInAppend | src/parser/parser.ts:28-49 | templates are tried in order and the first outcome other than no-match is final |
| Parsing.FirstMatchingTemplateWins | src/parser/parser.ts:30-45 | the first candidate template whose requirements match decides the result |
| Parsing.Candidates | src/parser/parser.ts:31 | exactly the templates the id filter lets through |
| Parsing.Candidate | src/parser/parser.ts:31 | a template is tried whenever the id is absent or empty, and otherwise iff its id equals the one asked for (see also `SearchByIdTriesOnlyThatId`) |
| Parsing.SearchByIdTriesOnlyThatId | src/parser/parser.ts:30-31 | searching by id equals searching only the templates with that id; the abstract flag plays no part |
| Parsing.UnknownIdNeverMatches | src/parser/parser.ts:30-31 | an id no template carries never matches |
| Parsing.ParseFrom | src/parser/parser.ts:82-87 | finishing means every token consumed; failing means a position before the end where no template matches |
| Parsing.EmptyGrammarFailsAtStart | src/parser/parser.ts:82-87 | with no templates, a non-empty token list fails at the first token |
| Parsing.ZeroWidthMatchNeverEnds | src/parser/parser.ts:82-87 | a template matching without consuming keeps `parse` in place for every step it is given |
| Parsing.Parser.constructor | src/parser/parser.ts:14-16 | empty statement stack, nothing else set |
| Parsing.Parser.Save | src/parser/parser.ts:17-21 | throws exactly when there is no current statement; otherwise pushes it |
| Parsing.Parser.Restore | src/parser/parser.ts:22-25 | pops the latest statement into the current one, `undefined` on an empty stack |
| Parsing.Parser.FindMatchingTemplate | src/parser/parser.ts:28-49 | returns `FindIn`'s outcome; on no match the cursor is back where it was; on a match it sits at the match's end; the save stack is restored |
| Parsing.Parser.MeetTemplateRequirements | src/parser/parser.ts:60-76 | returns `MeetReqs`'s outcome and, on a match, leaves the cursor at its end |
| Parsing.Parser.Parse | src/parser/parser.ts:78-88 | reads the language's templates, copies the tokens under a fresh cursor, and ends as `ParseFrom` does, cursor at that position |
| LegacyStatements.Statement.constructor | src/parser/statement.ts:7-9 | the type is "error" |
| LegacyStatements.Statement.SetType | src/parser/statement.ts:10-13 | sets the type |
| LegacyStatements.IndexOf | src/parser/statement.ts:38 | -1 iff absent; otherwise the first position holding the item |
| LegacyStatements.RemoveFirst | src/parser/statement.ts:40 | removes the first copy and keeps everything else in order |
| LegacyStatements.RemoveFirstTakesOneCopy | src/parser/statement.ts:37-45 | removal takes exactly one copy away |
| LegacyStatements.RemoveAfterAppend | src/parser/statement.ts:32-45 | add then remove gives the list back for a new item; for a repeated one it removes the earlier copy |
| LegacyStatements.StatementTemplate.constructor | src/parser/statement.ts:21-23 | no expression templates |
| LegacyStatements.StatementTemplate.Parse | src/parser/statement.ts:24-28 | always a new statement of type "error" |
| LegacyStatements.StatementTemplate.AddExpressionTemplate | src/parser/statement.ts:32-36 | appends, even an item already present |
| LegacyStatements.StatementTemplate.RemoveExpressionTemplate | src/parser/statement.ts:37-45 | throws exactly for an absent item (list unchanged); otherwise removes its first copy |
| LegacyStatements.StatementTemplate.CreateExpressionTemplate | src/parser/statement.ts:46-50 | appends a fresh expression template and returns it |
| Scenarios.TokenizeAssignment | src/langs/typescript/typescript.ts:24-200 | scanning `x=5;` yields an identifier, an operator, a number and a terminator, with no error |
| Scenarios.ScanAssignmentFrom | src/tokenizer/tokenizer.ts:13-29 | from any offset into `x=5;` the scan yields the remaining tokens |
| Scenarios.AssignmentStep | src/tokenizer/scanner.ts:95-110 | at each offset of `x=5;` the step emits the expected one-character token |
| Scenarios.ParseAssignment | src/parser/parser.ts:78-88 | a one-template assignment grammar parses those four tokens to the end |
| Scenarios.TokenizeThenParse | src/tokenizer/tokenizer.ts:5-33 | tokenizing `x=5;` with whitespace skipped and parsing the kept tokens consumes them all |

## Left out

- Characters are Unicode code points, while JavaScript strings count UTF-16 code units. For text outside the Basic Multilingual Plane, these quantities differ from the source: `length`, `charAt`, `substring`, the scanner offset, `readChars`, `available()`, the 309-character cap on number and identifier runs, and the six-unit excerpt in the error diagnostic. Lone surrogates cannot be represented.
- Time, I/O and asynchrony: `tokenizer` returns a Promise, which is modelled as a `Result` value. The parser's `console.log` calls are dropped.
- `ScannerData.token` and `Token.lineChar`: the core never assigns or reads them. `readLineChars` is kept but never changes.
- Pass results are assumed to be natural counts: `readChars` and `readLines` are `nat`. A custom pass returning a negative or fractional count is not modelled, and `NextStep`'s promise that the counters never move back rests on this.
- `next()` resetting an `undefined` offset to 0: offsets are always natural numbers here.
- The end-of-file token built when the offset is past the end: the model builds it too, but the pass loop always replaces it, so it never shows in a contract.
- `src/parser/expression.ts` is not part of this model. Expression templates are objects with no state. The `TokenAccessor` argument of the legacy `parse` is unused in the source and left out.
- Default parameters (`Token(type = undefined)`, `rewind(count = 1)`, `Accessor(size = 0)`): callers pass the value explicitly.
- Fluent `this` returns: setters return `this` as `self` and the source's call chains are written as separate calls. `Parser.save` returns `undefined` in the source, and the model returns an `Outcome`.
- Parsing.FindIn, Parsing.MeetReqs: nesting is bounded by a `fuel` depth, and running out counts as no match. The unbounded recursion of a self-referencing grammar is not modelled.
- Parsing.ParseFrom, Parsing.Parser.Parse: the loop is bounded by `steps`. Running out gives `OutOfSteps`, where the source would loop forever (see `ZeroWidthMatchNeverEnds`).
- Tokenizing.Tokenize, Tokenizing.ScanAll: these require every pass to consume at least one character when it succeeds before the end of the text (`AllAdvance`). A pass reading zero characters makes the source loop forever. A pass reading more than remains is allowed (`OvershootEndsScan`). Only `ScanAllCoversText` also needs the passes to stay inside the text (`WellBehaved`). The TypeScript passes meet both (`TypeScriptPassesWellBehaved`).
- Accessors.Staccessor.Restore: requires a non-empty stack. Popping an empty JavaScript array would set the offset to `undefined`.
- Query methods with no contract of their own: `hasPass`, `hasData`, `available`, `peak`, `hasNext`, `isAbstract`, `hasRequirement`, `getName`, `hasStatementTemplate`, `hasExpressionTemplate` and `getType`. They are one-line reads used by the contracts above.
- The `keyw` tag is declared but no pass produces it, so it appears only as a constant.
