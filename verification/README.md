# iku blank-line formatter, modelled in Dafny

iku reformats source text by deciding where blank lines go. The text is
first canonicalised (for Go, by `go/format`). A language adapter then turns
every line into a *line event*, a record of what the line is:
- blank, or inside a raw string;
- a comment;
- an opening or closing brace, or a case label;
- a package clause;
- its statement type, whether it is top-level and whether it is scoped.

A language-independent engine then walks the events and writes every kept line.
- It puts one blank line between statements of different types.
- It puts one around scoped statements and between top-level declarations of different kinds.
- It never puts one right after an opening brace or label, nor before a closing brace or label.
- It copies raw-string lines verbatim and drops all other blank lines.
- In "comments follow" mode it glues a comment to the code it precedes, looking ahead to that code.

The model covers:
- the line recognisers;
- the line event and the engine's pass;
- the Go adapter's line loop and the comment-mode mapping;
- the ECMAScript adapter, with its statement classifier;
- the legacy rewriter, which makes the same decisions directly on text lines.

A parity theorem states that, in each of the three comment modes, the legacy
rewriter produces exactly the engine's output over the Go adapter's events,
on any text whose raw strings are all closed by its end and in which no
comment line read outside a raw string holds an odd number of raw-string
delimiters. The line table is arbitrary.

Modules, one per source file:
- `Text` (`text.dfy`): the pieces of Go's `strings` package the code uses, namely trimming, prefix tests, splitting and joining.
- `Patterns` (`patterns.dfy`): `patterns.go`.
- `Events` (`event.dfy`): `engine/event.go`.
- `Engine` (`engine.dfy`): `engine/engine.go`.
- `EngineLaws` (`engine_laws.dfy`): properties of the pass.
- `EngineExamples` (`engine_examples.dfy`): the cases of `engine/engine_test.go`.
- `EcmaScript` (`adapter_ecmascript.dfy`): `adapter_ecmascript.go`.
- `EcmaScriptExamples` (`adapter_ecmascript_examples.dfy`): the classifier cases of `adapter_ecmascript_test.go`.
- `GoAdapter` (`adapter_go.dfy`): the line loop of `adapter_go.go` and `MapCommentMode`.
- `Rewrite` (`rewrite.dfy`): `rewrite.go`.
- `Parity` (`parity.dfy`): the legacy rewriter of `rewrite.go`, which no longer has a caller, agrees with the engine. `parity_test.go` as written does not test this: its "old" side is `Formatter.Format` (formatter.go:24-35), which itself runs the Go adapter and the engine, so the test compares the engine with itself.
- `ParityExamples` (`parity_examples.dfy`): the raw-string input of `parity_test.go` meets the parity condition, so the rewriter and the engine agree on it for every line table.
- `Wrappers` (`wrappers.dfy`): `Option` and `Result`.

Both passes are written as pure functions.
- The engine is a suffix recursion, `Engine.Run(eng, events, state)`.
- The rewriter is a prefix recursion, `Rewrite.RunTo(job, n)`.

Each has an abstract *plan*: the kept lines in order, each flagged with whether a blank line goes before it. The rendered output is proved to be the plan's lines joined by line terminators.

## Model

| member | source | states |
|---|---|---|
| Text.TrimSpace | engine/event.go:23 | the result is the slice of the line between its leading and trailing spaces, with no space at either end, and it is empty exactly when the line is all spaces |
| Text.Split | adapter_go.go:29 | splitting on the line terminator gives one piece more than there are terminators, no piece holds a terminator, and joining the pieces with terminators gives the text back |
| Text.SplitJoin | rewrite.go:115 | splitting the join of a non-empty list of terminator-free lines gives the list back |
| Patterns.SkipWhitespace | patterns.go:36-40 | the forward scan stops at the first non-whitespace byte at or after its start, or at the end |
| Patterns.LastNonWhitespace | patterns.go:69-73 | the backward scan stops at the last non-whitespace byte at or before its start, or at -1 |
| Patterns.IsClosingBrace | patterns.go:7-19 | true exactly when the first non-whitespace byte is `}` or `)`; never on an all-whitespace line |
| Patterns.IsOpeningBrace | patterns.go:21-33 | true exactly when the last non-whitespace byte is `{` or `(`; never on an all-whitespace line |
| Patterns.IsCaseLabel | patterns.go:35-81 | true exactly when, seen from the first non-whitespace byte, the line starts with `case` and whitespace, or with `default`, optional whitespace and `:`, or is indented and ends (whitespace aside) in `:`; never on an all-whitespace line |
| Patterns.DefaultColon | patterns.go:52-66 | the scan after `default` finds `:` exactly when only whitespace lies between them |
| Patterns.CaseLabelFacts | patterns.go:68-78 | the first significant byte is unique, and the backward scan finds `:` exactly when the line's last non-whitespace byte is `:` |
| Patterns.IsCommentOnly | patterns.go:83-95 | true exactly when the first non-whitespace bytes are `//` |
| Patterns.PackageClause | patterns.go:97-99 | applied to the trimmed line, the package test holds exactly when the first non-space byte starts `package ` and something other than spaces follows it |
| Patterns.CountRawStringDelimiters | patterns.go:101-155 | never more than the line's backticks, and all of them when the line holds no quote character |
| Patterns.CountFromBound | patterns.go:106-152 | from any position and lexical context, the scan counts at most the backticks of the rest of the line, and all of them in code with no quote ahead |
| Patterns.QuotedBackticksIgnored | patterns.go:109-147 | backticks inside a closed `"…"` or `'…'` literal (escapes honoured) at the head of a line are not counted |
| Patterns.LiteralEscape | patterns.go:110-113 | inside a literal, a backslash skips the byte after it |
| Patterns.LiteralClosed | patterns.go:116-132 | inside a literal, its own quote character returns the scan to code |
| Patterns.LiteralByte | patterns.go:109-135 | inside a literal, any other byte is skipped, backticks included |
| Patterns.InsideRawSnoc | adapter_go.go:35-40 | the raw-string flag after one more line is the previous flag, toggled when that line holds an odd number of delimiters |
| Patterns.RawParity | adapter_go.go:35-40 | after a list of lines the raw-string flag is set exactly when an odd number of them hold an odd number of delimiters |
| Events.NewLineEvent | engine/event.go:22-30 | the event keeps the line, its trimmed content is the line's trim, it is blank exactly when the line is all spaces (equivalently, when the trim is empty), and no other field is set |
| Engine.FindNextNonComment | engine/engine.go:142-156 | the least index at or after the start whose event is neither blank nor comment-only; -1 exactly when there is none, including past the end |
| Engine.Run | engine/engine.go:18-122 | whatever the events, the written text ends in a line terminator |
| Engine.FormatToString | engine/engine.go:124-131 | the formatted text always ends in a line terminator |
| EngineLaws.FindNextIsFirstSignificant | engine/engine.go:142-156 | the search returns the first significant event of the suffix from its start, as defined independently by recursion on the list |
| EngineLaws.LookaheadIsFirstSignificant | engine/engine.go:72-76 | the comment lookahead reaches the first significant event after the current one |
| EngineLaws.FirstSignificantOfKept | engine/engine.go:142-156 | removing blank non-raw events does not change the first significant event |
| EngineLaws.KeptAppend | engine/engine.go:40-42 | dropping blank events distributes over concatenation |
| EngineLaws.BlankLinesIgnored | engine/engine.go:40-42 | from any state, the output over a list of events equals the output over the same list with its blank non-raw events removed |
| EngineLaws.BlankRunsCollapse | engine/engine.go:40-42 | two event lists that differ only in blank non-raw events format identically, so any run of blank lines collapses |
| EngineLaws.InsertedBlanksIgnored | engine/engine.go:40-42 | inserting blank events anywhere leaves the formatted text unchanged |
| EngineLaws.RawLinesVerbatim | engine/engine.go:28-38 | once output exists, a run of raw-string events writes each line unchanged after a terminator, whatever it contains, and leaves the state for the rest untouched |
| EngineLaws.RawAfterOutput | engine/engine.go:28-38 | once output exists, a raw-string event writes a terminator and its line, and nothing else |
| EngineLaws.PlanKeepsEvents | engine/engine.go:27-119 | the emitted events are exactly the raw-string and non-blank events, in their original order |
| EngineLaws.FormatLayout | engine/engine.go:94-121 | the formatted text is the plan's lines joined by terminators plus a final terminator; the emitted events are the kept events; the first emitted line never gets a blank line |
| EngineLaws.PlanSuppression | engine/engine.go:55 | a blank line only ever goes before a line outside raw strings that is not a closing brace, a case label or a continuation |
| EngineLaws.CarriedSuppression | engine/engine.go:55-106 | after an opening brace or label, or in follow mode after a comment, no blank line goes before the next line outside raw strings |
| EngineLaws.NoBlankAfterOpenerOrComment | engine/engine.go:55-106 | no blank line directly follows an opening-brace or label line (raw lines between aside), and in follow mode none follows a comment line |
| EngineLaws.DecisionRule | engine/engine.go:50-92 | a blank line is needed exactly when the line is not suppressed and either one of the three transitions (top-level type change, scope boundary outside a grouped pair, statement-type change) holds with the previous line not a glued comment, or the comment lookahead demands it |
| EngineExamples.CollapsesBlanks | engine/engine_test.go:14-27 | two blank lines between statements of one type disappear |
| EngineExamples.ScopeBoundary | engine/engine_test.go:29-44 | an `if` block gets a blank line before and after it |
| EngineExamples.StatementTypeTransition | engine/engine_test.go:46-58 | an assignment followed by a `var` gets a blank line between them |
| EngineExamples.SuppressAfterOpenBrace | engine/engine_test.go:60-74 | nothing is separated right after an opening brace |
| EngineExamples.SuppressBeforeCloseBrace | engine/engine_test.go:76-88 | a closing brace is not separated from the line before it |
| EngineExamples.SuppressCaseLabel | engine/engine_test.go:90-103 | case labels and the statement after them are not separated |
| EngineExamples.RawStringPassthrough | engine/engine_test.go:105-120 | raw-string lines, blank ones included, are written verbatim |
| EngineExamples.TopLevelDifferentTypes | engine/engine_test.go:122-136 | a type declaration and a following `var` at top level are separated |
| EngineExamples.CommentLookAhead | engine/engine_test.go:138-153 | a comment before an `if` is separated from the line before it, and the `if` stays glued to the comment |
| EngineExamples.PackageDeclaration | engine/engine_test.go:155-169 | the package clause is separated from the function after it |
| EngineExamples.FormatToStringTerminates | engine/engine_test.go:171-181 | a single package clause formats to itself plus a terminator |
| EngineExamples.FindNextNonCommentExample | engine/engine_test.go:183-202 | the lookahead skips a blank and a comment event to index 3, and gives -1 past the end |
| EcmaScript.KeywordIsWholeWord | adapter_ecmascript.go:185-198 | a keyword matches only when the line ends there or goes on with one of ` `, `(`, `{`, `;`, `<` or tab, so never with an identifier character |
| EcmaScript.ForEachIsNotFor | adapter_ecmascript.go:185-198 | `forEach(` does not match `for`, while `for (…`, `return;` and a bare `do` match their keywords |
| EcmaScript.StripModifiersSuffix | adapter_ecmascript.go:121-135 | removing the `export default `, `export `, `async ` and `declare ` modifiers leaves a suffix of the trimmed line |
| EcmaScript.FirstMatchIndex | adapter_ecmascript.go:137-180 | the search finds the first keyword row that matches the stripped line; it finds none exactly when no row matches |
| EcmaScript.ClassifyByRow | adapter_ecmascript.go:120-183 | when row `i` is the first to match the stripped line, the line gets that row's statement type and scope |
| EcmaScript.ClassifyNoRow | adapter_ecmascript.go:180-182 | when no row matches, the line is unclassified: empty type, not scoped |
| EcmaScript.ClassifyEmptyType | adapter_ecmascript.go:137-182 | the statement type is empty exactly when no keyword row matches the stripped line |
| EcmaScript.ClassifyScope | adapter_ecmascript.go:137-182 | a classification is scoped exactly when its type is one of the eleven block-statement types |
| EcmaScript.KeywordRow | adapter_ecmascript.go:137-180 | every row names a non-empty type, and is scoped exactly when that type is a block-statement type |
| EcmaScript.IsClosingCurlyBrace | adapter_ecmascript.go:226-238 | true exactly when the first non-whitespace byte is `}` |
| EcmaScript.ClosingCurlyIsClosingBrace | adapter_ecmascript.go:226-238 | a closing-curly line is also a closing-brace line for the shared recogniser |
| EcmaScript.ScanCode | adapter_ecmascript.go:79-112 | a code line leaves the continuation flag set to whether it ends one, changes only the statement fields, and sets them by the closing-curly, continuation and classifier branches |
| EcmaScript.ScanLine | adapter_ecmascript.go:17-115 | the event keeps the line and its trim, is blank exactly when the line is all spaces, is raw exactly when a template string was open before the line, and the template flag is toggled by the line's delimiters |
| EcmaScript.TemplateStringLine | adapter_ecmascript.go:27-32 | a line read inside a template string becomes a bare raw event and changes only the template flag |
| EcmaScript.BlankLine | adapter_ecmascript.go:34-38 | a blank line outside a template string becomes a bare event and changes only the template flag |
| EcmaScript.BlockCommentLine | adapter_ecmascript.go:42-66 | a line inside or opening a block comment is a bare comment event, the comment stays open exactly when the line holds no `*/`, and the continuation flag is cleared |
| EcmaScript.BlockCommentFlagKept | adapter_ecmascript.go:42-66 | any other line leaves the block-comment flag alone |
| EcmaScript.RecognisedLine | adapter_ecmascript.go:68-77 | a visible line outside block comments takes the four shared recognisers' answers, and a line comment is left unclassified with the continuation flag untouched |
| EcmaScript.CodeLineShape | adapter_ecmascript.go:79-112 | a code line sets the continuation flag to whether it ends one and is classified by its trimmed text |
| EcmaScript.ContinuationKept | adapter_ecmascript.go:27-38 | raw and blank lines leave the continuation flag alone |
| EcmaScript.FoldStep | adapter_ecmascript.go:17-115 | the loop's event for line `i` is the line step applied to the state the first `i` lines leave |
| EcmaScript.ScanStep | adapter_ecmascript.go:17-115 | the event of line `i` is read with the state before it, and that state moves on by the step |
| EcmaScript.ScanContents | adapter_ecmascript.go:11-12 | the events hold the lines, one per line |
| EcmaScript.ScanTemplateFlag | adapter_ecmascript.go:18-23 | after the lines, the template flag is the shared raw-string flag |
| EcmaScript.RawStringLines | adapter_ecmascript.go:18-32 | a line is raw exactly when an odd number of the lines before it hold an odd number of backticks, and a raw event is a bare raw event |
| EcmaScript.BlockCommentSpan | adapter_ecmascript.go:42-66 | every visible line after a block-comment opener, up to the first line holding `*/`, is a comment |
| EcmaScript.OpenCommentCarried | adapter_ecmascript.go:55-60 | after an opener without `*/`, the comment stays open across lines that do not close it |
| EcmaScript.CommentStaysOpen | adapter_ecmascript.go:42-48 | an open comment stays open across a raw line, a blank line or a line without `*/` |
| EcmaScript.ContinuationCarried | adapter_ecmascript.go:79-98 | a code line after one that ends in a continuation gets no statement fields |
| EcmaScript.Analyze | adapter_ecmascript.go:10-118 | never fails, returns the source unchanged, and gives one event per line holding that line |
| EcmaScriptExamples.ClassifyFunctionFoo | adapter_ecmascript_test.go:419 | `function foo() {` is a scoped `function` |
| EcmaScriptExamples.ClassifyAsyncFunctionFoo | adapter_ecmascript_test.go:420 | `async` is stripped before classifying |
| EcmaScriptExamples.ClassifyExportFunctionFoo | adapter_ecmascript_test.go:421 | `export` is stripped before classifying |
| EcmaScriptExamples.ClassifyExportDefaultFunction | adapter_ecmascript_test.go:422 | `export default` is stripped before classifying |
| EcmaScriptExamples.ClassifyClassFoo | adapter_ecmascript_test.go:423 | `class Foo {` is a scoped `class` |
| EcmaScriptExamples.ClassifyExportClassFoo | adapter_ecmascript_test.go:424 | `export class Foo {` is a scoped `class` |
| EcmaScriptExamples.ClassifyIfX | adapter_ecmascript_test.go:425 | `if (x) {` is a scoped `if` |
| EcmaScriptExamples.ClassifyElseIfY | adapter_ecmascript_test.go:426 | `else if (y) {` is a scoped `if` |
| EcmaScriptExamples.ClassifyElse | adapter_ecmascript_test.go:427 | `else {` is a scoped `if` |
| EcmaScriptExamples.ClassifyForConstX | adapter_ecmascript_test.go:428 | `for (const x of items) {` is a scoped `for`, not a `const` |
| EcmaScriptExamples.ClassifyWhileTrue | adapter_ecmascript_test.go:429 | `while (true) {` is a scoped `while` |
| EcmaScriptExamples.ClassifyDo | adapter_ecmascript_test.go:430 | `do {` is a scoped `do` |
| EcmaScriptExamples.ClassifySwitchX | adapter_ecmascript_test.go:431 | `switch (x) {` is a scoped `switch` |
| EcmaScriptExamples.ClassifyTry | adapter_ecmascript_test.go:432 | `try {` is a scoped `try` |
| EcmaScriptExamples.ClassifyCatchE | adapter_ecmascript.go:137-182 | `catch (e) {` matches no keyword row and is unclassified |
| EcmaScriptExamples.ClassifyFinally | adapter_ecmascript.go:137-182 | `finally {` matches no keyword row and is unclassified |
| EcmaScriptExamples.ClassifyInterfaceFoo | adapter_ecmascript_test.go:435 | `interface Foo {` is a scoped `interface` |
| EcmaScriptExamples.ClassifyEnumDirection | adapter_ecmascript_test.go:436 | `enum Direction {` is a scoped `enum` |
| EcmaScriptExamples.ClassifyNamespaceFoo | adapter_ecmascript_test.go:437 | `namespace Foo {` is a scoped `namespace` |
| EcmaScriptExamples.ClassifyConstX1 | adapter_ecmascript_test.go:438 | `const x = 1;` is an unscoped `const` |
| EcmaScriptExamples.ClassifyLetX1 | adapter_ecmascript_test.go:439 | `let x = 1;` is an unscoped `let` |
| EcmaScriptExamples.ClassifyVarX1 | adapter_ecmascript_test.go:440 | `var x = 1;` is an unscoped `var` |
| EcmaScriptExamples.ClassifyImportFoo | adapter_ecmascript_test.go:441 | `import { foo } from 'bar';` is an unscoped `import` |
| EcmaScriptExamples.ClassifyTypeFoo | adapter_ecmascript_test.go:442 | `type Foo = string;` is an unscoped `type` |
| EcmaScriptExamples.ClassifyReturnX | adapter_ecmascript_test.go:443 | `return x;` is an unscoped `return` |
| EcmaScriptExamples.ClassifyReturn | adapter_ecmascript_test.go:444 | `return;` is an unscoped `return` |
| EcmaScriptExamples.ClassifyThrowNewError | adapter_ecmascript_test.go:445 | `throw new Error();` is an unscoped `throw` |
| EcmaScriptExamples.ClassifyAwaitFetchUrl | adapter_ecmascript_test.go:446 | `await fetch(url);` is an unscoped `await` |
| EcmaScriptExamples.ClassifyYieldValue | adapter_ecmascript_test.go:447 | `yield value;` is an unscoped `yield` |
| EcmaScriptExamples.ClassifyExportConstX1 | adapter_ecmascript_test.go:448 | `export const x = 1;` is an unscoped `const` |
| EcmaScriptExamples.ClassifyExportDefaultClassFoo | adapter_ecmascript_test.go:449 | `export default class Foo {` is a scoped `class` |
| EcmaScriptExamples.ClassifyDeclareConstX | adapter_ecmascript_test.go:450 | `declare const x: number;` is an unscoped `const` |
| EcmaScriptExamples.ClassifyDeclareFunctionFooVoid | adapter_ecmascript_test.go:451 | `declare function foo(): void;` is a scoped `function` |
| EcmaScriptExamples.ClassifyFoo | adapter_ecmascript_test.go:452 | a call `foo();` is unclassified |
| EcmaScriptExamples.ClassifyX1 | adapter_ecmascript_test.go:453 | an assignment `x = 1;` is unclassified |
| EcmaScriptExamples.ClassifyEmpty | adapter_ecmascript_test.go:454 | the empty line is unclassified |
| GoAdapter.LineEvents | adapter_go.go:33-74 | one event per line |
| GoAdapter.AnalyzeLines | adapter_go.go:29-74 | the loop over the split lines produces exactly the line-by-line events, each line read with the raw-string flag the lines before it leave |
| GoAdapter.LoopStep | adapter_go.go:33-74 | one more line appends its own event and toggles the raw-string flag by its delimiters |
| GoAdapter.Analyze | adapter_go.go:13-77 | a canonicalisation error or a parse error is returned as it is; otherwise the result is the canonical text and its line-by-line events |
| GoAdapter.OneEventPerLine | adapter_go.go:29-30 | the events are one per line of the text, each holding its line |
| GoAdapter.EventContent | adapter_go.go:42 | every event holds its line |
| GoAdapter.RawLine | adapter_go.go:35-49 | a line is raw exactly when an odd number of the lines before it hold an odd number of delimiters, and a raw event is a bare raw event |
| GoAdapter.RawTrackingAgrees | adapter_go.go:35-40 | the Go adapter and the ECMAScript adapter mark the same lines as raw |
| GoAdapter.BlankLine | adapter_go.go:51-55 | a blank line outside raw strings gets a bare event |
| GoAdapter.CodeLine | adapter_go.go:57-73 | any other line takes its table entry's fields exactly when the table has its 1-based number, and the answers of the five recognisers; it is never blank, raw or a continuation |
| GoAdapter.MapCommentMode | adapter_go.go:79-90 | the precede and standalone codes map to their engine modes, and every other code, the follow code included, maps to follow |
| GoAdapter.MapCommentModeRoundTrip | adapter_go.go:79-90 | mapping an engine mode's code gives the mode back |
| Rewrite.FirstFromSpec | rewrite.go:125-139 | the search gives the 1-based number of the first accepted line at or after its start, and 0 exactly when there is none |
| Rewrite.FindNextNonCommentLineSpec | rewrite.go:124-140 | the lookahead gives the 1-based number of the first line at or after its start that is neither blank nor comment-only, and 0 exactly when there is none |
| Rewrite.Rewrite | rewrite.go:115-121 | the result ends in a line terminator and is the joined lines followed by at most one added terminator; a join that already ends in a terminator is returned unchanged, and any other join gets exactly one |
| Rewrite.RawFlag | rewrite.go:16-21 | the carried raw-string flag after `n` lines is the adapters' flag for those lines |
| Rewrite.StepToggles | rewrite.go:16-21 | every line toggles the carried flag by its own delimiters, whichever branch it takes |
| Rewrite.RawLineVerbatim | rewrite.go:23-27 | a line read inside a raw string is appended unchanged, with no blank line, and only the raw flag changes |
| Rewrite.BlankLineDropped | rewrite.go:29-34 | a blank line outside raw strings is dropped, and only the raw flag changes |
| Rewrite.CodeLineKept | rewrite.go:36-112 | any other line is appended after the lines kept before it, with the separation decision, and the state records it |
| Rewrite.KeptLines | rewrite.go:15-113 | the kept lines are exactly the input's raw-string and non-blank lines, in order, so nothing but blank lines is added or removed |
| Rewrite.RenderLength | rewrite.go:96-100 | the written lines are the kept lines plus one empty line per blank-line decision |
| Rewrite.RenderUnrender | rewrite.go:96-100 | removing the inserted empty lines from the written lines gives the kept lines back |
| Rewrite.SuppressedBefore | rewrite.go:56 | no blank line goes before the first kept line, before a closing-brace or case-label line, or right after an opening-brace or case-label line |
| Rewrite.PassiveLines | rewrite.go:23-34 | raw and blank lines leave every comparison field of the state alone and never remove output |
| Rewrite.RememberShape | rewrite.go:101-102 | after a kept line the state records whether it opened a brace or label and whether it was a comment |
| Rewrite.RememberFields | rewrite.go:101-102 | keeping a line records its shape and whether it is a comment |
| Rewrite.NoBlankAfterOpener | rewrite.go:56-101 | the next kept non-raw line after an opening-brace or case-label line, across raw and blank lines, gets no blank line |
| Rewrite.NoBlankAfterComment | rewrite.go:56-102 | in follow mode, the next kept non-raw line after a comment line gets no blank line |
| Rewrite.LeadingCommentLookahead | rewrite.go:74-93 | in follow mode the first comment of a run, where nothing suppresses a blank line, is separated when its lookahead target's table entry would be |
| Rewrite.PackageRemembered | rewrite.go:104-112 | a package clause without a table entry is remembered under the type `package`, as neither top-level nor scoped |
| Parity.AdapterDescribes | adapter_go.go:35-73 | each Go adapter event is described by its line: inside a raw string it is the line with the raw flag, blank exactly when the line is, never a comment and without table facts; outside, it carries what the rewriter reads of the line |
| Parity.ClosedThrough | rewrite.go:124-140 | a run of blank and comment lines that starts outside raw strings ends outside them, when no comment line outside a raw string holds an odd number of delimiters |
| Parity.QuietRun | rewrite.go:124-140 | the blank and comment lines the rewriter's lookahead skips after a comment line are read outside raw strings, and their events are not significant to the engine |
| Parity.LookaheadTarget | rewrite.go:124-140 | from a comment line outside raw strings, the engine's lookahead finds nothing exactly when the rewriter's finds no line, and otherwise reaches the event of the significant line the rewriter's lookahead reaches, which is read outside raw strings |
| Parity.RuleAgrees | rewrite.go:56-72 | the engine's three transitions, outside a glued comment, are the rewriter's separation rule |
| Parity.LeadingAgreesAt | rewrite.go:74-93 | the engine's comment lookahead demands a blank line exactly when the rewriter's does |
| Parity.DecisionAgrees | rewrite.go:52-94 | on every kept line the engine and the rewriter make the same blank-line decision |
| Parity.AdvanceAgrees | rewrite.go:101-112 | keeping a line moves both states the same way |
| Parity.ParityFrom | rewrite.go:15-113 | from matching states, the rewriter's text so far followed by the engine's output for the remaining events is the rewrite |
| Parity.RawStep | rewrite.go:23-27 | a line read inside a raw string adds the same text to both outputs, the separator and the line without a blank line, and keeps the states in agreement |
| Parity.WrittenEndsInText | rewrite.go:115-121 | whenever the lines read leave no raw string open, the rewriter's text so far is empty or does not end in a line terminator, so its final terminator is always added |
| Parity.RewriteMatchesEngine | rewrite.go:5-122 | in each of the three known comment modes and for any line table, on text whose raw strings are all closed and in which no comment line outside a raw string holds an odd number of delimiters, the rewrite equals the engine's output over the Go adapter's events, with the mapped comment mode |
| Parity.RewriteMatchesEngineWithoutRaw | rewrite.go:5-122 | on text without raw strings the condition holds for any line table, so the two passes agree there outright |
| ParityExamples.RawLiteralSplit | parity_test.go:175-178 | the raw-string test input splits into its nine lines, the last one empty |
| ParityExamples.RawLiteralCloses | parity_test.go:175-178 | after the nine lines of the raw-string test input no raw string is open, its one literal having opened and closed |
| ParityExamples.RawLiteralContained | parity_test.go:175-178 | the raw-string test input meets the parity condition |
| ParityExamples.RawLiteralParity | parity_test.go:175-178 | on the raw-string test input, in each of the three comment modes and for any line table, the rewrite equals the engine's output over the Go adapter's events |

## Left out

- Rewrite.LineShapes: `rewrite.go` reads three regular expressions at lines 36-38 that are defined in a file this model does not include. They become function parameters. Parity.RewriteMatchesEngine instantiates them with the byte recognisers of `patterns.go`, so the theorem assumes the regular expressions accept exactly the lines those recognisers accept.
- Parity.RewriteMatchesEngine: it requires the comment mode to be 0, 1 or 2. On any other integer `rewrite.go` acts as in a non-follow mode, because it compares against `CommentsFollow` (lines 58-74). `MapCommentMode` maps those integers to follow, so the two really disagree there.
- Parity.RewriteMatchesEngine: it also requires every raw string to be closed by the end of the text, and every comment line read outside a raw string to hold an even number of raw-string delimiters. Outside that condition the two passes can differ:
  - the rewriter's lookahead (rewrite.go:124-140) starts at a comment line outside raw strings and applies the comment test and the line table to every line it reads. A comment line with an odd delimiter count leads it into a raw string, whose lines the engine sees as raw events that are never comment-only and carry no table facts;
  - a text whose last line is an empty line inside a raw string gets one terminator from the rewriter (rewrite.go:117) and two from the engine (engine/engine.go:30, 121).
  The raw-string input of `parity_test.go` meets the condition for every line table (ParityExamples.RawLiteralContained).
- ParityExamples.RawLiteralParity: the test passes its input through `format.Source` first. The lemma takes the input as the canonical text, which assumes the canonicaliser leaves it unchanged.
- Text.TrimSpace: `IsSpace` is the ASCII space set of Go's `strings.TrimSpace`. Unicode spaces such as U+0085 and U+00A0 are not trimmed. A line holding only such spaces is blank in Go and not blank in the model.
- Text: strings are sequences of characters and the code works on bytes. The model is faithful for ASCII text; multi-byte UTF-8 sequences are not modelled.
- Engine.CommentMode: a three-valued datatype where `engine/engine.go:5-11` has an integer. The engine only ever compares the mode with `CommentsFollow`, and `MapCommentMode` only produces the three named values. `GoAdapter.MapCommentMode` keeps the integer of the formatter's own `CommentMode` (formatter.go:5-10) as its input.
- GoAdapter.Analyze: `format.Source`, `parser.ParseFile` and `buildLineInfo` (adapter_go.go:14-28) are function parameters. They are the canonicaliser and the line table, which come from the Go toolchain or from `formatter.go`. The line table is an arbitrary map from 1-based line numbers to entries.
- Engine.FormatToBytes (engine/engine.go:133-140) is not modelled separately. It returns the bytes of the text `FormatToString` returns. The preallocation hint `Grow` has no observable effect.
- Events.LineEvent: `engine/engine.go:55` reads an `IsContinuation` field that the struct in `engine/event.go:5-20` does not declare. The model includes the field, the engine reads it as the source does, and neither adapter ever sets it.
- EcmaScriptExamples.ClassifyCatchE and EcmaScriptExamples.ClassifyFinally state what the code does. The keyword table at adapter_ecmascript.go:137-180 has no `catch` or `finally` row, so both lines are unclassified. `adapter_ecmascript_test.go:433-434` expects them to be a continued `try`, and its loop at line 458 expects three results from a classifier that returns two. The test table belongs to a different version of the classifier, and the model follows the code.
- `main.go`, `configuration.go`, `inspect.go` and the wiring in `formatter.go` are left out: command-line handling, configuration files, file I/O, language selection, and the construction of the line table from the Go syntax tree.
