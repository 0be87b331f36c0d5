/** The heuristic adapter for JavaScript and TypeScript (adapter_ecmascript.go):
    a single pass over the lines that tracks template strings, block comments
    and continued expressions, and classifies statements by their leading
    keyword. It never consults a parser and never fails. */
module EcmaScript {
  import opened Wrappers
  import opened Text
  import opened Patterns
  import opened Events

  // ---------------------------------------------------------------------
  // Keyword classification

  /** `line` starts with `keyword` as a whole word: the keyword is the whole
      line or is followed by a space, `(`, `{`, `;`, `<` or a tab. */
  predicate StatementHasPrefix(line: string, keyword: string) {
    && HasPrefix(line, keyword)
    && (|line| == |keyword| || KeywordDelimiter(line[|keyword|]))
  }

  predicate KeywordDelimiter(c: char) {
    c == ' ' || c == '(' || c == '{' || c == ';' || c == '<' || c == '\t'
  }

  /** A byte that can continue an identifier. */
  predicate IsIdentifierChar(c: char) {
    ('a' <= c <= 'z') || ('A' <= c <= 'Z') || ('0' <= c <= '9') || c == '_' || c == '$'
  }

  /** A keyword match never stops in the middle of an identifier, so `for`
      does not match `forEach(` and `do` does not match `done`. */
  lemma KeywordIsWholeWord(line: string, keyword: string)
    requires StatementHasPrefix(line, keyword)
    ensures |line| == |keyword| || !IsIdentifierChar(line[|keyword|])
  {
  }

  lemma ForEachIsNotFor()
    ensures !StatementHasPrefix("forEach(", "for")
    ensures StatementHasPrefix("for (const x of items) {", "for")
    ensures StatementHasPrefix("return;", "return")
    ensures StatementHasPrefix("do", "do")
  {
    assert "forEach("[3] == 'E';
    assert "for (const x of items) {"[..3] == "for";
    assert "return;"[..6] == "return";
  }

  /** The modifiers that may precede a declaration keyword: `export default `
      or `export `, then `async `, then `declare `, each removed once. */
  function StripModifiers(trimmed: string): string
  {
    var exported :=
      if HasPrefix(trimmed, "export default ") then trimmed[15..]
      else if HasPrefix(trimmed, "export ") then trimmed[7..]
      else trimmed;
    var synchronous := if HasPrefix(exported, "async ") then exported[6..] else exported;
    if HasPrefix(synchronous, "declare ") then synchronous[8..] else synchronous
  }

  /** The modifiers only ever come off the front of the line. */
  lemma StripModifiersSuffix(trimmed: string)
    ensures |StripModifiers(trimmed)| <= |trimmed|
    ensures StripModifiers(trimmed) == trimmed[|trimmed| - |StripModifiers(trimmed)|..]
  {
  }

  /** One row of the classification table: the keyword looked for, the
      statement type reported, and whether that type opens a scope. */
  datatype Keyword = Keyword(word: string, statementType: string, scoped: bool)

  /** The table in the order the classifier tries it. `else` reports `if`. */
  const Keywords: seq<Keyword> := [
    Keyword("function", "function", true),
    Keyword("class", "class", true),
    Keyword("if", "if", true),
    Keyword("else", "if", true),
    Keyword("for", "for", true),
    Keyword("while", "while", true),
    Keyword("do", "do", true),
    Keyword("switch", "switch", true),
    Keyword("try", "try", true),
    Keyword("interface", "interface", true),
    Keyword("enum", "enum", true),
    Keyword("namespace", "namespace", true),
    Keyword("const", "const", false),
    Keyword("let", "let", false),
    Keyword("var", "var", false),
    Keyword("import", "import", false),
    Keyword("type", "type", false),
    Keyword("return", "return", false),
    Keyword("throw", "throw", false),
    Keyword("await", "await", false),
    Keyword("yield", "yield", false)
  ]

  /** The statement types that open a scope. */
  const ScopedTypes: set<string> :=
    {"function", "class", "if", "for", "while", "do", "switch", "try", "interface", "enum", "namespace"}

  /** The classification the classifier reports. */
  datatype Classification = Classification(statementType: string, scoped: bool)

  const Unclassifiable := Classification("", false)

  /** Row `i` is the first row of `table`, from `from` on, whose keyword
      starts `line`. */
  ghost predicate FirstMatch(line: string, table: seq<Keyword>, from: nat, i: int) {
    && from <= i < |table|
    && StatementHasPrefix(line, table[i].word)
    && forall j :: from <= j < i ==> !StatementHasPrefix(line, table[j].word)
  }

  /** The index of the first row of `table`, at or after `from`, whose
      keyword starts `line`. */
  function FirstMatchIndex(line: string, table: seq<Keyword>, from: nat): (r: Option<nat>)
    ensures r.None? <==> forall j :: from <= j < |table| ==> !StatementHasPrefix(line, table[j].word)
    ensures r.Some? ==> FirstMatch(line, table, from, r.value)
    decreases |table| - from
  {
    if from >= |table| then None
    else if StatementHasPrefix(line, table[from].word) then Some(from)
    else FirstMatchIndex(line, table, from + 1)
  }

  /** `classifyEcmaScriptStatement`: the type and scope of the first table
      row whose keyword starts the line once its modifiers are removed, or
      `("", false)`. */
  function Classify(trimmed: string): Classification {
    match FirstMatchIndex(StripModifiers(trimmed), Keywords, 0)
    case None => Unclassifiable
    case Some(i) => Classification(Keywords[i].statementType, Keywords[i].scoped)
  }

  /** The first and second letters of each row's keyword, row by row; every
      keyword has at least two. */
  const Initials: string := "fciefwdstienclvitrtay"
  const Seconds: string := "ulflohowrnnaoeamyehwi"

  lemma LettersAgree()
    ensures |Initials| == |Keywords| == |Seconds|
    ensures forall j :: 0 <= j < |Keywords| ==>
              |Keywords[j].word| >= 2 && Keywords[j].word[0] == Initials[j] && Keywords[j].word[1] == Seconds[j]
  {
  }

  /** Rows whose keyword starts with other letters than the line do not
      match it. */
  lemma LettersDiffer(line: string, first: char, second: char, lo: nat, hi: nat)
    requires lo <= hi <= |Keywords| && |line| >= 2 && line[0] == first && line[1] == second
    requires forall j :: lo <= j < hi ==> Initials[j] != first || Seconds[j] != second
    ensures forall j :: lo <= j < hi ==> !StatementHasPrefix(line, Keywords[j].word)
  {
    LettersAgree();
  }

  /** Classification picks the first matching row. */
  lemma ClassifyByRow(trimmed: string, i: nat)
    requires FirstMatch(StripModifiers(trimmed), Keywords, 0, i)
    ensures Classify(trimmed) == Classification(Keywords[i].statementType, Keywords[i].scoped)
  {
    var r := FirstMatchIndex(StripModifiers(trimmed), Keywords, 0);
    assert r.Some?;
    assert r.value == i;
  }

  /** A line no keyword starts is not classified. */
  lemma ClassifyNoRow(trimmed: string)
    requires forall j :: 0 <= j < |Keywords| ==> !StatementHasPrefix(StripModifiers(trimmed), Keywords[j].word)
    ensures Classify(trimmed) == Unclassifiable
  {
  }

  /** Every row reports a type, and the row opens a scope exactly when its
      type is one of the scope-opening types. */
  lemma KeywordRow(i: nat)
    requires i < |Keywords|
    ensures Keywords[i].statementType != ""
    ensures Keywords[i].scoped <==> Keywords[i].statementType in ScopedTypes
  {
  }

  /** The empty type is not a scope-opening type. */
  lemma NoEmptyScopedType()
    ensures "" !in ScopedTypes
  {
  }

  /** A classification is scoped exactly when its type is one of the
      scope-opening types. */
  lemma ClassifyScope(trimmed: string)
    ensures Classify(trimmed).scoped <==> Classify(trimmed).statementType in ScopedTypes
  {
    match FirstMatchIndex(StripModifiers(trimmed), Keywords, 0)
    case None =>
      NoEmptyScopedType();
    case Some(i) =>
      KeywordRow(i);
  }

  /** The classification is empty exactly when no keyword starts the line
      once its modifiers are removed. */
  lemma ClassifyEmptyType(trimmed: string)
    ensures Classify(trimmed).statementType == "" <==>
              forall j :: 0 <= j < |Keywords| ==> !StatementHasPrefix(StripModifiers(trimmed), Keywords[j].word)
  {
    match FirstMatchIndex(StripModifiers(trimmed), Keywords, 0)
    case None =>
    case Some(i) =>
      KeywordRow(i);
  }

  // ---------------------------------------------------------------------
  // Per-line tests

  /** A line that does not start with whitespace sits at the top level. */
  predicate LineIsTopLevel(line: string) {
    |line| > 0 && !IsWhitespace(line[0])
  }

  /** A trimmed line after which the next line continues the expression:
      it ends in `,`, `[` or `(`, or it is a `<…>` tag. */
  predicate EndsContinuation(trimmed: string) {
    && |trimmed| > 0
    && var last := trimmed[|trimmed| - 1];
       (last == ',' || last == '[' || last == '(' || (last == '>' && HasPrefix(trimmed, "<")))
  }

  /** A trimmed line that continues the previous expression by its own
      shape: it starts with `.`, `?.` or `]`. */
  predicate StartsContinuation(trimmed: string) {
    HasPrefix(trimmed, ".") || HasPrefix(trimmed, "?.") || HasPrefix(trimmed, "]")
  }

  /** `isClosingCurlyBrace`: the first non-whitespace byte is `}`. */
  function IsClosingCurlyBrace(line: string): (r: bool)
    ensures r <==> exists k :: 0 <= k < |line| && WhitespaceBefore(line, k) && line[k] == '}'
  {
    var k := SkipWhitespace(line, 0);
    assert forall k' :: 0 <= k' < |line| && WhitespaceBefore(line, k') && !IsWhitespace(line[k']) ==> k' == k;
    k < |line| && line[k] == '}'
  }

  /** A closing curly brace is a closing brace for the shared recogniser too. */
  lemma ClosingCurlyIsClosingBrace(line: string)
    requires IsClosingCurlyBrace(line)
    ensures IsClosingBrace(line)
  {
    var k :| 0 <= k < |line| && WhitespaceBefore(line, k) && line[k] == '}';
  }

  // ---------------------------------------------------------------------
  // The line scanner

  /** What the scanner carries from one line to the next. */
  datatype ScanState = ScanState(
    insideTemplateString: bool,
    insideBlockComment: bool,
    previousEndedWithContinuation: bool)

  const Start := ScanState(false, false, false)

  /** The event for one line and the state for the next. */
  datatype Step = Step(event: LineEvent, next: ScanState)

  /** The line is read outside a template string and is not blank. */
  ghost predicate Visible(line: string, st: ScanState) {
    !st.insideTemplateString && !AllSpace(line)
  }

  /** The line is visible and inside or opening a block comment. */
  ghost predicate InBlockComment(line: string, st: ScanState) {
    Visible(line, st) && (st.insideBlockComment || HasPrefix(TrimSpace(line), "/*"))
  }

  /** A visible line outside block comments, which the shared recognisers
      classify. */
  ghost predicate Recognised(line: string, st: ScanState) {
    Visible(line, st) && !st.insideBlockComment && !HasPrefix(TrimSpace(line), "/*")
  }

  /** A recognised line that is not a line comment: a line of code. */
  ghost predicate CodeLine(line: string, st: ScanState) {
    Recognised(line, st) && !IsCommentOnly(line)
  }

  /** The statement fields of a code line's event, given the keyword
      classification `c` of its trimmed text. */
  ghost predicate ClassifiedBy(e: LineEvent, line: string, trimmed: string, st: ScanState, c: Classification) {
    if IsClosingCurlyBrace(line) then
      e.hasASTInfo && e.isScoped && e.statementType == "" && !e.isStartLine && e.isTopLevel == LineIsTopLevel(line)
    else if st.previousEndedWithContinuation || StartsContinuation(trimmed) then
      !e.hasASTInfo && e.statementType == "" && !e.isScoped && !e.isTopLevel && !e.isStartLine
    else
      && e.hasASTInfo
      && e.isTopLevel == LineIsTopLevel(line)
      && (e.isScoped <==> c.statementType != "" && c.scoped)
      && (e.isStartLine <==> c.statementType != "")
      && e.statementType == (if c.statementType != "" then c.statementType else "expression")
  }

  /** The event carries no statement information yet. */
  ghost predicate NoStatementFields(e: LineEvent) {
    !e.hasASTInfo && e.statementType == "" && !e.isScoped && !e.isTopLevel && !e.isStartLine
  }

  /** The two events agree on everything but the statement fields. */
  ghost predicate SameLine(a: LineEvent, b: LineEvent) {
    && a.content == b.content && a.trimmedContent == b.trimmedContent
    && a.isClosingBrace == b.isClosingBrace && a.isOpeningBrace == b.isOpeningBrace
    && a.isCaseLabel == b.isCaseLabel && a.isCommentOnly == b.isCommentOnly
    && a.isBlank == b.isBlank && a.inRawString == b.inRawString
    && a.isPackageDecl == b.isPackageDecl && a.isContinuation == b.isContinuation
  }

  /** The tail of one iteration for a line of code, given the line's
      keyword classification `c`: the continuation flag for the next line,
      then the statement fields; the other fields are left alone. */
  function ScanCode(line: string, trimmed: string, c: Classification, flagged: LineEvent, st: ScanState): (r: Step)
    ensures r.next == st.(previousEndedWithContinuation := EndsContinuation(trimmed))
    ensures SameLine(r.event, flagged)
    ensures NoStatementFields(flagged) ==> ClassifiedBy(r.event, line, trimmed, st, c)
  {
    var continuation := st.previousEndedWithContinuation || StartsContinuation(trimmed);
    var next := st.(previousEndedWithContinuation := EndsContinuation(trimmed));
    if IsClosingCurlyBrace(line) then
      Step(flagged.(hasASTInfo := true, isScoped := true, isTopLevel := LineIsTopLevel(line)), next)
    else if continuation then
      Step(flagged, next)
    else if c.statementType != "" then
      Step(flagged.(hasASTInfo := true, statementType := c.statementType, isScoped := c.scoped,
                    isTopLevel := LineIsTopLevel(line), isStartLine := true), next)
    else
      Step(flagged.(hasASTInfo := true, statementType := "expression", isTopLevel := LineIsTopLevel(line)), next)
  }

  /** One iteration of the scanning loop. */
  function ScanLine(line: string, st: ScanState): (r: Step)
    ensures r.event.content == line && r.event.trimmedContent == TrimSpace(line)
    ensures r.event.isBlank <==> AllSpace(line)
    ensures r.next.insideTemplateString == ToggleRaw(st.insideTemplateString, line)
    ensures r.event.inRawString <==> st.insideTemplateString
  {
    var event := NewLineEvent(line);
    var toggled := st.(insideTemplateString := ToggleRaw(st.insideTemplateString, line));
    if st.insideTemplateString then
      Step(event.(inRawString := true), toggled)
    else if event.isBlank then
      Step(event, toggled)
    else
      var trimmed := event.trimmedContent;
      if st.insideBlockComment then
        Step(event.(isCommentOnly := true),
             toggled.(insideBlockComment := !Contains(trimmed, "*/"), previousEndedWithContinuation := false))
      else if HasPrefix(trimmed, "/*") then
        Step(event.(isCommentOnly := true),
             toggled.(insideBlockComment := !Contains(trimmed, "*/"), previousEndedWithContinuation := false))
      else
        var flagged := event.(isClosingBrace := IsClosingBrace(line), isOpeningBrace := IsOpeningBrace(line),
                              isCaseLabel := IsCaseLabel(line), isCommentOnly := IsCommentOnly(line));
        if flagged.isCommentOnly then Step(flagged, toggled)
        else ScanCode(line, trimmed, Classify(trimmed), flagged, toggled)
  }

  /** A line that starts inside a template string is the bare event of its
      line, marked raw; only the template flag can change. */
  lemma TemplateStringLine(line: string, st: ScanState)
    requires st.insideTemplateString
    ensures ScanLine(line, st).event == NewLineEvent(line).(inRawString := true)
    ensures ScanLine(line, st).next == st.(insideTemplateString := ToggleRaw(true, line))
  {
  }

  /** A blank line outside template strings is the bare event of its line
      and changes nothing but the template flag. */
  lemma BlankLine(line: string, st: ScanState)
    requires !st.insideTemplateString && AllSpace(line)
    ensures ScanLine(line, st).event == NewLineEvent(line)
    ensures ScanLine(line, st).next == st.(insideTemplateString := ToggleRaw(false, line))
  {
  }

  /** Inside a block comment, or on a line opening one, the line is a bare
      comment event; the comment stays open until a line contains the
      terminator, and the continuation flag is cleared. */
  lemma BlockCommentLine(line: string, st: ScanState)
    requires InBlockComment(line, st)
    ensures ScanLine(line, st).event == NewLineEvent(line).(isCommentOnly := true)
    ensures ScanLine(line, st).next.insideBlockComment == !Contains(TrimSpace(line), "*/")
    ensures !ScanLine(line, st).next.previousEndedWithContinuation
  {
  }

  /** Outside block comments, and on lines that do not open one, the block
      comment flag stays as it was. */
  lemma BlockCommentFlagKept(line: string, st: ScanState)
    requires !InBlockComment(line, st)
    ensures ScanLine(line, st).next.insideBlockComment == st.insideBlockComment
  {
  }

  /** A recognised line carries the shared recognisers' flags; a line
      comment carries nothing else and keeps the continuation flag. */
  lemma RecognisedLine(line: string, st: ScanState)
    requires Recognised(line, st)
    ensures var e := ScanLine(line, st).event;
            && e.isClosingBrace == IsClosingBrace(line)
            && e.isOpeningBrace == IsOpeningBrace(line)
            && e.isCaseLabel == IsCaseLabel(line)
            && e.isCommentOnly == IsCommentOnly(line)
            && !e.isBlank && !e.inRawString && !e.isPackageDecl && !e.isContinuation
    ensures IsCommentOnly(line) ==>
              && !ScanLine(line, st).event.hasASTInfo
              && ScanLine(line, st).event.statementType == ""
              && ScanLine(line, st).next.previousEndedWithContinuation == st.previousEndedWithContinuation
  {
  }

  /** A line of code sets the continuation flag from its own ending and gets
      its statement fields from its shape or its keyword. */
  lemma CodeLineShape(line: string, st: ScanState)
    requires CodeLine(line, st)
    ensures ScanLine(line, st).next.previousEndedWithContinuation == EndsContinuation(TrimSpace(line))
    ensures ClassifiedBy(ScanLine(line, st).event, line, TrimSpace(line), st, Classify(TrimSpace(line)))
  {
  }

  /** Blank and raw lines keep the continuation flag. */
  lemma ContinuationKept(line: string, st: ScanState)
    requires !Visible(line, st)
    ensures ScanLine(line, st).next.previousEndedWithContinuation == st.previousEndedWithContinuation
  {
  }

  // ---------------------------------------------------------------------
  // The whole pass

  /** The events for `lines` and the state after the last one. */
  datatype Scan = Scan(events: seq<LineEvent>, state: ScanState)

  /** The loop over `lines` from the start state, one `step` per line. */
  function Fold(step: (string, ScanState) -> Step, lines: seq<string>): (r: Scan)
    ensures |r.events| == |lines|
    decreases |lines|
  {
    if |lines| == 0 then Scan([], Start)
    else
      var before := Fold(step, lines[..|lines| - 1]);
      var last := step(lines[|lines| - 1], before.state);
      Scan(before.events + [last.event], last.next)
  }

  /** Event `i` is what `step` makes of line `i` in the state the earlier
      lines left, and that step gives the state for line `i + 1`. */
  lemma {:induction false} FoldStep(step: (string, ScanState) -> Step, lines: seq<string>, i: nat)
    requires i < |lines|
    ensures Fold(step, lines).events[i] == step(lines[i], Fold(step, lines[..i]).state).event
    ensures Fold(step, lines[..i + 1]).state == step(lines[i], Fold(step, lines[..i]).state).next
    decreases |lines|
  {
    var init := lines[..|lines| - 1];
    assert lines[..|lines|] == lines;
    if i < |lines| - 1 {
      FoldStep(step, init, i);
      assert init[..i] == lines[..i];
      assert init[..i + 1] == lines[..i + 1];
    } else {
      assert lines[..i] == init;
    }
  }

  /** The scanning loop over `lines`. */
  function ScanAll(lines: seq<string>): (r: Scan)
    ensures |r.events| == |lines|
  {
    Fold(ScanLine, lines)
  }

  /** The state the scanner is in when it reaches line `i`. */
  function StateBefore(lines: seq<string>, i: nat): ScanState
    requires i <= |lines|
  {
    ScanAll(lines[..i]).state
  }

  /** Event `i` is one iteration on line `i` in the state the earlier lines
      left, and that iteration gives the state for line `i + 1`. */
  lemma ScanStep(lines: seq<string>, i: nat)
    requires i < |lines|
    ensures ScanAll(lines).events[i] == ScanLine(lines[i], StateBefore(lines, i)).event
    ensures StateBefore(lines, i + 1) == ScanLine(lines[i], StateBefore(lines, i)).next
  {
    FoldStep(ScanLine, lines, i);
  }

  /** Every event is the event of its own line. */
  lemma ScanContents(lines: seq<string>)
    ensures forall i :: 0 <= i < |lines| ==> ScanAll(lines).events[i].content == lines[i]
  {
    forall i | 0 <= i < |lines| ensures ScanAll(lines).events[i].content == lines[i] {
      ScanStep(lines, i);
    }
  }

  /** After the loop the template-string flag is the raw-string flag the
      shared delimiter count gives. */
  lemma {:induction false} ScanTemplateFlag(lines: seq<string>)
    ensures ScanAll(lines).state.insideTemplateString == InsideRawAfter(lines)
    decreases |lines|
  {
    if |lines| > 0 {
      var init := lines[..|lines| - 1];
      ScanTemplateFlag(init);
      ScanStep(lines, |lines| - 1);
      assert lines[..|lines|] == lines;
    }
  }

  /** Event `i` lies inside a template string exactly when an odd number of
      the lines before it have an odd delimiter count; such an event is the
      bare event of its line. */
  lemma RawStringLines(lines: seq<string>, i: nat)
    requires i < |lines|
    ensures ScanAll(lines).events[i].inRawString <==> OddDelimiterLines(lines[..i]) % 2 == 1
    ensures ScanAll(lines).events[i].inRawString ==>
              ScanAll(lines).events[i] == NewLineEvent(lines[i]).(inRawString := true)
  {
    ScanStep(lines, i);
    ScanTemplateFlag(lines[..i]);
    RawParity(lines[..i]);
    if StateBefore(lines, i).insideTemplateString {
      TemplateStringLine(lines[i], StateBefore(lines, i));
    }
  }

  /** A block comment opened on line `j` makes every later non-blank line
      outside template strings a comment, up to and including the first such
      line that contains the comment terminator. */
  lemma {:induction false} BlockCommentSpan(lines: seq<string>, j: nat, k: nat)
    requires j < k < |lines|
    requires var e := ScanAll(lines).events[j];
             !e.inRawString && HasPrefix(e.trimmedContent, "/*") && !Contains(e.trimmedContent, "*/")
    requires forall m :: j < m < k ==>
               var e := ScanAll(lines).events[m];
               e.inRawString || e.isBlank || !Contains(e.trimmedContent, "*/")
    ensures var e := ScanAll(lines).events[k];
            !e.inRawString && !e.isBlank ==> e.isCommentOnly
  {
    OpenCommentCarried(lines, j, k);
    ScanStep(lines, k);
    var st := StateBefore(lines, k);
    if !st.insideTemplateString && !AllSpace(lines[k]) {
      BlockCommentLine(lines[k], st);
    }
  }

  /** The state after an opening line, carried over the lines that do not
      close the comment. */
  lemma {:induction false} OpenCommentCarried(lines: seq<string>, j: nat, k: nat)
    requires j < k <= |lines|
    requires var e := ScanAll(lines).events[j];
             !e.inRawString && HasPrefix(e.trimmedContent, "/*") && !Contains(e.trimmedContent, "*/")
    requires forall m :: j < m < k ==>
               var e := ScanAll(lines).events[m];
               e.inRawString || e.isBlank || !Contains(e.trimmedContent, "*/")
    ensures StateBefore(lines, k).insideBlockComment
    decreases k - j
  {
    if k == j + 1 {
      ScanStep(lines, j);
      BlockCommentLine(lines[j], StateBefore(lines, j));
    } else {
      OpenCommentCarried(lines, j, k - 1);
      ScanStep(lines, k - 1);
      CommentStaysOpen(lines[k - 1], StateBefore(lines, k - 1));
    }
  }

  /** An open block comment stays open across a line that is raw, blank or
      without the terminator. */
  lemma CommentStaysOpen(line: string, st: ScanState)
    requires st.insideBlockComment
    requires var e := ScanLine(line, st).event;
             e.inRawString || e.isBlank || !Contains(e.trimmedContent, "*/")
    ensures ScanLine(line, st).next.insideBlockComment
  {
    if st.insideTemplateString {
      TemplateStringLine(line, st);
    } else if AllSpace(line) {
      BlankLine(line, st);
    } else {
      BlockCommentLine(line, st);
    }
  }

  /** A code line ending in `,`, `[` or `(` makes the next code line a
      continuation: it gets no statement information unless it starts with
      a closing curly brace. */
  lemma ContinuationCarried(lines: seq<string>, i: nat)
    requires i + 1 < |lines|
    requires CodeLine(lines[i], StateBefore(lines, i))
    requires EndsContinuation(TrimSpace(lines[i]))
    requires CodeLine(lines[i + 1], StateBefore(lines, i + 1))
    requires !IsClosingCurlyBrace(lines[i + 1])
    ensures !ScanAll(lines).events[i + 1].hasASTInfo
    ensures ScanAll(lines).events[i + 1].statementType == ""
  {
    ScanStep(lines, i);
    CodeLineShape(lines[i], StateBefore(lines, i));
    ScanStep(lines, i + 1);
    CodeLineShape(lines[i + 1], StateBefore(lines, i + 1));
  }

  /** `EcmaScriptAdapter.Analyze`: the text is returned unchanged with one
      event per line, and the adapter never reports an error. */
  function Analyze(source: string): (r: Result<Analysis, string>)
    ensures r.Success?
    ensures r.value.text == source
    ensures |r.value.events| == NewlineCount(source) + 1
    ensures forall i :: 0 <= i < |r.value.events| ==> r.value.events[i].content == Split(source)[i]
  {
    ScanContents(Split(source));
    Success(Analysis(source, ScanAll(Split(source)).events))
  }
}
