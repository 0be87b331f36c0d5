/** The Go adapter (adapter_go.go): the source is first put into canonical
    form and parsed, and the parse yields a table from 1-based line numbers
    to statement information; the line loop then merges that table with the
    textual recognisers. The canonicaliser and the parser are outside the
    model and enter as function parameters that may fail. */
module GoAdapter {
  import opened Wrappers
  import opened Text
  import opened Patterns
  import opened Events
  import Engine
  import EcmaScript

  /** What the parse knows about a line (formatter.go): the statement type,
      and whether the line is at the top level, opens a scope, and starts
      its statement. */
  datatype LineInfo = LineInfo(statementType: string, isTopLevel: bool, isScoped: bool, isStartLine: bool)

  /** The event for line `line` with 1-based number `lineNumber`, given
      whether an earlier line left a raw string open. */
  function LineEventFor(line: string, lineNumber: int, info: map<int, LineInfo>, insideRaw: bool): LineEvent {
    var event := NewLineEvent(line);
    if insideRaw then event.(inRawString := true)
    else if event.isBlank then event
    else
      var withInfo :=
        if lineNumber in info then
          var li := info[lineNumber];
          event.(hasASTInfo := true, statementType := li.statementType, isTopLevel := li.isTopLevel,
                 isScoped := li.isScoped, isStartLine := li.isStartLine)
        else event;
      withInfo.(isClosingBrace := IsClosingBrace(line), isOpeningBrace := IsOpeningBrace(line),
                isCaseLabel := IsCaseLabel(line), isCommentOnly := IsCommentOnly(line),
                isPackageDecl := IsPackageLine(event.trimmedContent))
  }

  /** The events of the line loop, stated line by line: line `i` is read
      with the raw-string flag the lines before it leave. */
  function LineEvents(lines: seq<string>, info: map<int, LineInfo>): (events: seq<LineEvent>)
    ensures |events| == |lines|
  {
    PerLine((line, lineNumber, insideRaw) => LineEventFor(line, lineNumber, info, insideRaw), lines)
  }

  /** Applies `read` to every line, with its 1-based number and the raw-string
      flag the lines before it leave. */
  function PerLine(read: (string, int, bool) -> LineEvent, lines: seq<string>): (events: seq<LineEvent>)
    ensures |events| == |lines|
  {
    seq(|lines|, i requires 0 <= i < |lines| => read(lines[i], i + 1, InsideRawAfter(lines[..i])))
  }

  /** The line loop of `GoAdapter.Analyze` over the canonical text's lines,
      carrying the raw-string flag from one line to the next. */
  method AnalyzeLines(lines: seq<string>, info: map<int, LineInfo>) returns (events: seq<LineEvent>)
    ensures events == LineEvents(lines, info)
  {
    events := [];
    var insideRaw := false;
    var i := 0;
    while i < |lines|
      invariant 0 <= i <= |lines|
      invariant insideRaw == InsideRawAfter(lines[..i])
      invariant events == LineEvents(lines[..i], info)
    {
      LoopStep(lines, info, i);
      var line := lines[i];
      var event := LineEventFor(line, i + 1, info, insideRaw);
      insideRaw := ToggleRaw(insideRaw, line);
      events := events + [event];
      i := i + 1;
    }
    assert lines[..i] == lines;
  }

  /** One turn of the loop: the events of one more line extend those read
      so far by the new line's event, and the raw-string flag toggles by
      the line's delimiters. */
  lemma LoopStep(lines: seq<string>, info: map<int, LineInfo>, i: nat)
    requires i < |lines|
    ensures LineEvents(lines[..i + 1], info) ==
              LineEvents(lines[..i], info) + [LineEventFor(lines[i], i + 1, info, InsideRawAfter(lines[..i]))]
    ensures InsideRawAfter(lines[..i + 1]) == ToggleRaw(InsideRawAfter(lines[..i]), lines[i])
  {
    LineEventsSnoc(lines[..i + 1], info);
    assert lines[..i + 1][..i] == lines[..i];
  }

  /** Reading one more line appends its event. */
  lemma LineEventsSnoc(lines: seq<string>, info: map<int, LineInfo>)
    requires |lines| > 0
    ensures LineEvents(lines, info) ==
              LineEvents(lines[..|lines| - 1], info)
              + [LineEventFor(lines[|lines| - 1], |lines|, info, InsideRawAfter(lines[..|lines| - 1]))]
  {
    PerLineSnoc((line, lineNumber, insideRaw) => LineEventFor(line, lineNumber, info, insideRaw), lines);
  }

  /** The events of some lines extend those of all but the last line. */
  lemma PerLineSnoc(read: (string, int, bool) -> LineEvent, lines: seq<string>)
    requires |lines| > 0
    ensures PerLine(read, lines) ==
              PerLine(read, lines[..|lines| - 1])
              + [read(lines[|lines| - 1], |lines|, InsideRawAfter(lines[..|lines| - 1]))]
  {
    var n := |lines| - 1;
    forall i | 0 <= i < n ensures PerLine(read, lines)[i] == PerLine(read, lines[..n])[i] {
      assert lines[..n][..i] == lines[..i];
    }
  }

  /** `GoAdapter.Analyze`: put the source into canonical form, parse it into
      the line table, then run the line loop over the canonical text. Either
      failure is passed on unchanged. */
  method Analyze(source: string,
                 canonicalise: string -> Result<string, string>,
                 lineTable: string -> Result<map<int, LineInfo>, string>)
    returns (r: Result<Analysis, string>)
    ensures canonicalise(source).Failure? ==> r == Failure(canonicalise(source).error)
    ensures canonicalise(source).Success? && lineTable(canonicalise(source).value).Failure? ==>
              r == Failure(lineTable(canonicalise(source).value).error)
    ensures canonicalise(source).Success? && lineTable(canonicalise(source).value).Success? ==>
              var text := canonicalise(source).value;
              r == Success(Analysis(text, LineEvents(Split(text), lineTable(text).value)))
  {
    var formatted := canonicalise(source);
    if formatted.Failure? {
      return Failure(formatted.error);
    }
    var table := lineTable(formatted.value);
    if table.Failure? {
      return Failure(table.error);
    }
    var events := AnalyzeLines(Split(formatted.value), table.value);
    return Success(Analysis(formatted.value, events));
  }

  /** The loop gives one event per line of the canonical text, each holding
      its own line. */
  lemma OneEventPerLine(text: string, info: map<int, LineInfo>)
    ensures |LineEvents(Split(text), info)| == NewlineCount(text) + 1
    ensures forall i :: 0 <= i < |Split(text)| ==> LineEvents(Split(text), info)[i].content == Split(text)[i]
  {
    EventsHoldLines(Split(text), info);
  }

  /** Every event of the loop holds its own line. */
  lemma EventsHoldLines(lines: seq<string>, info: map<int, LineInfo>)
    ensures forall i :: 0 <= i < |lines| ==> LineEvents(lines, info)[i].content == lines[i]
  {
    forall i | 0 <= i < |lines| ensures LineEvents(lines, info)[i].content == lines[i] {
      EventContent(lines[i], i + 1, info, InsideRawAfter(lines[..i]));
    }
  }

  /** Every event holds the line it was read from. */
  lemma EventContent(line: string, lineNumber: int, info: map<int, LineInfo>, insideRaw: bool)
    ensures LineEventFor(line, lineNumber, info, insideRaw).content == line
  {
  }

  /** A line read inside a raw string carries only its text and the raw
      flag; raw tracking follows the same delimiter parity as the heuristic
      adapter. */
  lemma RawLine(lines: seq<string>, info: map<int, LineInfo>, i: nat)
    requires i < |lines|
    ensures LineEvents(lines, info)[i].inRawString <==> OddDelimiterLines(lines[..i]) % 2 == 1
    ensures LineEvents(lines, info)[i].inRawString ==>
              LineEvents(lines, info)[i] == NewLineEvent(lines[i]).(inRawString := true)
  {
    RawParity(lines[..i]);
  }

  /** Both adapters agree on which lines lie inside a raw string. */
  lemma RawTrackingAgrees(lines: seq<string>, info: map<int, LineInfo>, i: nat)
    requires i < |lines|
    ensures LineEvents(lines, info)[i].inRawString == EcmaScript.ScanAll(lines).events[i].inRawString
  {
    RawLine(lines, info, i);
    EcmaScript.RawStringLines(lines, i);
  }

  /** A blank line outside raw strings carries only its text. */
  lemma BlankLine(lines: seq<string>, info: map<int, LineInfo>, i: nat)
    requires i < |lines| && !InsideRawAfter(lines[..i]) && AllSpace(lines[i])
    ensures LineEvents(lines, info)[i] == NewLineEvent(lines[i])
  {
  }

  /** Any other line takes its statement fields from the table entry for
      line number `i + 1` when there is one, and has no statement
      information when there is none; its shape flags are the recognisers'. */
  lemma CodeLine(lines: seq<string>, info: map<int, LineInfo>, i: nat)
    requires i < |lines| && !InsideRawAfter(lines[..i]) && !AllSpace(lines[i])
    ensures var e := LineEvents(lines, info)[i];
            && (e.hasASTInfo <==> i + 1 in info)
            && (i + 1 in info ==>
                  && e.statementType == info[i + 1].statementType
                  && e.isTopLevel == info[i + 1].isTopLevel
                  && e.isScoped == info[i + 1].isScoped
                  && e.isStartLine == info[i + 1].isStartLine)
            && (i + 1 !in info ==> e.statementType == "" && !e.isTopLevel && !e.isScoped && !e.isStartLine)
    ensures var e := LineEvents(lines, info)[i];
            && e.isClosingBrace == IsClosingBrace(lines[i])
            && e.isOpeningBrace == IsOpeningBrace(lines[i])
            && e.isCaseLabel == IsCaseLabel(lines[i])
            && e.isCommentOnly == IsCommentOnly(lines[i])
            && e.isPackageDecl == IsPackageLine(TrimSpace(lines[i]))
            && !e.isBlank && !e.inRawString && !e.isContinuation
  {
  }

  // ---------------------------------------------------------------------
  // Comment modes

  /** The front end's comment modes are the integers 0, 1 and 2, in the
      order follow, precede, standalone. */
  const FollowCode := 0
  const PrecedeCode := 1
  const StandaloneCode := 2

  /** `MapCommentMode`: each known code to the engine mode of the same name;
      any other value to `CommentsFollow`. */
  function MapCommentMode(mode: int): (m: Engine.CommentMode)
    ensures mode == PrecedeCode <==> m == Engine.CommentsPrecede
    ensures mode == StandaloneCode <==> m == Engine.CommentsStandalone
    ensures mode != PrecedeCode && mode != StandaloneCode <==> m == Engine.CommentsFollow
  {
    if mode == FollowCode then Engine.CommentsFollow
    else if mode == PrecedeCode then Engine.CommentsPrecede
    else if mode == StandaloneCode then Engine.CommentsStandalone
    else Engine.CommentsFollow
  }

  /** The front-end code of an engine mode. */
  function CommentModeCode(m: Engine.CommentMode): int {
    match m
    case CommentsFollow => FollowCode
    case CommentsPrecede => PrecedeCode
    case CommentsStandalone => StandaloneCode
  }

  /** Mapping a mode's code gives the mode back, so every engine mode is
      reachable and no two codes of known modes collide. */
  lemma MapCommentModeRoundTrip(m: Engine.CommentMode)
    ensures MapCommentMode(CommentModeCode(m)) == m
  {
  }
}
