/** The language-independent decision engine (engine/engine.go): one
    left-to-right pass over the line events that drops every input blank
    line, copies raw-string lines verbatim, and synthesises a blank line
    before a line when the classification rules ask for one. */
module Engine {
  import opened Wrappers
  import opened Events

  /** How a comment attaches to the code around it. */
  datatype CommentMode = CommentsFollow | CommentsPrecede | CommentsStandalone

  /** The engine's configuration. */
  datatype Engine = Engine(commentMode: CommentMode, groupSingleLineScopes: bool)

  /** What the pass carries from one emitted line to the next. The
      `previous…` classification fields describe the last emitted line that
      had a classification or a statement type. */
  datatype State = State(
    hasWrittenContent: bool,
    previousWasOpenBrace: bool,
    previousStatementType: string,
    previousWasComment: bool,
    previousWasTopLevel: bool,
    previousWasScoped: bool,
    previousWasSingleLineScope: bool)

  const Initial := State(false, false, "", false, false, false, false)

  /** An event the comment lookahead stops at. */
  predicate Significant(e: LineEvent) {
    !e.isBlank && !e.isCommentOnly
  }

  /** The least index at or after `start` holding a significant event, or -1
      when there is none (including when `start` is past the end). */
  function FindNextNonComment(events: seq<LineEvent>, start: nat): (r: int)
    ensures r == -1 || start <= r < |events|
    ensures r >= 0 ==> Significant(events[r])
    ensures r >= 0 ==> forall k :: start <= k < r ==> !Significant(events[k])
    ensures r == -1 <==> forall k :: start <= k < |events| ==> !Significant(events[k])
    decreases |events| - start
  {
    if start >= |events| then -1
    else if events[start].isBlank then FindNextNonComment(events, start + 1)
    else if events[start].isCommentOnly then FindNextNonComment(events, start + 1)
    else start
  }

  /** The event the lookahead from the head of `evs` lands on. */
  function Lookahead(evs: seq<LineEvent>): Option<LineEvent>
    requires |evs| > 0
  {
    var next := FindNextNonComment(evs, 1);
    if next >= 0 then Some(evs[next]) else None
  }

  /** The statement type a line is compared under: package clauses form
      their own pseudo-type. */
  function CurrentType(e: LineEvent): string {
    if e.isPackageDecl then "package" else e.statementType
  }

  /** A scoped statement written on one line, with no brace of its own. */
  predicate SingleLineScope(e: LineEvent) {
    e.hasASTInfo && e.isScoped && !e.isOpeningBrace && !e.isClosingBrace
  }

  /** Whether the lookahead target would have been separated from the
      previous line. */
  predicate LookaheadWantsBlank(next: LineEvent, st: State) {
    if next.isTopLevel && st.previousWasTopLevel && next.statementType != st.previousStatementType then true
    else if next.isScoped || st.previousWasScoped then true
    else if next.statementType != "" && st.previousStatementType != "" && next.statementType != st.previousStatementType then true
    else false
  }

  /** The decision for a non-blank, non-raw event `e`, given the event the
      comment lookahead reaches and the carried state. */
  predicate Decide(eng: Engine, e: LineEvent, next: Option<LineEvent>, st: State) {
    if st.hasWrittenContent && !st.previousWasOpenBrace && !e.isClosingBrace && !e.isCaseLabel && !e.isContinuation then
      var current := CurrentType(e);
      var currentIsTopLevel := e.hasASTInfo && e.isTopLevel;
      var currentIsScoped := e.hasASTInfo && e.isScoped;
      var unglued := eng.commentMode != CommentsFollow || !st.previousWasComment;
      var byRule :=
        if currentIsTopLevel && st.previousWasTopLevel && current != st.previousStatementType then unglued
        else if e.hasASTInfo && (currentIsScoped || st.previousWasScoped) then
          if eng.groupSingleLineScopes && SingleLineScope(e) && st.previousWasSingleLineScope && current == st.previousStatementType then false
          else unglued
        else if current != "" && st.previousStatementType != "" && current != st.previousStatementType then unglued
        else false;
      if eng.commentMode == CommentsFollow && e.isCommentOnly && !st.previousWasComment then
        if next.Some? && next.value.hasASTInfo && LookaheadWantsBlank(next.value, st) then true else byRule
      else byRule
    else false
  }

  /** Whether a blank line goes before the head of `evs`. */
  predicate NeedsBlankLine(eng: Engine, evs: seq<LineEvent>, st: State)
    requires |evs| > 0
  {
    Decide(eng, evs[0], Lookahead(evs), st)
  }

  /** The state after emitting the non-raw event `e`. */
  function Advance(st: State, e: LineEvent): State {
    var current := CurrentType(e);
    var written := st.(hasWrittenContent := true,
                       previousWasOpenBrace := e.isOpeningBrace || e.isCaseLabel,
                       previousWasComment := e.isCommentOnly);
    if e.hasASTInfo then
      written.(previousStatementType := e.statementType, previousWasTopLevel := e.isTopLevel,
               previousWasScoped := e.isScoped, previousWasSingleLineScope := SingleLineScope(e))
    else if current != "" then
      written.(previousStatementType := current, previousWasTopLevel := false,
               previousWasScoped := false, previousWasSingleLineScope := false)
    else written
  }

  /** The line terminator written before a line once output exists. */
  function Separator(st: State): string {
    if st.hasWrittenContent then "\n" else ""
  }

  /** The text the pass writes for `evs` from state `st` on, including the
      final line terminator. */
  function Run(eng: Engine, evs: seq<LineEvent>, st: State): (out: string)
    ensures |out| > 0 && out[|out| - 1] == '\n'
    decreases |evs|
  {
    if |evs| == 0 then "\n"
    else
      var e := evs[0];
      if e.inRawString then
        Separator(st) + e.content + Run(eng, evs[1..], st.(hasWrittenContent := true))
      else if e.isBlank then
        Run(eng, evs[1..], st)
      else
        (if NeedsBlankLine(eng, evs, st) then "\n" else "") + Separator(st) + e.content + Run(eng, evs[1..], Advance(st, e))
  }

  /** `Engine.FormatToString`: the normalised text, always ending in a line
      terminator. */
  function FormatToString(eng: Engine, events: seq<LineEvent>): (out: string)
    ensures |out| > 0 && out[|out| - 1] == '\n'
  {
    Run(eng, events, Initial)
  }
}
