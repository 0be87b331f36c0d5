/** The per-line record the adapters produce and the engine consumes
    (engine/event.go). */
module Events {
  import opened Text

  /** One physical source line and its classification. `isContinuation` is
      read by the engine; no adapter sets it, so it stays false. */
  datatype LineEvent = LineEvent(
    content: string,
    trimmedContent: string,
    statementType: string,
    isTopLevel: bool,
    isScoped: bool,
    isStartLine: bool,
    hasASTInfo: bool,
    isClosingBrace: bool,
    isOpeningBrace: bool,
    isCaseLabel: bool,
    isCommentOnly: bool,
    isBlank: bool,
    inRawString: bool,
    isPackageDecl: bool,
    isContinuation: bool)

  /** No classification at all: every flag except `isBlank` false and no
      statement type. */
  ghost predicate Unclassified(e: LineEvent) {
    && e.statementType == ""
    && !e.isTopLevel && !e.isScoped && !e.isStartLine && !e.hasASTInfo
    && !e.isClosingBrace && !e.isOpeningBrace && !e.isCaseLabel && !e.isCommentOnly
    && !e.inRawString && !e.isPackageDecl && !e.isContinuation
  }

  /** The event for a freshly read line: its text, its trimmed text, blank
      exactly when the line is all spaces, and nothing else. */
  function NewLineEvent(content: string): (e: LineEvent)
    ensures e.content == content
    ensures IsTrimOf(e.trimmedContent, content)
    ensures e.isBlank <==> AllSpace(content)
    ensures e.isBlank <==> e.trimmedContent == []
    ensures Unclassified(e)
  {
    var trimmed := TrimSpace(content);
    LineEvent(content, trimmed, "", false, false, false, false, false, false, false, false, trimmed == "", false, false, false)
  }

  /** What an adapter hands the engine: the text it analysed (possibly
      rewritten) and one event per line of that text. */
  datatype Analysis = Analysis(text: string, events: seq<LineEvent>)
}
