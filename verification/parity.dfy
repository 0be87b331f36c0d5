/** The legacy rewriter and the engine agree: on canonical text whose raw
    strings are closed and are neither opened nor closed by a comment line,
    with the recognisers of patterns.go as its
    shape tests and one of the three known comment modes, the rewrite equals
    the engine's output over the Go adapter's events for the same text and
    line table. */
module Parity {
  import opened Wrappers
  import opened Text
  import opened Patterns
  import opened Events
  import Engine
  import GoAdapter
  import Rewrite
  import EngineLaws

  /** The rewriter's shape tests taken to be the byte-scanning recognisers. */
  const PatternShapes := Rewrite.LineShapes(IsClosingBrace, IsOpeningBrace, IsCaseLabel)

  function JobOf(mode: int, lines: seq<string>, info: map<int, GoAdapter.LineInfo>): Rewrite.Job {
    Rewrite.Job(mode, PatternShapes, lines, info)
  }

  /** The engine configured as the formatter configures it. */
  function EngineFor(mode: int): Engine.Engine {
    Engine.Engine(GoAdapter.MapCommentMode(mode), false)
  }

  /** No line opens or closes a raw string. */
  ghost predicate NoRawStrings(lines: seq<string>) {
    forall k :: RawFree(lines, k)
  }

  /** Line `k`, if there is one, holds an even number of raw-string
      delimiters. */
  ghost predicate RawFree(lines: seq<string>, k: int) {
    0 <= k < |lines| ==> CountRawStringDelimiters(lines[k]) % 2 == 0
  }

  /** Line `k`, if it is a comment line read outside a raw string, holds
      an even number of raw-string delimiters. */
  ghost predicate EvenCommentAt(lines: seq<string>, k: int) {
    0 <= k < |lines| && !InsideRawAfter(lines[..k]) && IsCommentOnly(lines[k]) ==>
      CountRawStringDelimiters(lines[k]) % 2 == 0
  }

  /** Every raw string is closed by the end of the text, and no comment
      line opens one. The rewriter's comment lookahead starts only on a
      comment line outside raw strings, so then it never enters one. */
  ghost predicate RawStringsContained(lines: seq<string>) {
    (forall k :: EvenCommentAt(lines, k)) && !InsideRawAfter(lines)
  }

  /** Text without raw strings meets the parity condition. */
  lemma NoRawStringsContained(lines: seq<string>)
    requires NoRawStrings(lines)
    ensures RawStringsContained(lines)
  {
    forall k ensures EvenCommentAt(lines, k) {
      assert RawFree(lines, k);
    }
    NeverInsideRaw(lines, |lines|);
    assert lines[..|lines|] == lines;
  }

  /** A line that trims to nothing holds no backtick. */
  lemma {:induction false} SpaceNoBackticks(s: string)
    requires AllSpace(s)
    ensures Backticks(s) == 0
  {
    if |s| > 0 {
      assert AllSpace(s[1..]) by {
        forall k | 0 <= k < |s[1..]| ensures IsSpace(s[1..][k]) {
          assert s[1..][k] == s[k + 1];
        }
      }
      SpaceNoBackticks(s[1..]);
    }
  }

  /** A blank or comment line read outside a raw string leaves the text
      outside raw strings. */
  lemma QuietLineEven(lines: seq<string>, k: nat)
    requires RawStringsContained(lines) && k < |lines| && !InsideRawAfter(lines[..k])
    requires !Rewrite.SignificantLine(lines[k])
    ensures !InsideRawAfter(lines[..k + 1])
  {
    InsideRawSnoc(lines, k + 1);
    if TrimSpace(lines[k]) == "" {
      SpaceNoBackticks(lines[k]);
    } else {
      assert EvenCommentAt(lines, k);
    }
  }

  /** A run of blank and comment lines that starts outside raw strings
      stays outside them. */
  lemma {:induction false} ClosedThrough(lines: seq<string>, s: nat, m: nat)
    requires RawStringsContained(lines) && s <= m <= |lines| && !InsideRawAfter(lines[..s])
    requires forall j :: s <= j < m ==> !Rewrite.SignificantLine(lines[j])
    ensures !InsideRawAfter(lines[..m])
    decreases m
  {
    if m > s {
      ClosedThrough(lines, s, m - 1);
      QuietLineEven(lines, m - 1);
    }
  }

  /** Lines as `Split` produces them: none holds a line terminator. */
  ghost predicate Unterminated(lines: seq<string>) {
    forall k :: TerminatorFree(lines, k)
  }

  /** Line `k`, if there is one, holds no line terminator. */
  ghost predicate TerminatorFree(lines: seq<string>, k: int) {
    0 <= k < |lines| ==> '\n' !in lines[k]
  }

  lemma {:induction false} NeverInsideRaw(lines: seq<string>, n: nat)
    requires NoRawStrings(lines) && n <= |lines|
    ensures !InsideRawAfter(lines[..n])
  {
    if n > 0 {
      NeverInsideRaw(lines, n - 1);
      assert RawFree(lines, n - 1);
      assert lines[..n][..n - 1] == lines[..n - 1];
    }
  }

  /** The rewriter's carried state (and whether it has written anything)
      matches the engine's on every field the decisions read. */
  ghost predicate Agrees(c: Rewrite.Carried, hasOutput: bool, st: Engine.State) {
    && st.hasWrittenContent == hasOutput
    && st.previousWasOpenBrace == c.previousWasOpenBrace
    && st.previousStatementType == c.previousStatementType
    && st.previousWasComment == c.previousWasComment
    && st.previousWasTopLevel == c.previousWasTopLevel
    && st.previousWasScoped == c.previousWasScoped
  }

  /** What the engine reads of the event for line `line`, with 1-based
      number `lineNumber`, outside raw strings: blank exactly when the line
      trims to nothing, and otherwise the table entry and the recognisers. */
  ghost predicate EventOf(e: LineEvent, line: string, lineNumber: int, info: map<int, GoAdapter.LineInfo>) {
    && e.content == line && !e.inRawString && !e.isContinuation
    && (e.isBlank <==> TrimSpace(line) == "")
    && (e.isBlank ==> !e.isCommentOnly)
    && (!e.isBlank ==>
          && (e.hasASTInfo <==> lineNumber in info)
          && (lineNumber in info ==>
                && e.statementType == info[lineNumber].statementType
                && e.isTopLevel == info[lineNumber].isTopLevel
                && e.isScoped == info[lineNumber].isScoped)
          && (lineNumber !in info ==> e.statementType == "")
          && e.isClosingBrace == IsClosingBrace(line)
          && e.isOpeningBrace == IsOpeningBrace(line)
          && e.isCaseLabel == IsCaseLabel(line)
          && e.isCommentOnly == IsCommentOnly(line)
          && e.isPackageDecl == IsPackageLine(TrimSpace(line)))
  }

  /** What the engine reads of the event for a line inside a raw string:
      the line, the raw flag, blank exactly when the line trims to nothing,
      never a comment and no table facts. */
  ghost predicate RawEventOf(e: LineEvent, line: string) {
    && e.content == line && e.inRawString
    && (e.isBlank <==> TrimSpace(line) == "")
    && !e.isCommentOnly && !e.hasASTInfo
  }

  /** One event per line, each described by its line. */
  ghost predicate Describes(evs: seq<LineEvent>, lines: seq<string>, info: map<int, GoAdapter.LineInfo>) {
    |evs| == |lines| && forall k :: DescribedAt(evs, lines, info, k)
  }

  /** Event `k`, if there is one, is described by line `k`. */
  ghost predicate DescribedAt(evs: seq<LineEvent>, lines: seq<string>, info: map<int, GoAdapter.LineInfo>, k: int) {
    0 <= k < |lines| && k < |evs| ==>
      if InsideRawAfter(lines[..k]) then RawEventOf(evs[k], lines[k]) else EventOf(evs[k], lines[k], k + 1, info)
  }

  /** The Go adapter's events are described by their lines. */
  lemma AdapterDescribes(lines: seq<string>, info: map<int, GoAdapter.LineInfo>)
    ensures Describes(GoAdapter.LineEvents(lines, info), lines, info)
  {
    forall k ensures DescribedAt(GoAdapter.LineEvents(lines, info), lines, info, k) {
      if 0 <= k < |lines| {
        AdapterEvent(lines, info, k);
      }
    }
  }

  lemma AdapterEvent(lines: seq<string>, info: map<int, GoAdapter.LineInfo>, k: nat)
    requires k < |lines|
    ensures DescribedAt(GoAdapter.LineEvents(lines, info), lines, info, k)
  {
    if InsideRawAfter(lines[..k]) {
      GoAdapter.RawLine(lines, info, k);
      RawParity(lines[..k]);
    } else if TrimSpace(lines[k]) == "" {
      GoAdapter.BlankLine(lines, info, k);
    } else {
      GoAdapter.CodeLine(lines, info, k);
    }
  }

  /** Outside raw strings, the event of a line is significant exactly when
      the line is. */
  lemma OutsideAlike(evs: seq<LineEvent>, lines: seq<string>, info: map<int, GoAdapter.LineInfo>, k: nat)
    requires Describes(evs, lines, info) && k < |lines| && !InsideRawAfter(lines[..k])
    ensures Engine.Significant(evs[k]) <==> Rewrite.SignificantLine(lines[k])
  {
    assert DescribedAt(evs, lines, info, k);
  }

  /** On a kept line the engine and the rewriter decide the same way. */
  lemma DecisionAgrees(mode: int, evs: seq<LineEvent>, lines: seq<string>, info: map<int, GoAdapter.LineInfo>, n: nat,
                       c: Rewrite.Carried, hasOutput: bool, st: Engine.State)
    requires 0 <= mode <= 2 && Describes(evs, lines, info) && RawStringsContained(lines)
    requires n < |lines| && !InsideRawAfter(lines[..n]) && TrimSpace(lines[n]) != ""
    requires Agrees(c, hasOutput, st)
    ensures Engine.NeedsBlankLine(EngineFor(mode), evs[n..], st)
            == Rewrite.NeedsBlank(JobOf(mode, lines, info), n, c, hasOutput)
  {
    var e := evs[n];
    assert evs[n..][0] == e;
    assert DescribedAt(evs, lines, info, n);
    EngineLaws.DecisionRule(EngineFor(mode), e, Engine.Lookahead(evs[n..]), st);
    RuleAgrees(mode, e, lines, info, n, c, hasOutput, st);
    LeadingAgreesAt(mode, evs, lines, info, n, c, hasOutput, st);
  }

  /** On a kept line the engine's comment lookahead demands a blank line
      exactly when the rewriter's does. */
  lemma LeadingAgreesAt(mode: int, evs: seq<LineEvent>, lines: seq<string>, info: map<int, GoAdapter.LineInfo>, n: nat,
                        c: Rewrite.Carried, hasOutput: bool, st: Engine.State)
    requires 0 <= mode <= 2 && Describes(evs, lines, info) && RawStringsContained(lines)
    requires n < |lines| && !InsideRawAfter(lines[..n]) && TrimSpace(lines[n]) != ""
    requires Agrees(c, hasOutput, st)
    ensures EngineLaws.LookaheadDemands(EngineFor(mode), evs[n], Engine.Lookahead(evs[n..]), st)
            == Rewrite.LeadingCommentWantsBlank(JobOf(mode, lines, info), n, c)
  {
    CommentLineAgrees(evs, lines, info, n);
    if IsCommentOnly(lines[n]) {
      CommentLeadingAgrees(mode, evs, lines, info, n, c, hasOutput, st);
    } else {
      CodeLeadingAgrees(mode, evs, lines, info, n, c, st);
    }
  }

  /** Neither pass looks ahead from a line that is not a comment. */
  lemma CodeLeadingAgrees(mode: int, evs: seq<LineEvent>, lines: seq<string>, info: map<int, GoAdapter.LineInfo>, n: nat,
                          c: Rewrite.Carried, st: Engine.State)
    requires n < |lines| && n < |evs| && !evs[n].isCommentOnly && !IsCommentOnly(lines[n])
    ensures !EngineLaws.LookaheadDemands(EngineFor(mode), evs[n], Engine.Lookahead(evs[n..]), st)
    ensures !Rewrite.LeadingCommentWantsBlank(JobOf(mode, lines, info), n, c)
  {
  }

  /** From a comment line outside raw strings both lookaheads reach the
      same line, so both passes demand a blank line alike. */
  lemma CommentLeadingAgrees(mode: int, evs: seq<LineEvent>, lines: seq<string>, info: map<int, GoAdapter.LineInfo>, n: nat,
                             c: Rewrite.Carried, hasOutput: bool, st: Engine.State)
    requires 0 <= mode <= 2 && Describes(evs, lines, info) && RawStringsContained(lines)
    requires n < |lines| && !InsideRawAfter(lines[..n]) && IsCommentOnly(lines[n]) && evs[n].isCommentOnly
    requires Agrees(c, hasOutput, st)
    ensures EngineLaws.LookaheadDemands(EngineFor(mode), evs[n], Engine.Lookahead(evs[n..]), st)
            == Rewrite.LeadingCommentWantsBlank(JobOf(mode, lines, info), n, c)
  {
    LookaheadTarget(evs, lines, info, n);
    var r := Rewrite.FindNextNonCommentLine(lines, n + 1);
    if r > 0 {
      ReachedAgrees(mode, evs, lines, info, n, r, c, hasOutput, st);
    } else {
      LeadingAgrees(mode, evs[n], None, r, lines, info, n, c, hasOutput, st);
    }
  }

  /** When the rewriter's lookahead from a comment line reaches a line read
      outside raw strings whose event the engine's lookahead reaches, both
      passes demand a blank line alike. */
  lemma ReachedAgrees(mode: int, evs: seq<LineEvent>, lines: seq<string>, info: map<int, GoAdapter.LineInfo>, n: nat,
                      r: nat, c: Rewrite.Carried, hasOutput: bool, st: Engine.State)
    requires 0 <= mode <= 2 && Describes(evs, lines, info)
    requires n < |lines| && evs[n].isCommentOnly == IsCommentOnly(lines[n])
    requires Agrees(c, hasOutput, st)
    requires r == Rewrite.FindNextNonCommentLine(lines, n + 1)
    requires n + 1 < r <= |lines| && Rewrite.SignificantLine(lines[r - 1]) && !InsideRawAfter(lines[..r - 1])
    requires Engine.Lookahead(evs[n..]) == Some(evs[r - 1])
    ensures EngineLaws.LookaheadDemands(EngineFor(mode), evs[n], Engine.Lookahead(evs[n..]), st)
            == Rewrite.LeadingCommentWantsBlank(JobOf(mode, lines, info), n, c)
  {
    TargetAgrees(evs, lines, info, r, c, hasOutput, st);
    LeadingAgrees(mode, evs[n], Some(evs[r - 1]), r, lines, info, n, c, hasOutput, st);
  }

  /** The engine's three transitions, outside a glued comment, are the
      rewriter's separation rule for the same line. */
  lemma RuleAgrees(mode: int, e: LineEvent, lines: seq<string>, info: map<int, GoAdapter.LineInfo>, n: nat,
                   c: Rewrite.Carried, hasOutput: bool, st: Engine.State)
    requires 0 <= mode <= 2 && n < |lines| && TrimSpace(lines[n]) != "" && EventOf(e, lines[n], n + 1, info)
    requires Agrees(c, hasOutput, st)
    ensures var eng := EngineFor(mode);
            var job := JobOf(mode, lines, info);
            (!EngineLaws.CommentGlued(eng, st)
              && (|| EngineLaws.TopLevelTransition(e, st)
                  || (EngineLaws.ScopeBoundary(e, st) && !EngineLaws.GroupedPair(eng, e, st))
                  || EngineLaws.TypeTransition(e, st)))
            == Rewrite.RuleWantsBlank(job, Rewrite.Entry(job, n + 1), Rewrite.CurrentType(job, n), c)
  {
    CurrentTypeAgrees(mode, e, lines, info, n);
  }

  /** The engine compares a line under the type the rewriter does. */
  lemma CurrentTypeAgrees(mode: int, e: LineEvent, lines: seq<string>, info: map<int, GoAdapter.LineInfo>, n: nat)
    requires n < |lines| && TrimSpace(lines[n]) != "" && EventOf(e, lines[n], n + 1, info)
    ensures Engine.CurrentType(e) == Rewrite.CurrentType(JobOf(mode, lines, info), n)
  {
  }

  /** The engine's comment lookahead demands a blank line exactly when the
      rewriter's does, given that the engine's lookahead target `next`
      carries the table facts of line `r`, the line the rewriter's
      lookahead reaches. */
  lemma LeadingAgrees(mode: int, e: LineEvent, next: Option<LineEvent>, r: nat, lines: seq<string>,
                      info: map<int, GoAdapter.LineInfo>, n: nat, c: Rewrite.Carried, hasOutput: bool, st: Engine.State)
    requires 0 <= mode <= 2 && n < |lines| && e.isCommentOnly == IsCommentOnly(lines[n])
    requires Agrees(c, hasOutput, st)
    requires r == Rewrite.FindNextNonCommentLine(lines, n + 1)
    requires r == 0 ==> next == None
    requires r > 0 ==> && next.Some? && (next.value.hasASTInfo <==> r in info)
                       && (r in info ==> (Engine.LookaheadWantsBlank(next.value, st) <==> Rewrite.LookaheadWantsBlank(info[r], c)))
    ensures EngineLaws.LookaheadDemands(EngineFor(mode), e, next, st)
            == Rewrite.LeadingCommentWantsBlank(JobOf(mode, lines, info), n, c)
  {
  }

  /** From a comment line outside raw strings, the engine's lookahead
      lands on the event of the line the rewriter's lookahead reaches, and
      that line too is read outside raw strings. */
  lemma LookaheadTarget(evs: seq<LineEvent>, lines: seq<string>, info: map<int, GoAdapter.LineInfo>, n: nat)
    requires Describes(evs, lines, info) && RawStringsContained(lines)
    requires n < |lines| && !InsideRawAfter(lines[..n]) && IsCommentOnly(lines[n])
    ensures var r := Rewrite.FindNextNonCommentLine(lines, n + 1);
            && (r == 0 ==> Engine.Lookahead(evs[n..]) == None)
            && (r > 0 ==> && n + 1 < r <= |lines| && Engine.Lookahead(evs[n..]) == Some(evs[r - 1])
                          && Rewrite.SignificantLine(lines[r - 1]) && !InsideRawAfter(lines[..r - 1]))
  {
    var r := Rewrite.FindNextNonCommentLine(lines, n + 1);
    Rewrite.FindNextNonCommentLineSpec(lines, n + 1);
    if r > 0 {
      TargetReached(evs, lines, info, n, r);
    } else {
      QuietRun(evs, lines, info, n, |lines|);
      LookaheadNone(evs, n);
    }
  }

  /** The line the rewriter's lookahead reaches is read outside raw
      strings, and its event is the engine's lookahead target. */
  lemma TargetReached(evs: seq<LineEvent>, lines: seq<string>, info: map<int, GoAdapter.LineInfo>, n: nat, r: nat)
    requires Describes(evs, lines, info) && RawStringsContained(lines)
    requires n < |lines| && !InsideRawAfter(lines[..n]) && IsCommentOnly(lines[n])
    requires n + 1 < r <= |lines| && Rewrite.SignificantLine(lines[r - 1])
    requires forall j :: n + 1 <= j < r - 1 ==> !Rewrite.SignificantLine(lines[j])
    ensures Engine.Lookahead(evs[n..]) == Some(evs[r - 1]) && !InsideRawAfter(lines[..r - 1])
  {
    QuietRunTo(evs, lines, info, n, r - 1);
    LookaheadAt(evs, n, r - 1);
  }

  /** The same run, ended by a significant line: its event is significant. */
  lemma QuietRunTo(evs: seq<LineEvent>, lines: seq<string>, info: map<int, GoAdapter.LineInfo>, n: nat, t: nat)
    requires Describes(evs, lines, info) && RawStringsContained(lines)
    requires n < t < |lines| && !InsideRawAfter(lines[..n]) && IsCommentOnly(lines[n])
    requires forall j :: n + 1 <= j < t ==> !Rewrite.SignificantLine(lines[j])
    requires Rewrite.SignificantLine(lines[t])
    ensures t < |evs| && Engine.Significant(evs[t]) && !InsideRawAfter(lines[..t])
    ensures forall k :: n < k < t ==> !Engine.Significant(evs[k])
  {
    QuietRun(evs, lines, info, n, t);
    OutsideAlike(evs, lines, info, t);
  }

  /** The blank and comment lines after a comment line outside raw strings
      are read outside raw strings too, and their events are not
      significant. */
  lemma QuietRun(evs: seq<LineEvent>, lines: seq<string>, info: map<int, GoAdapter.LineInfo>, n: nat, m: nat)
    requires Describes(evs, lines, info) && RawStringsContained(lines)
    requires n < m <= |lines| && !InsideRawAfter(lines[..n]) && IsCommentOnly(lines[n])
    requires forall j :: n + 1 <= j < m ==> !Rewrite.SignificantLine(lines[j])
    ensures !InsideRawAfter(lines[..m])
    ensures forall k :: n < k < m ==> !Engine.Significant(evs[k])
  {
    ClosedThrough(lines, n, m);
    forall k | n < k < m ensures !Engine.Significant(evs[k]) {
      ClosedThrough(lines, n, k);
      OutsideAlike(evs, lines, info, k);
    }
  }

  /** The engine's lookahead from event `n` reaches the first significant
      event after it. */
  lemma LookaheadAt(evs: seq<LineEvent>, n: nat, t: nat)
    requires n < t < |evs| && Engine.Significant(evs[t])
    requires forall k :: n < k < t ==> !Engine.Significant(evs[k])
    ensures Engine.Lookahead(evs[n..]) == Some(evs[t])
  {
    var tail := evs[n..];
    forall k | 1 <= k < t - n ensures !Engine.Significant(tail[k]) {
      assert tail[k] == evs[n + k];
    }
    assert tail[t - n] == evs[t];
  }

  /** With no significant event after event `n`, the lookahead finds none. */
  lemma LookaheadNone(evs: seq<LineEvent>, n: nat)
    requires n < |evs|
    requires forall k :: n < k < |evs| ==> !Engine.Significant(evs[k])
    ensures Engine.Lookahead(evs[n..]) == None
  {
    var tail := evs[n..];
    forall k | 1 <= k < |tail| ensures !Engine.Significant(tail[k]) {
      assert tail[k] == evs[n + k];
    }
  }

  /** The event of a kept line is comment-only exactly when the line is. */
  lemma CommentLineAgrees(evs: seq<LineEvent>, lines: seq<string>, info: map<int, GoAdapter.LineInfo>, n: nat)
    requires Describes(evs, lines, info) && n < |lines| && !InsideRawAfter(lines[..n]) && TrimSpace(lines[n]) != ""
    ensures evs[n].isCommentOnly == IsCommentOnly(lines[n])
  {
    assert DescribedAt(evs, lines, info, n);
  }

  /** The event of 1-based line `r` is described by that line. */
  lemma DescribedLine(evs: seq<LineEvent>, lines: seq<string>, info: map<int, GoAdapter.LineInfo>, r: int)
    requires Describes(evs, lines, info) && 0 < r <= |lines|
    ensures InsideRawAfter(lines[..r - 1]) ==> RawEventOf(evs[r - 1], lines[r - 1])
    ensures !InsideRawAfter(lines[..r - 1]) ==> EventOf(evs[r - 1], lines[r - 1], r, info)
  {
    assert DescribedAt(evs, lines, info, r - 1);
  }

  /** The lookahead target's event wants a blank line after the previous
      line exactly when its table entry does. */
  lemma TargetAgrees(evs: seq<LineEvent>, lines: seq<string>, info: map<int, GoAdapter.LineInfo>, r: int,
                     c: Rewrite.Carried, hasOutput: bool, st: Engine.State)
    requires Describes(evs, lines, info)
    requires 0 < r <= |lines| && !InsideRawAfter(lines[..r - 1]) && Rewrite.SignificantLine(lines[r - 1])
    requires Agrees(c, hasOutput, st)
    ensures evs[r - 1].hasASTInfo <==> r in info
    ensures r in info ==> (Engine.LookaheadWantsBlank(evs[r - 1], st) <==> Rewrite.LookaheadWantsBlank(info[r], c))
  {
    DescribedLine(evs, lines, info, r);
  }

  /** Keeping a line moves both states the same way. */
  lemma AdvanceAgrees(mode: int, evs: seq<LineEvent>, lines: seq<string>, info: map<int, GoAdapter.LineInfo>, n: nat,
                      c: Rewrite.Carried, hasOutput: bool, st: Engine.State)
    requires Describes(evs, lines, info) && n < |lines| && !InsideRawAfter(lines[..n]) && TrimSpace(lines[n]) != ""
    requires Agrees(c, hasOutput, st)
    ensures Agrees(Rewrite.Remember(JobOf(mode, lines, info), n, c), true, Engine.Advance(st, evs[n]))
  {
    assert DescribedAt(evs, lines, info, n);
  }

  /** Writing one more kept line adds the optional blank, the separator
      and the line. */
  lemma RenderSnoc(plan: seq<Rewrite.Placed>, blank: bool, line: string)
    requires blank ==> |plan| > 0
    ensures |plan| == 0 ==> Join(Rewrite.Render(plan + [Rewrite.Placed(blank, line)])) == line
    ensures |plan| > 0 && !blank ==>
              Join(Rewrite.Render(plan + [Rewrite.Placed(blank, line)])) == Join(Rewrite.Render(plan)) + "\n" + line
    ensures blank ==>
              Join(Rewrite.Render(plan + [Rewrite.Placed(blank, line)])) == Join(Rewrite.Render(plan)) + "\n" + "\n" + line
  {
    RenderAppend(plan, blank, line);
    var written := Rewrite.Render(plan);
    if blank {
      Rewrite.RenderLength(plan);
      JoinBlankAndLine(written, line);
    } else if |plan| == 0 {
      AppendEmpty([line]);
    } else {
      Rewrite.RenderLength(plan);
      JoinSnoc(written, line);
    }
  }

  /** Writing one more kept line adds its piece. */
  lemma RenderPiece(plan: seq<Rewrite.Placed>, blank: bool, line: string)
    requires blank ==> |plan| > 0
    ensures Join(Rewrite.Render(plan + [Rewrite.Placed(blank, line)])) ==
              Join(Rewrite.Render(plan)) + Piece(blank, |plan| > 0, line)
  {
    RenderSnoc(plan, blank, line);
    var written := Join(Rewrite.Render(plan));
    if blank {
      AppendAssoc(written, "\n", "\n");
      AppendAssoc(written, "\n" + "\n", line);
    } else if |plan| > 0 {
      AppendAssoc(written, "\n", line);
    } else {
      Rewrite.RenderLength(plan);
      AppendEmpty(line);
    }
  }

  lemma RenderAppend(plan: seq<Rewrite.Placed>, blank: bool, line: string)
    ensures Rewrite.Render(plan + [Rewrite.Placed(blank, line)]) ==
              Rewrite.Render(plan) + (if blank then ["", line] else [line])
  {
    var plan' := plan + [Rewrite.Placed(blank, line)];
    assert plan'[..|plan'| - 1] == plan;
  }

  lemma JoinBlankAndLine(written: seq<string>, line: string)
    requires |written| > 0
    ensures Join(written + ["", line]) == Join(written) + "\n" + "\n" + line
  {
    JoinSnoc(written, "");
    JoinSnoc(written + [""], line);
    PairSnoc("", line);
    AppendAssoc(written, [""], [line]);
    AppendEmpty(Join(written) + "\n");
  }

  lemma PairSnoc<T>(a: T, b: T)
    ensures [a, b] == [a] + [b]
  {
  }

  /** Text that is empty or does not end in a line terminator. */
  predicate OpenEnded(s: string) {
    s == [] || s[|s| - 1] != '\n'
  }

  /** Outside raw strings the rewriter's written text is empty or ends in
      a written line's last character, never a line terminator. */
  lemma {:induction false} WrittenEndsInText(mode: int, lines: seq<string>, info: map<int, GoAdapter.LineInfo>, n: nat)
    requires Unterminated(lines) && n <= |lines| && !InsideRawAfter(lines[..n])
    ensures OpenEnded(Join(Rewrite.Render(Rewrite.RunTo(JobOf(mode, lines, info), n).plan)))
    decreases n, 1
  {
    if n > 0 {
      OpenEndedStep(mode, lines, info, n);
    }
  }

  /** Reading one more line, and ending outside a raw string, leaves the
      written text open-ended. */
  lemma {:induction false} OpenEndedStep(mode: int, lines: seq<string>, info: map<int, GoAdapter.LineInfo>, n: nat)
    requires Unterminated(lines) && 0 < n <= |lines| && !InsideRawAfter(lines[..n])
    ensures OpenEnded(Join(Rewrite.Render(Rewrite.RunTo(JobOf(mode, lines, info), n).plan)))
    decreases n, 0
  {
    var i := n - 1;
    var job := JobOf(mode, lines, info);
    var line := lines[i];
    InsideRawSnoc(lines, n);
    assert TerminatorFree(lines, i);
    if InsideRawAfter(lines[..i]) {
      Rewrite.RawLineVerbatim(job, i);
      var before := Rewrite.RunTo(job, i);
      RenderPiece(before.plan, false, line);
      RawLastOfLine(line);
      OpenEndedAppend(Join(Rewrite.Render(before.plan)), false, |before.plan| > 0, line);
    } else if TrimSpace(line) == "" {
      WrittenEndsInText(mode, lines, info, i);
      Rewrite.BlankLineDropped(job, i);
    } else {
      Rewrite.CodeLineKept(job, i);
      var before := Rewrite.RunTo(job, i);
      var blank := Rewrite.NeedsBlank(job, i, before.carried, |before.plan| > 0);
      RenderPiece(before.plan, blank, line);
      LastOfLine(line);
      OpenEndedAppend(Join(Rewrite.Render(before.plan)), blank, |before.plan| > 0, line);
    }
  }

  /** A kept line is not empty and, holding no terminator, does not end in one. */
  lemma LastOfLine(line: string)
    requires TrimSpace(line) != "" && '\n' !in line
    ensures |line| > 0 && line[|line| - 1] != '\n'
  {
  }

  /** A line that closes a raw string holds a delimiter, so it is not
      empty and, holding no terminator, does not end in one. */
  lemma RawLastOfLine(line: string)
    requires CountRawStringDelimiters(line) % 2 == 1 && '\n' !in line
    ensures |line| > 0 && line[|line| - 1] != '\n'
  {
    assert Backticks([]) == 0;
  }

  /** Appending the piece of a line that does not end in a terminator
      gives open-ended text. */
  lemma OpenEndedAppend(written: string, blank: bool, hasOutput: bool, line: string)
    requires |line| > 0 && line[|line| - 1] != '\n'
    ensures OpenEnded(written + Piece(blank, hasOutput, line))
  {
    var out := written + Piece(blank, hasOutput, line);
    assert out[|out| - 1] == line[|line| - 1];
  }

  /** The parity conditions on the lines and their events. */
  ghost predicate Setting(mode: int, evs: seq<LineEvent>, lines: seq<string>, info: map<int, GoAdapter.LineInfo>) {
    0 <= mode <= 2 && RawStringsContained(lines) && Unterminated(lines) && Describes(evs, lines, info)
  }

  /** After `n` lines the rewriter's state matches the engine state `st`. */
  ghost predicate MatchesAt(mode: int, lines: seq<string>, info: map<int, GoAdapter.LineInfo>, n: nat, st: Engine.State) {
    n <= |lines| && var p := Rewrite.RunTo(JobOf(mode, lines, info), n); Agrees(p.carried, |p.plan| > 0, st)
  }

  /** The rewriter's text for the first `n` lines followed by the engine's
      output for the remaining events from state `st`. */
  ghost function Joint(mode: int, evs: seq<LineEvent>, lines: seq<string>, info: map<int, GoAdapter.LineInfo>,
                       n: nat, st: Engine.State): string
    requires n <= |lines| && |evs| == |lines|
  {
    Join(Rewrite.Render(Rewrite.RunTo(JobOf(mode, lines, info), n).plan)) + Engine.Run(EngineFor(mode), evs[n..], st)
  }

  /** The invariant of the joint pass: from matching states, the text the
      rewriter has written for the first `n` lines, followed by the engine's
      output for the remaining events, is the rewrite. */
  lemma {:induction false} ParityFrom(mode: int, evs: seq<LineEvent>, lines: seq<string>, info: map<int, GoAdapter.LineInfo>,
                                      n: nat, st: Engine.State)
    requires Setting(mode, evs, lines, info) && MatchesAt(mode, lines, info, n, st)
    ensures Joint(mode, evs, lines, info, n, st) == Rewrite.Rewrite(JobOf(mode, lines, info))
    decreases |lines| - n, 1
  {
    if n == |lines| {
      FinalStep(mode, evs, lines, info, n, st);
    } else {
      ParityStep(mode, evs, lines, info, n, st);
    }
  }

  /** The invariant before a line follows from the invariant after it. */
  lemma {:induction false} ParityStep(mode: int, evs: seq<LineEvent>, lines: seq<string>, info: map<int, GoAdapter.LineInfo>,
                                      n: nat, st: Engine.State)
    requires Setting(mode, evs, lines, info) && MatchesAt(mode, lines, info, n, st) && n < |lines|
    ensures Joint(mode, evs, lines, info, n, st) == Rewrite.Rewrite(JobOf(mode, lines, info))
    decreases |lines| - n, 0
  {
    var st' := NextStep(mode, evs, lines, info, n, st);
    ParityFrom(mode, evs, lines, info, n + 1, st');
  }

  /** Reading line `n` moves both passes on together: the written text
      grows by what the engine writes for the line, and the states still
      agree. */
  lemma NextStep(mode: int, evs: seq<LineEvent>, lines: seq<string>, info: map<int, GoAdapter.LineInfo>,
                 n: nat, st: Engine.State) returns (st': Engine.State)
    requires Setting(mode, evs, lines, info) && MatchesAt(mode, lines, info, n, st) && n < |lines|
    ensures MatchesAt(mode, lines, info, n + 1, st')
    ensures Joint(mode, evs, lines, info, n + 1, st') == Joint(mode, evs, lines, info, n, st)
  {
    if InsideRawAfter(lines[..n]) {
      RawStep(mode, evs, lines, info, n, st);
      st' := st.(hasWrittenContent := true);
    } else if TrimSpace(lines[n]) == "" {
      BlankStep(mode, evs, lines, info, n, st);
      st' := st;
    } else {
      KeptStep(mode, evs, lines, info, n, st);
      st' := Engine.Advance(st, evs[n]);
    }
  }

  /** After the last line the engine writes only the final terminator,
      which is what the rewriter adds to its written text. */
  lemma FinalStep(mode: int, evs: seq<LineEvent>, lines: seq<string>, info: map<int, GoAdapter.LineInfo>,
                  n: nat, st: Engine.State)
    requires Unterminated(lines) && !InsideRawAfter(lines) && |evs| == |lines| && n == |lines|
    ensures Joint(mode, evs, lines, info, n, st) == Rewrite.Rewrite(JobOf(mode, lines, info))
  {
    FinalTerminator(mode, lines, info);
    assert evs[n..] == [];
  }

  /** With every raw string closed, the rewrite is the written text plus
      the one terminator the rewriter adds. */
  lemma FinalTerminator(mode: int, lines: seq<string>, info: map<int, GoAdapter.LineInfo>)
    requires Unterminated(lines) && !InsideRawAfter(lines)
    ensures Rewrite.Rewrite(JobOf(mode, lines, info))
            == Join(Rewrite.Render(Rewrite.RunTo(JobOf(mode, lines, info), |lines|).plan)) + "\n"
  {
    ReadAll(lines);
    WrittenEndsInText(mode, lines, info, |lines|);
    RewriteOfOpen(JobOf(mode, lines, info));
  }

  /** When the written text is open-ended the rewriter adds one terminator. */
  lemma RewriteOfOpen(job: Rewrite.Job)
    requires OpenEnded(Join(Rewrite.Render(Rewrite.RunTo(job, |job.lines|).plan)))
    ensures Rewrite.Rewrite(job) == Join(Rewrite.Render(Rewrite.RunTo(job, |job.lines|).plan)) + "\n"
  {
  }

  lemma ReadAll(lines: seq<string>)
    ensures InsideRawAfter(lines[..|lines|]) == InsideRawAfter(lines)
  {
    assert lines[..|lines|] == lines;
  }

  /** A blank line changes neither pass's output nor the agreement of their
      states. */
  lemma BlankStep(mode: int, evs: seq<LineEvent>, lines: seq<string>, info: map<int, GoAdapter.LineInfo>,
                  n: nat, st: Engine.State)
    requires n < |lines| && !InsideRawAfter(lines[..n]) && TrimSpace(lines[n]) == ""
    requires Describes(evs, lines, info)
    requires var p := Rewrite.RunTo(JobOf(mode, lines, info), n);
             Agrees(p.carried, |p.plan| > 0, st)
    ensures var job := JobOf(mode, lines, info);
            var p := Rewrite.RunTo(job, n + 1);
            && Agrees(p.carried, |p.plan| > 0, st)
            && p.plan == Rewrite.RunTo(job, n).plan
            && Engine.Run(EngineFor(mode), evs[n..], st) == Engine.Run(EngineFor(mode), evs[n + 1..], st)
  {
    var job := JobOf(mode, lines, info);
    Rewrite.BlankLineDropped(job, n);
    assert evs[n..][1..] == evs[n + 1..];
    assert evs[n..][0] == evs[n];
    assert DescribedAt(evs, lines, info, n);
  }

  /** A kept line adds the same piece to both outputs and keeps the states
      in agreement. */
  lemma KeptStep(mode: int, evs: seq<LineEvent>, lines: seq<string>, info: map<int, GoAdapter.LineInfo>,
                 n: nat, st: Engine.State)
    requires 0 <= mode <= 2 && n < |lines| && !InsideRawAfter(lines[..n]) && TrimSpace(lines[n]) != ""
    requires Describes(evs, lines, info) && RawStringsContained(lines)
    requires var p := Rewrite.RunTo(JobOf(mode, lines, info), n);
             Agrees(p.carried, |p.plan| > 0, st)
    ensures var job := JobOf(mode, lines, info);
            var p := Rewrite.RunTo(job, n + 1);
            var st' := Engine.Advance(st, evs[n]);
            && Agrees(p.carried, |p.plan| > 0, st')
            && Join(Rewrite.Render(p.plan)) + Engine.Run(EngineFor(mode), evs[n + 1..], st')
               == Join(Rewrite.Render(Rewrite.RunTo(job, n).plan)) + Engine.Run(EngineFor(mode), evs[n..], st)
  {
    var job := JobOf(mode, lines, info);
    var p := Rewrite.RunTo(job, n);
    var line := lines[n];
    Rewrite.CodeLineKept(job, n);
    var hasOutput := |p.plan| > 0;
    var blank := Rewrite.NeedsBlank(job, n, p.carried, hasOutput);
    assert evs[n..][0] == evs[n];
    assert evs[n..][1..] == evs[n + 1..];
    assert DescribedAt(evs, lines, info, n);
    DecisionAgrees(mode, evs, lines, info, n, p.carried, hasOutput, st);
    var toggled := p.carried.(insideRaw := ToggleRaw(false, line));
    AdvanceAgrees(mode, evs, lines, info, n, toggled, hasOutput, st);
    var st' := Engine.Advance(st, evs[n]);
    RenderPiece(p.plan, blank, line);
    KeptLineStep(EngineFor(mode), evs[n..], st);
    var written := Join(Rewrite.Render(p.plan));
    var piece := Piece(blank, hasOutput, line);
    var rest := Engine.Run(EngineFor(mode), evs[n + 1..], st');
    AppendAssoc(written, piece, rest);
  }

  /** A line read inside a raw string is written verbatim by both passes,
      after the separator once output exists; only the output flag and the
      raw-string flag change. */
  lemma RawStep(mode: int, evs: seq<LineEvent>, lines: seq<string>, info: map<int, GoAdapter.LineInfo>,
                n: nat, st: Engine.State)
    requires n < |lines| && InsideRawAfter(lines[..n])
    requires Describes(evs, lines, info)
    requires var p := Rewrite.RunTo(JobOf(mode, lines, info), n);
             Agrees(p.carried, |p.plan| > 0, st)
    ensures var job := JobOf(mode, lines, info);
            var p := Rewrite.RunTo(job, n + 1);
            var st' := st.(hasWrittenContent := true);
            && Agrees(p.carried, |p.plan| > 0, st')
            && Join(Rewrite.Render(p.plan)) + Engine.Run(EngineFor(mode), evs[n + 1..], st')
               == Join(Rewrite.Render(Rewrite.RunTo(job, n).plan)) + Engine.Run(EngineFor(mode), evs[n..], st)
  {
    var job := JobOf(mode, lines, info);
    var p := Rewrite.RunTo(job, n);
    var line := lines[n];
    Rewrite.RawLineVerbatim(job, n);
    assert evs[n..][0] == evs[n];
    assert evs[n..][1..] == evs[n + 1..];
    assert DescribedAt(evs, lines, info, n);
    RenderPiece(p.plan, false, line);
    var st' := st.(hasWrittenContent := true);
    EngineRawLine(EngineFor(mode), evs[n..], st);
    var written := Join(Rewrite.Render(p.plan));
    var piece := Piece(false, |p.plan| > 0, line);
    var rest := Engine.Run(EngineFor(mode), evs[n + 1..], st');
    AppendAssoc(written, piece, rest);
  }

  /** The engine's output for a raw event is its piece, without a blank
      line, followed by the output for the remaining events. */
  lemma EngineRawLine(eng: Engine.Engine, evs: seq<LineEvent>, st: Engine.State)
    requires |evs| > 0 && evs[0].inRawString
    ensures Engine.Run(eng, evs, st) ==
              Piece(false, st.hasWrittenContent, evs[0].content)
              + Engine.Run(eng, evs[1..], st.(hasWrittenContent := true))
  {
    AppendEmpty(evs[0].content);
  }

  /** What both passes write for a kept line: the optional blank line, the
      separator once output exists, and the line. */
  function Piece(blank: bool, hasOutput: bool, line: string): string {
    (if blank then "\n" + "\n" else if hasOutput then "\n" else "") + line
  }

  /** The engine's output for a kept line is its piece followed by the
      output for the remaining events. */
  lemma KeptLineStep(eng: Engine.Engine, evs: seq<LineEvent>, st: Engine.State)
    requires |evs| > 0 && !evs[0].inRawString && !evs[0].isBlank
    ensures Engine.Run(eng, evs, st) ==
              Piece(Engine.NeedsBlankLine(eng, evs, st), st.hasWrittenContent, evs[0].content)
              + Engine.Run(eng, evs[1..], Engine.Advance(st, evs[0]))
  {
    EngineKeptLine(eng, evs, st);
    AppendEmpty("\n");
    AppendEmpty(evs[0].content);
  }

  lemma EngineKeptLine(eng: Engine.Engine, evs: seq<LineEvent>, st: Engine.State)
    requires |evs| > 0 && !evs[0].inRawString && !evs[0].isBlank
    ensures Engine.NeedsBlankLine(eng, evs, st) ==> st.hasWrittenContent
    ensures Engine.Run(eng, evs, st) ==
              (if Engine.NeedsBlankLine(eng, evs, st) then "\n" else "") + Engine.Separator(st) + evs[0].content
              + Engine.Run(eng, evs[1..], Engine.Advance(st, evs[0]))
  {
  }

  /** The rewrite of canonical text whose raw strings are closed and are
      neither opened nor closed by a comment line equals the engine's
      output over the Go adapter's events for that text, in each of the
      three known comment modes and for any line table. */
  lemma RewriteMatchesEngine(mode: int, text: string, info: map<int, GoAdapter.LineInfo>)
    requires 0 <= mode <= 2 && RawStringsContained(Split(text))
    ensures Rewrite.RewriteText(mode, PatternShapes, text, info)
            == Engine.FormatToString(EngineFor(mode), GoAdapter.LineEvents(Split(text), info))
  {
    var lines := Split(text);
    var evs := GoAdapter.LineEvents(lines, info);
    AdapterDescribes(lines, info);
    SplitUnterminated(text);
    StartMatches(mode, lines, info);
    ParityFrom(mode, evs, lines, info, 0, Engine.Initial);
    JointAtStart(mode, evs, lines, info);
  }

  /** In particular the two passes agree on canonical text without raw
      strings. */
  lemma RewriteMatchesEngineWithoutRaw(mode: int, text: string, info: map<int, GoAdapter.LineInfo>)
    requires 0 <= mode <= 2 && NoRawStrings(Split(text))
    ensures Rewrite.RewriteText(mode, PatternShapes, text, info)
            == Engine.FormatToString(EngineFor(mode), GoAdapter.LineEvents(Split(text), info))
  {
    NoRawStringsContained(Split(text));
    RewriteMatchesEngine(mode, text, info);
  }

  /** The lines of a split text hold no line terminator. */
  lemma SplitUnterminated(text: string)
    ensures Unterminated(Split(text))
  {
    forall k ensures TerminatorFree(Split(text), k) {
    }
  }

  /** Before any line is read, the rewriter's state matches the engine's
      initial state. */
  lemma StartMatches(mode: int, lines: seq<string>, info: map<int, GoAdapter.LineInfo>)
    ensures MatchesAt(mode, lines, info, 0, Engine.Initial)
  {
  }

  /** Before any line is read, the joint text is the engine's whole output. */
  lemma JointAtStart(mode: int, evs: seq<LineEvent>, lines: seq<string>, info: map<int, GoAdapter.LineInfo>)
    requires |evs| == |lines|
    ensures Joint(mode, evs, lines, info, 0, Engine.Initial) == Engine.FormatToString(EngineFor(mode), evs)
  {
    assert evs[0..] == evs;
    AppendEmpty(Engine.FormatToString(EngineFor(mode), evs));
  }
}
