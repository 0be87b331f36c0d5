/** Laws of the decision engine: what it drops, what it copies, where it
    may and may not put a blank line, and how the written text is laid out. */
module EngineLaws {
  import opened Wrappers
  import opened Text
  import opened Events
  import opened Engine

  /** An input blank line outside a raw string: the engine drops it. */
  predicate Dropped(e: LineEvent) {
    e.isBlank && !e.inRawString
  }

  /** The events the engine emits, in order. */
  function Kept(evs: seq<LineEvent>): (r: seq<LineEvent>)
    ensures |r| <= |evs|
    ensures forall k :: 0 <= k < |r| ==> !Dropped(r[k])
  {
    if |evs| == 0 then []
    else (if Dropped(evs[0]) then [] else [evs[0]]) + Kept(evs[1..])
  }

  lemma {:induction false} KeptAppend(a: seq<LineEvent>, b: seq<LineEvent>)
    ensures Kept(a + b) == Kept(a) + Kept(b)
  {
    if |a| == 0 {
      assert a + b == b;
    } else {
      assert (a + b)[0] == a[0];
      assert (a + b)[1..] == a[1..] + b;
      KeptAppend(a[1..], b);
      var head := if Dropped(a[0]) then [] else [a[0]];
      assert Kept(a + b) == head + (Kept(a[1..]) + Kept(b));
      assert Kept(a) == head + Kept(a[1..]);
    }
  }

  lemma {:induction false} KeptOfDropped(blanks: seq<LineEvent>)
    requires forall k :: 0 <= k < |blanks| ==> Dropped(blanks[k])
    ensures Kept(blanks) == []
  {
    if |blanks| > 0 {
      KeptOfDropped(blanks[1..]);
    }
  }

  /** The first significant event of `s`, if any. */
  function FirstSignificant(s: seq<LineEvent>): Option<LineEvent> {
    if |s| == 0 then None
    else if Significant(s[0]) then Some(s[0])
    else FirstSignificant(s[1..])
  }

  lemma {:induction false} FindNextIsFirstSignificant(evs: seq<LineEvent>, start: nat)
    requires start <= |evs|
    ensures var k := FindNextNonComment(evs, start);
            (if k >= 0 then Some(evs[k]) else None) == FirstSignificant(evs[start..])
    decreases |evs| - start
  {
    if start < |evs| {
      assert evs[start..][1..] == evs[start + 1..];
      FindNextIsFirstSignificant(evs, start + 1);
    }
  }

  /** The lookahead lands on the first significant event after the head. */
  lemma LookaheadIsFirstSignificant(evs: seq<LineEvent>)
    requires |evs| > 0
    ensures Lookahead(evs) == FirstSignificant(evs[1..])
  {
    FindNextIsFirstSignificant(evs, 1);
  }

  lemma {:induction false} FirstSignificantOfKept(s: seq<LineEvent>)
    ensures FirstSignificant(Kept(s)) == FirstSignificant(s)
  {
    if |s| > 0 {
      FirstSignificantOfKept(s[1..]);
      if Dropped(s[0]) {
        assert Kept(s) == Kept(s[1..]);
      } else {
        assert Kept(s)[0] == s[0];
        assert Kept(s)[1..] == Kept(s[1..]);
      }
    }
  }

  /** Input blank lines outside raw strings contribute nothing: the text is
      that of the kept events alone. */
  lemma {:induction false} BlankLinesIgnored(eng: Engine, evs: seq<LineEvent>, st: State)
    ensures Run(eng, evs, st) == Run(eng, Kept(evs), st)
    decreases |evs|
  {
    if |evs| > 0 {
      var e := evs[0];
      if Dropped(e) {
        assert Kept(evs) == Kept(evs[1..]);
        BlankLinesIgnored(eng, evs[1..], st);
      } else {
        var kept := Kept(evs);
        assert kept[0] == e && kept[1..] == Kept(evs[1..]);
        if e.inRawString {
          BlankLinesIgnored(eng, evs[1..], st.(hasWrittenContent := true));
        } else {
          LookaheadIsFirstSignificant(evs);
          LookaheadIsFirstSignificant(kept);
          FirstSignificantOfKept(evs[1..]);
          assert NeedsBlankLine(eng, evs, st) == NeedsBlankLine(eng, kept, st);
          BlankLinesIgnored(eng, evs[1..], Advance(st, e));
        }
      }
    }
  }

  /** Two inputs that differ only in their blank lines format the same. */
  lemma BlankRunsCollapse(eng: Engine, a: seq<LineEvent>, b: seq<LineEvent>)
    requires Kept(a) == Kept(b)
    ensures FormatToString(eng, a) == FormatToString(eng, b)
  {
    BlankLinesIgnored(eng, a, Initial);
    BlankLinesIgnored(eng, b, Initial);
  }

  /** Inserting any run of blank lines anywhere leaves the output unchanged. */
  lemma InsertedBlanksIgnored(eng: Engine, a: seq<LineEvent>, blanks: seq<LineEvent>, b: seq<LineEvent>)
    requires forall k :: 0 <= k < |blanks| ==> Dropped(blanks[k])
    ensures FormatToString(eng, a + blanks + b) == FormatToString(eng, a + b)
  {
    KeptAppend(a + blanks, b);
    KeptAppend(a, blanks);
    KeptAppend(a, b);
    KeptOfDropped(blanks);
    BlankRunsCollapse(eng, a + blanks + b, a + b);
  }

  /** Raw-string lines each written after one line terminator. */
  function RawText(rs: seq<LineEvent>): string {
    if |rs| == 0 then "" else "\n" + rs[0].content + RawText(rs[1..])
  }

  /** Once output exists, a run of raw-string events is written verbatim,
      one separator each, and the rest is formatted from the same state. */
  lemma {:induction false} RawLinesVerbatim(eng: Engine, rs: seq<LineEvent>, rest: seq<LineEvent>, st: State)
    requires st.hasWrittenContent
    requires forall k :: 0 <= k < |rs| ==> rs[k].inRawString
    ensures Run(eng, rs + rest, st) == RawText(rs) + Run(eng, rest, st)
  {
    if |rs| > 0 {
      var xs := rs + rest;
      assert xs[0] == rs[0];
      assert xs[1..] == rs[1..] + rest;
      RawAfterOutput(eng, xs, st);
      RawLinesVerbatim(eng, rs[1..], rest, st);
      AppendAssoc("\n" + rs[0].content, RawText(rs[1..]), Run(eng, rest, st));
    } else {
      assert rs + rest == rest;
    }
  }

  /** A raw-string line, once output exists, is written after one line
      terminator and leaves the state alone. */
  lemma RawAfterOutput(eng: Engine, evs: seq<LineEvent>, st: State)
    requires st.hasWrittenContent && |evs| > 0 && evs[0].inRawString
    ensures Run(eng, evs, st) == "\n" + evs[0].content + Run(eng, evs[1..], st)
  {
    assert st.(hasWrittenContent := true) == st;
  }

  /** One emitted line and whether a synthesised blank line precedes it. */
  datatype Emission = Emission(blankBefore: bool, event: LineEvent)

  /** The line-level view of the pass: the emitted events with their
      blank-line decisions. */
  function Plan(eng: Engine, evs: seq<LineEvent>, st: State): seq<Emission>
    decreases |evs|
  {
    if |evs| == 0 then []
    else
      var e := evs[0];
      if e.inRawString then [Emission(false, e)] + Plan(eng, evs[1..], st.(hasWrittenContent := true))
      else if e.isBlank then Plan(eng, evs[1..], st)
      else [Emission(NeedsBlankLine(eng, evs, st), e)] + Plan(eng, evs[1..], Advance(st, e))
  }

  function EmittedEvents(plan: seq<Emission>): seq<LineEvent> {
    if |plan| == 0 then [] else [plan[0].event] + EmittedEvents(plan[1..])
  }

  /** The lines of the output: each emitted line, preceded by an empty line
      where one was synthesised. */
  function OutputLines(plan: seq<Emission>): seq<string> {
    if |plan| == 0 then []
    else (if plan[0].blankBefore then ["", plan[0].event.content] else [plan[0].event.content]) + OutputLines(plan[1..])
  }

  /** The emitted events are exactly the kept input events, in order. */
  lemma {:induction false} PlanKeepsEvents(eng: Engine, evs: seq<LineEvent>, st: State)
    ensures EmittedEvents(Plan(eng, evs, st)) == Kept(evs)
    decreases |evs|
  {
    if |evs| > 0 {
      var e := evs[0];
      var st' := if e.inRawString then st.(hasWrittenContent := true) else if e.isBlank then st else Advance(st, e);
      PlanKeepsEvents(eng, evs[1..], st');
    }
  }

  /** The text written after the first emitted line. */
  function Trailer(plan: seq<Emission>): string {
    if |plan| == 0 then ""
    else (if plan[0].blankBefore then "\n\n" else "\n") + plan[0].event.content + Trailer(plan[1..])
  }

  /** One step of the pass, once output exists: the next emission's text
      is its share of the trailer. */
  lemma StepAfterOutput(eng: Engine, evs: seq<LineEvent>, st: State)
    requires st.hasWrittenContent && |evs| > 0 && !Dropped(evs[0])
    ensures var e := evs[0];
            var st' := if e.inRawString then st else Advance(st, e);
            var b := !e.inRawString && NeedsBlankLine(eng, evs, st);
            && Plan(eng, evs, st) == [Emission(b, e)] + Plan(eng, evs[1..], st')
            && Run(eng, evs, st) == (if b then "\n\n" else "\n") + e.content + Run(eng, evs[1..], st')
  {
    assert st.(hasWrittenContent := true) == st;
  }

  lemma {:induction false} RunAfterOutput(eng: Engine, evs: seq<LineEvent>, st: State)
    requires st.hasWrittenContent
    ensures Run(eng, evs, st) == Trailer(Plan(eng, evs, st)) + "\n"
    decreases |evs|, 1
  {
    if |evs| > 0 {
      if Dropped(evs[0]) {
        RunAfterOutput(eng, evs[1..], st);
      } else {
        EmitAfterOutput(eng, evs, st);
      }
    }
  }

  /** `RunAfterOutput` for a sequence whose head is emitted. */
  lemma {:induction false} EmitAfterOutput(eng: Engine, evs: seq<LineEvent>, st: State)
    requires st.hasWrittenContent && |evs| > 0 && !Dropped(evs[0])
    ensures Run(eng, evs, st) == Trailer(Plan(eng, evs, st)) + "\n"
    decreases |evs|, 0
  {
    var e := evs[0];
    var st' := if e.inRawString then st else Advance(st, e);
    StepAfterOutput(eng, evs, st);
    AdvanceWrites(st, e);
    RunAfterOutput(eng, evs[1..], st');
    TrailerStep(if !e.inRawString && NeedsBlankLine(eng, evs, st) then "\n\n" else "\n", e,
                Plan(eng, evs[1..], st'), Run(eng, evs[1..], st'));
  }

  /** Emitting a line leaves output behind. */
  lemma AdvanceWrites(st: State, e: LineEvent)
    ensures Advance(st, e).hasWrittenContent
  {
  }

  /** Prepending one emission to a plan prepends its share of the trailer. */
  lemma TrailerStep(sep: string, e: LineEvent, rest: seq<Emission>, tail: string)
    requires sep == "\n\n" || sep == "\n"
    requires tail == Trailer(rest) + "\n"
    ensures Trailer([Emission(sep == "\n\n", e)] + rest) + "\n" == sep + e.content + tail
  {
    assert ([Emission(sep == "\n\n", e)] + rest)[1..] == rest;
    AppendAssoc(sep + e.content, Trailer(rest), "\n");
  }

  /** One step of the pass before any output: the next emitted line gets no
      blank line and no separator. */
  lemma StepBeforeOutput(eng: Engine, evs: seq<LineEvent>, st: State)
    requires !st.hasWrittenContent && |evs| > 0 && !Dropped(evs[0])
    ensures var e := evs[0];
            var st' := if e.inRawString then st.(hasWrittenContent := true) else Advance(st, e);
            && Plan(eng, evs, st) == [Emission(false, e)] + Plan(eng, evs[1..], st')
            && Run(eng, evs, st) == e.content + Run(eng, evs[1..], st')
  {
    var e := evs[0];
    if e.inRawString {
      RawBeforeOutput(eng, evs, st);
    } else {
      NoBlankBeforeOutput(eng, evs, st);
      CodeBeforeOutput(eng, evs, st);
    }
  }

  /** A raw-string line written first gets no separator. */
  lemma RawBeforeOutput(eng: Engine, evs: seq<LineEvent>, st: State)
    requires !st.hasWrittenContent && |evs| > 0 && evs[0].inRawString
    ensures Run(eng, evs, st) == evs[0].content + Run(eng, evs[1..], st.(hasWrittenContent := true))
  {
    AppendEmpty(evs[0].content);
  }

  /** A code line written first gets no separator, given it gets no blank. */
  lemma CodeBeforeOutput(eng: Engine, evs: seq<LineEvent>, st: State)
    requires !st.hasWrittenContent && |evs| > 0 && !evs[0].inRawString && !evs[0].isBlank
    requires !NeedsBlankLine(eng, evs, st)
    ensures Run(eng, evs, st) == evs[0].content + Run(eng, evs[1..], Advance(st, evs[0]))
  {
    AppendEmpty(evs[0].content);
  }

  /** No blank line is ever put before the first written line. */
  lemma NoBlankBeforeOutput(eng: Engine, evs: seq<LineEvent>, st: State)
    requires !st.hasWrittenContent && |evs| > 0
    ensures !NeedsBlankLine(eng, evs, st)
  {
  }

  lemma {:induction false} RunBeforeOutput(eng: Engine, evs: seq<LineEvent>, st: State)
    requires !st.hasWrittenContent
    ensures var plan := Plan(eng, evs, st);
            && (|plan| > 0 ==> !plan[0].blankBefore)
            && Run(eng, evs, st) == (if |plan| == 0 then "" else plan[0].event.content + Trailer(plan[1..])) + "\n"
    decreases |evs|
  {
    if |evs| > 0 {
      if Dropped(evs[0]) {
        RunBeforeOutput(eng, evs[1..], st);
      } else {
        EmitBeforeOutput(eng, evs, st);
      }
    }
  }

  /** `RunBeforeOutput` for a sequence whose head is emitted. */
  lemma EmitBeforeOutput(eng: Engine, evs: seq<LineEvent>, st: State)
    requires !st.hasWrittenContent && |evs| > 0 && !Dropped(evs[0])
    ensures var plan := Plan(eng, evs, st);
            && |plan| > 0 && !plan[0].blankBefore
            && Run(eng, evs, st) == plan[0].event.content + Trailer(plan[1..]) + "\n"
  {
    var e := evs[0];
    var st' := if e.inRawString then st.(hasWrittenContent := true) else Advance(st, e);
    StepBeforeOutput(eng, evs, st);
    AdvanceWrites(st, e);
    RunAfterOutput(eng, evs[1..], st');
    var rest := Plan(eng, evs[1..], st');
    assert ([Emission(false, e)] + rest)[1..] == rest;
    AppendAssoc(e.content, Trailer(rest), "\n");
  }

  lemma JoinCons(x: string, lines: seq<string>)
    ensures Join([x] + lines) == x + (if |lines| == 0 then "" else "\n" + Join(lines))
  {
    if |lines| > 0 {
      assert ([x] + lines)[1..] == lines;
    }
  }

  lemma {:induction false} JoinTrailer(c: string, plan: seq<Emission>)
    ensures Join([c] + OutputLines(plan)) == c + Trailer(plan)
    decreases |plan|
  {
    if |plan| == 0 {
      JoinCons(c, []);
    } else {
      var head := plan[0].event.content;
      var rest := OutputLines(plan[1..]);
      JoinTrailer(head, plan[1..]);
      JoinCons(c, OutputLines(plan));
      if plan[0].blankBefore {
        assert OutputLines(plan) == [""] + ([head] + rest);
        JoinCons("", [head] + rest);
      } else {
        assert OutputLines(plan) == [head] + rest;
      }
    }
  }

  /** Nothing but blank lines changes: the output is the emitted lines, with
      the synthesised empty lines, joined by line terminators and ending in
      one; the emitted lines are the kept input events in order; and no
      blank line comes first. */
  lemma FormatLayout(eng: Engine, events: seq<LineEvent>)
    ensures var plan := Plan(eng, events, Initial);
            && FormatToString(eng, events) == Join(OutputLines(plan)) + "\n"
            && EmittedEvents(plan) == Kept(events)
            && (|plan| > 0 ==> !plan[0].blankBefore)
  {
    var plan := Plan(eng, events, Initial);
    RunBeforeOutput(eng, events, Initial);
    PlanKeepsEvents(eng, events, Initial);
    if |plan| > 0 {
      JoinTrailer(plan[0].event.content, plan[1..]);
      assert OutputLines(plan) == [plan[0].event.content] + OutputLines(plan[1..]);
    }
  }

  /** Closing braces, case labels and continuations never get a blank line
      before them. */
  predicate Suppressed(e: LineEvent) {
    e.isClosingBrace || e.isCaseLabel || e.isContinuation
  }

  /** An emitted line after which no blank line may follow. */
  predicate Opener(e: LineEvent) {
    !e.inRawString && (e.isOpeningBrace || e.isCaseLabel)
  }

  /** An emitted comment-only line outside raw strings. */
  predicate CommentLine(e: LineEvent) {
    !e.inRawString && e.isCommentOnly
  }

  /** Every emission strictly between positions `j` and `k` is a raw-string
      line (raw lines leave the carried state alone). */
  ghost predicate OnlyRawBetween(plan: seq<Emission>, j: int, k: int)
    requires -1 <= j && k <= |plan|
  {
    forall m :: j < m < k ==> plan[m].event.inRawString
  }

  /** Every synthesised blank line precedes a non-raw, unsuppressed line. */
  ghost predicate BlanksOnlyBeforeFreeLines(plan: seq<Emission>) {
    forall k :: 0 <= k < |plan| && plan[k].blankBefore ==> !plan[k].event.inRawString && !Suppressed(plan[k].event)
  }

  /** No blank line up to and including the first non-raw emission. */
  ghost predicate QuietUntilNonRaw(plan: seq<Emission>) {
    forall k :: 0 <= k < |plan| && OnlyRawBetween(plan, -1, k) ==> !plan[k].blankBefore
  }

  /** No blank line right after an emission satisfying `p`, raw lines aside. */
  ghost predicate QuietAfter(plan: seq<Emission>, p: LineEvent -> bool) {
    forall j, k :: 0 <= j < k < |plan| && p(plan[j].event) && OnlyRawBetween(plan, j, k) ==> !plan[k].blankBefore
  }

  /** Raw-string lines and suppressed lines never receive a blank line. */
  lemma {:induction false} PlanSuppression(eng: Engine, evs: seq<LineEvent>, st: State)
    ensures BlanksOnlyBeforeFreeLines(Plan(eng, evs, st))
    decreases |evs|
  {
    if |evs| > 0 {
      var e := evs[0];
      var st' := if e.inRawString then st.(hasWrittenContent := true) else if e.isBlank then st else Advance(st, e);
      PlanSuppression(eng, evs[1..], st');
      var tail := Plan(eng, evs[1..], st');
      if !Dropped(e) {
        var b := !e.inRawString && NeedsBlankLine(eng, evs, st);
        assert Plan(eng, evs, st) == [Emission(b, e)] + tail;
      }
    }
  }

  /** While the carried state says the previous line opened a brace (or, in
      `CommentsFollow` mode, was a comment), nothing up to and including the
      next non-raw line gets a blank line. */
  lemma {:induction false} CarriedSuppression(eng: Engine, evs: seq<LineEvent>, st: State)
    requires st.previousWasOpenBrace || (eng.commentMode == CommentsFollow && st.previousWasComment)
    ensures QuietUntilNonRaw(Plan(eng, evs, st))
    decreases |evs|
  {
    if |evs| > 0 {
      var e := evs[0];
      var plan := Plan(eng, evs, st);
      if e.inRawString {
        var st' := st.(hasWrittenContent := true);
        CarriedSuppression(eng, evs[1..], st');
        var tail := Plan(eng, evs[1..], st');
        assert plan == [Emission(false, e)] + tail;
        forall k | 0 < k < |plan| && OnlyRawBetween(plan, -1, k)
          ensures !plan[k].blankBefore
        {
          assert plan[k] == tail[k - 1];
          assert OnlyRawBetween(tail, -1, k - 1) by {
            forall m | -1 < m < k - 1 ensures tail[m].event.inRawString {
              assert tail[m] == plan[m + 1];
            }
          }
          assert !tail[k - 1].blankBefore;
        }
      } else if e.isBlank {
        CarriedSuppression(eng, evs[1..], st);
        assert plan == Plan(eng, evs[1..], st);
      } else {
        assert !NeedsBlankLine(eng, evs, st);
        assert plan[0] == Emission(false, e);
      }
    }
  }

  /** No blank line directly follows an opening brace or case label, nor, in
      `CommentsFollow` mode, a comment-only line (raw-string lines between
      them do not count). */
  lemma {:induction false} NoBlankAfterOpenerOrComment(eng: Engine, evs: seq<LineEvent>, st: State)
    ensures QuietAfter(Plan(eng, evs, st), Opener)
    ensures eng.commentMode == CommentsFollow ==> QuietAfter(Plan(eng, evs, st), CommentLine)
    decreases |evs|, 1
  {
    if |evs| > 0 {
      if Dropped(evs[0]) {
        NoBlankAfterOpenerOrComment(eng, evs[1..], st);
      } else {
        QuietAfterEmitted(eng, evs, st);
      }
    }
  }

  /** `NoBlankAfterOpenerOrComment` for a sequence whose head is emitted. */
  lemma {:induction false} QuietAfterEmitted(eng: Engine, evs: seq<LineEvent>, st: State)
    requires |evs| > 0 && !Dropped(evs[0])
    ensures QuietAfter(Plan(eng, evs, st), Opener)
    ensures eng.commentMode == CommentsFollow ==> QuietAfter(Plan(eng, evs, st), CommentLine)
    decreases |evs|, 0
  {
    var e := evs[0];
    var st' := if e.inRawString then st.(hasWrittenContent := true) else Advance(st, e);
    var b := !e.inRawString && NeedsBlankLine(eng, evs, st);
    NoBlankAfterOpenerOrComment(eng, evs[1..], st');
    var tail := Plan(eng, evs[1..], st');
    assert Plan(eng, evs, st) == [Emission(b, e)] + tail;
    if Opener(e) || (eng.commentMode == CommentsFollow && CommentLine(e)) {
      AdvanceCarries(st, e);
      CarriedSuppression(eng, evs[1..], st');
    }
    QuietAfterCons(Emission(b, e), tail, Opener, Opener(e));
    if eng.commentMode == CommentsFollow {
      QuietAfterCons(Emission(b, e), tail, CommentLine, CommentLine(e));
    }
  }

  /** Emitting a line records whether it opened a brace or case and whether
      it was a comment. */
  lemma AdvanceCarries(st: State, e: LineEvent)
    ensures Advance(st, e).previousWasOpenBrace == (e.isOpeningBrace || e.isCaseLabel)
    ensures Advance(st, e).previousWasComment == e.isCommentOnly
  {
  }

  /** `QuietAfter` extends to one more emission in front, given that the
      plan after it stays quiet up to its first non-raw line when the new
      emission satisfies `p`. */
  lemma QuietAfterCons(x: Emission, tail: seq<Emission>, p: LineEvent -> bool, px: bool)
    requires px == p(x.event)
    requires QuietAfter(tail, p)
    requires px ==> QuietUntilNonRaw(tail)
    ensures QuietAfter([x] + tail, p)
  {
    var plan := [x] + tail;
    forall j, k | 0 <= j < k < |plan| && p(plan[j].event) && OnlyRawBetween(plan, j, k)
      ensures !plan[k].blankBefore
    {
      assert plan[k] == tail[k - 1];
      assert OnlyRawBetween(tail, j - 1, k - 1) by {
        forall m | j - 1 < m < k - 1 ensures tail[m].event.inRawString {
          assert tail[m] == plan[m + 1];
        }
      }
      if j > 0 {
        assert plan[j] == tail[j - 1];
      }
    }
  }

  /** A type change between two top-level lines. */
  ghost predicate TopLevelTransition(e: LineEvent, st: State) {
    e.hasASTInfo && e.isTopLevel && st.previousWasTopLevel && CurrentType(e) != st.previousStatementType
  }

  /** A classified line next to a scoped statement. */
  ghost predicate ScopeBoundary(e: LineEvent, st: State) {
    e.hasASTInfo && (e.isScoped || st.previousWasScoped)
  }

  /** Two brace-less single-line scoped statements of one type, with grouping on. */
  ghost predicate GroupedPair(eng: Engine, e: LineEvent, st: State) {
    eng.groupSingleLineScopes && SingleLineScope(e) && st.previousWasSingleLineScope && CurrentType(e) == st.previousStatementType
  }

  /** A change between two non-empty statement types. */
  ghost predicate TypeTransition(e: LineEvent, st: State) {
    CurrentType(e) != "" && st.previousStatementType != "" && CurrentType(e) != st.previousStatementType
  }

  /** In `CommentsFollow` mode a comment is glued to what precedes it. */
  ghost predicate CommentGlued(eng: Engine, st: State) {
    eng.commentMode == CommentsFollow && st.previousWasComment
  }

  /** A first comment line whose lookahead target would have been separated
      from the previous line. */
  ghost predicate LookaheadDemands(eng: Engine, e: LineEvent, next: Option<LineEvent>, st: State) {
    && eng.commentMode == CommentsFollow && e.isCommentOnly && !st.previousWasComment
    && next.Some? && next.value.hasASTInfo && LookaheadWantsBlank(next.value, st)
  }

  /** Output exists, the previous line did not open a brace or label, and
      this line is not suppressed. */
  ghost predicate Unsuppressed(e: LineEvent, st: State) {
    st.hasWrittenContent && !st.previousWasOpenBrace && !Suppressed(e)
  }

  /** The engine's chain of tests is the blank-line rule read as a
      disjunction: a blank line is needed exactly when the line is not
      suppressed and either one of the three transitions holds (the scope
      boundary only outside a grouped pair) and the previous line is not a
      glued comment, or the comment lookahead demands it. */
  lemma DecisionRule(eng: Engine, e: LineEvent, next: Option<LineEvent>, st: State)
    ensures Decide(eng, e, next, st) <==>
              && Unsuppressed(e, st)
              && (|| (!CommentGlued(eng, st) &&
                      (TopLevelTransition(e, st) || (ScopeBoundary(e, st) && !GroupedPair(eng, e, st)) || TypeTransition(e, st)))
                  || LookaheadDemands(eng, e, next, st))
  {
  }
}
