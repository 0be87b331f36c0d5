/** The legacy rewriter (rewrite.go): an older, self-contained form of the
    engine's decision rule that works directly on the canonical text's lines
    and the parser's line table, without building line events. */
module Rewrite {
  import opened Wrappers
  import opened Text
  import opened Patterns
  import opened GoAdapter

  /** The three line-shape tests the rewriter applies to the whole line. In
      the source they are regular expressions defined outside the files
      modelled here, so they enter as parameters. */
  datatype LineShapes = LineShapes(closing: string -> bool, opening: string -> bool, caseLabel: string -> bool)

  /** Everything one rewrite reads: the formatter's comment mode (an integer,
      see `GoAdapter.FollowCode`), the shape tests, the lines of the
      canonical text and the line table keyed by 1-based line number. */
  datatype Job = Job(mode: int, shapes: LineShapes, lines: seq<string>, info: map<int, LineInfo>)

  /** What the loop carries from one line to the next. The `previous…`
      fields describe the last kept line outside a raw string. */
  datatype Carried = Carried(
    insideRaw: bool,
    previousWasOpenBrace: bool,
    previousStatementType: string,
    previousWasComment: bool,
    previousWasTopLevel: bool,
    previousWasScoped: bool)

  const Start := Carried(false, false, "", false, false, false)

  /** One kept line, and whether a blank line is written before it. */
  datatype Placed = Placed(blankBefore: bool, text: string)

  /** The lines kept so far and the carried state. */
  datatype Pass = Pass(plan: seq<Placed>, carried: Carried)

  // ---------------------------------------------------------------------
  // Comment lookahead

  /** A line the comment lookahead stops at: neither blank nor comment-only. */
  predicate SignificantLine(line: string) {
    TrimSpace(line) != "" && !IsCommentOnly(line)
  }

  /** `findNextNonCommentLine`: the 1-based number of the first significant
      line at index `start` or later, or 0 when there is none. Blank and
      comment-only lines are both passed over. */
  function FindNextNonCommentLine(lines: seq<string>, start: nat): nat {
    FirstFrom(SignificantLine, lines, start)
  }

  /** The 1-based number of the first line at or after `start` that `stop`
      accepts, or 0. */
  function FirstFrom(stop: string -> bool, lines: seq<string>, start: nat): nat
    decreases |lines| - start
  {
    if start >= |lines| then 0
    else if !stop(lines[start]) then FirstFrom(stop, lines, start + 1)
    else start + 1
  }

  /** The search lands on the first accepted line at or after `start`, and
      gives 0 exactly when there is none (including when `start` is past
      the end). */
  lemma {:induction false} FirstFromSpec(stop: string -> bool, lines: seq<string>, start: nat)
    ensures var r := FirstFrom(stop, lines, start);
            && (r == 0 || start < r <= |lines|)
            && (r > 0 ==> stop(lines[r - 1]))
            && (r > 0 ==> forall k :: start <= k < r - 1 ==> !stop(lines[k]))
            && (r == 0 <==> forall k :: start <= k < |lines| ==> !stop(lines[k]))
    decreases |lines| - start
  {
    if start < |lines| && !stop(lines[start]) {
      FirstFromSpec(stop, lines, start + 1);
    }
  }

  /** `findNextNonCommentLine` finds the first line at or after `start` that
      is neither blank nor comment-only. */
  lemma FindNextNonCommentLineSpec(lines: seq<string>, start: nat)
    ensures var r := FindNextNonCommentLine(lines, start);
            && (r == 0 || start < r <= |lines|)
            && (r > 0 ==> SignificantLine(lines[r - 1]))
            && (r > 0 ==> forall k :: start <= k < r - 1 ==> !SignificantLine(lines[k]))
            && (r == 0 <==> forall k :: start <= k < |lines| ==> !SignificantLine(lines[k]))
  {
    FirstFromSpec(SignificantLine, lines, start);
  }

  // ---------------------------------------------------------------------
  // One line

  /** The statement type line `i` is compared under: a package clause forms
      its own pseudo-type, otherwise the table's type, or none. */
  function CurrentType(job: Job, i: nat): string
    requires i < |job.lines|
  {
    if IsPackageLine(TrimSpace(job.lines[i])) then "package"
    else if i + 1 in job.info then job.info[i + 1].statementType
    else ""
  }

  /** A comment is glued to what follows it: in follow mode, no line is
      separated from a comment line directly before it. */
  predicate Glued(job: Job, st: Carried) {
    job.mode == FollowCode && st.previousWasComment
  }

  /** The separation rule for a line with table entry `li` (if any) and
      statement type `current`, after the state `st`. */
  predicate RuleWantsBlank(job: Job, li: Option<LineInfo>, current: string, st: Carried) {
    var currentIsTopLevel := li.Some? && li.value.isTopLevel;
    var currentIsScoped := li.Some? && li.value.isScoped;
    if currentIsTopLevel && st.previousWasTopLevel && current != st.previousStatementType then !Glued(job, st)
    else if li.Some? && (currentIsScoped || st.previousWasScoped) then !Glued(job, st)
    else if current != "" && st.previousStatementType != "" && current != st.previousStatementType then !Glued(job, st)
    else false
  }

  /** The rule applied to the table entry of the line a leading comment
      belongs to. */
  predicate LookaheadWantsBlank(next: LineInfo, st: Carried) {
    if next.isTopLevel && st.previousWasTopLevel && next.statementType != st.previousStatementType then true
    else if next.isScoped || st.previousWasScoped then true
    else if next.statementType != "" && st.previousStatementType != "" && next.statementType != st.previousStatementType then true
    else false
  }

  /** The table entry for 1-based line number `n`, if any. */
  function Entry(job: Job, n: int): Option<LineInfo> {
    if n in job.info then Some(job.info[n]) else None
  }

  /** In follow mode, the first comment line of a run is separated from the
      line before it when the line the comments belong to would be. */
  predicate LeadingCommentWantsBlank(job: Job, i: nat, st: Carried)
    requires i < |job.lines|
  {
    if job.mode == FollowCode && IsCommentOnly(job.lines[i]) && !st.previousWasComment then
      var next := FindNextNonCommentLine(job.lines, i + 1);
      next > 0 && next in job.info && LookaheadWantsBlank(job.info[next], st)
    else false
  }

  /** Whether a blank line goes before the kept, non-raw line `i`, given
      whether anything has been written yet. */
  predicate NeedsBlank(job: Job, i: nat, st: Carried, hasOutput: bool)
    requires i < |job.lines|
  {
    var line := job.lines[i];
    if hasOutput && !st.previousWasOpenBrace && !job.shapes.closing(line) && !job.shapes.caseLabel(line) then
      RuleWantsBlank(job, Entry(job, i + 1), CurrentType(job, i), st) || LeadingCommentWantsBlank(job, i, st)
    else false
  }

  /** The state after keeping the non-raw line `i`. */
  function Remember(job: Job, i: nat, st: Carried): (next: Carried)
    requires i < |job.lines|
  {
    var line := job.lines[i];
    var shaped := st.(previousWasOpenBrace := job.shapes.opening(line) || job.shapes.caseLabel(line),
                      previousWasComment := IsCommentOnly(line));
    if i + 1 in job.info then
      var li := job.info[i + 1];
      shaped.(previousStatementType := li.statementType, previousWasTopLevel := li.isTopLevel,
              previousWasScoped := li.isScoped)
    else if CurrentType(job, i) != "" then
      shaped.(previousStatementType := CurrentType(job, i), previousWasTopLevel := false, previousWasScoped := false)
    else shaped
  }

  /** One iteration of the loop, for line `i`: a line read inside a raw
      string is kept verbatim, any other blank line is dropped, and any
      other line is kept with the separation decision. */
  function Step(job: Job, i: nat, p: Pass): Pass
    requires i < |job.lines|
  {
    var line := job.lines[i];
    var st := p.carried;
    var toggled := st.(insideRaw := ToggleRaw(st.insideRaw, line));
    if st.insideRaw then Pass(p.plan + [Placed(false, line)], toggled)
    else if TrimSpace(line) == "" then Pass(p.plan, toggled)
    else Pass(p.plan + [Placed(NeedsBlank(job, i, st, |p.plan| > 0), line)], Remember(job, i, toggled))
  }

  /** The pass over the first `n` lines. */
  function RunTo(job: Job, n: nat): Pass
    requires n <= |job.lines|
  {
    if n == 0 then Pass([], Start) else Step(job, n - 1, RunTo(job, n - 1))
  }

  /** The written lines of a plan: each kept line, preceded by an empty line
      when it asks for one. */
  function Render(plan: seq<Placed>): seq<string> {
    if |plan| == 0 then []
    else
      var last := plan[|plan| - 1];
      Render(plan[..|plan| - 1]) + (if last.blankBefore then ["", last.text] else [last.text])
  }

  /** `Formatter.rewrite`: the written lines joined with line terminators,
      with a terminator added unless the result already ends in one. */
  function Rewrite(job: Job): (r: string)
    ensures |r| > 0 && r[|r| - 1] == '\n'
    ensures HasPrefix(r, Join(Render(RunTo(job, |job.lines|).plan)))
    ensures |r| <= |Join(Render(RunTo(job, |job.lines|).plan))| + 1
    ensures var out := Join(Render(RunTo(job, |job.lines|).plan));
            |out| > 0 && out[|out| - 1] == '\n' ==> r == out
  {
    var out := Join(Render(RunTo(job, |job.lines|).plan));
    if |out| > 0 && out[|out| - 1] == '\n' then out else out + "\n"
  }

  /** The rewrite of the canonical text `source`. */
  function RewriteText(mode: int, shapes: LineShapes, source: string, info: map<int, LineInfo>): string {
    Rewrite(Job(mode, shapes, Split(source), info))
  }

  // ---------------------------------------------------------------------
  // Properties

  /** The carried raw-string flag is the adapters' flag for the lines read. */
  lemma {:induction false} RawFlag(job: Job, n: nat)
    requires n <= |job.lines|
    ensures RunTo(job, n).carried.insideRaw == InsideRawAfter(job.lines[..n])
    decreases n, 1
  {
    if n > 0 {
      RawFlagStep(job, n);
    }
  }

  /** `RawFlag` after one more line. */
  lemma {:induction false} RawFlagStep(job: Job, n: nat)
    requires 0 < n <= |job.lines|
    ensures RunTo(job, n).carried.insideRaw == InsideRawAfter(job.lines[..n])
    decreases n, 0
  {
    RawFlag(job, n - 1);
    StepKeepsRawFlag(job, n - 1, RunTo(job, n - 1));
  }

  /** One step keeps the carried flag equal to the adapters' flag. */
  lemma StepKeepsRawFlag(job: Job, i: nat, p: Pass)
    requires i < |job.lines| && p.carried.insideRaw == InsideRawAfter(job.lines[..i])
    ensures Step(job, i, p).carried.insideRaw == InsideRawAfter(job.lines[..i + 1])
  {
    StepToggles(job, i, p);
    InsideRawSnoc(job.lines, i + 1);
  }

  /** Every line toggles the raw-string flag by its delimiter count. */
  lemma StepToggles(job: Job, i: nat, p: Pass)
    requires i < |job.lines|
    ensures Step(job, i, p).carried.insideRaw == ToggleRaw(p.carried.insideRaw, job.lines[i])
  {
    var st := p.carried;
    RememberKeepsRaw(job, i, st.(insideRaw := ToggleRaw(st.insideRaw, job.lines[i])));
  }

  /** Keeping a line leaves the raw-string flag alone. */
  lemma RememberKeepsRaw(job: Job, i: nat, st: Carried)
    requires i < |job.lines|
    ensures Remember(job, i, st).insideRaw == st.insideRaw
  {
  }

  /** A line read inside a raw string is kept verbatim, with no blank before
      it, and changes nothing but the raw-string flag. */
  lemma RawLineVerbatim(job: Job, i: nat)
    requires i < |job.lines| && InsideRawAfter(job.lines[..i])
    ensures RunTo(job, i + 1).plan == RunTo(job, i).plan + [Placed(false, job.lines[i])]
    ensures RunTo(job, i + 1).carried == RunTo(job, i).carried.(insideRaw := ToggleRaw(true, job.lines[i]))
  {
    RawFlag(job, i);
  }

  /** Any other line that trims to nothing is dropped, and changes nothing
      but the raw-string flag. */
  lemma BlankLineDropped(job: Job, i: nat)
    requires i < |job.lines| && !InsideRawAfter(job.lines[..i]) && TrimSpace(job.lines[i]) == ""
    ensures RunTo(job, i + 1).plan == RunTo(job, i).plan
    ensures RunTo(job, i + 1).carried == RunTo(job, i).carried.(insideRaw := ToggleRaw(false, job.lines[i]))
  {
    RawFlag(job, i);
  }

  /** Every other line is kept, after the lines kept before it. */
  lemma CodeLineKept(job: Job, i: nat)
    requires i < |job.lines| && !InsideRawAfter(job.lines[..i]) && TrimSpace(job.lines[i]) != ""
    ensures var before := RunTo(job, i);
            RunTo(job, i + 1).plan ==
              before.plan + [Placed(NeedsBlank(job, i, before.carried, |before.plan| > 0), job.lines[i])]
    ensures var before := RunTo(job, i).carried;
            RunTo(job, i + 1).carried == Remember(job, i, before.(insideRaw := ToggleRaw(false, job.lines[i])))
  {
    RawFlag(job, i);
  }

  /** A line survives when it is read inside a raw string or is not blank. */
  ghost predicate Survives(lines: seq<string>, k: nat)
    requires k < |lines|
  {
    InsideRawAfter(lines[..k]) || TrimSpace(lines[k]) != ""
  }

  /** The surviving lines among the first `n`, in order. */
  ghost function Kept(lines: seq<string>, n: nat): seq<string>
    requires n <= |lines|
  {
    if n == 0 then []
    else Kept(lines, n - 1) + (if Survives(lines, n - 1) then [lines[n - 1]] else [])
  }

  /** The text of each kept line. */
  function Texts(plan: seq<Placed>): seq<string> {
    if |plan| == 0 then [] else Texts(plan[..|plan| - 1]) + [plan[|plan| - 1].text]
  }

  /** Nothing but blank lines is added or removed: the kept lines are
      exactly the surviving input lines, in their original order. */
  lemma {:induction false} KeptLines(job: Job, n: nat)
    requires n <= |job.lines|
    ensures Texts(RunTo(job, n).plan) == Kept(job.lines, n)
  {
    if n > 0 {
      KeptLines(job, n - 1);
      KeptLine(job, n);
    }
  }

  /** `KeptLines` after one more line: line `n - 1` adds its own text when
      it survives, and nothing otherwise. */
  lemma KeptLine(job: Job, n: nat)
    requires 0 < n <= |job.lines|
    requires Texts(RunTo(job, n - 1).plan) == Kept(job.lines, n - 1)
    ensures Texts(RunTo(job, n).plan) == Kept(job.lines, n)
  {
    var i := n - 1;
    var before := RunTo(job, i).plan;
    if InsideRawAfter(job.lines[..i]) {
      RawLineVerbatim(job, i);
      TextsSnoc(before, Placed(false, job.lines[i]));
    } else if TrimSpace(job.lines[i]) == "" {
      BlankLineDropped(job, i);
    } else {
      CodeLineKept(job, i);
      TextsSnoc(before, Placed(NeedsBlank(job, i, RunTo(job, i).carried, |before| > 0), job.lines[i]));
    }
  }

  lemma TextsSnoc(plan: seq<Placed>, last: Placed)
    ensures Texts(plan + [last]) == Texts(plan) + [last.text]
  {
    assert (plan + [last])[..|plan|] == plan;
  }

  /** The written lines are the kept lines plus exactly one empty line for
      each kept line that asks for a blank before it. */
  lemma {:induction false} RenderLength(plan: seq<Placed>)
    ensures |Render(plan)| == |plan| + |Blanks(plan)|
  {
    if |plan| > 0 {
      RenderLength(plan[..|plan| - 1]);
    }
  }

  /** Reading the written lines back along the plan gives the kept lines. */
  lemma {:induction false} RenderUnrender(plan: seq<Placed>)
    ensures Unrender(plan, Render(plan)) == Texts(plan)
  {
    if |plan| > 0 {
      RenderUnrender(plan[..|plan| - 1]);
      UnrenderSnoc(plan);
    }
  }

  /** The positions in the plan whose line has a blank before it. */
  function Blanks(plan: seq<Placed>): seq<nat> {
    if |plan| == 0 then []
    else Blanks(plan[..|plan| - 1]) + (if plan[|plan| - 1].blankBefore then [|plan| - 1] else [])
  }

  /** Reading written lines back along a plan: drop the empty line the plan
      put before each kept line. */
  function Unrender(plan: seq<Placed>, written: seq<string>): seq<string>
    decreases |plan|
  {
    if |plan| == 0 then written
    else
      var last := plan[|plan| - 1];
      var width := if last.blankBefore then 2 else 1;
      if |written| < width then written
      else Unrender(plan[..|plan| - 1], written[..|written| - width]) + [written[|written| - 1]]
  }

  lemma UnrenderSnoc(plan: seq<Placed>)
    requires |plan| > 0
    ensures var init := plan[..|plan| - 1];
            Unrender(plan, Render(plan)) == Unrender(init, Render(init)) + [plan[|plan| - 1].text]
  {
    var init := plan[..|plan| - 1];
    var last := plan[|plan| - 1];
    var tail := if last.blankBefore then ["", last.text] else [last.text];
    var written := Render(init) + tail;
    assert Render(plan) == written;
    assert written[..|written| - |tail|] == Render(init);
  }

  /** No blank line goes before the first kept line, before a line of
      closing-brace or case-label shape, or right after an opening-brace or
      case-label line. */
  lemma SuppressedBefore(job: Job, i: nat)
    requires i < |job.lines| && !InsideRawAfter(job.lines[..i]) && TrimSpace(job.lines[i]) != ""
    requires var st := RunTo(job, i);
             || |st.plan| == 0 || st.carried.previousWasOpenBrace
             || job.shapes.closing(job.lines[i]) || job.shapes.caseLabel(job.lines[i])
    ensures RunTo(job, i + 1).plan == RunTo(job, i).plan + [Placed(false, job.lines[i])]
  {
    CodeLineKept(job, i);
  }

  /** Two carried states that agree on everything but the raw-string flag. */
  ghost predicate SameClass(a: Carried, b: Carried) {
    && a.previousWasOpenBrace == b.previousWasOpenBrace
    && a.previousStatementType == b.previousStatementType
    && a.previousWasComment == b.previousWasComment
    && a.previousWasTopLevel == b.previousWasTopLevel
    && a.previousWasScoped == b.previousWasScoped
  }

  /** Lines read inside a raw string and dropped blank lines leave the
      classification state alone and never shrink the output. */
  lemma {:induction false} PassiveLines(job: Job, i: nat, j: nat)
    requires i <= j <= |job.lines|
    requires forall k :: i <= k < j ==> Survives(job.lines, k) ==> InsideRawAfter(job.lines[..k])
    ensures SameClass(RunTo(job, j).carried, RunTo(job, i).carried)
    ensures |RunTo(job, i).plan| <= |RunTo(job, j).plan|
    decreases j - i
  {
    if i < j {
      if InsideRawAfter(job.lines[..i]) {
        RawLineVerbatim(job, i);
      } else {
        BlankLineDropped(job, i);
      }
      PassiveLines(job, i + 1, j);
    }
  }

  /** The state after a kept non-raw line records its shape. */
  lemma RememberShape(job: Job, i: nat)
    requires i < |job.lines| && !InsideRawAfter(job.lines[..i]) && TrimSpace(job.lines[i]) != ""
    ensures var st := RunTo(job, i + 1).carried;
            && (st.previousWasOpenBrace <==> job.shapes.opening(job.lines[i]) || job.shapes.caseLabel(job.lines[i]))
            && (st.previousWasComment <==> IsCommentOnly(job.lines[i]))
  {
    RawFlag(job, i);
    var line := job.lines[i];
    RememberFields(job, i, RunTo(job, i).carried.(insideRaw := ToggleRaw(false, line)));
  }

  /** Keeping a line records its shape and whether it is a comment. */
  lemma RememberFields(job: Job, i: nat, st: Carried)
    requires i < |job.lines|
    ensures Remember(job, i, st).previousWasOpenBrace <==> job.shapes.opening(job.lines[i]) || job.shapes.caseLabel(job.lines[i])
    ensures Remember(job, i, st).previousWasComment <==> IsCommentOnly(job.lines[i])
  {
  }

  /** The next kept non-raw line after an opening-brace or case-label line,
      across any raw or blank lines, gets no blank before it. */
  lemma NoBlankAfterOpener(job: Job, i: nat, j: nat)
    requires i < j < |job.lines|
    requires !InsideRawAfter(job.lines[..i]) && TrimSpace(job.lines[i]) != ""
    requires job.shapes.opening(job.lines[i]) || job.shapes.caseLabel(job.lines[i])
    requires forall k :: i < k < j ==> Survives(job.lines, k) ==> InsideRawAfter(job.lines[..k])
    requires !InsideRawAfter(job.lines[..j]) && TrimSpace(job.lines[j]) != ""
    ensures RunTo(job, j + 1).plan == RunTo(job, j).plan + [Placed(false, job.lines[j])]
  {
    RememberShape(job, i);
    PassiveLines(job, i + 1, j);
    SuppressedBefore(job, j);
  }

  /** In follow mode the next kept non-raw line after a comment line, across
      any raw or blank lines, gets no blank before it. */
  lemma NoBlankAfterComment(job: Job, i: nat, j: nat)
    requires job.mode == FollowCode
    requires i < j < |job.lines|
    requires !InsideRawAfter(job.lines[..i]) && TrimSpace(job.lines[i]) != "" && IsCommentOnly(job.lines[i])
    requires forall k :: i < k < j ==> Survives(job.lines, k) ==> InsideRawAfter(job.lines[..k])
    requires !InsideRawAfter(job.lines[..j]) && TrimSpace(job.lines[j]) != ""
    ensures RunTo(job, j + 1).plan == RunTo(job, j).plan + [Placed(false, job.lines[j])]
  {
    RememberShape(job, i);
    PassiveLines(job, i + 1, j);
    CodeLineKept(job, j);
  }

  /** In follow mode the first comment line of a run, where nothing
      suppresses a blank, is separated when the line the comments belong
      to would be separated from the line before them. */
  lemma LeadingCommentLookahead(job: Job, i: nat)
    requires job.mode == FollowCode
    requires i < |job.lines| && !InsideRawAfter(job.lines[..i]) && TrimSpace(job.lines[i]) != ""
    requires IsCommentOnly(job.lines[i])
    requires var st := RunTo(job, i);
             && |st.plan| > 0 && !st.carried.previousWasOpenBrace && !st.carried.previousWasComment
             && !job.shapes.closing(job.lines[i]) && !job.shapes.caseLabel(job.lines[i])
    requires var next := FindNextNonCommentLine(job.lines, i + 1);
             next > 0 && next in job.info && LookaheadWantsBlank(job.info[next], RunTo(job, i).carried)
    ensures RunTo(job, i + 1).plan == RunTo(job, i).plan + [Placed(true, job.lines[i])]
  {
    CodeLineKept(job, i);
  }

  /** A package clause without a table entry is remembered under the type
      `"package"`, so the next typed line is separated from it. */
  lemma PackageRemembered(job: Job, i: nat)
    requires i < |job.lines| && !InsideRawAfter(job.lines[..i])
    requires IsPackageLine(TrimSpace(job.lines[i])) && i + 1 !in job.info
    ensures RunTo(job, i + 1).carried.previousStatementType == "package"
    ensures !RunTo(job, i + 1).carried.previousWasTopLevel && !RunTo(job, i + 1).carried.previousWasScoped
  {
    RawFlag(job, i);
  }
}
