/** The raw-string input of the parity tests: a multi-line raw string
    literal with a blank line inside it. The legacy rewriter agrees with the
    engine on it, whatever the line table says. */
module ParityExamples {
  import opened Text
  import opened Patterns
  import Engine
  import GoAdapter
  import Rewrite
  import Parity

  /** The test input's lines; the source ends in a terminator, so the last
      line is empty. */
  const RawLiteralLines: seq<string> :=
    ["package main", "", "var x = `", "line 1", "", "line 2", "`", "var y = 1", ""]

  /** The test input: its lines joined by terminators. */
  const RawLiteralSource: string := Join(RawLiteralLines)

  /** The source splits back into its nine lines. */
  lemma RawLiteralSplit()
    ensures Split(RawLiteralSource) == RawLiteralLines
  {
    SplitJoin(RawLiteralLines);
  }

  lemma {:induction false} NoBackticks(s: string)
    requires '`' !in s
    ensures Backticks(s) == 0
  {
    if |s| > 0 {
      assert '`' !in s[1..];
      NoBackticks(s[1..]);
    }
  }

  lemma {:induction false} OneBacktick(a: string)
    requires '`' !in a
    ensures Backticks(a + "`") == 1
  {
    if |a| == 0 {
      assert a + "`" == "`";
    } else {
      assert (a + "`")[1..] == a[1..] + "`";
      assert '`' !in a[1..];
      OneBacktick(a[1..]);
    }
  }

  /** A line without a backtick opens or closes nothing. */
  lemma PlainLine(s: string)
    requires '`' !in s
    ensures CountRawStringDelimiters(s) == 0
  {
    NoBackticks(s);
  }

  /** A quote-free line that ends in its only backtick holds one delimiter. */
  lemma DelimiterLine(a: string)
    requires '`' !in a && '"' !in a && '\'' !in a
    ensures CountRawStringDelimiters(a + "`") == 1
  {
    OneBacktick(a);
    assert !HasQuote(a + "`");
  }

  /** Lines without a backtick leave the raw-string flag as it was. */
  lemma {:induction false} PlainRun(lines: seq<string>, a: nat, b: nat)
    requires a <= b <= |lines|
    requires forall j :: a <= j < b ==> '`' !in lines[j]
    ensures InsideRawAfter(lines[..b]) == InsideRawAfter(lines[..a])
    decreases b - a
  {
    if a < b {
      PlainRun(lines, a, b - 1);
      InsideRawSnoc(lines, b);
      PlainLine(lines[b - 1]);
    }
  }

  /** A line holding one delimiter flips the flag. */
  lemma DelimiterStep(lines: seq<string>, n: nat)
    requires 0 < n <= |lines| && CountRawStringDelimiters(lines[n - 1]) == 1
    ensures InsideRawAfter(lines[..n]) == !InsideRawAfter(lines[..n - 1])
  {
    InsideRawSnoc(lines, n);
  }

  /** A literal that opens at the end of the third line and closes on the
      seventh, in nine lines that hold no other backtick, leaves no raw
      string open. */
  lemma ShapeCloses(p0: string, p1: string, o: string, p3: string, p4: string,
                    p5: string, p7: string, p8: string)
    requires '`' !in p0 && '`' !in p1 && '`' !in p3 && '`' !in p4
    requires '`' !in p5 && '`' !in p7 && '`' !in p8
    requires '`' !in o && '"' !in o && '\'' !in o
    ensures !InsideRawAfter([p0, p1, o + "`", p3, p4, p5, "`", p7, p8])
  {
    var lines := [p0, p1, o + "`", p3, p4, p5, "`", p7, p8];
    assert lines[..0] == [];
    PlainRun(lines, 0, 2);
    DelimiterLine(o);
    DelimiterStep(lines, 3);
    PlainRun(lines, 3, 6);
    DelimiterLine("");
    assert "" + "`" == "`";
    DelimiterStep(lines, 7);
    PlainRun(lines, 7, 9);
    assert lines[..9] == lines;
  }

  /** The literal opens on the third line and closes on the seventh, so no
      raw string is open at the end. */
  lemma RawLiteralCloses()
    ensures !InsideRawAfter(RawLiteralLines)
  {
    ShapeCloses("package main", "", "var x = ", "line 1", "", "line 2", "var y = 1", "");
    assert "var x = " + "`" == "var x = `";
  }

  /** No line of the input is a comment line, so the condition on comment
      lines holds trivially. */
  lemma RawLiteralHasNoComments()
    ensures forall k :: 0 <= k < |RawLiteralLines| ==> !IsCommentOnly(RawLiteralLines[k])
  {
    var lines := RawLiteralLines;
    assert !IsCommentOnly(lines[0]) && !IsCommentOnly(lines[1]) && !IsCommentOnly(lines[2]);
    assert !IsCommentOnly(lines[3]) && !IsCommentOnly(lines[4]) && !IsCommentOnly(lines[5]);
    assert !IsCommentOnly(lines[6]) && !IsCommentOnly(lines[7]) && !IsCommentOnly(lines[8]);
  }

  /** The input meets the parity condition. */
  lemma RawLiteralContained()
    ensures Parity.RawStringsContained(Split(RawLiteralSource))
  {
    RawLiteralSplit();
    RawLiteralHasNoComments();
    RawLiteralCloses();
    forall k ensures Parity.EvenCommentAt(RawLiteralLines, k) {
    }
  }

  /** In each of the three comment modes, and for any line table, the
      rewrite of the input equals the engine's output over its events. */
  lemma RawLiteralParity(mode: int, info: map<int, GoAdapter.LineInfo>)
    requires 0 <= mode <= 2
    ensures Rewrite.RewriteText(mode, Parity.PatternShapes, RawLiteralSource, info)
            == Engine.FormatToString(Parity.EngineFor(mode), GoAdapter.LineEvents(Split(RawLiteralSource), info))
  {
    RawLiteralContained();
    Parity.RewriteMatchesEngine(mode, RawLiteralSource, info);
  }
}
