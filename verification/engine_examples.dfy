/** Concrete runs of the decision engine on the event sequences of its unit
    tests. Each run is proved one line at a time, from the last event back
    to the first, so that every step is a small proof of its own. */
module EngineExamples {
  import opened Wrappers
  import opened Events
  import opened Engine

  /** A line carrying only its text. */
  function Line(content: string, trimmed: string): LineEvent {
    LineEvent(content, trimmed, "", false, false, false, false, false, false, false, false, false, false, false, false)
  }

  /** A line the syntax tree classified as a statement of type `statementType`. */
  function Stmt(content: string, trimmed: string, statementType: string): LineEvent {
    Line(content, trimmed).(hasASTInfo := true, statementType := statementType)
  }

  const Assign := "*ast.AssignStmt"
  const IfStmt := "*ast.IfStmt"
  const Blank := Line("", "").(isBlank := true)
  const Follow := Engine(CommentsFollow, false)

  /** One ordinary line: the decision, the separator and the text, then the
      rest of the run from the advanced state. */
  lemma Emit(eng: Engine, e: LineEvent, rest: seq<LineEvent>, st: State, blank: bool)
    requires !e.inRawString && !e.isBlank && !e.isCommentOnly
    requires blank == Decide(eng, e, None, st)
    ensures Run(eng, [e] + rest, st)
            == (if blank then "\n" else "") + Separator(st) + e.content + Run(eng, rest, Advance(st, e))
  {
    assert ([e] + rest)[1..] == rest;
  }

  /** One comment line whose lookahead reaches `next`. */
  lemma EmitComment(eng: Engine, e: LineEvent, rest: seq<LineEvent>, st: State, next: Option<LineEvent>, blank: bool)
    requires !e.inRawString && !e.isBlank
    requires Lookahead([e] + rest) == next
    requires blank == Decide(eng, e, next, st)
    ensures Run(eng, [e] + rest, st)
            == (if blank then "\n" else "") + Separator(st) + e.content + Run(eng, rest, Advance(st, e))
  {
    assert ([e] + rest)[1..] == rest;
  }

  /** One blank line outside a raw string: it writes nothing. */
  lemma Skip(eng: Engine, e: LineEvent, rest: seq<LineEvent>, st: State)
    requires e.isBlank && !e.inRawString
    ensures Run(eng, [e] + rest, st) == Run(eng, rest, st)
  {
    assert ([e] + rest)[1..] == rest;
  }

  /** One line inside a raw string: written as it is. */
  lemma Verbatim(eng: Engine, e: LineEvent, rest: seq<LineEvent>, st: State)
    requires e.inRawString
    ensures Run(eng, [e] + rest, st) == Separator(st) + e.content + Run(eng, rest, st.(hasWrittenContent := true))
  {
    assert ([e] + rest)[1..] == rest;
  }


  // The carried states the runs below pass through.
  const afterAssign := State(true, false, Assign, false, false, false, false)
  const afterIfOpen := State(true, true, IfStmt, false, false, true, false)
  const afterIfClose := State(true, false, IfStmt, false, false, true, false)
  const afterVar := State(true, false, "var", false, false, false, false)
  const afterFuncOpen := State(true, true, "func", false, true, true, false)
  const afterCase := State(true, true, Assign, false, false, false, false)
  const afterCall := State(true, false, "*ast.ExprStmt", false, false, false, false)
  const afterTypeOpen := State(true, true, "type", false, true, true, false)
  const afterField := State(true, false, "type", false, true, true, false)
  const afterTopVar := State(true, false, "var", false, true, false, false)
  const afterComment := State(true, false, Assign, true, false, false, false)
  const afterPackage := State(true, false, "package", false, false, false, false)
  const afterFuncClose := State(true, false, "func", false, true, true, false)

  // ---------------------------------------------------------------------
  // Consecutive blank lines between statements of one type disappear.

  const x1Start := Stmt("\tx := 1", "x := 1", Assign).(isStartLine := true)
  const y2Start := Stmt("\ty := 2", "y := 2", Assign).(isStartLine := true)

  lemma CollapsesBlanksStep0()
    ensures Advance(Initial, x1Start) == afterAssign
    ensures !Decide(Follow, x1Start, None, Initial)
    ensures Separator(Initial) + x1Start.content == "\tx := 1"
  {
  }

  lemma CollapsesBlanks()
    ensures FormatToString(Follow, [x1Start, Blank, Blank, y2Start])
            == "\tx := 1" + ("\n\ty := 2" + "\n")
  {
    CollapsesBlanksStep0();
    CollapsesBlanksFrom1();
    Emit(Follow, x1Start, [Blank, Blank, y2Start], Initial, false);
  }

  lemma CollapsesBlanksFrom1()
    ensures Run(Follow, [Blank, Blank, y2Start], afterAssign)
            == "\n\ty := 2" + "\n"
  {
    CollapsesBlanksFrom2();
    Skip(Follow, Blank, [Blank, y2Start], afterAssign);
  }

  lemma CollapsesBlanksFrom2()
    ensures Run(Follow, [Blank, y2Start], afterAssign)
            == "\n\ty := 2" + "\n"
  {
    CollapsesBlanksFrom3();
    Skip(Follow, Blank, [y2Start], afterAssign);
  }

  lemma CollapsesBlanksStep3()
    ensures Advance(afterAssign, y2Start) == afterAssign
    ensures !Decide(Follow, y2Start, None, afterAssign)
    ensures Separator(afterAssign) + y2Start.content == "\n\ty := 2"
  {
  }

  lemma CollapsesBlanksFrom3()
    ensures Run(Follow, [y2Start], afterAssign)
            == "\n\ty := 2" + "\n"
  {
    CollapsesBlanksStep3();
    assert Run(Follow, [], afterAssign) == "\n";
    assert [y2Start] + [] == [y2Start];
    Emit(Follow, y2Start, [], afterAssign, false);
  }

  // ---------------------------------------------------------------------
  // A scoped statement is set apart from its neighbours.

  const x1 := Stmt("\tx := 1", "x := 1", Assign)
  const ifOpen := Stmt("\tif x > 0 {", "if x > 0 {", IfStmt).(isScoped := true, isStartLine := true, isOpeningBrace := true)
  const y2Nested := Stmt("\t\ty := 2", "y := 2", Assign)
  const ifClose := Stmt("\t}", "}", IfStmt).(isScoped := true, isClosingBrace := true)
  const z3 := Stmt("\tz := 3", "z := 3", Assign)

  lemma ScopeBoundaryStep0()
    ensures Advance(Initial, x1) == afterAssign
    ensures !Decide(Follow, x1, None, Initial)
    ensures Separator(Initial) + x1.content == "\tx := 1"
  {
  }

  lemma ScopeBoundary()
    ensures FormatToString(Follow, [x1, ifOpen, y2Nested, ifClose, z3])
            == "\tx := 1" + ("\n\n\tif x > 0 {" + ("\n\t\ty := 2" + ("\n\t}" + ("\n\n\tz := 3" + "\n"))))
  {
    ScopeBoundaryStep0();
    ScopeBoundaryFrom1();
    Emit(Follow, x1, [ifOpen, y2Nested, ifClose, z3], Initial, false);
  }

  lemma ScopeBoundaryStep1()
    ensures Advance(afterAssign, ifOpen) == afterIfOpen
    ensures Decide(Follow, ifOpen, None, afterAssign)
    ensures "\n" + Separator(afterAssign) + ifOpen.content == "\n\n\tif x > 0 {"
  {
  }

  lemma ScopeBoundaryFrom1()
    ensures Run(Follow, [ifOpen, y2Nested, ifClose, z3], afterAssign)
            == "\n\n\tif x > 0 {" + ("\n\t\ty := 2" + ("\n\t}" + ("\n\n\tz := 3" + "\n")))
  {
    ScopeBoundaryStep1();
    ScopeBoundaryFrom2();
    Emit(Follow, ifOpen, [y2Nested, ifClose, z3], afterAssign, true);
  }

  lemma ScopeBoundaryStep2()
    ensures Advance(afterIfOpen, y2Nested) == afterAssign
    ensures !Decide(Follow, y2Nested, None, afterIfOpen)
    ensures Separator(afterIfOpen) + y2Nested.content == "\n\t\ty := 2"
  {
  }

  lemma ScopeBoundaryFrom2()
    ensures Run(Follow, [y2Nested, ifClose, z3], afterIfOpen)
            == "\n\t\ty := 2" + ("\n\t}" + ("\n\n\tz := 3" + "\n"))
  {
    ScopeBoundaryStep2();
    ScopeBoundaryFrom3();
    Emit(Follow, y2Nested, [ifClose, z3], afterIfOpen, false);
  }

  lemma ScopeBoundaryStep3()
    ensures Advance(afterAssign, ifClose) == afterIfClose
    ensures !Decide(Follow, ifClose, None, afterAssign)
    ensures Separator(afterAssign) + ifClose.content == "\n\t}"
  {
  }

  lemma ScopeBoundaryFrom3()
    ensures Run(Follow, [ifClose, z3], afterAssign)
            == "\n\t}" + ("\n\n\tz := 3" + "\n")
  {
    ScopeBoundaryStep3();
    ScopeBoundaryFrom4();
    Emit(Follow, ifClose, [z3], afterAssign, false);
  }

  lemma ScopeBoundaryStep4()
    ensures Advance(afterIfClose, z3) == afterAssign
    ensures Decide(Follow, z3, None, afterIfClose)
    ensures "\n" + Separator(afterIfClose) + z3.content == "\n\n\tz := 3"
  {
  }

  lemma ScopeBoundaryFrom4()
    ensures Run(Follow, [z3], afterIfClose)
            == "\n\n\tz := 3" + "\n"
  {
    ScopeBoundaryStep4();
    assert Run(Follow, [], afterAssign) == "\n";
    assert [z3] + [] == [z3];
    Emit(Follow, z3, [], afterIfClose, true);
  }

  // ---------------------------------------------------------------------
  // A change of statement type is set apart.

  const varA := Stmt("\tvar a = 3", "var a = 3", "var")

  lemma StatementTypeTransition()
    ensures FormatToString(Follow, [x1, varA])
            == "\tx := 1" + ("\n\n\tvar a = 3" + "\n")
  {
    ScopeBoundaryStep0();
    StatementTypeTransitionFrom1();
    Emit(Follow, x1, [varA], Initial, false);
  }

  lemma StatementTypeTransitionStep1()
    ensures Advance(afterAssign, varA) == afterVar
    ensures Decide(Follow, varA, None, afterAssign)
    ensures "\n" + Separator(afterAssign) + varA.content == "\n\n\tvar a = 3"
  {
  }

  lemma StatementTypeTransitionFrom1()
    ensures Run(Follow, [varA], afterAssign)
            == "\n\n\tvar a = 3" + "\n"
  {
    StatementTypeTransitionStep1();
    assert Run(Follow, [], afterVar) == "\n";
    assert [varA] + [] == [varA];
    Emit(Follow, varA, [], afterAssign, true);
  }

  // ---------------------------------------------------------------------
  // No blank line follows an opening brace.

  const funcOpen := Stmt("func main() {", "func main() {", "func").(isTopLevel := true, isScoped := true, isStartLine := true, isOpeningBrace := true)
  const ifTrueOpen := Stmt("\tif true {", "if true {", IfStmt).(isScoped := true, isStartLine := true, isOpeningBrace := true)
  const x1Nested := Stmt("\t\tx := 1", "x := 1", Assign)
  const braceClose := Line("\t}", "}").(isClosingBrace := true)

  lemma SuppressAfterOpenBraceStep0()
    ensures Advance(Initial, funcOpen) == afterFuncOpen
    ensures !Decide(Follow, funcOpen, None, Initial)
    ensures Separator(Initial) + funcOpen.content == "func main() {"
  {
  }

  lemma SuppressAfterOpenBrace()
    ensures FormatToString(Follow, [funcOpen, ifTrueOpen, x1Nested, braceClose])
            == "func main() {" + ("\n\tif true {" + ("\n\t\tx := 1" + ("\n\t}" + "\n")))
  {
    SuppressAfterOpenBraceStep0();
    SuppressAfterOpenBraceFrom1();
    Emit(Follow, funcOpen, [ifTrueOpen, x1Nested, braceClose], Initial, false);
  }

  lemma SuppressAfterOpenBraceStep1()
    ensures Advance(afterFuncOpen, ifTrueOpen) == afterIfOpen
    ensures !Decide(Follow, ifTrueOpen, None, afterFuncOpen)
    ensures Separator(afterFuncOpen) + ifTrueOpen.content == "\n\tif true {"
  {
  }

  lemma SuppressAfterOpenBraceFrom1()
    ensures Run(Follow, [ifTrueOpen, x1Nested, braceClose], afterFuncOpen)
            == "\n\tif true {" + ("\n\t\tx := 1" + ("\n\t}" + "\n"))
  {
    SuppressAfterOpenBraceStep1();
    SuppressAfterOpenBraceFrom2();
    Emit(Follow, ifTrueOpen, [x1Nested, braceClose], afterFuncOpen, false);
  }

  lemma SuppressAfterOpenBraceStep2()
    ensures Advance(afterIfOpen, x1Nested) == afterAssign
    ensures !Decide(Follow, x1Nested, None, afterIfOpen)
    ensures Separator(afterIfOpen) + x1Nested.content == "\n\t\tx := 1"
  {
  }

  lemma SuppressAfterOpenBraceFrom2()
    ensures Run(Follow, [x1Nested, braceClose], afterIfOpen)
            == "\n\t\tx := 1" + ("\n\t}" + "\n")
  {
    SuppressAfterOpenBraceStep2();
    SuppressAfterOpenBraceFrom3();
    Emit(Follow, x1Nested, [braceClose], afterIfOpen, false);
  }

  lemma SuppressAfterOpenBraceStep3()
    ensures Advance(afterAssign, braceClose) == afterAssign
    ensures !Decide(Follow, braceClose, None, afterAssign)
    ensures Separator(afterAssign) + braceClose.content == "\n\t}"
  {
  }

  lemma SuppressAfterOpenBraceFrom3()
    ensures Run(Follow, [braceClose], afterAssign)
            == "\n\t}" + "\n"
  {
    SuppressAfterOpenBraceStep3();
    assert Run(Follow, [], afterAssign) == "\n";
    assert [braceClose] + [] == [braceClose];
    Emit(Follow, braceClose, [], afterAssign, false);
  }

  // ---------------------------------------------------------------------
  // No blank line precedes a closing brace.

  const outerClose := Line("}", "}").(isClosingBrace := true)

  lemma SuppressBeforeCloseBrace()
    ensures FormatToString(Follow, [x1, outerClose])
            == "\tx := 1" + ("\n}" + "\n")
  {
    ScopeBoundaryStep0();
    SuppressBeforeCloseBraceFrom1();
    Emit(Follow, x1, [outerClose], Initial, false);
  }

  lemma SuppressBeforeCloseBraceStep1()
    ensures Advance(afterAssign, outerClose) == afterAssign
    ensures !Decide(Follow, outerClose, None, afterAssign)
    ensures Separator(afterAssign) + outerClose.content == "\n}"
  {
  }

  lemma SuppressBeforeCloseBraceFrom1()
    ensures Run(Follow, [outerClose], afterAssign)
            == "\n}" + "\n"
  {
    SuppressBeforeCloseBraceStep1();
    assert Run(Follow, [], afterAssign) == "\n";
    assert [outerClose] + [] == [outerClose];
    Emit(Follow, outerClose, [], afterAssign, false);
  }

  // ---------------------------------------------------------------------
  // No blank line goes before or after a case label.

  const case1 := Stmt("\tcase 1:", "case 1:", Assign).(isCaseLabel := true)
  const fooCall := Stmt("\t\tfoo()", "foo()", "*ast.ExprStmt")
  const case2 := Stmt("\tcase 2:", "case 2:", Assign).(isCaseLabel := true)

  lemma SuppressCaseLabelStep0()
    ensures Advance(Initial, case1) == afterCase
    ensures !Decide(Follow, case1, None, Initial)
    ensures Separator(Initial) + case1.content == "\tcase 1:"
  {
  }

  lemma SuppressCaseLabel()
    ensures FormatToString(Follow, [case1, fooCall, case2])
            == "\tcase 1:" + ("\n\t\tfoo()" + ("\n\tcase 2:" + "\n"))
  {
    SuppressCaseLabelStep0();
    SuppressCaseLabelFrom1();
    Emit(Follow, case1, [fooCall, case2], Initial, false);
  }

  lemma SuppressCaseLabelStep1()
    ensures Advance(afterCase, fooCall) == afterCall
    ensures !Decide(Follow, fooCall, None, afterCase)
    ensures Separator(afterCase) + fooCall.content == "\n\t\tfoo()"
  {
  }

  lemma SuppressCaseLabelFrom1()
    ensures Run(Follow, [fooCall, case2], afterCase)
            == "\n\t\tfoo()" + ("\n\tcase 2:" + "\n")
  {
    SuppressCaseLabelStep1();
    SuppressCaseLabelFrom2();
    Emit(Follow, fooCall, [case2], afterCase, false);
  }

  lemma SuppressCaseLabelStep2()
    ensures Advance(afterCall, case2) == afterCase
    ensures !Decide(Follow, case2, None, afterCall)
    ensures Separator(afterCall) + case2.content == "\n\tcase 2:"
  {
  }

  lemma SuppressCaseLabelFrom2()
    ensures Run(Follow, [case2], afterCall)
            == "\n\tcase 2:" + "\n"
  {
    SuppressCaseLabelStep2();
    assert Run(Follow, [], afterCase) == "\n";
    assert [case2] + [] == [case2];
    Emit(Follow, case2, [], afterCall, false);
  }

  // ---------------------------------------------------------------------
  // The lines of a raw string, blank ones included, pass through unchanged.

  const rawOpen := Stmt("\tx := `", "x := `", Assign)
  const raw1 := Line("raw line 1", "raw line 1").(inRawString := true)
  const rawBlank := Line("", "").(inRawString := true)
  const raw2 := Line("raw line 2`", "raw line 2`").(inRawString := true)
  const y1 := Stmt("\ty := 1", "y := 1", Assign)

  lemma RawStringPassthroughStep0()
    ensures Advance(Initial, rawOpen) == afterAssign
    ensures !Decide(Follow, rawOpen, None, Initial)
    ensures Separator(Initial) + rawOpen.content == "\tx := `"
  {
  }

  lemma RawStringPassthrough()
    ensures FormatToString(Follow, [rawOpen, raw1, rawBlank, raw2, y1])
            == "\tx := `" + ("\nraw line 1" + ("\n" + ("\nraw line 2`" + ("\n\ty := 1" + "\n"))))
  {
    RawStringPassthroughStep0();
    RawStringPassthroughFrom1();
    Emit(Follow, rawOpen, [raw1, rawBlank, raw2, y1], Initial, false);
  }

  lemma RawStringPassthroughFrom1()
    ensures Run(Follow, [raw1, rawBlank, raw2, y1], afterAssign)
            == "\nraw line 1" + ("\n" + ("\nraw line 2`" + ("\n\ty := 1" + "\n")))
  {
    assert afterAssign.(hasWrittenContent := true) == afterAssign;
    RawStringPassthroughFrom2();
    Verbatim(Follow, raw1, [rawBlank, raw2, y1], afterAssign);
    assert Separator(afterAssign) + raw1.content == "\nraw line 1";
  }

  lemma RawStringPassthroughFrom2()
    ensures Run(Follow, [rawBlank, raw2, y1], afterAssign)
            == "\n" + ("\nraw line 2`" + ("\n\ty := 1" + "\n"))
  {
    assert afterAssign.(hasWrittenContent := true) == afterAssign;
    RawStringPassthroughFrom3();
    Verbatim(Follow, rawBlank, [raw2, y1], afterAssign);
    assert Separator(afterAssign) + rawBlank.content == "\n";
  }

  lemma RawStringPassthroughFrom3()
    ensures Run(Follow, [raw2, y1], afterAssign)
            == "\nraw line 2`" + ("\n\ty := 1" + "\n")
  {
    assert afterAssign.(hasWrittenContent := true) == afterAssign;
    RawStringPassthroughFrom4();
    Verbatim(Follow, raw2, [y1], afterAssign);
    assert Separator(afterAssign) + raw2.content == "\nraw line 2`";
  }

  lemma RawStringPassthroughStep4()
    ensures Advance(afterAssign, y1) == afterAssign
    ensures !Decide(Follow, y1, None, afterAssign)
    ensures Separator(afterAssign) + y1.content == "\n\ty := 1"
  {
  }

  lemma RawStringPassthroughFrom4()
    ensures Run(Follow, [y1], afterAssign)
            == "\n\ty := 1" + "\n"
  {
    RawStringPassthroughStep4();
    assert Run(Follow, [], afterAssign) == "\n";
    assert [y1] + [] == [y1];
    Emit(Follow, y1, [], afterAssign, false);
  }

  // ---------------------------------------------------------------------
  // A top-level declaration of another type is set apart.

  const typeOpen := Stmt("type Foo struct {", "type Foo struct {", "type").(isTopLevel := true, isScoped := true, isStartLine := true, isOpeningBrace := true)
  const fieldX := Line("\tX int", "X int")
  const typeClose := Stmt("}", "}", "type").(isTopLevel := true, isScoped := true, isClosingBrace := true)
  const varX := Stmt("var x = 1", "var x = 1", "var").(isTopLevel := true, isStartLine := true)

  lemma TopLevelDifferentTypesStep0()
    ensures Advance(Initial, typeOpen) == afterTypeOpen
    ensures !Decide(Follow, typeOpen, None, Initial)
    ensures Separator(Initial) + typeOpen.content == "type Foo struct {"
  {
  }

  lemma TopLevelDifferentTypes()
    ensures FormatToString(Follow, [typeOpen, fieldX, typeClose, varX])
            == "type Foo struct {" + ("\n\tX int" + ("\n}" + ("\n\nvar x = 1" + "\n")))
  {
    TopLevelDifferentTypesStep0();
    TopLevelDifferentTypesFrom1();
    Emit(Follow, typeOpen, [fieldX, typeClose, varX], Initial, false);
  }

  lemma TopLevelDifferentTypesStep1()
    ensures Advance(afterTypeOpen, fieldX) == afterField
    ensures !Decide(Follow, fieldX, None, afterTypeOpen)
    ensures Separator(afterTypeOpen) + fieldX.content == "\n\tX int"
  {
  }

  lemma TopLevelDifferentTypesFrom1()
    ensures Run(Follow, [fieldX, typeClose, varX], afterTypeOpen)
            == "\n\tX int" + ("\n}" + ("\n\nvar x = 1" + "\n"))
  {
    TopLevelDifferentTypesStep1();
    TopLevelDifferentTypesFrom2();
    Emit(Follow, fieldX, [typeClose, varX], afterTypeOpen, false);
  }

  lemma TopLevelDifferentTypesStep2()
    ensures Advance(afterField, typeClose) == afterField
    ensures !Decide(Follow, typeClose, None, afterField)
    ensures Separator(afterField) + typeClose.content == "\n}"
  {
  }

  lemma TopLevelDifferentTypesFrom2()
    ensures Run(Follow, [typeClose, varX], afterField)
            == "\n}" + ("\n\nvar x = 1" + "\n")
  {
    TopLevelDifferentTypesStep2();
    TopLevelDifferentTypesFrom3();
    Emit(Follow, typeClose, [varX], afterField, false);
  }

  lemma TopLevelDifferentTypesStep3()
    ensures Advance(afterField, varX) == afterTopVar
    ensures Decide(Follow, varX, None, afterField)
    ensures "\n" + Separator(afterField) + varX.content == "\n\nvar x = 1"
  {
  }

  lemma TopLevelDifferentTypesFrom3()
    ensures Run(Follow, [varX], afterField)
            == "\n\nvar x = 1" + "\n"
  {
    TopLevelDifferentTypesStep3();
    assert Run(Follow, [], afterTopVar) == "\n";
    assert [varX] + [] == [varX];
    Emit(Follow, varX, [], afterField, true);
  }

  // ---------------------------------------------------------------------
  // A comment takes the blank line the statement after it would get.

  const ifComment := Line("\t// comment about if", "// comment about if").(isCommentOnly := true)

  lemma CommentLookAhead()
    ensures FormatToString(Follow, [x1, ifComment, ifTrueOpen, y2Nested, braceClose])
            == "\tx := 1" + ("\n\n\t// comment about if" + ("\n\tif true {" + ("\n\t\ty := 2" + ("\n\t}" + "\n"))))
  {
    ScopeBoundaryStep0();
    CommentLookAheadFrom1();
    Emit(Follow, x1, [ifComment, ifTrueOpen, y2Nested, braceClose], Initial, false);
  }

  lemma CommentLookAheadTarget()
    ensures Lookahead([ifComment, ifTrueOpen, y2Nested, braceClose]) == Some(ifTrueOpen)
  {
  }

  lemma CommentLookAheadStep1()
    ensures Advance(afterAssign, ifComment) == afterComment
    ensures Decide(Follow, ifComment, Some(ifTrueOpen), afterAssign)
    ensures "\n" + Separator(afterAssign) + ifComment.content == "\n\n\t// comment about if"
  {
  }

  lemma CommentLookAheadFrom1()
    ensures Run(Follow, [ifComment, ifTrueOpen, y2Nested, braceClose], afterAssign)
            == "\n\n\t// comment about if" + ("\n\tif true {" + ("\n\t\ty := 2" + ("\n\t}" + "\n")))
  {
    CommentLookAheadTarget();
    CommentLookAheadStep1();
    CommentLookAheadFrom2();
    EmitComment(Follow, ifComment, [ifTrueOpen, y2Nested, braceClose], afterAssign, Some(ifTrueOpen), true);
  }

  lemma CommentLookAheadStep2()
    ensures Advance(afterComment, ifTrueOpen) == afterIfOpen
    ensures !Decide(Follow, ifTrueOpen, None, afterComment)
    ensures Separator(afterComment) + ifTrueOpen.content == "\n\tif true {"
  {
  }

  lemma CommentLookAheadFrom2()
    ensures Run(Follow, [ifTrueOpen, y2Nested, braceClose], afterComment)
            == "\n\tif true {" + ("\n\t\ty := 2" + ("\n\t}" + "\n"))
  {
    CommentLookAheadStep2();
    CommentLookAheadFrom3();
    Emit(Follow, ifTrueOpen, [y2Nested, braceClose], afterComment, false);
  }

  lemma CommentLookAheadFrom3()
    ensures Run(Follow, [y2Nested, braceClose], afterIfOpen)
            == "\n\t\ty := 2" + ("\n\t}" + "\n")
  {
    ScopeBoundaryStep2();
    CommentLookAheadFrom4();
    Emit(Follow, y2Nested, [braceClose], afterIfOpen, false);
  }

  lemma CommentLookAheadFrom4()
    ensures Run(Follow, [braceClose], afterAssign)
            == "\n\t}" + "\n"
  {
    SuppressAfterOpenBraceStep3();
    assert Run(Follow, [], afterAssign) == "\n";
    assert [braceClose] + [] == [braceClose];
    Emit(Follow, braceClose, [], afterAssign, false);
  }

  // ---------------------------------------------------------------------
  // The package clause is set apart from the first declaration.

  const packageMain := Line("package main", "package main").(isPackageDecl := true)
  const funcClose := Stmt("}", "}", "func").(isTopLevel := true, isScoped := true, isClosingBrace := true)

  lemma PackageDeclarationStep0()
    ensures Advance(Initial, packageMain) == afterPackage
    ensures !Decide(Follow, packageMain, None, Initial)
    ensures Separator(Initial) + packageMain.content == "package main"
  {
  }

  lemma PackageDeclaration()
    ensures FormatToString(Follow, [packageMain, Blank, funcOpen, funcClose])
            == "package main" + ("\n\nfunc main() {" + ("\n}" + "\n"))
  {
    PackageDeclarationStep0();
    PackageDeclarationFrom1();
    Emit(Follow, packageMain, [Blank, funcOpen, funcClose], Initial, false);
  }

  lemma PackageDeclarationFrom1()
    ensures Run(Follow, [Blank, funcOpen, funcClose], afterPackage)
            == "\n\nfunc main() {" + ("\n}" + "\n")
  {
    PackageDeclarationFrom2();
    Skip(Follow, Blank, [funcOpen, funcClose], afterPackage);
  }

  lemma PackageDeclarationStep2()
    ensures Advance(afterPackage, funcOpen) == afterFuncOpen
    ensures Decide(Follow, funcOpen, None, afterPackage)
    ensures "\n" + Separator(afterPackage) + funcOpen.content == "\n\nfunc main() {"
  {
  }

  lemma PackageDeclarationFrom2()
    ensures Run(Follow, [funcOpen, funcClose], afterPackage)
            == "\n\nfunc main() {" + ("\n}" + "\n")
  {
    PackageDeclarationStep2();
    PackageDeclarationFrom3();
    Emit(Follow, funcOpen, [funcClose], afterPackage, true);
  }

  lemma PackageDeclarationStep3()
    ensures Advance(afterFuncOpen, funcClose) == afterFuncClose
    ensures !Decide(Follow, funcClose, None, afterFuncOpen)
    ensures Separator(afterFuncOpen) + funcClose.content == "\n}"
  {
  }

  lemma PackageDeclarationFrom3()
    ensures Run(Follow, [funcClose], afterFuncOpen)
            == "\n}" + "\n"
  {
    PackageDeclarationStep3();
    assert Run(Follow, [], afterFuncClose) == "\n";
    assert [funcClose] + [] == [funcClose];
    Emit(Follow, funcClose, [], afterFuncOpen, false);
  }

  // ---------------------------------------------------------------------
  // A lone package clause comes out as one terminated line.


  lemma FormatToStringTerminates()
    ensures FormatToString(Follow, [packageMain])
            == "package main" + "\n"
  {
    PackageDeclarationStep0();
    assert Run(Follow, [], afterPackage) == "\n";
    assert [packageMain] + [] == [packageMain];
    Emit(Follow, packageMain, [], Initial, false);
  }
  // ---------------------------------------------------------------------
  // The lookahead skips blank and comment lines and reports -1 past the end.

  lemma FindNextNonCommentExample()
    ensures var events := [Line("x", "x"), Blank, Line("// comment", "// comment").(isCommentOnly := true), Line("y", "y")];
            FindNextNonComment(events, 1) == 3 && FindNextNonComment(events, 4) == -1
  {
    var events := [Line("x", "x"), Blank, Line("// comment", "// comment").(isCommentOnly := true), Line("y", "y")];
    assert FindNextNonComment(events, 3) == 3;
    assert FindNextNonComment(events, 2) == 3;
  }
}
