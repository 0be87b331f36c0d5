/** Rows of the statement classifier's table of expected results
    (adapter_ecmascript_test.go), each proved of the model: the modifiers
    are removed, the rows before the matching one are passed over because
    their keywords start with other letters, and the matching row decides.
    Lines that start with `catch` or `finally` match no row and are
    unclassified. */
module EcmaScriptExamples {
  import opened Text
  import opened EcmaScript

  /** A line too short for a modifier, or whose first two letters start
      none of them, keeps its text. */
  lemma Unmodified(t: string)
    requires |t| < 2 || !((t[0] == 'e' && t[1] == 'x') || (t[0] == 'a' && t[1] == 's') || (t[0] == 'd' && t[1] == 'e'))
    ensures StripModifiers(t) == t
  {
    NotPrefix(t, "export default ");
    NotPrefix(t, "export ");
    NotPrefix(t, "async ");
    NotPrefix(t, "declare ");
  }

  /** A string whose first two letters differ from those of `p` does not
      start with `p`. */
  lemma NotPrefix(s: string, p: string)
    requires |p| >= 2 && (|s| < 2 || s[0] != p[0] || s[1] != p[1])
    ensures !HasPrefix(s, p)
  {
  }

  lemma FunctionFooRow()
    ensures FirstMatch(StripModifiers("function foo() {"), Keywords, 0, 0)
  {
    var t := "function foo() {";
    Unmodified(t);
    assert Keywords[0].word == "function";
    assert t[..8] == "function" && t[8] == ' ';
  }

  lemma ClassifyFunctionFoo()
    ensures Classify("function foo() {") == Classification("function", true)
  {
    FunctionFooRow();
    assert Keywords[0] == Keyword("function", "function", true);
    ClassifyByRow("function foo() {", 0);
  }

  lemma AsyncFunctionFooStrips()
    ensures StripModifiers("async function foo() {") == "function foo() {"
  {
    var t := "async function foo() {";
    assert !HasPrefix(t, "export default ") by { assert t[0] != "export default "[0]; }
    assert !HasPrefix(t, "export ") by { assert t[0] != "export "[0]; }
    assert t[..6] == "async ";
    var t1 := t[6..];
    assert t1 == "function foo() {";
    assert !HasPrefix(t1, "declare ") by { assert t1[0] != "declare "[0]; }
    assert StripModifiers(t) == t1;
  }

  lemma AsyncFunctionFooRow()
    ensures FirstMatch(StripModifiers("async function foo() {"), Keywords, 0, 0)
  {
    var t1 := "function foo() {";
    AsyncFunctionFooStrips();
    assert Keywords[0].word == "function";
    assert t1[..8] == "function" && t1[8] == ' ';
  }

  lemma ClassifyAsyncFunctionFoo()
    ensures Classify("async function foo() {") == Classification("function", true)
  {
    AsyncFunctionFooRow();
    assert Keywords[0] == Keyword("function", "function", true);
    ClassifyByRow("async function foo() {", 0);
  }

  lemma ExportFunctionFooStrips()
    ensures StripModifiers("export function foo() {") == "function foo() {"
  {
    var t := "export function foo() {";
    assert !HasPrefix(t, "export default ") by { assert t[7] != "export default "[7]; }
    assert t[..7] == "export ";
    var t1 := t[7..];
    assert t1 == "function foo() {";
    assert !HasPrefix(t1, "async ") by { assert t1[0] != "async "[0]; }
    assert !HasPrefix(t1, "declare ") by { assert t1[0] != "declare "[0]; }
    assert StripModifiers(t) == t1;
  }

  lemma ExportFunctionFooRow()
    ensures FirstMatch(StripModifiers("export function foo() {"), Keywords, 0, 0)
  {
    var t1 := "function foo() {";
    ExportFunctionFooStrips();
    assert Keywords[0].word == "function";
    assert t1[..8] == "function" && t1[8] == ' ';
  }

  lemma ClassifyExportFunctionFoo()
    ensures Classify("export function foo() {") == Classification("function", true)
  {
    ExportFunctionFooRow();
    assert Keywords[0] == Keyword("function", "function", true);
    ClassifyByRow("export function foo() {", 0);
  }

  lemma ExportDefaultFunctionStrips()
    ensures StripModifiers("export default function() {") == "function() {"
  {
    var t := "export default function() {";
    assert t[..15] == "export default ";
    var t1 := t[15..];
    assert t1 == "function() {";
    assert !HasPrefix(t1, "async ") by { assert t1[0] != "async "[0]; }
    assert !HasPrefix(t1, "declare ") by { assert t1[0] != "declare "[0]; }
    assert StripModifiers(t) == t1;
  }

  lemma ExportDefaultFunctionRow()
    ensures FirstMatch(StripModifiers("export default function() {"), Keywords, 0, 0)
  {
    var t1 := "function() {";
    ExportDefaultFunctionStrips();
    assert Keywords[0].word == "function";
    assert t1[..8] == "function" && t1[8] == '(';
  }

  lemma ClassifyExportDefaultFunction()
    ensures Classify("export default function() {") == Classification("function", true)
  {
    ExportDefaultFunctionRow();
    assert Keywords[0] == Keyword("function", "function", true);
    ClassifyByRow("export default function() {", 0);
  }

  lemma ClassFooSkips()
    ensures forall j :: 0 <= j < 1 ==> !StatementHasPrefix("class Foo {", Keywords[j].word)
  {
    LettersDiffer("class Foo {", 'c', 'l', 0, 1);
  }

  lemma ClassFooRow()
    ensures FirstMatch(StripModifiers("class Foo {"), Keywords, 0, 1)
  {
    var t := "class Foo {";
    Unmodified(t);
    ClassFooSkips();
    assert Keywords[1].word == "class";
    assert t[..5] == "class" && t[5] == ' ';
  }

  lemma ClassifyClassFoo()
    ensures Classify("class Foo {") == Classification("class", true)
  {
    ClassFooRow();
    assert Keywords[1] == Keyword("class", "class", true);
    ClassifyByRow("class Foo {", 1);
  }

  lemma IfXSkips()
    ensures forall j :: 0 <= j < 2 ==> !StatementHasPrefix("if (x) {", Keywords[j].word)
  {
    LettersDiffer("if (x) {", 'i', 'f', 0, 2);
  }

  lemma IfXRow()
    ensures FirstMatch(StripModifiers("if (x) {"), Keywords, 0, 2)
  {
    var t := "if (x) {";
    Unmodified(t);
    IfXSkips();
    assert Keywords[2].word == "if";
    assert t[..2] == "if" && t[2] == ' ';
  }

  lemma ClassifyIfX()
    ensures Classify("if (x) {") == Classification("if", true)
  {
    IfXRow();
    assert Keywords[2] == Keyword("if", "if", true);
    ClassifyByRow("if (x) {", 2);
  }

  lemma ElseIfYSkips()
    ensures forall j :: 0 <= j < 3 ==> !StatementHasPrefix("else if (y) {", Keywords[j].word)
  {
    LettersDiffer("else if (y) {", 'e', 'l', 0, 3);
  }

  lemma ElseIfYRow()
    ensures FirstMatch(StripModifiers("else if (y) {"), Keywords, 0, 3)
  {
    var t := "else if (y) {";
    Unmodified(t);
    ElseIfYSkips();
    assert Keywords[3].word == "else";
    assert t[..4] == "else" && t[4] == ' ';
  }

  lemma ClassifyElseIfY()
    ensures Classify("else if (y) {") == Classification("if", true)
  {
    ElseIfYRow();
    assert Keywords[3] == Keyword("else", "if", true);
    ClassifyByRow("else if (y) {", 3);
  }

  lemma ElseSkips()
    ensures forall j :: 0 <= j < 3 ==> !StatementHasPrefix("else {", Keywords[j].word)
  {
    LettersDiffer("else {", 'e', 'l', 0, 3);
  }

  lemma ElseRow()
    ensures FirstMatch(StripModifiers("else {"), Keywords, 0, 3)
  {
    var t := "else {";
    Unmodified(t);
    ElseSkips();
    assert Keywords[3].word == "else";
    assert t[..4] == "else" && t[4] == ' ';
  }

  lemma ClassifyElse()
    ensures Classify("else {") == Classification("if", true)
  {
    ElseRow();
    assert Keywords[3] == Keyword("else", "if", true);
    ClassifyByRow("else {", 3);
  }

  lemma WhileTrueSkips()
    ensures forall j :: 0 <= j < 5 ==> !StatementHasPrefix("while (true) {", Keywords[j].word)
  {
    LettersDiffer("while (true) {", 'w', 'h', 0, 5);
  }

  lemma WhileTrueRow()
    ensures FirstMatch(StripModifiers("while (true) {"), Keywords, 0, 5)
  {
    var t := "while (true) {";
    Unmodified(t);
    WhileTrueSkips();
    assert Keywords[5].word == "while";
    assert t[..5] == "while" && t[5] == ' ';
  }

  lemma ClassifyWhileTrue()
    ensures Classify("while (true) {") == Classification("while", true)
  {
    WhileTrueRow();
    assert Keywords[5] == Keyword("while", "while", true);
    ClassifyByRow("while (true) {", 5);
  }

  lemma DoSkips()
    ensures forall j :: 0 <= j < 6 ==> !StatementHasPrefix("do {", Keywords[j].word)
  {
    LettersDiffer("do {", 'd', 'o', 0, 6);
  }

  lemma DoRow()
    ensures FirstMatch(StripModifiers("do {"), Keywords, 0, 6)
  {
    var t := "do {";
    Unmodified(t);
    DoSkips();
    assert Keywords[6].word == "do";
    assert t[..2] == "do" && t[2] == ' ';
  }

  lemma ClassifyDo()
    ensures Classify("do {") == Classification("do", true)
  {
    DoRow();
    assert Keywords[6] == Keyword("do", "do", true);
    ClassifyByRow("do {", 6);
  }

  lemma SwitchXSkips()
    ensures forall j :: 0 <= j < 7 ==> !StatementHasPrefix("switch (x) {", Keywords[j].word)
  {
    LettersDiffer("switch (x) {", 's', 'w', 0, 7);
  }

  lemma SwitchXRow()
    ensures FirstMatch(StripModifiers("switch (x) {"), Keywords, 0, 7)
  {
    var t := "switch (x) {";
    Unmodified(t);
    SwitchXSkips();
    assert Keywords[7].word == "switch";
    assert t[..6] == "switch" && t[6] == ' ';
  }

  lemma ClassifySwitchX()
    ensures Classify("switch (x) {") == Classification("switch", true)
  {
    SwitchXRow();
    assert Keywords[7] == Keyword("switch", "switch", true);
    ClassifyByRow("switch (x) {", 7);
  }

  lemma TrySkips()
    ensures forall j :: 0 <= j < 8 ==> !StatementHasPrefix("try {", Keywords[j].word)
  {
    LettersDiffer("try {", 't', 'r', 0, 8);
  }

  lemma TryRow()
    ensures FirstMatch(StripModifiers("try {"), Keywords, 0, 8)
  {
    var t := "try {";
    Unmodified(t);
    TrySkips();
    assert Keywords[8].word == "try";
    assert t[..3] == "try" && t[3] == ' ';
  }

  lemma ClassifyTry()
    ensures Classify("try {") == Classification("try", true)
  {
    TryRow();
    assert Keywords[8] == Keyword("try", "try", true);
    ClassifyByRow("try {", 8);
  }

  lemma ClassifyCatchE()
    ensures Classify("catch (e) {") == Unclassifiable
  {
    var t := "catch (e) {";
    Unmodified(t);
    LettersDiffer(t, 'c', 'a', 0, 21);
    ClassifyNoRow(t);
  }

  lemma ClassifyFinally()
    ensures Classify("finally {") == Unclassifiable
  {
    var t := "finally {";
    Unmodified(t);
    LettersDiffer(t, 'f', 'i', 0, 21);
    ClassifyNoRow(t);
  }

  lemma InterfaceFooSkips()
    ensures forall j :: 0 <= j < 9 ==> !StatementHasPrefix("interface Foo {", Keywords[j].word)
  {
    LettersDiffer("interface Foo {", 'i', 'n', 0, 9);
  }

  lemma InterfaceFooRow()
    ensures FirstMatch(StripModifiers("interface Foo {"), Keywords, 0, 9)
  {
    var t := "interface Foo {";
    Unmodified(t);
    InterfaceFooSkips();
    assert Keywords[9].word == "interface";
    assert t[..9] == "interface" && t[9] == ' ';
  }

  lemma ClassifyInterfaceFoo()
    ensures Classify("interface Foo {") == Classification("interface", true)
  {
    InterfaceFooRow();
    assert Keywords[9] == Keyword("interface", "interface", true);
    ClassifyByRow("interface Foo {", 9);
  }

  lemma EnumDirectionSkips()
    ensures forall j :: 0 <= j < 10 ==> !StatementHasPrefix("enum Direction {", Keywords[j].word)
  {
    LettersDiffer("enum Direction {", 'e', 'n', 0, 10);
  }

  lemma EnumDirectionRow()
    ensures FirstMatch(StripModifiers("enum Direction {"), Keywords, 0, 10)
  {
    var t := "enum Direction {";
    Unmodified(t);
    EnumDirectionSkips();
    assert Keywords[10].word == "enum";
    assert t[..4] == "enum" && t[4] == ' ';
  }

  lemma ClassifyEnumDirection()
    ensures Classify("enum Direction {") == Classification("enum", true)
  {
    EnumDirectionRow();
    assert Keywords[10] == Keyword("enum", "enum", true);
    ClassifyByRow("enum Direction {", 10);
  }

  lemma NamespaceFooSkips()
    ensures forall j :: 0 <= j < 11 ==> !StatementHasPrefix("namespace Foo {", Keywords[j].word)
  {
    LettersDiffer("namespace Foo {", 'n', 'a', 0, 11);
  }

  lemma NamespaceFooRow()
    ensures FirstMatch(StripModifiers("namespace Foo {"), Keywords, 0, 11)
  {
    var t := "namespace Foo {";
    Unmodified(t);
    NamespaceFooSkips();
    assert Keywords[11].word == "namespace";
    assert t[..9] == "namespace" && t[9] == ' ';
  }

  lemma ClassifyNamespaceFoo()
    ensures Classify("namespace Foo {") == Classification("namespace", true)
  {
    NamespaceFooRow();
    assert Keywords[11] == Keyword("namespace", "namespace", true);
    ClassifyByRow("namespace Foo {", 11);
  }

  lemma ConstX1Skips()
    ensures forall j :: 0 <= j < 12 ==> !StatementHasPrefix("const x = 1;", Keywords[j].word)
  {
    LettersDiffer("const x = 1;", 'c', 'o', 0, 12);
  }

  lemma ConstX1Row()
    ensures FirstMatch(StripModifiers("const x = 1;"), Keywords, 0, 12)
  {
    var t := "const x = 1;";
    Unmodified(t);
    ConstX1Skips();
    assert Keywords[12].word == "const";
    assert t[..5] == "const" && t[5] == ' ';
  }

  lemma ClassifyConstX1()
    ensures Classify("const x = 1;") == Classification("const", false)
  {
    ConstX1Row();
    assert Keywords[12] == Keyword("const", "const", false);
    ClassifyByRow("const x = 1;", 12);
  }

  lemma LetX1Skips()
    ensures forall j :: 0 <= j < 13 ==> !StatementHasPrefix("let x = 1;", Keywords[j].word)
  {
    LettersDiffer("let x = 1;", 'l', 'e', 0, 13);
  }

  lemma LetX1Row()
    ensures FirstMatch(StripModifiers("let x = 1;"), Keywords, 0, 13)
  {
    var t := "let x = 1;";
    Unmodified(t);
    LetX1Skips();
    assert Keywords[13].word == "let";
    assert t[..3] == "let" && t[3] == ' ';
  }

  lemma ClassifyLetX1()
    ensures Classify("let x = 1;") == Classification("let", false)
  {
    LetX1Row();
    assert Keywords[13] == Keyword("let", "let", false);
    ClassifyByRow("let x = 1;", 13);
  }

  lemma VarX1Skips()
    ensures forall j :: 0 <= j < 14 ==> !StatementHasPrefix("var x = 1;", Keywords[j].word)
  {
    LettersDiffer("var x = 1;", 'v', 'a', 0, 14);
  }

  lemma VarX1Row()
    ensures FirstMatch(StripModifiers("var x = 1;"), Keywords, 0, 14)
  {
    var t := "var x = 1;";
    Unmodified(t);
    VarX1Skips();
    assert Keywords[14].word == "var";
    assert t[..3] == "var" && t[3] == ' ';
  }

  lemma ClassifyVarX1()
    ensures Classify("var x = 1;") == Classification("var", false)
  {
    VarX1Row();
    assert Keywords[14] == Keyword("var", "var", false);
    ClassifyByRow("var x = 1;", 14);
  }

  lemma ReturnXSkips()
    ensures forall j :: 0 <= j < 17 ==> !StatementHasPrefix("return x;", Keywords[j].word)
  {
    LettersDiffer("return x;", 'r', 'e', 0, 17);
  }

  lemma ReturnXRow()
    ensures FirstMatch(StripModifiers("return x;"), Keywords, 0, 17)
  {
    var t := "return x;";
    Unmodified(t);
    ReturnXSkips();
    assert Keywords[17].word == "return";
    assert t[..6] == "return" && t[6] == ' ';
  }

  lemma ClassifyReturnX()
    ensures Classify("return x;") == Classification("return", false)
  {
    ReturnXRow();
    assert Keywords[17] == Keyword("return", "return", false);
    ClassifyByRow("return x;", 17);
  }

  lemma ReturnSkips()
    ensures forall j :: 0 <= j < 17 ==> !StatementHasPrefix("return;", Keywords[j].word)
  {
    LettersDiffer("return;", 'r', 'e', 0, 17);
  }

  lemma ReturnRow()
    ensures FirstMatch(StripModifiers("return;"), Keywords, 0, 17)
  {
    var t := "return;";
    Unmodified(t);
    ReturnSkips();
    assert Keywords[17].word == "return";
    assert t[..6] == "return" && t[6] == ';';
  }

  lemma ClassifyReturn()
    ensures Classify("return;") == Classification("return", false)
  {
    ReturnRow();
    assert Keywords[17] == Keyword("return", "return", false);
    ClassifyByRow("return;", 17);
  }

  lemma ThrowNewErrorSkips()
    ensures forall j :: 0 <= j < 18 ==> !StatementHasPrefix("throw new Error();", Keywords[j].word)
  {
    LettersDiffer("throw new Error();", 't', 'h', 0, 18);
  }

  lemma ThrowNewErrorRow()
    ensures FirstMatch(StripModifiers("throw new Error();"), Keywords, 0, 18)
  {
    var t := "throw new Error();";
    Unmodified(t);
    ThrowNewErrorSkips();
    assert Keywords[18].word == "throw";
    assert t[..5] == "throw" && t[5] == ' ';
  }

  lemma ClassifyThrowNewError()
    ensures Classify("throw new Error();") == Classification("throw", false)
  {
    ThrowNewErrorRow();
    assert Keywords[18] == Keyword("throw", "throw", false);
    ClassifyByRow("throw new Error();", 18);
  }

  lemma AwaitFetchUrlSkips()
    ensures forall j :: 0 <= j < 19 ==> !StatementHasPrefix("await fetch(url);", Keywords[j].word)
  {
    LettersDiffer("await fetch(url);", 'a', 'w', 0, 19);
  }

  lemma AwaitFetchUrlRow()
    ensures FirstMatch(StripModifiers("await fetch(url);"), Keywords, 0, 19)
  {
    var t := "await fetch(url);";
    Unmodified(t);
    AwaitFetchUrlSkips();
    assert Keywords[19].word == "await";
    assert t[..5] == "await" && t[5] == ' ';
  }

  lemma ClassifyAwaitFetchUrl()
    ensures Classify("await fetch(url);") == Classification("await", false)
  {
    AwaitFetchUrlRow();
    assert Keywords[19] == Keyword("await", "await", false);
    ClassifyByRow("await fetch(url);", 19);
  }

  lemma YieldValueSkips()
    ensures forall j :: 0 <= j < 20 ==> !StatementHasPrefix("yield value;", Keywords[j].word)
  {
    LettersDiffer("yield value;", 'y', 'i', 0, 20);
  }

  lemma YieldValueRow()
    ensures FirstMatch(StripModifiers("yield value;"), Keywords, 0, 20)
  {
    var t := "yield value;";
    Unmodified(t);
    YieldValueSkips();
    assert Keywords[20].word == "yield";
    assert t[..5] == "yield" && t[5] == ' ';
  }

  lemma ClassifyYieldValue()
    ensures Classify("yield value;") == Classification("yield", false)
  {
    YieldValueRow();
    assert Keywords[20] == Keyword("yield", "yield", false);
    ClassifyByRow("yield value;", 20);
  }

  lemma ExportDefaultClassFooStrips()
    ensures StripModifiers("export default class Foo {") == "class Foo {"
  {
    var t := "export default class Foo {";
    assert t[..15] == "export default ";
    var t1 := t[15..];
    assert t1 == "class Foo {";
    assert !HasPrefix(t1, "async ") by { assert t1[0] != "async "[0]; }
    assert !HasPrefix(t1, "declare ") by { assert t1[0] != "declare "[0]; }
    assert StripModifiers(t) == t1;
  }

  lemma ExportDefaultClassFooRow()
    ensures FirstMatch(StripModifiers("export default class Foo {"), Keywords, 0, 1)
  {
    var t1 := "class Foo {";
    ExportDefaultClassFooStrips();
    ClassFooSkips();
    assert Keywords[1].word == "class";
    assert t1[..5] == "class" && t1[5] == ' ';
  }

  lemma ClassifyExportDefaultClassFoo()
    ensures Classify("export default class Foo {") == Classification("class", true)
  {
    ExportDefaultClassFooRow();
    assert Keywords[1] == Keyword("class", "class", true);
    ClassifyByRow("export default class Foo {", 1);
  }

  lemma DeclareFunctionFooVoidStrips()
    ensures StripModifiers("declare function foo(): void;") == "function foo(): void;"
  {
    var t := "declare function foo(): void;";
    assert !HasPrefix(t, "export default ") by { assert t[0] != "export default "[0]; }
    assert !HasPrefix(t, "export ") by { assert t[0] != "export "[0]; }
    assert !HasPrefix(t, "async ") by { assert t[0] != "async "[0]; }
    assert t[..8] == "declare ";
    var t1 := t[8..];
    assert t1 == "function foo(): void;";
    assert StripModifiers(t) == t1;
  }

  lemma DeclareFunctionFooVoidRow()
    ensures FirstMatch(StripModifiers("declare function foo(): void;"), Keywords, 0, 0)
  {
    var t1 := "function foo(): void;";
    DeclareFunctionFooVoidStrips();
    assert Keywords[0].word == "function";
    assert t1[..8] == "function" && t1[8] == ' ';
  }

  lemma ClassifyDeclareFunctionFooVoid()
    ensures Classify("declare function foo(): void;") == Classification("function", true)
  {
    DeclareFunctionFooVoidRow();
    assert Keywords[0] == Keyword("function", "function", true);
    ClassifyByRow("declare function foo(): void;", 0);
  }

  lemma ExportClassFooStrips()
    ensures StripModifiers("export class Foo {") == "class Foo {"
  {
    var t := "export class Foo {";
    assert !HasPrefix(t, "export default ") by { assert t[7] != "export default "[7]; }
    assert t[..7] == "export ";
    var t1 := t[7..];
    assert t1 == "class Foo {";
    assert !HasPrefix(t1, "async ") by { assert t1[0] != "async "[0]; }
    assert !HasPrefix(t1, "declare ") by { assert t1[0] != "declare "[0]; }
    assert StripModifiers(t) == t1;
  }

  lemma ExportClassFooRow()
    ensures FirstMatch(StripModifiers("export class Foo {"), Keywords, 0, 1)
  {
    var t1 := "class Foo {";
    ExportClassFooStrips();
    ClassFooSkips();
    assert Keywords[1].word == "class";
    assert t1[..5] == "class" && t1[5] == ' ';
  }

  lemma ClassifyExportClassFoo()
    ensures Classify("export class Foo {") == Classification("class", true)
  {
    ExportClassFooRow();
    assert Keywords[1] == Keyword("class", "class", true);
    ClassifyByRow("export class Foo {", 1);
  }

  lemma ForConstXSkips()
    ensures forall j :: 0 <= j < 4 ==> !StatementHasPrefix("for (const x of items) {", Keywords[j].word)
  {
    LettersDiffer("for (const x of items) {", 'f', 'o', 0, 4);
  }

  lemma ForConstXRow()
    ensures FirstMatch(StripModifiers("for (const x of items) {"), Keywords, 0, 4)
  {
    var t := "for (const x of items) {";
    Unmodified(t);
    ForConstXSkips();
    assert Keywords[4].word == "for";
    assert t[..3] == "for" && t[3] == ' ';
  }

  lemma ClassifyForConstX()
    ensures Classify("for (const x of items) {") == Classification("for", true)
  {
    ForConstXRow();
    assert Keywords[4] == Keyword("for", "for", true);
    ClassifyByRow("for (const x of items) {", 4);
  }

  lemma ImportFooSkips()
    ensures forall j :: 0 <= j < 15 ==> !StatementHasPrefix("import { foo } from 'bar';", Keywords[j].word)
  {
    LettersDiffer("import { foo } from 'bar';", 'i', 'm', 0, 15);
  }

  lemma ImportFooRow()
    ensures FirstMatch(StripModifiers("import { foo } from 'bar';"), Keywords, 0, 15)
  {
    var t := "import { foo } from 'bar';";
    Unmodified(t);
    ImportFooSkips();
    assert Keywords[15].word == "import";
    assert t[..6] == "import" && t[6] == ' ';
  }

  lemma ClassifyImportFoo()
    ensures Classify("import { foo } from 'bar';") == Classification("import", false)
  {
    ImportFooRow();
    assert Keywords[15] == Keyword("import", "import", false);
    ClassifyByRow("import { foo } from 'bar';", 15);
  }

  lemma TypeFooSkips()
    ensures forall j :: 0 <= j < 16 ==> !StatementHasPrefix("type Foo = string;", Keywords[j].word)
  {
    LettersDiffer("type Foo = string;", 't', 'y', 0, 16);
  }

  lemma TypeFooRow()
    ensures FirstMatch(StripModifiers("type Foo = string;"), Keywords, 0, 16)
  {
    var t := "type Foo = string;";
    Unmodified(t);
    TypeFooSkips();
    assert Keywords[16].word == "type";
    assert t[..4] == "type" && t[4] == ' ';
  }

  lemma ClassifyTypeFoo()
    ensures Classify("type Foo = string;") == Classification("type", false)
  {
    TypeFooRow();
    assert Keywords[16] == Keyword("type", "type", false);
    ClassifyByRow("type Foo = string;", 16);
  }

  lemma ExportConstX1Strips()
    ensures StripModifiers("export const x = 1;") == "const x = 1;"
  {
    var t := "export const x = 1;";
    assert !HasPrefix(t, "export default ") by { assert t[7] != "export default "[7]; }
    assert t[..7] == "export ";
    var t1 := t[7..];
    assert t1 == "const x = 1;";
    assert !HasPrefix(t1, "async ") by { assert t1[0] != "async "[0]; }
    assert !HasPrefix(t1, "declare ") by { assert t1[0] != "declare "[0]; }
    assert StripModifiers(t) == t1;
  }

  lemma ExportConstX1Row()
    ensures FirstMatch(StripModifiers("export const x = 1;"), Keywords, 0, 12)
  {
    var t1 := "const x = 1;";
    ExportConstX1Strips();
    ConstX1Skips();
    assert Keywords[12].word == "const";
    assert t1[..5] == "const" && t1[5] == ' ';
  }

  lemma ClassifyExportConstX1()
    ensures Classify("export const x = 1;") == Classification("const", false)
  {
    ExportConstX1Row();
    assert Keywords[12] == Keyword("const", "const", false);
    ClassifyByRow("export const x = 1;", 12);
  }

  lemma DeclareConstXStrips()
    ensures StripModifiers("declare const x: number;") == "const x: number;"
  {
    var t := "declare const x: number;";
    assert !HasPrefix(t, "export default ") by { assert t[0] != "export default "[0]; }
    assert !HasPrefix(t, "export ") by { assert t[0] != "export "[0]; }
    assert !HasPrefix(t, "async ") by { assert t[0] != "async "[0]; }
    assert t[..8] == "declare ";
    var t1 := t[8..];
    assert t1 == "const x: number;";
    assert StripModifiers(t) == t1;
  }

  lemma DeclareConstXSkips()
    ensures forall j :: 0 <= j < 12 ==> !StatementHasPrefix("const x: number;", Keywords[j].word)
  {
    LettersDiffer("const x: number;", 'c', 'o', 0, 12);
  }

  lemma DeclareConstXRow()
    ensures FirstMatch(StripModifiers("declare const x: number;"), Keywords, 0, 12)
  {
    var t1 := "const x: number;";
    DeclareConstXStrips();
    DeclareConstXSkips();
    assert Keywords[12].word == "const";
    assert t1[..5] == "const" && t1[5] == ' ';
  }

  lemma ClassifyDeclareConstX()
    ensures Classify("declare const x: number;") == Classification("const", false)
  {
    DeclareConstXRow();
    assert Keywords[12] == Keyword("const", "const", false);
    ClassifyByRow("declare const x: number;", 12);
  }

  lemma ClassifyFoo()
    ensures Classify("foo();") == Unclassifiable
  {
    var t := "foo();";
    Unmodified(t);
    LettersDiffer(t, 'f', 'o', 0, 4);
    assert Keywords[4].word == "for";
    assert !StatementHasPrefix(t, "for") by { assert t[2] != "for"[2]; }
    LettersDiffer(t, 'f', 'o', 5, 21);
    ClassifyNoRow(t);
  }

  lemma ClassifyX1()
    ensures Classify("x = 1;") == Unclassifiable
  {
    var t := "x = 1;";
    Unmodified(t);
    LettersDiffer(t, 'x', ' ', 0, 21);
    ClassifyNoRow(t);
  }

  lemma ClassifyEmpty()
    ensures Classify("") == Unclassifiable
  {
    var t := "";
    Unmodified(t);
    LettersAgree();
    ClassifyNoRow(t);
  }
}
