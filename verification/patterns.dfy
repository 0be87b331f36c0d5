/** The stateless line recognisers shared by both adapters (patterns.go):
    brace, case-label, comment and package tests that look only at the first
    or last significant byte of a line, and the quote-aware backtick counter
    that drives raw-string tracking. */
module Patterns {
  import Text

  /** Space, tab, line feed, carriage return and form feed. */
  predicate IsWhitespace(c: char) {
    c == ' ' || c == '\t' || c == '\n' || c == '\r' || c == '\U{000C}'
  }

  /** Every byte of `s` before index `k` is whitespace. */
  ghost predicate WhitespaceBefore(s: string, k: int)
    requires 0 <= k <= |s|
  {
    forall j :: 0 <= j < k ==> IsWhitespace(s[j])
  }

  /** Every byte of `s` after index `k` is whitespace. */
  ghost predicate WhitespaceAfter(s: string, k: int)
    requires -1 <= k < |s|
  {
    forall j :: k < j < |s| ==> IsWhitespace(s[j])
  }

  ghost predicate AllWhitespace(s: string) {
    forall j :: 0 <= j < |s| ==> IsWhitespace(s[j])
  }

  /** Index of the first non-whitespace byte at or after `i`, or `|s|`. */
  function SkipWhitespace(s: string, i: nat): (k: nat)
    requires i <= |s|
    ensures i <= k <= |s|
    ensures forall j :: i <= j < k ==> IsWhitespace(s[j])
    ensures k < |s| ==> !IsWhitespace(s[k])
    decreases |s| - i
  {
    if i < |s| && IsWhitespace(s[i]) then SkipWhitespace(s, i + 1) else i
  }

  /** Index of the last non-whitespace byte at or before `i`, or -1. */
  function LastNonWhitespace(s: string, i: int): (k: int)
    requires -1 <= i < |s|
    ensures -1 <= k <= i
    ensures forall j :: k < j <= i ==> IsWhitespace(s[j])
    ensures k >= 0 ==> !IsWhitespace(s[k])
    decreases i + 1
  {
    if i >= 0 && IsWhitespace(s[i]) then LastNonWhitespace(s, i - 1) else i
  }

  /** The first non-whitespace byte is `}` or `)`. */
  function IsClosingBrace(s: string): (r: bool)
    ensures r <==> exists k :: 0 <= k < |s| && WhitespaceBefore(s, k) && (s[k] == '}' || s[k] == ')')
    ensures AllWhitespace(s) ==> !r
  {
    var k := SkipWhitespace(s, 0);
    assert forall k' :: 0 <= k' < |s| && WhitespaceBefore(s, k') && !IsWhitespace(s[k']) ==> k' == k;
    k < |s| && (s[k] == '}' || s[k] == ')')
  }

  /** The last non-whitespace byte is `{` or `(`. */
  function IsOpeningBrace(s: string): (r: bool)
    ensures r <==> exists k :: 0 <= k < |s| && WhitespaceAfter(s, k) && (s[k] == '{' || s[k] == '(')
    ensures AllWhitespace(s) ==> !r
  {
    var k := LastNonWhitespace(s, |s| - 1);
    assert forall k' :: 0 <= k' < |s| && WhitespaceAfter(s, k') && !IsWhitespace(s[k']) ==> k' == k;
    k >= 0 && (s[k] == '{' || s[k] == '(')
  }

  /** `t` starts with the keyword `case` followed by a whitespace byte. */
  ghost predicate StartsCaseClause(t: string) {
    |t| >= 5 && t[..4] == "case" && IsWhitespace(t[4])
  }

  /** `t` starts with `default`, then optional whitespace, then `:`. */
  ghost predicate StartsDefaultClause(t: string) {
    |t| >= 7 && t[..7] == "default" &&
    exists m :: 7 <= m < |t| && t[m] == ':' && forall j :: 7 <= j < m ==> IsWhitespace(t[j])
  }

  /** The last non-whitespace byte of `s` is `:`. */
  ghost predicate EndsWithColon(s: string) {
    exists m :: 0 <= m < |s| && s[m] == ':' && WhitespaceAfter(s, m)
  }

  /** Seen from its first significant byte `k`, line `s` is a label. */
  ghost predicate LabelAt(s: string, k: int)
    requires 0 <= k < |s|
  {
    StartsCaseClause(s[k..]) || StartsDefaultClause(s[k..]) || (k > 0 && EndsWithColon(s))
  }

  /** A `case` or `default` label, or an indented line ending in `:`
      (a label of some other kind). */
  function IsCaseLabel(s: string): (r: bool)
    ensures AllWhitespace(s) ==> !r
    ensures r <==> (exists k :: 0 <= k < |s| && WhitespaceBefore(s, k) && !IsWhitespace(s[k]) && LabelAt(s, k))
  {
    var first := SkipWhitespace(s, 0);
    if first >= |s| then false
    else
      var rest := s[first..];
      CaseLabelFacts(s, first);
      if |rest| >= 5 && rest[..4] == "case" && IsWhitespace(rest[4]) then true
      else if |rest| >= 7 && rest[..7] == "default" && DefaultColon(rest) then true
      else if first > 0 then
        var last := LastNonWhitespace(s, |s| - 1);
        last >= 0 && s[last] == ':'
      else false
  }

  /** After `default`, the scan skips whitespace and accepts a `:`. */
  function DefaultColon(t: string): (r: bool)
    requires |t| >= 7
    ensures r <==> exists m :: 7 <= m < |t| && t[m] == ':' && forall j :: 7 <= j < m ==> IsWhitespace(t[j])
  {
    var m := SkipWhitespace(t, 7);
    m < |t| && t[m] == ':'
  }

  lemma CaseLabelFacts(s: string, first: nat)
    requires first < |s| && WhitespaceBefore(s, first) && !IsWhitespace(s[first])
    ensures forall k :: 0 <= k < |s| && WhitespaceBefore(s, k) && !IsWhitespace(s[k]) ==> k == first
    ensures EndsWithColon(s) <==> (var last := LastNonWhitespace(s, |s| - 1); last >= 0 && s[last] == ':')
  {
    var last := LastNonWhitespace(s, |s| - 1);
    if EndsWithColon(s) {
      var m :| 0 <= m < |s| && s[m] == ':' && WhitespaceAfter(s, m);
      assert m == last;
    }
    if last >= 0 && s[last] == ':' {
      assert WhitespaceAfter(s, last);
    }
  }

  /** The first two bytes after the indentation are `//`. */
  function IsCommentOnly(s: string): (r: bool)
    ensures r <==> exists k :: 0 <= k && k + 1 < |s| && WhitespaceBefore(s, k) && s[k] == '/' && s[k + 1] == '/'
  {
    var k := SkipWhitespace(s, 0);
    assert forall k' :: 0 <= k' < |s| && WhitespaceBefore(s, k') && !IsWhitespace(s[k']) ==> k' == k;
    k < |s| && k + 1 < |s| && s[k] == '/' && s[k + 1] == '/'
  }

  /** A trimmed line is a package clause when it is `package ` followed by
      at least one more byte. */
  predicate IsPackageLine(trimmed: string) {
    |trimmed| > 8 && trimmed[..8] == "package "
  }

  /** A package clause line starts, after its leading spaces, with
      `package ` followed by something other than spaces. */
  ghost predicate PackageClauseAt(line: string, i: int) {
    0 <= i && i + 8 <= |line| && Text.AllSpace(line[..i])
    && line[i..i + 8] == "package " && !Text.AllSpace(line[i + 8..])
  }

  /** Read on a whole line, the package test holds exactly when the line's
      first non-space byte starts `package ` and something other than
      spaces follows it. */
  lemma PackageClause(line: string)
    ensures IsPackageLine(Text.TrimSpace(line)) <==> exists i :: PackageClauseAt(line, i)
  {
    var t := Text.TrimSpace(line);
    var j :| Text.TrimAt(t, line, j);
    if IsPackageLine(t) {
      PackageLineFound(line, t, j);
    }
    if exists i :: PackageClauseAt(line, i) {
      var i :| PackageClauseAt(line, i);
      PackageClauseSeen(line, t, j, i);
    }
  }

  lemma PackageLineFound(line: string, t: string, j: int)
    requires Text.TrimAt(t, line, j) && IsPackageLine(t) && !Text.IsSpace(t[|t| - 1])
    ensures PackageClauseAt(line, j)
  {
    assert line[j..j + 8] == t[..8];
    assert line[j + 8..][|t| - 9] == t[|t| - 1];
  }

  lemma PackageClauseSeen(line: string, t: string, j: int, i: int)
    requires Text.IsTrimOf(t, line) && Text.TrimAt(t, line, j) && PackageClauseAt(line, i)
    ensures IsPackageLine(t)
  {
    assert line[i] == line[i..i + 8][0];
    forall m | 0 <= m < i ensures Text.IsSpace(line[m]) { assert line[..i][m] == line[m]; }
    forall m | 0 <= m < j ensures Text.IsSpace(line[m]) { assert line[..j][m] == line[m]; }
    forall m | j + |t| <= m < |line| ensures Text.IsSpace(line[m]) {
      assert line[j + |t|..][m - j - |t|] == line[m];
    }
    assert t != [] by { assert line[j..j + |t|] == t; }
    assert t[0] == line[j];
    assert i == j;
    var n :| 0 <= n < |line[i + 8..]| && !Text.IsSpace(line[i + 8..][n]);
    assert !Text.IsSpace(line[i + 8 + n]);
    assert t[..8] == line[i..i + 8];
  }

  /** Where the backtick scanner stands: in code, inside a `"…"` string or
      inside a `'…'` literal. */
  datatype Lexical = Code | DoubleQuoted | CharLiteral

  function Backticks(s: string): nat {
    if |s| == 0 then 0 else (if s[0] == '`' then 1 else 0) + Backticks(s[1..])
  }

  predicate HasQuote(s: string) {
    '"' in s || '\'' in s
  }

  /** The scan of `countRawStringDelimiters` from byte `i` on, in context `ctx`. */
  function CountFrom(s: string, i: nat, ctx: Lexical): nat
    requires i <= |s|
    decreases |s| - i
  {
    if i == |s| then 0
    else
      var c := s[i];
      match ctx
      case CharLiteral =>
        if c == '\\' && i + 1 < |s| then CountFrom(s, i + 2, CharLiteral)
        else if c == '\'' then CountFrom(s, i + 1, Code)
        else CountFrom(s, i + 1, CharLiteral)
      case DoubleQuoted =>
        if c == '\\' && i + 1 < |s| then CountFrom(s, i + 2, DoubleQuoted)
        else if c == '"' then CountFrom(s, i + 1, Code)
        else CountFrom(s, i + 1, DoubleQuoted)
      case Code =>
        if c == '\'' then CountFrom(s, i + 1, CharLiteral)
        else if c == '"' then CountFrom(s, i + 1, DoubleQuoted)
        else if c == '`' then 1 + CountFrom(s, i + 1, Code)
        else CountFrom(s, i + 1, Code)
  }

  /** The scan never counts more backticks than there are, and counts all of
      them when no quote character lies ahead. */
  lemma {:induction false} CountFromBound(s: string, i: nat, ctx: Lexical)
    requires i <= |s|
    ensures CountFrom(s, i, ctx) <= Backticks(s[i..])
    ensures ctx == Code && !HasQuote(s[i..]) ==> CountFrom(s, i, ctx) == Backticks(s[i..])
    decreases |s| - i
  {
    if i < |s| {
      assert s[i..] == [s[i]] + s[i + 1..];
      CountFromBound(s, i + 1, Code);
      CountFromBound(s, i + 1, CharLiteral);
      CountFromBound(s, i + 1, DoubleQuoted);
      if i + 1 < |s| {
        assert s[i + 1..] == [s[i + 1]] + s[i + 2..];
        CountFromBound(s, i + 2, CharLiteral);
        CountFromBound(s, i + 2, DoubleQuoted);
      }
    }
  }

  /** Backticks outside quoted literals: never more than the line's backticks,
      and all of them when the line has no quote character. */
  function CountRawStringDelimiters(s: string): (n: nat)
    ensures n <= Backticks(s)
    ensures !HasQuote(s) ==> n == Backticks(s)
  {
    assert s[0..] == s;
    CountFromBound(s, 0, Code);
    CountFrom(s, 0, Code)
  }

  /** The body of a quoted literal closed by quote `q`: every backslash escape
      is complete and no bare `q` occurs. */
  ghost predicate LiteralBody(body: string, q: char)
    decreases |body|
  {
    || |body| == 0
    || (body[0] == '\\' && |body| >= 2 && LiteralBody(body[2..], q))
    || (body[0] != '\\' && body[0] != q && LiteralBody(body[1..], q))
  }

  function QuoteContext(q: char): Lexical
    requires q == '"' || q == '\''
  {
    if q == '"' then DoubleQuoted else CharLiteral
  }

  /** The scan depends only on the bytes still ahead of it. */
  lemma {:induction false} CountFromSuffix(a: string, i: nat, b: string, j: nat, ctx: Lexical)
    requires i <= |a| && j <= |b| && a[i..] == b[j..]
    ensures CountFrom(a, i, ctx) == CountFrom(b, j, ctx)
    decreases |a| - i
  {
    if i < |a| {
      assert a[i] == a[i..][0] && b[j] == b[j..][0];
      assert a[i + 1..] == a[i..][1..] && b[j + 1..] == b[j..][1..];
      if i + 1 < |a| {
        assert a[i + 1] == a[i..][1] && b[j + 1] == b[j..][1];
        assert a[i + 2..] == a[i..][2..] && b[j + 2..] == b[j..][2..];
        CountFromSuffix(a, i + 2, b, j + 2, ctx);
      }
      CountFromSuffix(a, i + 1, b, j + 1, Code);
      CountFromSuffix(a, i + 1, b, j + 1, ctx);
      CountFromSuffix(a, i + 1, b, j + 1, CharLiteral);
      CountFromSuffix(a, i + 1, b, j + 1, DoubleQuoted);
    }
  }

  /** Inside a literal the scan counts nothing and resumes in code right
      after the closing quote. */
  lemma {:induction false} LiteralSkippedFrom(s: string, i: nat, body: string, q: char)
    requires q == '"' || q == '\''
    requires LiteralBody(body, q)
    requires i + |body| < |s| && s[i..i + |body|] == body && s[i + |body|] == q
    ensures CountFrom(s, i, QuoteContext(q)) == CountFrom(s, i + |body| + 1, Code)
    decreases |body|
  {
    if |body| == 0 {
      LiteralClosed(s, i, q);
    } else if body[0] == '\\' {
      var rest := body[2..];
      assert |body| >= 2 && LiteralBody(rest, q);
      assert s[i] == body[0] && s[i + 2..i + 2 + |rest|] == rest;
      LiteralEscape(s, i, q);
      LiteralSkippedFrom(s, i + 2, rest, q);
    } else {
      var rest := body[1..];
      assert LiteralBody(rest, q);
      assert s[i] == body[0] && s[i + 1..i + 1 + |rest|] == rest;
      LiteralByte(s, i, q);
      LiteralSkippedFrom(s, i + 1, rest, q);
    }
  }

  /** The closing quote returns the scan to code. */
  lemma LiteralClosed(s: string, i: nat, q: char)
    requires q == '"' || q == '\''
    requires i < |s| && s[i] == q
    ensures CountFrom(s, i, QuoteContext(q)) == CountFrom(s, i + 1, Code)
  {
  }

  /** An escape inside a literal is skipped as a pair. */
  lemma LiteralEscape(s: string, i: nat, q: char)
    requires q == '"' || q == '\''
    requires i + 1 < |s| && s[i] == '\\'
    ensures CountFrom(s, i, QuoteContext(q)) == CountFrom(s, i + 2, QuoteContext(q))
  {
  }

  /** Any other byte inside a literal is skipped alone. */
  lemma LiteralByte(s: string, i: nat, q: char)
    requires q == '"' || q == '\''
    requires i < |s| && s[i] != '\\' && s[i] != q
    ensures CountFrom(s, i, QuoteContext(q)) == CountFrom(s, i + 1, QuoteContext(q))
  {
  }

  /** Backticks inside a complete `"…"` or `'…'` literal are not delimiters. */
  lemma QuotedBackticksIgnored(body: string, q: char, rest: string)
    requires q == '"' || q == '\''
    requires LiteralBody(body, q)
    ensures CountRawStringDelimiters([q] + body + [q] + rest) == CountRawStringDelimiters(rest)
  {
    var s := [q] + body + [q] + rest;
    assert s[1..1 + |body|] == body;
    assert s[1 + |body|] == q;
    LiteralSkippedFrom(s, 1, body, q);
    assert s[|body| + 2..] == rest[0..];
    CountFromSuffix(s, |body| + 2, rest, 0, Code);
  }

  /** The adapters' raw-string flag after one more line: a line with an odd
      number of delimiters opens or closes a raw string. */
  function ToggleRaw(inside: bool, line: string): bool {
    if CountRawStringDelimiters(line) % 2 == 1 then !inside else inside
  }

  /** The raw-string flag after scanning `lines` from outside any string. */
  function InsideRawAfter(lines: seq<string>): bool {
    if |lines| == 0 then false
    else ToggleRaw(InsideRawAfter(lines[..|lines| - 1]), lines[|lines| - 1])
  }

  /** Scanning one more line toggles the flag by that line's delimiters. */
  lemma InsideRawSnoc(lines: seq<string>, n: nat)
    requires 0 < n <= |lines|
    ensures InsideRawAfter(lines[..n]) == ToggleRaw(InsideRawAfter(lines[..n - 1]), lines[n - 1])
  {
    assert lines[..n][..n - 1] == lines[..n - 1];
  }

  /** How many of `lines` hold an odd number of delimiters. */
  function OddDelimiterLines(lines: seq<string>): nat {
    if |lines| == 0 then 0
    else OddDelimiterLines(lines[..|lines| - 1]) + CountRawStringDelimiters(lines[|lines| - 1]) % 2
  }

  /** After some lines the scan is inside a raw string exactly when an odd
      number of them had an odd delimiter count. */
  lemma {:induction false} RawParity(lines: seq<string>)
    ensures InsideRawAfter(lines) <==> OddDelimiterLines(lines) % 2 == 1
  {
    if |lines| > 0 {
      RawParity(lines[..|lines| - 1]);
    }
  }
}
