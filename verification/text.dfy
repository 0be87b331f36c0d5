/** The pieces of Go's `strings` and `bytes` packages the formatter relies on,
    restricted to ASCII text: whitespace trimming, prefix and substring tests,
    and splitting on / joining with the line terminator. */
module Text {

  /** The ASCII bytes `strings.TrimSpace` removes. Unlike the recognisers'
      whitespace set this includes the vertical tab. */
  predicate IsSpace(c: char) {
    c == ' ' || c == '\t' || c == '\n' || c == '\U{000B}' || c == '\U{000C}' || c == '\r'
  }

  ghost predicate AllSpace(s: string) {
    forall k :: 0 <= k < |s| ==> IsSpace(s[k])
  }

  predicate HasPrefix(s: string, prefix: string) {
    |prefix| <= |s| && s[..|prefix|] == prefix
  }

  /** `strings.Contains`: `sub` occurs somewhere in `s`. */
  predicate Contains(s: string, sub: string) {
    HasPrefix(s, sub) || (|s| > 0 && Contains(s[1..], sub))
  }

  /** `t` is the slice `s[i..i + |t|]`, with only spaces outside it. */
  ghost predicate TrimAt(t: string, s: string, i: int) {
    0 <= i <= |s| - |t| && s[i..i + |t|] == t && AllSpace(s[..i]) && AllSpace(s[i + |t|..])
  }

  /** `t` is `s` with its leading and trailing spaces removed: a contiguous
      slice of `s`, only spaces outside it, and no space at either end. */
  ghost predicate IsTrimOf(t: string, s: string) {
    && (exists i :: TrimAt(t, s, i))
    && (t != [] ==> !IsSpace(t[0]) && !IsSpace(t[|t| - 1]))
  }

  /** Number of leading spaces of `s`. */
  function LeadingSpaces(s: string): (n: nat)
    ensures n <= |s|
    ensures AllSpace(s[..n])
    ensures n < |s| ==> !IsSpace(s[n])
  {
    if |s| > 0 && IsSpace(s[0]) then
      var n := 1 + LeadingSpaces(s[1..]);
      assert forall k :: 1 <= k < n ==> s[k] == s[1..][k - 1];
      n
    else 0
  }

  /** Length of `s` without its trailing spaces. */
  function TrimmedEnd(s: string): (n: nat)
    ensures n <= |s|
    ensures AllSpace(s[n..])
    ensures n > 0 ==> !IsSpace(s[n - 1])
  {
    if |s| > 0 && IsSpace(s[|s| - 1]) then
      var n := TrimmedEnd(s[..|s| - 1]);
      assert forall k :: n <= k < |s| - 1 ==> s[k] == s[..|s| - 1][k];
      n
    else |s|
  }

  /** `strings.TrimSpace` on ASCII text. */
  function TrimSpace(s: string): (t: string)
    ensures IsTrimOf(t, s)
    ensures t == [] <==> AllSpace(s)
  {
    var i := LeadingSpaces(s);
    var j := TrimmedEnd(s[i..]);
    TrimSpaceFacts(s, i, j);
    s[i..i + j]
  }

  lemma TrimSpaceFacts(s: string, i: nat, j: nat)
    requires i <= |s| && AllSpace(s[..i]) && (i < |s| ==> !IsSpace(s[i]))
    requires j <= |s| - i && AllSpace(s[i..][j..]) && (j > 0 ==> !IsSpace(s[i..][j - 1]))
    ensures IsTrimOf(s[i..i + j], s)
    ensures s[i..i + j] == [] <==> AllSpace(s)
  {
    var t := s[i..i + j];
    assert s[i + j..] == s[i..][j..];
    assert TrimAt(t, s, i);
    if j == 0 {
      forall k | 0 <= k < |s| ensures IsSpace(s[k]) {
        if k < i { assert s[k] == s[..i][k]; }
      }
    } else {
      assert t[0] == s[i];
      assert t[j - 1] == s[i..][j - 1];
    }
  }

  /** `strings.Join(lines, "\n")`. */
  function Join(lines: seq<string>): string {
    if |lines| == 0 then ""
    else if |lines| == 1 then lines[0]
    else lines[0] + "\n" + Join(lines[1..])
  }

  function NewlineCount(s: string): nat {
    if |s| == 0 then 0 else (if s[0] == '\n' then 1 else 0) + NewlineCount(s[1..])
  }

  /** `strings.Split(s, "\n")`: the pieces between line terminators, so one
      more piece than there are terminators, none holding a terminator, and
      joining them back gives `s`. */
  function Split(s: string): (lines: seq<string>)
    ensures |lines| == NewlineCount(s) + 1
    ensures forall k :: 0 <= k < |lines| ==> '\n' !in lines[k]
    ensures Join(lines) == s
  {
    if |s| == 0 then [""]
    else
      var rest := Split(s[1..]);
      if s[0] == '\n' then
        assert s == "\n" + Join(rest);
        [""] + rest
      else
        var lines := [[s[0]] + rest[0]] + rest[1..];
        JoinConsHead(s[0], rest);
        lines
  }

  lemma JoinConsHead(c: char, rest: seq<string>)
    requires |rest| > 0
    ensures Join([[c] + rest[0]] + rest[1..]) == [c] + Join(rest)
  {
    var lines := [[c] + rest[0]] + rest[1..];
    if |rest| > 1 {
      assert lines[1..] == rest[1..];
      var tail := "\n" + Join(rest[1..]);
      AppendAssoc([c], rest[0], tail);
    }
  }

  /** Splitting undoes joining, whenever no piece holds a line terminator. */
  lemma {:induction false} SplitJoin(lines: seq<string>)
    requires |lines| > 0
    requires forall k :: 0 <= k < |lines| ==> '\n' !in lines[k]
    ensures Split(Join(lines)) == lines
  {
    if |lines| == 1 {
      SplitNoTerminator(lines[0]);
    } else {
      SplitJoin(lines[1..]);
      SplitAppend(lines[0], Join(lines[1..]));
      assert lines == [lines[0]] + lines[1..];
    }
  }

  lemma {:induction false} SplitNoTerminator(s: string)
    requires '\n' !in s
    ensures Split(s) == [s]
  {
    if |s| > 0 {
      assert '\n' !in s[1..];
      SplitNoTerminator(s[1..]);
    }
  }

  lemma {:induction false} SplitAppend(a: string, b: string)
    requires '\n' !in a
    ensures Split(a + "\n" + b) == [a] + Split(b)
  {
    var s := a + "\n" + b;
    if |a| == 0 {
      assert s[1..] == b;
    } else {
      assert s[1..] == a[1..] + "\n" + b;
      assert '\n' !in a[1..];
      SplitAppend(a[1..], b);
      assert [a[0]] + a[1..] == a;
    }
  }

  /** Joining one more line adds a terminator and the line, unless there
      was nothing before it. */
  lemma {:induction false} JoinSnoc(lines: seq<string>, x: string)
    ensures Join(lines + [x]) == if |lines| == 0 then x else Join(lines) + "\n" + x
  {
    if |lines| > 1 {
      assert (lines + [x])[1..] == lines[1..] + [x];
      JoinSnoc(lines[1..], x);
    } else if |lines| == 1 {
      assert lines + [x] == [lines[0], x];
    }
  }

  lemma AppendAssoc<T>(a: seq<T>, b: seq<T>, c: seq<T>)
    ensures (a + b) + c == a + (b + c)
  {
  }

  lemma AppendEmpty<T>(a: seq<T>)
    ensures [] + a == a && a + [] == a
  {
  }
}
