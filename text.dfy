/** Character-level helpers for transcript lines: trimming, ASCII lower-casing,
    prefix tests and splitting a text blob into lines. */
module Text {

  /** White space as the segmenter trims it: space, tab, carriage return
      and line feed. */
  predicate IsSpace(c: char) {
    c == ' ' || c == '\t' || c == '\r' || c == '\n'
  }





  /** Drops leading white space. */
  function TrimStart(s: string): string {
    if s != [] && IsSpace(s[0]) then TrimStart(s[1..]) else s
  }

  /** Drops trailing white space. */
  function TrimEnd(s: string): string {
    if s != [] && IsSpace(s[|s| - 1]) then TrimEnd(s[..|s| - 1]) else s
  }

  /** Drops white space at both ends. */
  function Trim(s: string): string {
    TrimEnd(TrimStart(s))
  }

  /** A string that trims to nothing. */
  predicate IsBlank(s: string) {
    Trim(s) == []
  }

  /** `TrimStart` removes exactly the maximal white-space prefix. */
  lemma {:induction false} TrimStartSpec(s: string)
    ensures |TrimStart(s)| <= |s| && TrimStart(s) == s[|s| - |TrimStart(s)|..]
    ensures forall i :: 0 <= i < |s| - |TrimStart(s)| ==> IsSpace(s[i])
    ensures TrimStart(s) == [] || !IsSpace(TrimStart(s)[0])
    decreases |s|
  {
    if s != [] && IsSpace(s[0]) {
      TrimStartSpec(s[1..]);
    }
  }

  /** `TrimEnd` removes exactly the maximal white-space suffix. */
  lemma {:induction false} TrimEndSpec(s: string)
    ensures |TrimEnd(s)| <= |s| && TrimEnd(s) == s[..|TrimEnd(s)|]
    ensures forall i :: |TrimEnd(s)| <= i < |s| ==> IsSpace(s[i])
    ensures TrimEnd(s) == [] || !IsSpace(TrimEnd(s)[|TrimEnd(s)| - 1])
    decreases |s|
  {
    if s != [] && IsSpace(s[|s| - 1]) {
      TrimEndSpec(s[..|s| - 1]);
    }
  }

  /** The result of `Trim` neither starts nor ends with white space. */
  lemma TrimSpec(s: string)
    ensures Trim(s) == [] || (!IsSpace(Trim(s)[0]) && !IsSpace(Trim(s)[|Trim(s)| - 1]))
  {
    var t := TrimStart(s);
    TrimStartSpec(s);
    TrimEndSpec(t);
    if Trim(s) != [] {
      assert Trim(s)[0] == t[0];
    }
  }

  /** Text without white space at either end is its own trim. */
  lemma TrimmedIsFixed(s: string)
    requires s == [] || (!IsSpace(s[0]) && !IsSpace(s[|s| - 1]))
    ensures Trim(s) == s
  {
  }

  /** Blank means made only of white space. */
  lemma BlankIffAllSpace(s: string)
    ensures IsBlank(s) <==> forall i :: 0 <= i < |s| ==> IsSpace(s[i])
  {
    var t := TrimStart(s);
    TrimStartSpec(s);
    TrimEndSpec(t);
    if t != [] {
      assert t[0] == s[|s| - |t|];
    }
  }

  function LowerChar(c: char): char {
    if 'A' <= c <= 'Z' then (c as int + 32) as char else c
  }

  /** ASCII lower-casing, one character at a time. */
  function ToLower(s: string): string {
    if s == [] then [] else [LowerChar(s[0])] + ToLower(s[1..])
  }

  /** Lower-casing maps each character on its own and keeps the length. */
  lemma {:induction false} ToLowerSpec(s: string)
    ensures |ToLower(s)| == |s|
    ensures forall i :: 0 <= i < |s| ==> ToLower(s)[i] == LowerChar(s[i])
    decreases |s|
  {
    if s != [] {
      ToLowerSpec(s[1..]);
    }
  }

  /** `s` begins with `tag` immediately followed by a colon. */
  predicate HasLabel(s: string, tag: string) {
    |s| > |tag| && s[..|tag|] == tag && s[|tag|] == ':'
  }

  /** Glues lines back together with a newline between neighbours. */
  function JoinLines(lines: seq<string>): string {
    if |lines| <= 1 then (if lines == [] then [] else lines[0])
    else lines[0] + "\n" + JoinLines(lines[1..])
  }

  /** Rewrites every line ending to a single `\n`: a `\r\n` pair and a lone
      `\r` both become `\n`. */
  function NormalizeNewlines(s: string): (r: string)
    ensures '\r' !in r
    ensures forall x :: x in r ==> x == '\n' || x in s
    decreases |s|
  {
    if s == [] then []
    else if s[0] == '\r' then
      if |s| >= 2 && s[1] == '\n' then "\n" + NormalizeNewlines(s[2..])
      else "\n" + NormalizeNewlines(s[1..])
    else [s[0]] + NormalizeNewlines(s[1..])
  }

  /** Text without a carriage return leads with itself unchanged. */
  lemma {:induction false} NormalizeKeepsPrefix(a: string, b: string)
    requires '\r' !in a
    ensures NormalizeNewlines(a + b) == a + NormalizeNewlines(b)
    decreases |a|
  {
    if a == [] {
      assert a + b == b;
    } else {
      assert (a + b)[0] == a[0];
      assert (a + b)[1..] == a[1..] + b;
      assert '\r' !in a[1..] by {
        forall i | 0 <= i < |a[1..]| ensures a[1..][i] != '\r' {
          assert a[1..][i] == a[i + 1];
        }
      }
      NormalizeKeepsPrefix(a[1..], b);
      assert [a[0]] + a[1..] == a;
    }
  }

  /** Text without a carriage return is already normalised. */
  lemma NormalizeIdentity(s: string)
    requires '\r' !in s
    ensures NormalizeNewlines(s) == s
  {
    NormalizeKeepsPrefix(s, []);
    assert s + [] == s;
  }

  /** `\r\n`, a lone `\r` (not followed by `\n`) and `\n` all become one
      `\n`. */
  lemma LineEnding(a: string, sep: string, b: string)
    requires '\r' !in a
    requires sep == "\r\n" || sep == "\r" || sep == "\n"
    requires sep == "\r" ==> b == [] || b[0] != '\n'
    ensures NormalizeNewlines(a + sep + b) == a + "\n" + NormalizeNewlines(b)
  {
    NormalizeKeepsPrefix(a, sep + b);
    var t := sep + b;
    if sep == "\r\n" {
      assert t[0] == '\r' && t[1] == '\n' && t[2..] == b;
    } else if sep == "\r" {
      assert t[0] == '\r' && t[1..] == b;
    } else {
      assert t[0] == '\n' && t[1..] == b;
    }
    assert a + sep + b == a + t;
  }

  /** Splits a text blob at every newline. There is always at least one line;
      no line holds a newline, and joining the lines gives the text back. */
  function SplitLines(s: string): (lines: seq<string>)
    ensures |lines| >= 1
    ensures forall i :: 0 <= i < |lines| ==> '\n' !in lines[i]
    ensures JoinLines(lines) == s
  {
    if s == [] then [[]]
    else
      var rest := SplitLines(s[1..]);
      if s[0] == '\n' then
        assert s == "\n" + s[1..];
        [[]] + rest
      else
        var first := [s[0]] + rest[0];
        var lines := [first] + rest[1..];
        assert lines[1..] == rest[1..];
        assert s == [s[0]] + s[1..];
        lines
  }

  /** Joining lines without carriage returns adds none. */
  lemma {:induction false} JoinLinesNoReturn(lines: seq<string>)
    requires forall i :: 0 <= i < |lines| ==> '\r' !in lines[i]
    ensures '\r' !in JoinLines(lines)
    decreases |lines|
  {
    if |lines| > 1 {
      JoinLinesNoReturn(lines[1..]);
    }
  }

  /** Whatever the line ending after the first line, normalising and
      splitting yields that line followed by the lines of the rest. */
  lemma SplitAtLineEnding(a: string, sep: string, b: string)
    requires '\r' !in a && '\n' !in a
    requires sep == "\r\n" || sep == "\r" || sep == "\n"
    requires sep == "\r" ==> b == [] || b[0] != '\n'
    ensures SplitLines(NormalizeNewlines(a + sep + b)) == [a] + SplitLines(NormalizeNewlines(b))
  {
    LineEnding(a, sep, b);
    SplitAtNewline(a, NormalizeNewlines(b));
  }

  /** Every character of every line comes from the text split. */
  lemma {:induction false} SplitLinesChars(s: string)
    ensures forall i, x :: 0 <= i < |SplitLines(s)| && x in SplitLines(s)[i] ==> x in s
    decreases |s|
  {
    if s != [] {
      SplitLinesChars(s[1..]);
      assert forall x :: x in s[1..] ==> x in s;
    }
  }

  /** A line without a newline splits to itself. */
  lemma {:induction false} SplitOneLine(s: string)
    requires '\n' !in s
    ensures SplitLines(s) == [s]
    decreases |s|
  {
    if s != [] {
      assert s[0] != '\n';
      assert '\n' !in s[1..] by {
        forall i | 0 <= i < |s[1..]| ensures s[1..][i] != '\n' {
          assert s[1..][i] == s[i + 1];
        }
      }
      SplitOneLine(s[1..]);
      assert [s[0]] + s[1..] == s;
    }
  }

  /** Splitting at the first newline: the text before it is the first line. */
  lemma {:induction false} SplitAtNewline(a: string, b: string)
    requires '\n' !in a
    ensures SplitLines(a + "\n" + b) == [a] + SplitLines(b)
    decreases |a|
  {
    var s := a + "\n" + b;
    if a == [] {
      assert s == "\n" + b;
      assert s[1..] == b;
    } else {
      assert s[0] == a[0] && a[0] != '\n';
      assert s[1..] == a[1..] + "\n" + b;
      assert '\n' !in a[1..] by {
        forall i | 0 <= i < |a[1..]| ensures a[1..][i] != '\n' {
          assert a[1..][i] == a[i + 1];
        }
      }
      SplitAtNewline(a[1..], b);
      assert [a[0]] + a[1..] == a;
    }
  }

  /** Lines without newlines survive being joined and split again. */
  lemma {:induction false} SplitJoinLines(lines: seq<string>)
    requires |lines| >= 1
    requires forall i :: 0 <= i < |lines| ==> '\n' !in lines[i]
    ensures SplitLines(JoinLines(lines)) == lines
    decreases |lines|
  {
    if |lines| == 1 {
      SplitOneLine(lines[0]);
    } else {
      SplitAtNewline(lines[0], JoinLines(lines[1..]));
      SplitJoinLines(lines[1..]);
    }
  }
}
