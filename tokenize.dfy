/**
 * The `tokenize` command of the interpreter front end: a single left-to-right
 * pass over the file's contents that prints one line per parenthesis and a
 * closing end-of-file line. Every other character is skipped without output
 * and without an error.
 *
 * The lines written with `console.log` are modelled as a sequence of strings,
 * in the order they are written.
 */
module Tokenize {

  /** The exact lines the scanner prints. */
  const LeftParenLine: string := "LEFT_PAREN ( null"
  const RightParenLine: string := "RIGHT_PAREN ) null"
  /** Kind, an empty lexeme and the null literal: hence the two spaces. */
  const EofLine: string := "EOF  null"

  /** The characters the scanner reacts to. */
  predicate IsParen(c: char) {
    c == '(' || c == ')'
  }

  /** A line that one character of the input can produce. */
  predicate IsParenLine(line: string) {
    line == LeftParenLine || line == RightParenLine
  }

  /** The line printed for a parenthesis character. */
  function LineFor(c: char): (line: string)
    requires IsParen(c)
    ensures IsParenLine(line)
    ensures (c == '(') == (line == LeftParenLine)
    ensures (c == ')') == (line == RightParenLine)
  {
    if c == '(' then LeftParenLine else RightParenLine
  }

  /** What one iteration of the scanning loop prints for the character it reads. */
  function CharLines(c: char): (lines: seq<string>)
    ensures (c == '(') == (lines == [LeftParenLine])
    ensures (c == ')') == (lines == [RightParenLine])
    ensures !IsParen(c) == (lines == [])
  {
    if IsParen(c) then [LineFor(c)] else []
  }

  /** The lines the scanning loop prints over `s`, before the end-of-file line. */
  function ScanLines(s: string): (lines: seq<string>)
    ensures |lines| <= |s|
    ensures forall i :: 0 <= i < |lines| ==> IsParenLine(lines[i])
  {
    if s == [] then [] else CharLines(s[0]) + ScanLines(s[1..])
  }

  /** Everything `tokenize` prints for a file whose contents are `s`. */
  function Tokens(s: string): (lines: seq<string>)
    ensures |lines| >= 1 && lines[|lines| - 1] == EofLine
    ensures forall i :: 0 <= i < |lines| - 1 ==> lines[i] != EofLine
  {
    ScanLines(s) + [EofLine]
  }

  /** The cursor positions, from `k` on, at which `s` holds a parenthesis, in increasing order. */
  function ParenPositionsFrom(s: string, k: nat): seq<nat>
    requires k <= |s|
    decreases |s| - k
  {
    if k == |s| then []
    else (if IsParen(s[k]) then [k] else []) + ParenPositionsFrom(s, k + 1)
  }

  /** The positions of all parentheses of `s`, in increasing order. */
  function ParenPositions(s: string): seq<nat> {
    ParenPositionsFrom(s, 0)
  }

  // ---------------------------------------------------------------------------
  // The scanning loop.

  /**
   * The command body: print one line per parenthesis of `fileContent`, then
   * the end-of-file line; an empty file takes a separate branch that prints
   * only the end-of-file line. `visited` records every cursor position the
   * loop reads a character at.
   */
  method TokenizeFile(fileContent: string) returns (out: seq<string>, ghost visited: seq<nat>)
    ensures out == Tokens(fileContent)
    ensures fileContent == [] ==> out == [EofLine]
    ensures |visited| == |fileContent|
    ensures forall i :: 0 <= i < |visited| ==> visited[i] == i
  {
    out := [];
    visited := [];
    if |fileContent| != 0 {
      var cursor := 0;
      while cursor < |fileContent|
        invariant 0 <= cursor <= |fileContent|
        invariant out == ScanLines(fileContent[..cursor])
        invariant |visited| == cursor
        invariant forall i :: 0 <= i < cursor ==> visited[i] == i
      {
        var c := fileContent[cursor];
        visited := visited + [cursor];
        if c == '(' {
          out := out + [LeftParenLine];
        } else if c == ')' {
          out := out + [RightParenLine];
        }
        ScanLinesAppend(fileContent[..cursor], [c]);
        assert fileContent[..cursor + 1] == fileContent[..cursor] + [c];
        cursor := cursor + 1;
      }
      assert fileContent[..cursor] == fileContent;
      out := out + [EofLine];
    } else {
      out := out + [EofLine];
    }
  }

  // ---------------------------------------------------------------------------
  // Properties of the printed lines.

  /** Scanning is compositional: the lines for `a + b` are those of `a` followed by those of `b`. */
  lemma {:induction false} ScanLinesAppend(a: string, b: string)
    ensures ScanLines(a + b) == ScanLines(a) + ScanLines(b)
  {
    if a == [] {
      assert a + b == b;
    } else {
      assert (a + b)[1..] == a[1..] + b;
      ScanLinesAppend(a[1..], b);
    }
  }

  /** The same, with the end-of-file line: it closes only the whole output. */
  lemma {:induction false} TokensAppend(a: string, b: string)
    ensures Tokens(a + b) == ScanLines(a) + Tokens(b)
  {
    ScanLinesAppend(a, b);
  }

  /** Each `(` yields exactly one left-paren line and each `)` exactly one right-paren line. */
  lemma {:induction false} ParenCounts(s: string)
    ensures multiset(Tokens(s))[LeftParenLine] == multiset(s)['(']
    ensures multiset(Tokens(s))[RightParenLine] == multiset(s)[')']
    ensures multiset(Tokens(s))[EofLine] == 1
  {
    ScanLineCounts(s);
  }

  lemma {:induction false} ScanLineCounts(s: string)
    ensures multiset(ScanLines(s))[LeftParenLine] == multiset(s)['(']
    ensures multiset(ScanLines(s))[RightParenLine] == multiset(s)[')']
    ensures multiset(ScanLines(s))[EofLine] == 0
  {
    if s != [] {
      assert s == [s[0]] + s[1..];
      ScanLineCounts(s[1..]);
    }
  }

  /** The number of lines is the number of parentheses plus one. */
  lemma TokensLength(s: string)
    ensures |Tokens(s)| == multiset(s)['('] + multiset(s)[')'] + 1
  {
    ParenCounts(s);
    var m := multiset(Tokens(s));
    assert forall line :: line in m ==> line == LeftParenLine || line == RightParenLine || line == EofLine;
    MultisetSizeOfThree(Tokens(s), LeftParenLine, RightParenLine, EofLine);
  }

  /** A sequence whose elements are among `x`, `y`, `z` (distinct) has as many elements as their counts add up to. */
  lemma {:induction false} MultisetSizeOfThree(q: seq<string>, x: string, y: string, z: string)
    requires x != y && y != z && x != z
    requires forall i :: 0 <= i < |q| ==> q[i] == x || q[i] == y || q[i] == z
    ensures |q| == multiset(q)[x] + multiset(q)[y] + multiset(q)[z]
  {
    if q != [] {
      assert q == [q[0]] + q[1..];
      MultisetSizeOfThree(q[1..], x, y, z);
    }
  }

  /** A character other than `(` and `)` produces no line; no character is ever rejected. */
  lemma OtherCharacterSkipped(a: string, c: char, b: string)
    requires !IsParen(c)
    ensures Tokens(a + [c] + b) == Tokens(a + b)
  {
    OtherCharacterScansNothing(a, c, b);
  }

  lemma OtherCharacterScansNothing(a: string, c: char, b: string)
    requires !IsParen(c)
    ensures ScanLines(a + [c] + b) == ScanLines(a + b)
  {
    assert [c][1..] == [];
    assert ScanLines([c]) == [] by {
      assert ScanLines([c]) == CharLines(c) + ScanLines([]);
    }
    ScanLinesAppend(a + [c], b);
    ScanLinesAppend(a, [c]);
    assert ScanLines(a + [c]) == ScanLines(a);
    ScanLinesAppend(a, b);
  }

  /** An input without parentheses prints only the end-of-file line. */
  lemma {:induction false} NoParensOnlyEof(s: string)
    requires forall i :: 0 <= i < |s| ==> !IsParen(s[i])
    ensures Tokens(s) == [EofLine]
  {
    if s != [] {
      NoParensOnlyEof(s[1..]);
    }
  }

  /**
   * Order is preserved: the i-th line before end-of-file is the line for the
   * i-th parenthesis of the input, taken by increasing position.
   */
  lemma TokensFollowParenOrder(s: string)
    ensures |Tokens(s)| == |ParenPositions(s)| + 1
    ensures forall i :: 0 <= i < |ParenPositions(s)| ==>
      ParenPositions(s)[i] < |s| && IsParen(s[ParenPositions(s)[i]]) &&
      Tokens(s)[i] == LineFor(s[ParenPositions(s)[i]])
    ensures forall i, j :: 0 <= i < j < |ParenPositions(s)| ==> ParenPositions(s)[i] < ParenPositions(s)[j]
    ensures forall k :: 0 <= k < |s| && IsParen(s[k]) ==> k in ParenPositions(s)
  {
    ScanFollowsPositions(s, 0);
    assert s[0..] == s;
  }

  lemma {:induction false} ScanFollowsPositions(s: string, k: nat)
    requires k <= |s|
    decreases |s| - k
    ensures |ScanLines(s[k..])| == |ParenPositionsFrom(s, k)|
    ensures forall i :: 0 <= i < |ParenPositionsFrom(s, k)| ==>
      k <= ParenPositionsFrom(s, k)[i] < |s| && IsParen(s[ParenPositionsFrom(s, k)[i]]) &&
      ScanLines(s[k..])[i] == LineFor(s[ParenPositionsFrom(s, k)[i]])
    ensures forall i, j :: 0 <= i < j < |ParenPositionsFrom(s, k)| ==>
      ParenPositionsFrom(s, k)[i] < ParenPositionsFrom(s, k)[j]
    ensures forall m :: k <= m < |s| && IsParen(s[m]) ==> m in ParenPositionsFrom(s, k)
  {
    if k < |s| {
      ScanFollowsPositions(s, k + 1);
      assert s[k..][1..] == s[k + 1..];
      assert s[k..][0] == s[k];
    }
  }
}
