/**
 A file's text as a list of lines: `readlines` splits it, `''.join` puts it
 back together. Lines keep their terminating newline.
 */
module Lines {

  /** `''.join(lines)`: no lines join to the empty text, a single line to
      itself; `ConcatAppend` gives the rest. */
  function Concat(lines: seq<string>): (s: string)
    ensures lines == [] ==> s == []
    ensures |lines| == 1 ==> s == lines[0]
  {
    if lines == [] then [] else lines[0] + Concat(lines[1..])
  }

  lemma {:induction false} ConcatAppend(a: seq<string>, b: seq<string>)
    ensures Concat(a + b) == Concat(a) + Concat(b)
  {
    if a == [] {
      assert a + b == b;
    } else {
      assert (a + b)[1..] == a[1..] + b;
      ConcatAppend(a[1..], b);
    }
  }

  lemma ConcatCons(l: string, rest: seq<string>)
    ensures Concat([l] + rest) == l + Concat(rest)
  {
  }

  /** A line: non-empty, with no newline except possibly as its last character. */
  predicate IsLine(l: string)
  {
    l != [] && forall j :: 0 <= j < |l| - 1 ==> l[j] != '\n'
  }

  predicate EndsWithNewline(l: string)
  {
    l != [] && l[|l| - 1] == '\n'
  }

  /** What `readlines` can return: lines, each but the last terminated. */
  predicate WellFormed(lines: seq<string>)
  {
    (forall i :: 0 <= i < |lines| ==> IsLine(lines[i])) &&
    (forall i :: 0 <= i < |lines| - 1 ==> EndsWithNewline(lines[i]))
  }

  /** The length of the first line of `s`, its newline included. */
  function FirstLineLength(s: string): (n: nat)
    requires s != []
    ensures 0 < n <= |s|
    ensures forall j :: 0 <= j < n - 1 ==> s[j] != '\n'
    ensures n == |s| || s[n - 1] == '\n'
  {
    if s[0] == '\n' || |s| == 1 then 1 else 1 + FirstLineLength(s[1..])
  }

  /** `readlines`: cut `s` after every newline; a last line without one is kept. */
  function SplitLines(s: string): (lines: seq<string>)
    ensures lines == [] <==> s == []
    ensures WellFormed(lines)
    decreases |s|
  {
    if s == [] then []
    else
      var n := FirstLineLength(s);
      [s[..n]] + SplitLines(s[n..])
  }

  /** Joining what `readlines` returned gives the text back. */
  lemma {:induction false} SplitLinesConcat(s: string)
    ensures Concat(SplitLines(s)) == s
    decreases |s|
  {
    if s != [] {
      var n := FirstLineLength(s);
      var rest := SplitLines(s[n..]);
      assert SplitLines(s) == [s[..n]] + rest;
      assert ([s[..n]] + rest)[1..] == rest;
      SplitLinesConcat(s[n..]);
      assert s == s[..n] + s[n..];
    }
  }

  /** Reading back a well-formed list of lines gives the same list. */
  lemma {:induction false} ConcatSplitLines(lines: seq<string>)
    requires WellFormed(lines)
    ensures SplitLines(Concat(lines)) == lines
  {
    if lines != [] {
      var s := Concat(lines);
      var l := lines[0];
      assert s == l + Concat(lines[1..]);
      if |lines| > 1 {
        assert EndsWithNewline(l);
      } else {
        assert s == l;
      }
      var n := FirstLineLength(s);
      assert n == |l| by {
        assert forall j :: 0 <= j < |l| ==> s[j] == l[j];
      }
      assert s[..n] == l;
      assert s[n..] == Concat(lines[1..]);
      assert WellFormed(lines[1..]) by {
        forall i | 0 <= i < |lines[1..]| ensures IsLine(lines[1..][i]) {
          assert lines[1..][i] == lines[i + 1];
        }
        forall i | 0 <= i < |lines[1..]| - 1 ensures EndsWithNewline(lines[1..][i]) {
          assert lines[1..][i] == lines[i + 1];
        }
      }
      ConcatSplitLines(lines[1..]);
    }
  }
}
