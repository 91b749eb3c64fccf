/** How Python cuts text into lines and trims it, as the day-file drivers use it. */
module Lines {
  import opened Seqs

  /** The characters at which `str.splitlines` ends a line. */
  predicate IsBoundary(c: char) {
    '\n' <= c <= '\r' || '\U{1C}' <= c <= '\U{1E}' || c == '\U{85}' || c == '\U{2028}' || c == '\U{2029}'
  }

  /** The characters that `str.strip` and `str.rstrip` remove. */
  predicate IsSpace(c: char) {
    || '\t' <= c <= '\r' || '\U{1C}' <= c <= ' ' || c == '\U{85}' || c == '\U{A0}' || c == '\U{1680}'
    || '\U{2000}' <= c <= '\U{200A}' || c == '\U{2028}' || c == '\U{2029}' || c == '\U{202F}'
    || c == '\U{205F}' || c == '\U{3000}'
  }

  predicate NoBoundary(s: string) {
    forall i | 0 <= i < |s| :: !IsBoundary(s[i])
  }

  /** Whole lines only: nothing, or text whose last character is a newline. */
  predicate WholeLines(s: string) {
    s == "" || s[|s| - 1] == '\n'
  }

  predicate Bracketed(line: string) {
    line != "" && line[0] == '['
  }

  /** Length of the first line, that is, the index of the first boundary. */
  function LineEnd(s: string): (k: nat)
    ensures k <= |s| && NoBoundary(s[..k])
    ensures k < |s| ==> IsBoundary(s[k])
  {
    if s == "" || IsBoundary(s[0]) then 0 else
      var k := LineEnd(s[1..]) + 1;
      assert s[..k] == [s[0]] + s[1..][..k - 1];
      k
  }

  /** "\r\n" ends one line, not two. */
  function BreakLength(s: string, k: nat): (n: nat)
    requires k < |s|
    ensures 1 <= n && k + n <= |s|
  {
    if s[k] == '\r' && k + 1 < |s| && s[k + 1] == '\n' then 2 else 1
  }

  function SplitLines(s: string): seq<string> {
    if s == "" then [] else
      var k := LineEnd(s);
      if k == |s| then [s] else [s[..k]] + SplitLines(s[k + BreakLength(s, k)..])
  }

  function RStrip(s: string): string {
    if s == "" || !IsSpace(s[|s| - 1]) then s else RStrip(s[..|s| - 1])
  }

  lemma {:induction false} RStripped(s: string)
    ensures RStrip(s) <= s && (RStrip(s) == "" || !IsSpace(RStrip(s)[|RStrip(s)| - 1]))
    ensures forall i | |RStrip(s)| <= i < |s| :: IsSpace(s[i])
  {
    if s != "" && IsSpace(s[|s| - 1]) {
      RStripped(s[..|s| - 1]);
    }
  }

  function LStrip(s: string): string {
    if s == "" || !IsSpace(s[0]) then s else LStrip(s[1..])
  }

  lemma {:induction false} LStripped(s: string)
    ensures |LStrip(s)| <= |s| && LStrip(s) == s[|s| - |LStrip(s)|..] && (LStrip(s) == "" || !IsSpace(LStrip(s)[0]))
  {
    if s != "" && IsSpace(s[0]) {
      LStripped(s[1..]);
    }
  }

  function Strip(s: string): string {
    RStrip(LStrip(s))
  }

  function NonEmpty(lines: seq<string>): seq<string> {
    if lines == [] then [] else (if lines[0] == "" then [] else [lines[0]]) + NonEmpty(lines[1..])
  }

  lemma {:induction false} NonEmptyAppend(a: seq<string>, b: seq<string>)
    ensures NonEmpty(a + b) == NonEmpty(a) + NonEmpty(b)
  {
    if a == [] {
      assert a + b == b;
    } else {
      assert (a + b)[1..] == a[1..] + b;
      NonEmptyAppend(a[1..], b);
    }
  }

  lemma {:induction false} LineEndIs(s: string, k: nat)
    requires k <= |s| && NoBoundary(s[..k]) && (k < |s| ==> IsBoundary(s[k]))
    ensures LineEnd(s) == k
  {
    if k > 0 {
      assert s[0] == s[..k][0];
      assert s[1..][..k - 1] == s[..k][1..];
      LineEndIs(s[1..], k - 1);
    }
  }

  /** The first line ends inside `a`, and where it ends does not depend on what follows `a`. */
  lemma {:induction false} LineEndAppend(a: string, b: string)
    requires WholeLines(a) && a != ""
    ensures LineEnd(a) < |a| && LineEnd(a + b) == LineEnd(a)
    ensures BreakLength(a + b, LineEnd(a)) == BreakLength(a, LineEnd(a))
  {
    if !IsBoundary(a[0]) {
      assert (a + b)[1..] == a[1..] + b;
      LineEndAppend(a[1..], b);
    }
  }

  lemma SplitFirst(s: string, k: nat)
    requires k == LineEnd(s) < |s|
    ensures SplitLines(s) == [s[..k]] + SplitLines(s[k + BreakLength(s, k)..])
  {
  }

  /** Whatever follows a newline cannot change how the text before it is cut. */
  lemma {:induction false} SplitAppend(a: string, b: string)
    requires WholeLines(a)
    ensures SplitLines(a + b) == SplitLines(a) + SplitLines(b)
    decreases |a|
  {
    if a == "" {
      assert a + b == b;
    } else {
      LineEndAppend(a, b);
      var k := LineEnd(a);
      var rest := a[k + BreakLength(a, k)..];
      SplitAppend(rest, b);
      SplitFirst(a, k);
      SplitFirst(a + b, k);
      Slices(a, b, k);
      Slices(a, b, k + BreakLength(a, k));
      Associate([a[..k]], SplitLines(rest), SplitLines(b));
    }
  }

  /** A text without boundaries is a single line. */
  lemma SplitSingle(s: string)
    requires NoBoundary(s) && s != ""
    ensures SplitLines(s) == [s]
  {
    assert s[..|s|] == s;
    LineEndIs(s, |s|);
  }

  lemma SplitOneLine(s: string)
    requires NoBoundary(s)
    ensures SplitLines(s + "\n") == [s]
  {
    var t := s + "\n";
    assert t[..|s|] == s;
    LineEndIs(t, |s|);
    assert t[|s| + BreakLength(t, |s|)..] == "";
  }

  /** No line that comes out of the cut holds a boundary, and only the last one may be partial. */
  lemma {:induction false} SplitHasNoBoundary(s: string)
    ensures forall i | 0 <= i < |SplitLines(s)| :: NoBoundary(SplitLines(s)[i])
    decreases |s|
  {
    if s != "" {
      var k := LineEnd(s);
      if k == |s| {
        assert s[..k] == s;
      } else {
        SplitHasNoBoundary(s[k + BreakLength(s, k)..]);
      }
    }
  }

  lemma RStripFixed(s: string)
    requires s == "" || !IsSpace(s[|s| - 1])
    ensures RStrip(s) == s
  {
  }

  lemma StripIsFixed(s: string)
    requires s == "" || (!IsSpace(s[0]) && !IsSpace(s[|s| - 1]))
    ensures Strip(s) == s
  {
    assert LStrip(s) == s;
    RStripFixed(s);
  }

  lemma StripEnds(s: string)
    ensures var t := Strip(s); t == "" || (!IsSpace(t[0]) && !IsSpace(t[|t| - 1]))
  {
    LStripped(s);
    RStripped(LStrip(s));
  }

  lemma StripTwice(s: string)
    ensures Strip(Strip(s)) == Strip(s)
  {
    StripEnds(s);
    StripIsFixed(Strip(s));
  }

  /** Lower case, for ASCII. */
  function LowerChar(c: char): char {
    if 'A' <= c <= 'Z' then c - 'A' + 'a' else c
  }

  function Lower(s: string): (r: string)
    ensures |r| == |s| && forall i | 0 <= i < |s| :: r[i] == LowerChar(s[i])
  {
    seq(|s|, i requires 0 <= i < |s| => LowerChar(s[i]))
  }

  // ----- what `splitlines` is ---------------------------------------------------------------

  /** A line break in front of `rest`: "\r\n", or one boundary that is not the first half of that. */
  predicate IsBreak(brk: string, rest: string) {
    brk == "\r\n" || (|brk| == 1 && IsBoundary(brk[0]) && !(brk == "\r" && rest != "" && rest[0] == '\n'))
  }

  /** The text is made of these lines, each but perhaps the last followed by its break, and no line holds a boundary. */
  predicate IsCut(s: string, lines: seq<string>, breaks: seq<string>) {
    if lines == [] then s == "" && breaks == []
    else
      && NoBoundary(lines[0])
      && if breaks == [] then s == lines[0] != "" && |lines| == 1
         else
           && |lines[0]| + |breaks[0]| <= |s|
           && var rest := s[|lines[0]| + |breaks[0]|..];
              s == lines[0] + breaks[0] + rest && IsBreak(breaks[0], rest) && IsCut(rest, lines[1..], breaks[1..])
  }

  lemma CutCons(line: string, brk: string, rest: string, lines: seq<string>, breaks: seq<string>)
    requires NoBoundary(line) && IsBreak(brk, rest) && IsCut(rest, lines, breaks)
    ensures IsCut(line + brk + rest, [line] + lines, [brk] + breaks)
  {
    var s := line + brk + rest;
    assert s[|line| + |brk|..] == rest && ([line] + lines)[1..] == lines && ([brk] + breaks)[1..] == breaks;
    hide NoBoundary, IsBreak;
  }

  lemma CutLast(line: string)
    requires NoBoundary(line) && line != ""
    ensures IsCut(line, [line], [])
  {
    hide NoBoundary;
  }

  lemma NothingToCut()
    ensures IsCut("", SplitLines(""), [])
  {
  }

  lemma SplitCons(line: string, brk: string, rest: string)
    requires NoBoundary(line) && IsBreak(brk, rest)
    ensures SplitLines(line + brk + rest) == [line] + SplitLines(rest)
  {
    var s, k := line + brk + rest, |line|;
    assert s[..k] == line && s[k] == brk[0];
    assert |brk| == 2 ==> s[k + 1] == '\n';
    assert |brk| == 1 && rest != "" ==> s[k + 1] == rest[0];
    LineEndIs(s, k);
    assert BreakLength(s, k) == |brk|;
    assert s[k + |brk|..] == rest;
    hide NoBoundary;
    SplitFirst(s, k);
  }

  /** The first line, its break, and the rest. */
  lemma BreakAt(s: string)
    requires LineEnd(s) < |s|
    ensures var k := LineEnd(s);
            var n := BreakLength(s, k);
            && IsBreak(s[k..k + n], s[k + n..]) && NoBoundary(s[..k]) && s == s[..k] + s[k..k + n] + s[k + n..]
  {
    BreakIs(s, LineEnd(s));
    Parts(s, LineEnd(s), LineEnd(s) + BreakLength(s, LineEnd(s)));
    hide *;
  }

  lemma BreakIs(s: string, k: nat)
    requires k < |s| && IsBoundary(s[k])
    ensures var n := BreakLength(s, k); IsBreak(s[k..k + n], s[k + n..])
  {
    hide IsBoundary;
    if BreakLength(s, k) == 2 {
      assert s[k..k + 2] == ['\r', '\n'];
    } else {
      assert s[k..k + 1] == [s[k]];
    }
  }

  lemma {:induction false} SplitIsCut(s: string) returns (breaks: seq<string>)
    ensures IsCut(s, SplitLines(s), breaks)
    decreases |s|
  {
    hide *;
    var k := LineEnd(s);
    if s == "" {
      breaks := [];
      NothingToCut();
    } else if k == |s| {
      breaks := [];
      assert s[..k] == s;
      CutLast(s);
      SplitSingle(s);
    } else {
      var n := BreakLength(s, k);
      BreakAt(s);
      SplitCons(s[..k], s[k..k + n], s[k + n..]);
      breaks := SplitIsCut(s[k + n..]);
      CutCons(s[..k], s[k..k + n], s[k + n..], SplitLines(s[k + n..]), breaks);
      breaks := [s[k..k + n]] + breaks;
    }
  }

  lemma {:induction false} CutIsSplit(s: string, lines: seq<string>, breaks: seq<string>)
    requires IsCut(s, lines, breaks)
    ensures lines == SplitLines(s)
    decreases |lines|
  {
    if lines == [] {
    } else if breaks == [] {
      SplitSingle(s);
    } else {
      var rest := s[|lines[0]| + |breaks[0]|..];
      assert lines == [lines[0]] + lines[1..];
      hide SplitLines, NoBoundary, IsBreak;
      CutIsSplit(rest, lines[1..], breaks[1..]);
      SplitCons(lines[0], breaks[0], rest);
    }
  }

  /** The lines of a text are the ones it can be cut into at its breaks, and there is only one way to do so. */
  lemma SplitIffCut(s: string, lines: seq<string>)
    ensures lines == SplitLines(s) <==> exists breaks :: IsCut(s, lines, breaks)
  {
    if lines == SplitLines(s) {
      var breaks := SplitIsCut(s);
      assert IsCut(s, lines, breaks);
    }
    if breaks :| IsCut(s, lines, breaks) {
      CutIsSplit(s, lines, breaks);
    }
    hide SplitLines, IsCut;
  }
}
