/** How inbound iMessages are written into the day-file: newlines are flattened, other line boundaries are not. */
module FlatLog {
  import opened Lines
  import opened Seqs
  import opened OutboundLines
  import opened InboundLog
  import W = WriteImessage

  /** The iMessage writer flattens newlines and writes one line. */
  function LoggedFlat(prefix: string, text: string): string {
    prefix + RStrip(W.Flatten(W.Replace(text, "\r\n", "\n"))) + "\n"
  }

  /** The text with "\r\n" read as a newline. */
  function Unix(text: string): string {
    W.Replace(text, "\r\n", "\n")
  }

  // ----- which texts are harmless -------------------------------------------------------------

  /** A line boundary that the flattening leaves alone. */
  predicate Hard(c: char) {
    IsBoundary(c) && c != '\n'
  }

  function FirstHard(s: string): (k: nat)
    ensures k <= |s|
  {
    if s == "" || Hard(s[0]) then 0 else FirstHard(s[1..]) + 1
  }

  lemma {:induction false} FirstHardIs(s: string)
    ensures var k := FirstHard(s); (k < |s| ==> Hard(s[k])) && forall i | 0 <= i < k :: !Hard(s[i])
  {
    if s != "" && !Hard(s[0]) {
      FirstHardIs(s[1..]);
    }
  }

  /** The text up to the first hard boundary, and the text behind it. */
  function Piece(s: string): string {
    s[..FirstHard(s)]
  }

  function Rest(s: string): (r: string)
    requires FirstHard(s) < |s|
    ensures |r| < |s|
  {
    s[FirstHard(s) + 1..]
  }

  /** A stretch of text that is no request: it is bracketed, or blank and without newlines. */
  predicate QuietPiece(piece: string) {
    Bracketed(piece) || forall c | c in piece :: IsSpace(c) && c != '\n'
  }

  /** Behind each hard boundary, the text up to the next one is no request. */
  predicate QuietBehind(s: string)
    decreases |s|
  {
    FirstHard(s) == |s| || (QuietPiece(Piece(Rest(s))) && QuietBehind(Rest(s)))
  }

  // ----- flattening ---------------------------------------------------------------------------

  lemma {:induction false} FlattenAppend(a: string, b: string)
    ensures W.Flatten(a + b) == W.Flatten(a) + W.Flatten(b)
  {
    if a == "" {
      assert a + b == b;
    } else {
      assert (a + b)[1..] == a[1..] + b;
      W.FlattenStep(a);
      W.FlattenStep(a + b);
      FlattenAppend(a[1..], b);
    }
  }

  /** The boundaries that come out of the flattening are the hard ones that went in. */
  lemma FlatBoundaries(s: string)
    ensures '\n' !in W.Flatten(s)
    ensures forall c | c in W.Flatten(s) && IsBoundary(c) :: c in s && Hard(c)
    ensures (forall i | 0 <= i < |s| :: !Hard(s[i])) ==> NoBoundary(W.Flatten(s))
  {
    W.ReplaceRemoves(s, '\n', W.MARKED);
    forall c | c in W.Flatten(s) && IsBoundary(c) ensures c in s && Hard(c) {
      W.ReplaceOrigin(s, "\n", W.MARKED, c);
    }
    assert forall i | 0 <= i < |W.Flatten(s)| :: W.Flatten(s)[i] in W.Flatten(s);
  }

  lemma {:induction false} FlatMarks(s: string)
    requires '\n' in s
    ensures W.MARK in W.Flatten(s)
  {
    W.FlattenStep(s);
    if s[0] == '\n' {
      assert W.MARKED[1] == W.MARK;
    } else {
      FlatMarks(s[1..]);
    }
  }

  lemma BlankIsStripped(s: string)
    ensures RStrip(s) == "" <==> forall c | c in s :: IsSpace(c)
  {
    RStripped(s);
    var r := RStrip(s);
    if r != "" {
      assert r[|r| - 1] == s[|r| - 1];
      assert r[|r| - 1] in s;
    }
    hide IsSpace;
  }

  /** A stretch without hard boundaries is flattened into a line, which is a request unless the stretch is quiet. */
  lemma FlatPiece(piece: string)
    requires forall i | 0 <= i < |piece| :: !Hard(piece[i])
    ensures IsSend(W.Flatten(piece)) <==> !QuietPiece(piece)
  {
    var flat := W.Flatten(piece);
    BlankIsStripped(flat);
    if piece != "" {
      W.FlattenStep(piece);
    }
    if '\n' in piece {
      FlatMarks(piece);
      assert !IsSpace(W.MARK);
    } else {
      W.ReplaceAbsent(piece, '\n', W.MARKED);
    }
    hide RStrip, IsSpace, Hard;
  }

  // ----- what is cut out of the log again -------------------------------------------------------

  lemma CutFirst(s: string, k: nat, n: nat)
    requires k == LineEnd(s) < |s| && n == BreakLength(s, k)
    ensures Requests(s) == Bare([s[..k]]) + Requests(s[k + n..])
  {
    hide *;
    SplitFirst(s, k);
    RequestsCut(s, s[..k], s[k + n..]);
  }

  lemma RequestsCut(s: string, line: string, rest: string)
    requires SplitLines(s) == [line] + SplitLines(rest)
    ensures Requests(s) == Bare([line]) + Requests(rest)
  {
    hide SplitLines, NonEmpty, Bare;
    NonEmptyAppend([line], SplitLines(rest));
    BareAppend(NonEmpty([line]), NonEmpty(SplitLines(rest)));
    DropEmpty(line);
  }

  lemma DropEmpty(line: string)
    ensures Bare(NonEmpty([line])) == Bare([line])
  {
    assert RStrip("") == "";
    assert NonEmpty([line]) == if line == "" then [] else [line];
  }

  lemma NoRequests()
    ensures Requests("") == [] && Requests("\n") == []
  {
    SingleRequest("");
    assert "" + "\n" == "\n";
  }

  lemma BareOne(a: string, b: string)
    requires IsSend(a) == IsSend(b) && (IsSend(a) ==> RStrip(a) == RStrip(b))
    ensures Bare([a]) == Bare([b])
  {
    hide IsSend, RStrip;
  }

  lemma BlankTail(a: string, c: char)
    requires IsSpace(c)
    ensures RStrip(a + [c]) == RStrip(a) && IsSend(a + [c]) == IsSend(a)
  {
    assert (a + [c])[..|a|] == a;
    hide IsSpace;
    if a != "" {
      assert (a + [c])[0] == a[0];
    } else {
      assert RStrip("") == "";
    }
  }

  /** Blanks at the end of a text make no difference to the requests in it. */
  lemma {:induction false} TrimOne(a: string, c: char)
    requires IsSpace(c) && c != '\n'
    ensures Requests(a + [c] + "\n") == Requests(a + "\n")
    decreases |a|
  {
    hide *;
    var k := LineEnd(a);
    if k == |a| {
      Whole(a);
      TrimLine(a, c);
    } else if k + 1 == |a| && a[k] == '\r' {
      TrimReturn(a[..k], c);
      assert a == a[..k] + "\r";
    } else {
      var n := BreakLength(a, k);
      CutInside(a, [c] + "\n", k, n);
      CutInside(a, "\n", k, n);
      TrimOne(a[k + n..], c);
      Associate(a, [c], "\n");
      Associate(a[k + n..], [c], "\n");
    }
  }

  lemma TrimReturn(a: string, c: char)
    requires NoBoundary(a) && IsSpace(c) && c != '\n'
    ensures Requests(a + "\r" + [c] + "\n") == Requests(a + "\r" + "\n")
  {
    assert NoBoundary("");
    hide *;
    CutReturn(a, c, "\n");
    CutReturn(a, '\n', "");
    Associate(a + "\r", [c], "\n");
    assert ['\n'] + "" == "\n" && "" + [c] + "\n" == [c] + "\n" && "" + "\n" == "\n";
    TrimLine("", c);
    NoRequests();
  }

  /** A line break inside `a` is cut the same way whatever follows `a`. */
  lemma CutInside(a: string, b: string, k: nat, n: nat)
    requires k == LineEnd(a) < |a| && n == BreakLength(a, k) && !(k + 1 == |a| && a[k] == '\r')
    ensures Requests(a + b) == Bare([a[..k]]) + Requests(a[k + n..] + b)
  {
    BreakInside(a, b, k);
    LineEndBoth(a, b, k);
    hide *;
    Slices(a, b, k);
    Slices(a, b, k + n);
    CutFirst(a + b, k, n);
  }

  lemma LineEndBoth(a: string, b: string, k: nat)
    requires k == LineEnd(a) < |a|
    ensures LineEnd(a + b) == k < |a + b|
  {
    assert (a + b)[..k] == a[..k] && (a + b)[k] == a[k];
    hide LineEnd, NoBoundary, IsBoundary;
    LineEndIs(a + b, k);
  }

  lemma BreakInside(a: string, b: string, k: nat)
    requires k < |a| && !(k + 1 == |a| && a[k] == '\r')
    ensures BreakLength(a + b, k) == BreakLength(a, k)
  {
  }

  /** A carriage return at the end of `a` takes a newline behind it along. */
  lemma CutReturn(a: string, c: char, rest: string)
    requires NoBoundary(a)
    ensures Requests(a + "\r" + ([c] + rest)) == Bare([a]) + Requests(if c == '\n' then rest else [c] + rest)
  {
    hide Requests, Bare, LineEnd, NoBoundary;
    var s := a + "\r" + ([c] + rest);
    assert s[..|a|] == a && s[|a|] == '\r' && s[|a| + 1] == c;
    assert s[|a| + 1..] == [c] + rest && s[|a| + 2..] == rest;
    LineEndIs(s, |a|);
    CutFirst(s, |a|, BreakLength(s, |a|));
  }

  /** The case of a single line. */
  lemma TrimLine(a: string, c: char)
    requires IsSpace(c) && c != '\n' && NoBoundary(a)
    ensures Requests(a + [c] + "\n") == Requests(a + "\n")
  {
    SingleRequest(a);
    if IsBoundary(c) {
      hide *;
      TrimBoundary(a, c);
    } else {
      assert NoBoundary(a + [c]);
      hide *;
      BlankTail(a, c);
      BareOne(a + [c], a);
      SingleRequest(a + [c]);
    }
  }

  lemma TrimBoundary(a: string, c: char)
    requires NoBoundary(a) && IsBoundary(c)
    ensures Requests(a + [c] + "\n") == Bare([a])
  {
    hide Requests, Bare, LineEnd;
    NoRequests();
    var s := a + [c] + "\n";
    assert s[..|a|] == a;
    LineEndIs(s, |a|);
    CutFirst(s, |a|, BreakLength(s, |a|));
    assert s[|a| + 1..] == "\n" && s[|a| + 2..] == "";
  }

  lemma {:induction false} TrimTail(p: string, x: string)
    requires '\n' !in x
    ensures Requests(p + RStrip(x) + "\n") == Requests(p + x + "\n")
  {
    if x != "" && IsSpace(x[|x| - 1]) {
      var front := x[..|x| - 1];
      assert x == front + [x[|x| - 1]] && forall c | c in front :: c in x;
      TrimTail(p, front);
      TrimOne(p + front, x[|x| - 1]);
      Associate(p, front, [x[|x| - 1]]);
      hide Requests, IsSpace;
    }
  }

  /** What the rest of a text is read back as, behind a hard boundary. */
  lemma {:induction false} Pieces(r: string)
    ensures Requests(W.Flatten(r) + "\n") == [] <==> QuietPiece(Piece(r)) && QuietBehind(r)
    decreases |r|
  {
    PieceIs(r);
    var piece := Piece(r);
    FlatPiece(piece);
    FlatBoundaries(piece);
    QuietBehindIs(r);
    hide *;
    var f := W.Flatten(piece);
    BareIfSend(f);
    if FirstHard(r) == |r| {
      SingleRequest(f);
    } else {
      var c := r[FirstHard(r)];
      HardCut(f, c, W.Flatten(Rest(r)));
      Pieces(Rest(r));
    }
  }

  /** A text is its first piece, then possibly a hard boundary and more. */
  lemma PieceIs(r: string)
    ensures forall i | 0 <= i < |Piece(r)| :: !Hard(Piece(r)[i])
    ensures var k := FirstHard(r);
            if k == |r| then Piece(r) == r
            else Hard(r[k]) && W.Flatten(r) == W.Flatten(Piece(r)) + ([r[k]] + W.Flatten(Rest(r)))
                 && '\n' !in W.Flatten(Rest(r))
  {
    var k := FirstHard(r);
    FirstHardIs(r);
    if k == |r| {
      Whole(r);
    } else {
      BehindHard(r, k);
    }
    hide W.Flatten, Hard;
  }

  lemma BareIfSend(f: string)
    ensures Bare([f]) == [] <==> !IsSend(f)
  {
  }

  /** Flattening keeps the hard boundaries where they are. */
  lemma BehindHard(r: string, k: nat)
    requires k < |r| && Hard(r[k])
    ensures W.Flatten(r) == W.Flatten(r[..k]) + ([r[k]] + W.Flatten(r[k + 1..]))
    ensures '\n' !in W.Flatten(r[k + 1..])
  {
    assert r == r[..k] + ([r[k]] + r[k + 1..]);
    FlattenAppend(r[..k], [r[k]] + r[k + 1..]);
    FlattenAppend([r[k]], r[k + 1..]);
    W.ReplaceAbsent([r[k]], '\n', W.MARKED);
    FlatBoundaries(r[k + 1..]);
  }

  /** A line, a hard boundary, and more text without newlines. */
  lemma HardCut(f: string, c: char, tail: string)
    requires NoBoundary(f) && Hard(c) && '\n' !in tail
    ensures Requests(f + ([c] + tail) + "\n") == Bare([f]) + Requests(tail + "\n")
  {
    hide Requests, Bare, LineEnd, NoBoundary;
    var s := f + ([c] + tail) + "\n";
    NoRequests();
    assert s[..|f|] == f && s[|f|] == c;
    assert s[|f| + 1..] == tail + "\n";
    LineEndIs(s, |f|);
    CutFirst(s, |f|, BreakLength(s, |f|));
    if tail == "" {
      assert s[|f| + 2..] == "" && tail + "\n" == "\n";
    } else {
      assert s[|f| + 1] == tail[0];
    }
  }

  /** The iMessage writer is safe exactly for the texts in which nothing behind a boundary other than a newline is a
      request. */
  lemma FlatLogIsQuiet(hm: string, sender: string, text: string)
    requires NoBoundary(hm) && NoBoundary(sender)
    ensures Requests(LoggedFlat(Prefix(hm, sender), text)) == [] <==> QuietBehind(Unix(text))
  {
    var t := Unix(text);
    var flat := W.Flatten(t);
    FlatBoundaries(t);
    StampIs(hm, sender);
    hide *;
    LoggedIs(Prefix(hm, sender), text);
    TrimTail(Prefix(hm, sender), flat);
    StampedText(Prefix(hm, sender), flat);
    AfterFirstPiece(t);
  }

  lemma StampIs(hm: string, sender: string)
    requires NoBoundary(hm) && NoBoundary(sender)
    ensures NoBoundary(Prefix(hm, sender)) && Bracketed(Prefix(hm, sender))
  {
  }

  lemma LoggedIs(prefix: string, text: string)
    ensures LoggedFlat(prefix, text) == prefix + RStrip(W.Flatten(Unix(text))) + "\n"
  {
  }

  lemma AfterFirstPiece(t: string)
    ensures Requests(AfterFirstLine(W.Flatten(t))) == [] <==> QuietBehind(t)
  {
    PieceIs(t);
    FlatBoundaries(Piece(t));
    QuietBehindIs(t);
    hide *;
    NoRequests();
    if FirstHard(t) == |t| {
      AfterOneLine(W.Flatten(t));
    } else {
      AfterHard(W.Flatten(Piece(t)), t[FirstHard(t)], W.Flatten(Rest(t)));
      Pieces(Rest(t));
    }
  }

  lemma QuietBehindIs(t: string)
    ensures QuietBehind(t) <==> FirstHard(t) == |t| || (QuietPiece(Piece(Rest(t))) && QuietBehind(Rest(t)))
  {
  }

  lemma AfterOneLine(s: string)
    requires NoBoundary(s)
    ensures AfterFirstLine(s) == ""
  {
    Whole(s);
    LineEndIs(s, |s|);
  }

  lemma AfterHard(f: string, c: char, tail: string)
    requires NoBoundary(f) && Hard(c) && '\n' !in tail
    ensures AfterFirstLine(f + ([c] + tail)) == tail + "\n"
  {
    hide LineEnd;
    var s := f + ([c] + tail);
    assert s[..|f|] == f && s[|f|] == c && s[|f| + 1..] == tail;
    LineEndIs(s, |f|);
    assert tail != "" ==> s[|f| + 1] == tail[0];
  }

  // ----- a text that is not ----------------------------------------------------------------------

  lemma CarriageReturnStays(first: string, second: string)
    requires NoBoundary(first) && NoBoundary(second) && second != "" && RStrip(second) == second
    ensures var text := first + "\r" + second; RStrip(W.Flatten(W.Replace(text, "\r\n", "\n"))) == text
  {
    var text := first + "\r" + second;
    assert '\n' !in text by {
      assert IsBoundary('\n');
      Members(first + "\r", second);
      Members(first, "\r");
    }
    NoCrLf(text);
    W.ReplaceAbsent(text, '\n', W.MARKED);
    assert text[|text| - 1] == second[|second| - 1];
    RStripped(second);
    RStripFixed(text);
  }

  /** A lone carriage return survives the flattening: what follows it is read back as a send. */
  lemma CarriageReturnSends(hm: string, sender: string, first: string, second: string)
    requires NoBoundary(hm) && NoBoundary(sender) && NoBoundary(first) && NoBoundary(second) && IsSend(second)
    requires RStrip(second) == second
    ensures Requests(LoggedFlat(Prefix(hm, sender), first + "\r" + second)) == [second]
  {
    hide RStrip, SplitLines, NonEmpty, Bare, LineEnd, AfterFirstLine, Requests, W.Replace;
    var text := first + "\r" + second;
    CarriageReturnStays(first, second);
    StampedText(Prefix(hm, sender), text);
    AfterCarriageReturn(first, second);
    SingleRequest(second);
    OneRequest(second);
  }

  lemma AfterCarriageReturn(first: string, second: string)
    requires NoBoundary(first) && NoBoundary(second)
    ensures AfterFirstLine(first + "\r" + second) == second + "\n"
  {
    var text := first + "\r" + second;
    assert text[..|first|] == first;
    LineEndIs(text, |first|);
    assert IsBoundary('\n');
  }

  lemma {:induction false} NoCrLf(s: string)
    requires '\n' !in s
    ensures W.Replace(s, "\r\n", "\n") == s
  {
    if |s| >= 2 {
      assert s[..2][1] == s[1];
      NoCrLf(s[1..]);
    }
  }

  // ----- what the log says -------------------------------------------------------------------

  /** A message without the marker and without other boundaries than newlines, and with nothing blank at its end, can be
      read back: its entry is one line, and behind the prefix that line expands to the message. */
  lemma FlatIsReadable(hm: string, sender: string, text: string)
    requires NoBoundary(hm) && NoBoundary(sender)
    requires W.MARK !in Unix(text) && (forall i | 0 <= i < |Unix(text)| :: !Hard(Unix(text)[i]))
    requires RStrip(W.Flatten(Unix(text))) == W.Flatten(Unix(text))
    ensures var prefix := "[" + hm + "] " + sender + ": ";
            var line := prefix + W.Flatten(Unix(text));
            && SplitLines(LoggedFlat(Prefix(hm, sender), text)) == [line]
            && line[|prefix|..] == W.Flatten(Unix(text)) && W.Expand(line[|prefix|..]) == Unix(text)
  {
    var prefix, flat := Prefix(hm, sender), W.Flatten(Unix(text));
    FlatBoundaries(Unix(text));
    BothPlain(prefix, flat);
    SplitOneLine(prefix + flat);
    W.ExpandFlatten(Unix(text));
    Slices(prefix, flat, |prefix|);
    hide SplitLines, W.Replace, RStrip;
  }
}
