/** How inbound messages are written into the day-files that the outbound tailers read. */
module InboundLog {
  import opened Lines
  import opened Seqs
  import opened OutboundLines

  /** `[HH:MM] sender: ` */
  function Prefix(hm: string, sender: string): string {
    Stamp(hm) + sender + ": "
  }

  function Prefixed(prefix: string, lines: seq<string>): string {
    if lines == [] then "" else Prefixed(prefix, lines[..|lines| - 1]) + prefix + lines[|lines| - 1] + "\n"
  }

  /** The WhatsApp and Slack writers repeat the prefix on every line of the text. */
  function Logged(prefix: string, text: string): string {
    Prefixed(prefix, if SplitLines(text) == [] then [""] else SplitLines(text))
  }

  predicate AllBracketed(lines: seq<string>) {
    forall line | line in lines :: line != "" ==> Bracketed(line)
  }

  lemma {:induction false} BracketedNeverSends(lines: seq<string>)
    requires AllBracketed(lines)
    ensures Bare(NonEmpty(lines)) == []
  {
    if lines != [] {
      var front, last := lines[..|lines| - 1], lines[|lines| - 1];
      BracketedNeverSends(front);
      Front(lines, |lines| - 1);
      Whole(lines);
      NonEmptyAppend(front, [last]);
      BareAppend(NonEmpty(front), NonEmpty([last]));
      assert NonEmpty([last]) == if last == "" then [] else [last];
      assert last in lines;
    }
  }

  /** The first line of a text stays what it is when more text follows a later line. */
  lemma FirstLineStays(prefix: string, tail: string)
    requires LineEnd(prefix) < |prefix| && !IsBoundary(prefix[|prefix| - 1])
    ensures var k := LineEnd(prefix);
            var n := k + BreakLength(prefix, k);
            n < |prefix| && SplitLines(prefix + tail) == [prefix[..k]] + SplitLines(prefix[n..] + tail)
  {
    hide *;
    var k := LineEnd(prefix);
    BreakStays(prefix, tail, k);
    var n := k + BreakLength(prefix, k);
    Slices(prefix, tail, k);
    Slices(prefix, tail, n);
    LineEndIs(prefix + tail, k);
    SplitFirst(prefix + tail, k);
  }

  lemma BreakStays(prefix: string, tail: string, k: nat)
    requires k < |prefix| && IsBoundary(prefix[k]) && !IsBoundary(prefix[|prefix| - 1])
    ensures k + BreakLength(prefix, k) < |prefix| && BreakLength(prefix + tail, k) == BreakLength(prefix, k)
  {
    assert IsBoundary('\n');
  }

  /** A text put behind a prefix lengthens the last line of the prefix and adds no other. */
  lemma {:induction false} SplitPrefixed(prefix: string, line: string)
    requires prefix != "" && !IsBoundary(prefix[|prefix| - 1]) && NoBoundary(line)
    ensures var p := SplitLines(prefix);
            p != [] && p[|p| - 1] != "" &&
            SplitLines(prefix + (line + "\n")) == p[..|p| - 1] + [p[|p| - 1] + line]
    decreases |prefix|
  {
    hide NoBoundary, IsBoundary, LineEnd, BreakLength;
    var k := LineEnd(prefix);
    if k == |prefix| {
      Whole(prefix);
      OneLongLine(prefix, line);
    } else {
      FirstLineStays(prefix, line + "\n");
      var rest := prefix[k + BreakLength(prefix, k)..];
      SplitFirst(prefix, k);
      SplitPrefixed(rest, line);
      var head, p := [prefix[..k]], SplitLines(rest);
      hide SplitLines;
      Snoc(head, p);
      Associate(head, p[..|p| - 1], [p[|p| - 1] + line]);
    }
  }

  lemma OneLongLine(prefix: string, line: string)
    requires NoBoundary(prefix) && NoBoundary(line) && prefix != ""
    ensures SplitLines(prefix) == [prefix] && SplitLines(prefix + (line + "\n")) == [prefix + line]
  {
    SplitSingle(prefix);
    SplitOneLine(prefix + line);
    Associate(prefix, line, "\n");
  }

  lemma PrefixedLine(prefix: string, line: string)
    requires prefix != "" && !IsBoundary(prefix[|prefix| - 1]) && NoBoundary(line)
    ensures AllBracketed(SplitLines(prefix + line + "\n")) <==> AllBracketed(SplitLines(prefix))
  {
    Associate(prefix, line, "\n");
    SplitPrefixed(prefix, line);
    var p := SplitLines(prefix);
    var front, last := p[..|p| - 1], p[|p| - 1];
    assert p == front + [last];
    Members(front, [last]);
    Members(front, [last + line]);
    assert Bracketed(last + line) <==> Bracketed(last);
  }

  lemma {:induction false} PrefixedLines(prefix: string, lines: seq<string>)
    requires prefix != "" && !IsBoundary(prefix[|prefix| - 1]) && lines != []
    requires forall i | 0 <= i < |lines| :: NoBoundary(lines[i])
    ensures WholeLines(Prefixed(prefix, lines))
    ensures AllBracketed(SplitLines(Prefixed(prefix, lines))) <==> AllBracketed(SplitLines(prefix))
  {
    var front, last := lines[..|lines| - 1], lines[|lines| - 1];
    var head, tail := Prefixed(prefix, front), prefix + last + "\n";
    PrefixedLine(prefix, last);
    assert Prefixed(prefix, lines) == head + tail;
    if front == [] {
      Empty(tail);
    } else {
      PrefixedLines(prefix, front);
      SplitAppend(head, tail);
      Members(SplitLines(head), SplitLines(tail));
    }
  }

  /** For every text: each line the tailer later cuts out of a logged WhatsApp or Slack message is
      bracketed, and so never becomes a send, if and only if the prefix alone already is. */
  lemma LoggedIsBracketed(hm: string, sender: string, text: string)
    ensures var lines := SplitLines(Logged(Prefix(hm, sender), text));
            && (AllBracketed(lines) <==> AllBracketed(SplitLines(Prefix(hm, sender))))
            && (AllBracketed(lines) ==> Requests(Logged(Prefix(hm, sender), text)) == [])
  {
    var prefix, lines := Prefix(hm, sender), if SplitLines(text) == [] then [""] else SplitLines(text);
    SplitHasNoBoundary(text);
    PrefixedLines(prefix, lines);
    if AllBracketed(SplitLines(Logged(prefix, text))) {
      BracketedNeverSends(SplitLines(Logged(prefix, text)));
    }
  }

  lemma PlainSenderIsBracketed(hm: string, sender: string)
    requires NoBoundary(hm) && NoBoundary(sender)
    ensures AllBracketed(SplitLines(Prefix(hm, sender)))
  {
    SplitSingle(Prefix(hm, sender));
  }

  // ----- what the log says -----------------------------------------------------------------

  lemma {:induction false} PrefixedSplit(prefix: string, lines: seq<string>)
    requires NoBoundary(prefix) && forall i | 0 <= i < |lines| :: NoBoundary(lines[i])
    ensures var out := SplitLines(Prefixed(prefix, lines));
            |out| == |lines| && forall i | 0 <= i < |lines| :: out[i] == prefix + lines[i]
    ensures WholeLines(Prefixed(prefix, lines))
  {
    if lines != [] {
      var front, last := lines[..|lines| - 1], lines[|lines| - 1];
      PrefixedSplit(prefix, front);
      OneMorePrefixed(prefix, lines);
      hide *;
    }
  }

  lemma OneMorePrefixed(prefix: string, lines: seq<string>)
    requires lines != [] && NoBoundary(prefix) && NoBoundary(lines[|lines| - 1])
    requires WholeLines(Prefixed(prefix, lines[..|lines| - 1]))
    ensures var head, last := Prefixed(prefix, lines[..|lines| - 1]), lines[|lines| - 1];
            SplitLines(Prefixed(prefix, lines)) == SplitLines(head) + [prefix + last]
                && WholeLines(Prefixed(prefix, lines))
  {
    var head, last := Prefixed(prefix, lines[..|lines| - 1]), lines[|lines| - 1];
    BothPlain(prefix, last);
    SplitOneLine(prefix + last);
    SplitAppend(head, prefix + last + "\n");
    Associate(head, prefix + last, "\n");
    Associate(head, prefix, last);
    hide SplitLines, NoBoundary;
  }

  lemma BothPlain(a: string, b: string)
    requires NoBoundary(a) && NoBoundary(b)
    ensures NoBoundary(a + b)
  {
  }

  /** The log entry of a message from a sender whose name holds no boundary is the message, line by line behind the
      prefix; an empty message is logged as one empty line. */
  lemma LogIsReadable(hm: string, sender: string, text: string)
    requires NoBoundary(hm) && NoBoundary(sender)
    ensures var lines := if SplitLines(text) == [] then [""] else SplitLines(text);
            var out := SplitLines(Logged(Prefix(hm, sender), text));
            |out| == |lines| && forall i | 0 <= i < |lines| :: out[i] == "[" + hm + "] " + sender + ": " + lines[i]
  {
    SplitHasNoBoundary(text);
    PrefixedSplit(Prefix(hm, sender), if SplitLines(text) == [] then [""] else SplitLines(text));
    hide SplitLines, Prefixed;
  }
}
