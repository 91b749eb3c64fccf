/** From the text given to `write-imessage` to the message that Messages.app receives. */
module WriteImessage {
  import opened Wrappers
  import opened Lines
  import opened Seqs
  import opened OutboundLines

  const MARK: char := '\U{21B5}'
  const MARKED: string := [' ', MARK, ' ']

  /** `str.replace`: leftmost occurrences that do not overlap. */
  function Replace(s: string, pattern: string, put: string): string
    requires pattern != ""
  {
    if |s| < |pattern| then s
    else if s[..|pattern|] == pattern then put + Replace(s[|pattern|..], pattern, put)
    else [s[0]] + Replace(s[1..], pattern, put)
  }

  /** The body after trimming; None when the command refuses it as empty. */
  function ReadBody(raw: string): Option<string> {
    var body := Strip(Replace(raw, "\r\n", "\n"));
    if body == "" then None else Some(body)
  }

  function Flatten(body: string): string {
    Replace(body, "\n", MARKED)
  }

  /** The day-file form of a body; None when the command refuses it as a log entry. */
  function DayLine(body: string): Option<string> {
    var line := Flatten(body);
    if Bracketed(line) then None else Some(line)
  }

  /** The two-pass marker expansion at send time. */
  function Expand(text: string): string {
    Replace(Replace(text, MARKED, "\n"), [MARK], "\n")
  }

  /** No marker, and no line boundary other than a newline. */
  predicate Clean(body: string) {
    forall c | c in body :: c != MARK && (IsBoundary(c) ==> c == '\n')
  }

  lemma {:induction false} ReplaceAbsent(s: string, c: char, put: string)
    requires c !in s
    ensures Replace(s, [c], put) == s
  {
    if s != "" {
      assert s[..1] == [s[0]];
      ReplaceAbsent(s[1..], c, put);
    }
  }

  /** Every character of the result comes from the text or from the replacement. */
  lemma {:induction false} ReplaceOrigin(s: string, pattern: string, put: string, c: char)
    requires pattern != "" && c in Replace(s, pattern, put)
    ensures c in s || c in put
  {
    if |s| < |pattern| {
    } else if s[..|pattern|] == pattern {
      if c !in put {
        ReplaceOrigin(s[|pattern|..], pattern, put, c);
      }
    } else if c != s[0] {
      ReplaceOrigin(s[1..], pattern, put, c);
    }
  }

  lemma {:induction false} ReplaceRemoves(s: string, c: char, put: string)
    requires c !in put
    ensures c !in Replace(s, [c], put)
  {
    if s != "" {
      assert s[..1] == [s[0]];
      ReplaceRemoves(s[1..], c, put);
    }
  }

  lemma FlattenStep(body: string)
    requires body != ""
    ensures Flatten(body) == (if body[0] == '\n' then MARKED else [body[0]]) + Flatten(body[1..])
  {
    assert body[..1] == [body[0]];
  }

  lemma FlattenStart(body: string)
    requires MARK !in body
    ensures Flatten(body) == "" || Flatten(body)[0] != MARK
  {
    if body != "" {
      FlattenStep(body);
    }
  }

  lemma ReplaceStep(s: string, rest: string, put: string)
    ensures s == MARKED + rest ==> Replace(s, MARKED, put) == put + Replace(rest, MARKED, put)
    ensures forall c | s == [c] + rest && (rest == "" || rest[0] != MARK) ::
              Replace(s, MARKED, put) == [c] + Replace(rest, MARKED, put)
  {
    if s == MARKED + rest {
      Slices(MARKED, rest, 3);
      assert MARKED[..3] == MARKED;
      Empty(rest);
    }
    forall c | s == [c] + rest && (rest == "" || rest[0] != MARK)
      ensures Replace(s, MARKED, put) == [c] + Replace(rest, MARKED, put)
    {
      Slices([c], rest, 1);
      Empty(rest);
      if |s| >= 3 {
        assert s[..3][1] == rest[0];
      }
    }
  }

  /** The markers that flattening puts in are found again one by one, and nothing else is. */
  lemma {:induction false} Unflatten(body: string)
    requires MARK !in body
    ensures Replace(Flatten(body), MARKED, "\n") == body
  {
    if body == "" {
      assert Flatten(body) == "";
    } else {
      var rest := body[1..];
      Unflatten(rest);
      FlattenStep(body);
      FlattenStart(rest);
      ReplaceStep(Flatten(body), Flatten(rest), "\n");
    }
  }

  lemma ExpandFlatten(body: string)
    requires MARK !in body
    ensures Expand(Flatten(body)) == body
  {
    Unflatten(body);
    ReplaceAbsent(body, MARK, "\n");
  }

  lemma {:induction false} FlattenLast(body: string)
    requires body != "" && body[|body| - 1] != '\n'
    ensures Flatten(body) != "" && Flatten(body)[|Flatten(body)| - 1] == body[|body| - 1]
  {
    FlattenStep(body);
    if |body| == 1 {
      assert Flatten(body[1..]) == "";
    } else {
      FlattenLast(body[1..]);
    }
  }

  lemma FlatCleanLine(body: string)
    requires Clean(body)
    ensures NoBoundary(Flatten(body))
  {
    forall i | 0 <= i < |Flatten(body)| ensures !IsBoundary(Flatten(body)[i]) {
      var c := Flatten(body)[i];
      ReplaceOrigin(body, "\n", MARKED, c);
      ReplaceRemoves(body, '\n', MARKED);
    }
  }

  /** What the driver sends for a text holds no marker, and only newlines as boundaries. */
  lemma ExpandIsClean(text: string)
    requires NoBoundary(text)
    ensures Clean(Expand(text))
  {
    var once := Replace(text, MARKED, "\n");
    ReplaceRemoves(once, MARK, "\n");
    forall c | c in Expand(text) ensures c != MARK && (IsBoundary(c) ==> c == '\n') {
      ReplaceOrigin(once, [MARK], "\n", c);
      if c in once {
        ReplaceOrigin(text, MARKED, "\n", c);
      }
    }
  }

  /** The messages that go out for a day-file line: one for each request the tailer finds in it. */
  function Delivered(line: string): seq<string> {
    var requests := Requests(line + "\n");
    seq(|requests|, i requires 0 <= i < |requests| => Expand(requests[i]))
  }

  lemma {:induction false} RequestsHaveNoBoundary(lines: seq<string>, r: string)
    requires r in Bare(NonEmpty(lines)) && forall i | 0 <= i < |lines| :: NoBoundary(lines[i])
    ensures NoBoundary(r)
  {
    BareOrigin(NonEmpty(lines), r);
    var line :| line in NonEmpty(lines) && r == RStrip(line);
    NonEmptyOrigin(lines, line);
    RStripped(line);
  }

  lemma {:induction false} BareOrigin(lines: seq<string>, r: string)
    requires r in Bare(lines)
    ensures exists line :: line in lines && r == RStrip(line)
  {
    var last := lines[|lines| - 1];
    if r in Bare(lines[..|lines| - 1]) {
      BareOrigin(lines[..|lines| - 1], r);
    } else {
      assert last in lines && r == RStrip(last);
    }
  }

  lemma {:induction false} NonEmptyOrigin(lines: seq<string>, line: string)
    requires line in NonEmpty(lines)
    ensures line in lines
  {
    if line != lines[0] {
      NonEmptyOrigin(lines[1..], line);
    }
  }

  /** One call of `write-imessage` delivers exactly one message, equal to the trimmed body, if and
      only if the body is clean. */
  lemma OneCallOneMessage(raw: string)
    requires ReadBody(raw).Some? && DayLine(ReadBody(raw).value).Some?
    ensures var body := ReadBody(raw).value;
            Delivered(DayLine(body).value) == [body] <==> Clean(body)
  {
    var body := ReadBody(raw).value;
    var line := Flatten(body);
    StripEnds(Replace(raw, "\r\n", "\n"));
    if Clean(body) {
      assert IsSpace('\n');
      FlatCleanLine(body);
      FlattenLast(body);
      SingleRequest(line);
      RStripFixed(line);
      ExpandFlatten(body);
    } else if Delivered(line) == [body] {
      var requests := Requests(line + "\n");
      assert body == Delivered(line)[0] == Expand(requests[0]);
      SplitHasNoBoundary(line + "\n");
      RequestsHaveNoBoundary(SplitLines(line + "\n"), requests[0]);
      ExpandIsClean(requests[0]);
      assert false;
    }
  }
}
