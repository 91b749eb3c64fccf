/** The day-file send protocol shared by the iMessage, WhatsApp and Slack outbound drivers:
    a bare line is a send request, a bracketed line is a log entry. */
module OutboundLines {
  import opened Lines
  import opened Seqs
  import opened Wrappers
  import Utf8

  /** What the gate and the transport make of one send. */
  datatype Verdict = NotOurs | Queued | Frozen(reason: string) | Failed(reason: string) | Sent(allowlisted: bool)

  /** The surroundings of one call of `on_line`: the clock, the verdict, whether the kernel note and the canonical line
      could be appended, whether the call ran to its end, and what other writers append meanwhile. A call that does
      not end has raised, or the process has died in it. */
  datatype Call = Call(hm: string, verdict: Verdict, noted: bool, logged: bool, ends: bool, others: seq<Utf8.byte>)

  predicate IsSend(line: string) {
    !Bracketed(line) && RStrip(line) != ""
  }

  /** The send requests among a list of lines. */
  function Bare(lines: seq<string>): seq<string> {
    if lines == [] then [] else
      var last := lines[|lines| - 1];
      Bare(lines[..|lines| - 1]) + if IsSend(last) then [RStrip(last)] else []
  }

  /** The send requests in a text. */
  function Requests(text: string): seq<string> {
    Bare(NonEmpty(SplitLines(text)))
  }

  function Stamp(hm: string): string {
    "[" + hm + "] "
  }

  function KernelNote(hm: string, note: string): string {
    Stamp(hm) + "kernel: " + note + "\n"
  }

  function CanonicalLine(hm: string, text: string): string {
    Stamp(hm) + "me: " + text
  }

  const FAILED_NOTE := "send failed \U{2014} "
  const FROZEN_NOTE := "send frozen \U{2014} not sent \U{2014} "

  /** A note that cannot be appended is given up. */
  function Note(call: Call, note: string): string {
    if call.noted then KernelNote(call.hm, note) else ""
  }

  /** The kernel note that a verdict leaves. */
  function Noted(call: Call): string {
    match call.verdict
    case NotOurs => ""
    case Queued => Note(call, "queued for owner approval")
    case Frozen(reason) => Note(call, FROZEN_NOTE + reason)
    case Failed(reason) => Note(call, FAILED_NOTE + reason)
    case Sent(allowlisted) => if allowlisted then Note(call, "sent (allowlisted recipient)") else ""
  }

  function Logged(text: string, call: Call): string {
    if call.verdict.Sent? && call.logged then CanonicalLine(call.hm, text) + "\n" else ""
  }

  /** What the driver itself appends to the day-file while it handles the request `text`. */
  function Record(text: string, call: Call): string {
    Noted(call) + Logged(text, call)
  }

  /** Whether `on_line` returns; it raises when the canonical line of a sent message cannot be appended. */
  predicate Returns(line: string, call: Call) {
    call.ends && (IsSend(line) && call.verdict.Sent? ==> call.logged)
  }

  function Registered(line: string, call: Call): set<string> {
    if IsSend(line) && call.verdict.Sent? && call.logged then {CanonicalLine(call.hm, RStrip(line))} else {}
  }

  /** The rest of a text after its first line. */
  function AfterFirstLine(s: string): string {
    var k := LineEnd(s);
    if k == |s| then "" else s[k + BreakLength(s, k)..] + "\n"
  }

  /** A reason that can be logged without becoming a send: no request in its later lines. */
  predicate QuietReason(reason: string) {
    Requests(AfterFirstLine(reason)) == []
  }

  predicate ValidCall(call: Call) {
    && NoBoundary(call.hm) && Utf8.WholeLines(call.others)
    && (call.verdict.Frozen? || call.verdict.Failed? ==> QuietReason(call.verdict.reason))
  }

  // ----- the driver object ------------------------------------------------

  class Driver {
    var day: string
    var attempts: seq<string>
    var suppressed: set<string>

    constructor (day: string)
      ensures this.day == day && attempts == [] && suppressed == {}
    {
      this.day, attempts, suppressed := day, [], {};
    }

    /** The callers of this method carry on when it fails. */
    method AppendKernelNote(hm: string, note: string, works: bool)
      modifies this`day
      ensures day == old(day) + if works then KernelNote(hm, note) else ""
    {
      if works {
        day := day + KernelNote(hm, note);
      } else {
        Empty(day);
      }
    }

    /** None when the file cannot be written. */
    method AppendCanonical(hm: string, text: string, works: bool) returns (line: Option<string>)
      modifies this`day
      ensures line == if works then Some(CanonicalLine(hm, text)) else None
      ensures day == old(day) + if works then CanonicalLine(hm, text) + "\n" else ""
    {
      if !works {
        Empty(day);
        return None;
      }
      var canonical := CanonicalLine(hm, text);
      day := day + (canonical + "\n");
      line := Some(canonical);
    }

    method ProcessSend(text: string, call: Call) returns (sent: bool)
      modifies this`day, this`attempts
      ensures sent == call.verdict.Sent? && attempts == old(attempts) + [text]
      ensures day == old(day) + Noted(call)
    {
      hide KernelNote;
      attempts := attempts + [text];
      sent := false;
      Empty(day);
      match call.verdict {
        case NotOurs =>
        case Queued =>
          AppendKernelNote(call.hm, "queued for owner approval", call.noted);
        case Frozen(reason) =>
          AppendKernelNote(call.hm, FROZEN_NOTE + reason, call.noted);
        case Failed(reason) =>
          AppendKernelNote(call.hm, FAILED_NOTE + reason, call.noted);
        case Sent(allowlisted) =>
          if allowlisted {
            AppendKernelNote(call.hm, "sent (allowlisted recipient)", call.noted);
          }
          sent := true;
      }
    }

    /** One line of the day-file: at most one attempt, one record, one suppression; `ok` is false if the call raised. */
    method OnLine(line: string, call: Call) returns (ok: bool)
      modifies this
      ensures ok == Returns(line, call)
      ensures attempts == old(attempts) + Bare([line])
      ensures day == old(day) + if IsSend(line) then Record(RStrip(line), call) else ""
      ensures suppressed == old(suppressed) + Registered(line, call)
    {
      assert Bare([line]) == if IsSend(line) then [RStrip(line)] else [];
      hide Noted, CanonicalLine;
      if Bracketed(line) {
        return call.ends;
      }
      var text := RStrip(line);
      if text == "" {
        return call.ends;
      }
      var sent := ProcessSend(text, call);
      Associate(old(day), Noted(call), Logged(text, call));
      Empty(Noted(call));
      if !sent {
        return call.ends;
      }
      var canonical := AppendCanonical(call.hm, text, call.logged);
      if canonical.None? {
        return false;
      }
      suppressed := suppressed + {canonical.value};
      ok := call.ends;
    }
  }

  // ----- driver records are never requests --------------------------------

  lemma {:induction false} BareAppend(a: seq<string>, b: seq<string>)
    ensures Bare(a + b) == Bare(a) + Bare(b)
  {
    if b == [] {
      assert a + b == a;
    } else {
      assert (a + b)[..|a + b| - 1] == a + b[..|b| - 1];
      BareAppend(a, b[..|b| - 1]);
    }
  }

  lemma RequestsAppend(a: string, b: string)
    requires WholeLines(a)
    ensures Requests(a + b) == Requests(a) + Requests(b)
  {
    SplitAppend(a, b);
    NonEmptyAppend(SplitLines(a), SplitLines(b));
    BareAppend(NonEmpty(SplitLines(a)), NonEmpty(SplitLines(b)));
  }

  lemma SingleRequest(line: string)
    requires NoBoundary(line)
    ensures Requests(line + "\n") == Bare([line])
  {
    SplitOneLine(line);
    assert NonEmpty([line]) == if line == "" then [] else [line];
    assert line == "" ==> RStrip(line) == "";
  }

  lemma OneRequest(line: string)
    requires IsSend(line)
    ensures Bare([line]) == [RStrip(line)]
  {
  }

  /** A logged text keeps its stamp on the first line only; the later lines stand alone. */
  lemma StampedText(stamp: string, text: string)
    requires NoBoundary(stamp) && Bracketed(stamp)
    ensures Requests(stamp + text + "\n") == Requests(AfterFirstLine(text))
  {
    var k := LineEnd(text);
    StampedLine(stamp, text[..k]);
    if k == |text| {
      Whole(text);
      SingleRequest(stamp + text);
      BareStamp(stamp + text);
      NothingIsQuiet();
    } else {
      var n := BreakLength(text, k);
      var first, brk, rest := stamp + text[..k], text[k..k + n], text[k + n..];
      ThreeParts(stamp, text, k, k + n);
      CutStamped(first, brk, rest);
    }
    hide Requests, NoBoundary, Bracketed, SplitLines, Bare;
  }

  lemma ThreeParts(stamp: string, text: string, k: nat, j: nat)
    requires k <= j <= |text|
    ensures stamp + text + "\n" == stamp + text[..k] + text[k..j] + (text[j..] + "\n")
  {
    assert text == text[..k] + text[k..j] + text[j..];
  }

  lemma StampedLine(stamp: string, line: string)
    requires NoBoundary(stamp) && Bracketed(stamp) && NoBoundary(line)
    ensures NoBoundary(stamp + line) && Bracketed(stamp + line)
  {
  }

  lemma BareStamp(line: string)
    requires Bracketed(line)
    ensures Bare([line]) == []
  {
  }

  /** A lone CR at the very end joins the newline that closes the entry. */
  lemma CutStamped(first: string, brk: string, rest: string)
    requires NoBoundary(first) && Bracketed(first)
    requires brk == "\r\n" || (|brk| == 1 && IsBoundary(brk[0]))
    requires brk == "\r" && rest != "" ==> rest[0] != '\n'
    ensures Requests(first + brk + (rest + "\n")) == Requests(rest + "\n")
  {
    hide *;
    if brk == "\r" && rest == "" {
      assert first + brk + (rest + "\n") == first + "\r\n" + "";
      CutAfter(first, "\r\n", "");
      NoBreaks();
      SingleRequest("");
      assert "" + "\n" == rest + "\n" == "\n";
    } else {
      CutAfter(first, brk, rest + "\n");
    }
  }

  lemma NoBreaks()
    ensures NoBoundary("") && Bare([""]) == [] == Requests("")
  {
  }

  /** Cuts `first` off at a line break that the following text does not extend. */
  lemma CutAfter(first: string, brk: string, tail: string)
    requires NoBoundary(first) && Bracketed(first)
    requires brk == "\r\n" || (|brk| == 1 && IsBoundary(brk[0]))
    requires brk == "\r" ==> tail != "" && tail[0] != '\n'
    ensures Requests(first + brk + tail) == Requests(tail)
  {
    var s := first + brk + tail;
    assert s[..|first|] == first;
    LineEndIs(s, |first|);
    assert BreakLength(s, |first|) == |brk|;
    assert s[|first| + |brk|..] == tail;
    assert SplitLines(s) == [first] + SplitLines(tail);
    NonEmptyAppend([first], SplitLines(tail));
    BareAppend([first], NonEmpty(SplitLines(tail)));
    assert NonEmpty([first]) == [first] && Bare([first]) == [];
  }

  lemma NoteStamp(hm: string, prefix: string, reason: string)
    requires NoBoundary(hm) && NoBoundary(prefix)
    ensures var stamp := Stamp(hm) + "kernel: " + prefix;
            && KernelNote(hm, prefix + reason) == stamp + reason + "\n" && NoBoundary(stamp) && Bracketed(stamp)
  {
  }

  /** A kernel note is harmless exactly when no later line of its reason is a request. */
  lemma KernelNoteIsQuiet(hm: string, prefix: string, reason: string)
    requires NoBoundary(hm) && NoBoundary(prefix)
    ensures Requests(KernelNote(hm, prefix + reason)) == [] <==> QuietReason(reason)
    ensures WholeLines(KernelNote(hm, prefix + reason))
  {
    NoteStamp(hm, prefix, reason);
    StampedText(Stamp(hm) + "kernel: " + prefix, reason);
  }

  lemma AfterTwoLines(first: string, second: string)
    requires NoBoundary(first)
    ensures AfterFirstLine(first + "\n" + second) == second + "\n"
  {
    var reason := first + "\n" + second;
    assert reason[..|first|] == first;
    LineEndIs(reason, |first|);
  }

  /** An error message of two lines is enough: its second line is read back as a send request. */
  lemma LoudReason(hm: string, prefix: string, first: string, second: string)
    requires NoBoundary(hm) && NoBoundary(prefix) && NoBoundary(first) && NoBoundary(second) && IsSend(second)
    ensures Requests(KernelNote(hm, prefix + (first + "\n" + second))) == [RStrip(second)]
  {
    hide *;
    NoteStamp(hm, prefix, first + "\n" + second);
    StampedText(Stamp(hm) + "kernel: " + prefix, first + "\n" + second);
    AfterTwoLines(first, second);
    SingleRequest(second);
    OneRequest(second);
  }

  lemma PlainNoteIsQuiet(hm: string, note: string)
    requires NoBoundary(hm) && NoBoundary(note)
    ensures WholeLines(KernelNote(hm, note)) && Requests(KernelNote(hm, note)) == []
  {
    SingleRequest(Stamp(hm) + "kernel: " + note);
    assert KernelNote(hm, note) == Stamp(hm) + "kernel: " + note + "\n";
  }

  lemma CanonicalIsQuiet(hm: string, text: string)
    requires NoBoundary(hm) && NoBoundary(text)
    ensures Requests(CanonicalLine(hm, text) + "\n") == []
  {
    SingleRequest(CanonicalLine(hm, text));
  }

  lemma NothingIsQuiet()
    ensures WholeLines("") && Requests("") == []
  {
  }

  lemma NoteIsQuiet(call: Call, note: string)
    requires WholeLines(KernelNote(call.hm, note)) && Requests(KernelNote(call.hm, note)) == []
    ensures WholeLines(Note(call, note)) && Requests(Note(call, note)) == []
  {
    NothingIsQuiet();
    hide KernelNote, Requests;
  }

  lemma QuietAppend(a: string, b: string)
    requires WholeLines(a) && WholeLines(b) && Requests(a) == [] == Requests(b)
    ensures WholeLines(a + b) && Requests(a + b) == []
  {
    RequestsAppend(a, b);
    Empty(a);
    hide Requests;
  }

  lemma Terminated(s: string)
    ensures WholeLines(s + "\n")
  {
  }

  lemma NotesAreLines()
    ensures NoBoundary("queued for owner approval") && NoBoundary("sent (allowlisted recipient)")
  {
  }

  lemma PrefixesAreLines()
    ensures NoBoundary(FROZEN_NOTE) && NoBoundary(FAILED_NOTE)
  {
  }

  lemma NotedIsQuiet(call: Call)
    requires ValidCall(call)
    ensures WholeLines(Noted(call)) && Requests(Noted(call)) == []
  {
    NotesAreLines();
    PrefixesAreLines();
    hide Requests, QuietReason, KernelNote, Note, WholeLines, NoBoundary, Utf8.WholeLines;
    match call.verdict
    case NotOurs => NothingIsQuiet();
    case Queued =>
      PlainNoteIsQuiet(call.hm, "queued for owner approval");
      NoteIsQuiet(call, "queued for owner approval");
    case Frozen(reason) =>
      QuietNote(call.hm, FROZEN_NOTE, reason);
      NoteIsQuiet(call, FROZEN_NOTE + reason);
    case Failed(reason) =>
      QuietNote(call.hm, FAILED_NOTE, reason);
      NoteIsQuiet(call, FAILED_NOTE + reason);
    case Sent(allowlisted) =>
      NothingIsQuiet();
      PlainNoteIsQuiet(call.hm, "sent (allowlisted recipient)");
      NoteIsQuiet(call, "sent (allowlisted recipient)");
  }

  lemma LoggedIsQuiet(text: string, call: Call)
    requires NoBoundary(text) && NoBoundary(call.hm)
    ensures WholeLines(Logged(text, call)) && Requests(Logged(text, call)) == []
  {
    NothingIsQuiet();
    CanonicalIsQuiet(call.hm, text);
    Terminated(CanonicalLine(call.hm, text));
    hide Requests, WholeLines, CanonicalLine;
  }

  /** Nothing the driver writes into the day-file is ever a send request. */
  lemma RecordIsQuiet(text: string, call: Call)
    requires NoBoundary(text) && ValidCall(call)
    ensures WholeLines(Record(text, call)) && Requests(Record(text, call)) == []
  {
    NotedIsQuiet(call);
    LoggedIsQuiet(text, call);
    hide Requests, WholeLines, Noted, Logged;
    QuietAppend(Noted(call), Logged(text, call));
  }

  lemma QuietNote(hm: string, prefix: string, reason: string)
    requires NoBoundary(hm) && NoBoundary(prefix) && QuietReason(reason)
    ensures WholeLines(KernelNote(hm, prefix + reason)) && Requests(KernelNote(hm, prefix + reason)) == []
  {
    KernelNoteIsQuiet(hm, prefix, reason);
  }

  // ----- records can be read back ------------------------------------------

  /** What a reader of the day-file is told of a send that left more than its own line. */
  function Words(v: Verdict): string
    requires v.Queued? || v.Frozen? || v.Failed? || v == Sent(true)
  {
    match v
    case Queued => "queued for owner approval"
    case Frozen(reason) => "send frozen \U{2014} not sent \U{2014} " + reason
    case Failed(reason) => "send failed \U{2014} " + reason
    case Sent(_) => "sent (allowlisted recipient)"
  }

  /** The words tell the verdict, and the reason with it. */
  lemma WordsTell(v: Verdict, w: Verdict)
    requires v.Queued? || v.Frozen? || v.Failed? || v == Sent(true)
    requires w.Queued? || w.Frozen? || w.Failed? || w == Sent(true)
    requires Words(v) == Words(w)
    ensures v == w
  {
    WordsLetters(v);
    WordsLetters(w);
    WordsReason(v);
    WordsReason(w);
    hide Words;
  }

  lemma WordsLetters(v: Verdict)
    requires v.Queued? || v.Frozen? || v.Failed? || v == Sent(true)
    ensures var s := Words(v);
            && |s| > 6 && (s[0] == 'q' <==> v.Queued?) && (v.Sent? ==> s[3] == 't')
                && (v.Frozen? || v.Failed? ==> s[3] == 'd')
            && (v.Frozen? ==> s[6] == 'r') && (v.Failed? ==> s[6] == 'a')
  {
  }

  lemma WordsReason(v: Verdict)
    requires v.Frozen? || v.Failed? || v.Queued? || v == Sent(true)
    ensures v.Frozen? ==> |Words(v)| >= 25 && Words(v)[25..] == v.reason
    ensures v.Failed? ==> |Words(v)| >= 14 && Words(v)[14..] == v.reason
  {
  }

  /** Read from behind its stamp, the note that is written for a verdict has the words for it; the other verdicts leave
      no note. */
  lemma NoteIsReadable(call: Call)
    requires call.noted
    ensures var v, note := call.verdict, Noted(call);
            if v.NotOurs? || v == Sent(false) then note == ""
            else |note| >= |call.hm| + 3 && note[..|call.hm| + 3] == "[" + call.hm + "] "
                 && note[|call.hm| + 3..] == "kernel: " + Words(v) + "\n"
  {
    var v := call.verdict;
    if !(v.NotOurs? || v == Sent(false)) {
      assert Noted(call) == Stamp(call.hm) + ("kernel: " + Words(v) + "\n");
      Slices(Stamp(call.hm), "kernel: " + Words(v) + "\n", |call.hm| + 3);
    }
    hide Noted, Words;
  }

  /** The canonical line carries the text that was sent, behind the stamp and the mark of the owner. */
  lemma CanonicalIsReadable(hm: string, text: string)
    ensures var line := CanonicalLine(hm, text);
            |line| >= |hm| + 7 && line[..|hm| + 7] == "[" + hm + "] me: " && line[|hm| + 7..] == text
  {
    Slices(Stamp(hm) + "me: ", text, |hm| + 7);
  }

  /** A send that was logged registers one line, the one that its record ends with; nothing else registers any. */
  lemma RegisteredIsWritten(line: string, call: Call)
    ensures if IsSend(line) && call.verdict.Sent? && call.logged then
              exists canonical ::
                && Registered(line, call) == {canonical}
                && Record(RStrip(line), call) == Noted(call) + canonical + "\n"
            else Registered(line, call) == {}
  {
    if IsSend(line) && call.verdict.Sent? && call.logged {
      var canonical := CanonicalLine(call.hm, RStrip(line));
      Associate(Noted(call), canonical, "\n");
      hide CanonicalLine, Noted, IsSend;
      assert Registered(line, call) == {canonical};
    }
  }
}
