/** The outbound driver behind the tailer, over whole runs: what it attempts to send is what was typed. */
module OutboundRuns {
  import opened Lines
  import opened OutboundLines
  import opened Seqs
  import Utf8
  import T = TailerModel

  const DAY: T.Path := "day.md"

  /** The requests in a run of bytes. */
  function RequestsIn(bytes: T.Bytes): seq<string> {
    Bare(T.LinesOf(bytes))
  }

  /** `on_line` as the tailer sees it. */
  function React(calls: nat -> Call): T.OnLine {
    (k: nat, line: string) => T.Reaction(Returns(line, calls(k)), set l | l in Registered(line, calls(k)) :: (DAY, l))
  }

  /** The send attempts made, and the bytes appended, during the given turns of one drain. */
  function Attempts(turns: seq<T.Turn>): seq<string> {
    if turns == [] then [] else
      var t := turns[|turns| - 1];
      Attempts(turns[..|turns| - 1]) + if t.Called? then Bare([t.line]) else []
  }

  function Others(turns: seq<T.Turn>, calls: nat -> Call): T.Bytes {
    if turns == [] then [] else
      var front, t := turns[..|turns| - 1], turns[|turns| - 1];
      Others(front, calls) + if t.Called? then calls(T.CallCount(front)).others else []
  }

  function Own(line: string, call: Call): T.Bytes {
    if IsSend(line) then Utf8.Encode(Record(RStrip(line), call)) else []
  }

  function Written(turns: seq<T.Turn>, calls: nat -> Call): T.Bytes {
    if turns == [] then [] else
      var front, t := turns[..|turns| - 1], turns[|turns| - 1];
      var call := calls(T.CallCount(front));
      Written(front, calls) + if t.Called? then Own(t.line, call) + call.others else []
  }

  /** The attempts of one drain, which is `whole` unless a call stopped it. */
  datatype Batch = Batch(sends: seq<string>, whole: bool)

  /** All attempts, and those of the whole drains. */
  function Sends(log: seq<Batch>): seq<string> {
    if log == [] then [] else Sends(log[..|log| - 1]) + log[|log| - 1].sends
  }

  function Settled(log: seq<Batch>): seq<string> {
    if log == [] then [] else
      var last := log[|log| - 1];
      Settled(log[..|log| - 1]) + if last.whole then last.sends else []
  }

  /** A crash is a drain that a call stops, and a restart after it. */
  datatype Event = Type(bytes: T.Bytes) | Drain(calls: nat -> Call) | Restart

  /** `base` is where the day-file was first seeded; `typed` is all that other writers appended since. */
  datatype World = World(file: T.Bytes, base: nat, c: T.Cursors, typed: T.Bytes, log: seq<Batch>)

  function Start(history: T.Bytes): World {
    var offsets := map[DAY := |history|];
    World(history, |history|, T.Cursors(offsets, offsets, {}), [], [])
  }

  function Next(w: World, e: Event): World {
    match e
    case Type(bytes) => w.(file := w.file + bytes, typed := w.typed + bytes)
    case Restart => w.(c := T.Cursors(w.c.saved, w.c.saved, {}))
    case Drain(calls) =>
      var (c, turns) := T.Drain(w.c, DAY, w.file, React(calls));
      World(w.file + Written(turns, calls), w.base, c, w.typed + Others(turns, calls),
            w.log + [Batch(Attempts(turns), T.NoneRaised(turns))])
  }

  function Run(w: World, events: seq<Event>): World {
    if events == [] then w else Next(Run(w, events[..|events| - 1]), events[|events| - 1])
  }

  ghost predicate ValidEvent(e: Event) {
    match e
    case Type(bytes) => Utf8.WholeLines(bytes)
    case Restart => true
    case Drain(calls) => forall k: nat :: ValidCall(calls(k))
  }

  /** The requests behind the cursor. */
  function Unread(w: World): seq<string> {
    if T.CursorOf(w.c, DAY) <= |w.file| then RequestsIn(w.file[T.CursorOf(w.c, DAY)..]) else []
  }

  /** The attempts so far and the requests still unread are together the requests typed. */
  ghost predicate Balanced(file: T.Bytes, base: nat, cursor: nat, typed: T.Bytes, attempts: seq<string>) {
    && base <= cursor <= |file|
    && Utf8.WholeLines(file[base..cursor]) && Utf8.WholeLines(file[cursor..]) && Utf8.WholeLines(typed)
    && attempts == RequestsIn(file[base..cursor])
    && attempts + RequestsIn(file[cursor..]) == RequestsIn(typed)
  }

  /** What a drain that was stopped had attempted is the first of what the later whole drains attempt. */
  ghost predicate Repeated(log: seq<Batch>, unread: seq<string>) {
    forall i | 0 <= i < |log| && !log[i].whole :: log[i].sends <= Settled(log[i..]) + unread
  }

  ghost predicate Ok(w: World) {
    && DAY in w.c.offsets && w.c.saved == w.c.offsets
    && Balanced(w.file, w.base, w.c.offsets[DAY], w.typed, Settled(w.log))
    && Repeated(w.log, Unread(w))
    && forall k | k in w.c.suppress :: Bracketed(k.1)
  }

  lemma RequestsInAppend(a: T.Bytes, b: T.Bytes)
    requires Utf8.WholeLines(a)
    ensures RequestsIn(a + b) == RequestsIn(a) + RequestsIn(b)
  {
    T.LinesOfAppend(a, b);
    BareAppend(T.LinesOf(a), T.LinesOf(b));
  }

  lemma RequestsInEncoded(text: string)
    ensures RequestsIn(Utf8.Encode(text)) == Requests(text)
  {
    Utf8.DecodeEncode(text);
  }

  lemma NothingRequested()
    ensures RequestsIn([]) == []
  {
  }

  // ----- one drain ----------------------------------------------------------

  ghost predicate GoodTurns(turns: seq<T.Turn>) {
    forall t | t in turns :: NoBoundary(t.line) && (t.Suppressed? ==> Bracketed(t.line))
  }

  function TurnLines(turns: seq<T.Turn>): seq<string> {
    if turns == [] then [] else TurnLines(turns[..|turns| - 1]) + [turns[|turns| - 1].line]
  }

  lemma TurnLinesSnoc(turns: seq<T.Turn>, t: T.Turn)
    ensures TurnLines(turns + [t]) == TurnLines(turns) + [t.line]
    ensures GoodTurns(turns) && NoBoundary(t.line) && (t.Suppressed? ==> Bracketed(t.line)) ==> GoodTurns(turns + [t])
  {
    Snoc(turns, [t]);
    Empty(turns);
    Members(turns, [t]);
    hide NoBoundary, Bracketed;
  }

  lemma ReactIsGood(calls: nat -> Call, k: nat, line: string)
    ensures forall key | key in React(calls)(k, line).registered :: Bracketed(key.1)
  {
    assert Bracketed(CanonicalLine(calls(k).hm, RStrip(line)));
    assert forall l | l in Registered(line, calls(k)) :: Bracketed(l);
  }

  lemma NonEmptySnoc(lines: seq<string>)
    requires lines != []
    ensures var line := lines[|lines| - 1];
            NonEmpty(lines) == NonEmpty(lines[..|lines| - 1]) + if line == "" then [] else [line]
  {
    var front, line := lines[..|lines| - 1], lines[|lines| - 1];
    assert lines == front + [line];
    NonEmptyAppend(front, [line]);
    assert NonEmpty([line]) == if line == "" then [] else [line];
  }

  /** Only canonical lines are ever suppressed, so a drain suppresses bracketed lines only. Its turns go through the
      lines in order, up to the one that stops it. */
  lemma {:induction false} PassIsGood(lines: seq<string>, suppress: set<T.Key>, calls: nat -> Call)
    requires forall k | k in suppress :: Bracketed(k.1)
    requires forall i | 0 <= i < |lines| :: NoBoundary(lines[i])
    ensures var p := T.RunLines(DAY, lines, suppress, React(calls));
            && GoodTurns(p.turns) && (forall k | k in p.suppress :: Bracketed(k.1))
            && TurnLines(p.turns) <= NonEmpty(lines) && (p.ok ==> TurnLines(p.turns) == NonEmpty(lines))
  {
    if lines != [] {
      var front, line := lines[..|lines| - 1], lines[|lines| - 1];
      PassIsGood(front, suppress, calls);
      NonEmptySnoc(lines);
      var q := T.RunLines(DAY, front, suppress, React(calls));
      ReactIsGood(calls, T.CallCount(q.turns), line);
      var p := T.RunLines(DAY, lines, suppress, React(calls));
      assert p == if q.ok then T.OneLine(DAY, q, line, React(calls)) else q;
      hide React, T.RunLines, T.CallCount, NoBoundary, Bracketed, TurnLines, GoodTurns, NonEmpty;
      assert (DAY, line) in q.suppress ==> Bracketed((DAY, line).1);
      if q.ok && line != "" {
        TurnLinesSnoc(q.turns, p.turns[|q.turns|]);
      }
    }
  }

  lemma DrainIsGood(w: World, calls: nat -> Call)
    requires Ok(w)
    ensures var (c, turns) := T.Drain(w.c, DAY, w.file, React(calls));
            var lines := T.LinesOf(w.file[w.c.offsets[DAY]..]);
            && GoodTurns(turns) && TurnLines(turns) <= lines && (T.NoneRaised(turns) ==> TurnLines(turns) == lines)
            && c.saved == c.offsets == (if T.NoneRaised(turns) then w.c.offsets[DAY := |w.file|] else w.c.offsets)
            && forall k | k in c.suppress :: Bracketed(k.1)
  {
    hide RequestsIn, T.RunLines, SplitLines, Utf8.Decode, React, NoBoundary, Bracketed, Repeated, Settled, Unread,
         NonEmpty, GoodTurns, TurnLines;
    var cursor := w.c.offsets[DAY];
    var rest := w.file[cursor..];
    WholeIsComplete(rest);
    Whole(rest);
    assert w.file[cursor..cursor + |rest|] == rest;
    var lines := SplitLines(Utf8.Decode(rest));
    SplitHasNoBoundary(Utf8.Decode(rest));
    if rest == [] {
      assert w.c.offsets[DAY := |w.file|] == w.c.offsets;
      NoTurnsYet();
    } else {
      PassIsGood(lines, w.c.suppress, calls);
      T.PassCompletes(DAY, lines, w.c.suppress, React(calls));
    }
  }

  lemma NoTurnsYet()
    ensures GoodTurns([]) && TurnLines([]) == [] == T.LinesOf([])
  {
  }

  lemma WholeIsComplete(bytes: T.Bytes)
    requires Utf8.WholeLines(bytes)
    ensures T.CompleteLength(bytes) == |bytes|
  {
  }

  /** The attempts of a drain are the requests among the lines it took. */
  lemma {:induction false} AttemptsAreRequests(turns: seq<T.Turn>)
    requires GoodTurns(turns)
    ensures Attempts(turns) == Bare(TurnLines(turns))
  {
    if turns != [] {
      var front, t := turns[..|turns| - 1], turns[|turns| - 1];
      assert forall u | u in front :: u in turns;
      AttemptsAreRequests(front);
      BareAppend(TurnLines(front), [t.line]);
      assert t in turns;
    }
  }

  lemma BarePrefix(a: seq<string>, b: seq<string>)
    requires a <= b
    ensures Bare(a) <= Bare(b)
  {
    assert b == a + b[|a|..];
    BareAppend(a, b[|a|..]);
  }

  lemma TurnIsQuiet(line: string, call: Call)
    requires NoBoundary(line) && ValidCall(call)
    ensures Utf8.WholeLines(Own(line, call) + call.others)
    ensures RequestsIn(Own(line, call) + call.others) == RequestsIn(call.others)
  {
    if IsSend(line) {
      var text := Record(RStrip(line), call);
      RStripped(line);
      RecordIsQuiet(RStrip(line), call);
      hide Record, RequestsIn;
      RequestsInEncoded(text);
      EncodedWholeLines(text);
      RequestsInAppend(Utf8.Encode(text), call.others);
      Utf8.WholeLinesAppend(Utf8.Encode(text), call.others);
    }
    Empty(call.others);
  }

  lemma EncodedWholeLines(text: string)
    requires WholeLines(text)
    ensures Utf8.WholeLines(Utf8.Encode(text))
  {
    if text != "" {
      assert text == text[..|text| - 1] + "\n";
      Utf8.EncodeAppend(text[..|text| - 1], "\n");
      assert Utf8.Encode("\n") == [Utf8.NEWLINE];
    }
  }

  /** What a drain adds to the day-file holds the requests of the other writers and no others. */
  lemma {:induction false} WrittenIsQuiet(turns: seq<T.Turn>, calls: nat -> Call)
    requires GoodTurns(turns) && forall k: nat :: ValidCall(calls(k))
    ensures Utf8.WholeLines(Written(turns, calls)) && Utf8.WholeLines(Others(turns, calls))
    ensures RequestsIn(Written(turns, calls)) == RequestsIn(Others(turns, calls))
  {
    if turns == [] {
      NothingRequested();
    } else {
      var front, t := turns[..|turns| - 1], turns[|turns| - 1];
      assert t in turns;
      WrittenIsQuiet(front, calls);
      LastWritten(turns, calls);
      var call := calls(T.CallCount(front));
      assert ValidCall(call);
      hide RequestsIn, Own, T.CallCount, NoBoundary, ValidCall, Written, Others, Utf8.WholeLines, Bracketed;
      if t.Called? {
        TurnIsQuiet(t.line, call);
        OthersWhole(call);
        var more := Own(t.line, call) + call.others;
        RequestsInAppend(Written(front, calls), more);
        RequestsInAppend(Others(front, calls), call.others);
        Utf8.WholeLinesAppend(Written(front, calls), more);
        Utf8.WholeLinesAppend(Others(front, calls), call.others);
      } else {
        Empty(Written(front, calls));
        Empty(Others(front, calls));
      }
    }
  }

  lemma LastWritten(turns: seq<T.Turn>, calls: nat -> Call)
    requires turns != []
    ensures var front, t := turns[..|turns| - 1], turns[|turns| - 1];
            var call := calls(T.CallCount(front));
            && Written(turns, calls)
                == Written(front, calls) + (if t.Called? then Own(t.line, call) + call.others else [])
            && Others(turns, calls) == Others(front, calls) + (if t.Called? then call.others else [])
  {
  }

  lemma OthersWhole(call: Call)
    requires ValidCall(call)
    ensures Utf8.WholeLines(call.others)
  {
  }

  // ----- what was attempted so far --------------------------------------------

  lemma SettledSnoc(log: seq<Batch>, b: Batch)
    ensures Settled(log + [b]) == Settled(log) + if b.whole then b.sends else []
  {
    Snoc(log, [b]);
    Empty(log);
  }

  lemma PrefixGrows(a: seq<string>, b: seq<string>, c: seq<string>)
    requires a <= b
    ensures a <= b + c
  {
  }

  lemma RepeatedGrows(log: seq<Batch>, unread: seq<string>, more: seq<string>)
    requires Repeated(log, unread)
    ensures Repeated(log, unread + more)
  {
    hide Settled;
    forall i | 0 <= i < |log| && !log[i].whole ensures log[i].sends <= Settled(log[i..]) + (unread + more) {
      PrefixGrows(log[i].sends, Settled(log[i..]) + unread, more);
      Associate(Settled(log[i..]), unread, more);
    }
  }

  /** A whole drain takes all that was unread. */
  lemma WholeBatch(log: seq<Batch>, unread: seq<string>, more: seq<string>)
    requires Repeated(log, unread)
    ensures Repeated(log + [Batch(unread, true)], more)
  {
    var b := Batch(unread, true);
    hide Settled;
    forall i | 0 <= i < |log + [b]| && !(log + [b])[i].whole
      ensures (log + [b])[i].sends <= Settled((log + [b])[i..]) + more
    {
      assert (log + [b])[i..] == log[i..] + [b];
      SettledSnoc(log[i..], b);
      PrefixGrows(log[i].sends, Settled(log[i..]) + unread, more);
    }
  }

  /** A drain that is stopped takes a first part of it, and leaves it unread. */
  lemma StoppedBatch(log: seq<Batch>, unread: seq<string>, sends: seq<string>, more: seq<string>)
    requires Repeated(log, unread) && sends <= unread
    ensures Repeated(log + [Batch(sends, false)], unread + more)
  {
    var b := Batch(sends, false);
    RepeatedGrows(log, unread, more);
    hide Settled;
    forall i | 0 <= i < |log + [b]| && !(log + [b])[i].whole
      ensures (log + [b])[i].sends <= Settled((log + [b])[i..]) + (unread + more)
    {
      StoppedSettled(log, b, i);
      if i == |log| {
        StoppedLast(unread, sends, more);
      }
    }
  }

  /** A stopped drain settles nothing. */
  lemma StoppedSettled(log: seq<Batch>, b: Batch, i: nat)
    requires i <= |log| && !b.whole
    ensures Settled((log + [b])[i..]) == if i < |log| then Settled(log[i..]) else []
  {
    assert (log + [b])[i..] == log[i..] + [b];
    SettledSnoc(log[i..], b);
    Empty(Settled(log[i..]));
    NothingSettled();
    hide Settled;
    assert i == |log| ==> log[i..] == [];
  }

  lemma StoppedLast(unread: seq<string>, sends: seq<string>, more: seq<string>)
    requires sends <= unread
    ensures sends <= [] + (unread + more)
  {
    Empty(unread + more);
  }

  lemma NothingSettled()
    ensures Settled([]) == []
  {
  }

  // ----- whole runs ---------------------------------------------------------

  lemma DrainBalances(file: T.Bytes, base: nat, cursor: nat, typed: T.Bytes, attempts: seq<string>,
                      more: T.Bytes, others: T.Bytes)
    requires Balanced(file, base, cursor, typed, attempts)
    requires Utf8.WholeLines(more) && Utf8.WholeLines(others) && RequestsIn(more) == RequestsIn(others)
    ensures Balanced(file + more, base, |file|, typed + others, attempts + RequestsIn(file[cursor..]))
  {
    hide RequestsIn;
    Cut(file, base, cursor, |file|);
    Whole(file[cursor..]);
    Slices(file, more, |file|);
    Slices(file, more, base);
    RequestsInAppend(file[base..cursor], file[cursor..]);
    RequestsInAppend(typed, others);
    Utf8.WholeLinesAppend(file[base..cursor], file[cursor..]);
    Utf8.WholeLinesAppend(typed, others);
    assert (file + more)[base..|file|] == file[base..|file|];
    assert (file + more)[|file|..] == more;
  }

  /** Appending leaves the balance, if it adds the requests of the other writers only. */
  lemma AppendBalances(file: T.Bytes, base: nat, cursor: nat, typed: T.Bytes, attempts: seq<string>,
                       more: T.Bytes, others: T.Bytes)
    requires Balanced(file, base, cursor, typed, attempts)
    requires Utf8.WholeLines(more) && Utf8.WholeLines(others) && RequestsIn(more) == RequestsIn(others)
    ensures Balanced(file + more, base, cursor, typed + others, attempts)
    ensures RequestsIn((file + more)[cursor..]) == RequestsIn(file[cursor..]) + RequestsIn(more)
  {
    hide RequestsIn;
    RequestsInAppend(file[cursor..], more);
    RequestsInAppend(typed, others);
    Utf8.WholeLinesAppend(file[cursor..], more);
    Utf8.WholeLinesAppend(typed, others);
    Slices(file, more, cursor);
    assert (file + more)[base..cursor] == file[base..cursor];
    Associate(attempts, RequestsIn(file[cursor..]), RequestsIn(more));
  }

  lemma UnreadIs(w: World)
    requires DAY in w.c.offsets && w.c.offsets[DAY] <= |w.file|
    ensures Unread(w) == RequestsIn(w.file[w.c.offsets[DAY]..])
  {
  }

  lemma WholeDrainKeeps(w: World, calls: nat -> Call)
    requires Ok(w) && ValidEvent(Drain(calls)) && T.NoneRaised(T.Drain(w.c, DAY, w.file, React(calls)).1)
    ensures var t := Next(w, Drain(calls)); Ok(t) && t.log == w.log + [Batch(Unread(w), true)]
  {
    var (c, turns) := T.Drain(w.c, DAY, w.file, React(calls));
    DrainIsGood(w, calls);
    AttemptsAreRequests(turns);
    WrittenIsQuiet(turns, calls);
    UnreadIs(w);
    DrainBalances(w.file, w.base, w.c.offsets[DAY], w.typed, Settled(w.log), Written(turns, calls),
        Others(turns, calls));
    SettledSnoc(w.log, Batch(Unread(w), true));
    var t := Next(w, Drain(calls));
    WholeBatch(w.log, Unread(w), Unread(t));
    hide Balanced, Repeated, RequestsIn, T.Drain, T.LinesOf, Attempts, Written, Others, React, Bracketed, GoodTurns,
        TurnLines,
         T.NoneRaised, Unread, Settled, Bare;
    assert Bare(TurnLines(turns)) == Unread(w);
  }

  lemma StoppedDrainKeeps(w: World, calls: nat -> Call)
    requires Ok(w) && ValidEvent(Drain(calls)) && !T.NoneRaised(T.Drain(w.c, DAY, w.file, React(calls)).1)
    ensures var t := Next(w, Drain(calls)); Ok(t) && t.c.offsets == w.c.offsets
  {
    var (c, turns) := T.Drain(w.c, DAY, w.file, React(calls));
    var t, cursor := Next(w, Drain(calls)), w.c.offsets[DAY];
    DrainIsGood(w, calls);
    AttemptsAreRequests(turns);
    BarePrefix(TurnLines(turns), T.LinesOf(w.file[cursor..]));
    WrittenIsQuiet(turns, calls);
    UnreadIs(w);
    UnreadIs(t);
    AppendBalances(w.file, w.base, cursor, w.typed, Settled(w.log), Written(turns, calls), Others(turns, calls));
    SettledSnoc(w.log, Batch(Attempts(turns), false));
    Empty(Settled(w.log));
    StoppedBatch(w.log, Unread(w), Attempts(turns), RequestsIn(Written(turns, calls)));
    hide Balanced, Repeated, RequestsIn, T.Drain, T.LinesOf, Attempts, Written, Others, React, Bracketed, GoodTurns,
        TurnLines,
         T.NoneRaised, Unread, Settled, Bare;
  }

  lemma TypeKeeps(w: World, bytes: T.Bytes)
    requires Ok(w) && Utf8.WholeLines(bytes)
    ensures Ok(Next(w, Type(bytes)))
  {
    var t := Next(w, Type(bytes));
    AppendBalances(w.file, w.base, w.c.offsets[DAY], w.typed, Settled(w.log), bytes, bytes);
    UnreadIs(w);
    UnreadIs(t);
    RepeatedGrows(w.log, Unread(w), RequestsIn(bytes));
    hide Balanced, Repeated, RequestsIn, Unread, Settled, Bracketed;
  }

  lemma RestartKeeps(w: World)
    requires Ok(w)
    ensures Ok(Next(w, Restart))
  {
    UnreadIs(w);
    UnreadIs(Next(w, Restart));
    hide Balanced, Repeated, RequestsIn, Unread, Settled, Bracketed;
  }

  lemma StartIsOk(history: T.Bytes)
    ensures Ok(Start(history))
  {
    NothingRequested();
    assert history[|history|..] == [] == history[|history|..|history|];
  }

  lemma {:induction false} RunKeeps(history: T.Bytes, events: seq<Event>)
    requires forall e | e in events :: ValidEvent(e)
    ensures Ok(Run(Start(history), events))
  {
    hide Ok, Start, Next, T.Drain;
    if events == [] {
      StartIsOk(history);
    } else {
      var front, e := events[..|events| - 1], events[|events| - 1];
      assert forall e | e in front :: e in events;
      RunKeeps(history, front);
      var w := Run(Start(history), front);
      assert e in events;
      match e
      case Drain(calls) =>
        if T.NoneRaised(T.Drain(w.c, DAY, w.file, React(calls)).1) {
          WholeDrainKeeps(w, calls);
        } else {
          StoppedDrainKeeps(w, calls);
        }
      case Type(bytes) => TypeKeeps(w, bytes);
      case Restart => RestartKeeps(w);
    }
  }

  lemma OkMeans(w: World)
    requires Ok(w)
    ensures T.CursorOf(w.c, DAY) <= |w.file| && Settled(w.log) + Unread(w) == RequestsIn(w.typed)
            && Repeated(w.log, Unread(w))
  {
    hide Repeated, RequestsIn, Settled, Bracketed;
  }

  /** For every interleaving of whole-line appends, drains, calls that raise, crashes and restarts: the attempts of the
      whole drains are the requests that other writers typed, in order, none lost, none repeated, none made up by the
      driver; what is missing is what the tailer has not read yet. A drain that was stopped attempted a first part of
      what is attempted after it. */
  lemma SendsAreRequests(history: T.Bytes, events: seq<Event>)
    requires forall e | e in events :: ValidEvent(e)
    ensures var w := Run(Start(history), events);
            && T.CursorOf(w.c, DAY) <= |w.file|
            && Settled(w.log) + Unread(w) == RequestsIn(w.typed)
            && forall i | 0 <= i < |w.log| && !w.log[i].whole :: w.log[i].sends <= Settled(w.log[i..]) + Unread(w)
  {
    RunKeeps(history, events);
    var w := Run(Start(history), events);
    hide Run, Start, Ok, Settled, Unread, RequestsIn;
    OkMeans(w);
  }

  // ----- runs in which no call is stopped ----------------------------------------

  /** Every call runs to its end and logs what it sent. */
  ghost predicate Smooth(e: Event) {
    e.Drain? ==> forall k: nat :: e.calls(k).ends && e.calls(k).logged
  }

  lemma {:induction false} SmoothPass(lines: seq<string>, suppress: set<T.Key>, calls: nat -> Call)
    requires Smooth(Drain(calls))
    ensures T.RunLines(DAY, lines, suppress, React(calls)).ok
  {
    if lines != [] {
      SmoothPass(lines[..|lines| - 1], suppress, calls);
      hide IsSend, Registered;
    }
  }

  lemma SmoothDrain(c: T.Cursors, file: T.Bytes, calls: nat -> Call)
    requires Smooth(Drain(calls))
    ensures T.NoneRaised(T.Drain(c, DAY, file, React(calls)).1)
  {
    forall lines: seq<string> ensures T.NoneRaised(T.RunLines(DAY, lines, c.suppress, React(calls)).turns) {
      SmoothPass(lines, c.suppress, calls);
      T.PassCompletes(DAY, lines, c.suppress, React(calls));
    }
    hide T.RunLines, SplitLines, React, Smooth;
  }

  /** Then each request is attempted once. */
  lemma {:induction false} SmoothRunsSendOnce(history: T.Bytes, events: seq<Event>)
    requires forall e | e in events :: ValidEvent(e) && Smooth(e)
    ensures var w := Run(Start(history), events);
            Sends(w.log) == Settled(w.log) && Sends(w.log) + Unread(w) == RequestsIn(w.typed)
  {
    RunKeeps(history, events);
    OkMeans(Run(Start(history), events));
    hide Unread, RequestsIn, Ok, T.Drain, ValidEvent;
    if events != [] {
      var front, e := events[..|events| - 1], events[|events| - 1];
      assert forall e | e in front :: e in events;
      SmoothRunsSendOnce(history, front);
      var w := Run(Start(history), front);
      assert e in events;
      if e.Drain? {
        SmoothDrain(w.c, w.file, e.calls);
      }
    }
  }

  /** Once a whole drain during which nobody else types is over, every request has been attempted by a whole drain. */
  lemma QuiescentSends(history: T.Bytes, events: seq<Event>, calls: nat -> Call)
    requires forall e | e in events + [Drain(calls)] :: ValidEvent(e)
    requires Smooth(Drain(calls)) && forall k: nat :: calls(k).others == []
    ensures var w := Run(Start(history), events + [Drain(calls)]); Settled(w.log) == RequestsIn(w.typed)
  {
    var w := Run(Start(history), events);
    var turns := T.Drain(w.c, DAY, w.file, React(calls)).1;
    assert forall e | e in events :: e in events + [Drain(calls)];
    assert Drain(calls) in events + [Drain(calls)];
    Snoc(events, [Drain(calls)]);
    Empty(events);
    RunKeeps(history, events);
    SmoothDrain(w.c, w.file, calls);
    WholeDrainKeeps(w, calls);
    OkMeans(w);
    SettledSnoc(w.log, Batch(Unread(w), true));
    NoOthers(turns, calls);
    Empty(w.typed);
    hide Ok, T.Drain, RequestsIn, Unread, Settled, React, ValidEvent, Smooth, Start, Written, Attempts;
  }

  lemma {:induction false} NoOthers(turns: seq<T.Turn>, calls: nat -> Call)
    requires forall k: nat :: calls(k).others == []
    ensures Others(turns, calls) == []
  {
    if turns != [] {
      NoOthers(turns[..|turns| - 1], calls);
    }
  }

  // ----- a call that fails after the send -----------------------------------------

  /** The message goes out, but its canonical line cannot be appended. */
  function Unlogged(k: nat): Call {
    Call("", Sent(false), true, false, true, [])
  }

  lemma AttemptsSnoc(turns: seq<T.Turn>, t: T.Turn)
    ensures Attempts(turns + [t]) == Attempts(turns) + if t.Called? then Bare([t.line]) else []
  {
    Snoc(turns, [t]);
    Empty(turns);
  }

  lemma BareOne(line: string)
    ensures Bare([line]) == if IsSend(line) then [RStrip(line)] else []
    ensures Bare([]) == []
  {
  }

  lemma UnloggedReturns(k: nat, line: string)
    ensures React(Unlogged)(k, line).ok <==> !IsSend(line)
  {
    hide IsSend;
    assert Returns(line, Unlogged(k)) <==> !IsSend(line);
  }

  /** One more line, given that there was no request before it. */
  lemma OneMoreLine(q: T.Pass, line: string, done: seq<string>)
    requires q.ok && Attempts(q.turns) == [] && Bare(done) == []
    requires (DAY, line) in q.suppress ==> Bracketed(line)
    ensures var p := T.OneLine(DAY, q, line, React(Unlogged));
            var requests := Bare(done + if line == "" then [] else [line]);
            && (p.ok <==> requests == [])
            && (!p.ok ==> Attempts(p.turns) == requests[..1])
  {
    BareAppend(done, if line == "" then [] else [line]);
    BareOne(line);
    UnloggedReturns(T.CallCount(q.turns), line);
    var p := T.OneLine(DAY, q, line, React(Unlogged));
    hide Bare, Attempts, React, Unlogged, Bracketed, T.CallCount;
    if line != "" {
      AttemptsSnoc(q.turns, p.turns[|q.turns|]);
    }
  }

  lemma NoRequests(suppress: set<T.Key>)
    ensures T.RunLines(DAY, [], suppress, React(Unlogged)).ok && Bare(NonEmpty([])) == []
  {
  }

  lemma LastLine(lines: seq<string>, suppress: set<T.Key>)
    requires lines != []
    ensures var q := T.RunLines(DAY, lines[..|lines| - 1], suppress, React(Unlogged));
            T.RunLines(DAY, lines, suppress, React(Unlogged))
            == if q.ok then T.OneLine(DAY, q, lines[|lines| - 1], React(Unlogged)) else q
  {
  }

  /** Such calls stop the drain at the first request. */
  lemma {:induction false} StopsAtRequest(lines: seq<string>, suppress: set<T.Key>)
    requires forall k | k in suppress :: Bracketed(k.1)
    requires forall i | 0 <= i < |lines| :: NoBoundary(lines[i])
    ensures var p, requests := T.RunLines(DAY, lines, suppress, React(Unlogged)), Bare(NonEmpty(lines));
            && (p.ok <==> requests == [])
            && (!p.ok ==> Attempts(p.turns) == requests[..1])
  {
    hide *;
    if lines == [] {
      NoRequests(suppress);
    } else {
      var front, line := lines[..|lines| - 1], lines[|lines| - 1];
      var q := T.RunLines(DAY, front, suppress, React(Unlogged));
      LastLine(lines, suppress);
      StopsAtRequest(front, suppress);
      PassIsGood(front, suppress, Unlogged);
      NonEmptySnoc(lines);
      BareAppend(NonEmpty(front), if line == "" then [] else [line]);
      AttemptsAreRequests(q.turns);
      if q.ok {
        assert (DAY, line) in q.suppress ==> Bracketed((DAY, line).1);
        OneMoreLine(q, line, NonEmpty(front));
      }
    }
  }

  /** The turns of a drain of whole lines. */
  lemma DrainTakesAll(w: World, calls: nat -> Call)
    requires Ok(w) && w.file[w.c.offsets[DAY]..] != []
    ensures T.Drain(w.c, DAY, w.file, React(calls)).1
         == T.RunLines(DAY, SplitLines(Utf8.Decode(w.file[w.c.offsets[DAY]..])), w.c.suppress, React(calls)).turns
  {
    hide RequestsIn, T.RunLines, SplitLines, Utf8.Decode, React, Bracketed, Repeated, Settled, Unread;
    var cursor := w.c.offsets[DAY];
    var rest := w.file[cursor..];
    WholeIsComplete(rest);
    assert w.file[cursor..cursor + |rest|] == rest;
  }

  lemma OkSuppress(w: World)
    requires Ok(w)
    ensures DAY in w.c.offsets && w.c.offsets[DAY] <= |w.file| && forall k | k in w.c.suppress :: Bracketed(k.1)
  {
    hide Repeated, Bracketed, RequestsIn, Settled, Unread;
  }

  lemma RequestsAre(bytes: T.Bytes)
    ensures RequestsIn(bytes) == Bare(NonEmpty(SplitLines(Utf8.Decode(bytes))))
  {
    hide SplitLines, Utf8.Decode, Bare, NonEmpty;
  }

  lemma UnloggedDrain(w: World)
    requires Ok(w) && Unread(w) != []
    ensures var turns := T.Drain(w.c, DAY, w.file, React(Unlogged)).1;
            !T.NoneRaised(turns) && Attempts(turns) == Unread(w)[..1] && RequestsIn(Written(turns, Unlogged)) == []
  {
    hide *;
    OkSuppress(w);
    UnreadIs(w);
    var rest := w.file[w.c.offsets[DAY]..];
    var lines, turns := SplitLines(Utf8.Decode(rest)), T.Drain(w.c, DAY, w.file, React(Unlogged)).1;
    NothingRequested();
    RequestsAre(rest);
    SplitHasNoBoundary(Utf8.Decode(rest));
    StopsAtRequest(lines, w.c.suppress);
    DrainTakesAll(w, Unlogged);
    T.PassCompletes(DAY, lines, w.c.suppress, React(Unlogged));
    UnloggedWrites(w);
  }

  lemma UnloggedWrites(w: World)
    requires Ok(w)
    ensures RequestsIn(Written(T.Drain(w.c, DAY, w.file, React(Unlogged)).1, Unlogged)) == []
  {
    hide *;
    DrainIsGood(w, Unlogged);
    var turns := T.Drain(w.c, DAY, w.file, React(Unlogged)).1;
    UnloggedIsValid();
    WrittenIsQuiet(turns, Unlogged);
    NoOthers(turns, Unlogged);
    NothingRequested();
  }

  lemma UnloggedIsValid()
    ensures ValidEvent(Drain(Unlogged)) && (forall k: nat :: ValidCall(Unlogged(k))) && forall k: nat ::
            Unlogged(k).others == []
  {
  }

  /** One such call sends the first request, and the next whole drain sends it again. */
  lemma UnloggedSendsAgain(history: T.Bytes, events: seq<Event>, calls: nat -> Call)
    requires (forall e | e in events :: ValidEvent(e)) && ValidEvent(Drain(calls)) && Smooth(Drain(calls))
    requires Unread(Run(Start(history), events)) != []
    ensures var w := Run(Start(history), events);
            Next(Next(w, Drain(Unlogged)), Drain(calls)).log
                == w.log + [Batch(Unread(w)[..1], false)] + [Batch(Unread(w), true)]
  {
    var w := Run(Start(history), events);
    var w1 := Next(w, Drain(Unlogged));
    RunKeeps(history, events);
    hide Run, Start;
    UnloggedIsValid();
    UnloggedDrain(w);
    StoppedDrainKeeps(w, Unlogged);
    UnreadStays(w);
    SmoothDrain(w1.c, w1.file, calls);
    WholeDrainKeeps(w1, calls);
    hide Ok, T.Drain, Unread, React, Attempts, T.NoneRaised, Written, Others, Smooth, ValidEvent, Unlogged;
  }

  lemma UnreadStays(w: World)
    requires Ok(w) && Unread(w) != []
    ensures Unread(Next(w, Drain(Unlogged))) == Unread(w)
  {
    var turns := T.Drain(w.c, DAY, w.file, React(Unlogged)).1;
    var t := Next(w, Drain(Unlogged));
    UnloggedDrain(w);
    UnloggedIsValid();
    StoppedDrainKeeps(w, Unlogged);
    DrainIsGood(w, Unlogged);
    WrittenIsQuiet(turns, Unlogged);
    AppendBalances(w.file, w.base, w.c.offsets[DAY], w.typed, Settled(w.log), Written(turns, Unlogged),
        Others(turns, Unlogged));
    UnreadIs(w);
    UnreadIs(t);
    Empty(Unread(w));
    hide T.Drain, RequestsIn, Unread, React, Attempts, Written, Others, Repeated, Balanced, Settled, Bracketed,
        GoodTurns, TurnLines,
         T.NoneRaised, T.LinesOf;
  }
}
