/** The WhatsApp history buffer: replayed messages are held back until the stream falls quiet, then announced
    together. */
module HistorySync {
  import opened Seqs

  /** A line from the bridge that is an inbound message; `history` marks a replayed one. */
  datatype Message = Message(phone: string, slug: string, text: string, dayFile: string, history: bool)

  datatype Happening = Arrives(message: Message) | OtherLine | TimerFires

  /** One thread of a backlog event. */
  datatype Thread = Thread(inbound: nat, lastText: string, dayFiles: set<string>)

  datatype Backlog = Backlog(order: seq<string>, threads: map<string, Thread>, total: nat)

  /** `armed`: a flush task is waiting. `flushed` lists what each backlog event was made of. */
  datatype Reader = Reader(buffer: seq<Message>, armed: bool, flushed: seq<seq<Message>>, announced: seq<Message>)

  const FRESH: Reader := Reader([], false, [], [])

  predicate Counts(m: Message) {
    m.phone != "" && m.text != "" && m.history
  }

  function Flush(r: Reader): Reader {
    if r.buffer == [] then r.(armed := false) else Reader([], false, r.flushed + [r.buffer], r.announced)
  }

  /** A new history message restarts the timer. A timer that was never set cannot fire. */
  function React(r: Reader, h: Happening): Reader {
    match h
    case Arrives(m) =>
      if m.phone == "" || m.text == "" then r
      else if m.history then r.(buffer := r.buffer + [m], armed := true)
      else r.(announced := r.announced + [m])
    case OtherLine => r
    case TimerFires => if r.armed then Flush(r) else r
  }

  function Run(r: Reader, hs: seq<Happening>): Reader {
    if hs == [] then r else React(Run(r, hs[..|hs| - 1]), hs[|hs| - 1])
  }

  /** The history messages that name a sender and say something, in order of arrival. */
  function History(hs: seq<Happening>): seq<Message> {
    if hs == [] then [] else
      var h := hs[|hs| - 1];
      History(hs[..|hs| - 1]) + if h.Arrives? && Counts(h.message) then [h.message] else []
  }

  function Concat(groups: seq<seq<Message>>): seq<Message> {
    if groups == [] then [] else Concat(groups[..|groups| - 1]) + groups[|groups| - 1]
  }

  lemma ConcatSnoc(groups: seq<seq<Message>>, last: seq<Message>)
    ensures Concat(groups + [last]) == Concat(groups) + last
  {
    assert (groups + [last])[..|groups|] == groups;
  }

  /** At every moment, what was flushed and what is held make up the history so far; and while something is
      held, a timer is set that will flush it, even if reading breaks off. */
  lemma {:induction false} NothingIsLost(hs: seq<Happening>)
    ensures var r := Run(FRESH, hs);
            && Concat(r.flushed) + r.buffer == History(hs)
            && (r.buffer != [] ==> r.armed)
            && (forall g | g in r.flushed :: g != [])
  {
    if hs != [] {
      NothingIsLost(hs[..|hs| - 1]);
      StepLosesNothing(Run(FRESH, hs[..|hs| - 1]), hs[|hs| - 1]);
      var r := Run(FRESH, hs[..|hs| - 1]);
      var h := hs[|hs| - 1];
      hide Run, React, Concat;
      if h.Arrives? && Counts(h.message) {
        Associate(Concat(r.flushed), r.buffer, [h.message]);
      }
    }
  }

  lemma FlushLosesNothing(r: Reader)
    requires forall g | g in r.flushed :: g != []
    ensures var t := Flush(r);
            Concat(t.flushed) == Concat(r.flushed) + r.buffer && t.buffer == [] && forall g | g in t.flushed :: g != []
  {
    ConcatSnoc(r.flushed, r.buffer);
    Members(r.flushed, [r.buffer]);
    Empty(Concat(r.flushed));
    hide Concat;
  }

  lemma StepLosesNothing(r: Reader, h: Happening)
    requires (r.buffer != [] ==> r.armed) && forall g | g in r.flushed :: g != []
    ensures var t := React(r, h);
            && Concat(t.flushed) + t.buffer
                == Concat(r.flushed) + (r.buffer + if h.Arrives? && Counts(h.message) then [h.message] else [])
            && (t.buffer != [] ==> t.armed) && (forall g | g in t.flushed :: g != [])
  {
    hide Concat, Flush;
    FlushLosesNothing(r);
    Empty(r.buffer);
    Empty(Concat(r.flushed) + r.buffer);
  }

  /** A stream that ends in EOF: every history message is in exactly one backlog, in order of arrival. */
  lemma EofFlushesAll(hs: seq<Happening>)
    ensures var r := Flush(Run(FRESH, hs));
            Concat(r.flushed) == History(hs) && r.buffer == [] && forall g | g in r.flushed :: g != []
  {
    NothingIsLost(hs);
    var r := Run(FRESH, hs);
    ConcatSnoc(r.flushed, r.buffer);
    Members(r.flushed, [r.buffer]);
    Empty(Concat(r.flushed));
  }

  /** A reader that breaks off with an error leaves its timer set; when that fires, nothing is missing either. */
  lemma BrokenStreamFlushesLater(hs: seq<Happening>)
    ensures Concat(Run(FRESH, hs + [TimerFires]).flushed) == History(hs)
  {
    NothingIsLost(hs);
    assert (hs + [TimerFires])[..|hs|] == hs;
    var r := Run(FRESH, hs);
    ConcatSnoc(r.flushed, r.buffer);
    Empty(Concat(r.flushed));
  }

  /** The live messages that name a sender and say something, in order of arrival. */
  function Live(hs: seq<Happening>): seq<Message> {
    if hs == [] then [] else
      var h := hs[|hs| - 1];
      Live(hs[..|hs| - 1])
      + if h.Arrives? && h.message.phone != "" && h.message.text != "" && !h.message.history then [h.message] else []
  }

  /** At every moment, the live messages so far have been announced, each once, and nothing else has: no timer and no
      replayed message comes in between. */
  lemma {:induction false} LiveIsAnnounced(hs: seq<Happening>)
    ensures Run(FRESH, hs).announced == Live(hs)
  {
    if hs != [] {
      LiveIsAnnounced(hs[..|hs| - 1]);
      Empty(Live(hs[..|hs| - 1]));
    }
  }

  /** Each firing of a timer that was set closes one group: what arrived since the last one. */
  lemma FiringClosesGroup(hs: seq<Happening>)
    ensures var r, t := Run(FRESH, hs), Run(FRESH, hs + [TimerFires]);
            && t.buffer == [] && !t.armed && t.announced == r.announced
            && t.flushed == if r.buffer == [] then r.flushed else r.flushed + [r.buffer]
  {
    NothingIsLost(hs);
    assert (hs + [TimerFires])[..|hs|] == hs;
  }

  // ----- one backlog event -------------------------------------------------------------------

  function Tally(b: Backlog, m: Message): Backlog {
    var was := if m.slug in b.threads then b.threads[m.slug] else Thread(0, "", {});
    var now := Thread(was.inbound + 1, m.text, was.dayFiles + if m.dayFile != "" then {m.dayFile} else {});
    Backlog(if m.slug in b.threads then b.order else b.order + [m.slug], b.threads[m.slug := now], b.total + 1)
  }

  function Summary(ms: seq<Message>): Backlog {
    if ms == [] then Backlog([], map[], 0) else Tally(Summary(ms[..|ms| - 1]), ms[|ms| - 1])
  }

  function Of(ms: seq<Message>, slug: string): seq<Message> {
    if ms == [] then [] else Of(ms[..|ms| - 1], slug) + if ms[|ms| - 1].slug == slug then [ms[|ms| - 1]] else []
  }

  function Total(order: seq<string>, threads: map<string, Thread>): nat
    requires forall s | s in order :: s in threads
  {
    if order == [] then 0 else Total(order[..|order| - 1], threads) + threads[order[|order| - 1]].inbound
  }

  function Files(ms: seq<Message>): set<string> {
    set m | m in ms && m.dayFile != "" :: m.dayFile
  }

  ghost predicate ThreadOk(ms: seq<Message>, slug: string, t: Thread) {
    var own := Of(ms, slug);
    own != [] && t.inbound == |own| && t.lastText == own[|own| - 1].text && t.dayFiles == Files(own)
  }

  /** The threads of an event, each listed once, add up to its total. */
  ghost predicate AddsUp(b: Backlog) {
    && (forall s | s in b.order :: s in b.threads)
    && (forall s | s in b.threads :: s in b.order)
    && (forall i, j | 0 <= i < j < |b.order| :: b.order[i] != b.order[j])
    && Total(b.order, b.threads) == b.total
  }

  /** Each thread of an event describes its own messages, and no message is left out. */
  ghost predicate Describes(ms: seq<Message>, b: Backlog) {
    && b.total == |ms|
    && (forall s | s in b.threads :: ThreadOk(ms, s, b.threads[s]))
    && (forall s | s !in b.threads :: Of(ms, s) == [])
  }

  lemma {:induction false} TotalGrows(order: seq<string>, threads: map<string, Thread>, slug: string, t: Thread)
    requires forall s | s in order :: s in threads
    requires forall i, j | 0 <= i < j < |order| :: order[i] != order[j]
    requires slug in threads && t.inbound == threads[slug].inbound + 1
    ensures Total(order, threads[slug := t]) == Total(order, threads) + if slug in order then 1 else 0
  {
    if order != [] {
      var front := order[..|order| - 1];
      TotalGrows(front, threads, slug, t);
      assert order == front + [order[|order| - 1]];
    }
  }

  lemma {:induction false} TotalOther(order: seq<string>, threads: map<string, Thread>, slug: string, t: Thread)
    requires forall s | s in order :: s in threads
    requires slug !in order
    ensures Total(order, threads[slug := t]) == Total(order, threads)
  {
    if order != [] {
      TotalOther(order[..|order| - 1], threads, slug, t);
    }
  }

  lemma FilesSnoc(own: seq<Message>, m: Message)
    ensures Files(own + [m]) == Files(own) + if m.dayFile != "" then {m.dayFile} else {}
  {
    Members(own, [m]);
  }

  lemma OfSnoc(ms: seq<Message>, m: Message, slug: string)
    ensures Of(ms + [m], slug) == Of(ms, slug) + if m.slug == slug then [m] else []
  {
    assert (ms + [m])[..|ms|] == ms;
  }

  lemma TallyDescribes(ms: seq<Message>, b: Backlog, m: Message)
    requires Describes(ms, b)
    ensures Describes(ms + [m], Tally(b, m))
  {
    var c := Tally(b, m);
    forall s | s in c.threads ensures ThreadOk(ms + [m], s, c.threads[s]) {
      TallyThread(ms, b, m, s);
    }
    hide ThreadOk;
    forall s | s !in c.threads ensures Of(ms + [m], s) == [] {
      OfSnoc(ms, m, s);
    }
  }

  lemma TallyThread(ms: seq<Message>, b: Backlog, m: Message, s: string)
    requires s in b.threads ==> ThreadOk(ms, s, b.threads[s])
    requires s !in b.threads ==> Of(ms, s) == []
    requires s in Tally(b, m).threads
    ensures ThreadOk(ms + [m], s, Tally(b, m).threads[s])
  {
    OfSnoc(ms, m, s);
    FilesSnoc(Of(ms, s), m);
    Empty(Of(ms, s));
    assert Files([]) == {};
    hide Of, Files;
  }

  lemma KnownAddsUp(b: Backlog, slug: string, now: Thread)
    requires AddsUp(b) && slug in b.threads && now.inbound == b.threads[slug].inbound + 1
    ensures AddsUp(Backlog(b.order, b.threads[slug := now], b.total + 1))
  {
    TotalGrows(b.order, b.threads, slug, now);
    hide Total;
  }

  lemma OrderMore(b: Backlog, slug: string, now: Thread)
    requires AddsUp(b) && slug !in b.threads
    ensures var order, threads := b.order + [slug], b.threads[slug := now];
            && (forall s | s in order :: s in threads) && (forall s | s in threads :: s in order)
            && (forall i, j | 0 <= i < j < |order| :: order[i] != order[j])
  {
    Members(b.order, [slug]);
    assert slug !in b.order;
    hide Total;
  }

  lemma TotalSnoc(order: seq<string>, slug: string, threads: map<string, Thread>)
    requires forall s | s in order + [slug] :: s in threads
    ensures (forall s | s in order :: s in threads) && slug in threads
    ensures Total(order + [slug], threads) == Total(order, threads) + threads[slug].inbound
  {
    Members(order, [slug]);
    assert (order + [slug])[..|order|] == order;
  }

  lemma NewTotal(b: Backlog, slug: string, now: Thread)
    requires AddsUp(b) && slug !in b.threads
    requires forall s | s in b.order + [slug] :: s in b.threads[slug := now]
    ensures Total(b.order + [slug], b.threads[slug := now]) == b.total + now.inbound
  {
    TotalSnoc(b.order, slug, b.threads[slug := now]);
    TotalOther(b.order, b.threads, slug, now);
    hide Total;
  }

  lemma NewAddsUp(b: Backlog, slug: string, now: Thread)
    requires AddsUp(b) && slug !in b.threads && now.inbound == 1
    ensures AddsUp(Backlog(b.order + [slug], b.threads[slug := now], b.total + 1))
  {
    hide Total;
    OrderMore(b, slug, now);
    NewTotal(b, slug, now);
  }

  lemma TallyAddsUp(b: Backlog, m: Message)
    requires AddsUp(b)
    ensures AddsUp(Tally(b, m))
  {
    hide AddsUp;
    if m.slug in b.threads {
      KnownAddsUp(b, m.slug, Tally(b, m).threads[m.slug]);
    } else {
      NewAddsUp(b, m.slug, Tally(b, m).threads[m.slug]);
    }
  }

  lemma NoneAddsUp()
    ensures AddsUp(Backlog([], map[], 0)) && Describes([], Backlog([], map[], 0))
  {
  }

  /** A backlog event counts each of its messages once: per thread, with that thread's last text and day files,
      and the thread counts add up to the total. */
  lemma {:induction false} SummaryIsExact(ms: seq<Message>)
    ensures AddsUp(Summary(ms)) && Describes(ms, Summary(ms))
  {
    hide AddsUp, Describes, Tally;
    if ms == [] {
      NoneAddsUp();
    } else {
      var front := ms[..|ms| - 1];
      SummaryIsExact(front);
      TallyAddsUp(Summary(front), ms[|ms| - 1]);
      TallyDescribes(front, Summary(front), ms[|ms| - 1]);
      Front(ms, |ms| - 1);
      Whole(ms);
    }
  }

  // ----- the reader as it runs -----------------------------------------------------------------

  class BridgeReader {
    var buffer: seq<Message>
    var armed: bool
    var flushed: seq<seq<Message>>
    var announced: seq<Message>
    var events: seq<Backlog>

    constructor ()
      ensures View() == FRESH && Truthful()
    {
      buffer, armed, flushed, announced, events := [], false, [], [], [];
    }

    function View(): Reader
      reads this
    {
      Reader(buffer, armed, flushed, announced)
    }

    /** Each event sums up its own group of messages. */
    ghost predicate Truthful()
      reads this
    {
      |events| == |flushed| && forall i | 0 <= i < |events| :: events[i] == Summary(flushed[i])
    }

    method EmitBacklog(messages: seq<Message>)
      requires Truthful()
      modifies this`events, this`flushed
      ensures Truthful() && flushed == old(flushed) + [messages]
    {
      var order: seq<string>, threads: map<string, Thread>, total := [], map[], 0;
      for i := 0 to |messages|
        invariant Backlog(order, threads, total) == Summary(messages[..i])
        invariant events == old(events) && flushed == old(flushed)
      {
        var m := messages[i];
        Front(messages, i);
        ghost var before := Backlog(order, threads, total);
        if m.slug !in threads {
          threads := threads[m.slug := Thread(0, "", {})];
          order := order + [m.slug];
        }
        var t := threads[m.slug];
        threads := threads[m.slug :=
            Thread(t.inbound + 1, m.text, t.dayFiles + if m.dayFile != "" then {m.dayFile} else {})];
        total := total + 1;
        assert threads == Tally(before, m).threads;
      }
      Whole(messages);
      events := events + [Backlog(order, threads, total)];
      flushed := flushed + [messages];
    }

    /** The flush task wakes up, or the stream is over. */
    method FlushNow()
      requires Truthful()
      modifies this
      ensures Truthful() && View() == Flush(old(View()))
    {
      if buffer != [] {
        EmitBacklog(buffer);
        buffer := [];
      }
      armed := false;
    }

    /** Reads to EOF; `hs` interleaves the lines with the firings of the timer. */
    method ReadStdout(hs: seq<Happening>)
      requires View() == FRESH && Truthful()
      modifies this
      ensures Truthful() && Concat(flushed) == History(hs) && buffer == []
      ensures announced == Live(hs)
    {
      for i := 0 to |hs|
        invariant Truthful() && View() == Run(FRESH, hs[..i])
      {
        Front(hs, i);
        match hs[i] {
          case Arrives(m) =>
            if m.phone != "" && m.text != "" {
              if m.history {
                buffer := buffer + [m];
                armed := true;
              } else {
                announced := announced + [m];
              }
            }
          case OtherLine =>
          case TimerFires =>
            if armed {
              FlushNow();
            }
        }
      }
      Whole(hs);
      EofFlushesAll(hs);
      LiveIsAnnounced(hs);
      FlushNow();
    }
  }
}
