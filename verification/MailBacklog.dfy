/** Crashes and repetitions of the boot-time drain, and of whole runs. */
module MailBacklog {
  import opened Wrappers
  import opened MailSpec
  import opened MailSafety
  import opened MailCosts
  import opened MailFrames
  import opened MailRepeats
  import opened Seqs

  /** A crash point of a boot-time drain whose one event lists `rows`. */
  ghost predicate BootPoint(w0: World, w: World, rows: seq<RowId>, mail: Mail) {
    && Descends(w0, w)
    && (w.told == w0.told || w.told == w0.told + [rows])
    && Backed(w, [], mail)
  }

  /** Announced rows that could be announced again. */
  function AtRisk(w: World, mail: Mail): set<RowId> {
    Exposed(w, Heard(w.told), mail)
  }

  /** Only rows that were at risk can be announced again. */
  ghost predicate RowsOk(w0: World, rows: seq<RowId>, mail: Mail) {
    forall r | r in rows && r in Heard(w0.told) :: r in AtRisk(w0, mail)
  }

  /** Old announcements are never put at risk anew: only what a drain announces itself can be. */
  lemma OldRisk(w0: World, w: World, mail: Mail)
    requires Descends(w0, w) && Backed(w0, [], mail)
    ensures forall r | r in AtRisk(w, mail) && r in Heard(w0.told) :: r in AtRisk(w0, mail)
  {
    hide Heard;
  }

  /** Repetitions so far, and those that may still come. */
  function Risk(w: World, mail: Mail): nat {
    Repeats(w.told) + |AtRisk(w, mail)|
  }

  /** A crash costs the rows of the event, if the event went out; a drain that ends costs those in `gone`. */
  lemma BootRisk(w0: World, w: World, rows: seq<RowId>, gone: set<RowId>, mail: Mail)
    requires BootPoint(w0, w, rows, mail) && RowsOk(w0, rows, mail) && Backed(w0, [], mail)
    requires forall r | r in rows && r in AtRisk(w, mail) :: r in gone
    ensures Risk(w, mail) <= Risk(w0, mail) + if w.told == w0.told then 0 else |SetOf(rows) * gone|
  {
    OldRisk(w0, w, mail);
    HeardMore(w0.told, rows);
    var again, e0 := SetOf(rows) * Heard(w0.told), AtRisk(w0, mail);
    assert again <= e0;
    assert AtRisk(w, mail) <= Heard(w.told);
    if w.told == w0.told {
      SubsetSize(AtRisk(w, mail), e0);
    } else {
      hide Repeats;
      RiskSplit(AtRisk(w, mail), e0, again, SetOf(rows), gone);
    }
  }

  lemma RiskSplit(after: set<RowId>, before: set<RowId>, again: set<RowId>, rows: set<RowId>, gone: set<RowId>)
    requires again <= before && again <= rows
    requires forall r | r in after :: if r in rows then r in gone else r in before
    ensures |again| + |after| <= |before| + |rows * gone|
  {
    SubsetSize(after, (before - again) + rows * gone);
  }

  // ----- every world of a boot-time drain is such a point ---------------------------------

  ghost predicate BootInv(w0: World, s: State, rows: seq<RowId>, mail: Mail) {
    && BootPoint(w0, s.w, rows, mail) && KeysFrom(w0, s.parked)
    && (forall w | w in s.trace :: BootPoint(w0, w, rows, mail))
    && s.w.lastRowid <= s.last && s.w.lastAnnounced <= s.announced
  }

  lemma BootSame(w0: World, a: World, b: World, rows: seq<RowId>, mail: Mail)
    requires BootPoint(w0, a, rows, mail) && SameFile(a, b)
    ensures BootPoint(w0, b, rows, mail)
  {
    BackedSame(a, b, mail);
    hide Backed;
  }

  lemma BackedSame(a: World, b: World, mail: Mail)
    requires Backed(a, [], mail) && SameFile(a, b)
    ensures Backed(b, [], mail)
  {
    assert forall r :: Filed(a, mail, r) ==> Filed(b, mail, r);
    hide Heard, Filed;
  }

  lemma BootTake(w0: World, s: State, t: State, rows: seq<RowId>, mail: Mail)
    requires BootInv(w0, s, rows, mail) && SameFiles(s, t.(announced := s.announced)) && s.announced <= t.announced
    requires KeysFrom(w0, t.parked) && s.last <= t.last
    ensures BootInv(w0, t, rows, mail)
  {
    BootSame(w0, s.w, t.w, rows, mail);
    forall w | w in t.trace ensures BootPoint(w0, w, rows, mail) {
      var i :| 0 <= i < |t.trace| && t.trace[i] == w;
      if i < |s.trace| {
        assert s.trace[i] == w && w in s.trace;
      } else {
        BootSame(w0, s.w, w, rows, mail);
      }
    }
    hide BootPoint, SameFile, KeysFrom;
  }

  lemma BootWrite(w0: World, s: State, w: World, rows: seq<RowId>, mail: Mail)
    requires BootInv(w0, s, rows, mail) && BootPoint(w0, w, rows, mail)
    requires w.lastRowid <= s.last && w.lastAnnounced <= s.announced
    ensures BootInv(w0, Write(s, w), rows, mail)
  {
    hide BootPoint, KeysFrom;
    Members(s.trace, [w]);
  }

  lemma BootShift(w0: World, s: State, input: Input, rows: seq<RowId>, mail: Mail)
    requires BootInv(w0, s, rows, mail) && ValidShift(s, input)
    requires s.w.past.index == w0.past.index && s.w.past.highest == w0.past.highest
    ensures BootInv(w0, Shift(s, input), rows, mail)
  {
    var v := Shift(s, input).w;
    assert BootPoint(w0, v, rows, mail) by { hide Heard; }
    BootWrite(w0, s, v, rows, mail);
  }

  lemma BootParked(w0: World, s: State, rows: seq<RowId>, mail: Mail)
    requires BootInv(w0, s, rows, mail)
    ensures BootInv(w0, SaveParked(s), rows, mail)
  {
    BackedMarks(s.w, [], s.parked, s.w.lastRowid, s.w.lastAnnounced, mail);
    assert BootPoint(w0, SaveParked(s).w, rows, mail) by { hide Backed; }
    BootWrite(w0, s, SaveParked(s).w, rows, mail);
  }

  lemma BootCursor(w0: World, s: State, rows: seq<RowId>, mail: Mail)
    requires BootInv(w0, s, rows, mail)
    ensures BootInv(w0, SaveCursor(s, s.last), rows, mail)
  {
    var v := SaveCursor(s, s.last).w;
    assert Backed(v, [], mail) by { hide Heard, Descends; }
    assert BootPoint(w0, v, rows, mail) by { hide Backed; }
    BootWrite(w0, s, v, rows, mail);
  }

  lemma BootEmit(w0: World, s: State, rows: seq<RowId>, mail: Mail)
    requires BootInv(w0, s, rows, mail) && s.w.told == w0.told
    requires forall r | r in rows :: Filed(s.w, mail, r)
    ensures BootInv(w0, Emit(s, rows), rows, mail)
  {
    var v := Emit(s, rows).w;
    BackedEmit(s.w, rows, mail);
    hide Backed;
    assert BootPoint(w0, v, rows, mail);
    BootWrite(w0, s, v, rows, mail);
  }

  lemma BackedEmit(w: World, rows: seq<RowId>, mail: Mail)
    requires Backed(w, [], mail) && forall r | r in rows :: Filed(w, mail, r)
    ensures Backed(w.(told := w.told + [rows]), [], mail)
  {
    var v := w.(told := w.told + [rows]);
    HeardMore(w.told, rows);
    assert forall r | r in SetOf(rows) :: r in rows;
    assert forall r :: Filed(w, mail, r) ==> Filed(v, mail, r);
    hide Heard, SetOf, Repeats, Filed;
  }

  lemma {:induction false} RecordedFrom(done: seq<Success>, announced: nat, r: RowId)
    requires r in Recorded(done, announced)
    ensures announced < r && exists d :: d in done && d.id == r && !d.result.Skip?
  {
    if r in Recorded(done[..|done| - 1], announced) {
      RecordedFrom(done[..|done| - 1], announced, r);
    }
  }

  /** The rows that the one event of a boot-time drain lists. */
  function Backlog(w: World, input: Input, mail: Mail): seq<RowId> {
    var (s1, retried) := RetryParked(Begin(w, []), input.parkedRows, mail);
    if input.newRows.None? then [] else
      Recorded(retried, w.lastAnnounced)
      + Recorded(CatchupRows(Shift(s1, input), input.newRows.value, mail).1, w.lastAnnounced)
  }

  /** The first half: the retried rows and the change of the index. */
  lemma BootRetry(w: World, input: Input, rows: seq<RowId>, mail: Mail)
    requires Backed(w, [], mail) && ValidInput(w, input)
    ensures var (s1, retried) := RetryParked(Begin(w, []), input.parkedRows, mail);
            var s2 := Shift(s1, input);
            && BootInv(w, s2, rows, mail) && s2.w.told == w.told && s2.last == w.lastRowid
            && s2.announced == w.lastAnnounced && s2.w.past.highest == input.highest && s2.w.past.index == input.index
            && (forall r | r in s2.parked :: r in w.parked)
            && DoneOk(w.archive, s2.w.archive, retried, mail)
            && (forall d | d in retried :: d.id in w.parked && d.id in w.past.index && d.id !in s2.parked)
            && (if input.parkedRows.Some? then forall d | d in retried ::
                d.id in Found(input.parkedRows.value) else retried == [])
  {
    var s := Begin(w, []);
    RetryFrame(s, input.parkedRows, mail);
    var s1 := RetryParked(s, input.parkedRows, mail).0;
    assert BootInv(w, s, rows, mail) by { hide Backed; }
    BootTake(w, s, s1, rows, mail);
    BootShift(w, s1, input, rows, mail);
    hide BootInv, Backed, RetryParked, DoneOk, Found;
  }

  /** The second half: the new rows. */
  lemma BootDelta(w: World, s: State, input: Input, rows: seq<RowId>, mail: Mail)
    requires input.newRows.Some? && ValidDelta(input.index, w.lastRowid, input.newRows.value)
    requires forall r | r in input.index :: r <= input.highest
    requires BootInv(w, s, rows, mail) && s.last == w.lastRowid && s.w.past.highest == input.highest
    ensures var news := input.newRows.value;
            var (t, done) := CatchupRows(s, news, mail);
            && BootInv(w, t, rows, mail) && t.w.told == s.w.told && t.w.past.highest == input.highest
            && t.w.past.index == s.w.past.index && s.w.archive <= t.w.archive
            && DoneOk(s.w.archive, t.w.archive, done, mail)
            && (forall d | d in done ::
                w.lastRowid < d.id && d.id in input.index && (d.result.Skip? || d.id <= t.announced))
            && (forall r | r in t.parked :: r in s.parked || r in Missing(news))
            && (forall r | r in input.index :: r <= t.last)
  {
    var news := input.newRows.value;
    DeltaBounds(input.index, input.highest, w.lastRowid, news);
    CatchupRowsFrame(s, news, mail);
    var t := CatchupRows(s, news, mail).0;
    forall r | r in Missing(news) ensures w.lastRowid < r {
      assert r in Ids(news);
    }
    assert KeysFrom(w, t.parked) by { hide BootPoint; }
    BootTake(w, s, t, rows, mail);
    forall r | r in input.index ensures r <= t.last {
      if w.lastRowid < r {
        assert r in Ids(news);
      }
    }
    hide BootInv, CatchupRows, DoneOk, Missing, Rising;
  }

  /** Why a row may be listed: it is above the mark, filed, and was parked or is new. */
  ghost predicate Listable(w: World, archive: multiset<Key>, input: Input, mail: Mail, r: RowId) {
    && w.lastAnnounced < r && r <= input.highest && mail(r) in archive
    && ((r in w.parked && r in w.past.index) || (w.lastRowid < r && r in input.index))
  }

  lemma RecordedListable(w: World, archive: multiset<Key>, input: Input, mail: Mail, before: multiset<Key>,
                         after: multiset<Key>,
                         done: seq<Success>)
    requires DoneOk(before, after, done, mail) && after <= archive
    requires forall d | d in done ::
             d.id <= input.highest
             && ((d.id in w.parked && d.id in w.past.index) || (w.lastRowid < d.id && d.id in input.index))
    ensures forall r | r in Recorded(done, w.lastAnnounced) :: Listable(w, archive, input, mail, r)
  {
    hide Recorded;
    forall r | r in Recorded(done, w.lastAnnounced) ensures Listable(w, archive, input, mail, r) {
      RecordedFrom(done, w.lastAnnounced, r);
    }
  }

  /** The world in which a boot-time drain emits its event. */
  function BeforeEvent(w: World, input: Input, mail: Mail): State
    requires input.newRows.Some?
  {
    CatchupRows(Shift(RetryParked(Begin(w, []), input.parkedRows, mail).0, input), input.newRows.value, mail).0
  }

  lemma BacklogRows(w: World, input: Input, mail: Mail)
    requires Backed(w, [], mail) && ValidInput(w, input) && input.newRows.Some?
    requires forall r | r in w.past.index :: r <= w.past.highest
    ensures forall r | r in Backlog(w, input, mail) ::
            Listable(w, BeforeEvent(w, input, mail).w.archive, input, mail, r)
  {
    var (s1, retried) := RetryParked(Begin(w, []), input.parkedRows, mail);
    var s2 := Shift(s1, input);
    BootRetry(w, input, [], mail);
    BootDelta(w, s2, input, [], mail);
    var (t, done) := CatchupRows(s2, input.newRows.value, mail);
    var a, b := Recorded(retried, w.lastAnnounced), Recorded(done, w.lastAnnounced);
    assert Backlog(w, input, mail) == a + b && BeforeEvent(w, input, mail) == t;
    assert w.past.highest <= input.highest;
    hide *;
    RecordedListable(w, t.w.archive, input, mail, w.archive, s2.w.archive, retried);
    RecordedListable(w, t.w.archive, input, mail, s2.w.archive, t.w.archive, done);
    Members(a, b);
  }

  /** A row of the backlog that was announced before was exposed before. */
  lemma BacklogOk(w: World, input: Input, mail: Mail)
    requires Backed(w, [], mail) && ValidInput(w, input)
    requires forall r | r in w.past.index :: r <= w.past.highest
    ensures RowsOk(w, Backlog(w, input, mail), mail)
  {
    var rows := Backlog(w, input, mail);
    if input.newRows.Some? {
      BacklogRows(w, input, mail);
      hide Backlog, BeforeEvent, Heard;
    }
  }
}
