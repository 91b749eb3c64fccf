/** How much a live drain, and a crash in it, can make the driver repeat itself. */
module MailRepeats {
  import opened Wrappers
  import opened MailSpec
  import opened MailSafety
  import opened MailFrames
  import opened MailCosts
  import opened Seqs

  /** Whatever was announced is in the archive, and no rowid beyond the highest was announced. */
  ghost predicate Backed(w: World, buffer: seq<RowId>, mail: Mail) {
    forall r | r in Heard(w.told) || r in buffer :: Filed(w, mail, r)
  }

  predicate Filed(w: World, mail: Mail, r: RowId) {
    mail(r) in w.archive && r <= w.past.highest
  }

  /** What every world of a drain keeps of the world it started from. */
  ghost predicate Descends(w0: World, w: World) {
    && w0.lastRowid <= w.lastRowid && w0.lastAnnounced <= w.lastAnnounced
    && w0.archive <= w.archive && w0.told <= w.told && w0.past.highest <= w.past.highest
    && KeysFrom(w0, w.parked)
    && (forall r | r in w.past.index :: r in w0.past.index || w0.past.highest < r)
  }

  /** The parked map only ever takes in new rows. */
  ghost predicate KeysFrom(w0: World, parked: map<RowId, nat>) {
    forall r | r in parked :: r in w0.parked || w0.lastRowid < r
  }

  function FoundBy(rows: Option<seq<Row>>): set<RowId> {
    if rows.Some? then Found(rows.value) else {}
  }

  /** Rows without Message-ID that lie above the cursor although they are parked, and whose body a query of the
      drain finds. Both queries see such rows, which exist only after a crash between the two state files. */
  function Strays(w: World, input: Input, mail: Mail): set<RowId> {
    set r | r in w.parked && w.lastRowid < r && Nameless(mail, r)
            && (r in FoundBy(input.parkedRows) || r in FoundBy(input.newRows))
  }

  // ----- what is known of the rows a live drain announces --------------------------------

  /** `a` are the rows announced as retried, `b` those announced as new. A row that had been announced before has
      no Message-ID. */
  ghost predicate Known(w0: World, told0: seq<seq<RowId>>, a: set<RowId>, b: set<RowId>, strays: set<RowId>,
                        mail: Mail) {
    && (forall r | r in a :: r in w0.parked && (Nameless(mail, r) && w0.lastRowid < r ==> r in strays))
    && (forall r | r in b :: w0.lastRowid < r && (Nameless(mail, r) && r in w0.parked ==> r in strays))
    && (forall r | r in a && r in b :: Nameless(mail, r))
    && (forall r | r in a + b && Times(told0, r) > 0 :: Open(w0, mail, r))
  }

  /** Where an announced row can still be parked. */
  predicate ParkedOk(w0: World, parked: map<RowId, nat>, a: set<RowId>, b: set<RowId>, r: RowId) {
    r in parked ==> if r in b then r in w0.parked && r !in a else w0.lastRowid < r
  }

  /** A disk on which every announcement is followed by its checkpoint. */
  ghost predicate DiskOk(w0: World, told0: seq<seq<RowId>>, w: World, told: seq<seq<RowId>>, a: set<RowId>,
                         b: set<RowId>) {
    forall r :: RowOk(w0, told0, w, told, a, b, r)
  }

  predicate RowOk(w0: World, told0: seq<seq<RowId>>, w: World, told: seq<seq<RowId>>, a: set<RowId>, b: set<RowId>,
                  r: RowId) {
    && Times(told, r) <= Times(told0, r) + One(r in a) + One(r in b)
    && (r in a + b ==> r <= w.lastAnnounced && ParkedOk(w0, w.parked, a, b, r))
    && (r in b ==> r <= w.lastRowid)
  }

  ghost predicate Bound(w: World, told: seq<seq<RowId>>) {
    forall r: RowId | Times(told, r) > 0 :: r <= w.past.highest
  }

  /** On such a disk a row costs more than before only if it is a stray. */
  lemma RowCost(w0: World, told0: seq<seq<RowId>>, w: World, told: seq<seq<RowId>>, a: set<RowId>, b: set<RowId>,
                strays: set<RowId>, mail: Mail, r: RowId)
    requires Descends(w0, w) && Bound(w0, told0) && Known(w0, told0, a, b, strays, mail)
    requires RowOk(w0, told0, w, told, a, b, r)
    ensures Cost(w, told, mail, r) <= Cost(w0, told0, mail, r) + One(r in strays)
  {
    hide Times;
    if r !in a + b && Times(told, r) > 0 && Open(w, mail, r) {
      assert Open(w0, mail, r);
    }
  }

  /** While an announcement waits for its checkpoint, its row costs at most one more. */
  lemma FreshCost(w0: World, told0: seq<seq<RowId>>, w: World, told: seq<seq<RowId>>, a: set<RowId>, b: set<RowId>,
                  strays: set<RowId>, mail: Mail, r: RowId)
    requires Known(w0, told0, a, b, strays, mail) && Times(told, r) <= Times(told0, r) + One(r in a) + One(r in b)
    requires r in a + b
    ensures Cost(w, told, mail, r) <= Cost(w0, told0, mail, r) + One(r in strays) + 1
  {
    hide Times;
  }

  // ----- crash points ----------------------------------------------------------------------

  /** A crash point of a live drain: rows cost at most what they did, plus one for each stray, plus one for a single
      row if anything was emitted. */
  ghost predicate Point(w0: World, told0: seq<seq<RowId>>, w: World, strays: set<RowId>, mail: Mail) {
    exists u: set<RowId> :: |u| <= One(w.told != w0.told) && Bounded(w0, told0, w, w.told, strays, u, mail)
  }

  ghost predicate PastOk(w0: World, told0: seq<seq<RowId>>, trace: seq<World>, strays: set<RowId>, mail: Mail) {
    forall w | w in trace :: Point(w0, told0, w, strays, mail) && Descends(w0, w) && Backed(w, [], mail)
  }

  ghost predicate LiveInv(w0: World, told0: seq<seq<RowId>>, s: State, a: set<RowId>, b: set<RowId>,
                          strays: set<RowId>, mail: Mail) {
    && Known(w0, told0, a, b, strays, mail) && Bound(w0, told0)
    && Descends(w0, s.w) && Backed(s.w, s.buffer, mail)
    && DiskOk(w0, told0, s.w, s.w.told + [s.buffer], a, b)
    && MemoryOk(w0, s, a, b)
    && PastOk(w0, told0, s.trace, strays, mail)
  }

  /** The parked map and the cursors in memory, which the next checkpoint saves. */
  ghost predicate MemoryOk(w0: World, s: State, a: set<RowId>, b: set<RowId>) {
    && KeysFrom(w0, s.parked) && s.w.lastRowid <= s.last && s.w.lastAnnounced <= s.announced
    && (forall r | r in a + b :: ParkedOk(w0, s.parked, a, b, r) && (r in Heard(s.w.told) || r in s.buffer))
    && (forall r | r in s.parked && s.last < r :: r in w0.parked && r !in a)
  }

  lemma DropBuffer(w0: World, told0: seq<seq<RowId>>, w: World, buffer: seq<RowId>, a: set<RowId>, b: set<RowId>,
                   r: RowId)
    requires RowOk(w0, told0, w, w.told + [buffer], a, b, r)
    ensures RowOk(w0, told0, w, w.told, a, b, r)
  {
    TimesMore(w.told, buffer, r);
    hide Times, ParkedOk;
  }

  /** A settled disk is a crash point at which no single row is charged. */
  lemma SettledPoint(w0: World, told0: seq<seq<RowId>>, w: World, buffer: seq<RowId>, a: set<RowId>, b: set<RowId>,
                     strays: set<RowId>, mail: Mail)
    requires Known(w0, told0, a, b, strays, mail) && Bound(w0, told0) && Descends(w0, w)
    requires DiskOk(w0, told0, w, w.told + [buffer], a, b)
    ensures Point(w0, told0, w, strays, mail)
  {
    hide Known, Bound, Descends, RowOk, Cost, One;
    forall r ensures Cost(w, w.told, mail, r) <= Cost(w0, told0, mail, r) + One(r in strays) + One(r in {}) {
      assert RowOk(w0, told0, w, w.told + [buffer], a, b, r);
      DropBuffer(w0, told0, w, buffer, a, b, r);
      RowCost(w0, told0, w, w.told, a, b, strays, mail, r);
    }
    assert Bounded(w0, told0, w, w.told, strays, {}, mail);
  }

  lemma PastPush(w0: World, told0: seq<seq<RowId>>, trace: seq<World>, w: World, strays: set<RowId>, mail: Mail)
    requires PastOk(w0, told0, trace, strays, mail)
    requires Point(w0, told0, w, strays, mail) && Descends(w0, w) && Backed(w, [], mail)
    ensures PastOk(w0, told0, trace + [w], strays, mail)
  {
    hide Point, Backed, Descends;
    Members(trace, [w]);
  }

  lemma BackedNone(w: World, buffer: seq<RowId>, mail: Mail)
    requires Backed(w, buffer, mail)
    ensures Backed(w, [], mail)
  {
    hide Heard;
  }

  /** One write that keeps the disk settled. */
  lemma InvWrite(w0: World, told0: seq<seq<RowId>>, s: State, w: World, a: set<RowId>, b: set<RowId>,
                 strays: set<RowId>, mail: Mail)
    requires LiveInv(w0, told0, s, a, b, strays, mail)
    requires Descends(w0, w) && Backed(w, s.buffer, mail) && DiskOk(w0, told0, w, w.told + [s.buffer], a, b)
    requires MemoryOk(w0, Write(s, w), a, b)
    ensures LiveInv(w0, told0, Write(s, w), a, b, strays, mail)
  {
    SettledPoint(w0, told0, w, s.buffer, a, b, strays, mail);
    BackedNone(w, s.buffer, mail);
    PastPush(w0, told0, s.trace, w, strays, mail);
    hide Known, Bound, Descends, Backed, DiskOk, MemoryOk, PastOk, Point;
  }

  // ----- taking rows in -----------------------------------------------------------------------

  lemma SameDisk(w0: World, told0: seq<seq<RowId>>, v: World, w: World, buffer: seq<RowId>, a: set<RowId>,
                 b: set<RowId>, mail: Mail)
    requires SameFile(v, w) && Descends(w0, v) && Backed(v, buffer, mail)
             && DiskOk(w0, told0, v, v.told + [buffer], a, b)
    ensures Descends(w0, w) && Backed(w, buffer, mail) && DiskOk(w0, told0, w, w.told + [buffer], a, b)
  {
    hide Heard, Times;
    forall r ensures RowOk(w0, told0, w, w.told + [buffer], a, b, r) {
      assert RowOk(w0, told0, v, v.told + [buffer], a, b, r);
    }
    assert forall r :: Filed(v, mail, r) ==> Filed(w, mail, r);
  }

  lemma SameTrace(w0: World, told0: seq<seq<RowId>>, s: State, t: State, a: set<RowId>, b: set<RowId>,
                  strays: set<RowId>, mail: Mail)
    requires LiveInv(w0, told0, s, a, b, strays, mail) && SameFiles(s, t)
    ensures PastOk(w0, told0, t.trace, strays, mail)
  {
    hide Known, Bound, Descends, Backed, DiskOk, MemoryOk, Point, SameFile;
    forall w | w in t.trace ensures Point(w0, told0, w, strays, mail) && Descends(w0, w) && Backed(w, [], mail) {
      var i :| 0 <= i < |t.trace| && t.trace[i] == w;
      if i < |s.trace| {
        assert s.trace[i] == w && w in s.trace;
      } else {
        assert SameFile(s.w, t.trace[i]);
        SameDisk(w0, told0, s.w, w, s.buffer, a, b, mail);
        SettledPoint(w0, told0, w, s.buffer, a, b, strays, mail);
        BackedNone(w, s.buffer, mail);
      }
    }
  }

  /** Taking in rows changes neither the state files nor the events. */
  lemma InvSame(w0: World, told0: seq<seq<RowId>>, s: State, t: State, a: set<RowId>, b: set<RowId>,
                strays: set<RowId>, mail: Mail)
    requires LiveInv(w0, told0, s, a, b, strays, mail) && SameFiles(s, t) && MemoryOk(w0, t, a, b)
    ensures LiveInv(w0, told0, t, a, b, strays, mail)
  {
    SameTrace(w0, told0, s, t, a, b, strays, mail);
    SameDisk(w0, told0, s.w, t.w, s.buffer, a, b, mail);
    hide Known, Bound, Descends, Backed, DiskOk, MemoryOk, PastOk, SameFile;
  }

  // ----- one announcement ----------------------------------------------------------------------

  /** The worlds that an announcement and its checkpoint go through. */
  function Announced(w: World, id: RowId, stale: bool): World {
    if stale then w else w.(told := w.told + [[id]])
  }

  function Marking(w: World, parked: map<RowId, nat>, last: nat, announced: nat): World {
    w.(parked := parked, lastRowid := last, lastAnnounced := announced)
  }

  lemma AnnounceShape(s: State, id: RowId, stale: bool)
    ensures var t := Announce(s, id, stale, s.last);
            var w1 := Announced(s.w, id, stale);
            && t.w == Marking(w1, s.parked, s.last, Max(s.announced, id))
            && t.trace == (if stale then s.trace else s.trace + [w1]) + [w1.(parked := s.parked)] + [t.w]
            && t.buffer == (if stale then s.buffer + [id] else s.buffer)
            && t.parked == s.parked && t.last == s.last && t.announced == Max(s.announced, id)
  {
  }

  /** One more event, or one more row in the pending one. */
  lemma AnnounceTimes(w: World, buffer: seq<RowId>, id: RowId, stale: bool, r: RowId)
    ensures var told := Announced(w, id, stale).told + [if stale then buffer + [id] else buffer];
            Times(told, r) <= Times(w.told + [buffer], r) + One(r == id)
  {
    TimesMore(w.told, buffer, r);
    TimesMore(w.told, [id], r);
    TimesMore(w.told, buffer + [id], r);
    TimesMore(w.told + [[id]], buffer, r);
    Members(buffer, [id]);
    hide Times;
  }

  /** The disk before the cursor is saved: emitted, with the old or the new parked map. */
  lemma PendingPoint(w0: World, told0: seq<seq<RowId>>, w: World, buffer: seq<RowId>, parked: map<RowId, nat>,
                     id: RowId,
                     a: set<RowId>, b: set<RowId>, a1: set<RowId>, b1: set<RowId>, strays: set<RowId>, mail: Mail)
    requires Known(w0, told0, a, b, strays, mail) && Known(w0, told0, a1, b1, strays, mail) && Bound(w0, told0)
    requires Descends(w0, w) && KeysFrom(w0, parked) && DiskOk(w0, told0, w, w.told + [buffer], a, b)
    requires forall r | r in a + b :: ParkedOk(w0, parked, a, b, r)
    requires Grown(a, b, a1, b1, id)
    ensures Point(w0, told0, w.(told := w.told + [[id]], parked := parked), strays, mail)
  {
    var v := w.(told := w.told + [[id]], parked := parked);
    forall r ensures Cost(v, v.told, mail, r) <= Cost(w0, told0, mail, r) + One(r in strays) + One(r in {id}) {
      TimesMore(w.told, buffer, r);
      TimesMore(w.told, [id], r);
      assert RowOk(w0, told0, w, w.told + [buffer], a, b, r);
      hide Known, Bound, Times, Cost, DiskOk;
      if r == id {
        FreshCost(w0, told0, v, v.told, a1, b1, strays, mail, r);
      } else {
        RowCost(w0, told0, v, v.told, a, b, strays, mail, r);
      }
    }
    assert v.told != w0.told by { assert w0.told <= w.told; }
    hide Cost, Times, Known, Bound, DiskOk, Descends;
    assert Bounded(w0, told0, v, v.told, strays, {id}, mail);
  }

  /** `id` joins the announced rows, on one side. */
  ghost predicate Grown(a: set<RowId>, b: set<RowId>, a1: set<RowId>, b1: set<RowId>, id: RowId) {
    (a1 == a + {id} && b1 == b && id !in a) || (a1 == a && b1 == b + {id} && id !in b)
  }

  /** The disk after the checkpoint. */
  lemma AnnounceDisk(w0: World, told0: seq<seq<RowId>>, s: State, id: RowId, stale: bool,
                     a: set<RowId>, b: set<RowId>, a1: set<RowId>, b1: set<RowId>)
    requires DiskOk(w0, told0, s.w, s.w.told + [s.buffer], a, b) && MemoryOk(w0, s, a, b) && Grown(a, b, a1, b1, id)
    requires ParkedOk(w0, s.parked, a1, b1, id) && (id in b1 ==> id <= s.last)
    ensures var t := Announce(s, id, stale, s.last);
            DiskOk(w0, told0, t.w, t.w.told + [t.buffer], a1, b1)
  {
    AnnounceShape(s, id, stale);
    hide Announce, Heard;
    var t := Announce(s, id, stale, s.last);
    forall r ensures RowOk(w0, told0, t.w, t.w.told + [t.buffer], a1, b1, r) {
      assert RowOk(w0, told0, s.w, s.w.told + [s.buffer], a, b, r);
      AnnounceTimes(s.w, s.buffer, id, stale, r);
      assert r in a + b ==> ParkedOk(w0, s.parked, a, b, r);
      hide Times;
    }
  }

  lemma AnnounceMemory(w0: World, s: State, id: RowId, stale: bool, a: set<RowId>, b: set<RowId>, a1: set<RowId>,
                       b1: set<RowId>)
    requires MemoryOk(w0, s, a, b) && Grown(a, b, a1, b1, id)
    requires ParkedOk(w0, s.parked, a1, b1, id) && (id in s.parked ==> id <= s.last)
    ensures MemoryOk(w0, Announce(s, id, stale, s.last), a1, b1)
  {
    AnnounceShape(s, id, stale);
    HeardMore(s.w.told, [id]);
    Members(s.buffer, [id]);
    hide Announce, Heard, Repeats;
    assert SetOf([id]) == {id};
    forall r | r in a1 + b1 ensures ParkedOk(w0, s.parked, a1, b1, r) {
      assert r != id ==> r in a + b;
    }
  }

  lemma AnnounceBacked(w: World, buffer: seq<RowId>, id: RowId, parked: map<RowId, nat>, last: nat, announced: nat,
                       mail: Mail)
    requires Backed(w, buffer, mail) && Filed(w, mail, id)
    ensures var v := w.(told := w.told + [[id]]);
            && Backed(v, [], mail) && Backed(v.(parked := parked), [], mail)
            && Backed(Marking(v, parked, last, announced), buffer, mail)
            && Backed(Marking(w, parked, last, announced), buffer + [id], mail)
            && Backed(w.(parked := parked), [], mail)
  {
    HeardMore(w.told, [id]);
    Members(buffer, [id]);
    assert SetOf([id]) == {id};
    hide Heard, Repeats, SetOf;
    var v := w.(told := w.told + [[id]]);
    assert forall r :: Filed(w, mail, r) ==> Filed(v, mail, r) && Filed(Marking(v, parked, last, announced), mail, r)
                                             && Filed(Marking(w, parked, last, announced), mail, r);
  }

  lemma AnnounceDescends(w0: World, w: World, id: RowId, stale: bool, parked: map<RowId, nat>, last: nat,
                         announced: nat)
    requires Descends(w0, w) && KeysFrom(w0, parked) && w.lastRowid <= last && w.lastAnnounced <= announced
    ensures var w1 := Announced(w, id, stale);
            Descends(w0, w1) && Descends(w0, w1.(parked := parked))
                && Descends(w0, Marking(w1, parked, last, announced))
  {
    hide KeysFrom;
  }

  /** The crash points of one announcement that goes out. */
  lemma AnnouncePast(w0: World, told0: seq<seq<RowId>>, s: State, id: RowId, a: set<RowId>, b: set<RowId>,
                     a1: set<RowId>, b1: set<RowId>,
                     strays: set<RowId>, mail: Mail)
    requires LiveInv(w0, told0, s, a, b, strays, mail) && Filed(s.w, mail, id)
    requires Known(w0, told0, a1, b1, strays, mail) && Grown(a, b, a1, b1, id)
    ensures var w1 := Announced(s.w, id, false);
            PastOk(w0, told0, s.trace + [w1] + [w1.(parked := s.parked)], strays, mail)
  {
    var w1 := Announced(s.w, id, false);
    AnnounceBacked(s.w, s.buffer, id, s.parked, s.last, s.announced, mail);
    AnnounceDescends(w0, s.w, id, false, s.parked, s.last, s.announced);
    assert forall r | r in a + b :: ParkedOk(w0, s.w.parked, a, b, r) by {
      forall r | r in a + b ensures ParkedOk(w0, s.w.parked, a, b, r) {
        assert RowOk(w0, told0, s.w, s.w.told + [s.buffer], a, b, r);
      }
    }
    assert KeysFrom(w0, s.w.parked);
    assert w1 == s.w.(told := s.w.told + [[id]], parked := s.w.parked);
    hide Known, Bound, Descends, Backed, DiskOk, ParkedOk, Point, Grown, KeysFrom, Heard, PastOk;
    PendingPoint(w0, told0, s.w, s.buffer, s.w.parked, id, a, b, a1, b1, strays, mail);
    PendingPoint(w0, told0, s.w, s.buffer, s.parked, id, a, b, a1, b1, strays, mail);
    PastPush(w0, told0, s.trace, w1, strays, mail);
    PastPush(w0, told0, s.trace + [w1], w1.(parked := s.parked), strays, mail);
  }

  /** The crash point of one that is only bucketed: the parked map is saved, the bucket is lost. */
  lemma BucketPast(w0: World, told0: seq<seq<RowId>>, s: State, id: RowId, a: set<RowId>, b: set<RowId>,
                   strays: set<RowId>, mail: Mail)
    requires LiveInv(w0, told0, s, a, b, strays, mail) && Filed(s.w, mail, id)
    ensures PastOk(w0, told0, s.trace + [s.w.(parked := s.parked)], strays, mail)
  {
    AnnounceBacked(s.w, s.buffer, id, s.parked, s.last, s.announced, mail);
    AnnounceDescends(w0, s.w, id, true, s.parked, s.last, s.announced);
    ParkedDisk(w0, told0, s, a, b);
    hide Known, Bound, Descends, Backed, DiskOk, MemoryOk, Point, PastOk, Heard;
    var v := s.w.(parked := s.parked);
    SettledPoint(w0, told0, v, s.buffer, a, b, strays, mail);
    PastPush(w0, told0, s.trace, v, strays, mail);
  }

  lemma ParkedDisk(w0: World, told0: seq<seq<RowId>>, s: State, a: set<RowId>, b: set<RowId>)
    requires DiskOk(w0, told0, s.w, s.w.told + [s.buffer], a, b) && MemoryOk(w0, s, a, b)
    ensures DiskOk(w0, told0, s.w.(parked := s.parked), s.w.told + [s.buffer], a, b)
  {
    hide Times, Heard;
    forall r ensures RowOk(w0, told0, s.w.(parked := s.parked), s.w.told + [s.buffer], a, b, r) {
      assert RowOk(w0, told0, s.w, s.w.told + [s.buffer], a, b, r);
    }
  }

  /** An announcement and its checkpoint. */
  lemma InvAnnounce(w0: World, told0: seq<seq<RowId>>, s: State, id: RowId, stale: bool, a: set<RowId>, b: set<RowId>,
                    a1: set<RowId>, b1: set<RowId>, strays: set<RowId>, mail: Mail)
    requires LiveInv(w0, told0, s, a, b, strays, mail) && Filed(s.w, mail, id)
    requires Known(w0, told0, a1, b1, strays, mail) && Grown(a, b, a1, b1, id)
    requires ParkedOk(w0, s.parked, a1, b1, id) && (id in b1 ==> id <= s.last) && (id in s.parked ==> id <= s.last)
    ensures LiveInv(w0, told0, Announce(s, id, stale, s.last), a1, b1, strays, mail)
  {
    var t := Announce(s, id, stale, s.last);
    AnnounceShape(s, id, stale);
    AnnounceDisk(w0, told0, s, id, stale, a, b, a1, b1);
    AnnounceMemory(w0, s, id, stale, a, b, a1, b1);
    AnnounceBacked(s.w, s.buffer, id, s.parked, s.last, t.announced, mail);
    AnnounceDescends(w0, s.w, id, stale, s.parked, s.last, t.announced);
    if stale {
      BucketPast(w0, told0, s, id, a, b, strays, mail);
    } else {
      AnnouncePast(w0, told0, s, id, a, b, a1, b1, strays, mail);
    }
    hide Announce, Known, Backed, DiskOk, MemoryOk, Grown, ParkedOk, PastOk, Heard, Descends, Point, Bound;
    SettledPoint(w0, told0, t.w, t.buffer, a1, b1, strays, mail);
    BackedNone(t.w, t.buffer, mail);
    var w1 := Announced(s.w, id, stale);
    PastPush(w0, told0, (if stale then s.trace else s.trace + [w1]) + [w1.(parked := s.parked)], t.w, strays, mail);
  }

  // ----- the retried rows ------------------------------------------------------------------------

  function CreatedIds(done: seq<Success>): set<RowId> {
    set d | d in done && d.result.Created? :: d.id
  }

  lemma CreatedSnoc(done: seq<Success>, low: int, high: int)
    requires Rising(done, low, high) && done != []
    ensures var front, d := done[..|done| - 1], done[|done| - 1];
            && Rising(front, low, high) && d in done && (forall e | e in front :: e in done)
            && CreatedIds(done) == CreatedIds(front) + (if d.result.Created? then {d.id} else {})
            && d.id !in CreatedIds(front)
  {
    assert done == done[..|done| - 1] + [done[|done| - 1]];
  }

  lemma KnownPart(w0: World, told0: seq<seq<RowId>>, a: set<RowId>, part: set<RowId>, strays: set<RowId>, mail: Mail)
    requires Known(w0, told0, a, {}, strays, mail) && part <= a
    ensures Known(w0, told0, part, {}, strays, mail)
  {
    hide Times, Open;
  }

  lemma {:induction false} InvRetried(w0: World, told0: seq<seq<RowId>>, s: State, done: seq<Success>, low: int,
                                      high: int,
                                      strays: set<RowId>, mail: Mail)
    requires LiveInv(w0, told0, s, {}, {}, strays, mail) && Rising(done, low, high)
    requires Known(w0, told0, CreatedIds(done), {}, strays, mail)
    requires forall d | d in done && d.result.Created? :: Filed(s.w, mail, d.id) && d.id !in s.parked
    ensures var t := AnnounceRetried(s, done, s.last);
            && LiveInv(w0, told0, t, CreatedIds(done), {}, strays, mail)
            && t.w.archive == s.w.archive && t.w.past == s.w.past && t.parked == s.parked && t.last == s.last
  {
    hide LiveInv, Known, Rising, CreatedIds, Announce, Filed;
    if done == [] {
      assert CreatedIds(done) == {} by { NoneCreated(); }
    } else {
      var front, d := done[..|done| - 1], done[|done| - 1];
      CreatedSnoc(done, low, high);
      KnownPart(w0, told0, CreatedIds(done), CreatedIds(front), strays, mail);
      InvRetried(w0, told0, s, front, low, high, strays, mail);
      var t := AnnounceRetried(s, front, s.last);
      if d.result.Created? {
        AnnounceShape(t, d.id, d.stale);
        SameFiled(s.w, t.w, mail, d.id);
        InvAnnounce(w0, told0, t, d.id, d.stale, CreatedIds(front), {}, CreatedIds(done), {}, strays, mail);
      } else {
        assert CreatedIds(done) == CreatedIds(front);
      }
    }
  }

  lemma NoneCreated()
    ensures CreatedIds([]) == {}
  {
  }

  lemma SameFiled(v: World, w: World, mail: Mail, r: RowId)
    requires Filed(v, mail, r) && v.archive <= w.archive && v.past.highest <= w.past.highest
    ensures Filed(w, mail, r)
  {
  }

  /** What had been announced has been filed, so a row that is created again has no Message-ID. */
  lemma CreatedAgain(w: World, buffer: seq<RowId>, r: RowId, mail: Mail)
    requires Backed(w, buffer, mail) && Times(w.told + [buffer], r) > 0
    ensures Filed(w, mail, r)
  {
    TimesMore(w.told, buffer, r);
    TimesHeard(w.told, r);
    hide Heard, Times;
  }

  lemma RetriedKnown(w: World, buffer: seq<RowId>, input: Input, done: seq<Success>, after: multiset<Key>, mail: Mail)
    requires Backed(w, buffer, mail) && DoneOk(w.archive, after, done, mail)
    requires forall d | d in done :: d.id in w.parked && d.id in w.past.index && d.id in FoundBy(input.parkedRows)
    ensures Known(w, w.told + [buffer], CreatedIds(done), {}, Strays(w, input, mail), mail)
  {
    var told0 := w.told + [buffer];
    forall r | r in CreatedIds(done) && Times(told0, r) > 0 ensures Open(w, mail, r) {
      CreatedAgain(w, buffer, r, mail);
    }
    hide Times, Found;
  }

  // ----- the new rows ------------------------------------------------------------------------------

  lemma TakenMemory(w0: World, told0: seq<seq<RowId>>, s: State, row: Row, a: set<RowId>, b: set<RowId>, mail: Mail)
    requires MemoryOk(w0, s, a, b) && s.last < row.id && w0.lastRowid < row.id
    requires DiskOk(w0, told0, s.w, s.w.told + [s.buffer], a, b)
    ensures MemoryOk(w0, TakeRow(s, row, mail).0, a, b) && row.id !in b
  {
    TakeRowFrame(s, row, mail);
    hide TakeRow, Heard, Times;
    assert RowOk(w0, told0, s.w, s.w.told + [s.buffer], a, b, row.id);
  }

  lemma NewKnown(w0: World, buffer0: seq<RowId>, s: State, id: RowId, a: set<RowId>, b: set<RowId>, strays: set<RowId>,
                 mail: Mail)
    requires LiveInv(w0, w0.told + [buffer0], s, a, b, strays, mail) && Backed(w0, buffer0, mail)
    requires w0.lastRowid < id && id in s.w.past.index && (Nameless(mail, id) && id in w0.parked ==> id in strays)
    requires Nameless(mail, id) || mail(id) !in s.w.archive
    ensures Known(w0, w0.told + [buffer0], a, b + {id}, strays, mail)
  {
    var told0 := w0.told + [buffer0];
    if Times(told0, id) > 0 {
      CreatedAgain(w0, buffer0, id, mail);
      assert Open(w0, mail, id);
    }
    hide Times, Open, Heard, DiskOk, PastOk;
    assert id in a ==> Filed(s.w, mail, id);
  }

  lemma InvLiveRow(w0: World, buffer0: seq<RowId>, s: State, row: Row, a: set<RowId>, b: set<RowId>,
                   strays: set<RowId>, mail: Mail)
      returns (b1: set<RowId>)
    requires LiveInv(w0, w0.told + [buffer0], s, a, b, strays, mail) && Backed(w0, buffer0, mail)
    requires s.last < row.id <= s.w.past.highest && w0.lastRowid < row.id && row.id in s.w.past.index
    requires !row.body.NotAvailable? && Nameless(mail, row.id) && row.id in w0.parked ==> row.id in strays
    ensures var t := LiveRow(s, row, mail);
            && LiveInv(w0, w0.told + [buffer0], t, a, b1, strays, mail)
            && t.last == row.id && t.w.past.highest == s.w.past.highest && t.w.past.index == s.w.past.index
  {
    var told0 := w0.told + [buffer0];
    var (t, result) := TakeRow(s, row, mail);
    TakeRowFrame(s, row, mail);
    TakenMemory(w0, told0, s, row, a, b, mail);
    InvSame(w0, told0, s, t, a, b, strays, mail);
    b1 := b;
    if result.Created? {
      b1 := b + {row.id};
      assert ParkedOk(w0, t.parked, a, b1, row.id);
      var stale := row.body.Readable? && row.body.stale;
      AnnounceShape(t, row.id, stale);
      NewKnown(w0, buffer0, s, row.id, a, b, strays, mail);
      assert Filed(t.w, mail, row.id);
      hide LiveInv, TakeRow, Heard, Backed, Known, ParkedOk, Announce, MemoryOk, Filed, SameFiles;
      InvAnnounce(w0, told0, t, row.id, stale, a, b, a, b1, strays, mail);
    }
    hide LiveInv, TakeRow;
  }

  lemma {:induction false} InvLiveRows(w0: World, buffer0: seq<RowId>, s: State, rows: seq<Row>, a: set<RowId>,
                                       strays: set<RowId>, mail: Mail)
      returns (b: set<RowId>)
    requires LiveInv(w0, w0.told + [buffer0], s, a, {}, strays, mail) && Backed(w0, buffer0, mail)
    requires forall i, j | 0 <= i < j < |rows| :: rows[i].id < rows[j].id
    requires forall i | 0 <= i < |rows| ::
               && s.last < rows[i].id <= s.w.past.highest && w0.lastRowid < rows[i].id && rows[i].id in s.w.past.index
               && (!rows[i].body.NotAvailable? && Nameless(mail, rows[i].id) && rows[i].id in w0.parked ==>
                   rows[i].id in strays)
    ensures var t := LiveRows(s, rows, mail);
            && LiveInv(w0, w0.told + [buffer0], t, a, b, strays, mail)
            && t.w.past.highest == s.w.past.highest && t.w.past.index == s.w.past.index
            && t.last == if rows == [] then s.last else rows[|rows| - 1].id
  {
    hide LiveInv, LiveRow, Backed, Nameless;
    b := {};
    if rows != [] {
      b := InvLiveRows(w0, buffer0, s, rows[..|rows| - 1], a, strays, mail);
      b := InvLiveRow(w0, buffer0, LiveRows(s, rows[..|rows| - 1], mail), rows[|rows| - 1], a, b, strays, mail);
    }
  }

  // ----- the whole drain -------------------------------------------------------------------------------

  lemma PointShift(w0: World, told0: seq<seq<RowId>>, s: State, input: Input, a: set<RowId>, strays: set<RowId>,
                   mail: Mail)
    requires LiveInv(w0, told0, s, a, {}, strays, mail)
    requires s.w.past.index == w0.past.index && s.w.past.highest == w0.past.highest && ValidShift(s, input)
    ensures LiveInv(w0, told0, Shift(s, input), a, {}, strays, mail)
  {
    var v := Shift(s, input).w;
    hide Heard, Times, Known, PastOk;
    forall r ensures RowOk(w0, told0, v, v.told + [s.buffer], a, {}, r) {
      assert RowOk(w0, told0, s.w, s.w.told + [s.buffer], a, {}, r);
    }
    assert forall r :: Filed(s.w, mail, r) ==> Filed(v, mail, r);
    hide RowOk, ParkedOk;
    InvWrite(w0, told0, s, v, a, {}, strays, mail);
  }

  lemma CursorDisk(w0: World, told0: seq<seq<RowId>>, w: World, told: seq<seq<RowId>>, last: nat, announced: nat,
                   a: set<RowId>, b: set<RowId>)
    requires DiskOk(w0, told0, w, told, a, b) && w.lastRowid <= last && w.lastAnnounced <= announced
    ensures DiskOk(w0, told0, w.(lastRowid := last, lastAnnounced := announced), told, a, b)
  {
    hide Times;
    forall r ensures RowOk(w0, told0, w.(lastRowid := last, lastAnnounced := announced), told, a, b, r) {
      assert RowOk(w0, told0, w, told, a, b, r);
    }
  }

  lemma InvParked(w0: World, told0: seq<seq<RowId>>, s: State, a: set<RowId>, b: set<RowId>, strays: set<RowId>,
                  mail: Mail)
    requires LiveInv(w0, told0, s, a, b, strays, mail)
    ensures LiveInv(w0, told0, SaveParked(s), a, b, strays, mail)
  {
    var v := SaveParked(s).w;
    ParkedDisk(w0, told0, s, a, b);
    BackedMarks(s.w, s.buffer, s.parked, s.w.lastRowid, s.w.lastAnnounced, mail);
    assert Descends(w0, v) && MemoryOk(w0, Write(s, v), a, b) by { hide KeysFrom, ParkedOk, Heard; }
    hide Known, Bound, Descends, Backed, DiskOk, MemoryOk, PastOk;
    InvWrite(w0, told0, s, v, a, b, strays, mail);
  }

  lemma BackedMarks(w: World, buffer: seq<RowId>, parked: map<RowId, nat>, last: nat, announced: nat, mail: Mail)
    requires Backed(w, buffer, mail)
    ensures Backed(Marking(w, parked, last, announced), buffer, mail)
  {
    hide Heard;
    assert forall r :: Filed(w, mail, r) ==> Filed(Marking(w, parked, last, announced), mail, r);
  }

  lemma InvEnd(w0: World, told0: seq<seq<RowId>>, s: State, a: set<RowId>, b: set<RowId>, strays: set<RowId>,
               mail: Mail)
    requires LiveInv(w0, told0, s, a, b, strays, mail)
    ensures LiveInv(w0, told0, SaveIfMoved(SaveParked(s), w0.lastRowid, w0.lastAnnounced), a, b, strays, mail)
  {
    InvParked(w0, told0, s, a, b, strays, mail);
    var s1 := SaveParked(s);
    var v := SaveCursor(s1, s1.last).w;
    CursorDisk(w0, told0, s1.w, s1.w.told + [s1.buffer], s1.last, s1.announced, a, b);
    BackedMarks(s1.w, s1.buffer, s1.w.parked, s1.last, s1.announced, mail);
    assert Descends(w0, v) && MemoryOk(w0, Write(s1, v), a, b) by { hide KeysFrom, ParkedOk, Heard; }
    hide Known, Bound, Descends, Backed, DiskOk, MemoryOk, PastOk;
    InvWrite(w0, told0, s1, v, a, b, strays, mail);
  }

  lemma BeginInv(w: World, buffer: seq<RowId>, strays: set<RowId>, mail: Mail)
    requires Backed(w, buffer, mail)
    ensures LiveInv(w, w.told + [buffer], Begin(w, buffer), {}, {}, strays, mail)
  {
    var told0 := w.told + [buffer];
    forall r: RowId | Times(told0, r) > 0 ensures r <= w.past.highest {
      CreatedAgain(w, buffer, r, mail);
    }
    BackedNone(w, buffer, mail);
    hide Heard, Times;
    assert DiskOk(w, told0, w, told0, {}, {});
    SettledPoint(w, told0, w, buffer, {}, {}, strays, mail);
  }

  /** After the retry pass nothing that succeeded is parked. */
  lemma RetriedMemory(w: World, s: State, done: seq<Success>)
    requires s.w.lastRowid == w.lastRowid == s.last && s.w.lastAnnounced == w.lastAnnounced <= s.announced
    requires forall r | r in s.parked :: r in w.parked
    ensures MemoryOk(w, s, {}, {})
  {
    hide Heard;
  }

  /** What the retry pass leaves for the announcements. */
  ghost predicate RetryDone(w: World, told0: seq<seq<RowId>>, s: State, s1: State, done: seq<Success>,
                            strays: set<RowId>, mail: Mail) {
    && SameFiles(s, s1) && MemoryOk(w, s1, {}, {}) && s1.last == w.lastRowid
    && s1.w.past.index == w.past.index && s1.w.past.highest == w.past.highest
    && Known(w, told0, CreatedIds(done), {}, strays, mail)
    && (forall d | d in done && d.result.Created? :: Filed(s1.w, mail, d.id) && d.id !in s1.parked)
    && exists high :: Rising(done, -1, high)
  }

  lemma RetryIsDone(w: World, buffer: seq<RowId>, input: Input, mail: Mail)
    requires Backed(w, buffer, mail) && ValidInput(w, input) && forall r | r in w.past.index :: r <= w.past.highest
    ensures var (s1, done) := RetryParked(Begin(w, buffer), input.parkedRows, mail);
            RetryDone(w, w.told + [buffer], Begin(w, buffer), s1, done, Strays(w, input, mail), mail)
  {
    RetryFrame(Begin(w, buffer), input.parkedRows, mail);
    var (s1, done) := RetryParked(Begin(w, buffer), input.parkedRows, mail);
    hide RetryParked, MemoryOk, Known, Rising, Found, Strays, Backed;
    assert forall d | d in done :: d.id in FoundBy(input.parkedRows);
    RetriedKnown(w, buffer, input, done, s1.w.archive, mail);
    RetriedMemory(w, s1, done);
  }

  /** The first half: the retry pass and what it announces. */
  lemma LiveRetry(w: World, buffer: seq<RowId>, input: Input, mail: Mail) returns (a: set<RowId>)
    requires Backed(w, buffer, mail) && ValidInput(w, input) && forall r | r in w.past.index :: r <= w.past.highest
    ensures var (s1, done) := RetryParked(Begin(w, buffer), input.parkedRows, mail);
            var t := AnnounceRetried(s1, done, w.lastRowid);
            && LiveInv(w, w.told + [buffer], t, a, {}, Strays(w, input, mail), mail)
            && t.w.past.index == w.past.index && t.w.past.highest == w.past.highest && t.last == w.lastRowid
  {
    RetryIsDone(w, buffer, input, mail);
    BeginInv(w, buffer, Strays(w, input, mail), mail);
    var (s1, done) := RetryParked(Begin(w, buffer), input.parkedRows, mail);
    a := CreatedIds(done);
    hide RetryParked, Strays, LiveInv, Rising, MemoryOk, Known, SameFiles, Filed, CreatedIds, ValidInput, Backed,
        AnnounceRetried;
    var told0, strays := w.told + [buffer], Strays(w, input, mail);
    var high :| Rising(done, -1, high);
    InvSame(w, told0, Begin(w, buffer), s1, {}, {}, strays, mail);
    InvRetried(w, told0, s1, done, -1, high, strays, mail);
  }

  lemma LiveShape(w: World, buffer: seq<RowId>, input: Input, mail: Mail)
    ensures var (s1, done) := RetryParked(Begin(w, buffer), input.parkedRows, mail);
            var s2 := AnnounceRetried(s1, done, w.lastRowid);
            && DrainLive(w, buffer, input, mail) == EndOf(w, Shift(s2, input), input, mail)
            && Shift(s2, input).last == s2.last
            && Shift(s2, input).w.past.index == input.index && Shift(s2, input).w.past.highest == input.highest
            && (ValidInput(w, input) && s2.w.past.index == w.past.index && s2.w.past.highest == w.past.highest ==>
                ValidShift(s2, input))
  {
    hide RetryParked, AnnounceRetried, LiveRows, SaveIfMoved, SaveParked, ValidRetry, ValidDelta;
  }

  /** Every world of a live drain, and so every crash point, is such a point; and when the drain ends, rows cost no
      more than they did, but for the strays. */
  lemma LivePoints(w: World, buffer: seq<RowId>, input: Input, mail: Mail)
    requires Backed(w, buffer, mail) && ValidInput(w, input)
    requires forall r | r in w.past.index :: r <= w.past.highest
    ensures var t, told0, strays := DrainLive(w, buffer, input, mail), w.told + [buffer], Strays(w, input, mail);
            && PastOk(w, told0, t.trace, strays, mail) && Backed(t.w, t.buffer, mail)
            && Bounded(w, told0, t.w, t.w.told + [t.buffer], strays, {}, mail)
  {
    hide *;
    var told0, strays := w.told + [buffer], Strays(w, input, mail);
    var a := LiveRetry(w, buffer, input, mail);
    var (s1, done) := RetryParked(Begin(w, buffer), input.parkedRows, mail);
    var s2 := AnnounceRetried(s1, done, w.lastRowid);
    LiveShape(w, buffer, input, mail);
    PointShift(w, told0, s2, input, a, strays, mail);
    DeltaKnown(w, input, mail);
    var b := LiveDelta(w, buffer, Shift(s2, input), input, a, strays, mail);
    LiveEnds(w, told0, DrainLive(w, buffer, input, mail), a, b, strays, mail);
  }

  /** The rest of a live drain. */
  function EndOf(w: World, s: State, input: Input, mail: Mail): State {
    SaveIfMoved(SaveParked(if input.newRows.Some? then LiveRows(s, input.newRows.value, mail) else s), w.lastRowid,
        w.lastAnnounced)
  }

  lemma DeltaKnown(w: World, input: Input, mail: Mail)
    requires ValidInput(w, input)
    ensures input.newRows.Some? ==> forall i | 0 <= i < |input.newRows.value| ::
              var row := input.newRows.value[i];
              && w.lastRowid < row.id <= input.highest && row.id in input.index
              && (!row.body.NotAvailable? && Nameless(mail, row.id) && row.id in w.parked ==>
                  row.id in Strays(w, input, mail))
  {
    if input.newRows.Some? {
      DeltaBounds(input.index, input.highest, w.lastRowid, input.newRows.value);
    }
  }

  lemma LiveDelta(w: World, buffer: seq<RowId>, s: State, input: Input, a: set<RowId>, strays: set<RowId>, mail: Mail)
                  returns (b: set<RowId>)
    requires LiveInv(w, w.told + [buffer], s, a, {}, strays, mail) && Backed(w, buffer, mail) && ValidInput(w, input)
    requires s.last == w.lastRowid && s.w.past.highest == input.highest && s.w.past.index == input.index
    requires input.newRows.Some? ==> forall i | 0 <= i < |input.newRows.value| ::
               var row := input.newRows.value[i];
               && w.lastRowid < row.id <= input.highest && row.id in input.index
               && (!row.body.NotAvailable? && Nameless(mail, row.id) && row.id in w.parked ==> row.id in strays)
    ensures LiveInv(w, w.told + [buffer], EndOf(w, s, input, mail), a, b, strays, mail)
  {
    hide LiveInv, Backed, Nameless, SaveIfMoved, SaveParked;
    b := {};
    if input.newRows.Some? {
      b := InvLiveRows(w, buffer, s, input.newRows.value, a, strays, mail);
      InvEnd(w, w.told + [buffer], LiveRows(s, input.newRows.value, mail), a, b, strays, mail);
    } else {
      InvEnd(w, w.told + [buffer], s, a, b, strays, mail);
    }
  }

  lemma LiveEnds(w: World, told0: seq<seq<RowId>>, t: State, a: set<RowId>, b: set<RowId>, strays: set<RowId>,
                 mail: Mail)
    requires LiveInv(w, told0, t, a, b, strays, mail)
    ensures PastOk(w, told0, t.trace, strays, mail) && Backed(t.w, t.buffer, mail)
    ensures Bounded(w, told0, t.w, t.w.told + [t.buffer], strays, {}, mail)
  {
    hide Known, Bound, Descends, Backed, PastOk, RowOk, Cost, One, MemoryOk;
    var told := t.w.told + [t.buffer];
    forall r ensures Cost(t.w, told, mail, r) <= Cost(w, told0, mail, r) + One(r in strays) + One(r in {}) {
      assert RowOk(w, told0, t.w, told, a, b, r);
      RowCost(w, told0, t.w, told, a, b, strays, mail, r);
    }
  }

  lemma DeltaBounds(index: set<RowId>, highest: nat, last: nat, rows: seq<Row>)
    requires ValidDelta(index, last, rows) && forall r | r in index :: r <= highest
    ensures forall i | 0 <= i < |rows| :: last < rows[i].id <= highest && rows[i].id in index
  {
    assert forall i | 0 <= i < |rows| :: rows[i].id in Ids(rows);
  }

  // ----- what a crash costs ------------------------------------------------------------------------------

  /** A crash point of a live drain costs one repetition if an event went out, and one for each stray. */
  lemma LiveCrash(w0: World, told0: seq<seq<RowId>>, w: World, strays: set<RowId>, mail: Mail)
    requires Point(w0, told0, w, strays, mail)
    ensures Repeats(w.told) + |Exposed(w, Heard(w.told), mail)|
            <= Repeats(told0) + |Exposed(w0, Heard(told0), mail)| + |strays| + One(w.told != w0.told)
  {
    var u :| |u| <= One(w.told != w0.told) && Bounded(w0, told0, w, w.told, strays, u, mail);
    Totals(w0, told0, w, w.told, strays, u, mail);
    hide *;
  }
}
