/** Without crashes no rowid is announced twice, whatever its Message-ID. */
module MailOnce {
  import opened Wrappers
  import opened MailSpec
  import opened MailSafety
  import opened MailFrames
  import opened Seqs

  function Flat(told: seq<seq<RowId>>): multiset<RowId> {
    if told == [] then multiset{} else Flat(told[..|told| - 1]) + multiset(told[|told| - 1])
  }

  /** Every rowid announced so far, with its number of announcements; a bucketed row counts as announced. */
  function Said(told: seq<seq<RowId>>, buffer: seq<RowId>): multiset<RowId> {
    Flat(told) + multiset(buffer)
  }

  /** No rowid was announced twice, and none of those still to come was announced already. */
  ghost predicate Fresh(said: multiset<RowId>, parked: map<RowId, nat>, last: nat) {
    && (forall r | r in said :: said[r] == 1 && r <= last && r !in parked)
    && (forall r | r in parked :: r <= last)
  }

  ghost predicate Calm(w: World, buffer: seq<RowId>) {
    Fresh(Said(w.told, buffer), w.parked, w.lastRowid)
  }

  ghost predicate Quiet(s: State) {
    Fresh(Said(s.w.told, s.buffer), s.parked, s.last) && s.w.lastRowid <= s.last
  }

  lemma SaidMore(told: seq<seq<RowId>>, rows: seq<RowId>, buffer: seq<RowId>)
    ensures Said(told + [rows], buffer) == Said(told, buffer) + multiset(rows)
    ensures Said(told, buffer + rows) == Said(told, buffer) + multiset(rows)
  {
    assert (told + [rows])[..|told|] == told;
  }

  // ----- the live drain -----------------------------------------------------------

  lemma AnnounceSaid(s: State, id: RowId, stale: bool, last: nat)
    ensures var t := Announce(s, id, stale, last);
            && Said(t.w.told, t.buffer) == Said(s.w.told, s.buffer) + multiset{id}
            && t.parked == s.parked && t.last == s.last && t.w.lastRowid == last
  {
    SaidMore(s.w.told, [id], s.buffer);
  }

  lemma RisingFront(done: seq<Success>, low: int, high: int)
    requires Rising(done, low, high) && done != []
    ensures var front, d := done[..|done| - 1], done[|done| - 1];
            && Rising(front, low, high) && low < d.id <= high && d in done && (forall e | e in front :: e in done)
            && d.id !in DoneIds(front) && DoneIds(done) == DoneIds(front) + {d.id}
  {
    assert done == done[..|done| - 1] + [done[|done| - 1]];
  }

  lemma {:induction false} RetriedSaid(s: State, done: seq<Success>, last: nat, low: int, high: int)
    requires Quiet(s) && Rising(done, low, high) && s.w.lastRowid == last <= s.last
    requires forall d | d in done :: d.id <= s.last && d.id !in s.parked && d.id !in Said(s.w.told, s.buffer)
    ensures var t := AnnounceRetried(s, done, last);
            && Quiet(t) && t.parked == s.parked && t.last == s.last && t.w.lastRowid == last
            && (forall r | r in Said(t.w.told, t.buffer) :: r in Said(s.w.told, s.buffer) || r in DoneIds(done))
  {
    hide Said, Announce, Rising, DoneIds;
    if done != [] {
      var front, d := done[..|done| - 1], done[|done| - 1];
      RisingFront(done, low, high);
      RetriedSaid(s, front, last, low, high);
      AnnounceSaid(AnnounceRetried(s, front, last), d.id, d.stale, last);
    }
  }

  lemma LiveRowSaid(s: State, row: Row, mail: Mail)
    requires Quiet(s) && s.last < row.id
    ensures var t := LiveRow(s, row, mail); Quiet(t) && t.last == row.id && s.w.lastRowid <= t.w.lastRowid
  {
    hide Said, Announce, TakeRow;
    TakeRowFrame(s, row, mail);
    var (t, result) := TakeRow(s, row, mail);
    AnnounceSaid(t, row.id, row.body.Readable? && row.body.stale, t.last);
  }

  lemma {:induction false} LiveRowsSaid(s: State, rows: seq<Row>, mail: Mail)
    requires Quiet(s)
    requires forall i, j | 0 <= i < j < |rows| :: rows[i].id < rows[j].id
    requires forall i | 0 <= i < |rows| :: s.last < rows[i].id
    ensures var t := LiveRows(s, rows, mail);
            Quiet(t) && s.w.lastRowid <= t.w.lastRowid && t.last == if rows == [] then s.last else rows[|rows| - 1].id
  {
    hide Quiet, LiveRow;
    if rows != [] {
      LiveRowsSaid(s, rows[..|rows| - 1], mail);
      LiveRowSaid(LiveRows(s, rows[..|rows| - 1], mail), rows[|rows| - 1], mail);
    }
  }

  /** At the end of a drain the disk says what the memory says. */
  lemma EndCalm(s: State, last: nat, announced: nat)
    requires Quiet(s) && last <= s.w.lastRowid
    ensures var t := SaveIfMoved(SaveParked(s), last, announced); Calm(t.w, t.buffer)
  {
  }

  lemma DeltaAbove(index: set<RowId>, last: nat, rows: seq<Row>)
    requires ValidDelta(index, last, rows)
    ensures forall i | 0 <= i < |rows| :: last < rows[i].id
  {
    assert forall i | 0 <= i < |rows| :: rows[i].id in Ids(rows);
  }

  lemma RetryQuiet(w: World, buffer: seq<RowId>, rows: Option<seq<Row>>, mail: Mail)
    requires Calm(w, buffer) && (rows.Some? ==> ValidRetry(Begin(w, buffer), rows.value))
    ensures var (t, done) := RetryParked(Begin(w, buffer), rows, mail);
            && Quiet(t) && t.last == w.lastRowid == t.w.lastRowid && t.w.told == w.told && t.buffer == buffer
            && (forall d | d in done :: d.id <= t.last && d.id !in t.parked && d.id !in Said(w.told, buffer))
            && (exists high :: Rising(done, -1, high))
  {
    hide Said;
    RetryFrame(Begin(w, buffer), rows, mail);
    hide RetryParked, ValidRetry, Rising, DoneOk;
  }

  /** A live drain that runs to its end announces only rows that were never announced, each once. */
  lemma LiveStaysCalm(w: World, buffer: seq<RowId>, input: Input, mail: Mail)
    requires Calm(w, buffer) && ValidInput(w, input)
    ensures var t := DrainLive(w, buffer, input, mail); Calm(t.w, t.buffer)
  {
    RetryQuiet(w, buffer, input.parkedRows, mail);
    var (s1, done) := RetryParked(Begin(w, buffer), input.parkedRows, mail);
    var high :| Rising(done, -1, high);
    RetriedSaid(s1, done, w.lastRowid, -1, high);
    var s2 := Shift(AnnounceRetried(s1, done, w.lastRowid), input);
    assert Quiet(s2);
    hide Quiet, Calm, RetryParked, AnnounceRetried, Rising;
    if input.newRows.Some? {
      DeltaAbove(input.index, w.lastRowid, input.newRows.value);
      LiveRowsSaid(s2, input.newRows.value, mail);
    }
    var s3 := if input.newRows.Some? then LiveRows(s2, input.newRows.value, mail) else s2;
    EndCalm(s3, w.lastRowid, w.lastAnnounced);
  }

  // ----- the boot-time drain --------------------------------------------------------

  /** A rising list of successes records each rowid at most once. */
  lemma {:induction false} RecordedOnce(done: seq<Success>, announced: nat, low: int, high: int)
    requires Rising(done, low, high)
    ensures forall r | r in multiset(Recorded(done, announced)) ::
              multiset(Recorded(done, announced))[r] == 1 && announced < r && r in DoneIds(done)
  {
    if done != [] {
      RisingFront(done, low, high);
      RecordedOnce(done[..|done| - 1], announced, low, high);
    }
  }

  /** Retried rows lie at or below the old cursor and new rows above it, so the two lists never meet. */
  lemma BacklogOnce(retried: seq<Success>, done: seq<Success>, announced: nat, mid: int, high: int)
    requires Rising(retried, -1, mid) && Rising(done, mid, high)
    ensures var rows := Recorded(retried, announced) + Recorded(done, announced);
            forall r | r in multiset(rows) ::
              multiset(rows)[r] == 1 && announced < r && (r in DoneIds(retried) || r in DoneIds(done))
  {
    RecordedOnce(retried, announced, -1, mid);
    RecordedOnce(done, announced, mid, high);
    var a, b := multiset(Recorded(retried, announced)), multiset(Recorded(done, announced));
    assert multiset(Recorded(retried, announced) + Recorded(done, announced)) == a + b;
    forall r | r in a ensures r !in b {
      assert r in DoneIds(retried) && (r in b ==> r in DoneIds(done));
    }
  }

  lemma RisingBound(done: seq<Success>, low: int, high: int, bound: int)
    requires Rising(done, low, high) && forall d | d in done :: d.id <= bound
    ensures Rising(done, low, bound)
  {
  }

  lemma BacklogCalm(s: State, rows: seq<RowId>)
    requires Quiet(s)
    requires forall r | r in multiset(rows) ::
               multiset(rows)[r] == 1 && r <= s.last && r !in s.parked && r !in Said(s.w.told, s.buffer)
    ensures var t := Checkpoint(Emit(s, rows), s.last); Calm(t.w, t.buffer)
  {
    SaidMore(s.w.told, rows, s.buffer);
    hide Said;
  }

  /** A boot-time drain that runs to its end counts only rows that were never announced, each once. */
  lemma CatchupStaysCalm(w: World, input: Input, mail: Mail)
    requires Calm(w, []) && ValidInput(w, input)
    ensures var t := DrainCatchup(w, input, mail); Calm(t.w, t.buffer)
  {
    RetryQuiet(w, [], input.parkedRows, mail);
    var (s1, retried) := RetryParked(Begin(w, []), input.parkedRows, mail);
    var high :| Rising(retried, -1, high);
    RisingBound(retried, -1, high, w.lastRowid);
    var s2 := Shift(s1, input);
    assert Quiet(s2);
    if input.newRows.Some? {
      DeltaAbove(input.index, w.lastRowid, input.newRows.value);
      hide Said, RetryParked, Shift, ValidShift, ValidRetry, Calm, Fresh;
      CatchupEnd(w, s2, input.newRows.value, retried, mail);
    } else {
      hide Said, RetryParked;
    }
  }

  lemma DeltaQuiet(s: State, rows: seq<Row>, mail: Mail)
    requires Quiet(s)
    requires forall i, j | 0 <= i < j < |rows| :: rows[i].id < rows[j].id
    requires forall i | 0 <= i < |rows| :: s.last < rows[i].id
    ensures Quiet(CatchupRows(s, rows, mail).0)
  {
    hide Said, CatchupRows, Rising, DoneOk;
    CatchupRowsFrame(s, rows, mail);
    assert forall r | r in Missing(rows) :: s.last < r;
    hide Missing, Ids;
  }

  lemma CatchupEnd(w: World, s: State, news: seq<Row>, retried: seq<Success>, mail: Mail)
    requires Quiet(s) && w.lastRowid == s.last == s.w.lastRowid && Rising(retried, -1, s.last)
    requires forall i, j | 0 <= i < j < |news| :: news[i].id < news[j].id
    requires forall i | 0 <= i < |news| :: s.last < news[i].id
    requires forall d | d in retried :: d.id !in s.parked && d.id !in Said(s.w.told, s.buffer)
    ensures var (s3, done) := CatchupRows(s, news, mail);
            var rows := Recorded(retried, w.lastAnnounced) + Recorded(done, w.lastAnnounced);
            var t := if rows != [] then Checkpoint(Emit(s3, rows), s3.last)
                     else SaveIfMoved(SaveParked(s3), w.lastRowid, w.lastAnnounced);
            Calm(t.w, t.buffer)
  {
    var (s3, done) := CatchupRows(s, news, mail);
    DeltaQuiet(s, news, mail);
    CatchupRowsFrame(s, news, mail);
    BacklogOnce(retried, done, w.lastAnnounced, s.last, s3.last);
    var rows := Recorded(retried, w.lastAnnounced) + Recorded(done, w.lastAnnounced);
    assert forall r | r in Missing(news) :: s.last < r;
    hide Said, Recorded, CatchupRows, DoneOk;
    forall r | r in multiset(rows)
      ensures r <= s3.last && r !in s3.parked && r !in Said(s3.w.told, s3.buffer)
    {
      if r in DoneIds(retried) {
        var d :| d in retried && d.id == r;
      } else {
        var d :| d in done && d.id == r;
      }
    }
    if rows != [] {
      BacklogCalm(s3, rows);
    } else {
      EndCalm(s3, w.lastRowid, w.lastAnnounced);
    }
  }
}
