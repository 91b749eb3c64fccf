/** What each piece of a drain leaves alone, and which rows it touches. */
module MailFrames {
  import opened Wrappers
  import opened MailSpec
  import opened MailSafety
  import opened Seqs

  predicate SameFile(a: World, b: World) {
    && b == a.(archive := b.archive, past := b.past) && a.archive <= b.archive
    && b.past.index == a.past.index && b.past.highest == a.past.highest
  }

  /** `t` has the same state files and events as `s`; only the archive and the record may have grown. */
  ghost predicate SameFiles(s: State, t: State) {
    && t.buffer == s.buffer && t.announced == s.announced
    && SameFile(s.w, t.w)
    && s.trace <= t.trace && (forall i | |s.trace| <= i < |t.trace| :: SameFile(s.w, t.trace[i]))
  }

  /** The successes of a pass, in ascending order, with rowids in the given range. */
  ghost predicate Rising(done: seq<Success>, low: int, high: int) {
    && (forall i | 0 <= i < |done| :: low < done[i].id <= high)
    && (forall i, j | 0 <= i < j < |done| :: done[i].id < done[j].id)
  }

  function DoneIds(done: seq<Success>): set<RowId> {
    set d | d in done :: d.id
  }

  lemma SameTrans(s: State, t: State, u: State)
    requires SameFiles(s, t) && SameFiles(t, u)
    ensures SameFiles(s, u)
  {
    forall i | |s.trace| <= i < |u.trace| ensures SameFile(s.w, u.trace[i]) {
      if i < |t.trace| {
        assert SameFile(s.w, t.trace[i]);
      }
    }
  }

  /** What is known of a row once it has been looked at. */
  ghost predicate Looked(s: State, t: State, id: RowId, result: Result, mail: Mail) {
    && (result.Created? || result.AlreadyThere? ==> mail(id) in t.w.archive)
    && (result.Created? ==> mail(id).messageId == "" || mail(id) !in s.w.archive)
    && (forall r | r != id :: r in t.parked <==> r in s.parked)
  }

  lemma IngestFrame(s: State, row: Row, mail: Mail)
    ensures var (t, result) := Ingest(s, row, mail);
            && SameFiles(s, t) && t.parked == s.parked && t.last == s.last
            && Looked(s, t, row.id, result, mail)
            && (result.Unavailable? <==> row.body.NotAvailable?)
            && (result.Skip? <==> row.body.Unusable?)
  {
  }

  lemma ParkFrame(s: State, id: RowId)
    ensures var t := Park(s, id);
            && SameFiles(s, t) && t.last == s.last && t.w.archive == s.w.archive
            && (forall r | r != id :: r in t.parked <==> r in s.parked)
  {
  }

  lemma RetryRowFrame(s: State, row: Row, mail: Mail)
    ensures var (t, more) := RetryRow(s, row, mail);
            && SameFiles(s, t) && t.last == s.last
            && (more == [] ==> row.body.NotAvailable?)
            && (more != [] ==> |more| == 1 && more[0].id == row.id && row.id !in t.parked && !row.body.NotAvailable?
                               && !more[0].result.Unavailable?)
            && Looked(s, t, row.id, if more == [] then Unavailable else more[0].result, mail)
  {
    var (s1, result) := Ingest(s, row, mail);
    IngestFrame(s, row, mail);
    if result.Unavailable? {
      ParkFrame(s1, row.id);
      hide Ingest, Park;
      SameTrans(s, s1, Park(s1, row.id));
    }
    hide Ingest, Park;
  }

  lemma TakeRowFrame(s: State, row: Row, mail: Mail)
    ensures var (t, result) := TakeRow(s, row, mail);
            && SameFiles(s, t) && t.last == Max(s.last, row.id)
            && Looked(s, t, row.id, result, mail)
            && (result.Unavailable? <==> row.body.NotAvailable?)
            && (result.Skip? <==> row.body.Unusable?)
            && (row.id !in s.parked && !result.Unavailable? ==> row.id !in t.parked)
  {
    var (s1, result) := Ingest(s, row, mail);
    IngestFrame(s, row, mail);
    if result.Unavailable? {
      ParkFrame(s1, row.id);
      hide Ingest, Park;
      SameTrans(s, s1, Park(s1, row.id));
    }
    hide Ingest, Park;
  }

  /** A success is filed by the end of the pass; one that was created was not there before it. */
  ghost predicate DoneOk(before: multiset<Key>, after: multiset<Key>, done: seq<Success>, mail: Mail) {
    forall d | d in done ::
      && !d.result.Unavailable?
      && (!d.result.Skip? ==> mail(d.id) in after)
      && (d.result.Created? ==> mail(d.id).messageId == "" || mail(d.id) !in before)
  }

  lemma DoneOkSnoc(before: multiset<Key>, mid: multiset<Key>, after: multiset<Key>, done: seq<Success>,
                   more: seq<Success>, mail: Mail)
    requires before <= mid <= after && DoneOk(before, mid, done, mail) && DoneOk(mid, after, more, mail)
    ensures DoneOk(before, after, done + more, mail)
  {
    Members(done, more);
  }

  /** Retried rows: each success leaves the parked map, and no other row enters it. */
  lemma {:induction false} RetryRowsFrame(s: State, rows: seq<Row>, mail: Mail)
    requires forall i, j | 0 <= i < j < |rows| :: rows[i].id < rows[j].id
    ensures var (t, done) := RetryRows(s, rows, mail);
            && SameFiles(s, t) && t.last == s.last
            && Rising(done, -1, if rows == [] then -1 else rows[|rows| - 1].id)
            && DoneOk(s.w.archive, t.w.archive, done, mail)
            && (forall d | d in done :: d.id in Found(rows) && d.id !in t.parked)
            && (forall r | r in t.parked :: r in s.parked || r in Ids(rows))
  {
    if rows != [] {
      var front, row := rows[..|rows| - 1], rows[|rows| - 1];
      RetryRowsFrame(s, front, mail);
      var (s1, done) := RetryRows(s, front, mail);
      var (s2, more) := RetryRow(s1, row, mail);
      RetryRowFrame(s1, row, mail);
      SameTrans(s, s1, s2);
      IdsSnoc(rows);
      FoundSnoc(rows);
      Members(done, more);
      RisingSnoc(done, more, -1, if front == [] then -1 else front[|front| - 1].id, row.id);
      DoneOkSnoc(s.w.archive, s1.w.archive, s2.w.archive, done, more, mail);
      hide SameFiles, RetryRow, Found, Ids;
    }
  }

  /** The rows whose body was on disk, usable or not. */
  function Found(rows: seq<Row>): set<RowId> {
    set r | r in rows && !r.body.NotAvailable? :: r.id
  }

  lemma FoundSnoc(rows: seq<Row>)
    requires rows != []
    ensures var row := rows[|rows| - 1];
            Found(rows) == Found(rows[..|rows| - 1]) + if row.body.NotAvailable? then {} else {row.id}
  {
    assert rows == rows[..|rows| - 1] + [rows[|rows| - 1]];
  }

  /** The retry pass: it handles parked rows only and announces nothing. */
  lemma RetryFrame(s: State, rows: Option<seq<Row>>, mail: Mail)
    requires rows.Some? ==> ValidRetry(s, rows.value)
    ensures var (t, done) := RetryParked(s, rows, mail);
            && SameFiles(s, t) && t.last == s.last
            && (exists high :: Rising(done, -1, high))
            && DoneOk(s.w.archive, t.w.archive, done, mail)
            && (forall d | d in done :: d.id in s.parked && d.id in s.w.past.index && d.id !in t.parked)
            && (rows.Some? ==> forall d | d in done :: d.id in Found(rows.value))
            && (rows.None? ==> done == [])
            && (forall r | r in t.parked :: r in s.parked)
  {
    if s.parked == map[] || rows.None? {
      assert Rising([], -1, -1);
    } else {
      var kept := s.(parked := map id | id in s.parked && id in Ids(rows.value) :: s.parked[id]);
      RetryRowsFrame(kept, rows.value, mail);
      assert forall r | r in Found(rows.value) :: r in Ids(rows.value);
      hide RetryRows;
    }
  }

  /** The rows whose body was not on disk. */
  function Missing(rows: seq<Row>): set<RowId> {
    set r | r in rows && r.body.NotAvailable? :: r.id
  }

  lemma CatchupRowFrame(s: State, row: Row, mail: Mail)
    ensures var (t, more) := CatchupRow(s, row, mail);
            && SameFiles(s, t.(announced := s.announced))
            && t.last == Max(s.last, row.id) && s.announced <= t.announced
            && (more == [] <==> row.body.NotAvailable?)
            && (more != [] ==> |more| == 1 && more[0].id == row.id && (more[0].result.Skip? || row.id <= t.announced))
            && DoneOk(s.w.archive, t.w.archive, more, mail)
            && (forall r | r in t.parked :: r in s.parked || (r == row.id && row.body.NotAvailable?))
  {
    TakeRowFrame(s, row, mail);
    hide TakeRow;
  }

  /** The delta pass of the boot-time drain: the successes are new rows, and only missing rows are parked. */
  lemma {:induction false} CatchupRowsFrame(s: State, rows: seq<Row>, mail: Mail)
    requires forall i, j | 0 <= i < j < |rows| :: rows[i].id < rows[j].id
    requires forall i | 0 <= i < |rows| :: s.last < rows[i].id
    ensures var (t, done) := CatchupRows(s, rows, mail);
            && SameFiles(s, t.(announced := s.announced)) && s.announced <= t.announced
            && t.last == (if rows == [] then s.last else rows[|rows| - 1].id)
            && Rising(done, s.last, t.last)
            && DoneOk(s.w.archive, t.w.archive, done, mail)
            && (forall d | d in done ::
                d.id in Ids(rows) && d.id !in Missing(rows) && (!d.result.Skip? ==> d.id <= t.announced))
            && (forall r | r in t.parked :: r in s.parked || r in Missing(rows))
  {
    hide *;
    if rows == [] {
      NoCatchup(s, mail);
    } else {
      var front, row := rows[..|rows| - 1], rows[|rows| - 1];
      CatchupRowsFrame(s, front, mail);
      var (s1, done) := CatchupRows(s, front, mail);
      var (s2, more) := CatchupRow(s1, row, mail);
      CatchupRowFrame(s1, row, mail);
      SameButAnnounced(s, s1, s2);
      IdsSnoc(rows);
      MissingSnoc(rows);
      MissingIsListed(front, row.id);
      Larger(s1.last, row.id);
      Members(done, more);
      RisingSnoc(done, more, s.last, s1.last, row.id);
      ArchiveGrows(s, s1.(announced := s.announced));
      ArchiveGrows(s1, s2.(announced := s1.announced));
      DoneOkSnoc(s.w.archive, s1.w.archive, s2.w.archive, done, more, mail);
      forall d | d in done ensures d.id < row.id {
        NotLast(done, d, s.last, s1.last);
      }
      LastCatchup(s, rows, mail);
    }
  }

  lemma MissingIsListed(rows: seq<Row>, id: RowId)
    requires forall i | 0 <= i < |rows| :: rows[i].id != id
    ensures id !in Missing(rows)
  {
  }

  lemma Larger(a: nat, b: nat)
    requires a < b
    ensures Max(a, b) == b
  {
  }

  lemma NoCatchup(s: State, mail: Mail)
    ensures CatchupRows(s, [], mail) == (s, []) && SameFiles(s, s.(announced := s.announced))
            && Rising([], s.last, s.last)
    ensures DoneOk(s.w.archive, s.w.archive, [], mail)
  {
  }

  lemma SameButAnnounced(s: State, t: State, u: State)
    requires SameFiles(s, t.(announced := s.announced)) && SameFiles(t, u.(announced := t.announced))
    ensures SameFiles(s, u.(announced := s.announced))
  {
    var t1, u1 := t.(announced := s.announced), u.(announced := s.announced);
    assert SameFiles(t1, u1);
    hide SameFiles;
    SameTrans(s, t1, u1);
  }

  lemma ArchiveGrows(s: State, t: State)
    requires SameFiles(s, t)
    ensures s.w.archive <= t.w.archive
  {
  }

  lemma LastCatchup(s: State, rows: seq<Row>, mail: Mail)
    requires rows != []
    ensures var (s1, done) := CatchupRows(s, rows[..|rows| - 1], mail);
            var (s2, more) := CatchupRow(s1, rows[|rows| - 1], mail);
            CatchupRows(s, rows, mail) == (s2, done + more)
  {
  }

  lemma NotLast(done: seq<Success>, d: Success, low: int, high: int)
    requires d in done && Rising(done, low, high)
    ensures low < d.id <= high
  {
  }

  lemma MissingSnoc(rows: seq<Row>)
    requires rows != []
    ensures var row := rows[|rows| - 1];
            Missing(rows) == Missing(rows[..|rows| - 1]) + if row.body.NotAvailable? then {row.id} else {}
  {
    assert rows == rows[..|rows| - 1] + [rows[|rows| - 1]];
  }

  lemma IdsSnoc(rows: seq<Row>)
    requires rows != []
    ensures Ids(rows) == Ids(rows[..|rows| - 1]) + {rows[|rows| - 1].id}
  {
    assert rows == rows[..|rows| - 1] + [rows[|rows| - 1]];
  }

  lemma RisingSnoc(done: seq<Success>, more: seq<Success>, low: int, high: int, id: RowId)
    requires Rising(done, low, high) && high < id && low < id
    requires more == [] || (|more| == 1 && more[0].id == id)
    ensures Rising(done + more, low, id)
  {
  }
}
