/** When one backlog event counts a row twice: exactly when a crash fell between the two files of a checkpoint. */
module MailTwice {
  import opened Wrappers
  import opened MailSpec
  import opened MailSafety
  import opened MailFrames
  import opened MailOnce
  import opened MailBacklog
  import opened Seqs

  /** No parked row that is still in the index lies above both cursors. */
  ghost predicate Settled(w: World) {
    forall r | r in w.parked && r in w.past.index :: r <= Max(w.lastRowid, w.lastAnnounced)
  }

  ghost predicate Once(rows: seq<RowId>) {
    forall r :: multiset(rows)[r] <= 1
  }

  // ----- settled files: each row counts once ---------------------------------------

  lemma OnceApart(a: seq<RowId>, b: seq<RowId>)
    requires Once(a) && Once(b) && forall r | r in a :: r !in b
    ensures Once(a + b)
  {
    assert multiset(a + b) == multiset(a) + multiset(b);
    forall r ensures multiset(a + b)[r] <= 1 {
      assert multiset(a)[r] <= 1 && multiset(b)[r] <= 1;
      assert r in multiset(a) <==> r in a;
    }
  }

  lemma RecordedApart(done: seq<Success>, announced: nat, low: int, high: int)
    requires Rising(done, low, high)
    ensures Once(Recorded(done, announced))
    ensures forall r | r in Recorded(done, announced) :: announced < r && r in DoneIds(done)
  {
    RecordedOnce(done, announced, low, high);
    var rows := Recorded(done, announced);
    hide Recorded, Rising;
    forall r | r in rows ensures announced < r && r in DoneIds(done) {
      assert r in multiset(rows);
    }
    forall r ensures multiset(rows)[r] <= 1 {
      assert r in multiset(rows) || multiset(rows)[r] == 0;
    }
  }

  lemma SettledCountsOnce(w: World, input: Input, mail: Mail)
    requires Settled(w) && ValidInput(w, input)
    ensures Once(Backlog(w, input, mail))
  {
    var (s1, retried) := RetryParked(Begin(w, []), input.parkedRows, mail);
    if input.newRows.Some? {
      var s2 := Shift(s1, input);
      RetryFrame(Begin(w, []), input.parkedRows, mail);
      var high :| Rising(retried, -1, high);
      DeltaAbove(input.index, w.lastRowid, input.newRows.value);
      CatchupRowsFrame(s2, input.newRows.value, mail);
      var (t, done) := CatchupRows(s2, input.newRows.value, mail);
      assert s2.last == w.lastRowid;
      assert forall d | d in retried :: d.id <= Max(w.lastRowid, w.lastAnnounced);
      assert Backlog(w, input, mail) == Recorded(retried, w.lastAnnounced) + Recorded(done, w.lastAnnounced);
      hide RetryParked, CatchupRows, Shift, Recorded, DoneOk, ValidInput, Settled, Once, Backlog, SameFiles, Missing;
      TwoHalves(w, retried, done, high, t.last);
    }
  }

  lemma TwoHalves(w: World, retried: seq<Success>, done: seq<Success>, high: int, top: int)
    requires Rising(retried, -1, high) && Rising(done, w.lastRowid, top)
    requires forall d | d in retried :: d.id <= Max(w.lastRowid, w.lastAnnounced)
    ensures Once(Recorded(retried, w.lastAnnounced) + Recorded(done, w.lastAnnounced))
  {
    RecordedApart(retried, w.lastAnnounced, -1, high);
    RecordedApart(done, w.lastAnnounced, w.lastRowid, top);
    assert forall d | d in done :: w.lastRowid < d.id;
    hide Recorded, Rising, Once;
    OnceApart(Recorded(retried, w.lastAnnounced), Recorded(done, w.lastAnnounced));
  }

  // ----- unsettled files: some answer makes a row count twice --------------------------

  /** A query answer that lists `ids` in ascending order, all bodies on disk. */
  ghost predicate Answers(rows: seq<Row>, ids: set<RowId>) {
    && Ids(rows) == ids
    && (forall i, j | 0 <= i < j < |rows| :: rows[i].id < rows[j].id)
    && (forall row | row in rows :: row.body.Readable?)
  }

  lemma {:induction false} HasAnswer(ids: set<RowId>) returns (rows: seq<Row>)
    ensures Answers(rows, ids)
    decreases |ids|
  {
    if ids == {} {
      rows := [];
    } else {
      HasGreatest(ids);
      var top :| top in ids && forall r | r in ids :: r <= top;
      var front := HasAnswer(ids - {top});
      rows := front + [Row(top, Readable(false))];
      AnswerSnoc(ids, top, front);
    }
  }

  lemma AnswerSnoc(ids: set<RowId>, top: RowId, front: seq<Row>)
    requires Answers(front, ids - {top}) && top in ids && forall r | r in ids :: r <= top
    ensures Answers(front + [Row(top, Readable(false))], ids)
  {
    var rows := front + [Row(top, Readable(false))];
    assert rows[..|rows| - 1] == front;
    IdsSnoc(rows);
    forall i | 0 <= i < |front| ensures front[i].id < top {
      assert front[i].id in Ids(front);
    }
    hide Ids;
  }

  lemma {:induction false} HasGreatest(ids: set<RowId>)
    requires ids != {}
    ensures exists top :: top in ids && forall r | r in ids :: r <= top
    decreases |ids|
  {
    var x :| x in ids;
    var top := x;
    if ids - {x} != {} {
      HasGreatest(ids - {x});
      var y :| y in ids - {x} && forall r | r in ids - {x} :: r <= y;
      top := Max(x, y);
    }
    forall r | r in ids ensures r <= top {
      assert r == x || r in ids - {x};
    }
    assert top in ids;
  }

  /** Readable rows above the mark are all recorded. */
  lemma {:induction false} RetryRecords(s: State, rows: seq<Row>, announced: nat, mail: Mail)
    requires forall row | row in rows :: row.body.Readable?
    ensures forall row | row in rows && announced < row.id :: row.id in Recorded(RetryRows(s, rows, mail).1, announced)
  {
    if rows != [] {
      var front, last := rows[..|rows| - 1], rows[|rows| - 1];
      RetryRecords(s, front, announced, mail);
      var (s1, done) := RetryRows(s, front, mail);
      var (s2, more) := RetryRow(s1, last, mail);
      assert more == [Success(last.id, more[0].result, last.body.stale)] && !more[0].result.Skip?;
      assert (done + more)[..|done + more| - 1] == done;
      hide RetryRow;
      assert rows == front + [last];
    }
  }

  lemma {:induction false} CatchupRecords(s: State, rows: seq<Row>, announced: nat, mail: Mail)
    requires forall row | row in rows :: row.body.Readable?
    ensures forall row | row in rows && announced < row.id ::
            row.id in Recorded(CatchupRows(s, rows, mail).1, announced)
  {
    if rows != [] {
      var front, last := rows[..|rows| - 1], rows[|rows| - 1];
      CatchupRecords(s, front, announced, mail);
      var (s1, done) := CatchupRows(s, front, mail);
      var (s2, more) := CatchupRow(s1, last, mail);
      assert more == [Success(last.id, more[0].result, false)] && !more[0].result.Skip?;
      assert (done + more)[..|done + more| - 1] == done;
      hide CatchupRow;
      assert rows == front + [last];
    }
  }

  /** Answers that bring every body to light make `r` count among the parked rows and among the new ones. */
  lemma UnsettledCountsTwice(w: World, r: RowId, mail: Mail) returns (input: Input)
    requires forall r | r in w.past.index :: r <= w.past.highest
    requires r in w.parked && r in w.past.index && Max(w.lastRowid, w.lastAnnounced) < r
    ensures ValidInput(w, input) && multiset(Backlog(w, input, mail))[r] >= 2
  {
    var rows := HasAnswer(set r | r in w.parked && r in w.past.index);
    var news := HasAnswer(set r | r in w.past.index && w.lastRowid < r);
    input := Input(Some(rows), w.past.index, w.past.highest, Some(news));
    AnswersAreValid(w, input, rows, news);
    var s1, retried := RetryRecorded(w, rows, r, mail);
    InAnswer(news, r);
    hide *;
    CatchupRecords(Shift(s1, input), news, w.lastAnnounced, mail);
    BacklogIs(w, input, s1, retried, mail);
    TwiceIn(Recorded(retried, w.lastAnnounced), Recorded(CatchupRows(Shift(s1, input), news, mail).1, w.lastAnnounced),
        r);
  }

  lemma AnswersAreValid(w: World, input: Input, rows: seq<Row>, news: seq<Row>)
    requires forall r | r in w.past.index :: r <= w.past.highest
    requires Answers(rows, set r | r in w.parked && r in w.past.index)
    requires Answers(news, set r | r in w.past.index && w.lastRowid < r)
    requires input == Input(Some(rows), w.past.index, w.past.highest, Some(news))
    ensures ValidInput(w, input)
  {
    hide Ids;
  }

  lemma BacklogIs(w: World, input: Input, s1: State, retried: seq<Success>, mail: Mail)
    requires input.newRows.Some? && RetryParked(Begin(w, []), input.parkedRows, mail) == (s1, retried)
    ensures Backlog(w, input, mail) == Recorded(retried, w.lastAnnounced)
              + Recorded(CatchupRows(Shift(s1, input), input.newRows.value, mail).1, w.lastAnnounced)
  {
    hide RetryParked, CatchupRows, Shift, Recorded;
  }

  lemma RetryRecorded(w: World, rows: seq<Row>, r: RowId, mail: Mail) returns (s: State, retried: seq<Success>)
    requires Answers(rows, set r | r in w.parked && r in w.past.index)
    requires r in w.parked && r in w.past.index && w.lastAnnounced < r
    ensures RetryParked(Begin(w, []), Some(rows), mail) == (s, retried) && r in Recorded(retried, w.lastAnnounced)
  {
    InAnswer(rows, r);
    var kept := Begin(w, []).(parked := map id | id in w.parked && id in Ids(rows) :: w.parked[id]);
    s, retried := RetryRows(kept, rows, mail).0, RetryRows(kept, rows, mail).1;
    hide RetryRows, Recorded;
    RetryRecords(kept, rows, w.lastAnnounced, mail);
  }

  lemma InAnswer(rows: seq<Row>, r: RowId)
    requires r in Ids(rows)
    ensures exists row :: row in rows && row.id == r
  {
  }

  lemma TwiceIn(a: seq<RowId>, b: seq<RowId>, r: RowId)
    requires r in a && r in b
    ensures multiset(a + b)[r] >= 2
  {
    assert multiset(a + b) == multiset(a) + multiset(b) && r in multiset(a) && r in multiset(b);
  }

  /** Every backlog counts each row once if and only if the files are settled. */
  lemma CountsOnceIffSettled(w: World, mail: Mail)
    requires forall r | r in w.past.index :: r <= w.past.highest
    ensures Settled(w) <==> forall input | ValidInput(w, input) :: Once(Backlog(w, input, mail))
  {
    hide Backlog, Once, ValidInput;
    if Settled(w) {
      forall input | ValidInput(w, input) ensures Once(Backlog(w, input, mail)) {
        SettledCountsOnce(w, input, mail);
      }
    } else {
      var r :| r in w.parked && r in w.past.index && Max(w.lastRowid, w.lastAnnounced) < r;
      var input := UnsettledCountsTwice(w, r, mail);
      NotOnce(Backlog(w, input, mail), r);
    }
  }

  lemma NotOnce(rows: seq<RowId>, r: RowId)
    requires multiset(rows)[r] >= 2
    ensures !Once(rows)
  {
  }

  /** A new row whose body is not on disk is parked, in memory only. */
  lemma NewRowIsParked(s: State, r: RowId, mail: Mail)
    requires s.parked == map[] && s.last < r
    ensures var t := LiveRows(s, [Row(r, NotAvailable)], mail);
            && t.parked == map[r := 1] && t.last == r && s.trace <= t.trace && |t.trace| == |s.trace| + 1
            && t.w.lastRowid == s.w.lastRowid && t.w.past.index == s.w.past.index
  {
    var row := Row(r, NotAvailable);
    assert [row][..0] == [];
    assert LiveRows(s, [row], mail) == LiveRow(s, row, mail);
  }

  /** Such files do occur: the drain parks a new row, saves the parked map, and crashes before it saves the cursor. */
  lemma CrashBetweenFiles(w: World, r: RowId, mail: Mail)
    requires w.parked == map[] && Max(w.lastRowid, w.lastAnnounced) < r && w.past.index == {} && w.past.highest < r
    ensures var input := Input(Some([]), {r}, r, Some([Row(r, NotAvailable)]));
            var trace := DrainLive(w, [], input, mail).trace;
            ValidInput(w, input) && |trace| == 5 && trace[3].lastRowid == w.lastRowid && r in trace[3].parked
                && !Settled(trace[3])
  {
    var input := Input(Some([]), {r}, r, Some([Row(r, NotAvailable)]));
    var row := Row(r, NotAvailable);
    assert Ids([row]) == {r};
    var s2 := Shift(Begin(w, []), input);
    NewRowIsParked(s2, r, mail);
    var s3 := LiveRows(s2, [row], mail);
    assert AnnounceRetried(Begin(w, []), [], w.lastRowid) == Begin(w, []);
    hide LiveRows;
    assert DrainLive(w, [], input, mail) == SaveIfMoved(SaveParked(s3), w.lastRowid, w.lastAnnounced);
    var v := SaveParked(s3).w;
    assert r in v.parked && r in v.past.index;
  }
}
