/** Crash safety of mail ingestion: no in-scope row falls behind the cursor unaccounted for. */
module MailSafety {
  import opened Wrappers
  import opened MailSpec

  /** Why a row need not be looked at again from the beginning. */
  predicate Accounted(w: World, parked: map<RowId, nat>, r: RowId, mail: Mail) {
    || (r in w.past.filed && mail(r) in w.archive)
    || r in w.past.skipped
    || r in parked
    || r in w.past.dropped
  }

  /** The attempt counter never exceeds the number of failures there were. */
  predicate Counted(parked: map<RowId, nat>, past: History) {
    forall r | r in parked :: parked[r] <= past.failures[r]
  }

  ghost predicate WorldOk(w: World, mail: Mail) {
    && (forall r | r in w.past.index && w.past.boot < r <= w.lastRowid :: Accounted(w, w.parked, r, mail))
    && (forall r | r in w.past.dropped :: w.past.failures[r] >= MAX_PARK_ATTEMPTS)
    && Counted(w.parked, w.past)
    && (forall r | r in w.past.index :: r <= w.past.highest)
    && w.lastRowid <= w.past.highest
  }

  /** Time moves forward: cursors never move back, archived messages and emitted events stay. */
  predicate Ascends(a: World, b: World) {
    && a.lastRowid <= b.lastRowid && a.lastAnnounced <= b.lastAnnounced
    && a.archive <= b.archive && a.told <= b.told && a.past.filed <= b.past.filed
  }

  ghost predicate TraceOk(trace: seq<World>, w: World, mail: Mail) {
    && trace != [] && trace[|trace| - 1] == w
    && (forall i | 0 <= i < |trace| :: WorldOk(trace[i], mail))
    && (forall i, j | 0 <= i <= j < |trace| :: Ascends(trace[i], trace[j]))
  }

  /** What the memory of a drain must know before it may be written out. */
  ghost predicate MemoryOk(s: State, mail: Mail) {
    && (forall r | r in s.w.past.index && s.w.past.boot < r <= s.last :: Accounted(s.w, s.parked, r, mail))
    && Counted(s.parked, s.w.past)
    && s.w.lastRowid <= s.last <= s.w.past.highest
    && s.w.lastAnnounced <= s.announced
  }

  ghost predicate StateOk(s: State, mail: Mail) {
    TraceOk(s.trace, s.w, mail) && MemoryOk(s, mail)
  }

  lemma WriteKeeps(s: State, w: World, mail: Mail)
    requires TraceOk(s.trace, s.w, mail) && WorldOk(w, mail) && Ascends(s.w, w)
    ensures TraceOk(Write(s, w).trace, w, mail)
  {
    hide WorldOk;
    var t := s.trace + [w];
    forall i, j | 0 <= i <= j < |t| ensures Ascends(t[i], t[j]) {
      if i < j == |s.trace| {
        assert Ascends(s.trace[i], s.trace[|s.trace| - 1]);
      }
    }
  }

  /** Only the state files and the log of events differ. */
  ghost predicate SameRecord(s: State, t: State) {
    && t == s.(w := t.w, announced := t.announced, buffer := t.buffer, trace := t.trace)
    && t.w.past == s.w.past && t.w.archive == s.w.archive
  }

  lemma CheckpointKeeps(s: State, last: nat, mail: Mail)
    requires StateOk(s, mail) && s.w.lastRowid <= last <= s.last
    ensures StateOk(Checkpoint(s, last), mail)
    ensures SameRecord(s, Checkpoint(s, last))
  {
    var s1 := SaveParked(s);
    SaveParkedKeeps(s, mail);
    hide TraceOk;
    assert WorldOk(SaveCursor(s1, last).w, mail);
    WriteKeeps(s1, SaveCursor(s1, last).w, mail);
  }

  /** The parked map is saved first: until the cursor moves, it only adds reasons. */
  lemma SaveParkedKeeps(s: State, mail: Mail)
    requires StateOk(s, mail)
    ensures StateOk(SaveParked(s), mail)
  {
    assert WorldOk(s.w, mail) by { assert s.w == s.trace[|s.trace| - 1]; }
    hide TraceOk;
    WriteKeeps(s, SaveParked(s).w, mail);
  }

  lemma SaveIfMovedKeeps(s: State, last: nat, announced: nat, mail: Mail)
    requires StateOk(s, mail) && s.w.parked == s.parked
    ensures StateOk(SaveIfMoved(s, last, announced), mail)
  {
    LastIsOk(s, mail);
    hide TraceOk;
    WriteKeeps(s, SaveCursor(s, s.last).w, mail);
  }

  lemma LastIsOk(s: State, mail: Mail)
    requires TraceOk(s.trace, s.w, mail)
    ensures WorldOk(s.w, mail)
  {
  }

  /** `b` records more than `a` but has the same cursor files and the same index. */
  ghost predicate Gains(a: World, b: World) {
    && b == a.(archive := b.archive, past := b.past)
    && b.past == a.past.(filed := b.past.filed, skipped := b.past.skipped, failures := b.past.failures,
        dropped := b.past.dropped)
    && a.archive <= b.archive && a.past.filed <= b.past.filed && a.past.skipped <= b.past.skipped
    && a.past.failures <= b.past.failures && a.past.dropped <= b.past.dropped
  }

  lemma GainsKeeps(s: State, w: World, mail: Mail)
    requires StateOk(s, mail) && Gains(s.w, w)
    requires forall r | r in w.past.dropped :: w.past.failures[r] >= MAX_PARK_ATTEMPTS
    ensures StateOk(Write(s, w), mail)
  {
    LastIsOk(s, mail);
    hide TraceOk;
    GainsAccount(s.w, w, s.w.parked, mail);
    GainsAccount(s.w, w, s.parked, mail);
    hide Accounted;
    WriteKeeps(s, w, mail);
  }

  lemma GainsAccount(a: World, b: World, parked: map<RowId, nat>, mail: Mail)
    requires Gains(a, b)
    ensures forall r :: Accounted(a, parked, r, mail) ==> Accounted(b, parked, r, mail)
    ensures Counted(parked, a.past) ==> Counted(parked, b.past)
  {
  }

  lemma IngestGains(s: State, row: Row, mail: Mail)
    requires MemoryOk(s, mail)
    ensures var (t, result) := Ingest(s, row, mail);
            && t == Write(s, t.w) && Gains(s.w, t.w) && t.w.past.dropped == s.w.past.dropped
            && (result.Unavailable? ==> t.w.past.failures[row.id] >= Attempts(s.parked, row.id) + 1)
            && (!result.Unavailable? ==> forall parked :: Accounted(t.w, parked, row.id, mail))
  {
  }

  lemma IngestKeeps(s: State, row: Row, mail: Mail)
    requires StateOk(s, mail)
    ensures var (t, result) := Ingest(s, row, mail);
            && StateOk(t, mail) && t == Write(s, t.w) && Gains(s.w, t.w)
            && (result.Unavailable? ==> t.w.past.failures[row.id] >= Attempts(s.parked, row.id) + 1)
            && (!result.Unavailable? ==> forall parked :: Accounted(t.w, parked, row.id, mail))
  {
    LastIsOk(s, mail);
    IngestGains(s, row, mail);
    hide TraceOk, MemoryOk, Ingest, Accounted;
    var w := Ingest(s, row, mail).0.w;
    forall r | r in w.past.dropped ensures w.past.failures[r] >= MAX_PARK_ATTEMPTS {
      assert r in s.w.past.dropped;
    }
    GainsKeeps(s, w, mail);
  }

  lemma ParkKeeps(s: State, id: RowId, mail: Mail)
    requires StateOk(s, mail) && s.w.past.failures[id] >= Attempts(s.parked, id) + 1
    ensures var t := Park(s, id);
            && StateOk(t, mail) && t == s.(w := t.w, parked := t.parked, trace := t.trace)
            && Gains(s.w, t.w) && t.w.archive == s.w.archive
            && Accounted(t.w, t.parked, id, mail)
            && (forall r | r != id :: r in t.parked <==> r in s.parked)
  {
    LastIsOk(s, mail);
    var t := Park(s, id);
    if Attempts(s.parked, id) + 1 >= MAX_PARK_ATTEMPTS {
      GainsKeeps(s, t.w, mail);
    }
    hide TraceOk;
  }

  // ----- the retry pass --------------------------------------------------------

  /** The answer to a query for the parked rows: those still in the index, in ascending order. */
  ghost predicate ValidRetry(s: State, rows: seq<Row>) {
    && (forall r :: r in Ids(rows) <==> r in s.parked && r in s.w.past.index)
    && (forall i, j | 0 <= i < j < |rows| :: rows[i].id < rows[j].id)
  }

  lemma RetryRowKeeps(s: State, row: Row, mail: Mail)
    requires StateOk(s, mail)
    ensures var t := RetryRow(s, row, mail).0;
            StateOk(t, mail) && t == s.(w := t.w, parked := t.parked, trace := t.trace) && Gains(s.w, t.w)
  {
    var (s1, result) := Ingest(s, row, mail);
    IngestKeeps(s, row, mail);
    hide TraceOk;
    if result.Unavailable? {
      ParkKeeps(s1, row.id, mail);
    }
  }

  lemma {:induction false} RetryRowsKeep(s: State, rows: seq<Row>, mail: Mail)
    requires StateOk(s, mail)
    ensures var t := RetryRows(s, rows, mail).0;
            StateOk(t, mail) && t == s.(w := t.w, parked := t.parked, trace := t.trace) && Gains(s.w, t.w)
  {
    hide TraceOk, MemoryOk;
    if rows != [] {
      RetryRowsKeep(s, rows[..|rows| - 1], mail);
      RetryRowKeeps(RetryRows(s, rows[..|rows| - 1], mail).0, rows[|rows| - 1], mail);
    }
  }

  /** Parked rows that left the index need no reason any more. */
  lemma ForgetKeeps(s: State, rows: seq<Row>, mail: Mail)
    requires StateOk(s, mail) && ValidRetry(s, rows)
    ensures StateOk(s.(parked := map id | id in s.parked && id in Ids(rows) :: s.parked[id]), mail)
  {
    hide TraceOk;
  }

  lemma RetryKeeps(s: State, rows: Option<seq<Row>>, mail: Mail)
    requires StateOk(s, mail) && (rows.Some? ==> ValidRetry(s, rows.value))
    ensures var t := RetryParked(s, rows, mail).0;
            StateOk(t, mail) && t == s.(w := t.w, parked := t.parked, trace := t.trace) && Gains(s.w, t.w)
  {
    if s.parked != map[] && rows.Some? {
      var kept := s.(parked := map id | id in s.parked && id in Ids(rows.value) :: s.parked[id]);
      ForgetKeeps(s, rows.value, mail);
      hide StateOk;
      RetryRowsKeep(kept, rows.value, mail);
    }
  }

  // ----- announcing ------------------------------------------------------------

  lemma AnnounceKeeps(s: State, id: RowId, stale: bool, mail: Mail)
    requires StateOk(s, mail)
    ensures StateOk(Announce(s, id, stale, s.last), mail) && SameRecord(s, Announce(s, id, stale, s.last))
  {
    var s1 := if stale then s.(buffer := s.buffer + [id]) else Emit(s, [id]);
    LastIsOk(s, mail);
    if !stale {
      WriteKeeps(s, s1.w, mail);
    }
    hide TraceOk;
    CheckpointKeeps(s1.(announced := Max(s1.announced, id)), s.last, mail);
  }

  lemma {:induction false} AnnounceRetriedKeeps(s: State, done: seq<Success>, mail: Mail)
    requires StateOk(s, mail)
    ensures StateOk(AnnounceRetried(s, done, s.last), mail) && SameRecord(s, AnnounceRetried(s, done, s.last))
  {
    hide StateOk;
    if done != [] {
      AnnounceRetriedKeeps(s, done[..|done| - 1], mail);
      var d := done[|done| - 1];
      AnnounceKeeps(AnnounceRetried(s, done[..|done| - 1], s.last), d.id, d.stale, mail);
    }
  }

  /** Between the queries rows may leave the index, and rows that enter it get new numbers. */
  ghost predicate ValidShift(s: State, input: Input) {
    && (forall r | r in input.index :: r in s.w.past.index || s.w.past.highest < r)
    && (forall r | r in input.index :: r <= input.highest)
    && s.w.past.highest <= input.highest
  }

  lemma ShiftKeeps(s: State, input: Input, mail: Mail)
    requires StateOk(s, mail) && ValidShift(s, input)
    ensures StateOk(Shift(s, input), mail)
  {
    LastIsOk(s, mail);
    WriteKeeps(s, Shift(s, input).w, mail);
    hide TraceOk;
  }

  // ----- the new rows ------------------------------------------------------------

  /** The answer to the delta query: every in-scope row above the cursor, in ascending order. */
  ghost predicate ValidDelta(index: set<RowId>, last: nat, rows: seq<Row>) {
    && (forall r :: r in Ids(rows) <==> r in index && last < r)
    && (forall i, j | 0 <= i < j < |rows| :: rows[i].id < rows[j].id)
  }

  /** `row` is the next one: nothing in the index lies between it and what was processed before. */
  ghost predicate IsNext(s: State, row: Row) {
    s.last < row.id && row.id in s.w.past.index && forall r | r in s.w.past.index && r <= row.id ::
        r <= s.last || r == row.id
  }

  /** Once a row is accounted for in memory, the drain may count it as passed. */
  lemma AdvanceKeeps(s: State, row: Row, mail: Mail)
    requires StateOk(s, mail) && IsNext(s, row) && Accounted(s.w, s.parked, row.id, mail)
    ensures StateOk(s.(last := row.id), mail)
  {
    LastIsOk(s, mail);
    hide TraceOk, Accounted;
  }

  lemma RaiseKeeps(s: State, announced: nat, mail: Mail)
    requires StateOk(s, mail) && s.announced <= announced
    ensures StateOk(s.(announced := announced), mail)
  {
    hide TraceOk;
  }

  lemma TakeRowKeeps(s: State, row: Row, mail: Mail)
    requires StateOk(s, mail) && IsNext(s, row)
    ensures var t := TakeRow(s, row, mail).0;
            && StateOk(t, mail) && t == s.(w := t.w, parked := t.parked, last := row.id, trace := t.trace)
                && Gains(s.w, t.w)
  {
    var (s1, result) := Ingest(s, row, mail);
    IngestKeeps(s, row, mail);
    hide StateOk;
    if result.Unavailable? {
      ParkKeeps(s1, row.id, mail);
      hide Ingest, Park, Accounted;
      AdvanceKeeps(Park(s1, row.id), row, mail);
    } else {
      hide Ingest, Accounted;
      AdvanceKeeps(s1, row, mail);
    }
  }

  lemma LiveRowKeeps(s: State, row: Row, mail: Mail)
    requires StateOk(s, mail) && IsNext(s, row)
    ensures var t := LiveRow(s, row, mail);
            StateOk(t, mail) && t.last == row.id && t.w.past.index == s.w.past.index
  {
    hide StateOk;
    TakeRowKeeps(s, row, mail);
    AnnounceKeeps(TakeRow(s, row, mail).0, row.id, row.body.Readable? && row.body.stale, mail);
  }

  lemma CatchupRowKeeps(s: State, row: Row, mail: Mail)
    requires StateOk(s, mail) && IsNext(s, row)
    ensures var t := CatchupRow(s, row, mail).0;
            StateOk(t, mail) && t.last == row.id && t.w.past.index == s.w.past.index
  {
    TakeRowKeeps(s, row, mail);
    hide StateOk, TakeRow;
    var (s1, result) := TakeRow(s, row, mail);
    if !result.Unavailable? && !result.Skip? {
      RaiseKeeps(s1, Max(s1.announced, row.id), mail);
    }
  }

  /** In a sorted and complete answer, each row is the next one when its turn comes. */
  lemma NextInLine(s: State, last: nat, rows: seq<Row>, i: nat)
    requires ValidDelta(s.w.past.index, last, rows) && i < |rows|
    requires s.last == if i == 0 then last else rows[i - 1].id
    ensures IsNext(s, rows[i])
  {
    assert rows[i].id in Ids(rows);
    if i > 0 {
      assert rows[i - 1].id in Ids(rows);
    }
    forall r | r in s.w.past.index && last < r <= rows[i].id ensures r <= s.last || r == rows[i].id {
      assert r in Ids(rows);
      var j :| 0 <= j < |rows| && rows[j].id == r;
    }
  }

  /** The state after the first `i` rows. */
  lemma {:induction false} LiveRowsKeep(s: State, rows: seq<Row>, i: nat, mail: Mail)
    requires StateOk(s, mail) && ValidDelta(s.w.past.index, s.last, rows) && i <= |rows|
    ensures var t := LiveRows(s, rows[..i], mail);
            && StateOk(t, mail) && t.w.past.index == s.w.past.index
            && t.last == if i == 0 then s.last else rows[i - 1].id
  {
    hide StateOk, ValidDelta;
    if i > 0 {
      LiveRowsKeep(s, rows, i - 1, mail);
      assert rows[..i][..i - 1] == rows[..i - 1];
      var t := LiveRows(s, rows[..i - 1], mail);
      NextInLine(t, s.last, rows, i - 1);
      LiveRowKeeps(t, rows[i - 1], mail);
    }
  }

  lemma {:induction false} CatchupRowsKeep(s: State, rows: seq<Row>, i: nat, mail: Mail)
    requires StateOk(s, mail) && ValidDelta(s.w.past.index, s.last, rows) && i <= |rows|
    ensures var t := CatchupRows(s, rows[..i], mail).0;
            && StateOk(t, mail) && t.w.past.index == s.w.past.index
            && t.last == if i == 0 then s.last else rows[i - 1].id
  {
    hide StateOk, ValidDelta;
    if i > 0 {
      CatchupRowsKeep(s, rows, i - 1, mail);
      assert rows[..i][..i - 1] == rows[..i - 1];
      var t := CatchupRows(s, rows[..i - 1], mail).0;
      NextInLine(t, s.last, rows, i - 1);
      CatchupRowKeeps(t, rows[i - 1], mail);
    }
  }

  // ----- whole drains ------------------------------------------------------------

  /** What the surroundings may present to a drain that starts from `w`. */
  ghost predicate ValidInput(w: World, input: Input) {
    && (input.parkedRows.Some? ==> ValidRetry(Begin(w, []), input.parkedRows.value))
    && ValidShift(Begin(w, []), input)
    && (input.newRows.Some? ==> ValidDelta(input.index, w.lastRowid, input.newRows.value))
  }

  lemma BeginIsOk(w: World, buffer: seq<RowId>, mail: Mail)
    requires WorldOk(w, mail)
    ensures StateOk(Begin(w, buffer), mail)
  {
  }

  /** Every crash point of a live drain is safe, and so is its end; nothing ever moves back. */
  lemma LiveIsSafe(w: World, buffer: seq<RowId>, input: Input, mail: Mail)
    requires WorldOk(w, mail) && ValidInput(w, input)
    ensures StateOk(DrainLive(w, buffer, input, mail), mail)
  {
    BeginIsOk(w, buffer, mail);
    RetryKeeps(Begin(w, buffer), input.parkedRows, mail);
    hide StateOk, WorldOk;
    var (s1, done) := RetryParked(Begin(w, buffer), input.parkedRows, mail);
    AnnounceRetriedKeeps(s1, done, mail);
    ShiftKeeps(AnnounceRetried(s1, done, w.lastRowid), input, mail);
    var s2 := Shift(AnnounceRetried(s1, done, w.lastRowid), input);
    if input.newRows.Some? {
      var rows := input.newRows.value;
      LiveRowsKeep(s2, rows, |rows|, mail);
      assert rows[..|rows|] == rows;
    }
    var s3 := if input.newRows.Some? then LiveRows(s2, input.newRows.value, mail) else s2;
    SaveParkedKeeps(s3, mail);
    SaveIfMovedKeeps(SaveParked(s3), w.lastRowid, w.lastAnnounced, mail);
  }

  lemma CatchupIsSafe(w: World, input: Input, mail: Mail)
    requires WorldOk(w, mail) && ValidInput(w, input)
    ensures StateOk(DrainCatchup(w, input, mail), mail)
  {
    BeginIsOk(w, [], mail);
    RetryKeeps(Begin(w, []), input.parkedRows, mail);
    hide StateOk, WorldOk;
    var (s1, retried) := RetryParked(Begin(w, []), input.parkedRows, mail);
    ShiftKeeps(s1, input, mail);
    var s2 := Shift(s1, input);
    if input.newRows.None? {
      SaveParkedKeeps(s2, mail);
    } else {
      BacklogEnds(s2, input.newRows.value, retried, w, mail);
    }
    hide RetryParked, CatchupRows, Shift, Emit, Checkpoint, SaveParked, SaveIfMoved, Recorded;
  }

  /** The delta rows of the boot-time drain, then the one event or the two conditional saves. */
  lemma BacklogEnds(s: State, rows: seq<Row>, retried: seq<Success>, w: World, mail: Mail)
    requires StateOk(s, mail) && ValidDelta(s.w.past.index, s.last, rows)
    ensures var (t, done) := CatchupRows(s, rows, mail);
            var told := Recorded(retried, w.lastAnnounced) + Recorded(done, w.lastAnnounced);
            StateOk(if told != [] then Checkpoint(Emit(t, told), t.last)
                    else SaveIfMoved(SaveParked(t), w.lastRowid, w.lastAnnounced), mail)
  {
    CatchupRowsKeep(s, rows, |rows|, mail);
    assert rows[..|rows|] == rows;
    var (t, done) := CatchupRows(s, rows, mail);
    BacklogKeeps(t, Recorded(retried, w.lastAnnounced) + Recorded(done, w.lastAnnounced), mail);
    SaveParkedKeeps(t, mail);
    SaveIfMovedKeeps(SaveParked(t), w.lastRowid, w.lastAnnounced, mail);
    hide CatchupRows, Recorded, Emit, Checkpoint, StateOk, SaveIfMoved, ValidDelta;
  }

  lemma BacklogKeeps(s: State, rows: seq<RowId>, mail: Mail)
    requires StateOk(s, mail)
    ensures StateOk(Checkpoint(Emit(s, rows), s.last), mail)
  {
    LastIsOk(s, mail);
    WriteKeeps(s, Emit(s, rows).w, mail);
    hide TraceOk;
    CheckpointKeeps(Emit(s, rows), s.last, mail);
  }
}
