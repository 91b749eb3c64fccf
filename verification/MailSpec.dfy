/** What the two drains of the Mail.app inbound driver do to the disk, write by write. */
module MailSpec {
  import opened Wrappers

  type RowId = nat

  const MAX_PARK_ATTEMPTS: nat := 30

  /** A message is filed under its account and Message-ID, which may be empty. */
  datatype Key = Key(account: string, messageId: string)

  /** The contents of the mail store: which message a row stands for. */
  type Mail = RowId -> Key

  /** What `ingest_row` finds when it looks for the body of a row. */
  datatype Body = NotAvailable | Unusable | Readable(stale: bool)

  /** One row of a query result. */
  datatype Row = Row(id: RowId, body: Body)

  datatype Result = Unavailable | Skip | Created | AlreadyThere

  datatype Success = Success(id: RowId, result: Result, stale: bool)

  /** What happened so far, for the record: `index` holds the in-scope rows that exist now, `highest`
      bounds every rowid ever given out, and `boot` is the bootstrap cursor. */
  datatype History = History(boot: nat, index: set<RowId>, highest: nat,
                             filed: set<RowId>, skipped: set<RowId>, failures: multiset<RowId>, dropped: set<RowId>)

  /** Everything a crash leaves behind: the two state files, the archive, the events that went out. */
  datatype World = World(lastRowid: nat, lastAnnounced: nat, parked: map<RowId, nat>,
                         archive: multiset<Key>, told: seq<seq<RowId>>, past: History)

  /** A drain under way: `parked`, `last`, `announced` and the stale buffer live in memory only.
      `trace` lists every world there was since the drain began, so a crash leaves one of them. */
  datatype State = State(w: World, parked: map<RowId, nat>, last: nat, announced: nat,
                         buffer: seq<RowId>, trace: seq<World>)

  function Max(a: nat, b: nat): nat {
    if a < b then b else a
  }

  /** One write to the disk, or one fact for the record. */
  function Write(s: State, w: World): State {
    s.(w := w, trace := s.trace + [w])
  }

  function SaveParked(s: State): State {
    Write(s, s.w.(parked := s.parked))
  }

  function SaveCursor(s: State, last: nat): State {
    Write(s, s.w.(lastRowid := last, lastAnnounced := s.announced))
  }

  function Checkpoint(s: State, last: nat): State {
    SaveCursor(SaveParked(s), last)
  }

  function Emit(s: State, rows: seq<RowId>): State {
    Write(s, s.w.(told := s.w.told + [rows]))
  }

  function IsNew(w: World, id: RowId, mail: Mail): bool {
    mail(id).messageId == "" || mail(id) !in w.archive
  }

  function Ingest(s: State, row: Row, mail: Mail): (State, Result) {
    var past := s.w.past;
    match row.body
    case NotAvailable => (Write(s, s.w.(past := past.(failures := past.failures + multiset{row.id}))), Unavailable)
    case Unusable => (Write(s, s.w.(past := past.(skipped := past.skipped + {row.id}))), Skip)
    case Readable(_) =>
      var filed := past.(filed := past.filed + {row.id});
      if IsNew(s.w, row.id, mail) then
          (Write(s, s.w.(archive := s.w.archive + multiset{mail(row.id)}, past := filed)), Created)
      else (Write(s, s.w.(past := filed)), AlreadyThere)
  }

  function Attempts(parked: map<RowId, nat>, id: RowId): nat {
    if id in parked then parked[id] else 0
  }

  function Park(s: State, id: RowId): State {
    var attempts := Attempts(s.parked, id) + 1;
    if attempts >= MAX_PARK_ATTEMPTS then
      Write(s, s.w.(past := s.w.past.(dropped := s.w.past.dropped + {id}))).(parked := s.parked - {id})
    else
      s.(parked := s.parked[id := attempts])
  }

  function Ids(rows: seq<Row>): set<RowId> {
    set r | r in rows :: r.id
  }

  // ----- retrying the parked rows ------------------------------------------

  function RetryRow(s: State, row: Row, mail: Mail): (State, seq<Success>) {
    var (s1, result) := Ingest(s, row, mail);
    if result.Unavailable? then (Park(s1, row.id), [])
    else (s1.(parked := s1.parked - {row.id}), [Success(row.id, result, row.body.Readable? && row.body.stale)])
  }

  function RetryRows(s: State, rows: seq<Row>, mail: Mail): (State, seq<Success>) {
    if rows == [] then (s, []) else
      var (s1, done) := RetryRows(s, rows[..|rows| - 1], mail);
      var (s2, more) := RetryRow(s1, rows[|rows| - 1], mail);
      (s2, done + more)
  }

  /** Parked rows that left the index are forgotten; `rows` is None when the query failed. */
  function RetryParked(s: State, rows: Option<seq<Row>>, mail: Mail): (State, seq<Success>) {
    if s.parked == map[] || rows.None? then (s, []) else
      RetryRows(s.(parked := map id | id in s.parked && id in Ids(rows.value) :: s.parked[id]), rows.value, mail)
  }

  // ----- the live drain -----------------------------------------------------

  /** One announcement, followed at once by a checkpoint. */
  function Announce(s: State, id: RowId, stale: bool, last: nat): State {
    var s1 := if stale then s.(buffer := s.buffer + [id]) else Emit(s, [id]);
    Checkpoint(s1.(announced := Max(s1.announced, id)), last)
  }

  function AnnounceRetried(s: State, done: seq<Success>, last: nat): State {
    if done == [] then s else
      var s1 := AnnounceRetried(s, done[..|done| - 1], last);
      var d := done[|done| - 1];
      if d.result.Created? then Announce(s1, d.id, d.stale, last) else s1
  }

  /** Taking in one new row, as both drains do it before they announce anything. */
  function TakeRow(s: State, row: Row, mail: Mail): (State, Result) {
    var (s1, result) := Ingest(s, row, mail);
    ((if result.Unavailable? then Park(s1, row.id) else s1).(last := Max(s.last, row.id)), result)
  }

  function LiveRow(s: State, row: Row, mail: Mail): State {
    var (s1, result) := TakeRow(s, row, mail);
    if result.Created? then Announce(s1, row.id, row.body.Readable? && row.body.stale, s1.last) else s1
  }

  function LiveRows(s: State, rows: seq<Row>, mail: Mail): State {
    if rows == [] then s else LiveRow(LiveRows(s, rows[..|rows| - 1], mail), rows[|rows| - 1], mail)
  }

  function SaveIfMoved(s: State, last: nat, announced: nat): State {
    if s.last != last || s.announced != announced then SaveCursor(s, s.last) else s
  }

  /** What the surroundings decide about one drain: the two query results, and how the index changes
      between the queries. */
  datatype Input = Input(parkedRows: Option<seq<Row>>, index: set<RowId>, highest: nat, newRows: Option<seq<Row>>)

  function Begin(w: World, buffer: seq<RowId>): State {
    State(w, w.parked, w.lastRowid, w.lastAnnounced, buffer, [w])
  }

  function Shift(s: State, input: Input): State {
    Write(s, s.w.(past := s.w.past.(index := input.index, highest := input.highest)))
  }

  function DrainLive(w: World, buffer: seq<RowId>, input: Input, mail: Mail): State {
    var (s1, done) := RetryParked(Begin(w, buffer), input.parkedRows, mail);
    var s2 := Shift(AnnounceRetried(s1, done, w.lastRowid), input);
    var s3 := if input.newRows.Some? then LiveRows(s2, input.newRows.value, mail) else s2;
    SaveIfMoved(SaveParked(s3), w.lastRowid, w.lastAnnounced)
  }

  // ----- the boot-time drain ------------------------------------------------

  /** The rows a backlog event will count, in the order they are recorded. */
  function Recorded(done: seq<Success>, announced: nat): seq<RowId> {
    if done == [] then [] else
      var d := done[|done| - 1];
      Recorded(done[..|done| - 1], announced) + if d.result.Skip? || d.id <= announced then [] else [d.id]
  }

  function CatchupRow(s: State, row: Row, mail: Mail): (State, seq<Success>) {
    var (s1, result) := TakeRow(s, row, mail);
    if result.Unavailable? then (s1, [])
    else if result.Skip? then (s1, [Success(row.id, result, false)])
    else (s1.(announced := Max(s1.announced, row.id)), [Success(row.id, result, false)])
  }

  function CatchupRows(s: State, rows: seq<Row>, mail: Mail): (State, seq<Success>) {
    if rows == [] then (s, []) else
      var (s1, done) := CatchupRows(s, rows[..|rows| - 1], mail);
      var (s2, more) := CatchupRow(s1, rows[|rows| - 1], mail);
      (s2, done + more)
  }

  function DrainCatchup(w: World, input: Input, mail: Mail): State {
    var (s1, retried) := RetryParked(Begin(w, []), input.parkedRows, mail);
    var s2 := Shift(s1, input);
    if input.newRows.None? then SaveParked(s2) else
      var (s3, done) := CatchupRows(s2, input.newRows.value, mail);
      var rows := Recorded(retried, w.lastAnnounced) + Recorded(done, w.lastAnnounced);
      if rows != [] then Checkpoint(Emit(s3, rows), s3.last)
      else SaveIfMoved(SaveParked(s3), w.lastRowid, w.lastAnnounced)
  }
}
