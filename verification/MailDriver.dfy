/** The two drains as the driver runs them: loops that rewrite the parked map, the cursors, the archive
    and the event log in place. Each is proved to do exactly what the specification functions say. */
module MailDriver {
  import opened Wrappers
  import opened MailSpec
  import opened Seqs

  class Inbound {
    var lastRowid: nat
    var lastAnnounced: nat
    var parkedFile: map<RowId, nat>
    var archive: multiset<Key>
    var told: seq<seq<RowId>>
    var parked: map<RowId, nat>
    var buffer: seq<RowId>
    ghost var past: History
    ghost var trace: seq<World>

    /** The driver starts from what is on the disk. */
    constructor (lastRowid: nat, lastAnnounced: nat, parkedFile: map<RowId, nat>, archive: multiset<Key>,
                 told: seq<seq<RowId>>, ghost past: History)
      ensures Disk() == World(lastRowid, lastAnnounced, parkedFile, archive, told, past)
      ensures buffer == [] && trace == [Disk()]
    {
      this.lastRowid, this.lastAnnounced, this.parkedFile := lastRowid, lastAnnounced, parkedFile;
      this.archive, this.told, this.parked, this.buffer := archive, told, parkedFile, [];
      this.past, this.trace := past, [World(lastRowid, lastAnnounced, parkedFile, archive, told, past)];
    }

    /** What a crash now would leave behind. */
    ghost function Disk(): World
      reads this
    {
      World(lastRowid, lastAnnounced, parkedFile, archive, told, past)
    }

    /** The drain under way, given its two local cursors. */
    ghost function View(last: nat, announced: nat): State
      reads this
    {
      State(Disk(), parked, last, announced, buffer, trace)
    }

    ghost method Log()
      modifies this`trace
      ensures trace == old(trace) + [Disk()]
    {
      trace := trace + [Disk()];
    }

    method SaveParked()
      modifies this`parkedFile, this`trace
      ensures forall last, announced :: View(last, announced) == MailSpec.SaveParked(old(View(last, announced)))
    {
      parkedFile := parked;
      Log();
    }

    method SaveCursor(last: nat, announced: nat)
      modifies this`lastRowid, this`lastAnnounced, this`trace
      ensures forall l :: View(l, announced) == MailSpec.SaveCursor(old(View(l, announced)), last)
    {
      lastRowid, lastAnnounced := last, announced;
      Log();
    }

    method Checkpoint(last: nat, announced: nat)
      modifies this`parkedFile, this`lastRowid, this`lastAnnounced, this`trace
      ensures forall l :: View(l, announced) == MailSpec.Checkpoint(old(View(l, announced)), last)
    {
      SaveParked();
      SaveCursor(last, announced);
    }

    method EmitEvent(rows: seq<RowId>)
      modifies this`told, this`trace
      ensures forall last, announced :: View(last, announced) == Emit(old(View(last, announced)), rows)
    {
      told := told + [rows];
      Log();
    }

    method ParkFailure(id: RowId)
      modifies this`parked, this`past, this`trace
      ensures forall last, announced :: View(last, announced) == Park(old(View(last, announced)), id)
    {
      var attempts := (if id in parked then parked[id] else 0) + 1;
      if attempts >= MAX_PARK_ATTEMPTS {
        parked := parked - {id};
        past := past.(dropped := past.dropped + {id});
        Log();
      } else {
        parked := parked[id := attempts];
      }
    }

    method IngestRow(row: Row, mail: Mail) returns (result: Result)
      modifies this`archive, this`past, this`trace
      ensures forall last, announced :: (View(last, announced), result) == Ingest(old(View(last, announced)), row, mail)
    {
      match row.body {
        case NotAvailable =>
          result := Unavailable;
          past := past.(failures := past.failures + multiset{row.id});
        case Unusable =>
          result := Skip;
          past := past.(skipped := past.skipped + {row.id});
        case Readable(_) =>
          var key := mail(row.id);
          past := past.(filed := past.filed + {row.id});
          if key.messageId != "" && key in archive {
            result := AlreadyThere;
          } else {
            archive := archive + multiset{key};
            result := Created;
          }
      }
      Log();
    }

    /** Drops the parked rows that are no longer in the index. */
    method ForgetVanished(seen: set<RowId>)
      modifies this`parked
      ensures parked == map id | id in old(parked) && id in seen :: old(parked)[id]
    {
      var todo := parked.Keys;
      while todo != {}
        invariant todo <= old(parked).Keys
        invariant parked == map id | id in old(parked) && (id in todo || id in seen) :: old(parked)[id]
        decreases |todo|
      {
        var id :| id in todo;
        if id !in seen {
          parked := parked - {id};
        }
        todo := todo - {id};
      }
    }

    method RetryRow(row: Row, mail: Mail) returns (more: seq<Success>)
      modifies this`parked, this`archive, this`past, this`trace
      ensures forall last, announced ::
              (View(last, announced), more) == MailSpec.RetryRow(old(View(last, announced)), row, mail)
    {
      var result := IngestRow(row, mail);
      if result.Unavailable? {
        ParkFailure(row.id);
        more := [];
      } else {
        parked := parked - {row.id};
        more := [Success(row.id, result, row.body.Readable? && row.body.stale)];
      }
      hide Ingest, Park;
    }

    /** `last` and `announced` are the cursors of the drain that retries; they stay as they are. */
    method RetryParked(rows: Option<seq<Row>>, mail: Mail, ghost last: nat, ghost announced: nat)
                       returns (done: seq<Success>)
      modifies this`parked, this`archive, this`past, this`trace
      ensures (View(last, announced), done) == MailSpec.RetryParked(old(View(last, announced)), rows, mail)
    {
      done := [];
      if parked == map[] || rows.None? {
        return;
      }
      ForgetVanished(Ids(rows.value));
      ghost var was := View(last, announced);
      assert was == old(View(last, announced)).(parked := map id | id in old(parked) && id in Ids(rows.value) ::
          old(parked)[id]);
      hide Ids;
      hide MailSpec.RetryRow;
      for i := 0 to |rows.value|
        invariant (View(last, announced), done) == RetryRows(was, rows.value[..i], mail)
      {
        Front(rows.value, i);
        var more := RetryRow(rows.value[i], mail);
        done := done + more;
      }
      Whole(rows.value);
    }

    // ----- the live drain ---------------------------------------------------------

    method Announce(id: RowId, stale: bool, last: nat, announced: nat, ghost l: nat) returns (mark: nat)
      modifies this`parkedFile, this`lastRowid, this`lastAnnounced, this`told, this`buffer, this`trace
      ensures View(l, mark) == MailSpec.Announce(old(View(l, announced)), id, stale, last)
    {
      if stale {
        buffer := buffer + [id];
      } else {
        EmitEvent([id]);
      }
      mark := if id > announced then id else announced;
      Checkpoint(last, mark);
    }

    /** The mail store moves on between the two queries of a drain. */
    ghost method ShiftIndex(input: Input)
      modifies this`past, this`trace
      ensures forall last, announced :: View(last, announced) == Shift(old(View(last, announced)), input)
    {
      past := past.(index := input.index, highest := input.highest);
      Log();
    }

    method TakeRow(row: Row, mail: Mail, last: nat, ghost announced: nat) returns (newLast: nat, result: Result)
      modifies this`parked, this`archive, this`past, this`trace
      ensures (View(newLast, announced), result) == MailSpec.TakeRow(old(View(last, announced)), row, mail)
    {
      result := IngestRow(row, mail);
      if result.Unavailable? {
        ParkFailure(row.id);
      }
      newLast := if last < row.id then row.id else last;
      hide Ingest, Park;
    }

    method LiveRow(row: Row, mail: Mail, last: nat, announced: nat) returns (newLast: nat, mark: nat)
      modifies this
      ensures View(newLast, mark) == MailSpec.LiveRow(old(View(last, announced)), row, mail)
    {
      var result;
      newLast, result := TakeRow(row, mail, last, announced);
      mark := announced;
      if result.Created? {
        mark := Announce(row.id, row.body.Readable? && row.body.stale, newLast, announced, newLast);
      }
      hide MailSpec.TakeRow, MailSpec.Announce;
    }

    method AnnounceRetried(done: seq<Success>, last: nat, announced: nat) returns (mark: nat)
      modifies this
      ensures View(last, mark) == MailSpec.AnnounceRetried(old(View(last, announced)), done, last)
    {
      mark := announced;
      hide MailSpec.Announce;
      for i := 0 to |done|
        invariant View(last, mark) == MailSpec.AnnounceRetried(old(View(last, announced)), done[..i], last)
      {
        Front(done, i);
        if done[i].result.Created? {
          mark := Announce(done[i].id, done[i].stale, last, mark, last);
        }
      }
      Whole(done);
    }

    method LiveRows(rows: seq<Row>, mail: Mail, last: nat, announced: nat) returns (newLast: nat, mark: nat)
      modifies this
      ensures View(newLast, mark) == MailSpec.LiveRows(old(View(last, announced)), rows, mail)
    {
      newLast, mark := last, announced;
      hide MailSpec.LiveRow;
      for i := 0 to |rows|
        invariant View(newLast, mark) == MailSpec.LiveRows(old(View(last, announced)), rows[..i], mail)
      {
        Front(rows, i);
        newLast, mark := LiveRow(rows[i], mail, newLast, mark);
      }
      Whole(rows);
    }

    method SaveIfMoved(newLast: nat, mark: nat, last: nat, announced: nat)
      modifies this`lastRowid, this`lastAnnounced, this`trace
      ensures View(newLast, mark) == MailSpec.SaveIfMoved(old(View(newLast, mark)), last, announced)
    {
      if newLast != last || mark != announced {
        SaveCursor(newLast, mark);
      }
    }

    /** Runs from the loaded files; `input` is what the two queries answer. */
    method DrainLive(input: Input, mail: Mail)
      requires trace == [Disk()]
      modifies this
      ensures var t := MailSpec.DrainLive(old(Disk()), old(buffer), input, mail);
              Disk() == t.w && buffer == t.buffer && trace == t.trace && parked == t.parked
    {
      parked := parkedFile;
      var last, announced := lastRowid, lastAnnounced;
      assert View(last, announced) == Begin(old(Disk()), old(buffer));
      var done := RetryParked(input.parkedRows, mail, last, announced);
      var mark := AnnounceRetried(done, last, announced);
      ShiftIndex(input);
      var newLast := last;
      if input.newRows.Some? {
        newLast, mark := LiveRows(input.newRows.value, mail, last, mark);
      }
      SaveParked();
      SaveIfMoved(newLast, mark, last, announced);
      hide Begin, MailSpec.RetryParked, MailSpec.AnnounceRetried, Shift, MailSpec.LiveRows, MailSpec.SaveParked,
          MailSpec.SaveIfMoved;
    }

    // ----- the boot-time drain ------------------------------------------------------

    /** The successes that count towards the backlog. */
    method Record(done: seq<Success>, announced: nat) returns (rows: seq<RowId>)
      ensures rows == Recorded(done, announced)
    {
      rows := [];
      for i := 0 to |done|
        invariant rows == Recorded(done[..i], announced)
      {
        Front(done, i);
        if !done[i].result.Skip? && announced < done[i].id {
          rows := rows + [done[i].id];
        }
      }
      Whole(done);
    }

    method CatchupRow(row: Row, mail: Mail, last: nat, announced: nat)
                      returns (newLast: nat, mark: nat, more: seq<Success>)
      modifies this
      ensures (View(newLast, mark), more) == MailSpec.CatchupRow(old(View(last, announced)), row, mail)
    {
      var result;
      newLast, result := TakeRow(row, mail, last, announced);
      mark := announced;
      more := [];
      if !result.Unavailable? {
        more := [Success(row.id, result, false)];
        if !result.Skip? && row.id > mark {
          mark := row.id;
        }
      }
      hide MailSpec.TakeRow;
    }

    method CatchupRows(rows: seq<Row>, mail: Mail, last: nat, announced: nat)
                       returns (newLast: nat, mark: nat, done: seq<Success>)
      modifies this
      ensures (View(newLast, mark), done) == MailSpec.CatchupRows(old(View(last, announced)), rows, mail)
    {
      newLast, mark, done := last, announced, [];
      hide MailSpec.CatchupRow;
      for i := 0 to |rows|
        invariant (View(newLast, mark), done) == MailSpec.CatchupRows(old(View(last, announced)), rows[..i], mail)
      {
        Front(rows, i);
        var more;
        newLast, mark, more := CatchupRow(rows[i], mail, newLast, mark);
        done := done + more;
      }
      Whole(rows);
    }

    method AnnounceBacklog(rows: seq<RowId>, newLast: nat, mark: nat, last: nat, announced: nat)
      modifies this
      ensures View(newLast, mark) ==
              if rows != [] then MailSpec.Checkpoint(Emit(old(View(newLast, mark)), rows), newLast)
              else MailSpec.SaveIfMoved(MailSpec.SaveParked(old(View(newLast, mark))), last, announced)
    {
      if rows != [] {
        EmitEvent(rows);
        Checkpoint(newLast, mark);
      } else {
        SaveParked();
        SaveIfMoved(newLast, mark, last, announced);
      }
    }

    /** The second half of the boot-time drain, from the state that `start` describes. */
    method CatchupDelta(news: seq<Row>, mail: Mail, counted: seq<RowId>, ghost start: State)
                        returns (newLast: nat, mark: nat)
      requires start == View(lastRowid, lastAnnounced)
      modifies this
      ensures var (s3, done) := MailSpec.CatchupRows(start, news, mail);
              var rows := counted + Recorded(done, old(lastAnnounced));
              View(newLast, mark) ==
              if rows != [] then MailSpec.Checkpoint(Emit(s3, rows), s3.last)
              else MailSpec.SaveIfMoved(MailSpec.SaveParked(s3), old(lastRowid), old(lastAnnounced))
    {
      var last, announced := lastRowid, lastAnnounced;
      hide MailSpec.CatchupRows, Recorded, Emit, MailSpec.Checkpoint, MailSpec.SaveParked, MailSpec.SaveIfMoved;
      var done;
      newLast, mark, done := CatchupRows(news, mail, last, announced);
      var more := Record(done, announced);
      AnnounceBacklog(counted + more, newLast, mark, last, announced);
    }

    method DrainCatchup(input: Input, mail: Mail)
      requires trace == [Disk()] && buffer == []
      modifies this
      ensures var t := MailSpec.DrainCatchup(old(Disk()), input, mail);
              Disk() == t.w && buffer == t.buffer && trace == t.trace && parked == t.parked
    {
      parked := parkedFile;
      ghost var last, announced := lastRowid, lastAnnounced;
      assert View(last, announced) == Begin(old(Disk()), []);
      hide Begin, MailSpec.RetryParked, Shift, MailSpec.CatchupRows, Recorded, Emit, MailSpec.Checkpoint,
          MailSpec.SaveIfMoved;
      var retried := RetryParked(input.parkedRows, mail, last, announced);
      var counted := Record(retried, lastAnnounced);
      ShiftIndex(input);
      if input.newRows.None? {
        SaveParked();
        assert View(last, announced) == MailSpec.DrainCatchup(old(Disk()), input, mail);
      } else {
        var newLast, mark := CatchupDelta(input.newRows.value, mail, counted, View(last, announced));
        hide MailSpec.SaveParked;
        assert View(newLast, mark) == MailSpec.DrainCatchup(old(Disk()), input, mail);
      }
    }

    /** The stale buffer becomes one event once it has been quiet for a while. */
    method FlushStale()
      modifies this`told, this`buffer, this`trace
      ensures Disk() == old(Disk()).(told := if old(buffer) == [] then old(told) else old(told) + [old(buffer)])
              && buffer == []
    {
      if buffer != [] {
        EmitEvent(buffer);
        assert View(0, 0) == Emit(old(View(0, 0)), old(buffer));
        buffer := [];
      }
    }
  }
}
