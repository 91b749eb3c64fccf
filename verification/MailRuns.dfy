/** Whole runs of the mail driver: live drains, boots, flushes of the stale buffer, stops, and crashes at any write. */
module MailRuns {
  import opened Wrappers
  import opened MailSpec
  import opened MailSafety
  import opened MailCosts
  import opened MailFrames
  import opened MailRepeats
  import opened MailBacklog
  import opened MailOnce
  import opened Seqs

  // ----- the boot-time drain, crash point by crash point -----------------------

  /** Every world of a boot-time drain, and so every crash point, is a boot point for its one event. */
  lemma CatchupPoints(w: World, input: Input, mail: Mail)
    requires Backed(w, [], mail) && ValidInput(w, input)
    requires forall r | r in w.past.index :: r <= w.past.highest
    ensures BootInv(w, DrainCatchup(w, input, mail), Backlog(w, input, mail), mail)
  {
    var rows := Backlog(w, input, mail);
    BootRetry(w, input, rows, mail);
    var s2 := Shift(RetryParked(Begin(w, []), input.parkedRows, mail).0, input);
    if input.newRows.None? {
      hide BootInv, Backlog, RetryParked, Shift, ValidInput, Backed;
      BootParked(w, s2, rows, mail);
    } else {
      BootDelta(w, s2, input, rows, mail);
      BacklogRows(w, input, mail);
      var s3 := BeforeEvent(w, input, mail);
      DrainShape(w, input, mail);
      hide BootInv, Backlog, Recorded, BeforeEvent, DrainCatchup, RetryParked, CatchupRows, Shift, DoneOk, Missing,
          ValidInput;
      BootFinish(w, s3, rows, mail);
    }
  }

  lemma DrainShape(w: World, input: Input, mail: Mail)
    requires input.newRows.Some?
    ensures DrainCatchup(w, input, mail) == FinishBoot(w, BeforeEvent(w, input, mail), Backlog(w, input, mail))
  {
    hide RetryParked, CatchupRows, Recorded, Shift;
  }

  /** The end of a boot-time drain, from its event on. */
  function FinishBoot(w: World, s: State, rows: seq<RowId>): State {
    if rows != [] then Checkpoint(Emit(s, rows), s.last) else SaveIfMoved(SaveParked(s), w.lastRowid, w.lastAnnounced)
  }

  lemma BootFinish(w: World, s: State, rows: seq<RowId>, mail: Mail)
    requires BootInv(w, s, rows, mail) && s.w.told == w.told
    requires forall r | r in rows :: Filed(s.w, mail, r)
    ensures BootInv(w, FinishBoot(w, s, rows), rows, mail)
  {
    hide BootInv;
    if rows != [] {
      BootEmit(w, s, rows, mail);
      BootParked(w, Emit(s, rows), rows, mail);
      BootCursor(w, SaveParked(Emit(s, rows)), rows, mail);
    } else {
      BootParked(w, s, rows, mail);
      BootCursor(w, SaveParked(s), rows, mail);
    }
  }

  /** The parked rows on whose body the two queries of a boot disagree: found and then gone, or, for a row without
      Message-ID, not found and then there. Both queries see only rows above the cursor, and those are parked only
      after a crash between the two state files. */
  function Wavering(w: World, input: Input, mail: Mail): set<RowId> {
    if input.newRows.None? then {} else
      set r | r in w.parked
              && ((r in FoundBy(input.parkedRows) && r in Missing(input.newRows.value))
                  || (r !in FoundBy(input.parkedRows) && r in Found(input.newRows.value) && Nameless(mail, r)))
  }

  /** A parked row whose body is found is parked no longer. */
  lemma {:induction false} FoundLeave(s: State, rows: seq<Row>, mail: Mail)
    requires forall i, j | 0 <= i < j < |rows| :: rows[i].id < rows[j].id
    ensures forall r | r in Found(rows) :: r !in RetryRows(s, rows, mail).0.parked
  {
    if rows != [] {
      var front, row := rows[..|rows| - 1], rows[|rows| - 1];
      FoundLeave(s, front, mail);
      FoundSnoc(rows);
      RetryRowFrame(RetryRows(s, front, mail).0, row, mail);
      forall r | r in Found(front) ensures r != row.id {
        assert exists q :: q in front && q.id == r;
      }
      hide RetryRow, Found;
    }
  }

  lemma FoundLeaves(w: World, rows: Option<seq<Row>>, mail: Mail)
    requires rows.Some? ==> ValidRetry(Begin(w, []), rows.value)
    ensures forall r | r in FoundBy(rows) :: r !in RetryParked(Begin(w, []), rows, mail).0.parked
  {
    if rows.Some? && w.parked != map[] {
      FoundLeave(Begin(w, []).(parked := map id | id in w.parked && id in Ids(rows.value) :: w.parked[id]), rows.value,
          mail);
    }
    hide RetryRows, Found;
  }

  /** What the two halves of a boot-time drain tell of a row that its event lists. */
  lemma ListedRow(w: World, input: Input, mail: Mail, r: RowId)
    requires Backed(w, [], mail) && ValidInput(w, input) && input.newRows.Some?
    requires forall x | x in w.past.index :: x <= w.past.highest
    requires r in Backlog(w, input, mail)
    ensures var t := BeforeEvent(w, input, mail);
            r in t.parked ==> r in Wavering(w, input, mail) || (!Nameless(mail, r) && r <= t.announced)
    ensures r in input.index ==> r <= BeforeEvent(w, input, mail).last
  {
    BootRetry(w, input, [], mail);
    FoundLeaves(w, input.parkedRows, mail);
    var (s1, retried) := RetryParked(Begin(w, []), input.parkedRows, mail);
    var s2 := Shift(s1, input);
    BootDelta(w, s2, input, [], mail);
    var news := input.newRows.value;
    CatchupDone(s2, news, mail, input.index);
    var (t, done) := CatchupRows(s2, news, mail);
    assert Backlog(w, input, mail) == Recorded(retried, w.lastAnnounced) + Recorded(done, w.lastAnnounced);
    assert BeforeEvent(w, input, mail) == t;
    hide RetryParked, CatchupRows, Shift, BootInv, Recorded, Backed, DoneOk, BeforeEvent, Backlog, ValidInput, Missing,
        Found;
    if r in Recorded(retried, w.lastAnnounced) {
      RecordedFrom(retried, w.lastAnnounced, r);
    } else {
      RecordedFrom(done, w.lastAnnounced, r);
    }
  }

  /** The successes among the new rows were found, and a row that is found is not missing. */
  lemma CatchupDone(s: State, rows: seq<Row>, mail: Mail, index: set<RowId>)
    requires ValidDelta(index, s.last, rows)
    ensures forall d | d in CatchupRows(s, rows, mail).1 :: d.id in Found(rows) && d.id !in Missing(rows)
  {
    forall i | 0 <= i < |rows| ensures s.last < rows[i].id {
      assert rows[i].id in Ids(rows);
    }
    CatchupRowsFrame(s, rows, mail);
    hide CatchupRows, DoneOk, SameFiles, Rising;
    forall d | d in CatchupRows(s, rows, mail).1 ensures d.id in Found(rows) {
      var q :| q in rows && q.id == d.id;
    }
  }

  /** Once a boot-time drain has saved its cursor, none of the rows it announced can be announced again, except
      where its two queries disagree. */
  lemma BacklogSettles(w: World, input: Input, mail: Mail)
    requires Backed(w, [], mail) && ValidInput(w, input)
    requires forall r | r in w.past.index :: r <= w.past.highest
    ensures forall r | r in Backlog(w, input, mail) && r in AtRisk(DrainCatchup(w, input, mail).w, mail) ::
            r in Wavering(w, input, mail)
  {
    if input.newRows.Some? && Backlog(w, input, mail) != [] {
      DrainShape(w, input, mail);
      var t, v := BeforeEvent(w, input, mail), DrainCatchup(w, input, mail).w;
      assert v.lastRowid == t.last && v.lastAnnounced == t.announced && v.parked == t.parked && v.past == t.w.past;
      IndexShifted(w, input, mail);
      hide DrainCatchup, Backlog, BeforeEvent, FinishBoot, ValidInput, Backed, Wavering, Heard;
      forall r | r in Backlog(w, input, mail) && r in AtRisk(v, mail) ensures r in Wavering(w, input, mail) {
        ListedRow(w, input, mail, r);
      }
    }
  }

  lemma IndexShifted(w: World, input: Input, mail: Mail)
    requires Backed(w, [], mail) && ValidInput(w, input) && input.newRows.Some?
    requires forall r | r in w.past.index :: r <= w.past.highest
    ensures BeforeEvent(w, input, mail).w.past.index == input.index
  {
    BootRetry(w, input, [], mail);
    var s2 := Shift(RetryParked(Begin(w, []), input.parkedRows, mail).0, input);
    BootDelta(w, s2, input, [], mail);
    hide RetryParked, CatchupRows, Shift, BootInv, DoneOk;
  }

  // ----- whole runs ---------------------------------------------------------------

  /** What can happen to the driver. A crash during a drain names the world it leaves behind,
      by its position among all the worlds of that drain. */
  datatype Step =
    | Live(input: Input, crash: Option<nat>)
    | Boot(input: Input, crash: Option<nat>)
    | Flush
    | Stop
    | Change(index: set<RowId>, highest: nat)

  /** `allowance` counts the repetitions that can be accounted for: for a crash after an event went out, that one
      row in a live drain and the rows of that one event in a boot-time drain; and the rows that are seen by both
      queries of a drain, as far as these make a difference. */
  datatype Run = Run(w: World, buffer: seq<RowId>, up: bool, allowance: nat)

  ghost predicate Enabled(run: Run, step: Step, mail: Mail) {
    match step
    case Live(input, crash) =>
      run.up && ValidInput(run.w, input)
      && (crash.Some? ==> crash.value < |DrainLive(run.w, run.buffer, input, mail).trace|)
    case Boot(input, crash) =>
      !run.up && ValidInput(run.w, input)
      && (crash.Some? ==> crash.value < |DrainCatchup(run.w, input, mail).trace|)
    case Flush => run.up && run.buffer != []
    case Stop => true
    case Change(index, highest) => ValidChange(run.w.past, index, highest)
  }

  function Next(run: Run, step: Step, mail: Mail): Run
    requires Enabled(run, step, mail)
  {
    match step
    case Live(input, crash) =>
      var t := DrainLive(run.w, run.buffer, input, mail);
      var allowance := run.allowance + |Strays(run.w, input, mail)|;
      if crash.None? then Run(t.w, t.buffer, true, allowance)
      else
        var v := t.trace[crash.value];
        Run(v, [], false, allowance + One(v.told != run.w.told))
    case Boot(input, crash) =>
      var t, rows := DrainCatchup(run.w, input, mail), SetOf(Backlog(run.w, input, mail));
      if crash.None? then Run(t.w, t.buffer, true, run.allowance + |rows * Wavering(run.w, input, mail)|)
      else
        var v := t.trace[crash.value];
        Run(v, [], false, run.allowance + if v.told == run.w.told then 0 else |rows|)
    case Flush => run.(w := run.w.(told := run.w.told + [run.buffer]), buffer := [])
    case Stop => run.(buffer := [], up := false)
    case Change(index, highest) => run.(w := run.w.(past := run.w.past.(index := index, highest := highest)))
  }

  /** Repetitions so far, and those that may still come, where the stale bucket counts as announced. */
  function RunRisk(w: World, buffer: seq<RowId>, mail: Mail): nat {
    var told := w.told + [buffer];
    Repeats(told) + |Exposed(w, Heard(told), mail)|
  }

  lemma NoBufferRisk(w: World, mail: Mail)
    ensures RunRisk(w, [], mail) == Risk(w, mail)
  {
    EmptyEvent(w.told);
    hide Heard, Repeats;
  }

  ghost predicate RunOk(run: Run, mail: Mail) {
    && WorldOk(run.w, mail) && Backed(run.w, run.buffer, mail)
    && RunRisk(run.w, run.buffer, mail) <= run.allowance
    && (!run.up ==> run.buffer == [])
  }

  lemma TraceWorld(s: State, i: nat, mail: Mail)
    requires StateOk(s, mail) && i < |s.trace|
    ensures WorldOk(s.trace[i], mail) && WorldOk(s.w, mail)
  {
    LastIsOk(s, mail);
  }

  lemma LiveStep(run: Run, input: Input, crash: Option<nat>, mail: Mail)
    requires RunOk(run, mail) && Enabled(run, Live(input, crash), mail)
    ensures RunOk(Next(run, Live(input, crash), mail), mail)
  {
    var w := run.w;
    assert forall r | r in w.past.index :: r <= w.past.highest;
    LiveIsSafe(w, run.buffer, input, mail);
    LivePoints(w, run.buffer, input, mail);
    var t, told0, strays := DrainLive(w, run.buffer, input, mail), w.told + [run.buffer], Strays(w, input, mail);
    TraceWorld(t, if crash.Some? then crash.value else 0, mail);
    hide DrainLive, Point, StateOk, WorldOk, Backed, Exposed, Repeats, Heard, ValidInput, Bounded, Strays, One;
    if crash.None? {
      Totals(w, told0, t.w, t.w.told + [t.buffer], strays, {}, mail);
    } else {
      var v := t.trace[crash.value];
      LiveCrash(w, told0, v, strays, mail);
      NoBufferRisk(v, mail);
      RiskIs(v, mail);
    }
  }

  lemma RiskIs(w: World, mail: Mail)
    ensures Risk(w, mail) == Repeats(w.told) + |Exposed(w, Heard(w.told), mail)|
  {
  }

  /** What a boot-time drain costs, at each crash point and at its end. */
  lemma BootCosts(w: World, input: Input, mail: Mail)
    requires Backed(w, [], mail) && ValidInput(w, input)
    requires forall r | r in w.past.index :: r <= w.past.highest
    ensures var t, rows := DrainCatchup(w, input, mail), SetOf(Backlog(w, input, mail));
            && Backed(t.w, [], mail) && Risk(t.w, mail) <= Risk(w, mail) + |rows * Wavering(w, input, mail)|
            && forall v | v in t.trace ::
                Backed(v, [], mail) && Risk(v, mail) <= Risk(w, mail) + if v.told == w.told then 0 else |rows|
  {
    CatchupPoints(w, input, mail);
    BacklogOk(w, input, mail);
    BacklogSettles(w, input, mail);
    var t, rows := DrainCatchup(w, input, mail), Backlog(w, input, mail);
    BootPointBacked(t, w, rows, mail);
    MemberOfSet(rows);
    hide *;
    BootRisk(w, t.w, rows, Wavering(w, input, mail), mail);
    assert SetOf(rows) * SetOf(rows) == SetOf(rows);
    forall v | v in t.trace
      ensures Backed(v, [], mail) && Risk(v, mail) <= Risk(w, mail) + if v.told == w.told then 0 else |SetOf(rows)|
    {
      BootRisk(w, v, rows, SetOf(rows), mail);
    }
  }

  lemma BootSafe(w: World, input: Input, mail: Mail)
    requires WorldOk(w, mail) && ValidInput(w, input)
    ensures var t := DrainCatchup(w, input, mail);
            t.buffer == [] && WorldOk(t.w, mail) && forall v | v in t.trace :: WorldOk(v, mail)
    ensures forall r | r in w.past.index :: r <= w.past.highest
  {
    CatchupIsSafe(w, input, mail);
    NoBuffer(w, input, mail);
    var t := DrainCatchup(w, input, mail);
    hide DrainCatchup, ValidInput;
    LastIsOk(t, mail);
  }

  lemma BootStep(run: Run, input: Input, crash: Option<nat>, mail: Mail)
    requires RunOk(run, mail) && Enabled(run, Boot(input, crash), mail)
    ensures RunOk(Next(run, Boot(input, crash), mail), mail)
  {
    hide DrainCatchup, Backlog, WorldOk, Backed, Risk, RunRisk, SetOf, ValidInput, Wavering;
    var w := run.w;
    BootSafe(w, input, mail);
    BootCosts(w, input, mail);
    var t := DrainCatchup(w, input, mail);
    NoBufferRisk(w, mail);
    NoBufferRisk(if crash.Some? then t.trace[crash.value] else t.w, mail);
  }

  lemma MemberOfSet(rows: seq<RowId>)
    ensures forall r | r in rows :: r in SetOf(rows)
  {
  }

  lemma BootPointBacked(t: State, w: World, rows: seq<RowId>, mail: Mail)
    requires BootInv(w, t, rows, mail)
    ensures BootPoint(w, t.w, rows, mail) && Backed(t.w, [], mail)
    ensures forall v | v in t.trace :: BootPoint(w, v, rows, mail) && Backed(v, [], mail)
  {
    hide Descends, Backed, KeysFrom;
  }

  /** The boot-time drain never buckets anything. */
  lemma NoBuffer(w: World, input: Input, mail: Mail)
    requires ValidInput(w, input)
    ensures DrainCatchup(w, input, mail).buffer == []
  {
    RetryFrame(Begin(w, []), input.parkedRows, mail);
    if input.newRows.Some? {
      DeltaBounds(input.index, input.highest, w.lastRowid, input.newRows.value);
      CatchupRowsFrame(Shift(RetryParked(Begin(w, []), input.parkedRows, mail).0, input), input.newRows.value, mail);
    }
    hide RetryParked, CatchupRows, Recorded, ValidRetry, ValidDelta, DoneOk, Rising;
  }

  lemma TellKeeps(w: World, rows: seq<RowId>, mail: Mail)
    requires WorldOk(w, mail)
    ensures WorldOk(w.(told := w.told + [rows]), mail)
  {
  }

  lemma FlushBacked(w: World, buffer: seq<RowId>, mail: Mail)
    requires Backed(w, buffer, mail)
    ensures Backed(w.(told := w.told + [buffer]), [], mail)
  {
    var v := w.(told := w.told + [buffer]);
    HeardMore(w.told, buffer);
    assert forall r :: Filed(w, mail, r) ==> Filed(v, mail, r);
    assert forall r | r in SetOf(buffer) :: r in buffer;
    hide Heard, SetOf, Repeats, Filed;
  }

  /** The pending bucket was counted as announced all along. */
  lemma FlushRisk(w: World, buffer: seq<RowId>, mail: Mail)
    ensures RunRisk(w.(told := w.told + [buffer]), [], mail) == RunRisk(w, buffer, mail)
  {
    var v := w.(told := w.told + [buffer]);
    NoBufferRisk(v, mail);
    hide Heard, Repeats;
    assert AtRisk(v, mail) == Exposed(w, Heard(v.told), mail);
  }

  lemma FlushStep(run: Run, mail: Mail)
    requires RunOk(run, mail) && run.up && run.buffer != []
    ensures RunOk(Next(run, Flush, mail), mail)
  {
    hide WorldOk, RunRisk, Backed;
    TellKeeps(run.w, run.buffer, mail);
    FlushRisk(run.w, run.buffer, mail);
    FlushBacked(run.w, run.buffer, mail);
  }

  /** What is lost with the bucket can only lower the count. */
  lemma DropRisk(w: World, buffer: seq<RowId>, mail: Mail)
    ensures RunRisk(w, [], mail) <= RunRisk(w, buffer, mail)
  {
    NoBufferRisk(w, mail);
    HeardMore(w.told, buffer);
    hide Heard, Repeats;
    SubsetSize(AtRisk(w, mail), Exposed(w, Heard(w.told + [buffer]), mail));
  }

  lemma StopStep(run: Run, mail: Mail)
    requires RunOk(run, mail)
    ensures RunOk(Next(run, Stop, mail), mail)
  {
    hide WorldOk, RunRisk, Backed;
    BackedNone(run.w, run.buffer, mail);
    DropRisk(run.w, run.buffer, mail);
  }

  /** The mail store changes while no query is under way. */
  predicate ValidChange(past: History, index: set<RowId>, highest: nat) {
    && past.highest <= highest
    && (forall r | r in index :: (r in past.index || past.highest < r) && r <= highest)
  }

  lemma ChangeKeeps(w: World, index: set<RowId>, highest: nat, mail: Mail)
    requires WorldOk(w, mail) && ValidChange(w.past, index, highest)
    ensures WorldOk(w.(past := w.past.(index := index, highest := highest)), mail)
  {
    hide Accounted;
    assert forall r, parked | r in index :: Accounted(w, parked, r, mail) ==>
             Accounted(w.(past := w.past.(index := index, highest := highest)), parked, r,
                 mail) by { ChangeAccounts(w, index, highest, mail); }
  }

  lemma ChangeAccounts(w: World, index: set<RowId>, highest: nat, mail: Mail)
    ensures forall r, parked :: Accounted(w, parked, r, mail) ==>
              Accounted(w.(past := w.past.(index := index, highest := highest)), parked, r, mail)
  {
  }

  lemma ChangeRisk(w: World, buffer: seq<RowId>, index: set<RowId>, highest: nat, mail: Mail)
    requires Backed(w, buffer, mail) && ValidChange(w.past, index, highest)
    ensures var v := w.(past := w.past.(index := index, highest := highest));
            Backed(v, buffer, mail) && RunRisk(v, buffer, mail) <= RunRisk(w, buffer, mail)
  {
    var v := w.(past := w.past.(index := index, highest := highest));
    assert forall r :: Filed(w, mail, r) ==> Filed(v, mail, r);
    FlushBacked(w, buffer, mail);
    hide Heard, Repeats;
    var heard := Heard(w.told + [buffer]);
    assert forall r | r in heard :: r <= w.past.highest;
    SubsetSize(Exposed(v, heard, mail), Exposed(w, heard, mail));
  }

  lemma ChangeStep(run: Run, index: set<RowId>, highest: nat, mail: Mail)
    requires RunOk(run, mail) && Enabled(run, Change(index, highest), mail)
    ensures RunOk(Next(run, Change(index, highest), mail), mail)
  {
    ChangeKeeps(run.w, index, highest, mail);
    ChangeRisk(run.w, run.buffer, index, highest, mail);
    hide WorldOk, RunRisk, Backed;
  }

  lemma StepKeeps(run: Run, step: Step, mail: Mail)
    requires RunOk(run, mail) && Enabled(run, step, mail)
    ensures RunOk(Next(run, step, mail), mail)
  {
    match step {
      case Live(input, crash) => LiveStep(run, input, crash, mail);
      case Boot(input, crash) => BootStep(run, input, crash, mail);
      case Flush => FlushStep(run, mail);
      case Stop => StopStep(run, mail);
      case Change(index, highest) => ChangeStep(run, index, highest, mail);
    }
  }

  /** The runs of the driver from a given start. */
  ghost predicate Possible(run: Run, steps: seq<Step>, mail: Mail)
    decreases |steps|
  {
    steps == [] || (Enabled(run, steps[0], mail) && Possible(Next(run, steps[0], mail), steps[1..], mail))
  }

  function After(run: Run, steps: seq<Step>, mail: Mail): Run
    requires Possible(run, steps, mail)
    decreases |steps|
  {
    if steps == [] then run else After(Next(run, steps[0], mail), steps[1..], mail)
  }

  /** The disk after the very first boot: the cursor stands at the newest row, nothing was announced. */
  function FirstWorld(index: set<RowId>, newest: nat, archive: multiset<Key>): World {
    World(newest, newest, map[], archive, [], History(newest, index, newest, {}, {}, multiset{}, {}))
  }

  lemma FirstRunOk(index: set<RowId>, newest: nat, archive: multiset<Key>, mail: Mail)
    requires forall r | r in index :: r <= newest
    ensures RunOk(Run(FirstWorld(index, newest, archive), [], false, 0), mail)
  {
    var w := FirstWorld(index, newest, archive);
    NoBufferRisk(w, mail);
    assert AtRisk(w, mail) == {};
  }

  lemma {:induction false} RunKeeps(run: Run, steps: seq<Step>, mail: Mail)
    requires RunOk(run, mail) && Possible(run, steps, mail)
    ensures RunOk(After(run, steps, mail), mail)
    decreases |steps|
  {
    hide RunOk, Next, Enabled;
    if steps != [] {
      StepKeeps(run, steps[0], mail);
      RunKeeps(Next(run, steps[0], mail), steps[1..], mail);
    }
  }

  predicate Crashes(step: Step) {
    (step.Live? || step.Boot?) && step.crash.Some?
  }

  predicate Crashless(steps: seq<Step>) {
    forall step | step in steps :: !Crashes(step)
  }

  // ----- safety of all runs, whatever the Message-IDs ----------------------------------

  lemma StepStaysSafe(run: Run, step: Step, mail: Mail)
    requires WorldOk(run.w, mail) && Enabled(run, step, mail)
    ensures WorldOk(Next(run, step, mail).w, mail)
  {
    hide WorldOk, DrainLive, DrainCatchup, ValidInput, Wavering, Strays;
    match step {
      case Live(input, crash) =>
        LiveIsSafe(run.w, run.buffer, input, mail);
        var t := DrainLive(run.w, run.buffer, input, mail);
        SomeWorld(t, mail);
        TraceWorld(t, if crash.Some? then crash.value else 0, mail);
      case Boot(input, crash) =>
        CatchupIsSafe(run.w, input, mail);
        var t := DrainCatchup(run.w, input, mail);
        SomeWorld(t, mail);
        TraceWorld(t, if crash.Some? then crash.value else 0, mail);
      case Flush => TellKeeps(run.w, run.buffer, mail);
      case Stop =>
      case Change(index, highest) => ChangeKeeps(run.w, index, highest, mail);
    }
  }

  lemma SomeWorld(s: State, mail: Mail)
    requires StateOk(s, mail)
    ensures |s.trace| > 0
  {
  }

  lemma {:induction false} RunStaysSafe(run: Run, steps: seq<Step>, mail: Mail)
    requires WorldOk(run.w, mail) && Possible(run, steps, mail)
    ensures WorldOk(After(run, steps, mail).w, mail)
    decreases |steps|
  {
    hide WorldOk, Next, Enabled;
    if steps != [] {
      StepStaysSafe(run, steps[0], mail);
      RunStaysSafe(Next(run, steps[0], mail), steps[1..], mail);
    }
  }

  /** After any run, crashes at any write included, each in-scope row at or below the saved cursor is archived,
      skipped, parked on the disk, or was given up after the full number of failed attempts. */
  lemma NoRowFallsBehind(index: set<RowId>, newest: nat, archive: multiset<Key>, steps: seq<Step>, mail: Mail, r: RowId)
    requires forall x | x in index :: x <= newest
    requires Possible(Run(FirstWorld(index, newest, archive), [], false, 0), steps, mail)
    ensures var w := After(Run(FirstWorld(index, newest, archive), [], false, 0), steps, mail).w;
            r in w.past.index && w.past.boot < r <= w.lastRowid ==>
              || (r in w.past.filed && mail(r) in w.archive)
              || r in w.past.skipped
              || r in w.parked
              || (r in w.past.dropped && w.past.failures[r] >= MAX_PARK_ATTEMPTS)
  {
    var run := Run(FirstWorld(index, newest, archive), [], false, 0);
    assert WorldOk(run.w, mail);
    RunStaysSafe(run, steps, mail);
    hide Possible, After, FirstWorld;
    var w := After(run, steps, mail).w;
    assert r in w.past.index && w.past.boot < r <= w.lastRowid ==> Accounted(w, w.parked, r, mail);
  }

  // ----- runs without crashes, whatever the Message-IDs --------------------------------

  ghost predicate RunCalm(run: Run) {
    Calm(run.w, run.buffer) && (!run.up ==> run.buffer == [])
  }

  lemma DropBufferCalm(w: World, buffer: seq<RowId>)
    requires Calm(w, buffer)
    ensures Calm(w, [])
  {
    hide Flat;
    assert forall r | r in Said(w.told, []) ::
        r in Said(w.told, buffer) && Said(w.told, [])[r] <= Said(w.told, buffer)[r];
  }

  lemma FlushCalm(w: World, buffer: seq<RowId>)
    requires Calm(w, buffer)
    ensures Calm(w.(told := w.told + [buffer]), [])
  {
    SaidMore(w.told, buffer, []);
    SaidMore(w.told, buffer, buffer);
    assert Said(w.told + [buffer], []) == Said(w.told, buffer);
    hide Said;
  }

  lemma StepStaysCalm(run: Run, step: Step, mail: Mail)
    requires RunCalm(run) && Enabled(run, step, mail) && !Crashes(step)
    ensures RunCalm(Next(run, step, mail))
  {
    hide Calm, DrainLive, DrainCatchup, ValidInput, Wavering, Strays;
    match step {
      case Live(input, crash) => LiveStaysCalm(run.w, run.buffer, input, mail);
      case Boot(input, crash) => CatchupStaysCalm(run.w, input, mail);
      case Flush => FlushCalm(run.w, run.buffer);
      case Stop => DropBufferCalm(run.w, run.buffer);
      case Change(index, highest) => ChangeCalm(run.w, run.buffer, index, highest);
    }
  }

  lemma ChangeCalm(w: World, buffer: seq<RowId>, index: set<RowId>, highest: nat)
    requires Calm(w, buffer)
    ensures Calm(w.(past := w.past.(index := index, highest := highest)), buffer)
  {
    hide Said;
  }

  lemma {:induction false} RunStaysCalm(run: Run, steps: seq<Step>, mail: Mail)
    requires RunCalm(run) && Possible(run, steps, mail) && Crashless(steps)
    ensures RunCalm(After(run, steps, mail))
    decreases |steps|
  {
    hide RunCalm, Next, Enabled, Crashes;
    if steps != [] {
      assert steps[0] in steps && forall step | step in steps[1..] :: step in steps;
      StepStaysCalm(run, steps[0], mail);
      RunStaysCalm(Next(run, steps[0], mail), steps[1..], mail);
    }
  }

  ghost predicate AtMostOnce(said: multiset<RowId>) {
    forall r :: said[r] <= 1
  }

  /** Over any run of boots, live drains, flushes and stops in which nothing crashes, no rowid is announced twice,
      with or without a Message-ID. */
  lemma CrashlessRunsAnnounceOnce(index: set<RowId>, newest: nat, archive: multiset<Key>, steps: seq<Step>, mail: Mail)
    requires Possible(Run(FirstWorld(index, newest, archive), [], false, 0), steps, mail) && Crashless(steps)
    ensures var end := After(Run(FirstWorld(index, newest, archive), [], false, 0), steps, mail);
            AtMostOnce(Said(end.w.told, end.buffer))
  {
    var run := Run(FirstWorld(index, newest, archive), [], false, 0);
    assert RunCalm(run);
    RunStaysCalm(run, steps, mail);
    hide FirstWorld, Next, Possible, After, Said, Crashless;
    var end := After(run, steps, mail);
    forall r ensures Said(end.w.told, end.buffer)[r] <= 1 {
      assert r in Said(end.w.told, end.buffer) || Said(end.w.told, end.buffer)[r] == 0;
    }
  }

  // ----- repetitions over whole runs ------------------------------------------------------

  /** Where nothing was said twice nothing was repeated. */
  lemma {:induction false} OnceMeansNoRepeats(told: seq<seq<RowId>>)
    requires AtMostOnce(Flat(told))
    ensures Repeats(told) == 0
  {
    if told != [] {
      var front, rows := told[..|told| - 1], told[|told| - 1];
      assert Flat(told) == Flat(front) + multiset(rows);
      forall r ensures Flat(front)[r] <= 1 {
        assert Flat(told)[r] <= 1;
      }
      OnceMeansNoRepeats(front);
      forall r | r in SetOf(rows) ensures r !in Heard(front) {
        assert multiset(rows)[r] > 0;
        assert Flat(told)[r] <= 1;
        if r in Heard(front) {
          HeardIsFlat(front, r);
        }
      }
      hide Heard, Flat;
      assert SetOf(rows) * Heard(front) == {};
    }
  }

  lemma {:induction false} HeardIsFlat(told: seq<seq<RowId>>, r: RowId)
    requires r in Heard(told)
    ensures Flat(told)[r] > 0
  {
    var front, rows := told[..|told| - 1], told[|told| - 1];
    if r in rows {
      assert multiset(rows)[r] > 0;
    } else {
      var e :| e in told && r in e;
      assert told == front + [rows];
      assert e in front;
      HeardIsFlat(front, r);
    }
  }

  /** Over every run from the first boot, every disk state is safe, and rowids are announced again at most as often
      as can be accounted for: never, when nothing crashed. */
  lemma RunsRepeatOnlyAfterCrashes(index: set<RowId>, newest: nat, archive: multiset<Key>, steps: seq<Step>, mail: Mail)
    requires forall r | r in index :: r <= newest
    requires Possible(Run(FirstWorld(index, newest, archive), [], false, 0), steps, mail)
    ensures var end := After(Run(FirstWorld(index, newest, archive), [], false, 0), steps, mail);
            && WorldOk(end.w, mail)
            && Repeats(end.w.told) <= end.allowance
            && (Crashless(steps) ==> Repeats(end.w.told) == 0)
  {
    var run := Run(FirstWorld(index, newest, archive), [], false, 0);
    FirstRunOk(index, newest, archive, mail);
    RunKeeps(run, steps, mail);
    RiskBound(After(run, steps, mail), mail);
    hide FirstWorld, WorldOk, RunRisk, Backed, Repeats, Next, Crashless;
    if Crashless(steps) {
      CrashlessRunsDoNotRepeat(index, newest, archive, steps, mail);
    }
  }

  lemma RiskBound(run: Run, mail: Mail)
    ensures Repeats(run.w.told) <= RunRisk(run.w, run.buffer, mail)
  {
    HeardMore(run.w.told, run.buffer);
  }

  lemma CrashlessRunsDoNotRepeat(index: set<RowId>, newest: nat, archive: multiset<Key>, steps: seq<Step>, mail: Mail)
    requires Possible(Run(FirstWorld(index, newest, archive), [], false, 0), steps, mail) && Crashless(steps)
    ensures Repeats(After(Run(FirstWorld(index, newest, archive), [], false, 0), steps, mail).w.told) == 0
  {
    hide *;
    CrashlessRunsAnnounceOnce(index, newest, archive, steps, mail);
    var end := After(Run(FirstWorld(index, newest, archive), [], false, 0), steps, mail);
    SaidIsFlat(end.w.told, end.buffer);
    OnceMeansNoRepeats(end.w.told);
  }

  lemma SaidIsFlat(told: seq<seq<RowId>>, buffer: seq<RowId>)
    requires AtMostOnce(Said(told, buffer))
    ensures AtMostOnce(Flat(told))
  {
    forall r ensures Flat(told)[r] <= 1 {
      assert Said(told, buffer)[r] <= 1;
    }
  }

  // ----- from one drain to the next ---------------------------------------------------

  /** Writes only ever extend the trace. */
  lemma {:induction false} AnnounceTrace(s: State, done: seq<Success>, last: nat)
    ensures s.trace <= AnnounceRetried(s, done, last).trace
  {
    if done != [] {
      AnnounceTrace(s, done[..|done| - 1], last);
    }
  }

  lemma {:induction false} LiveTrace(s: State, rows: seq<Row>, mail: Mail)
    ensures s.trace <= LiveRows(s, rows, mail).trace
  {
    if rows != [] {
      var t := LiveRows(s, rows[..|rows| - 1], mail);
      var row := rows[|rows| - 1];
      LiveTrace(s, rows[..|rows| - 1], mail);
      TakeRowFrame(t, row, mail);
      hide TakeRow;
    }
  }

  lemma {:induction false} CatchupTrace(s: State, rows: seq<Row>, mail: Mail)
    ensures s.trace <= CatchupRows(s, rows, mail).0.trace
  {
    if rows != [] {
      var t := CatchupRows(s, rows[..|rows| - 1], mail).0;
      var row := rows[|rows| - 1];
      CatchupTrace(s, rows[..|rows| - 1], mail);
      CatchupRowFrame(t, row, mail);
      hide CatchupRow, CatchupRows;
      assert CatchupRows(s, rows, mail).0 == CatchupRow(t, row, mail).0 by { LastCatchup(s, rows, mail); }
    }
  }

  /** The driver hands the cursors of one drain to the next in memory; they are the ones on the disk. */
  lemma LiveMemoryIsDisk(w: World, buffer: seq<RowId>, input: Input, mail: Mail)
    requires WorldOk(w, mail) && ValidInput(w, input)
    ensures var t := DrainLive(w, buffer, input, mail); t.w.lastRowid == t.last && t.w.lastAnnounced == t.announced
  {
    LiveIsSafe(w, buffer, input, mail);
    var s := Begin(w, buffer);
    RetryFrame(s, input.parkedRows, mail);
    var (s1, done) := RetryParked(s, input.parkedRows, mail);
    AnnounceTrace(s1, done, w.lastRowid);
    var s2 := Shift(AnnounceRetried(s1, done, w.lastRowid), input);
    var s3 := if input.newRows.Some? then LiveRows(s2, input.newRows.value, mail) else s2;
    if input.newRows.Some? {
      LiveTrace(s2, input.newRows.value, mail);
    }
    assert s3.trace[0] == w by { hide *; Prefixes([w], s1.trace, s2.trace, s3.trace); }
    var t := DrainLive(w, buffer, input, mail);
    assert t == SaveIfMoved(SaveParked(s3), w.lastRowid, w.lastAnnounced);
    EndIsDisk(w, s3, mail) by { hide DrainLive, LiveRows, RetryParked, AnnounceRetried; }
    hide *;
  }

  lemma Prefixes<T>(a: seq<T>, b: seq<T>, c: seq<T>, d: seq<T>)
    requires a <= b && b <= c && c <= d && a != []
    ensures d != [] && d[0] == a[0]
  {
  }

  lemma EndIsDisk(w: World, s: State, mail: Mail)
    requires s.trace != [] && s.trace[0] == w && StateOk(SaveIfMoved(SaveParked(s), w.lastRowid, w.lastAnnounced), mail)
    ensures var t := SaveIfMoved(SaveParked(s), w.lastRowid, w.lastAnnounced);
            t.w.lastRowid == t.last && t.w.lastAnnounced == t.announced
  {
    var t := SaveIfMoved(SaveParked(s), w.lastRowid, w.lastAnnounced);
    assert Ascends(t.trace[0], t.trace[|t.trace| - 1]);
  }

  lemma CatchupMemoryIsDisk(w: World, input: Input, mail: Mail)
    requires WorldOk(w, mail) && ValidInput(w, input)
    ensures var t := DrainCatchup(w, input, mail); t.w.lastRowid == t.last && t.w.lastAnnounced == t.announced
  {
    var s := Begin(w, []);
    RetryFrame(s, input.parkedRows, mail);
    var s2 := Shift(RetryParked(s, input.parkedRows, mail).0, input);
    if input.newRows.Some? {
      CatchupIsSafe(w, input, mail);
      CatchupTrace(s2, input.newRows.value, mail);
      var s3 := BeforeEvent(w, input, mail);
      DrainShape(w, input, mail);
      assert s3.trace[0] == w;
      hide DrainCatchup, Backlog, BeforeEvent;
      var rows := Backlog(w, input, mail);
      if rows == [] {
        EndIsDisk(w, s3, mail);
      }
    } else {
      hide RetryParked;
    }
  }
}
