/** A message without Message-ID is announced twice after a crash that came before anything went out. */
module MailNameless {
  import opened Wrappers
  import opened MailSpec
  import opened MailSafety
  import opened MailFrames
  import opened MailCosts
  import opened MailRepeats
  import opened MailBacklog
  import opened MailRuns
  import opened MailTwice
  import opened Seqs

  /** `r` is the only row there is, parked once or twice so far, and has no Message-ID. */
  ghost predicate OnlyParked(w: World, r: RowId, mail: Mail) {
    && w.parked.Keys == {r} && w.parked[r] <= 2 && w.past.index == {r} && r <= w.past.highest && Nameless(mail, r)
  }

  function LateInput(r: RowId, highest: nat): Input {
    Input(Some([Row(r, NotAvailable)]), {r}, highest, Some([Row(r, Readable(false))]))
  }

  function FoundInput(r: RowId, highest: nat): Input {
    Input(Some([Row(r, Readable(false))]), {r}, highest, Some([]))
  }

  lemma OneRow(row: Row)
    ensures Ids([row]) == {row.id} && [row][..0] == [] && Ids([]) == {}
  {
  }

  lemma RetryOne(w: World, row: Row, mail: Mail)
    requires w.parked.Keys == {row.id}
    ensures RetryParked(Begin(w, []), Some([row]), mail) == RetryRow(Begin(w, []), row, mail)
  {
    OneRow(row);
    var s := Begin(w, []);
    var kept := map id | id in s.parked && id in Ids([row]) :: s.parked[id];
    assert row.id in s.parked && s.parked != map[];
    assert kept == s.parked;
    RetryJustOne(s, row, mail);
    hide RetryRow, RetryRows, Ids;
    assert RetryParked(s, Some([row]), mail) == RetryRows(s.(parked := kept), [row], mail);
  }

  lemma RetryJustOne(s: State, row: Row, mail: Mail)
    ensures RetryRows(s, [row], mail) == RetryRow(s, row, mail)
  {
    assert [row][..0] == [];
    assert RetryRows(s, [], mail) == (s, []);
    var (t, more) := RetryRow(s, row, mail);
    hide RetryRow;
    assert RetryRows(s, [row], mail) == (t, [] + more);
    assert [] + more == more;
  }

  lemma CatchupOne(s: State, row: Row, mail: Mail)
    ensures CatchupRows(s, [row], mail) == CatchupRow(s, row, mail)
  {
    OneRow(row);
    assert CatchupRows(s, [], mail) == (s, []);
    var (t, more) := CatchupRow(s, row, mail);
    hide CatchupRow;
    assert CatchupRows(s, [row], mail) == (t, [] + more);
    assert [] + more == more;
  }

  lemma RecordedOne(d: Success, announced: nat)
    ensures Recorded([], announced) == []
    ensures Recorded([d], announced) == if d.result.Skip? || d.id <= announced then [] else [d.id]
  {
    assert [d][..0] == [];
  }

  lemma LateIsValid(w: World, r: RowId, mail: Mail)
    requires OnlyParked(w, r, mail) && w.lastRowid < r
    ensures ValidInput(w, LateInput(r, w.past.highest))
  {
    OneRow(Row(r, NotAvailable));
    OneRow(Row(r, Readable(false)));
    hide Ids;
  }

  /** The retry pass does not find the body, the pass over the new rows does: the row is announced and stays parked. */
  lemma LateBoot(w: World, r: RowId, mail: Mail)
    requires OnlyParked(w, r, mail) && w.parked[r] == 1 && w.lastRowid < r && w.lastAnnounced < r
    ensures var input := LateInput(r, w.past.highest);
            var t := DrainCatchup(w, input, mail);
            && ValidInput(w, input) && t.w.told == w.told + [[r]] && t.buffer == []
            && OnlyParked(t.w, r, mail) && t.w.lastRowid == r && t.w.past.highest == w.past.highest
  {
    var input := LateInput(r, w.past.highest);
    var row, next := Row(r, NotAvailable), Row(r, Readable(false));
    LateIsValid(w, r, mail);
    RetryOne(w, row, mail);
    var s1 := RetryRow(Begin(w, []), row, mail).0;
    CatchupOne(Shift(s1, input), next, mail);
    RecordedOne(Success(r, Created, false), w.lastAnnounced);
    MissedThenTaken(w, r, input, mail);
    hide RetryParked, CatchupRows, RetryRow, CatchupRow, Recorded, ValidInput, Ids;
    var s3 := CatchupRow(Shift(s1, input), next, mail).0;
    assert [] + [r] == [r];
    assert DrainCatchup(w, input, mail) == Checkpoint(Emit(s3, [r]), s3.last);
    assert s3.parked.Keys == {r};
  }

  lemma MissedThenTaken(w: World, r: RowId, input: Input, mail: Mail)
    requires OnlyParked(w, r, mail) && w.parked[r] == 1 && input == LateInput(r, w.past.highest)
    ensures var (s1, none) := RetryRow(Begin(w, []), Row(r, NotAvailable), mail);
            var (s3, done) := CatchupRow(Shift(s1, input), Row(r, Readable(false)), mail);
            && none == [] && done == [Success(r, Created, false)]
            && s3.parked == w.parked[r := 2] && s3.last == Max(w.lastRowid, r) && s3.buffer == []
            && s3.w.told == w.told && s3.w.past.index == {r} && s3.w.past.highest == w.past.highest
  {
  }

  lemma FoundIsValid(w: World, r: RowId, mail: Mail)
    requires OnlyParked(w, r, mail) && r <= w.lastRowid
    ensures ValidInput(w, FoundInput(r, w.past.highest))
  {
    OneRow(Row(r, Readable(false)));
    hide Ids;
  }

  /** So the next live drain finds it among the parked rows and announces it once more. */
  lemma FoundLater(w: World, r: RowId, mail: Mail)
    requires OnlyParked(w, r, mail) && r <= w.lastRowid
    ensures var input := FoundInput(r, w.past.highest);
            ValidInput(w, input) && DrainLive(w, [], input, mail).w.told == w.told + [[r]]
  {
    var input := FoundInput(r, w.past.highest);
    var row := Row(r, Readable(false));
    FoundIsValid(w, r, mail);
    RetryOne(w, row, mail);
    var (s1, retried) := RetryRow(Begin(w, []), row, mail);
    assert retried == [Success(r, Created, false)] && s1.w.told == w.told;
    hide RetryParked, RetryRow, ValidInput;
    var s2 := Announce(s1, r, false, w.lastRowid);
    assert retried[..0] == [] && AnnounceRetried(s1, [], w.lastRowid) == s1;
    assert AnnounceRetried(s1, retried, w.lastRowid) == s2 && s2.w.told == w.told + [[r]];
    hide Announce, AnnounceRetried;
    assert LiveRows(Shift(s2, input), [], mail) == Shift(s2, input);
  }

  const EMPTY: Input := Input(Some([]), {}, 0, Some([]))
  const UNSEEN: Input := Input(Some([]), {1}, 1, Some([Row(1, NotAvailable)]))

  /** The driver is up, or down, with this disk and an empty bucket. */
  predicate Stands(run: Run, up: bool) {
    run.up == up && run.buffer == []
  }

  lemma FirstBoot(start: Run, mail: Mail)
    requires start == Run(FirstWorld({}, 0, multiset{}), [], false, 0)
    ensures Enabled(start, Boot(EMPTY, None), mail)
    ensures var run := Next(start, Boot(EMPTY, None), mail); Stands(run, true) && run.w == start.w
  {
    QuietBoot(start.w, EMPTY, mail);
    hide DrainCatchup, ValidInput, Backlog, Wavering, SetOf;
  }

  lemma CrashingDrain(run: Run, mail: Mail)
    requires Stands(run, true) && run.w == FirstWorld({}, 0, multiset{}) && Nameless(mail, 1)
    ensures Enabled(run, Live(UNSEEN, Some(3)), mail)
    ensures var left := Next(run, Live(UNSEEN, Some(3)), mail);
            && Stands(left, false) && OnlyParked(left.w, 1, mail) && left.w.parked[1] == 1 && left.w.past.highest == 1
            && left.w.lastRowid == 0 == left.w.lastAnnounced && left.w.told == []
  {
    CrashBetweenFiles(run.w, 1, mail);
    CrashedWorld(run.w, 1, mail);
    hide DrainLive, ValidInput, Strays, Settled;
  }

  lemma BootAfter(run: Run, mail: Mail)
    requires Stands(run, false) && OnlyParked(run.w, 1, mail) && run.w.parked[1] == 1 && run.w.past.highest == 1
    requires run.w.lastRowid == 0 == run.w.lastAnnounced && run.w.told == []
    ensures Enabled(run, Boot(LateInput(1, 1), None), mail)
    ensures var mid := Next(run, Boot(LateInput(1, 1), None), mail);
            && Stands(mid, true) && OnlyParked(mid.w, 1, mail) && mid.w.past.highest == 1 && mid.w.lastRowid == 1
            && mid.w.told == [[1]]
  {
    LateBoot(run.w, 1, mail);
    hide DrainCatchup, ValidInput, Backlog, Wavering, SetOf;
    assert [] + [[1]] == [[1]];
  }

  lemma DrainAfter(run: Run, mail: Mail)
    requires Stands(run, true) && OnlyParked(run.w, 1, mail) && run.w.past.highest == 1 && run.w.lastRowid == 1
    requires run.w.told == [[1]]
    ensures Enabled(run, Live(FoundInput(1, 1), None), mail)
            && Next(run, Live(FoundInput(1, 1), None), mail).w.told == [[1], [1]]
  {
    FoundLater(run.w, 1, mail);
    hide DrainLive, ValidInput, Strays;
    assert [[1]] + [[1]] == [[1], [1]];
  }

  /** A row whose message has no id, seen first without its body by a drain that crashes between the two state files,
      is announced twice by the boot and the drain that follow, although nothing had been announced before the crash. */
  lemma NamelessIsAnnouncedTwice(mail: Mail)
    requires Nameless(mail, 1)
    ensures var steps := [Boot(EMPTY, None), Live(UNSEEN, Some(3)), Boot(LateInput(1, 1), None),
            Live(FoundInput(1, 1), None)];
            var start := Run(FirstWorld({}, 0, multiset{}), [], false, 0);
            && Possible(start, steps, mail)
            && After(start, steps, mail).w.told == [[1], [1]]
            && Repeats(After(start, steps, mail).w.told) == 1
  {
    var start := Run(FirstWorld({}, 0, multiset{}), [], false, 0);
    FirstBoot(start, mail);
    hide *;
    var r1 := Next(start, Boot(EMPTY, None), mail);
    CrashingDrain(r1, mail);
    var r2 := Next(r1, Live(UNSEEN, Some(3)), mail);
    BootAfter(r2, mail);
    DrainAfter(Next(r2, Boot(LateInput(1, 1), None), mail), mail);
    FourSteps(start, Boot(EMPTY, None), Live(UNSEEN, Some(3)), Boot(LateInput(1, 1), None),
        Live(FoundInput(1, 1), None), mail);
    TwoEvents();
  }

  lemma FourSteps(r0: Run, a: Step, b: Step, c: Step, d: Step, mail: Mail)
    requires Enabled(r0, a, mail)
    requires var r1 := Next(r0, a, mail); Enabled(r1, b, mail) && Enabled(Next(r1, b, mail), c, mail)
    requires var r2 := Next(Next(r0, a, mail), b, mail); Enabled(Next(r2, c, mail), d, mail)
    ensures Possible(r0, [a, b, c, d], mail)
    ensures After(r0, [a, b, c, d], mail) == Next(Next(Next(Next(r0, a, mail), b, mail), c, mail), d, mail)
  {
    hide Enabled, Next;
    var r1 := Next(r0, a, mail);
    var r2 := Next(r1, b, mail);
    var r3 := Next(r2, c, mail);
    assert [a, b, c, d][1..] == [b, c, d] && [b, c, d][1..] == [c, d] && [c, d][1..] == [d] && [d][1..] == [];
    var r4 := Next(r3, d, mail);
    assert Possible(r4, [], mail) && After(r4, [], mail) == r4;
    assert Possible(r3, [d], mail) && After(r3, [d], mail) == Next(r3, d, mail);
    assert Possible(r2, [c, d], mail) && After(r2, [c, d], mail) == After(r3, [d], mail);
    assert Possible(r1, [b, c, d], mail) && After(r1, [b, c, d], mail) == After(r2, [c, d], mail);
  }

  lemma TwoEvents()
    ensures Repeats([[1], [1]]) == 1
  {
    hide Heard, Repeats, SetOf;
    HeardMore([], [1]);
    HeardMore([[1]], [1]);
    assert [] + [[1]] == [[1]] && [[1]] + [[1]] == [[1], [1]];
    OneHeard();
    assert {1} * ({} + {1}) == {1} && {1} * {} == {};
  }

  lemma OneHeard()
    ensures SetOf([1]) == {1} && Heard([]) == {} && Repeats([]) == 0
  {
  }

  /** A boot that finds nothing. */
  lemma QuietBoot(w: World, input: Input, mail: Mail)
    requires w == FirstWorld({}, 0, multiset{}) && input == Input(Some([]), {}, 0, Some([]))
    ensures var t := DrainCatchup(w, input, mail); ValidInput(w, input) && t.w == w && t.buffer == []
  {
    assert CatchupRows(Shift(Begin(w, []), input), [], mail) == (Shift(Begin(w, []), input), []);
    assert Recorded([], 0) == [];
  }

  /** What the crash between the two files leaves behind. */
  lemma CrashedWorld(w: World, r: RowId, mail: Mail)
    requires w.parked == map[] && Max(w.lastRowid, w.lastAnnounced) < r && w.past.index == {} && w.past.highest < r
    ensures var trace := DrainLive(w, [], Input(Some([]), {r}, r, Some([Row(r, NotAvailable)])), mail).trace;
            && |trace| == 5 && trace[3].parked == map[r := 1] && trace[3].past.index == {r}
                && trace[3].past.highest == r
            && trace[3].lastRowid == w.lastRowid && trace[3].lastAnnounced == w.lastAnnounced && trace[3].told == w.told
  {
    var input := Input(Some([]), {r}, r, Some([Row(r, NotAvailable)]));
    var row := Row(r, NotAvailable);
    OneRow(row);
    var s2 := Shift(Begin(w, []), input);
    assert LiveRows(s2, [row], mail) == LiveRow(s2, row, mail);
    var s3 := LiveRow(s2, row, mail);
    assert s3.parked == map[r := 1] && s3.last == r && |s3.trace| == 3;
    assert AnnounceRetried(Begin(w, []), [], w.lastRowid) == Begin(w, []);
    assert DrainLive(w, [], input, mail) == SaveIfMoved(SaveParked(s3), w.lastRowid, w.lastAnnounced);
  }
}
