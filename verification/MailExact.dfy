/** What a drain that ends does, told from its rows alone: which rows are announced, and in which order, what is
    archived, what is parked, and where the cursors end. */
module MailExact {
  import opened Wrappers
  import opened MailSpec
  import opened MailFrames
  import opened Seqs

  // ----- the rows of a drain ---------------------------------------------------------------

  /** The parked rows that are looked at again, in the order of the query. */
  function Retried(w: World, input: Input): seq<Row> {
    if w.parked == map[] || input.parkedRows.None? then [] else input.parkedRows.value
  }

  function Delta(input: Input): seq<Row> {
    if input.newRows.None? then [] else input.newRows.value
  }

  /** The body of the row was read, and its message was not there before: neither in the archive when the drain
      began, nor read from an earlier row of the same drain. A message without an id is never there before. */
  predicate Fresh(archive: multiset<Key>, before: seq<Row>, row: Row, mail: Mail) {
    && row.body.Readable?
    && (mail(row.id).messageId == "" || (mail(row.id) !in archive && !ReadIn(before, mail(row.id), mail)))
  }

  predicate ReadIn(rows: seq<Row>, key: Key, mail: Mail) {
    exists r :: r in rows && r.body.Readable? && mail(r.id) == key
  }

  function FreshRows(archive: multiset<Key>, rows: seq<Row>, mail: Mail): seq<Row> {
    if rows == [] then [] else
      var before, row := rows[..|rows| - 1], rows[|rows| - 1];
      FreshRows(archive, before, mail) + if Fresh(archive, before, row, mail) then [row] else []
  }

  function RowIds(rows: seq<Row>): seq<RowId> {
    if rows == [] then [] else RowIds(rows[..|rows| - 1]) + [rows[|rows| - 1].id]
  }

  /** The rows of recent mail, or those of stale mail. */
  function OfAge(rows: seq<Row>, stale: bool): seq<RowId> {
    if rows == [] then [] else
      var row := rows[|rows| - 1];
      OfAge(rows[..|rows| - 1], stale) + if row.body == Readable(stale) then [row.id] else []
  }

  function Keys(rows: seq<Row>, mail: Mail): multiset<Key> {
    if rows == [] then multiset{} else Keys(rows[..|rows| - 1], mail) + multiset{mail(rows[|rows| - 1].id)}
  }

  /** One event per row. */
  function Each(ids: seq<RowId>): seq<seq<RowId>> {
    if ids == [] then [] else Each(ids[..|ids| - 1]) + [[ids[|ids| - 1]]]
  }

  function Highest(n: nat, ids: seq<RowId>): nat {
    if ids == [] then n else
      var m := Highest(n, ids[..|ids| - 1]);
      if m < ids[|ids| - 1] then ids[|ids| - 1] else m
  }

  // ----- one more row --------------------------------------------------------------------------

  lemma FreshSnoc(archive: multiset<Key>, before: seq<Row>, row: Row, mail: Mail)
    ensures FreshRows(archive, before + [row], mail)
         == FreshRows(archive, before, mail) + if Fresh(archive, before, row, mail) then [row] else []
  {
    assert (before + [row])[..|before|] == before;
  }

  lemma RowSnoc(rows: seq<Row>, row: Row, mail: Mail)
    ensures RowIds(rows + [row]) == RowIds(rows) + [row.id]
    ensures Keys(rows + [row], mail) == Keys(rows, mail) + multiset{mail(row.id)}
    ensures forall stale :: OfAge(rows + [row], stale) == OfAge(rows, stale) + if row.body == Readable(stale) then
            [row.id] else []
  {
    assert (rows + [row])[..|rows|] == rows;
  }

  lemma IdSnoc(n: nat, ids: seq<RowId>, id: RowId)
    ensures Each(ids + [id]) == Each(ids) + [[id]]
    ensures Highest(n, ids + [id]) == Max(Highest(n, ids), id)
  {
    assert (ids + [id])[..|ids|] == ids;
  }

  lemma ReadSnoc(rows: seq<Row>, row: Row, key: Key, mail: Mail)
    ensures ReadIn(rows + [row], key, mail) <==> ReadIn(rows, key, mail) || (row.body.Readable? && mail(row.id) == key)
  {
    Members(rows, [row]);
    if ReadIn(rows, key, mail) {
      var r :| r in rows && r.body.Readable? && mail(r.id) == key;
      assert r in rows + [row];
    }
    if row.body.Readable? && mail(row.id) == key {
      assert row in rows + [row];
    }
  }

  lemma InSum(a: multiset<Key>, b: multiset<Key>, k: Key, key: Key)
    ensures key in a + (b + multiset{k}) <==> key in a + b || key == k
    ensures a + (b + multiset{k}) == a + b + multiset{k}
  {
  }

  lemma FreshMeans(archive: multiset<Key>, before: seq<Row>, row: Row, mail: Mail)
    ensures var key := mail(row.id);
            Fresh(archive, before, row, mail) <==>
              row.body.Readable? && (key.messageId == "" || (key !in archive && !ReadIn(before, key, mail)))
  {
    hide ReadIn;
  }

  lemma NoneRead(archive: multiset<Key>, mail: Mail, key: Key)
    ensures FreshRows(archive, [], mail) == [] && Keys([], mail) == multiset{} && !ReadIn([], key, mail)
    ensures archive + multiset{} == archive
  {
  }

  /** What is in the archive once the fresh rows have been filed. */
  lemma {:induction false} KeysAre(archive: multiset<Key>, rows: seq<Row>, mail: Mail, key: Key)
    requires key.messageId != ""
    ensures key in archive + Keys(FreshRows(archive, rows, mail), mail) <==> key in archive || ReadIn(rows, key, mail)
  {
    hide *;
    if rows == [] {
      NoneRead(archive, mail, key);
    } else {
      var before, row := rows[..|rows| - 1], rows[|rows| - 1];
      var news := FreshRows(archive, before, mail);
      assert rows == before + [row];
      KeysAre(archive, before, mail, key);
      FreshSnoc(archive, before, row, mail);
      FreshMeans(archive, before, row, mail);
      RowSnoc(news, row, mail);
      ReadSnoc(before, row, key, mail);
      Empty(news);
      InSum(archive, Keys(news, mail), mail(row.id), key);
    }
  }

  /** A row is new to the archive when it is fresh. */
  lemma NewIffFresh(archive: multiset<Key>, before: seq<Row>, row: Row, w: World, mail: Mail)
    requires w.archive == archive + Keys(FreshRows(archive, before, mail), mail)
    ensures row.body.Readable? ==> (IsNew(w, row.id, mail) <==> Fresh(archive, before, row, mail))
  {
    if mail(row.id).messageId != "" {
      KeysAre(archive, before, mail, mail(row.id));
    }
    hide FreshRows, Keys, ReadIn;
  }

  /** What taking in one row does to the archive, and that it does nothing to the rest but the record. */
  lemma IngestExactly(archive: multiset<Key>, before: seq<Row>, s: State, row: Row, mail: Mail)
    requires s.w.archive == archive + Keys(FreshRows(archive, before, mail), mail)
    ensures var (t, result) := Ingest(s, row, mail);
            && SameBut(s, t)
            && t.w.archive == archive + Keys(FreshRows(archive, before + [row], mail), mail)
            && (result.Created? <==> Fresh(archive, before, row, mail))
            && (result.Unavailable? <==> row.body.NotAvailable?) && (result.Skip? <==> row.body.Unusable?)
  {
    hide *;
    var news := FreshRows(archive, before, mail);
    NewIffFresh(archive, before, row, s.w, mail);
    FreshSnoc(archive, before, row, mail);
    FreshMeans(archive, before, row, mail);
    RowSnoc(news, row, mail);
    Empty(news);
    InSum(archive, Keys(news, mail), mail(row.id), mail(row.id));
    IngestCases(s, row, mail);
  }

  /** Only the archive and the record may differ. */
  predicate SameBut(s: State, t: State) {
    && t == s.(w := t.w, trace := t.trace) && t.w == s.w.(archive := t.w.archive, past := t.w.past)
  }

  lemma IngestCases(s: State, row: Row, mail: Mail)
    ensures var (t, result) := Ingest(s, row, mail);
            && SameBut(s, t)
            && t.w.archive == (if result.Created? then s.w.archive + multiset{mail(row.id)} else s.w.archive)
            && (result.Created? <==> row.body.Readable? && IsNew(s.w, row.id, mail))
            && (result.Unavailable? <==> row.body.NotAvailable?) && (result.Skip? <==> row.body.Unusable?)
  {
    hide IsNew;
  }

  // ----- the rows that are tried again -----------------------------------------------------------

  /** The rowids of the successes that were created, all of them or those of one age. */
  function CreatedIds(done: seq<Success>): seq<RowId> {
    if done == [] then [] else
      var d := done[|done| - 1];
      CreatedIds(done[..|done| - 1]) + if d.result.Created? then [d.id] else []
  }

  function CreatedOf(done: seq<Success>, stale: bool): seq<RowId> {
    if done == [] then [] else
      var d := done[|done| - 1];
      CreatedOf(done[..|done| - 1], stale) + if d.result.Created? && d.stale == stale then [d.id] else []
  }

  lemma CreatedSnoc(done: seq<Success>, more: seq<Success>)
    requires |more| <= 1
    ensures CreatedIds(done + more) == CreatedIds(done) + if more != [] && more[0].result.Created? then [more[0].id]
            else []
    ensures forall stale :: CreatedOf(done + more, stale) == CreatedOf(done, stale)
              + if more != [] && more[0].result.Created? && more[0].stale == stale then [more[0].id] else []
  {
    if more == [] {
      Empty(done);
      Empty(CreatedIds(done));
      Empty(CreatedOf(done, true));
      Empty(CreatedOf(done, false));
    } else {
      assert (done + more)[..|done|] == done;
    }
  }

  /** The created ones among `done` are the fresh ones among `rows`. */
  predicate AreFresh(archive: multiset<Key>, rows: seq<Row>, done: seq<Success>, mail: Mail) {
    var news := FreshRows(archive, rows, mail);
    CreatedIds(done) == RowIds(news) && CreatedOf(done, true) == OfAge(news, true)
        && CreatedOf(done, false) == OfAge(news, false)
  }

  /** What a pass leaves alone: all but the archive, the parked rows and the record. */
  predicate Quietly(s: State, t: State) {
    && t == s.(w := t.w, parked := t.parked, trace := t.trace) && t.w == s.w.(archive := t.w.archive, past := t.w.past)
  }

  lemma ParkQuietly(s: State, id: RowId)
    ensures Quietly(s, Park(s, id)) && Park(s, id).w.archive == s.w.archive
  {
  }

  lemma RetryRowExactly(archive: multiset<Key>, before: seq<Row>, s: State, row: Row, mail: Mail)
    requires s.w.archive == archive + Keys(FreshRows(archive, before, mail), mail)
    ensures var (t, more) := RetryRow(s, row, mail);
            && Quietly(s, t) && |more| <= 1
            && t.w.archive == archive + Keys(FreshRows(archive, before + [row], mail), mail)
            && (more != [] && more[0].result.Created? <==> Fresh(archive, before, row, mail))
            && (more != [] ==> more[0].id == row.id && (row.body.Readable? ==> more[0].stale == row.body.stale))
  {
    IngestExactly(archive, before, s, row, mail);
    var s1 := Ingest(s, row, mail).0;
    ParkQuietly(s1, row.id);
    hide Ingest, Park, FreshRows, Keys, Fresh;
  }

  lemma AreFreshSnoc(archive: multiset<Key>, before: seq<Row>, row: Row, done: seq<Success>, more: seq<Success>,
                     mail: Mail)
    requires AreFresh(archive, before, done, mail) && |more| <= 1
    requires more != [] && more[0].result.Created? <==> Fresh(archive, before, row, mail)
    requires more != [] ==> more[0].id == row.id && (row.body.Readable? ==> more[0].stale == row.body.stale)
    ensures AreFresh(archive, before + [row], done + more, mail)
  {
    var news := FreshRows(archive, before, mail);
    FreshSnoc(archive, before, row, mail);
    FreshMeans(archive, before, row, mail);
    CreatedSnoc(done, more);
    RowSnoc(news, row, mail);
    Empty(news);
    Empty(OfAge(news, true));
    Empty(OfAge(news, false));
    Empty(RowIds(news));
    hide FreshRows, Fresh, CreatedIds, CreatedOf, RowIds, OfAge, Keys, ReadIn;
  }

  lemma LastRetry(s: State, rows: seq<Row>, mail: Mail)
    requires rows != []
    ensures var (s1, done) := RetryRows(s, rows[..|rows| - 1], mail);
            var (s2, more) := RetryRow(s1, rows[|rows| - 1], mail);
            RetryRows(s, rows, mail) == (s2, done + more)
  {
    hide RetryRow;
  }

  lemma NoRows(s: State, mail: Mail)
    ensures RetryRows(s, [], mail) == (s, []) && Quietly(s, s) && AreFresh(s.w.archive, [], [], mail)
    ensures s.w.archive == s.w.archive + Keys(FreshRows(s.w.archive, [], mail), mail)
  {
  }

  lemma QuietlyTrans(s: State, t: State, u: State)
    requires Quietly(s, t) && Quietly(t, u)
    ensures Quietly(s, u)
  {
  }

  lemma {:induction false} RetryRowsExactly(s: State, rows: seq<Row>, mail: Mail)
    ensures var (t, done) := RetryRows(s, rows, mail);
            && Quietly(s, t) && AreFresh(s.w.archive, rows, done, mail)
            && t.w.archive == s.w.archive + Keys(FreshRows(s.w.archive, rows, mail), mail)
  {
    hide *;
    if rows == [] {
      NoRows(s, mail);
    } else {
      var before, row := rows[..|rows| - 1], rows[|rows| - 1];
      assert rows == before + [row];
      RetryRowsExactly(s, before, mail);
      LastRetry(s, rows, mail);
      var (s1, done) := RetryRows(s, before, mail);
      var (s2, more) := RetryRow(s1, row, mail);
      RetryRowExactly(s.w.archive, before, s1, row, mail);
      AreFreshSnoc(s.w.archive, before, row, done, more, mail);
      QuietlyTrans(s, s1, s2);
    }
  }

  /** The whole retry pass. */
  lemma RetryExactly(w: World, buffer: seq<RowId>, input: Input, mail: Mail)
    ensures var s := Begin(w, buffer);
            var (t, done) := RetryParked(s, input.parkedRows, mail);
            && Quietly(s, t) && AreFresh(w.archive, Retried(w, input), done, mail)
            && t.w.archive == w.archive + Keys(FreshRows(w.archive, Retried(w, input), mail), mail)
  {
    var s, rows := Begin(w, buffer), Retried(w, input);
    if w.parked == map[] || input.parkedRows.None? {
      NoRows(s, mail);
    } else {
      RetryRowsExactly(s.(parked := map id | id in s.parked && id in Ids(rows) :: s.parked[id]), rows, mail);
    }
    hide RetryRows, AreFresh, FreshRows, Keys, Ids;
  }

  // ----- what a live drain announces ---------------------------------------------------------------

  /** What was said of the fresh ones among `rows`: an event for each recent one, the stale ones kept for later. */
  predicate Says(w: World, buffer: seq<RowId>, rows: seq<Row>, s: State, mail: Mail) {
    var news := FreshRows(w.archive, rows, mail);
    && s.w.told == w.told + Each(OfAge(news, false))
    && s.buffer == buffer + OfAge(news, true)
    && s.announced == Highest(w.lastAnnounced, RowIds(news))
    && s.w.archive == w.archive + Keys(news, mail)
  }

  /** The cursors on the disk lie between those at the start and those in memory. */
  predicate Between(w: World, s: State) {
    w.lastRowid <= s.w.lastRowid <= s.last && w.lastAnnounced <= s.w.lastAnnounced <= s.announced
  }

  lemma AnnounceExactly(s: State, id: RowId, stale: bool, last: nat)
    ensures var t := Announce(s, id, stale, last);
            && t.w.told == (if stale then s.w.told else s.w.told + [[id]])
            && t.buffer == (if stale then s.buffer + [id] else s.buffer)
            && t.announced == Max(s.announced, id) && t.w.archive == s.w.archive
            && t.w.lastRowid == last && t.w.lastAnnounced == t.announced
            && t.parked == s.parked && t.last == s.last
  {
  }

  lemma LastAnnounced(s: State, done: seq<Success>)
    ensures done == [] ==> AnnounceRetried(s, done, s.last) == s
    ensures done != [] ==>
              var s1, d := AnnounceRetried(s, done[..|done| - 1], s.last), done[|done| - 1];
              AnnounceRetried(s, done, s.last) == if d.result.Created? then Announce(s1, d.id, d.stale, s.last) else s1
  {
    hide Announce;
  }

  lemma NoneCreated(s: State)
    ensures HasAnnounced(s, [], s) && HasKept(s, s)
  {
  }

  /** What announcing `done` has done: one event for each recent creation, the stale ones bucketed. */
  predicate HasAnnounced(s: State, done: seq<Success>, t: State) {
    && t.w.told == s.w.told + Each(CreatedOf(done, false))
    && t.buffer == s.buffer + CreatedOf(done, true)
    && t.announced == Highest(s.announced, CreatedIds(done))
  }

  /** And what it leaves alone. */
  predicate HasKept(s: State, t: State) {
    && t.w.archive == s.w.archive && t.parked == s.parked && t.last == s.last
    && (t.w.lastRowid == s.w.lastRowid || t.w.lastRowid == s.last)
    && (t.w.lastAnnounced == s.w.lastAnnounced || t.w.lastAnnounced == t.announced)
    && s.announced <= t.announced
  }

  lemma CreatedAnnounced(s: State, done: seq<Success>, d: Success, t: State, u: State)
    requires HasAnnounced(s, done, t) && d.result.Created?
    requires u.w.told == (if d.stale then t.w.told else t.w.told + [[d.id]])
    requires u.buffer == (if d.stale then t.buffer + [d.id] else t.buffer) && u.announced == Max(t.announced, d.id)
    ensures HasAnnounced(s, done + [d], u)
  {
    CreatedSnoc(done, [d]);
    IdSnoc(s.announced, CreatedIds(done), d.id);
    IdSnoc(0, CreatedOf(done, false), d.id);
    Associate(s.w.told, Each(CreatedOf(done, false)), [[d.id]]);
    Associate(s.buffer, CreatedOf(done, true), [d.id]);
    Empty(CreatedOf(done, true));
    Empty(CreatedOf(done, false));
    hide Each, CreatedOf, CreatedIds, Highest, Max;
  }

  lemma OtherAnnounced(s: State, done: seq<Success>, d: Success, t: State)
    requires HasAnnounced(s, done, t) && !d.result.Created?
    ensures HasAnnounced(s, done + [d], t)
  {
    CreatedSnoc(done, [d]);
    Empty(CreatedOf(done, true));
    Empty(CreatedOf(done, false));
    Empty(CreatedIds(done));
    hide Each, CreatedOf, CreatedIds, Highest;
  }

  lemma AnnounceKept(s: State, t: State, id: RowId, stale: bool)
    requires HasKept(s, t)
    ensures HasKept(s, Announce(t, id, stale, s.last))
  {
    AnnounceExactly(t, id, stale, s.last);
    MaxGrows(t.announced, id);
    hide Announce, Max;
  }

  lemma {:induction false} AnnouncedExactly(s: State, done: seq<Success>)
    ensures var t := AnnounceRetried(s, done, s.last); HasAnnounced(s, done, t) && HasKept(s, t)
  {
    hide *;
    LastAnnounced(s, done);
    if done == [] {
      NoneCreated(s);
    } else {
      var front, d := done[..|done| - 1], done[|done| - 1];
      assert done == front + [d];
      AnnouncedExactly(s, front);
      var s1 := AnnounceRetried(s, front, s.last);
      if d.result.Created? {
        AnnounceExactly(s1, d.id, d.stale, s.last);
        CreatedAnnounced(s, front, d, s1, Announce(s1, d.id, d.stale, s.last));
        AnnounceKept(s, s1, d.id, d.stale);
      } else {
        OtherAnnounced(s, front, d, s1);
      }
    }
  }

  lemma MaxGrows(a: nat, b: nat)
    ensures a <= Max(a, b) && b <= Max(a, b)
  {
  }

  lemma SaysSnoc(w: World, buffer: seq<RowId>, before: seq<Row>, row: Row, s: State, t: State, mail: Mail)
    requires Says(w, buffer, before, s, mail)
    requires t.w.archive == w.archive + Keys(FreshRows(w.archive, before + [row], mail), mail)
    requires if Fresh(w.archive, before, row, mail) then
               && t.w.told == (if row.body.stale then s.w.told else s.w.told + [[row.id]])
               && t.buffer == (if row.body.stale then s.buffer + [row.id] else s.buffer)
               && t.announced == Max(s.announced, row.id)
             else t.w.told == s.w.told && t.buffer == s.buffer && t.announced == s.announced
    ensures Says(w, buffer, before + [row], t, mail)
  {
    var news := FreshRows(w.archive, before, mail);
    FreshSnoc(w.archive, before, row, mail);
    FreshMeans(w.archive, before, row, mail);
    RowSnoc(news, row, mail);
    IdSnoc(w.lastAnnounced, RowIds(news), row.id);
    IdSnoc(0, OfAge(news, false), row.id);
    Associate(w.told, Each(OfAge(news, false)), [[row.id]]);
    Associate(buffer, OfAge(news, true), [row.id]);
    Empty(news);
    Empty(OfAge(news, true));
    Empty(OfAge(news, false));
    hide FreshRows, Fresh, RowIds, OfAge, Keys, Each, Highest, ReadIn, Max;
  }

  lemma TakeExactly(archive: multiset<Key>, before: seq<Row>, s: State, row: Row, mail: Mail)
    requires s.w.archive == archive + Keys(FreshRows(archive, before, mail), mail)
    ensures var (t, result) := TakeRow(s, row, mail);
            && Quietly(s, t.(last := s.last)) && t.last == Max(s.last, row.id)
            && t.w.archive == archive + Keys(FreshRows(archive, before + [row], mail), mail)
            && (result.Created? <==> Fresh(archive, before, row, mail))
            && (result.Unavailable? <==> row.body.NotAvailable?) && (result.Skip? <==> row.body.Unusable?)
  {
    IngestExactly(archive, before, s, row, mail);
    var s1 := Ingest(s, row, mail).0;
    ParkQuietly(s1, row.id);
    hide Ingest, Park, FreshRows, Keys, Fresh, Max;
  }

  lemma LiveRowExactly(w: World, buffer: seq<RowId>, before: seq<Row>, s: State, row: Row, mail: Mail)
    requires Says(w, buffer, before, s, mail) && Between(w, s)
    ensures var t := LiveRow(s, row, mail);
            Says(w, buffer, before + [row], t, mail) && Between(w, t) && t.last == Max(s.last, row.id)
  {
    hide *;
    SaysFiles(w, buffer, before, s, mail);
    TakeExactly(w.archive, before, s, row, mail);
    FreshMeans(w.archive, before, row, mail);
    var (s1, result) := TakeRow(s, row, mail);
    QuietlyParts(s, s1.(last := s.last));
    var stale := row.body.Readable? && row.body.stale;
    AnnounceExactly(s1, row.id, stale, s1.last);
    LiveRowIs(s, row, mail);
    SaysSnoc(w, buffer, before, row, s, LiveRow(s, row, mail), mail);
    BetweenSnoc(w, s, row.id, s1, LiveRow(s, row, mail));
  }

  lemma LiveRowIs(s: State, row: Row, mail: Mail)
    ensures var (s1, result) := TakeRow(s, row, mail);
            LiveRow(s, row, mail)
            == if result.Created? then Announce(s1, row.id, row.body.Readable? && row.body.stale, s1.last) else s1
  {
    hide TakeRow, Announce;
  }

  lemma QuietlyParts(s: State, t: State)
    requires Quietly(s, t)
    ensures t.w.told == s.w.told && t.buffer == s.buffer && t.announced == s.announced && t.last == s.last
    ensures t.w.lastRowid == s.w.lastRowid && t.w.lastAnnounced == s.w.lastAnnounced
  {
  }

  lemma BetweenSnoc(w: World, s: State, id: RowId, s1: State, t: State)
    requires Between(w, s) && s1.last == Max(s.last, id) && s1.announced == s.announced
    requires s1.w.lastRowid == s.w.lastRowid && s1.w.lastAnnounced == s.w.lastAnnounced
    requires t == s1 || (t.last == s1.last && t.w.lastRowid == s1.last && t.announced == Max(s1.announced, id)
                         && t.w.lastAnnounced == t.announced)
    ensures Between(w, t)
  {
  }

  lemma SaysFiles(w: World, buffer: seq<RowId>, rows: seq<Row>, s: State, mail: Mail)
    requires Says(w, buffer, rows, s, mail)
    ensures s.w.archive == w.archive + Keys(FreshRows(w.archive, rows, mail), mail)
  {
    hide FreshRows, Keys, Each, OfAge, Highest, RowIds;
  }

  lemma LastLive(s: State, rows: seq<Row>, mail: Mail)
    ensures LiveRows(s, [], mail) == s
    ensures rows != [] ==>
              LiveRows(s, rows, mail) == LiveRow(LiveRows(s, rows[..|rows| - 1], mail), rows[|rows| - 1], mail)
  {
    hide LiveRow;
  }

  lemma HighestSnoc(n: nat, rows: seq<Row>)
    ensures rows != [] ==> Highest(n, RowIds(rows)) == Max(Highest(n, RowIds(rows[..|rows| - 1])), rows[|rows| - 1].id)
    ensures rows == [] ==> Highest(n, RowIds(rows)) == n
  {
    if rows != [] {
      IdSnoc(n, RowIds(rows[..|rows| - 1]), rows[|rows| - 1].id);
    }
  }

  lemma {:induction false} LiveRowsExactly(w: World, buffer: seq<RowId>, before: seq<Row>, s: State, rows: seq<Row>,
                                           mail: Mail)
    requires Says(w, buffer, before, s, mail) && Between(w, s)
    ensures var t := LiveRows(s, rows, mail);
            Says(w, buffer, before + rows, t, mail) && Between(w, t) && t.last == Highest(s.last, RowIds(rows))
  {
    hide *;
    LastLive(s, rows, mail);
    HighestSnoc(s.last, rows);
    if rows == [] {
      Empty(before);
    } else {
      var front, row := rows[..|rows| - 1], rows[|rows| - 1];
      LiveRowsExactly(w, buffer, before, s, front, mail);
      Associate(before, front, [row]);
      assert front + [row] == rows;
      LiveRowExactly(w, buffer, before + front, LiveRows(s, front, mail), row, mail);
    }
  }

  lemma RetriedSay(w: World, buffer: seq<RowId>, input: Input, mail: Mail)
    ensures var (s1, done) := RetryParked(Begin(w, buffer), input.parkedRows, mail);
            var t := Shift(AnnounceRetried(s1, done, w.lastRowid), input);
            Says(w, buffer, Retried(w, input), t, mail) && Between(w, t) && t.last == w.lastRowid
  {
    RetryExactly(w, buffer, input, mail);
    var (s1, done) := RetryParked(Begin(w, buffer), input.parkedRows, mail);
    AnnouncedExactly(s1, done);
    hide RetryParked, AnnounceRetried, FreshRows, Keys, Each, OfAge, Highest, RowIds, CreatedIds, CreatedOf, Retried;
  }

  /** Every live drain that ends: of the parked rows that were tried again and the new rows, in this order, exactly
      the fresh ones are filed, the recent ones among them are announced, one event each, and the stale ones join
      the stale bucket. The cursors end at the highest row that was taken and the highest that was announced. */
  lemma LiveTellsExactly(w: World, buffer: seq<RowId>, input: Input, mail: Mail)
    ensures var t, news := DrainLive(w, buffer, input, mail),
            FreshRows(w.archive, Retried(w, input) + Delta(input), mail);
            && t.w.told == w.told + Each(OfAge(news, false))
            && t.buffer == buffer + OfAge(news, true)
            && t.w.archive == w.archive + Keys(news, mail)
            && t.w.lastRowid == Highest(w.lastRowid, RowIds(Delta(input)))
            && t.w.lastAnnounced == Highest(w.lastAnnounced, RowIds(news))
  {
    RetriedSay(w, buffer, input, mail);
    var (s1, done) := RetryParked(Begin(w, buffer), input.parkedRows, mail);
    var s2 := Shift(AnnounceRetried(s1, done, w.lastRowid), input);
    LastLive(s2, [], mail);
    LiveRowsExactly(w, buffer, Retried(w, input), s2, Delta(input), mail);
    var s3 := LiveRows(s2, Delta(input), mail);
    hide RetryParked, AnnounceRetried, Shift, LiveRows, FreshRows, Keys, Each, OfAge, Highest, RowIds, Retried;
    assert DrainLive(w, buffer, input, mail) == SaveIfMoved(SaveParked(s3), w.lastRowid, w.lastAnnounced);
  }

  // ----- what a boot counts ----------------------------------------------------------------------

  /** The rows whose body was read. */
  function ReadRows(rows: seq<Row>): seq<Row> {
    if rows == [] then [] else
      var row := rows[|rows| - 1];
      ReadRows(rows[..|rows| - 1]) + if row.body.Readable? then [row] else []
  }

  function Above(ids: seq<RowId>, mark: nat): seq<RowId> {
    if ids == [] then [] else
      var id := ids[|ids| - 1];
      Above(ids[..|ids| - 1], mark) + if mark < id then [id] else []
  }

  function ReadAbove(rows: seq<Row>, mark: nat): seq<RowId> {
    Above(RowIds(ReadRows(rows)), mark)
  }

  lemma ReadAboveSnoc(rows: seq<Row>, row: Row, mark: nat, mail: Mail)
    ensures ReadRows(rows + [row]) == ReadRows(rows) + if row.body.Readable? then [row] else []
    ensures ReadAbove(rows + [row], mark) == ReadAbove(rows, mark) + if row.body.Readable?
            && mark < row.id then [row.id] else []
    ensures forall n :: Highest(n, RowIds(ReadRows(rows + [row])))
              == if row.body.Readable? then Max(Highest(n, RowIds(ReadRows(rows))), row.id)
                  else Highest(n, RowIds(ReadRows(rows)))
  {
    assert (rows + [row])[..|rows|] == rows;
    var ids := RowIds(ReadRows(rows));
    RowSnoc(ReadRows(rows), row, mail);
    assert (ids + [row.id])[..|ids|] == ids;
    Empty(ReadRows(rows));
    Empty(ReadAbove(rows, mark));
    forall n {
      IdSnoc(n, ids, row.id);
    }
    hide ReadRows, RowIds, OfAge, Keys;
  }

  lemma {:induction false} ReadAboveAppend(a: seq<Row>, b: seq<Row>, mark: nat, mail: Mail)
    ensures ReadAbove(a + b, mark) == ReadAbove(a, mark) + ReadAbove(b, mark)
  {
    hide *;
    if b == [] {
      Empty(a);
      Empty(ReadAbove(a, mark));
      NoneAbove(mark);
    } else {
      var front, row := b[..|b| - 1], b[|b| - 1];
      ReadAboveAppend(a, front, mark, mail);
      ReadAboveSnoc(a + front, row, mark, mail);
      ReadAboveSnoc(front, row, mark, mail);
      Associate(a, front, [row]);
      Associate(ReadAbove(a, mark), ReadAbove(front, mark), if row.body.Readable? && mark < row.id then [row.id]
          else []);
      assert front + [row] == b;
    }
  }

  lemma NoneAbove(mark: nat)
    ensures ReadAbove([], mark) == []
  {
  }

  lemma RecordedSnoc(done: seq<Success>, more: seq<Success>, mark: nat)
    requires |more| <= 1
    ensures Recorded(done + more, mark)
         == Recorded(done, mark) + if more != [] && !more[0].result.Skip? && mark < more[0].id then [more[0].id] else []
  {
    if more == [] {
      Empty(done);
      Empty(Recorded(done, mark));
    } else {
      assert (done + more)[..|done|] == done;
    }
  }

  /** What one retried row adds to the backlog. */
  lemma RetryRowCounts(s: State, row: Row, mail: Mail)
    ensures var more := RetryRow(s, row, mail).1;
            && |more| <= 1 && (more != [] && !more[0].result.Skip? <==> row.body.Readable?)
            && (more != [] ==> more[0].id == row.id)
  {
    IngestCases(s, row, mail);
    hide Ingest, Park;
  }

  lemma {:induction false} RetryRowsCount(s: State, rows: seq<Row>, mark: nat, mail: Mail)
    ensures Recorded(RetryRows(s, rows, mail).1, mark) == ReadAbove(rows, mark)
  {
    if rows != [] {
      var before, row := rows[..|rows| - 1], rows[|rows| - 1];
      assert rows == before + [row];
      hide *;
      RetryRowsCount(s, before, mark, mail);
      LastRetry(s, rows, mail);
      var (s1, done) := RetryRows(s, before, mail);
      RetryRowCounts(s1, row, mail);
      RecordedSnoc(done, RetryRow(s1, row, mail).1, mark);
      ReadAboveSnoc(before, row, mark, mail);
    }
  }

  lemma RetriedCount(w: World, input: Input, mail: Mail)
    ensures Recorded(RetryParked(Begin(w, []), input.parkedRows, mail).1, w.lastAnnounced)
         == ReadAbove(Retried(w, input), w.lastAnnounced)
  {
    var s, rows := Begin(w, []), Retried(w, input);
    if w.parked != map[] && input.parkedRows.Some? {
      RetryRowsCount(s.(parked := map id | id in s.parked && id in Ids(rows) :: s.parked[id]), rows, w.lastAnnounced,
          mail);
    }
    hide RetryRows, Ids;
  }

  /** What a boot has done with the rows `rows` so far, `delta` of which are new. */
  predicate Files(w: World, rows: seq<Row>, delta: seq<Row>, s: State, mail: Mail) {
    && s.w.told == w.told && s.buffer == [] && s.w.archive == w.archive + Keys(FreshRows(w.archive, rows, mail), mail)
    && s.last == Highest(w.lastRowid, RowIds(delta)) && s.announced == Highest(w.lastAnnounced, RowIds(ReadRows(delta)))
    && s.w.lastRowid == w.lastRowid <= s.last && s.w.lastAnnounced == w.lastAnnounced <= s.announced
  }

  lemma CatchupRowExactly(w: World, before: seq<Row>, delta: seq<Row>, s: State, row: Row, mail: Mail)
    requires Files(w, before, delta, s, mail)
    ensures var (t, more) := CatchupRow(s, row, mail);
            && Files(w, before + [row], delta + [row], t, mail) && |more| <= 1
            && (more != [] && !more[0].result.Skip? <==> row.body.Readable?) && (more != [] ==> more[0].id == row.id)
  {
    TakeExactly(w.archive, before, s, row, mail);
    ReadAboveSnoc(delta, row, 0, mail);
    RowSnoc(delta, row, mail);
    IdSnoc(w.lastRowid, RowIds(delta), row.id);
    MaxGrows(s.announced, row.id);
    MaxGrows(s.last, row.id);
    hide TakeRow, FreshRows, Keys, Fresh, Highest, RowIds, ReadRows, ReadAbove, Max, Each, OfAge;
  }

  lemma LastCaught(s: State, rows: seq<Row>, mail: Mail)
    requires rows != []
    ensures var (s1, done) := CatchupRows(s, rows[..|rows| - 1], mail);
            var (s2, more) := CatchupRow(s1, rows[|rows| - 1], mail);
            CatchupRows(s, rows, mail) == (s2, done + more)
  {
    hide CatchupRow;
  }

  lemma NoneCaught(s: State, mark: nat, mail: Mail)
    ensures CatchupRows(s, [], mail) == (s, []) && Recorded([], mark) == [] == ReadAbove([], mark)
  {
  }

  lemma {:induction false} CatchupRowsExactly(w: World, before: seq<Row>, s: State, rows: seq<Row>, mail: Mail)
    requires Files(w, before, [], s, mail)
    ensures var (t, done) := CatchupRows(s, rows, mail);
            Files(w, before + rows, rows, t, mail)
                && Recorded(done, w.lastAnnounced) == ReadAbove(rows, w.lastAnnounced)
  {
    hide *;
    if rows == [] {
      Empty(before);
      NoneCaught(s, w.lastAnnounced, mail);
    } else {
      var front, row := rows[..|rows| - 1], rows[|rows| - 1];
      CatchupRowsExactly(w, before, s, front, mail);
      LastCaught(s, rows, mail);
      var (s1, done) := CatchupRows(s, front, mail);
      CatchupRowExactly(w, before + front, front, s1, row, mail);
      RecordedSnoc(done, CatchupRow(s1, row, mail).1, w.lastAnnounced);
      ReadAboveSnoc(front, row, w.lastAnnounced, mail);
      Associate(before, front, [row]);
      assert front + [row] == rows;
    }
  }

  lemma BootBegins(w: World, input: Input, mail: Mail)
    ensures Files(w, Retried(w, input), [], Shift(RetryParked(Begin(w, []), input.parkedRows, mail).0, input), mail)
  {
    RetryExactly(w, [], input, mail);
    hide RetryParked, FreshRows, Keys, Retried;
  }

  /** Every boot that ends: exactly the fresh rows are filed; if the second query was answered, the rows whose body was
      read and that lie above the mark make up one event, the parked ones first, and if there are none no event goes
      out. The mark ends at the highest new row that was read. */
  lemma BootCountsExactly(w: World, input: Input, mail: Mail)
    ensures var t, rows := DrainCatchup(w, input, mail), Retried(w, input) + Delta(input);
            var counted := if input.newRows.None? then [] else ReadAbove(rows, w.lastAnnounced);
            && t.w.told == (if counted == [] then w.told else w.told + [counted]) && t.buffer == []
            && t.w.archive == w.archive + Keys(FreshRows(w.archive, rows, mail), mail)
            && t.w.lastRowid == Highest(w.lastRowid, RowIds(Delta(input)))
            && t.w.lastAnnounced == Highest(w.lastAnnounced, RowIds(ReadRows(Delta(input))))
  {
    hide *;
    BootBegins(w, input, mail);
    RetriedCount(w, input, mail);
    var (s1, retried) := RetryParked(Begin(w, []), input.parkedRows, mail);
    var s2 := Shift(s1, input);
    CatchupRowsExactly(w, Retried(w, input), s2, Delta(input), mail);
    ReadAboveAppend(Retried(w, input), Delta(input), w.lastAnnounced, mail);
    Empty(Retried(w, input));
    var (s3, done) := CatchupRows(s2, Delta(input), mail);
    var counted := ReadAbove(Retried(w, input), w.lastAnnounced) + ReadAbove(Delta(input), w.lastAnnounced);
    BootEnds(w, input, Retried(w, input) + Delta(input), s3, counted, mail);
    CatchupIs(w, input, mail);
  }

  lemma CatchupIs(w: World, input: Input, mail: Mail)
    ensures var (s1, retried) := RetryParked(Begin(w, []), input.parkedRows, mail);
            var (s3, done) := CatchupRows(Shift(s1, input), Delta(input), mail);
            var end := EndOf(w, s3, Recorded(retried, w.lastAnnounced) + Recorded(done, w.lastAnnounced));
            DrainCatchup(w, input, mail) == if input.newRows.None? then SaveParked(s3) else end
    ensures input.newRows.None? ==> Delta(input) == []
  {
    NoneCaught(Shift(RetryParked(Begin(w, []), input.parkedRows, mail).0, input), 0, mail);
    hide RetryParked, CatchupRows, Recorded, Shift, SaveParked, SaveIfMoved, Checkpoint, Emit;
  }

  /** One event, or none, and the saved files. */
  function EndOf(w: World, s: State, counted: seq<RowId>): State {
    if counted != [] then Checkpoint(Emit(s, counted), s.last)
    else SaveIfMoved(SaveParked(s), w.lastRowid, w.lastAnnounced)
  }

  lemma BootEnds(w: World, input: Input, rows: seq<Row>, s: State, counted: seq<RowId>, mail: Mail)
    requires Files(w, rows, Delta(input), s, mail)
    ensures var t := if input.newRows.None? then SaveParked(s) else EndOf(w, s, counted);
            var told := if input.newRows.None? then [] else counted;
            && t.w.told == (if told == [] then w.told else w.told + [told]) && t.buffer == []
            && t.w.archive == w.archive + Keys(FreshRows(w.archive, rows, mail), mail)
            && t.w.lastRowid == Highest(w.lastRowid, RowIds(Delta(input)))
            && t.w.lastAnnounced == Highest(w.lastAnnounced, RowIds(ReadRows(Delta(input))))
  {
    NothingRead(w.lastRowid, w.lastAnnounced);
    hide FreshRows, Keys, Highest, RowIds, ReadRows;
  }

  lemma NothingRead(last: nat, mark: nat)
    ensures Highest(last, RowIds([])) == last && Highest(mark, RowIds(ReadRows([]))) == mark
  {
  }

  // ----- what is parked in the end -----------------------------------------------------------------

  /** The attempts made for a row, if it is parked. */
  function Entry(parked: map<RowId, nat>, r: RowId): Option<nat> {
    if r in parked then Some(parked[r]) else None
  }

  /** One more attempt; the thirtieth is the last. */
  function Again(e: Option<nat>): Option<nat> {
    var attempts := (if e.Some? then e.value else 0) + 1;
    if attempts < 30 then Some(attempts) else None
  }

  /** A parked row that is tried again stays parked only if its body is still missing; one that is not in the answer
      is forgotten. A new row whose body is missing is parked; one whose body is there stays as it is. */
  function ParkedAfter(w: World, input: Input, r: RowId): Option<nat> {
    var tried := if w.parked == map[] || input.parkedRows.None? then Entry(w.parked, r)
                 else if r in Missing(input.parkedRows.value) then Again(Entry(w.parked, r))
                 else None;
    if r in Missing(Delta(input)) then Again(tried) else tried
  }

  predicate Distinct(rows: seq<Row>) {
    forall i, j | 0 <= i < j < |rows| :: rows[i].id != rows[j].id
  }

  lemma ParkExactly(s: State, id: RowId, r: RowId)
    ensures Entry(Park(s, id).parked, r) == if r == id then Again(Entry(s.parked, r)) else Entry(s.parked, r)
  {
  }

  lemma RetryRowParks(s: State, row: Row, mail: Mail, r: RowId)
    ensures Entry(RetryRow(s, row, mail).0.parked, r)
         == if r != row.id then Entry(s.parked, r) else if row.body.NotAvailable? then Again(Entry(s.parked, r))
             else None
  {
    IngestCases(s, row, mail);
    ParkExactly(Ingest(s, row, mail).0, row.id, r);
    hide Ingest, Park, Again;
  }

  lemma TakeRowParks(s: State, row: Row, mail: Mail, r: RowId)
    ensures Entry(TakeRow(s, row, mail).0.parked, r)
         == if r == row.id && row.body.NotAvailable? then Again(Entry(s.parked, r)) else Entry(s.parked, r)
  {
    IngestCases(s, row, mail);
    ParkExactly(Ingest(s, row, mail).0, row.id, r);
    hide Ingest, Park, Again;
  }

  /** In a list of distinct rows, the last one is not among those before it. */
  lemma LastIsNew(rows: seq<Row>, r: RowId)
    requires Distinct(rows) && rows != []
    ensures var front, row := rows[..|rows| - 1], rows[|rows| - 1];
            && Distinct(front) && row.id !in Ids(front)
            && (r in Missing(rows) <==> r in Missing(front) || (r == row.id && row.body.NotAvailable?))
            && (r in Ids(rows) <==> r in Ids(front) || r == row.id)
            && (r in Missing(front) ==> r in Ids(front))
  {
    MissingSnoc(rows);
    IdsSnoc(rows);
  }

  lemma {:induction false} RetryRowsPark(s: State, rows: seq<Row>, mail: Mail, r: RowId)
    requires Distinct(rows)
    ensures Entry(RetryRows(s, rows, mail).0.parked, r)
         == if r in Missing(rows) then Again(Entry(s.parked, r)) else if r in Ids(rows) then None
             else Entry(s.parked, r)
  {
    if rows != [] {
      hide *;
      var front := rows[..|rows| - 1];
      LastIsNew(rows, r);
      RetryRowsPark(s, front, mail, r);
      LastRetry(s, rows, mail);
      RetryRowParks(RetryRows(s, front, mail).0, rows[|rows| - 1], mail, r);
    }
  }

  lemma RetryParksExactly(w: World, buffer: seq<RowId>, input: Input, mail: Mail, r: RowId)
    requires input.parkedRows.Some? ==> Distinct(input.parkedRows.value)
    ensures Entry(RetryParked(Begin(w, buffer), input.parkedRows, mail).0.parked, r)
         == if w.parked == map[] || input.parkedRows.None? then Entry(w.parked, r)
            else if r in Missing(input.parkedRows.value) then Again(Entry(w.parked, r)) else None
  {
    if w.parked != map[] && input.parkedRows.Some? {
      var s, rows := Begin(w, buffer), input.parkedRows.value;
      var kept := s.(parked := map id | id in s.parked && id in Ids(rows) :: s.parked[id]);
      RetryRowsPark(kept, rows, mail, r);
      assert r in Ids(rows) ==> Entry(kept.parked, r) == Entry(w.parked, r);
    }
    hide RetryRows, Again;
  }

  lemma {:induction false} LiveRowsPark(s: State, rows: seq<Row>, mail: Mail, r: RowId)
    requires Distinct(rows)
    ensures Entry(LiveRows(s, rows, mail).parked, r) == if r in Missing(rows) then Again(Entry(s.parked, r))
            else Entry(s.parked, r)
  {
    LastLive(s, rows, mail);
    if rows != [] {
      var front, row := rows[..|rows| - 1], rows[|rows| - 1];
      LastIsNew(rows, r);
      LiveRowsPark(s, front, mail, r);
      LiveRowParks(LiveRows(s, front, mail), row, mail, r);
      hide *;
    }
  }

  lemma LiveRowParks(s: State, row: Row, mail: Mail, r: RowId)
    ensures Entry(LiveRow(s, row, mail).parked, r)
         == if r == row.id && row.body.NotAvailable? then Again(Entry(s.parked, r)) else Entry(s.parked, r)
  {
    TakeRowParks(s, row, mail, r);
    var s1 := TakeRow(s, row, mail).0;
    AnnounceExactly(s1, row.id, row.body.Readable? && row.body.stale, s1.last);
    hide TakeRow, Announce, Again;
  }

  lemma CatchupRowParks(s: State, row: Row, mail: Mail, r: RowId)
    ensures Entry(CatchupRow(s, row, mail).0.parked, r)
         == if r == row.id && row.body.NotAvailable? then Again(Entry(s.parked, r)) else Entry(s.parked, r)
  {
    TakeRowParks(s, row, mail, r);
    hide TakeRow, Again;
  }

  lemma {:induction false} CatchupRowsPark(s: State, rows: seq<Row>, mail: Mail, r: RowId)
    requires Distinct(rows)
    ensures Entry(CatchupRows(s, rows, mail).0.parked, r) == if r in Missing(rows) then Again(Entry(s.parked, r))
            else Entry(s.parked, r)
  {
    if rows == [] {
      NoneCaught(s, 0, mail);
    } else {
      hide *;
      var front, row := rows[..|rows| - 1], rows[|rows| - 1];
      LastIsNew(rows, r);
      CatchupRowsPark(s, front, mail, r);
      LastCaught(s, rows, mail);
      CatchupRowParks(CatchupRows(s, front, mail).0, row, mail, r);
    }
  }

  /** What every drain that ends leaves parked, row by row. */
  lemma LiveParksExactly(w: World, buffer: seq<RowId>, input: Input, mail: Mail, r: RowId)
    requires (input.parkedRows.Some? ==> Distinct(input.parkedRows.value)) && Distinct(Delta(input))
    ensures Entry(DrainLive(w, buffer, input, mail).w.parked, r) == ParkedAfter(w, input, r)
  {
    RetryParksExactly(w, buffer, input, mail, r);
    var (s1, done) := RetryParked(Begin(w, buffer), input.parkedRows, mail);
    RetryExactly(w, buffer, input, mail);
    AnnouncedExactly(s1, done);
    var s2 := Shift(AnnounceRetried(s1, done, w.lastRowid), input);
    LastLive(s2, [], mail);
    LiveRowsPark(s2, Delta(input), mail, r);
    hide RetryParked, AnnounceRetried, LiveRows, Missing, Again, FreshRows, Keys, Each;
  }

  lemma BootParksExactly(w: World, input: Input, mail: Mail, r: RowId)
    requires (input.parkedRows.Some? ==> Distinct(input.parkedRows.value)) && Distinct(Delta(input))
    ensures Entry(DrainCatchup(w, input, mail).w.parked, r) == ParkedAfter(w, input, r)
  {
    RetryParksExactly(w, [], input, mail, r);
    var s2 := Shift(RetryParked(Begin(w, []), input.parkedRows, mail).0, input);
    NoneCaught(s2, 0, mail);
    CatchupRowsPark(s2, Delta(input), mail, r);
    hide RetryParked, CatchupRows, Missing, Again, Recorded;
  }
}
