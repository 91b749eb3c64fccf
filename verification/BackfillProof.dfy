/** The in-memory map answers as the scan would, and crashes do not change which messages the archive ends up with. */
module BackfillProof {
  import opened Wrappers
  import opened BackfillSpec
  import Seqs

  /** Each non-empty Message-ID is in one file only. */
  ghost predicate Unique(files: Files) {
    forall p, q | p in files && q in files && files[p].messageId == files[q].messageId != "" :: p == q
  }

  /** The map knows exactly the Message-IDs on the disk. */
  ghost predicate Agree(seen: Seen, files: Files) {
    && (forall id | id in seen :: id != "" && seen[id] in files && files[seen[id]].messageId == id)
    && (forall p | p in files && files[p].messageId != "" :: files[p].messageId in seen)
  }

  // ----- the map against the scan --------------------------------------------------------

  /** Files with that Message-ID, if any, belong to the account of the message. */
  ghost predicate Local(files: Files, m: Message, id: string) {
    forall p | p in files && files[p].messageId == id != "" :: files[p].account == m.account
  }

  predicate HasRoom(files: Files, m: Message) {
    m.first !in files || m.second !in files || m.third !in files
  }

  lemma PersistAgrees(files: Files, seen: Seen, m: Message)
    requires Agree(seen, files) && Unique(files) && (HasRoom(files, m) || Known(seen, m.messageId))
    ensures var (after, more, r) := PersistSeen(files, seen, m); Agree(more, after) && Unique(after)
  {
  }

  /** The map gives the same flag, file and archive as the scan; it gives the same parent too if and only if the
      parent, when it is archived at all, is archived under the same account. */
  lemma SeenAnswersAsScan(files: Files, seen: Seen, m: Message)
    requires Agree(seen, files) && Unique(files) && (HasRoom(files, m) || Known(seen, m.messageId))
    requires Local(files, m, m.messageId)
    ensures var (after, more, r) := PersistSeen(files, seen, m);
            FiledByScan(files, m, after, r) && (ParentByScan(after, m, r.parent) <==> Local(after, m, m.parent))
  {
    var (after, more, r) := PersistSeen(files, seen, m);
    PersistAgrees(files, seen, m);
    KnownIffHeld(files, seen, m);
    ParentAgrees(after, more, m);
    hide Agree, Unique, Local, ParentByScan;
  }

  lemma KnownIffHeld(files: Files, seen: Seen, m: Message)
    requires Agree(seen, files) && Local(files, m, m.messageId)
    ensures Known(seen, m.messageId) <==> exists p :: m.messageId != "" && Holds(files, m.account, m.messageId, p)
    ensures Known(seen, m.messageId) ==> Holds(files, m.account, m.messageId, seen[m.messageId])
  {
    if Known(seen, m.messageId) {
      assert files[seen[m.messageId]].messageId == m.messageId != "";
      assert Holds(files, m.account, m.messageId, seen[m.messageId]);
    }
  }

  lemma ParentAgrees(files: Files, seen: Seen, m: Message)
    requires Agree(seen, files) && Unique(files)
    ensures ParentByScan(files, m, Find(seen, m.parent)) <==> Local(files, m, m.parent)
  {
    if Known(seen, m.parent) {
      var p := seen[m.parent];
      assert files[p].messageId == m.parent;
      assert forall q | q in files && files[q].messageId == m.parent :: q == p;
      assert Local(files, m, m.parent) <==> files[p].account == m.account;
      assert Find(seen, m.parent) == Some(p);
    } else if m.parent != "" {
      assert forall p | p in files :: files[p].messageId != m.parent;
      assert Local(files, m, m.parent);
    }
  }

  lemma CreatedIsUnique(files: Files, m: Message)
    requires Unique(files) && Local(files, m, m.messageId) && HasRoom(files, m)
    requires !exists p :: m.messageId != "" && Holds(files, m.account, m.messageId, p)
    ensures Unique(files[PickName(files, m) := Stored(m.account, m.messageId)])
  {
    forall p | p in files && m.messageId != "" ensures files[p].messageId != m.messageId {
      assert !Holds(files, m.account, m.messageId, p);
    }
  }

  /** The scan leaves no choice: two answers to one message are the same. */
  lemma ScanIsFunctional(files: Files, m: Message, a: Files, b: Files, r: Outcome, q: Outcome)
    requires Unique(files) && (HasRoom(files, m) || exists p ::
             m.messageId != "" && Holds(files, m.account, m.messageId, p))
    requires Local(files, m, m.messageId)
    requires PersistScan(files, m, a, r) && PersistScan(files, m, b, q)
    ensures a == b && r == q
  {
    if !exists p :: m.messageId != "" && Holds(files, m.account, m.messageId, p) {
      CreatedIsUnique(files, m);
    }
    assert a == b && Unique(a);
    hide Unique, Local, PickName, HasRoom;
    SameParent(a, m, r.parent, q.parent);
  }

  lemma SameParent(files: Files, m: Message, r: Option<Path>, q: Option<Path>)
    requires Unique(files) && ParentByScan(files, m, r) && ParentByScan(files, m, q)
    ensures r == q
  {
    assert r.Some? && q.Some? ==> files[r.value].messageId == files[q.value].messageId != "";
  }

  // ----- what the surroundings must grant for crash-proof runs -------------------------------

  ghost predicate Sorted(rows: seq<Row>) {
    forall i, j | 0 <= i < j < |rows| :: rows[i].id < rows[j].id
  }

  /** The index lists the Message-ID that is in the message, or none. */
  ghost predicate Consistent(rows: seq<Row>) {
    forall r | r in rows && r.parsed.Some? :: r.listed == "" || r.listed == r.parsed.value.messageId
  }

  /** A third name belongs to its row alone and is not there to begin with. */
  ghost predicate Roomy(files: Files, rows: seq<Row>) {
    && (forall r | r in rows && r.parsed.Some? :: r.parsed.value.third !in files)
    && (forall a, b | a in rows && b in rows && a.parsed.Some? && b.parsed.Some? ::
          && a.parsed.value.third != b.parsed.value.first && a.parsed.value.third != b.parsed.value.second
          && (a != b ==> a.parsed.value.third != b.parsed.value.third))
  }

  /** The row's message is in the archive, as far as it can be told by its Message-ID. */
  predicate Kept(files: Files, r: Row) {
    r.parsed.Some? && r.parsed.value.messageId != "" ==> HasId(files, r.parsed.value.messageId)
  }

  predicate HasId(files: Files, id: string) {
    exists p :: p in files && files[p].messageId == id
  }

  /** The Message-IDs the archive is meant to hold in the end. */
  ghost predicate Wanted(files0: Files, p0: nat, rows: seq<Row>, id: string) {
    id != "" && (HasId(files0, id) || exists r :: r in rows && FromRow(r, p0, id))
  }

  predicate FromRow(r: Row, p0: nat, id: string) {
    r.id > p0 && r.parsed.Some? && r.parsed.value.messageId == id
  }

  /** The disk, whatever was done so far. */
  ghost predicate DiskOk(files0: Files, p0: nat, rows: seq<Row>, files: Files) {
    && Unique(files)
    && (forall p | p in files0 :: p in files && files[p] == files0[p])
    && (forall p | p in files && files[p].messageId != "" :: Wanted(files0, p0, rows, files[p].messageId))
    && (forall r | r in rows && r.parsed.Some? && r.parsed.value.third in files ::
        files[r.parsed.value.third].messageId == r.parsed.value.messageId)
  }

  /** Every row up to the mark is kept, unless it still waits in the batch. */
  ghost predicate KeptUpTo(rows: seq<Row>, files: Files, p0: nat, mark: nat, todo: seq<Row>) {
    forall r | r in rows && p0 < r.id <= mark && r !in todo :: Kept(files, r)
  }

  ghost predicate WorkOk(files0: Files, p0: nat, rows: seq<Row>, w: Work) {
    && DiskOk(files0, p0, rows, w.files) && Agree(w.seen, w.files)
    && KeptUpTo(rows, w.files, p0, w.progress, []) && KeptUpTo(rows, w.files, p0, w.mark, w.todo)
    && p0 <= w.progress <= w.mark
    && w.queue == RowsAfter(rows, w.mark)
    && (forall r | r in w.todo :: r in rows && p0 < r.id)
  }

  lemma {:induction false} AfterIsIn(rows: seq<Row>, bound: nat)
    requires Sorted(rows)
    ensures forall r :: r in RowsAfter(rows, bound) <==> r in rows && r.id > bound
    ensures Sorted(RowsAfter(rows, bound))
  {
    if rows != [] {
      AfterIsIn(rows[1..], bound);
      assert rows == [rows[0]] + rows[1..];
      assert forall r | r in rows[1..] :: rows[0].id < r.id;
      SortedCons(if rows[0].id > bound then [rows[0]] else [], RowsAfter(rows[1..], bound));
    }
  }

  lemma SortedCons(head: seq<Row>, tail: seq<Row>)
    requires Sorted(tail) && |head| <= 1 && (head != [] ==> forall r | r in tail :: head[0].id < r.id)
    ensures Sorted(head + tail)
  {
  }

  /** Dropping a sorted prefix is the same as raising the bound to its last rowid. */
  lemma {:induction false} AfterLast(rows: seq<Row>, bound: nat, n: nat)
    requires Sorted(rows) && 0 < n <= |RowsAfter(rows, bound)|
    ensures RowsAfter(rows, bound)[n..] == RowsAfter(rows, RowsAfter(rows, bound)[n - 1].id)
  {
    NotEmpty(rows, bound);
    hide *;
    var all, rest := RowsAfter(rows, bound), RowsAfter(rows[1..], bound);
    TailAbove(rows);
    AfterIsIn(rows[1..], bound);
    TakeHead(rows, bound, n);
    if rows[0].id <= bound {
      AfterLast(rows[1..], bound, n);
      assert rest[n - 1] in rest;
      SkipHead(rows, rest[n - 1].id);
    } else if n == 1 {
      AllAfter(rows[1..], bound, rows[0].id);
      SkipHead(rows, rows[0].id);
    } else {
      AfterLast(rows[1..], bound, n - 1);
      assert rest[n - 2] in rest;
      SkipHead(rows, rest[n - 2].id);
    }
  }

  lemma NotEmpty(rows: seq<Row>, bound: nat)
    ensures RowsAfter(rows, bound) != [] ==> rows != []
  {
  }

  lemma TakeHead(rows: seq<Row>, bound: nat, n: nat)
    requires rows != [] && 0 < n <= |RowsAfter(rows, bound)|
    ensures var all, rest := RowsAfter(rows, bound), RowsAfter(rows[1..], bound);
            if rows[0].id <= bound then all == rest
            else |all| == |rest| + 1 && all[n..] == rest[n - 1..] && all[n - 1] == if n == 1 then rows[0]
                else rest[n - 2]
  {
    var rest := RowsAfter(rows[1..], bound);
    UnfoldAfter(rows, bound);
    hide *;
    Seqs.Empty(rest);
    ConsSlices(rows[0], rest, n);
  }

  lemma UnfoldAfter(rows: seq<Row>, bound: nat)
    requires rows != []
    ensures RowsAfter(rows, bound) == (if rows[0].id > bound then [rows[0]] else []) + RowsAfter(rows[1..], bound)
  {
  }

  lemma ConsSlices(head: Row, rest: seq<Row>, n: nat)
    requires 0 < n
    ensures n <= |rest| + 1 ==> ([head] + rest)[n..] == rest[n - 1..] && ([head] + rest)[n - 1] == if n == 1 then head
            else rest[n - 2]
  {
  }

  lemma TailAbove(rows: seq<Row>)
    requires Sorted(rows) && rows != []
    ensures Sorted(rows[1..]) && forall r | r in rows[1..] :: rows[0].id < r.id
  {
  }

  lemma SkipHead(rows: seq<Row>, bound: nat)
    requires rows != [] && rows[0].id <= bound
    ensures RowsAfter(rows, bound) == RowsAfter(rows[1..], bound)
  {
    Seqs.Empty(RowsAfter(rows[1..], bound));
  }

  lemma {:induction false} AllAfter(rows: seq<Row>, bound: nat, more: nat)
    requires Sorted(rows) && bound <= more && forall r | r in rows :: r.id > more
    ensures RowsAfter(rows, bound) == RowsAfter(rows, more) == rows
  {
    if rows != [] {
      UnfoldAfter(rows, bound);
      UnfoldAfter(rows, more);
      hide RowsAfter;
      assert rows[0] in rows && forall r | r in rows[1..] :: r in rows;
      AllAfter(rows[1..], bound, more);
      assert rows == [rows[0]] + rows[1..];
    }
  }

  // ----- persisting a row ----------------------------------------------------------------------

  /** The third name counts as free for a message when it holds that very message. */
  lemma PersistStaysUnique(files: Files, seen: Seen, m: Message)
    requires Agree(seen, files) && Unique(files)
    requires m.third in files ==> files[m.third].messageId == m.messageId
    ensures var (after, more, _) := PersistSeen(files, seen, m); Agree(more, after) && Unique(after)
  {
    if HasRoom(files, m) || Known(seen, m.messageId) {
      PersistAgrees(files, seen, m);
    } else {
      assert m.messageId == "";
    }
  }

  lemma PersistFiles(files: Files, seen: Seen, m: Message)
    ensures var after := PersistSeen(files, seen, m).0;
            && (forall p | p in after :: (p in files && after[p] == files[p]) || after[p].messageId == m.messageId)
            && (forall p | p in files :: p in after && (p == m.third || after[p] == files[p]))
            && (Known(seen, m.messageId) ==> after == files)
            && (!Known(seen, m.messageId) ==>
                PickName(files, m) in after && after[PickName(files, m)].messageId == m.messageId)
  {
  }

  lemma PersistKeepsIds(files: Files, seen: Seen, m: Message)
    requires Agree(seen, files) && (m.third in files ==> files[m.third].messageId == m.messageId)
    ensures var after := PersistSeen(files, seen, m).0;
            && (forall id | id != "" && HasId(files, id) :: HasId(after, id))
            && (m.messageId != "" ==> HasId(after, m.messageId))
  {
    var after := PersistSeen(files, seen, m).0;
    PersistFiles(files, seen, m);
    hide PersistSeen, PickName;
    forall id | id != "" && HasId(files, id) ensures HasId(after, id) {
      var p :| p in files && files[p].messageId == id;
      assert p in after && after[p].messageId == id;
    }
    if m.messageId != "" && Known(seen, m.messageId) {
      assert after[seen[m.messageId]].messageId == m.messageId;
    }
  }

  lemma PersistDisk(files0: Files, p0: nat, rows: seq<Row>, files: Files, seen: Seen, r: Row)
    requires DiskOk(files0, p0, rows, files) && Agree(seen, files) && Roomy(files0, rows)
    requires r in rows && p0 < r.id && r.parsed.Some?
    ensures var (after, more, _) := PersistSeen(files, seen, r.parsed.value);
            && DiskOk(files0, p0, rows, after) && Agree(more, after)
            && (forall q | q in rows && Kept(files, q) :: Kept(after, q)) && Kept(after, r)
  {
    var m := r.parsed.value;
    PersistKeepsIds(files, seen, m);
    PersistFiles(files, seen, m);
    PersistStaysUnique(files, seen, m);
    PersistThird(files0, p0, rows, files, seen, r);
    PersistOld(files0, p0, rows, files, seen, r);
    hide PersistSeen, HasId, Agree, Unique, Roomy, Wanted, Known, PickName;
  }

  /** The first files stay as they are, and every Message-ID on disk is one of those wanted there. */
  lemma PersistOld(files0: Files, p0: nat, rows: seq<Row>, files: Files, seen: Seen, r: Row)
    requires DiskOk(files0, p0, rows, files) && Roomy(files0, rows) && r in rows && p0 < r.id && r.parsed.Some?
    ensures var after := PersistSeen(files, seen, r.parsed.value).0;
            && (forall p | p in files0 :: p in after && after[p] == files0[p])
            && (forall p | p in after && after[p].messageId != "" :: Wanted(files0, p0, rows, after[p].messageId))
  {
    PersistFiles(files, seen, r.parsed.value);
    ThirdIsNew(files0, rows, r);
    if r.parsed.value.messageId != "" {
      RowIsWanted(files0, p0, rows, r);
    }
    hide PersistSeen, Unique, Roomy, Wanted, Known, PickName;
  }

  lemma ThirdIsNew(files0: Files, rows: seq<Row>, r: Row)
    requires Roomy(files0, rows) && r in rows && r.parsed.Some?
    ensures r.parsed.value.third !in files0
  {
  }

  lemma RowIsWanted(files0: Files, p0: nat, rows: seq<Row>, r: Row)
    requires r in rows && p0 < r.id && r.parsed.Some? && r.parsed.value.messageId != ""
    ensures Wanted(files0, p0, rows, r.parsed.value.messageId)
  {
    assert FromRow(r, p0, r.parsed.value.messageId);
  }

  /** A third name, once taken, was taken by its own row. */
  lemma PersistThird(files0: Files, p0: nat, rows: seq<Row>, files: Files, seen: Seen, r: Row)
    requires DiskOk(files0, p0, rows, files) && Roomy(files0, rows) && r in rows && r.parsed.Some?
    ensures var after := PersistSeen(files, seen, r.parsed.value).0;
            forall q | q in rows && q.parsed.Some? && q.parsed.value.third in after ::
              after[q.parsed.value.third].messageId == q.parsed.value.messageId
  {
    hide Unique, Wanted;
  }

  // ----- every step of a process ------------------------------------------------------------------

  lemma PersistWork(files0: Files, p0: nat, rows: seq<Row>, w: Work)
    requires WorkOk(files0, p0, rows, w) && Roomy(files0, rows) && w.todo != []
    ensures WorkOk(files0, p0, rows, Advance(w))
  {
    var r := w.todo[0];
    assert r in w.todo;
    if r.parsed.Some? {
      PersistDisk(files0, p0, rows, w.files, w.seen, r);
    }
    var t := Advance(w);
    TodoRest(rows, w.files, t.files, p0, w.progress, w.mark, w.todo) by { hide PersistSeen, DiskOk, Agree; }
    assert forall q | q in t.todo :: q in w.todo;
    hide DiskOk, Agree, KeptUpTo, PersistSeen, Kept;
  }

  lemma TodoRest(rows: seq<Row>, files: Files, after: Files, p0: nat, progress: nat, mark: nat, todo: seq<Row>)
    requires todo != [] && Kept(after, todo[0]) && forall q | q in rows && Kept(files, q) :: Kept(after, q)
    requires KeptUpTo(rows, files, p0, progress, []) && KeptUpTo(rows, files, p0, mark, todo)
    ensures KeptUpTo(rows, after, p0, progress, []) && KeptUpTo(rows, after, p0, mark, todo[1..])
  {
    hide Kept;
    assert forall q | q in todo :: q == todo[0] || q in todo[1..];
  }

  lemma {:induction false} UnknownIs(batch: seq<Row>, seen: Seen)
    ensures forall r :: r in Unknown(batch, seen) <==> r in batch && !Known(seen, r.listed)
  {
    if batch != [] {
      UnknownIs(batch[..|batch| - 1], seen);
      assert batch == batch[..|batch| - 1] + [batch[|batch| - 1]];
    }
  }

  /** A row that is skipped because its listed Message-ID is known is in the archive. */
  lemma KnownIsKept(seen: Seen, files: Files, rows: seq<Row>, r: Row)
    requires Agree(seen, files) && Consistent(rows) && r in rows && Known(seen, r.listed)
    ensures Kept(files, r)
  {
    if r.parsed.Some? {
      assert files[seen[r.listed]].messageId == r.listed;
    }
  }

  lemma BatchWork(files0: Files, p0: nat, rows: seq<Row>, w: Work)
    requires WorkOk(files0, p0, rows, w) && Sorted(rows) && Consistent(rows)
    requires w.todo == [] && w.mark == w.progress && w.queue != []
    ensures WorkOk(files0, p0, rows, Advance(w))
  {
    var n := BatchSize(w.queue);
    var batch, t := w.queue[..n], Advance(w);
    UnknownIs(batch, w.seen);
    AfterIsIn(rows, w.mark);
    AfterLast(rows, w.mark, n);
    SortedSplit(w.queue, n);
    assert t.mark == w.queue[n - 1].id && w.queue[n - 1] in w.queue;
    hide DiskOk, Agree, RowsAfter, Unknown, KeptUpTo;
    BatchKept(p0, rows, w, batch, t.mark, t.todo);
  }

  /** The rows of a batch that are not to be persisted are known, and so kept. */
  lemma BatchKept(p0: nat, rows: seq<Row>, w: Work, batch: seq<Row>, mark: nat, todo: seq<Row>)
    requires KeptUpTo(rows, w.files, p0, w.mark, []) && Agree(w.seen, w.files) && Consistent(rows)
    requires forall r | r in rows && w.mark < r.id <= mark && r !in todo :: r in batch && Known(w.seen, r.listed)
    ensures KeptUpTo(rows, w.files, p0, mark, todo)
  {
    hide Agree, Kept, Consistent, Known;
    forall r | r in rows && p0 < r.id <= mark && r !in todo ensures Kept(w.files, r) {
      if w.mark < r.id {
        KnownIsKept(w.seen, w.files, rows, r);
      }
    }
  }

  lemma SortedSplit(queue: seq<Row>, n: nat)
    requires Sorted(queue) && 0 < n <= |queue|
    ensures forall r | r in queue && r.id <= queue[n - 1].id :: r in queue[..n]
    ensures forall r | r in queue[..n] :: r in queue
  {
    forall r | r in queue && r.id <= queue[n - 1].id ensures r in queue[..n] {
      var i :| 0 <= i < |queue| && queue[i] == r;
      assert i < n;
      assert queue[..n][i] == r;
    }
  }

  lemma AdvanceOk(files0: Files, p0: nat, rows: seq<Row>, w: Work)
    requires WorkOk(files0, p0, rows, w) && Sorted(rows) && Consistent(rows) && Roomy(files0, rows)
    ensures WorkOk(files0, p0, rows, Advance(w))
  {
    if w.todo != [] {
      PersistWork(files0, p0, rows, w);
    } else if w.mark != w.progress {
      hide DiskOk, Agree, Kept;
    } else if w.queue != [] {
      BatchWork(files0, p0, rows, w);
    }
  }

  lemma {:induction false} IterateOk(files0: Files, p0: nat, rows: seq<Row>, w: Work, n: nat)
    requires WorkOk(files0, p0, rows, w) && Sorted(rows) && Consistent(rows) && Roomy(files0, rows)
    ensures WorkOk(files0, p0, rows, Iterate(w, n))
  {
    hide WorkOk, Advance, Sorted, Consistent, Roomy;
    if n > 0 {
      IterateOk(files0, p0, rows, w, n - 1);
      AdvanceOk(files0, p0, rows, Iterate(w, n - 1));
    }
  }

  // ----- crashes and new attempts --------------------------------------------------------------------

  /** The scan at the start finds every Message-ID, in whatever order it meets the files. */
  lemma {:induction false} PrescanFinds(files: Files, order: seq<Path>)
    ensures Holding(files, Prescan(files, order)) && Covering(files, order, Prescan(files, order))
  {
    if order != [] {
      var front, last := order[..|order| - 1], order[|order| - 1];
      PrescanFinds(files, front);
      var before, seen := Prescan(files, front), Prescan(files, order);
      assert seen == before || (last in files && files[last].messageId != ""
          && seen == before[files[last].messageId := last]);
      assert last in files && files[last].messageId != "" ==> files[last].messageId in seen;
      hide Prescan;
      assert order == front + [last];
    }
  }

  ghost predicate Holding(files: Files, seen: Seen) {
    forall id | id in seen :: id != "" && seen[id] in files && files[seen[id]].messageId == id
  }

  ghost predicate Covering(files: Files, order: seq<Path>, seen: Seen) {
    forall p | p in order && p in files && files[p].messageId != "" :: files[p].messageId in seen
  }

  predicate Lists(order: seq<Path>, files: Files) {
    forall p | p in files :: p in order
  }

  lemma BeginOk(files0: Files, p0: nat, rows: seq<Row>, files: Files, progress: nat, order: seq<Path>)
    requires DiskOk(files0, p0, rows, files) && KeptUpTo(rows, files, p0, progress, []) && p0 <= progress
             && Lists(order, files)
    ensures WorkOk(files0, p0, rows, Begin(files, progress, rows, order))
  {
    PrescanFinds(files, order);
    assert Agree(Prescan(files, order), files);
    hide DiskOk, KeptUpTo, Prescan, Agree;
  }

  /** The attempts of a run: each scan meets every file there is at that time. */
  ghost predicate Scans(files0: Files, p0: nat, rows: seq<Row>, attempts: seq<Attempt>) {
    forall i | 0 <= i < |attempts| :: Lists(attempts[i].order, Crashed(files0, p0, rows, attempts[..i]).0)
  }

  lemma {:induction false} CrashedOk(files0: Files, p0: nat, rows: seq<Row>, attempts: seq<Attempt>)
    requires Unique(files0) && Sorted(rows) && Consistent(rows) && Roomy(files0, rows)
             && Scans(files0, p0, rows, attempts)
    ensures var (f, p) := Crashed(files0, p0, rows, attempts);
            DiskOk(files0, p0, rows, f) && KeptUpTo(rows, f, p0, p, []) && p0 <= p
  {
    if attempts == [] {
      StartOk(files0, p0, rows);
    } else {
      var front, a := attempts[..|attempts| - 1], attempts[|attempts| - 1];
      ScansFront(files0, p0, rows, attempts);
      hide Unique, Sorted, Consistent, Roomy, DiskOk, KeptUpTo, Scans, Lists, Begin, Iterate;
      CrashedOk(files0, p0, rows, front);
      var (f, p) := Crashed(files0, p0, rows, front);
      BeginOk(files0, p0, rows, f, p, a.order);
      IterateOk(files0, p0, rows, Begin(f, p, rows, a.order), a.length);
    }
  }

  lemma StartOk(files0: Files, p0: nat, rows: seq<Row>)
    requires Unique(files0) && Roomy(files0, rows)
    ensures DiskOk(files0, p0, rows, files0) && KeptUpTo(rows, files0, p0, p0, [])
  {
    forall p | p in files0 && files0[p].messageId != "" ensures Wanted(files0, p0, rows, files0[p].messageId) {
      assert HasId(files0, files0[p].messageId);
    }
    hide Unique;
  }

  lemma ScansFront(files0: Files, p0: nat, rows: seq<Row>, attempts: seq<Attempt>)
    requires attempts != [] && Scans(files0, p0, rows, attempts)
    ensures Scans(files0, p0, rows, attempts[..|attempts| - 1])
    ensures Lists(attempts[|attempts| - 1].order, Crashed(files0, p0, rows, attempts[..|attempts| - 1]).0)
  {
    hide Crashed, Lists;
    var front := attempts[..|attempts| - 1];
    forall i | 0 <= i < |front| ensures Lists(front[i].order, Crashed(files0, p0, rows, front[..i]).0) {
      assert front[..i] == attempts[..i];
    }
  }

  /** Crashed and resumed any number of times, a rebuild that completes leaves exactly the wanted Message-IDs,
      each in one file, and every file that was there before as it was. */
  lemma RebuildIsExact(files0: Files, p0: nat, rows: seq<Row>, attempts: seq<Attempt>, last: Attempt)
    requires Unique(files0) && Sorted(rows) && Consistent(rows) && Roomy(files0, rows)
    requires Scans(files0, p0, rows, attempts + [last])
    requires var (f, p) := Crashed(files0, p0, rows, attempts);
             Complete(Iterate(Begin(f, p, rows, last.order), last.length))
    ensures var end := Crashed(files0, p0, rows, attempts + [last]).0;
            && Unique(end)
            && (forall id | id != "" :: HasId(end, id) <==> Wanted(files0, p0, rows, id))
            && (forall p | p in files0 :: p in end && end[p] == files0[p])
  {
    var all := attempts + [last];
    assert all[..|all| - 1] == attempts;
    ScansFront(files0, p0, rows, all);
    hide Unique, Sorted, Consistent, Roomy, Scans, Lists, Begin, Iterate;
    CrashedOk(files0, p0, rows, attempts);
    var (f, p) := Crashed(files0, p0, rows, attempts);
    BeginOk(files0, p0, rows, f, p, last.order);
    var w := Iterate(Begin(f, p, rows, last.order), last.length);
    IterateOk(files0, p0, rows, Begin(f, p, rows, last.order), last.length);
    assert Crashed(files0, p0, rows, all).0 == w.files;
    hide Crashed;
    CompleteIsExact(files0, p0, rows, w);
  }

  lemma CompleteIsExact(files0: Files, p0: nat, rows: seq<Row>, w: Work)
    requires WorkOk(files0, p0, rows, w) && Complete(w) && Sorted(rows)
    ensures Unique(w.files)
    ensures forall id | id != "" :: HasId(w.files, id) <==> Wanted(files0, p0, rows, id)
    ensures forall p | p in files0 :: p in w.files && w.files[p] == files0[p]
  {
    AfterIsIn(rows, w.mark);
    hide Unique, Agree, Sorted;
    forall id | id != "" ensures HasId(w.files, id) <==> Wanted(files0, p0, rows, id) {
      if HasId(files0, id) {
        var p :| p in files0 && files0[p].messageId == id;
        assert w.files[p].messageId == id;
      } else if Wanted(files0, p0, rows, id) {
        var r :| r in rows && FromRow(r, p0, id);
        assert Kept(w.files, r);
      }
    }
  }

  // ----- the assumptions are needed ----------------------------------------------------------------------

  /** A write keeps every stored file if and only if the message is known, or a name is free, or the third name
      already holds this very message. */
  lemma ThirdNameOverwrites(files: Files, seen: Seen, m: Message)
    ensures (forall p | p in files ::
            p in PersistSeen(files, seen, m).0 && PersistSeen(files, seen, m).0[p] == files[p])
            <==> Known(seen, m.messageId) || HasRoom(files, m) || files[m.third] == Stored(m.account, m.messageId)
  {
    var after := PersistSeen(files, seen, m).0;
    if !Known(seen, m.messageId) && !HasRoom(files, m) {
      assert after[m.third] == Stored(m.account, m.messageId);
    }
  }

  /** A message that was persisted is written once more, under its next name, if and only if it has no Message-ID. */
  lemma UnnamedIsWrittenAgain(files: Files, seen: Seen, m: Message)
    ensures var (once, known, _) := PersistSeen(files, seen, m);
            var (twice, _, r) := PersistSeen(once, known, m);
            && (r.created <==> m.messageId == "")
            && (r.created ==> r.path == PickName(once, m) && twice == once[r.path := Stored(m.account, "")])
            && (!r.created ==> twice == once)
  {
    var (once, known, _) := PersistSeen(files, seen, m);
    assert m.messageId != "" ==> Known(known, m.messageId);
    hide PickName, Find;
  }

  /** However two rebuilds of the same rows were interrupted, once complete they hold the same Message-IDs. */
  lemma InterruptionsDoNotMatter(files0: Files, p0: nat, rows: seq<Row>, a: seq<Attempt>, lastA: Attempt,
                                 b: seq<Attempt>, lastB: Attempt)
    requires Unique(files0) && Sorted(rows) && Consistent(rows) && Roomy(files0, rows)
    requires Scans(files0, p0, rows, a + [lastA]) && Scans(files0, p0, rows, b + [lastB])
    requires var (f, p) := Crashed(files0, p0, rows, a); Complete(Iterate(Begin(f, p, rows, lastA.order), lastA.length))
    requires var (f, p) := Crashed(files0, p0, rows, b); Complete(Iterate(Begin(f, p, rows, lastB.order), lastB.length))
    ensures forall id | id != "" :: HasId(Crashed(files0, p0, rows, a + [lastA]).0, id) <==>
            HasId(Crashed(files0, p0, rows, b + [lastB]).0, id)
  {
    RebuildIsExact(files0, p0, rows, a, lastA);
    RebuildIsExact(files0, p0, rows, b, lastB);
    hide *;
  }

  /** If the index lists another Message-ID than the message holds, a rebuild can pass a message over: the last row
      is kept if and only if its listed Message-ID is not known yet, whatever its own. A crash can make it known. */
  lemma WrongListingSkips(w: Work, r: Row)
    requires Agree(w.seen, w.files) && w.todo == [] && w.queue == [r] && w.mark == w.progress < r.id
    requires r.parsed.Some? && r.parsed.value.messageId != "" && !HasId(w.files, r.parsed.value.messageId)
    ensures var end := Iterate(w, if Known(w.seen, r.listed) then 2 else 3);
            Complete(end) && (HasId(end.files, r.parsed.value.messageId) <==> !Known(w.seen, r.listed))
  {
    var m := r.parsed.value;
    var w1 := Advance(w);
    assert [r][..1] == [r] && [r][1..] == [] && [r][..0] == [];
    assert Unknown([r], w.seen) == if Known(w.seen, r.listed) then [] else [r];
    assert w1 == w.(todo := if Known(w.seen, r.listed) then [] else [r], queue := [], mark := r.id);
    assert Iterate(w, 1) == w1;
    if Known(w.seen, r.listed) {
      assert Iterate(w, 2) == w1.(progress := r.id);
    } else {
      var w2 := Advance(w1);
      assert !Known(w.seen, m.messageId);
      assert w2.files[PickName(w.files, m)].messageId == m.messageId;
      assert Iterate(w, 2) == w2 && w2.todo == [];
      assert Iterate(w, 3) == w2.(progress := r.id);
    }
  }

  // ----- the scan at the start ------------------------------------------------------------------

  /** Where a Message-ID is met first. */
  predicate FirstAt(files: Files, order: seq<Path>, id: string, i: nat) {
    && i < |order| && order[i] in files && files[order[i]].messageId == id
    && forall j | 0 <= j < i :: !(order[j] in files && files[order[j]].messageId == id)
  }

  /** The scan knows the Message-IDs that it meets, and the file where it meets each first. */
  lemma {:induction false} PrescanIsFirst(files: Files, order: seq<Path>, id: string)
    requires id != ""
    ensures id !in Prescan(files, order) ==> forall p | p in order && p in files :: files[p].messageId != id
    ensures id in Prescan(files, order) ==> exists i: nat ::
            FirstAt(files, order, id, i) && Prescan(files, order)[id] == order[i]
  {
    if order != [] {
      var front, p := order[..|order| - 1], order[|order| - 1];
      PrescanIsFirst(files, front, id);
      assert order == front + [p];
      if id in Prescan(files, front) {
        var i: nat :| FirstAt(files, front, id, i) && Prescan(files, front)[id] == front[i];
        assert FirstAt(files, order, id, i) && order[i] == front[i];
      } else if id in Prescan(files, order) {
        assert forall j | 0 <= j < |front| :: order[j] in front;
        assert FirstAt(files, order, id, |front|);
      }
    }
  }
}
