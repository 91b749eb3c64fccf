/** The archive rebuild: rows in batches, a map of what is on disk, and a checkpoint after each batch. */
module BackfillSpec {
  import opened Wrappers

  type Path = string

  const BATCH_ROWS: nat := 2000

  /** A message file: the account it is filed under and its Message-ID, which may be empty. */
  datatype Stored = Stored(account: string, messageId: string)

  type Files = map<Path, Stored>
  type Seen = map<string, Path>

  /** A parsed message: where it goes, the three file names it may get, and the Message-ID of its parent, if any. */
  datatype Message = Message(account: string, messageId: string, first: Path, second: Path, third: Path, parent: string)

  /** One index row; `listed` is the Message-ID that the index gives for it. */
  datatype Row = Row(id: nat, listed: string, parsed: Option<Message>)

  /** What persisting one message yields: its file, whether that is new, and the file of its parent. */
  datatype Outcome = Outcome(path: Path, created: bool, parent: Option<Path>)

  // ----- writing one message -------------------------------------------------------------

  /** The first free name; the third is taken even when it is not free. */
  function PickName(files: Files, m: Message): Path {
    if m.first !in files then m.first else if m.second !in files then m.second else m.third
  }

  /** Files of one account that hold a Message-ID. */
  ghost predicate Holds(files: Files, account: string, messageId: string, p: Path) {
    p in files && files[p].account == account && files[p].messageId == messageId
  }

  predicate Known(seen: Seen, messageId: string) {
    messageId != "" && messageId in seen
  }

  function Find(seen: Seen, messageId: string): Option<Path> {
    if Known(seen, messageId) then Some(seen[messageId]) else None
  }

  /** `_persist_msg` with the in-memory map. */
  function PersistSeen(files: Files, seen: Seen, m: Message): (Files, Seen, Outcome) {
    if Known(seen, m.messageId) then (files, seen, Outcome(seen[m.messageId], false, Find(seen, m.parent)))
    else
      var path := PickName(files, m);
      var more := if m.messageId != "" then seen[m.messageId := path] else seen;
      (files[path := Stored(m.account, m.messageId)], more, Outcome(path, true, Find(more, m.parent)))
  }

  /** `_persist_msg` as the live driver runs it: every look-up scans the account. */
  ghost predicate PersistScan(files: Files, m: Message, after: Files, r: Outcome) {
    FiledByScan(files, m, after, r) && ParentByScan(after, m, r.parent)
  }

  /** The message itself: found in its account, or written under a name of its own. */
  ghost predicate FiledByScan(files: Files, m: Message, after: Files, r: Outcome) {
    if exists p :: m.messageId != "" && Holds(files, m.account, m.messageId, p)
    then after == files && !r.created && Holds(files, m.account, m.messageId, r.path)
    else r.created && r.path == PickName(files, m) && after == files[r.path := Stored(m.account, m.messageId)]
  }

  /** Its parent: a file of the same account, or none when there is none. */
  ghost predicate ParentByScan(files: Files, m: Message, parent: Option<Path>) {
    match parent
    case Some(p) => m.parent != "" && Holds(files, m.account, m.parent, p)
    case None => m.parent == "" || forall p :: !Holds(files, m.account, m.parent, p)
  }

  // ----- a run -----------------------------------------------------------------------------

  /** The scan at the start: the first file that is met for a Message-ID wins. */
  function Prescan(files: Files, order: seq<Path>): Seen {
    if order == [] then map[] else
      var seen := Prescan(files, order[..|order| - 1]);
      var p := order[|order| - 1];
      if p in files && files[p].messageId != "" && files[p].messageId !in seen then seen[files[p].messageId := p]
          else seen
  }

  function RowsAfter(rows: seq<Row>, bound: nat): seq<Row> {
    if rows == [] then [] else (if rows[0].id > bound then [rows[0]] else []) + RowsAfter(rows[1..], bound)
  }

  /** The rows of a batch whose listed Message-ID is not known when the batch begins. */
  function Unknown(batch: seq<Row>, seen: Seen): seq<Row> {
    if batch == [] then [] else
      Unknown(batch[..|batch| - 1], seen) + if Known(seen, batch[|batch| - 1].listed) then [] else [batch[|batch| - 1]]
  }

  /** A process at work: rows not yet in a batch, rows of the batch still to persist, and the rowid to save after it. */
  datatype Work = Work(files: Files, progress: nat, seen: Seen, queue: seq<Row>, todo: seq<Row>, mark: nat)

  function Begin(files: Files, progress: nat, rows: seq<Row>, order: seq<Path>): Work {
    Work(files, progress, Prescan(files, order), RowsAfter(rows, progress), [], progress)
  }

  predicate Complete(w: Work) {
    w.todo == [] && w.mark == w.progress && w.queue == []
  }

  function BatchSize(queue: seq<Row>): nat {
    if |queue| < BATCH_ROWS then |queue| else BATCH_ROWS
  }

  /** The next thing the process does: persist a row, save the checkpoint, or take up a batch. */
  function Advance(w: Work): Work {
    if w.todo != [] then
      var row := w.todo[0];
      if row.parsed.None? then w.(todo := w.todo[1..]) else
        var (files, seen, _) := PersistSeen(w.files, w.seen, row.parsed.value);
        w.(files := files, seen := seen, todo := w.todo[1..])
    else if w.mark != w.progress then w.(progress := w.mark)
    else if w.queue != [] then
      var n := BatchSize(w.queue);
      w.(todo := Unknown(w.queue[..n], w.seen), queue := w.queue[n..], mark := w.queue[n - 1].id)
    else w
  }

  /** What the process has done after n such things. */
  function Iterate(w: Work, n: nat): Work {
    if n == 0 then w else Advance(Iterate(w, n - 1))
  }

  /** One attempt: the order in which the scan meets the files, and how much is done before a crash. */
  datatype Attempt = Attempt(order: seq<Path>, length: nat)

  /** What a series of crashed attempts leaves on the disk. */
  function Crashed(files: Files, progress: nat, rows: seq<Row>, attempts: seq<Attempt>): (Files, nat) {
    if attempts == [] then (files, progress) else
      var (f, p) := Crashed(files, progress, rows, attempts[..|attempts| - 1]);
      var a := attempts[|attempts| - 1];
      var w := Iterate(Begin(f, p, rows, a.order), a.length);
      (w.files, w.progress)
  }
}
