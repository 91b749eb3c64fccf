/** The rebuild as it runs: nested loops over batches and rows that change the archive, the map and the checkpoint. */
module BackfillModel {
  import opened Wrappers
  import opened BackfillSpec
  import opened Seqs

  class Rebuild {
    var files: Files
    var progress: nat
    var seen: Seen

    constructor (files: Files, progress: nat)
      ensures this.files == files && this.progress == progress && seen == map[]
    {
      this.files, this.progress, this.seen := files, progress, map[];
    }

    ghost function View(queue: seq<Row>, todo: seq<Row>, mark: nat): Work
      reads this
    {
      Work(files, progress, seen, queue, todo, mark)
    }

    /** Reads the first line of every file, in the order the directory yields them. */
    method PrescanSeen(order: seq<Path>)
      modifies this`seen
      ensures seen == Prescan(files, order)
    {
      seen := map[];
      for i := 0 to |order|
        invariant seen == Prescan(files, order[..i])
      {
        Front(order, i);
        var p := order[i];
        if p in files && files[p].messageId != "" && files[p].messageId !in seen {
          seen := seen[files[p].messageId := p];
        }
      }
      Whole(order);
    }

    method Persist(m: Message) returns (r: Outcome)
      modifies this`files, this`seen
      ensures (files, seen, r) == PersistSeen(old(files), old(seen), m)
    {
      if Known(seen, m.messageId) {
        return Outcome(seen[m.messageId], false, Find(seen, m.parent));
      }
      var path := m.first;
      if path in files {
        path := m.second;
        if path in files {
          path := m.third;
        }
      }
      files := files[path := Stored(m.account, m.messageId)];
      if m.messageId != "" {
        seen := seen[m.messageId := path];
      }
      r := Outcome(path, true, Find(seen, m.parent));
    }

    /** The rows of a batch that are worth parsing. */
    method Select(batch: seq<Row>) returns (todo: seq<Row>)
      ensures todo == Unknown(batch, seen)
    {
      todo := [];
      for i := 0 to |batch|
        invariant todo == Unknown(batch[..i], seen)
      {
        UnknownSnoc(batch, i, seen);
        hide Unknown;
        if !Known(seen, batch[i].listed) {
          todo := todo + [batch[i]];
        }
      }
      Whole(batch);
    }

    /** Persists the rows of a batch in order; `steps` counts what was done. */
    method PersistAll(todo: seq<Row>, ghost queue: seq<Row>, ghost mark: nat) returns (ghost steps: nat)
      modifies this`files, this`seen
      ensures View(queue, [], mark) == Iterate(old(View(queue, todo, mark)), steps)
    {
      steps := 0;
      for i := 0 to |todo|
        invariant View(queue, todo[i..], mark) == Iterate(old(View(queue, todo, mark)), steps)
      {
        hide Iterate, PersistSeen;
        assert todo[i..][1..] == todo[i + 1..];
        if todo[i].parsed.Some? {
          var r := Persist(todo[i].parsed.value);
        }
        steps := steps + 1;
        MoreSteps(old(View(queue, todo, mark)), steps);
      }
      assert todo[|todo|..] == [];
    }

    /** An attempt that is not interrupted completes. `rows` are all rows of the index, in order of their rowids. */
    method Run(rows: seq<Row>, order: seq<Path>) returns (ghost steps: nat)
      requires forall i, j | 0 <= i < j < |rows| :: rows[i].id < rows[j].id
      modifies this
      ensures var end := Iterate(Begin(old(files), old(progress), rows, order), steps);
              Complete(end) && end.files == files && end.progress == progress && end.seen == seen
    {
      PrescanSeen(order);
      var queue := RowsAfter(rows, progress);
      ghost var start := View(queue, [], progress);
      steps := 0;
      hide RowsAfter, Prescan, Advance;
      while queue != []
        invariant View(queue, [], progress) == Iterate(start, steps)
        decreases |queue|
      {
        steps := RunBatch(queue, start, steps);
        queue := queue[BatchSize(queue)..];
      }
    }

    /** One batch: select, persist, save the checkpoint. */
    method RunBatch(queue: seq<Row>, ghost start: Work, ghost done: nat) returns (ghost steps: nat)
      requires queue != [] && View(queue, [], progress) == Iterate(start, done)
      modifies this
      ensures View(queue[BatchSize(queue)..], [], progress) == Iterate(start, steps)
    {
      hide Iterate, Advance, Unknown, BatchSize;
      ghost var w := View(queue, [], progress);
      BatchStep(w);
      var n := BatchSize(queue);
      var todo := Select(queue[..n]);
      steps := PersistAll(todo, queue[n..], queue[n - 1].id);
      Joined(start, done, w, steps, View(queue[n..], [], queue[n - 1].id));
      steps := done + 1 + steps;
      if progress != queue[n - 1].id {
        ghost var before := View(queue[n..], [], queue[n - 1].id);
        progress := queue[n - 1].id;
        SaveStep(before);
        MoreSteps(start, steps + 1);
        steps := steps + 1;
      }
    }
  }

  lemma BatchStep(w: Work)
    requires w.todo == [] && w.mark == w.progress && w.queue != []
    ensures var n := BatchSize(w.queue);
            && 0 < n <= |w.queue|
            && Advance(w) == w.(todo := Unknown(w.queue[..n], w.seen), queue := w.queue[n..], mark := w.queue[n - 1].id)
  {
    hide Unknown;
  }

  lemma Joined(start: Work, done: nat, w: Work, more: nat, end: Work)
    requires w == Iterate(start, done) && end == Iterate(Advance(w), more)
    ensures end == Iterate(start, done + 1 + more)
  {
    MoreSteps(start, done + 1);
    hide Advance, Iterate;
    Together(start, done + 1, more);
  }

  lemma UnknownSnoc(batch: seq<Row>, i: nat, seen: Seen)
    requires i < |batch|
    ensures Unknown(batch[..i + 1], seen) == Unknown(batch[..i], seen) + if Known(seen, batch[i].listed) then []
            else [batch[i]]
  {
    Front(batch, i);
  }

  lemma MoreSteps(w: Work, n: nat)
    requires n > 0
    ensures Iterate(w, n) == Advance(Iterate(w, n - 1))
  {
  }

  lemma SaveStep(w: Work)
    requires w.todo == [] && w.mark != w.progress
    ensures Advance(w) == w.(progress := w.mark)
  {
  }

  lemma {:induction false} Together(w: Work, a: nat, b: nat)
    ensures Iterate(w, a + b) == Iterate(Iterate(w, a), b)
  {
    hide Advance;
    if b > 0 {
      Together(w, a, b - 1);
    }
  }
}
