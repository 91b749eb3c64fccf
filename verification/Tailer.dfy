/** The cursor-based tailer of lib/tailer: a byte cursor per file, one callback per complete line. */
module TailerModel {
  import opened Wrappers
  import opened Lines
  import opened Seqs
  import Utf8

  type Path = string
  type Bytes = seq<Utf8.byte>
  type Key = (Path, string)

  /** How one call of `on_line` ended, and the one-shot suppressions it registered. */
  datatype Reaction = Reaction(ok: bool, registered: set<Key>)

  /** The callback together with everything it depends on: call number and line decide how it ends. */
  type OnLine = (nat, string) -> Reaction

  /** What became of one line of a chunk. */
  datatype Turn = Suppressed(line: string) | Called(line: string, ok: bool)

  /** One pass over the lines of a chunk; `ok` is false once a callback has raised. */
  datatype Pass = Pass(turns: seq<Turn>, suppress: set<Key>, ok: bool)

  datatype Cursors = Cursors(offsets: map<Path, nat>, saved: map<Path, nat>, suppress: set<Key>)

  /** The lines a reader gets from a run of bytes. */
  function LinesOf(bytes: Bytes): seq<string> {
    NonEmpty(SplitLines(Utf8.Decode(bytes)))
  }

  /** Length of the part that ends with the last newline. */
  function CompleteLength(bytes: Bytes): (n: nat)
    ensures n <= |bytes| && Utf8.WholeLines(bytes[..n])
    ensures forall i | n <= i < |bytes| :: bytes[i] != Utf8.NEWLINE
  {
    if bytes == [] || bytes[|bytes| - 1] == Utf8.NEWLINE then |bytes| else
      var n := CompleteLength(bytes[..|bytes| - 1]);
      assert bytes[..|bytes| - 1][..n] == bytes[..n];
      n
  }

  function CallCount(turns: seq<Turn>): nat {
    if turns == [] then 0 else CallCount(turns[..|turns| - 1]) + if turns[|turns| - 1].Called? then 1 else 0
  }

  function OneLine(rel: Path, p: Pass, line: string, onLine: OnLine): Pass {
    if line == "" then p
    else if (rel, line) in p.suppress then
        p.(turns := p.turns + [Suppressed(line)], suppress := p.suppress - {(rel, line)})
    else
      var r := onLine(CallCount(p.turns), line);
      Pass(p.turns + [Called(line, r.ok)], p.suppress + r.registered, r.ok)
  }

  function RunLines(rel: Path, lines: seq<string>, suppress: set<Key>, onLine: OnLine): Pass {
    if lines == [] then Pass([], suppress, true) else
      var p := RunLines(rel, lines[..|lines| - 1], suppress, onLine);
      if p.ok then OneLine(rel, p, lines[|lines| - 1], onLine) else p
  }

  function CursorOf(c: Cursors, rel: Path): nat {
    if rel in c.offsets then c.offsets[rel] else 0
  }

  function MoveTo(c: Cursors, rel: Path, offset: nat): Cursors {
    Cursors(c.offsets[rel := offset], c.offsets[rel := offset], c.suppress)
  }

  /** One drain of a file whose present contents are `file`. */
  function Drain(c: Cursors, rel: Path, file: Bytes, onLine: OnLine): (Cursors, seq<Turn>) {
    var cursor := CursorOf(c, rel);
    if |file| < cursor then (MoveTo(c, rel, |file|), []) else
      var n := CompleteLength(file[cursor..]);
      if n == 0 then (c, []) else
        var p := RunLines(rel, SplitLines(Utf8.Decode(file[cursor..cursor + n])), c.suppress, onLine);
        var c' := c.(suppress := p.suppress);
        (if p.ok then MoveTo(c', rel, cursor + n) else c', p.turns)
  }

  /** Seeds a cursor at the end of every found file that has none yet. */
  function Seed(offsets: map<Path, nat>, found: seq<(Path, nat)>): map<Path, nat> {
    if found == [] then offsets else
      var o := Seed(offsets, found[..|found| - 1]);
      var (rel, size) := found[|found| - 1];
      if rel in o then o else o[rel := size]
  }

  // ----- the object the drivers hold -------------------------------------

  class Tailer {
    var cursors: map<Path, nat>
    var saved: map<Path, nat>
    var suppress: set<Key>

    ghost function State(): Cursors
      reads this
    {
      Cursors(cursors, saved, suppress)
    }

    constructor (onDisk: map<Path, nat>)
      ensures State() == Cursors(onDisk, onDisk, {})
    {
      cursors, saved, suppress := onDisk, onDisk, {};
    }

    method SaveCursors()
      modifies this`saved
      ensures State() == old(State()).(saved := cursors)
    {
      saved := cursors;
    }

    method SuppressNext(rel: Path, line: string)
      modifies this`suppress
      ensures State() == old(State()).(suppress := old(suppress) + {(rel, line)})
    {
      suppress := suppress + {(rel, line)};
    }

    method InitialScan(found: seq<(Path, nat)>)
      modifies this
      ensures State() == Cursors(Seed(old(cursors), found), Seed(old(cursors), found), old(suppress))
    {
      for i := 0 to |found|
        invariant cursors == Seed(old(cursors), found[..i])
        invariant suppress == old(suppress)
      {
        var (rel, size) := found[i];
        assert found[..i + 1][..i] == found[..i];
        if rel !in cursors {
          cursors := cursors[rel := size];
        }
      }
      assert found[..|found|] == found;
      SaveCursors();
    }

    /** `file` is None when the path is not a file; `turns` records what became of each line. */
    method DrainFile(rel: Path, file: Option<Bytes>, owned: bool, onLine: OnLine) returns (turns: seq<Turn>)
      modifies this
      ensures file.None? || !owned ==> State() == old(State()) && turns == []
      ensures file.Some? && owned ==> (State(), turns) == Drain(old(State()), rel, file.value, onLine)
    {
      hide RunLines, SplitLines, Utf8.Decode, CompleteLength;
      turns := [];
      if file.None? || !owned {
        return;
      }
      var cursor := if rel in cursors then cursors[rel] else 0;
      var size := |file.value|;
      if size < cursor {
        cursors := cursors[rel := size];
        SaveCursors();
        return;
      }
      var chunk := file.value[cursor..];
      var advance := CompleteLength(chunk);
      if advance == 0 {
        return;
      }
      assert chunk[..advance] == file.value[cursor..cursor + advance];
      var lines := SplitLines(Utf8.Decode(chunk[..advance]));
      NoLines(rel, old(suppress), onLine);
      for i := 0 to |lines|
        invariant cursors == old(cursors) && saved == old(saved)
        invariant RunLines(rel, lines[..i], old(suppress), onLine) == Pass(turns, suppress, true)
      {
        var line := lines[i];
        OneMoreLine(rel, lines, i, old(suppress), onLine);
        if line == "" {
          continue;
        }
        if (rel, line) in suppress {
          suppress := suppress - {(rel, line)};
          turns := turns + [Suppressed(line)];
          continue;
        }
        var r := onLine(CallCount(turns), line);
        turns := turns + [Called(line, r.ok)];
        suppress := suppress + r.registered;
        if !r.ok {
          StopsAtFailure(rel, lines, i + 1, old(suppress), onLine);
          return;
        }
      }
      Whole(lines);
      cursors := cursors[rel := cursor + advance];
      SaveCursors();
    }
  }

  lemma NoLines(rel: Path, suppress: set<Key>, onLine: OnLine)
    ensures RunLines(rel, [], suppress, onLine) == Pass([], suppress, true)
  {
  }

  lemma OneMoreLine(rel: Path, lines: seq<string>, i: nat, suppress: set<Key>, onLine: OnLine)
    requires i < |lines|
    ensures var p := RunLines(rel, lines[..i], suppress, onLine);
            RunLines(rel, lines[..i + 1], suppress, onLine) == if p.ok then OneLine(rel, p, lines[i], onLine) else p
  {
    Front(lines, i);
  }

  lemma {:induction false} StopsAtFailure(rel: Path, lines: seq<string>, k: nat, suppress: set<Key>, onLine: OnLine)
    requires k <= |lines| && !RunLines(rel, lines[..k], suppress, onLine).ok
    ensures RunLines(rel, lines, suppress, onLine) == RunLines(rel, lines[..k], suppress, onLine)
  {
    if k == |lines| {
      assert lines[..k] == lines;
    } else {
      assert lines[..|lines| - 1][..k] == lines[..k];
      StopsAtFailure(rel, lines[..|lines| - 1], k, suppress, onLine);
    }
  }

  // ----- what one pass does ----------------------------------------------

  /** The lines whose turn is over: suppressed, or handed to a callback that returned. */
  function Completed(turns: seq<Turn>): seq<string> {
    if turns == [] then [] else
      var t := turns[|turns| - 1];
      Completed(turns[..|turns| - 1]) + if t.Called? && !t.ok then [] else [t.line]
  }

  predicate NoneRaised(turns: seq<Turn>) {
    forall t | t in turns :: t.Called? ==> t.ok
  }

  lemma {:induction false} CompletedAppend(a: seq<Turn>, b: seq<Turn>)
    ensures Completed(a + b) == Completed(a) + Completed(b)
  {
    if b == [] {
      assert a + b == a;
    } else {
      assert (a + b)[..|a + b| - 1] == a + b[..|b| - 1];
      CompletedAppend(a, b[..|b| - 1]);
    }
  }

  lemma CompletedSnoc(turns: seq<Turn>, t: Turn)
    ensures Completed(turns + [t]) == Completed(turns) + if t.Called? && !t.ok then [] else [t.line]
    ensures NoneRaised(turns + [t]) <==> NoneRaised(turns) && (t.Called? ==> t.ok)
  {
    assert (turns + [t])[..|turns|] == turns;
    assert forall u :: u in turns + [t] <==> u in turns || u == t;
  }

  /** A pass that never raises gives every non-empty line exactly one turn, in order; a pass that
      raises has completed only lines before the one it stopped at. */
  lemma {:induction false} PassCompletes(rel: Path, lines: seq<string>, suppress: set<Key>, onLine: OnLine)
    ensures var p := RunLines(rel, lines, suppress, onLine);
            && (p.ok <==> NoneRaised(p.turns))
            && (p.ok ==> Completed(p.turns) == NonEmpty(lines))
            && (!p.ok ==> Completed(p.turns) < NonEmpty(lines))
  {
    if lines != [] {
      var front, last := lines[..|lines| - 1], lines[|lines| - 1];
      PassCompletes(rel, front, suppress, onLine);
      NonEmptyAppend(front, [last]);
      Front(lines, |lines| - 1);
      Whole(lines);
      assert NonEmpty([last]) == if last == "" then [] else [last];
      var q := RunLines(rel, front, suppress, onLine);
      var p := RunLines(rel, lines, suppress, onLine);
      hide RunLines, NonEmpty, Completed, NoneRaised, CallCount;
      if q.ok && last != "" {
        CompletedSnoc(q.turns, p.turns[|q.turns|]);
      }
    }
  }

  function Count(turns: seq<Turn>, t: Turn): nat {
    multiset(turns)[t]
  }

  /** How often the calls of a pass registered `key`. */
  function Registrations(turns: seq<Turn>, onLine: OnLine, key: Key): nat {
    if turns == [] then 0 else
      var front, t := turns[..|turns| - 1], turns[|turns| - 1];
      Registrations(front, onLine, key) +
      if t.Called? && key in onLine(CallCount(front), t.line).registered then 1 else 0
  }

  lemma CountsSnoc(turns: seq<Turn>, t: Turn, u: Turn, onLine: OnLine, key: Key)
    ensures Count(turns + [t], u) == Count(turns, u) + if t == u then 1 else 0
    ensures Registrations(turns + [t], onLine, key) == Registrations(turns, onLine, key) +
            if t.Called? && key in onLine(CallCount(turns), t.line).registered then 1 else 0
  {
    Snoc(turns, [t]);
    Empty(turns);
  }

  /** In one pass a registration, made before or on the way, swallows at most one occurrence of its line. */
  lemma {:induction false} PassIsOneShot(rel: Path, lines: seq<string>, suppress: set<Key>, onLine: OnLine, key: Key)
    ensures var p := RunLines(rel, lines, suppress, onLine);
            (if rel == key.0 then Count(p.turns, Suppressed(key.1)) else 0) + (if key in p.suppress then 1 else 0)
            <= (if key in suppress then 1 else 0) + Registrations(p.turns, onLine, key)
  {
    if lines != [] {
      var q := RunLines(rel, lines[..|lines| - 1], suppress, onLine);
      PassIsOneShot(rel, lines[..|lines| - 1], suppress, onLine, key);
      var p := RunLines(rel, lines, suppress, onLine);
      hide RunLines, Count, Registrations, CallCount;
      if q.ok && lines[|lines| - 1] != "" {
        CountsSnoc(q.turns, p.turns[|q.turns|], Suppressed(key.1), onLine, key);
      }
    }
  }

  // ----- whole runs -------------------------------------------------------

  /** Cutting at a newline commutes with decoding and splitting. */
  lemma LinesOfAppend(a: Bytes, b: Bytes)
    requires Utf8.WholeLines(a)
    ensures LinesOf(a + b) == LinesOf(a) + LinesOf(b)
  {
    Utf8.DecodeAppend(a, b);
    Utf8.DecodedWholeLines(a);
    SplitAppend(Utf8.Decode(a), Utf8.Decode(b));
    NonEmptyAppend(SplitLines(Utf8.Decode(a)), SplitLines(Utf8.Decode(b)));
  }

  /** `xs` occurs inside `ys` in order, not necessarily contiguously. */
  predicate Within(xs: seq<string>, ys: seq<string>) {
    || xs == []
    || (ys != [] && xs[|xs| - 1] == ys[|ys| - 1] && Within(xs[..|xs| - 1], ys[..|ys| - 1]))
    || (ys != [] && Within(xs, ys[..|ys| - 1]))
  }

  lemma {:induction false} WithinGrow(xs: seq<string>, ys: seq<string>, zs: seq<string>)
    requires Within(xs, ys)
    ensures Within(xs, ys + zs) && Within(xs + zs, ys + zs)
  {
    if zs == [] {
      assert ys + zs == ys && xs + zs == xs;
    } else {
      var front := zs[..|zs| - 1];
      WithinGrow(xs, ys, front);
      assert (ys + zs)[..|ys + zs| - 1] == ys + front;
      assert (xs + zs)[..|xs + zs| - 1] == xs + front;
    }
  }

  /** Anything that can happen around a file: mostly it grows, but it may be replaced by another one, such as its own
      edited or rotated remainder. `Restart` reloads the saved cursors. */
  datatype Event =
    | Grow(path: Path, bytes: Bytes)
    | Replace(path: Path, bytes: Bytes)
    | DrainOf(path: Path, onLine: OnLine)
    | Register(key: Key)
    | Restart(found: seq<Path>)

  /** `base` is the offset from which a file is read; `turns` is the history of its lines, and `first` says how many
      turns there were when the file was replaced last. */
  datatype World = World(files: map<Path, Bytes>, c: Cursors, base: map<Path, nat>, turns: map<Path, seq<Turn>>,
                         first: map<Path, nat>)

  function Sizes(files: map<Path, Bytes>, found: seq<Path>): seq<(Path, nat)> {
    if found == [] then [] else
      var front := Sizes(files, found[..|found| - 1]);
      var p := found[|found| - 1];
      if p in files then front + [(p, |files[p]|)] else front
  }

  function TurnsOf(w: World, p: Path): seq<Turn> {
    if p in w.turns then w.turns[p] else []
  }

  function Next(w: World, e: Event): World {
    match e
    case Grow(p, bytes) => w.(files := w.files[p := (if p in w.files then w.files[p] else []) + bytes])
    case Replace(p, bytes) =>
      w.(files := w.files[p := bytes], first := w.first[p := |TurnsOf(w, p)|],
         base := if p in w.c.offsets then w.base[p := w.c.offsets[p]] else w.base)
    case Register(key) => w.(c := w.c.(suppress := w.c.suppress + {key}))
    case Restart(found) =>
      var offsets := Seed(w.c.saved, Sizes(w.files, found));
      w.(c := Cursors(offsets, offsets, {}), base := Seed(w.base, Sizes(w.files, found)))
    case DrainOf(p, onLine) =>
      if p !in w.files then w else
        var (c, turns) := Drain(w.c, p, w.files[p], onLine);
        w.(c := c,
           base := if |w.files[p]| < CursorOf(w.c, p) then w.base[p := |w.files[p]|]
                   else if p in c.offsets && p !in w.base then w.base[p := 0] else w.base,
           turns := w.turns[p := TurnsOf(w, p) + turns])
  }

  function Run(w: World, events: seq<Event>): World {
    if events == [] then w else Next(Run(w, events[..|events| - 1]), events[|events| - 1])
  }

  function BaseOf(w: World, p: Path): nat {
    if p in w.base then w.base[p] else 0
  }

  function FileOf(w: World, p: Path): Bytes {
    if p in w.files then w.files[p] else []
  }

  /** Every line in front of the cursor has completed its turn, in order; and if nothing ever raised,
      nothing else has. */
  ghost predicate Settled(file: Bytes, base: nat, cursor: nat, turns: seq<Turn>) {
    && base <= cursor <= |file|
    && Utf8.WholeLines(file[base..cursor])
    && Within(LinesOf(file[base..cursor]), Completed(turns))
    && (NoneRaised(turns) ==> LinesOf(file[base..cursor]) == Completed(turns))
  }

  /** The turns since the file was replaced last. */
  function Recent(w: World, p: Path): seq<Turn> {
    if FirstOf(w, p) <= |TurnsOf(w, p)| then TurnsOf(w, p)[FirstOf(w, p)..] else []
  }

  function FirstOf(w: World, p: Path): nat {
    if p in w.first then w.first[p] else 0
  }

  /** The file ends before its cursor; only a replacement does that. */
  predicate Short(w: World, p: Path) {
    |FileOf(w, p)| < CursorOf(w.c, p)
  }

  ghost predicate FileOk(w: World, p: Path) {
    && (p in w.c.offsets <==> p in w.base)
    && (p in w.base ==> p in w.files)
    && FirstOf(w, p) <= |TurnsOf(w, p)|
    && (if Short(w, p) then BaseOf(w, p) == CursorOf(w.c, p) && Recent(w, p) == []
        else Settled(FileOf(w, p), BaseOf(w, p), CursorOf(w.c, p), Recent(w, p)))
  }

  ghost predicate Ok(w: World) {
    w.c.saved == w.c.offsets && forall p :: FileOk(w, p)
  }

  lemma NoneRaisedAppend(a: seq<Turn>, b: seq<Turn>)
    ensures NoneRaised(a + b) <==> NoneRaised(a) && NoneRaised(b)
  {
    assert forall t :: t in a + b <==> t in a || t in b;
  }

  /** A chunk all of whose lines completed moves the cursor over it. */
  lemma SettleChunk(file: Bytes, base: nat, cursor: nat, next: nat, turns: seq<Turn>, more: seq<Turn>)
    requires Settled(file, base, cursor, turns) && cursor <= next <= |file|
    requires Utf8.WholeLines(file[cursor..next])
    requires NoneRaised(more) && LinesOf(file[cursor..next]) == Completed(more)
    ensures Settled(file, base, next, turns + more)
  {
    hide LinesOf, Completed, Within, NoneRaised;
    var before, chunk := file[base..cursor], file[cursor..next];
    Cut(file, base, cursor, next);
    LinesOfAppend(before, chunk);
    CompletedAppend(turns, more);
    WithinGrow(LinesOf(before), Completed(turns), Completed(more));
    NoneRaisedAppend(turns, more);
  }

  /** A pass that raised leaves the cursor; its completed calls are merely repeated later. */
  lemma SettleStays(file: Bytes, base: nat, cursor: nat, turns: seq<Turn>, more: seq<Turn>)
    requires Settled(file, base, cursor, turns) && !NoneRaised(more)
    ensures Settled(file, base, cursor, turns + more)
  {
    hide LinesOf, Completed, Within, NoneRaised;
    CompletedAppend(turns, more);
    WithinGrow(LinesOf(file[base..cursor]), Completed(turns), Completed(more));
    NoneRaisedAppend(turns, more);
  }

  lemma NoTurns()
    ensures Completed([]) == [] == LinesOf([])
  {
  }

  /** The turns of one drain, and where it leaves the cursor of its own file. */
  lemma DrainTurns(c: Cursors, p: Path, file: Bytes, onLine: OnLine)
    requires CursorOf(c, p) <= |file|
    ensures var (c', more) := Drain(c, p, file, onLine);
            var cursor := CursorOf(c, p);
            var next := cursor + CompleteLength(file[cursor..]);
            && Utf8.WholeLines(file[cursor..next])
            && (NoneRaised(more) ==> CursorOf(c', p) == next && Completed(more) == LinesOf(file[cursor..next]))
            && (!NoneRaised(more) ==> CursorOf(c', p) == cursor)
  {
    hide RunLines, SplitLines, Utf8.Decode, CompleteLength, Completed;
    var cursor := CursorOf(c, p);
    var n := CompleteLength(file[cursor..]);
    Cut(file, cursor, cursor + n, |file|);
    assert file[cursor..][..n] == file[cursor..cursor + n];
    NoTurns();
    PassCompletes(p, SplitLines(Utf8.Decode(file[cursor..cursor + n])), c.suppress, onLine);
  }

  lemma DrainSettles(c: Cursors, p: Path, file: Bytes, onLine: OnLine, base: nat, turns: seq<Turn>)
    requires Settled(file, base, CursorOf(c, p), turns)
    ensures var (c', more) := Drain(c, p, file, onLine);
            && Settled(file, base, CursorOf(c', p), turns + more)
            && (NoneRaised(more) ==> CompleteLength(file[CursorOf(c', p)..]) == 0)
  {
    hide LinesOf, Completed, Within, NoneRaised, Utf8.WholeLines, Drain;
    var (c', more) := Drain(c, p, file, onLine);
    var cursor := CursorOf(c, p);
    var n := CompleteLength(file[cursor..]);
    DrainTurns(c, p, file, onLine);
    if NoneRaised(more) {
      SettleChunk(file, base, cursor, cursor + n, turns, more);
      CompleteRest(file[cursor..], n);
      assert file[cursor..][n..] == file[cursor + n..];
    } else {
      SettleStays(file, base, cursor, turns, more);
    }
  }

  /** A drain touches the cursor of its own file only, and saves it whenever it moves. */
  lemma DrainFrame(c: Cursors, p: Path, file: Bytes, onLine: OnLine)
    ensures var c' := Drain(c, p, file, onLine).0;
            && (p in c.offsets ==> p in c'.offsets)
            && (c.saved == c.offsets ==> c'.saved == c'.offsets)
            && (forall q | q != p :: (q in c.offsets <==> q in c'.offsets) && CursorOf(c', q) == CursorOf(c, q))
  {
  }

  lemma {:induction false} CompleteRest(bytes: Bytes, n: nat)
    requires n == CompleteLength(bytes)
    ensures CompleteLength(bytes[n..]) == 0
  {
    if n < |bytes| {
      var front := bytes[..|bytes| - 1];
      CompleteRest(front, n);
      assert bytes[n..][..|bytes[n..]| - 1] == front[n..];
    }
  }

  lemma {:induction false} CompleteAppend(a: Bytes, b: Bytes)
    requires Utf8.WholeLines(a) && CompleteLength(b) == 0
    ensures CompleteLength(a + b) == |a|
  {
    if b == [] {
      assert a + b == a;
    } else {
      CompleteAppend(a, b[..|b| - 1]);
      assert (a + b)[..|a + b| - 1] == a + b[..|b| - 1];
    }
  }

  lemma {:induction false} SeedKeeps(offsets: map<Path, nat>, found: seq<(Path, nat)>, p: Path)
    ensures p in offsets ==> p in Seed(offsets, found) && Seed(offsets, found)[p] == offsets[p]
  {
    if found != [] {
      SeedKeeps(offsets, found[..|found| - 1], p);
    }
  }

  /** A newly seeded file starts at its current end, and the cursor and the base agree on that. */
  lemma {:induction false} SeedStarts(offsets: map<Path, nat>, files: map<Path, Bytes>, found: seq<Path>, p: Path)
    requires p !in offsets && p in Seed(offsets, Sizes(files, found))
    ensures p in files && Seed(offsets, Sizes(files, found))[p] == |files[p]|
  {
    var front, last := found[..|found| - 1], found[|found| - 1];
    if last in files {
      assert Sizes(files, found)[..|Sizes(files, front)|] == Sizes(files, front);
      if p in Seed(offsets, Sizes(files, front)) {
        SeedStarts(offsets, files, front, p);
      }
    } else {
      SeedStarts(offsets, files, front, p);
    }
  }

  lemma {:induction false} SeedTogether(a: map<Path, nat>, b: map<Path, nat>, found: seq<(Path, nat)>, p: Path)
    requires p in a <==> p in b
    ensures p in Seed(a, found) <==> p in Seed(b, found)
  {
    if found != [] {
      SeedTogether(a, b, found[..|found| - 1], p);
    }
  }

  /** A file that is read from its cursor on. */
  lemma NothingSettled(file: Bytes, cursor: nat)
    requires cursor <= |file|
    ensures Settled(file, cursor, cursor, [])
  {
    NoTurns();
    assert file[cursor..cursor] == [];
  }

  lemma RecentMore(w: World, p: Path, more: seq<Turn>)
    requires FirstOf(w, p) <= |TurnsOf(w, p)|
    ensures (TurnsOf(w, p) + more)[FirstOf(w, p)..] == Recent(w, p) + more
  {
    Slices(TurnsOf(w, p), more, FirstOf(w, p));
  }

  lemma RestartSettles(w: World, found: seq<Path>, p: Path)
    requires w.c.saved == w.c.offsets && FileOk(w, p)
    ensures FileOk(Next(w, Restart(found)), p)
  {
    var sizes := Sizes(w.files, found);
    SeedKeeps(w.c.saved, sizes, p);
    SeedKeeps(w.base, sizes, p);
    SeedTogether(w.c.saved, w.base, sizes, p);
    if p !in w.base && p in Seed(w.base, sizes) {
      SeedStarts(w.base, w.files, found, p);
      SeedStarts(w.c.saved, w.files, found, p);
      assert w.files[p][|w.files[p]|..] == [];
    }
  }

  /** What a drain changes of a world. */
  lemma AfterDrain(w: World, p: Path, onLine: OnLine, q: Path)
    requires p in w.files && !Short(w, p)
    ensures var t, (c, more) := Next(w, DrainOf(p, onLine)), Drain(w.c, p, w.files[p], onLine);
            && t.files == w.files && t.c == c && FileOf(t, q) == FileOf(w, q) && FirstOf(t, q) == FirstOf(w, q)
            && TurnsOf(t, q) == (if q == p then TurnsOf(w, p) + more else TurnsOf(w, q))
            && BaseOf(t, q) == BaseOf(w, q) && (q in t.base <==> q in w.base || (q == p && p in c.offsets))
  {
    hide Drain;
  }

  lemma OwnDrainKeeps(w: World, p: Path, onLine: OnLine)
    requires FileOk(w, p) && p in w.files && !Short(w, p)
    ensures FileOk(Next(w, DrainOf(p, onLine)), p)
  {
    AfterDrain(w, p, onLine, p);
    DrainFrame(w.c, p, w.files[p], onLine);
    DrainSettles(w.c, p, w.files[p], onLine, BaseOf(w, p), Recent(w, p));
    DrainEnds(w.c, p, w.files[p], onLine, BaseOf(w, p), Recent(w, p));
    RecentMore(w, p, Drain(w.c, p, w.files[p], onLine).1);
    hide Next, Drain, Settled, TurnsOf, FirstOf, BaseOf, NoneRaised;
  }

  lemma DrainEnds(c: Cursors, p: Path, file: Bytes, onLine: OnLine, base: nat, turns: seq<Turn>)
    requires Settled(file, base, CursorOf(c, p), turns)
    ensures CursorOf(Drain(c, p, file, onLine).0, p) <= |file|
  {
    DrainSettles(c, p, file, onLine, base, turns);
    hide Drain, LinesOf, Completed, Within, NoneRaised, Utf8.WholeLines;
  }

  lemma OtherDrainKeeps(w: World, p: Path, onLine: OnLine, q: Path)
    requires FileOk(w, q) && p in w.files && q != p
    ensures FileOk(Next(w, DrainOf(p, onLine)), q)
  {
    DrainFrame(w.c, p, w.files[p], onLine);
    hide Settled, Drain;
  }

  lemma ShortDrainKeeps(w: World, p: Path, onLine: OnLine)
    requires FileOk(w, p) && p in w.files && Short(w, p)
    ensures FileOk(Next(w, DrainOf(p, onLine)), p)
  {
    ShortDrain(w, p, onLine);
    NothingSettled(w.files[p], |w.files[p]|);
    hide Next, Settled;
  }

  lemma DrainKeeps(w: World, p: Path, onLine: OnLine, q: Path)
    requires FileOk(w, q) && p in w.files
    ensures FileOk(Next(w, DrainOf(p, onLine)), q)
  {
    hide *;
    if q != p {
      OtherDrainKeeps(w, p, onLine, q);
    } else if Short(w, p) {
      ShortDrainKeeps(w, p, onLine);
    } else {
      OwnDrainKeeps(w, p, onLine);
    }
  }

  /** A drain that finds the file shorter than its cursor takes no turn and moves to the end of it. */
  lemma ShortDrain(w: World, p: Path, onLine: OnLine)
    requires p in w.files && Short(w, p)
    ensures var t, size := Next(w, DrainOf(p, onLine)), |w.files[p]|;
            && TurnsOf(t, p) == TurnsOf(w, p) && t.files == w.files && t.first == w.first
            && p in t.c.offsets && t.c.offsets[p] == size && p in t.c.saved && t.c.saved[p] == size
            && p in t.base && t.base[p] == size
  {
    Empty(TurnsOf(w, p));
  }

  lemma GrowKeeps(w: World, p: Path, bytes: Bytes, q: Path)
    requires FileOk(w, q)
    ensures FileOk(Next(w, Grow(p, bytes)), q)
  {
    var w' := Next(w, Grow(p, bytes));
    if Short(w, q) {
      if !Short(w', q) {
        NothingSettled(FileOf(w', q), CursorOf(w.c, q));
      }
    } else {
      assert FileOf(w', q)[BaseOf(w, q)..CursorOf(w.c, q)] == FileOf(w, q)[BaseOf(w, q)..CursorOf(w.c, q)];
    }
  }

  lemma ReplaceKeeps(w: World, p: Path, bytes: Bytes, q: Path)
    requires FileOk(w, q)
    ensures FileOk(Next(w, Replace(p, bytes)), q)
  {
    if q != p {
      OtherReplaceKeeps(w, p, bytes, q);
    } else {
      if CursorOf(w.c, p) <= |bytes| {
        NothingSettled(bytes, CursorOf(w.c, p));
      }
      Replaced(w, p, bytes);
      hide Next, Settled;
    }
  }

  lemma OtherReplaceKeeps(w: World, p: Path, bytes: Bytes, q: Path)
    requires FileOk(w, q) && q != p
    ensures FileOk(Next(w, Replace(p, bytes)), q)
  {
    hide Settled;
  }

  /** A file that has been replaced is read from its cursor on. */
  lemma Replaced(w: World, p: Path, bytes: Bytes)
    requires p in w.c.offsets <==> p in w.base
    ensures var t := Next(w, Replace(p, bytes));
            && t.c == w.c && p in t.files && FileOf(t, p) == bytes && (p in t.base <==> p in w.base)
            && TurnsOf(t, p) == TurnsOf(w, p) && FirstOf(t, p) == |TurnsOf(w, p)| && Recent(t, p) == []
            && BaseOf(t, p) == CursorOf(w.c, p)
  {
  }

  lemma NextKeeps(w: World, e: Event)
    requires Ok(w)
    ensures Ok(Next(w, e))
  {
    forall q ensures FileOk(Next(w, e), q) {
      assert FileOk(w, q);
      match e
      case DrainOf(p, onLine) => if p in w.files { DrainKeeps(w, p, onLine, q); }
      case Restart(found) => RestartSettles(w, found, q);
      case Grow(p, bytes) => GrowKeeps(w, p, bytes, q);
      case Replace(p, bytes) => ReplaceKeeps(w, p, bytes, q);
      case Register(key) =>
    }
    if e.DrainOf? && e.path in w.files {
      DrainFrame(w.c, e.path, w.files[e.path], e.onLine);
    }
  }

  /** Before the first boot no file has a cursor. */
  function Start(files: map<Path, Bytes>): World {
    World(files, Cursors(map[], map[], {}), map[], map[], map[])
  }

  /** For every run of growth, replacements, drains and restarts: the cursor of a file never passes a line whose
      turn did not complete, and when no callback raised, the completed turns are exactly the lines
      it passed, once each and in order; both since the file was replaced last, if it was. */
  lemma {:induction false} RunKeeps(files: map<Path, Bytes>, events: seq<Event>)
    ensures Ok(Run(Start(files), events))
  {
    if events == [] {
      assert forall p :: FileOk(Start(files), p);
    } else {
      RunKeeps(files, events[..|events| - 1]);
      NextKeeps(Run(Start(files), events[..|events| - 1]), events[|events| - 1]);
    }
  }

  lemma SettledAtEnd(file: Bytes, base: nat, cursor: nat, turns: seq<Turn>)
    requires Settled(file, base, cursor, turns) && NoneRaised(turns) && CompleteLength(file[cursor..]) == 0
    ensures Completed(turns) == LinesOf(file[base..][..CompleteLength(file[base..])])
  {
    CompleteAppend(file[base..cursor], file[cursor..]);
    assert file[base..cursor] + file[cursor..] == file[base..];
    assert file[base..][..cursor - base] == file[base..cursor];
  }

  /** After a drain, if no callback on the file raised since it was replaced, if ever, every complete line since the
      base has had exactly one completed turn, in order. */
  lemma DrainedMeansDelivered(files: map<Path, Bytes>, events: seq<Event>, p: Path, onLine: OnLine)
    requires var w := Run(Start(files), events + [DrainOf(p, onLine)]); p in w.files && NoneRaised(Recent(w, p))
    ensures var w := Run(Start(files), events + [DrainOf(p, onLine)]);
            BaseOf(w, p) <= |w.files[p]| &&
            var unread := w.files[p][BaseOf(w, p)..];
            Completed(Recent(w, p)) == LinesOf(unread[..CompleteLength(unread)])
  {
    var u := Run(Start(files), events);
    assert (events + [DrainOf(p, onLine)])[..|events|] == events;
    var w := Next(u, DrainOf(p, onLine));
    assert w == Run(Start(files), events + [DrainOf(p, onLine)]);
    RunKeeps(files, events);
    NextKeeps(u, DrainOf(p, onLine));
    assert FileOk(u, p) && FileOk(w, p);
    if Short(u, p) {
      ShortDrain(u, p, onLine);
      assert w.files[p][|w.files[p]|..] == [];
      NoTurns();
    } else {
      DrainSettles(u.c, p, u.files[p], onLine, BaseOf(u, p), Recent(u, p));
      RecentMore(u, p, Drain(u.c, p, u.files[p], onLine).1);
      NoneRaisedAppend(Recent(u, p), Drain(u.c, p, u.files[p], onLine).1);
      SettledAtEnd(w.files[p], BaseOf(w, p), CursorOf(w.c, p), Recent(w, p));
    }
  }

  // ----- files that have shrunk --------------------------------------------------

  /** No event of the run replaces the file. */
  predicate NotReplaced(events: seq<Event>, p: Path) {
    forall i | 0 <= i < |events| :: events[i].Replace? ==> events[i].path != p
  }

  /** The file is read on from where it was: nothing of it, or of its history, changes but by growing. */
  predicate ReadOn(w: World, t: World, p: Path) {
    && p in w.base && p in t.base && t.base[p] == w.base[p] && FirstOf(t, p) == FirstOf(w, p)
    && TurnsOf(w, p) <= TurnsOf(t, p) && FileOf(w, p) <= FileOf(t, p) && !Short(t, p)
  }

  lemma DrainIsRead(w: World, q: Path, onLine: OnLine, p: Path)
    requires FileOk(w, p) && p in w.base && !Short(w, p) && q in w.files
    ensures ReadOn(w, Next(w, DrainOf(q, onLine)), p)
  {
    if q == p {
      AfterDrain(w, p, onLine, p);
      DrainEnds(w.c, p, w.files[p], onLine, BaseOf(w, p), Recent(w, p));
      hide Next, Drain, Settled, TurnsOf, FirstOf;
    } else {
      OtherIsRead(w, q, onLine, p);
    }
  }

  lemma OtherIsRead(w: World, q: Path, onLine: OnLine, p: Path)
    requires p in w.base && !Short(w, p) && q in w.files && q != p
    ensures ReadOn(w, Next(w, DrainOf(q, onLine)), p)
  {
    DrainFrame(w.c, q, w.files[q], onLine);
    hide Drain;
  }

  lemma NextIsRead(w: World, e: Event, p: Path)
    requires w.c.saved == w.c.offsets && FileOk(w, p) && p in w.base && !Short(w, p) && !(e.Replace? && e.path == p)
    ensures ReadOn(w, Next(w, e), p)
  {
    match e
    case DrainOf(q, onLine) =>
      hide Settled;
      if q in w.files {
        DrainIsRead(w, q, onLine, p);
      }
    case Restart(found) =>
      SeedKeeps(w.base, Sizes(w.files, found), p);
      SeedKeeps(w.c.saved, Sizes(w.files, found), p);
      hide Settled, Seed, Sizes;
    case Grow(q, bytes) => hide Settled;
    case Replace(q, bytes) => hide Settled;
    case Register(key) => hide Settled;
  }

  lemma LastEvent(files: map<Path, Bytes>, events: seq<Event>, e: Event)
    ensures Run(Start(files), events + [e]) == Next(Run(Start(files), events), e)
  {
    assert (events + [e])[..|events|] == events;
    hide Next;
  }

  lemma OkNow(files: map<Path, Bytes>, events: seq<Event>, p: Path)
    ensures FileOk(Run(Start(files), events), p)
    ensures var w := Run(Start(files), events); w.c.saved == w.c.offsets
  {
    RunKeeps(files, events);
    hide FileOk, Run;
  }

  lemma {:induction false} RunIsRead(files: map<Path, Bytes>, events: seq<Event>, more: seq<Event>, p: Path)
    requires var w := Run(Start(files), events); p in w.base && !Short(w, p)
    requires NotReplaced(more, p)
    ensures ReadOn(Run(Start(files), events), Run(Start(files), events + more), p)
  {
    hide *;
    if more == [] {
      Empty(events);
      ReadOnSelf(Run(Start(files), events), p);
    } else {
      var front, e := more[..|more| - 1], more[|more| - 1];
      FrontNotReplaced(more, p);
      RunIsRead(files, events, front, p);
      Associate(events, front, [e]);
      assert front + [e] == more;
      LastEvent(files, events + front, e);
      OkNow(files, events + front, p);
      var w, t := Run(Start(files), events), Run(Start(files), events + front);
      ReadOnParts(w, t, p);
      NextIsRead(t, e, p);
      ReadOnTrans(w, t, Next(t, e), p);
    }
  }

  lemma ReadOnSelf(w: World, p: Path)
    requires p in w.base && !Short(w, p)
    ensures ReadOn(w, w, p)
  {
  }

  lemma ReadOnParts(w: World, t: World, p: Path)
    requires ReadOn(w, t, p)
    ensures p in t.base && !Short(t, p)
  {
  }

  lemma ReadOnTrans(w: World, t: World, u: World, p: Path)
    requires ReadOn(w, t, p) && ReadOn(t, u, p)
    ensures ReadOn(w, u, p)
  {
    hide TurnsOf, FileOf, FirstOf, Short;
  }

  lemma FrontNotReplaced(more: seq<Event>, p: Path)
    requires NotReplaced(more, p) && more != []
    ensures NotReplaced(more[..|more| - 1], p) && !(more[|more| - 1].Replace? && more[|more| - 1].path == p)
  {
  }

  /** In every run: a drain that finds the file shorter than its cursor hands over nothing and leaves the cursor, the
      saved one too, at the end of the file. From then on, until the file is replaced again, the lines that complete
      are exactly those appended behind that end. */
  lemma ShrunkStartsAnew(files: map<Path, Bytes>, events: seq<Event>, p: Path, onLine: OnLine, more: seq<Event>,
                         last: OnLine)
    requires var w := Run(Start(files), events); p in w.files && |w.files[p]| < CursorOf(w.c, p)
    requires NotReplaced(more, p)
    ensures var w, t := Run(Start(files), events), Run(Start(files), events + [DrainOf(p, onLine)]);
            var u := Run(Start(files), events + [DrainOf(p, onLine)] + more + [DrainOf(p, last)]);
            && TurnsOf(t, p) == TurnsOf(w, p)
            && p in t.c.offsets && t.c.offsets[p] == |w.files[p]| && p in t.c.saved && t.c.saved[p] == |w.files[p]|
            && p in u.files && w.files[p] <= u.files[p] && TurnsOf(w, p) <= TurnsOf(u, p)
            && (NoneRaised(TurnsOf(u, p)[|TurnsOf(w, p)|..]) ==>
                  var unread := u.files[p][|w.files[p]|..];
                  Completed(TurnsOf(u, p)[|TurnsOf(w, p)|..]) == LinesOf(unread[..CompleteLength(unread)]))
  {
    hide *;
    var w := Run(Start(files), events);
    var before := events + [DrainOf(p, onLine)];
    var t := Run(Start(files), before);
    LastEvent(files, events, DrainOf(p, onLine));
    OkNow(files, events, p);
    ShortIs(w, p);
    ShortDrain(w, p, onLine);
    AtEnd(w, t, p);
    StillNotReplaced(more, p, last);
    RunIsRead(files, before, more + [DrainOf(p, last)], p);
    Associate(before, more, [DrainOf(p, last)]);
    var u := Run(Start(files), before + more + [DrainOf(p, last)]);
    RecentIs(w, t, u, p);
    OkNow(files, before + more + [DrainOf(p, last)], p);
    BasedIsFile(u, p);
    if NoneRaised(Recent(u, p)) {
      DrainedMeansDelivered(files, before + more, p, last);
    }
  }

  lemma StillNotReplaced(more: seq<Event>, p: Path, last: OnLine)
    requires NotReplaced(more, p)
    ensures NotReplaced(more + [DrainOf(p, last)], p)
  {
  }

  /** A file is short only when it has been replaced since the last turn on it. */
  lemma ShortIs(w: World, p: Path)
    requires FileOk(w, p) && p in w.files && |w.files[p]| < CursorOf(w.c, p)
    ensures Short(w, p) && FirstOf(w, p) == |TurnsOf(w, p)|
  {
    hide Settled, TurnsOf;
  }

  lemma AtEnd(w: World, t: World, p: Path)
    requires p in w.files && t.files == w.files && t.first == w.first
    requires p in t.c.offsets && t.c.offsets[p] == |w.files[p]| && p in t.base && t.base[p] == |w.files[p]|
    ensures !Short(t, p) && FirstOf(t, p) == FirstOf(w, p) && FileOf(t, p) == w.files[p] && BaseOf(t, p) == |w.files[p]|
  {
  }

  lemma BasedIsFile(w: World, p: Path)
    requires FileOk(w, p) && p in w.base
    ensures p in w.files
  {
    hide Settled;
  }

  lemma RecentIs(w: World, t: World, u: World, p: Path)
    requires ReadOn(t, u, p) && TurnsOf(t, p) == TurnsOf(w, p) && FirstOf(t, p) == FirstOf(w, p) == |TurnsOf(w, p)|
    requires p in w.files && FileOf(t, p) == w.files[p] && BaseOf(t, p) == |w.files[p]|
    ensures TurnsOf(w, p) <= TurnsOf(u, p) && Recent(u, p) == TurnsOf(u, p)[|TurnsOf(w, p)|..]
    ensures w.files[p] <= FileOf(u, p) && BaseOf(u, p) == |w.files[p]| && (p in u.files ==> FileOf(u, p) == u.files[p])
    ensures p in u.base
  {
    hide TurnsOf, Short;
  }

  // ----- suppressions over whole runs ---------------------------------------

  /** How often `key` was registered in one event. */
  function SignalsOf(w: World, e: Event, key: Key): nat {
    match e
    case Register(k) => if k == key then 1 else 0
    case DrainOf(p, onLine) => if p in w.files then Registrations(Drain(w.c, p, w.files[p], onLine).1, onLine, key)
        else 0
    case _ => 0
  }

  /** How often it was registered in a run, by whatever callback on whatever file. */
  function Signals(w: World, events: seq<Event>, key: Key): nat {
    if events == [] then 0 else
      var front := events[..|events| - 1];
      Signals(w, front, key) + SignalsOf(Run(w, front), events[|events| - 1], key)
  }

  /** What was swallowed so far, and what is still to be. */
  function Swallowed(w: World, key: Key): nat {
    Count(TurnsOf(w, key.0), Suppressed(key.1)) + if key in w.c.suppress then 1 else 0
  }

  lemma DrainIsOneShot(w: World, p: Path, onLine: OnLine, key: Key)
    requires p in w.files
    ensures var (c, more) := Drain(w.c, p, w.files[p], onLine);
            (if p == key.0 then Count(more, Suppressed(key.1)) else 0) + (if key in c.suppress then 1 else 0)
            <= (if key in w.c.suppress then 1 else 0) + Registrations(more, onLine, key)
  {
    hide *;
    NoCounts(onLine, key);
    var lines := DrainPass(w.c, p, w.files[p], onLine);
    PassIsOneShot(p, lines, w.c.suppress, onLine, key);
  }

  /** A drain without any turn leaves the suppressions alone; any other one is a pass over some lines. */
  lemma DrainPass(c: Cursors, p: Path, file: Bytes, onLine: OnLine) returns (lines: seq<string>)
    ensures var (after, turns) := Drain(c, p, file, onLine);
            || (turns == [] && after.suppress == c.suppress)
            || (turns == RunLines(p, lines, c.suppress, onLine).turns
                && after.suppress == RunLines(p, lines, c.suppress, onLine).suppress)
  {
    var cursor := CursorOf(c, p);
    lines := [];
    if cursor <= |file| {
      lines := SplitLines(Utf8.Decode(file[cursor..cursor + CompleteLength(file[cursor..])]));
    }
    hide RunLines, SplitLines, Utf8.Decode, CompleteLength, Utf8.WholeLines;
  }

  lemma NoCounts(onLine: OnLine, key: Key)
    ensures Count([], Suppressed(key.1)) == 0 == Registrations([], onLine, key)
  {
  }

  lemma NextIsOneShot(w: World, e: Event, key: Key)
    ensures Swallowed(Next(w, e), key) <= Swallowed(w, key) + SignalsOf(w, e, key)
  {
    if e.DrainOf? && e.path in w.files {
      DrainIsOneShot(w, e.path, e.onLine, key);
      var more := Drain(w.c, e.path, w.files[e.path], e.onLine).1;
      CountAppend(TurnsOf(w, e.path), more, Suppressed(key.1));
      hide Drain, Registrations, Count;
    } else {
      hide Drain, Registrations, Count, Seed, Sizes;
    }
  }

  lemma CountAppend(a: seq<Turn>, b: seq<Turn>, t: Turn)
    ensures Count(a + b, t) == Count(a, t) + Count(b, t)
  {
  }

  /** Suppressions are one-shot over whole runs: however the file grows, is drained again after a failure, or the
      process restarts, a line is swallowed at most as often as it was registered. */
  lemma {:induction false} SuppressionIsOneShot(files: map<Path, Bytes>, events: seq<Event>, p: Path, line: string)
    ensures var w := Run(Start(files), events);
            Count(TurnsOf(w, p), Suppressed(line)) + (if (p, line) in w.c.suppress then 1 else 0)
            <= Signals(Start(files), events, (p, line))
  {
    if events == [] {
      assert TurnsOf(Start(files), p) == [];
    } else {
      var front := events[..|events| - 1];
      SuppressionIsOneShot(files, front, p, line);
      NextIsOneShot(Run(Start(files), front), events[|events| - 1], (p, line));
      hide SignalsOf, Next, Count, Start;
    }
  }

  // ----- a registered line is swallowed --------------------------------------------

  /** A registration lasts until its line comes. */
  lemma {:induction false} StaysRegistered(rel: Path, lines: seq<string>, k: nat, i: nat, suppress: set<Key>,
                                           onLine: OnLine,
                                           line: string)
    requires k <= i <= |lines| && (rel, line) in RunLines(rel, lines[..k], suppress, onLine).suppress
    requires forall j | k <= j < i :: lines[j] != line
    ensures (rel, line) in RunLines(rel, lines[..i], suppress, onLine).suppress
    decreases i
  {
    if k < i {
      StaysRegistered(rel, lines, k, i - 1, suppress, onLine, line);
      OneMoreLine(rel, lines, i - 1, suppress, onLine);
      hide RunLines, CallCount;
    }
  }

  /** The turns of a pass over some lines are the first turns of a pass over more of them. */
  lemma {:induction false} TurnsGrow(rel: Path, lines: seq<string>, k: nat, suppress: set<Key>, onLine: OnLine)
    requires k <= |lines|
    ensures RunLines(rel, lines[..k], suppress, onLine).turns <= RunLines(rel, lines, suppress, onLine).turns
    decreases |lines| - k
  {
    if k == |lines| {
      Whole(lines);
    } else {
      TurnsGrow(rel, lines, k + 1, suppress, onLine);
      OneMoreLine(rel, lines, k, suppress, onLine);
      hide RunLines, CallCount;
    }
  }

  /** A line that is registered before or in a pass is swallowed where it comes next, if the pass gets that far, and is
      registered no longer then. */
  lemma RegisteredIsSwallowed(rel: Path, lines: seq<string>, k: nat, i: nat, suppress: set<Key>, onLine: OnLine)
    requires k <= i < |lines| && lines[i] != "" && (forall j | k <= j < i :: lines[j] != lines[i])
    requires (rel, lines[i]) in RunLines(rel, lines[..k], suppress, onLine).suppress
    requires RunLines(rel, lines[..i], suppress, onLine).ok
    ensures var before, after := RunLines(rel, lines[..i], suppress, onLine),
            RunLines(rel, lines[..i + 1], suppress, onLine);
            && after.ok && (rel, lines[i]) !in after.suppress
            && before.turns + [Suppressed(lines[i])] == after.turns <= RunLines(rel, lines, suppress, onLine).turns
  {
    StaysRegistered(rel, lines, k, i, suppress, onLine, lines[i]);
    OneMoreLine(rel, lines, i, suppress, onLine);
    TurnsGrow(rel, lines, i + 1, suppress, onLine);
    hide RunLines, CallCount;
  }
}
