/** Moving one document tree into another without losing anything. */
module DocMerge {
  import opened Wrappers
  import opened Trees

  /** What becomes of one entry: what stays at the source, and what is at the destination afterwards. */
  datatype Moved = Moved(left: Option<Node>, there: Node)

  function MergeEntry(s: Node, d: Option<Node>): Moved
    decreases s, 1
  {
    if s.Dir? then
      if d.Some? && !d.value.Dir? then Moved(Some(s), d.value) else
        var (left, merged) := Merge(s, if d.Some? then d.value.entries else map[]);
        Moved(if left == map[] then None else Some(Dir(left)), Dir(merged))
    else if d.None? then Moved(None, s)
    else if s.File? && d.value == s then Moved(None, s)
    else Moved(Some(s), d.value)
  }

  /** `_merge_move_docs`: the entries left in the source directory, and those of the destination. */
  function Merge(src: Node, dst: Entries): (Entries, Entries)
    requires src.Dir?
    decreases src, 0
  {
    (map n | n in src.entries && MergeEntry(src.entries[n], Get(dst, n)).left.Some? ::
        MergeEntry(src.entries[n], Get(dst, n)).left.value,
     map n | n in src.entries.Keys + dst.Keys ::
         if n in src.entries then MergeEntry(src.entries[n], Get(dst, n)).there else dst[n])
  }

  /** `dst` bars the way of a node: a leaf lies on the way, or at its path lies something that it cannot join. A file
      joins an equal file only, a directory any directory, and a link nothing. */
  predicate Barred(dst: Option<Node>, path: seq<Name>, node: Node)
    decreases |path|
  {
    if dst.None? then false
    else if path == [] then !(if node.Dir? then dst.value.Dir? else node.File? && dst.value == node)
    else !dst.value.Dir? || Barred(Get(dst.value.entries, path[0]), path[1..], node)
  }

  /** What the source has at that path is in conflict with the destination. */
  predicate Conflict(s: Node, d: Option<Node>, path: seq<Name>) {
    Lookup(s, path).Some? && Barred(d, path, Lookup(s, path).value)
  }

  /** There is a conflict at or below that path. */
  ghost predicate ConflictBelow(s: Node, d: Option<Node>, path: seq<Name>) {
    exists q :: path <= q && Conflict(s, d, q)
  }

  /** One entry of a merged directory, on both sides. */
  lemma MergedEntry(src: Node, dst: Entries, n: Name)
    requires src.Dir?
    ensures var (left, merged) := Merge(src, dst);
            && (n in left <==> n in src.entries && MergeEntry(src.entries[n], Get(dst, n)).left.Some?)
            && (n in left ==> Some(left[n]) == MergeEntry(src.entries[n], Get(dst, n)).left)
            && (n in merged <==> n in src.entries || n in dst)
            && (n in src.entries ==> merged[n] == MergeEntry(src.entries[n], Get(dst, n)).there)
            && (n !in src.entries && n in dst ==> merged[n] == dst[n])
  {
    hide MergeEntry;
  }

  /** A leaf stays at the source if and only if the destination bars its way; otherwise it is at the destination. */
  lemma {:induction false} LeafGoesOrStays(s: Node, d: Option<Node>, path: seq<Name>, leaf: Node)
    requires LeafAt(s, path, leaf)
    ensures var m := MergeEntry(s, d);
            && (Barred(d, path, leaf) <==> m.left.Some? && LeafAt(m.left.value, path, leaf))
            && (!Barred(d, path, leaf) ==> LeafAt(m.there, path, leaf))
    decreases |path|
  {
    if path != [] && (d.None? || d.value.Dir?) {
      var dst := if d.Some? then d.value.entries else map[];
      var n, rest := path[0], path[1..];
      LeafGoesOrStays(s.entries[n], Get(dst, n), rest, leaf);
      MergedEntry(s, dst, n);
      var (left, merged) := Merge(s, dst);
      var m := MergeEntry(s, d);
      assert m == Moved(if left == map[] then None else Some(Dir(left)), Dir(merged));
      assert Barred(Get(dst, n), rest, leaf) <==> Barred(d, path, leaf);
      hide MergeEntry, Merge, Barred;
      assert n in left ==> left != map[] && Lookup(Dir(left), path) == Lookup(left[n], rest);
      assert Lookup(Dir(merged), path) == Lookup(merged[n], rest);
      assert n !in left ==> Lookup(Dir(left), path) == None;
    }
  }

  /** Nothing appears at the source. */
  lemma {:induction false} LeftWasThere(s: Node, d: Option<Node>, path: seq<Name>, leaf: Node)
    requires MergeEntry(s, d).left.Some? && LeafAt(MergeEntry(s, d).left.value, path, leaf)
    ensures LeafAt(s, path, leaf)
    decreases |path|
  {
    if path != [] && (d.None? || d.value.Dir?) && s.Dir? {
      var dst := if d.Some? then d.value.entries else map[];
      LeftWasThere(s.entries[path[0]], Get(dst, path[0]), path[1..], leaf);
    }
  }

  /** A conflict below an entry is one below its directory, and the other way round. */
  lemma ConflictInEntry(s: Node, d: Option<Node>, n: Name, rest: seq<Name>)
    requires s.Dir? && n in s.entries && (d.None? || d.value.Dir?)
    ensures var dst := if d.Some? then d.value.entries else map[];
            ConflictBelow(s.entries[n], Get(dst, n), rest) <==> ConflictBelow(s, d, [n] + rest)
  {
    var dst := if d.Some? then d.value.entries else map[];
    var e, g := s.entries[n], Get(dst, n);
    forall q {
      ConflictStep(s, d, n, q);
    }
    if ConflictBelow(e, g, rest) {
      var q :| rest <= q && Conflict(e, g, q);
      assert [n] + rest <= [n] + q && Conflict(s, d, [n] + q);
    }
    if ConflictBelow(s, d, [n] + rest) {
      var p :| [n] + rest <= p && Conflict(s, d, p);
      assert p == [n] + p[1..] && rest <= p[1..];
    }
  }

  lemma ConflictStep(s: Node, d: Option<Node>, n: Name, q: seq<Name>)
    requires s.Dir? && n in s.entries && (d.None? || d.value.Dir?)
    ensures var dst := if d.Some? then d.value.entries else map[];
            Conflict(s, d, [n] + q) <==> Conflict(s.entries[n], Get(dst, n), q)
  {
    assert ([n] + q)[1..] == q;
  }

  /** Something of an entry stays at the source if and only if there is a conflict in it. */
  lemma {:induction false} StaysIffConflict(s: Node, d: Option<Node>)
    ensures MergeEntry(s, d).left.Some? <==> ConflictBelow(s, d, [])
    decreases s
  {
    if s.Dir? && (d.None? || d.value.Dir?) {
      var dst := if d.Some? then d.value.entries else map[];
      var left := Merge(s, dst).0;
      forall n | n in s.entries ensures n in left <==> ConflictBelow(s, d, [n]) {
        StaysIffConflict(s.entries[n], Get(dst, n));
        ConflictInEntry(s, d, n, []);
        MergedEntry(s, dst, n);
        assert [n] + [] == [n];
      }
      assert MergeEntry(s, d).left == if left == map[] then None else Some(Dir(left));
      hide MergeEntry, Merge, Barred, Conflict, Lookup;
      if ConflictBelow(s, d, []) {
        DirConflict(s, d);
        var n :| n in s.entries && ConflictBelow(s, d, [n]);
        assert n in left;
      }
      if left != map[] {
        var n :| n in left;
        assert n in s.entries by { MergedEntry(s, dst, n); }
        ConflictUp(s, d, [n]);
      }
    } else {
      TopConflict(s, d);
    }
  }

  lemma ConflictUp(s: Node, d: Option<Node>, path: seq<Name>)
    requires ConflictBelow(s, d, path)
    ensures ConflictBelow(s, d, [])
  {
    var q :| path <= q && Conflict(s, d, q);
    assert [] <= q;
  }

  /** Two directories are in conflict in their entries only. */
  lemma DirConflict(s: Node, d: Option<Node>)
    requires s.Dir? && (d.None? || d.value.Dir?) && ConflictBelow(s, d, [])
    ensures exists n :: n in s.entries && ConflictBelow(s, d, [n])
  {
    var q :| [] <= q && Conflict(s, d, q);
    assert q != [] && q[0] in s.entries && [q[0]] <= q;
    assert ConflictBelow(s, d, [q[0]]);
  }

  /** A leaf, or anything a leaf lies in the way of. */
  lemma TopConflict(s: Node, d: Option<Node>)
    requires !s.Dir? || (d.Some? && !d.value.Dir?)
    ensures ConflictBelow(s, d, []) <==> Conflict(s, d, [])
    ensures Conflict(s, d, []) <==> d.Some? && (s.Dir? || !(s.File? && d.value == s))
  {
    if Conflict(s, d, []) {
      var top: seq<Name> := [];
      assert top <= top && Conflict(s, d, top);
    }
    if ConflictBelow(s, d, []) {
      var q :| [] <= q && Conflict(s, d, q);
    }
  }

  /** A directory stays at the source if and only if there is a conflict at or below it; so what is emptied goes. */
  lemma {:induction false} DirectoryStaysIffConflict(s: Node, d: Option<Node>, path: seq<Name>)
    ensures var left := MergeEntry(s, d).left;
            left.Some? && DirAt(left.value, path) <==> DirAt(s, path) && ConflictBelow(s, d, path)
    decreases |path|
  {
    if path == [] {
      StaysIffConflict(s, d);
    } else if s.Dir? && path[0] in s.entries && (d.None? || d.value.Dir?) {
      var n, rest := path[0], path[1..];
      var dst := if d.Some? then d.value.entries else map[];
      DirectoryStaysIffConflict(s.entries[n], Get(dst, n), rest);
      ConflictInEntry(s, d, n, rest);
      MergedEntry(s, dst, n);
      assert [n] + rest == path;
      assert MergeEntry(s, d).left == if Merge(s, dst).0 == map[] then None else Some(Dir(Merge(s, dst).0));
      hide MergeEntry, Merge, ConflictBelow;
    } else {
      NotInside(s, d, path);
    }
  }

  lemma NotInside(s: Node, d: Option<Node>, path: seq<Name>)
    requires path != [] && !(s.Dir? && path[0] in s.entries && (d.None? || d.value.Dir?))
    ensures var left := MergeEntry(s, d).left;
            left.Some? && DirAt(left.value, path) <==> DirAt(s, path) && ConflictBelow(s, d, path)
  {
    if s.Dir? && d.Some? && !d.value.Dir? && DirAt(s, path) {
      assert path <= path && Conflict(s, d, path);
    } else if s.Dir? {
      MergedEntry(s, if d.Some? && d.value.Dir? then d.value.entries else map[], path[0]);
    }
  }

  /** Every leaf of the destination stays as it was. */
  lemma {:induction false} DestinationStays(s: Node, d: Node, path: seq<Name>, leaf: Node)
    requires LeafAt(d, path, leaf)
    ensures LeafAt(MergeEntry(s, Some(d)).there, path, leaf)
    decreases |path|
  {
    if path != [] && s.Dir? && path[0] in s.entries {
      DestinationStays(s.entries[path[0]], d.entries[path[0]], path[1..], leaf);
    }
  }

  /** Every leaf of the new destination was at the same path, at the source or at the destination. */
  lemma {:induction false} NothingInvented(s: Node, d: Option<Node>, path: seq<Name>, leaf: Node)
    requires LeafAt(MergeEntry(s, d).there, path, leaf)
    ensures LeafAt(s, path, leaf) || (d.Some? && LeafAt(d.value, path, leaf))
    decreases |path|
  {
    if path != [] && s.Dir? && (d.None? || d.value.Dir?) {
      var dst := if d.Some? then d.value.entries else map[];
      MergedEntry(s, dst, path[0]);
      var merged := Merge(s, dst).1;
      assert MergeEntry(s, d).there == Dir(merged);
      assert LeafAt(merged[path[0]], path[1..], leaf);
      if path[0] in s.entries {
        NothingInvented(s.entries[path[0]], Get(dst, path[0]), path[1..], leaf);
      }
    }
  }

  /** Every directory of the destination stays one, an empty one too. */
  lemma {:induction false} DirectoryStays(s: Node, d: Node, path: seq<Name>)
    requires DirAt(d, path)
    ensures DirAt(MergeEntry(s, Some(d)).there, path)
    decreases |path|
  {
    if path != [] && s.Dir? && path[0] in s.entries {
      DirectoryStays(s.entries[path[0]], d.entries[path[0]], path[1..]);
    }
  }

  /** Every directory of the new destination was one at the same path, on one side. */
  lemma {:induction false} NoDirectoryInvented(s: Node, d: Option<Node>, path: seq<Name>)
    requires DirAt(MergeEntry(s, d).there, path)
    ensures DirAt(s, path) || (d.Some? && DirAt(d.value, path))
    decreases |path|
  {
    if path != [] && s.Dir? && (d.None? || d.value.Dir?) {
      var dst := if d.Some? then d.value.entries else map[];
      MergedEntry(s, dst, path[0]);
      if path[0] in s.entries {
        NoDirectoryInvented(s.entries[path[0]], Get(dst, path[0]), path[1..]);
      }
    }
  }

  /** Every directory of the source is one afterwards, on one side at least. */
  lemma {:induction false} DirectoryGoesOrStays(s: Node, d: Option<Node>, path: seq<Name>)
    requires DirAt(s, path)
    ensures var m := MergeEntry(s, d); (m.left.Some? && DirAt(m.left.value, path)) || DirAt(m.there, path)
    decreases |path|
  {
    if path != [] && (d.None? || d.value.Dir?) {
      var dst := if d.Some? then d.value.entries else map[];
      MergedEntry(s, dst, path[0]);
      DirectoryGoesOrStays(s.entries[path[0]], Get(dst, path[0]), path[1..]);
    }
  }

  lemma IdleEntries(left: Entries, merged: Entries)
    requires forall n | n in left ::
             n in merged && MergeEntry(left[n], Some(merged[n])) == Moved(Some(left[n]), merged[n])
    ensures Merge(Dir(left), merged) == (left, merged)
  {
    var again := Merge(Dir(left), merged);
    hide MergeEntry;
    assert again.0 == left;
    assert again.1 == merged;
  }

  /** Merging what is left once more changes nothing. */
  lemma {:induction false} SecondMergeIsIdle(s: Node, d: Option<Node>)
    requires MergeEntry(s, d).left.Some?
    ensures var m := MergeEntry(s, d); MergeEntry(m.left.value, Some(m.there)) == m
    decreases s
  {
    if s.Dir? && (d.None? || d.value.Dir?) {
      var dst := if d.Some? then d.value.entries else map[];
      var (left, merged) := Merge(s, dst);
      forall n | n in left
        ensures n in merged && MergeEntry(left[n], Some(merged[n])) == Moved(Some(left[n]), merged[n])
      {
        MergedEntry(s, dst, n);
        SecondMergeIsIdle(s.entries[n], Get(dst, n));
      }
      IdleEntries(left, merged);
    }
  }

  // ----- whole directories -----------------------------------------------------------------------

  /** The whole promise, for the two directories as they are before and after. */
  lemma MergeLosesNothing(src: Node, dst: Entries, path: seq<Name>, leaf: Node)
    requires src.Dir? && path != []
    ensures var (left, merged) := Merge(src, dst);
            && (LeafAt(Dir(dst), path, leaf) ==> LeafAt(Dir(merged), path, leaf))
            && (LeafAt(src, path, leaf) ==>
                  if Barred(Some(Dir(dst)), path, leaf) then LeafAt(Dir(left), path, leaf)
                      else LeafAt(Dir(merged), path, leaf) && !LeafAt(Dir(left), path, leaf))
            && (LeafAt(Dir(left), path, leaf) ==> LeafAt(src, path, leaf) && Barred(Some(Dir(dst)), path, leaf))
            && (LeafAt(Dir(merged), path, leaf) ==> LeafAt(src, path, leaf) || LeafAt(Dir(dst), path, leaf))
            && Merge(Dir(left), merged) == (left, merged)
  {
    var (left, merged) := Merge(src, dst);
    var d := Some(Dir(dst));
    var m := MergeEntry(src, d);
    assert m == Moved(if left == map[] then None else Some(Dir(left)), Dir(merged));
    NoLeafInEmpty(path, leaf);
    EmptyIsIdle(merged);
    hide Merge, MergeEntry, Barred, Lookup;
    if LeafAt(Dir(dst), path, leaf) {
      DestinationStays(src, Dir(dst), path, leaf);
    }
    if LeafAt(src, path, leaf) {
      LeafGoesOrStays(src, d, path, leaf);
    }
    if LeafAt(Dir(left), path, leaf) {
      LeftWasThere(src, d, path, leaf);
      LeafGoesOrStays(src, d, path, leaf);
    }
    if LeafAt(Dir(merged), path, leaf) {
      NothingInvented(src, d, path, leaf);
    }
    if left != map[] {
      SecondMergeIsIdle(src, d);
      SameMerge(left, merged);
    }
  }

  /** The same for directories: none of the destination goes, none appears, and none of the source is lost. */
  lemma MergeKeepsDirectories(src: Node, dst: Entries, path: seq<Name>)
    requires src.Dir? && path != []
    ensures var (left, merged) := Merge(src, dst);
            && (DirAt(Dir(dst), path) ==> DirAt(Dir(merged), path))
            && (DirAt(Dir(merged), path) ==> DirAt(src, path) || DirAt(Dir(dst), path))
            && (DirAt(src, path) ==> DirAt(Dir(left), path) || DirAt(Dir(merged), path))
            && (DirAt(Dir(left), path) <==> DirAt(src, path) && ConflictBelow(src, Some(Dir(dst)), path))
  {
    var (left, merged) := Merge(src, dst);
    var d := Some(Dir(dst));
    assert MergeEntry(src, d) == Moved(if left == map[] then None else Some(Dir(left)), Dir(merged));
    DirectoryStaysIffConflict(src, d, path);
    NoDirInEmpty(path);
    hide Merge, MergeEntry, Lookup, ConflictBelow;
    if DirAt(Dir(dst), path) {
      DirectoryStays(src, Dir(dst), path);
    }
    if DirAt(Dir(merged), path) {
      NoDirectoryInvented(src, d, path);
    }
    if DirAt(src, path) {
      DirectoryGoesOrStays(src, d, path);
    }
  }

  lemma NoLeafInEmpty(path: seq<Name>, leaf: Node)
    requires path != []
    ensures !LeafAt(Dir(map[]), path, leaf)
  {
  }

  lemma NoDirInEmpty(path: seq<Name>)
    requires path != []
    ensures !DirAt(Dir(map[]), path)
  {
  }

  /** Of a source entry that meets no conflict nothing stays; in particular a merge without conflicts leaves the source
      empty. */
  lemma EntryGoesIffPeaceful(src: Node, dst: Entries, n: Name)
    requires src.Dir?
    ensures n in Merge(src, dst).0 <==> n in src.entries && ConflictBelow(src, Some(Dir(dst)), [n])
  {
    MergedEntry(src, dst, n);
    if n in src.entries {
      StaysIffConflict(src.entries[n], Get(dst, n));
      ConflictInEntry(src, Some(Dir(dst)), n, []);
      assert [n] + [] == [n];
    }
    hide Merge, MergeEntry, ConflictBelow;
  }

  lemma EmptyIsIdle(merged: Entries)
    ensures Merge(Dir(map[]), merged) == (map[], merged)
  {
    IdleEntries(map[], merged);
  }

  lemma SameMerge(left: Entries, merged: Entries)
    requires MergeEntry(Dir(left), Some(Dir(merged))) == Moved(Some(Dir(left)), Dir(merged))
    ensures Merge(Dir(left), merged) == (left, merged)
  {
  }

  // ----- the loop as it runs -----------------------------------------------------------------------

  /** One entry: merged below, moved, dropped as a duplicate, or left where it is. */
  method MoveEntry(entry: Node, d: Option<Node>) returns (left: Option<Node>, there: Node)
    ensures Moved(left, there) == MergeEntry(entry, d)
    decreases entry, 1
  {
    if entry.Dir? {
      if d.Some? && !d.value.Dir? {
        return Some(entry), d.value;
      }
      var below, inside := MergeMoveDocs(entry, if d.Some? then d.value.entries else map[]);
      left := if below == map[] then None else Some(Dir(below));
      there := Dir(inside);
    } else if d.None? {
      left, there := None, entry;
    } else if entry.File? && d.value.File? && entry.content == d.value.content {
      left, there := None, d.value;
    } else {
      left, there := Some(entry), d.value;
    }
  }

  /** Takes the entries one by one. */
  method MergeMoveDocs(src: Node, dst: Entries) returns (left: Entries, merged: Entries)
    requires src.Dir?
    ensures (left, merged) == Merge(src, dst)
    decreases src, 0
  {
    left, merged := src.entries, dst;
    var todo := src.entries.Keys;
    while todo != {}
      invariant Progress(src, dst, todo, left, merged)
      decreases |todo|
    {
      var n :| n in todo;
      hide Merge, MergeEntry;
      var kept, there := MoveEntry(src.entries[n], Get(merged, n));
      OneMore(src, dst, todo, left, merged, n, kept, there);
      left := if kept.Some? then left[n := kept.value] else left - {n};
      merged := merged[n := there];
      todo := todo - {n};
    }
    AllSettled(src, dst, left, merged);
  }

  /** The entries not in `todo` are settled, the others untouched. */
  ghost predicate Progress(src: Node, dst: Entries, todo: set<Name>, left: Entries, merged: Entries)
    requires src.Dir?
  {
    && todo <= src.entries.Keys
    && (forall n | n in todo :: Get(left, n) == Some(src.entries[n]) && Get(merged, n) == Get(dst, n))
    && (forall n | n in src.entries && n !in todo :: Settled(src.entries[n], Get(dst, n), Get(left, n), Get(merged, n)))
    && (forall n | n !in src.entries :: n !in left && Get(merged, n) == Get(dst, n))
  }

  lemma OneMore(src: Node, dst: Entries, todo: set<Name>, left: Entries, merged: Entries, n: Name, kept: Option<Node>,
                there: Node)
    requires src.Dir? && Progress(src, dst, todo, left, merged) && n in todo
             && Moved(kept, there) == MergeEntry(src.entries[n], Get(dst, n))
    ensures Progress(src, dst, todo - {n}, if kept.Some? then left[n := kept.value] else left - {n}, merged[n := there])
  {
    hide MergeEntry;
  }

  predicate Settled(s: Node, d: Option<Node>, left: Option<Node>, there: Option<Node>) {
    left == MergeEntry(s, d).left && there == Some(MergeEntry(s, d).there)
  }

  lemma AllSettled(src: Node, dst: Entries, left: Entries, merged: Entries)
    requires src.Dir? && Progress(src, dst, {}, left, merged)
    ensures (left, merged) == Merge(src, dst)
  {
    var r := Merge(src, dst);
    forall n ensures Get(r.0, n) == Get(left, n) && Get(r.1, n) == Get(merged, n) {
      MergedEntry(src, dst, n);
      assert n in src.entries ==> Settled(src.entries[n], Get(dst, n), Get(left, n), Get(merged, n));
    }
    hide MergeEntry, Merge;
    SameEntries(r.0, left);
    SameEntries(r.1, merged);
  }

  lemma SameEntries(a: Entries, b: Entries)
    requires forall n :: Get(a, n) == Get(b, n)
    ensures a == b
  {
    assert forall n :: n in a <==> Get(a, n).Some?;
    assert forall n :: n in b <==> Get(b, n).Some?;
    forall n | n in a ensures n in b && a[n] == b[n] {
      assert Get(a, n) == Get(b, n);
    }
  }
}
