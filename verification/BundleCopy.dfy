/** The files a bundle ships, and copying them into place. Trees are seen through their links, as both the copy and
    the comparison see them. */
module BundleCopy {
  import opened Trees

  /** Contents by path below the bundle's directory. */
  type Files = map<seq<Name>, string>

  /** What `copytree` leaves out and the staleness check skips. */
  predicate Ignored(n: Name) {
    n == ".git" || n == "__pycache__" || n == ".DS_Store" || (|n| >= 4 && n[|n| - 4..] == ".pyc")
  }

  /** A copy of a bundle, as the installer makes it. */
  function CopyTree(s: Node): Node
    decreases s
  {
    if s.Dir? then Dir(map n | n in s.entries && !Ignored(n) :: CopyTree(s.entries[n])) else s
  }

  /** The paths of the files that the registry owns, as the walk over a bundle collects them. */
  function OwnedPaths(s: Node): set<seq<Name>>
    decreases s
  {
    match s
    case File(_) => {[]}
    case Link(_) => {}
    case Dir(entries) => set n, p | n in entries && !Ignored(n) && p in OwnedPaths(entries[n]) :: [n] + p
  }

  function ContentAt(s: Node, path: seq<Name>): string {
    var found := Lookup(s, path);
    if found.Some? && found.value.File? then found.value.content else ""
  }

  function OwnedFiles(s: Node): Files {
    map p | p in OwnedPaths(s) :: ContentAt(s, p)
  }

  /** No part of the path is ignored. */
  predicate Owned(path: seq<Name>) {
    forall i | 0 <= i < |path| :: !Ignored(path[i])
  }

  predicate FileAt(s: Node, path: seq<Name>) {
    Lookup(s, path).Some? && Lookup(s, path).value.File?
  }

  /** The walk collects exactly the files no part of whose path is ignored. */
  lemma {:induction false} WalkFindsOwned(s: Node, path: seq<Name>)
    ensures path in OwnedPaths(s) <==> FileAt(s, path) && Owned(path)
    decreases |path|
  {
    if path != [] && s.Dir? {
      OwnedRest(path);
      assert path == [path[0]] + path[1..];
      if path[0] in s.entries {
        WalkFindsOwned(s.entries[path[0]], path[1..]);
      }
      hide Owned, Ignored;
      if path in OwnedPaths(s) {
        var n, p :| n in s.entries && !Ignored(n) && p in OwnedPaths(s.entries[n]) && path == [n] + p;
        assert n == path[0] && p == path[1..];
      }
    }
  }

  /** A copy holds at each path that no ignored name bars just what the source holds there. */
  lemma {:induction false} CopyHolds(s: Node, path: seq<Name>)
    ensures FileAt(CopyTree(s), path) <==> FileAt(s, path) && Owned(path)
    ensures FileAt(CopyTree(s), path) ==> Lookup(CopyTree(s), path) == Lookup(s, path)
    decreases |path|
  {
    if path != [] && s.Dir? {
      OwnedRest(path);
      hide Owned, Ignored;
      if path[0] in s.entries {
        CopyHolds(s.entries[path[0]], path[1..]);
      }
    }
  }

  lemma OwnedRest(path: seq<Name>)
    requires path != []
    ensures Owned(path) <==> !Ignored(path[0]) && Owned(path[1..])
  {
    hide Ignored;
    if Owned(path[1..]) && !Ignored(path[0]) {
      forall i | 0 <= i < |path| ensures !Ignored(path[i]) {
        assert i > 0 ==> path[i] == path[1..][i - 1];
      }
    }
  }

  /** A fresh copy holds every file the registry owns, byte for byte, and nothing else of that kind. */
  lemma FreshCopyIsNotStale(s: Node)
    ensures OwnedFiles(CopyTree(s)) == OwnedFiles(s)
  {
    hide CopyTree, OwnedPaths, Owned, Lookup;
    forall path ensures path in OwnedPaths(CopyTree(s)) <==> path in OwnedPaths(s) {
      WalkFindsOwned(s, path);
      WalkFindsOwned(CopyTree(s), path);
      CopyHolds(s, path);
    }
    forall path | path in OwnedPaths(s) ensures ContentAt(CopyTree(s), path) == ContentAt(s, path) {
      WalkFindsOwned(s, path);
      CopyHolds(s, path);
    }
  }

  /** The walk as it runs: a recursion that adds to one collection, `rel` being the path so far. */
  method Walk(d: Node, rel: seq<Name>, found: set<seq<Name>>) returns (all: set<seq<Name>>)
    ensures all == found + Below(rel, OwnedPaths(d))
    decreases d, 1
  {
    match d {
      case File(_) =>
        assert rel + [] == rel;
        return found + {rel};
      case Link(_) =>
        return found;
      case Dir(entries) =>
        all := WalkEntries(d, rel, found);
    }
  }

  /** Paths below a directory at `rel`. */
  function Below(rel: seq<Name>, paths: set<seq<Name>>): set<seq<Name>> {
    set p | p in paths :: rel + p
  }

  lemma BelowRoot(paths: set<seq<Name>>)
    ensures {} + Below([], paths) == paths
  {
    assert forall p: seq<Name> :: [] + p == p;
  }

  /** What the walk finds in some of the entries of a directory. */
  function OwnedIn(entries: Entries, names: set<Name>): set<seq<Name>> {
    set n, p | n in names && n in entries && !Ignored(n) && p in OwnedPaths(entries[n]) :: [n] + p
  }

  lemma OneMoreEntry(entries: Entries, names: set<Name>, n: Name, rel: seq<Name>)
    requires n in entries
    ensures Below(rel, OwnedIn(entries, names + {n})) ==
            Below(rel, OwnedIn(entries, names)) + if Ignored(n) then {} else Below(rel + [n], OwnedPaths(entries[n]))
  {
    hide OwnedPaths, Ignored;
    var before, after := OwnedIn(entries, names), OwnedIn(entries, names + {n});
    var more := if Ignored(n) then {} else Below(rel + [n], OwnedPaths(entries[n]));
    forall q | q in Below(rel, after) ensures q in Below(rel, before) + more {
      var p :| p in after && q == rel + p;
      var m, t :| m in names + {n} && m in entries && !Ignored(m) && t in OwnedPaths(entries[m]) && p == [m] + t;
      if m in names {
        assert p in before;
      } else {
        assert q == (rel + [n]) + t;
      }
    }
    forall q | q in more ensures q in Below(rel, after) {
      var t :| t in OwnedPaths(entries[n]) && q == (rel + [n]) + t;
      assert [n] + t in after;
      assert q == rel + ([n] + t);
    }
    forall q | q in Below(rel, before) ensures q in Below(rel, after) {
      var p :| p in before && q == rel + p;
      assert p in after;
    }
  }

  lemma AllEntries(d: Node, rel: seq<Name>)
    requires d.Dir?
    ensures Below(rel, OwnedIn(d.entries, d.entries.Keys)) == Below(rel, OwnedPaths(d))
            && Below(rel, OwnedIn(d.entries, {})) == {}
  {
    hide Ignored;
    assert OwnedIn(d.entries, d.entries.Keys) == OwnedPaths(d);
  }

  method WalkEntries(d: Node, rel: seq<Name>, found: set<seq<Name>>) returns (all: set<seq<Name>>)
    requires d.Dir?
    ensures all == found + Below(rel, OwnedPaths(d))
    decreases d, 0
  {
    hide Below, OwnedIn, OwnedPaths, Ignored;
    all := found;
    var todo := d.entries.Keys;
    AllEntries(d, rel);
    assert d.entries.Keys - todo == {};
    while todo != {}
      invariant todo <= d.entries.Keys
      invariant all == found + Below(rel, OwnedIn(d.entries, d.entries.Keys - todo))
      decreases |todo|
    {
      var n :| n in todo;
      OneMoreEntry(d.entries, d.entries.Keys - todo, n, rel);
      assert d.entries.Keys - todo + {n} == d.entries.Keys - (todo - {n});
      todo := todo - {n};
      if !Ignored(n) {
        all := Walk(d.entries[n], rel + [n], all);
      }
    }
    assert d.entries.Keys - {} == d.entries.Keys;
  }

  // ----- staleness, file by file -------------------------------------------------------------

  /** Every shipped file, at a path no part of which is ignored, is there with the same content; other files do not
      matter. */
  ghost predicate HoldsAll(shipped: Node, there: Node) {
    forall p | FileAt(shipped, p) && Owned(p) :: Lookup(there, p) == Lookup(shipped, p)
  }

  /** That is what the comparison of the owned files decides. */
  lemma OwnedAgreeIff(shipped: Node, there: Node)
    ensures (forall p | p in OwnedFiles(shipped) ::
            p in OwnedFiles(there) && OwnedFiles(there)[p] == OwnedFiles(shipped)[p])
            <==> HoldsAll(shipped, there)
  {
    var a, b := OwnedFiles(shipped), OwnedFiles(there);
    forall p
      ensures p in a <==> FileAt(shipped, p) && Owned(p)
      ensures p in a ==> (p in b && b[p] == a[p] <==> Lookup(there, p) == Lookup(shipped, p))
    {
      OwnedIs(shipped, there, p);
    }
    hide OwnedFiles, Owned, FileAt, Lookup;
  }

  lemma OwnedIs(shipped: Node, there: Node, p: seq<Name>)
    ensures var a, b := OwnedFiles(shipped), OwnedFiles(there);
            && (p in a <==> FileAt(shipped, p) && Owned(p))
            && (p in a ==> (p in b && b[p] == a[p] <==> Lookup(there, p) == Lookup(shipped, p)))
  {
    WalkFindsOwned(shipped, p);
    WalkFindsOwned(there, p);
    hide OwnedPaths, Owned, Lookup;
  }
}
