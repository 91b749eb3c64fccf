/** What an install stages, it stages after the dependencies it installs; and these are all in place in the end. */
module InstallOrder {
  import opened Wrappers
  import opened InstallSpec
  import opened InstallProof
  import opened BundleCopy
  import opened Seqs

  // ----- manifests ---------------------------------------------------------------------------

  const MANIFEST: seq<string> := ["package.yaml"]

  /** What a bundle is called, and so where it is staged, is read from its manifest. */
  ghost predicate Manifested(reg: Registry) {
    forall a, b | a in reg.bundles && b in reg.bundles ::
      var x, y := OwnedFiles(reg.bundles[a].tree), OwnedFiles(reg.bundles[b].tree);
      MANIFEST in x && (MANIFEST in y && x[MANIFEST] == y[MANIFEST] ==>
          OptRel(reg.bundles[a]) == OptRel(reg.bundles[b]))
  }

  /** A copy of one source never passes for a copy of another. */
  ghost predicate Titled(reg: Registry) {
    forall a, b | a in reg.bundles && b in reg.bundles && Covers(reg, a, b) :: a == b
  }

  lemma TitledByManifest(reg: Registry)
    requires Apart(reg) && Manifested(reg)
    ensures Titled(reg)
  {
    forall a, b | a in reg.bundles && b in reg.bundles && Covers(reg, a, b) ensures a == b {
      assert MANIFEST in OwnedFiles(reg.bundles[a].tree);
      assert Under(OptRel(reg.bundles[b]), OptRel(reg.bundles[a]));
    }
    hide OptRel, OwnedFiles;
  }

  // ----- where a dependency is found -----------------------------------------------------------

  /** `dep` is found where the installer looks for it, and up to date. */
  predicate Satisfied(reg: Registry, staged: map<Path, Staged>, dep: string) {
    dep in reg.lookup && reg.lookup[dep] in reg.bundles && Judge(reg, staged, dep).Keep?
  }

  /** The scan for `name` can come upon `p`. */
  predicate Candidate(reg: Registry, name: string, p: Path) {
    p == name || p in Places(reg.dirs, name)
  }

  function Places(dirs: seq<string>, name: string): seq<Path> {
    if dirs == [] then [] else [dirs[0] + "/" + name] + Places(dirs[1..], name)
  }

  /** It comes upon `p` before it comes upon `c`. */
  predicate Earlier(reg: Registry, name: string, p: Path, c: Path) {
    c != name && (p == name || EarlierIn(reg.dirs, name, p, c))
  }

  predicate EarlierIn(dirs: seq<string>, name: string, p: Path, c: Path) {
    dirs != [] && dirs[0] + "/" + name != c && (dirs[0] + "/" + name == p || EarlierIn(dirs[1..], name, p, c))
  }

  /** Nothing that is staged removes `c` or is found earlier under that name, and no other name stands for `d`. */
  ghost predicate OutOfTheWay(reg: Registry, dep: string, d: Source, c: Path) {
    && (forall e | e in reg.bundles && e != d ::
          && !Under(c, OptRel(reg.bundles[e])) && (Topical(reg.bundles[e]) ==> !Under(c, reg.bundles[e].name))
          && !Earlier(reg, dep, OptRel(reg.bundles[e]), c))
    && (forall other | other in reg.lookup && reg.lookup[other] == d :: other == dep)
  }

  /** A stray copy is one that matches its source, lies elsewhere, and can be found. */
  ghost predicate StraysSafe(reg: Registry, staged: map<Path, Staged>) {
    forall dep, c | dep in reg.lookup && reg.lookup[dep] in reg.bundles && c in staged && Candidate(reg, dep, c)
                    && c != OptRel(reg.bundles[reg.lookup[dep]]) && Fresh(reg, reg.lookup[dep], staged[c]) ::
      OutOfTheWay(reg, dep, reg.lookup[dep], c)
  }

  /** The dependencies of the i-th installed bundle are satisfied and were not installed after it. */
  predicate DepsOk(reg: Registry, staged: map<Path, Staged>, installed: seq<Source>, i: nat)
    requires i < |installed|
  {
    && installed[i] in reg.bundles
    && forall dep | dep in DepsOf(reg.bundles[installed[i]]) && dep in reg.lookup && reg.lookup[dep] in reg.bundles ::
      Satisfied(reg, staged, dep) && reg.lookup[dep] !in installed[i..]
  }

  /** What holds besides when stray copies are out of the way. */
  ghost predicate Inv(reg: Registry, st: State, open: set<Source>) {
    && Calm(reg, st, open)
    && StraysSafe(reg, st.staged)
    && (forall i | 0 <= i < |st.installed| :: DepsOk(reg, st.staged, st.installed, i))
  }

  // ----- staging one bundle ----------------------------------------------------------------------

  lemma KeepIsSatisfied(reg: Registry, staged: map<Path, Staged>, dep: string)
    requires Judge(reg, staged, dep).Keep? && dep in reg.lookup
    ensures reg.lookup[dep] in reg.bundles ==> Satisfied(reg, staged, dep)
  {
    hide Judge;
  }

  lemma CurrentSatisfies(reg: Registry, staged: map<Path, Staged>, dep: string)
    requires dep in reg.lookup && Current(reg, staged, reg.lookup[dep])
    ensures Satisfied(reg, staged, dep)
  {
    hide FindInstalled, Fresh, OptRel;
  }

  /** A satisfied dependency is at its own place, or else a stray copy of it is found. */
  lemma SatisfiedMeans(reg: Registry, staged: map<Path, Staged>, dep: string)
    requires Satisfied(reg, staged, dep)
    ensures var d := reg.lookup[dep];
            Current(reg, staged, d) || (OptRel(reg.bundles[d]) !in staged && FindInstalled(reg, staged, dep).Some?
                                        && Fresh(reg, d, staged[FindInstalled(reg, staged, dep).value]))
  {
    hide FindInstalled, Fresh, OptRel;
  }

  lemma StraySatisfies(reg: Registry, staged: map<Path, Staged>, dep: string)
    requires dep in reg.lookup && reg.lookup[dep] in reg.bundles && OptRel(reg.bundles[reg.lookup[dep]]) !in staged
    requires FindInstalled(reg, staged, dep).Some?
             && Fresh(reg, reg.lookup[dep], staged[FindInstalled(reg, staged, dep).value])
    ensures Satisfied(reg, staged, dep)
  {
    hide FindInstalled, Fresh, OptRel;
  }

  lemma {:induction false} FoundIsPlace(staged: map<Path, Staged>, dirs: seq<string>, name: string)
    ensures var r := FindIn(staged, dirs, name); r.Some? ==> r.value in Places(dirs, name) && r.value in staged
  {
    if dirs != [] {
      FoundIsPlace(staged, dirs[1..], name);
    }
  }

  lemma FoundIsCandidate(reg: Registry, staged: map<Path, Staged>, name: string)
    ensures var r := FindInstalled(reg, staged, name); r.Some? ==> Candidate(reg, name, r.value) && r.value in staged
  {
    FoundIsPlace(staged, reg.dirs, name);
    hide FindIn, Places;
  }

  /** What lies under a directory that goes, goes with it. */
  lemma UnderTrans(p: Path, dir: Path, name: string)
    requires Under(p, dir)
    ensures Under(p + "/" + name, dir)
  {
    var q := p + "/" + name;
    if p == dir {
      assert q[..|dir|] == dir && q[|dir|] == '/';
    } else {
      assert q[..|dir|] == p[..|dir|] && q[|dir|] == p[|dir|];
    }
  }

  /** Where things are after `dest` was staged and `dirs` were cleared: what goes is below one of them. */
  ghost predicate Restaged(before: map<Path, Staged>, after: map<Path, Staged>, dest: Path, gone: iset<Path>) {
    && dest in after
    && (forall p | p != dest :: p in after <==> p in before && p !in gone)
    && (forall p | p in after && p != dest :: after[p] == before[p])
    && (forall p, name | p in gone :: p + "/" + name in gone)
    && dest in gone
  }

  lemma StageShape(reg: Registry, st: State, src: Source) returns (gone: iset<Path>)
    requires src in reg.bundles && Stage(reg, st, src).1.None?
    ensures var b := reg.bundles[src];
            && Restaged(st.staged, Stage(reg, st, src).0.staged, OptRel(b), gone)
            && (forall p | p in gone :: Under(p, OptRel(b)) || (Topical(b) && Under(p, b.name)))
            && Stage(reg, st, src).0.staged[OptRel(b)] == Copy(CopyTree(b.tree))
  {
    var b := reg.bundles[src];
    gone := iset p | Under(p, OptRel(b)) || (Topical(b) && Under(p, b.name));
    assert Under(OptRel(b), OptRel(b));
    forall p, name | p in gone ensures p + "/" + name in gone {
      if Under(p, OptRel(b)) {
        UnderTrans(p, OptRel(b), name);
      } else {
        UnderTrans(p, b.name, name);
      }
    }
    hide OptRel, Under, CopyTree, Topical;
  }

  /** The scan still finds `c`, if `c` stays and what is staged is not found earlier. */
  lemma {:induction false} FindInStays(before: map<Path, Staged>, after: map<Path, Staged>, dest: Path,
                                       gone: iset<Path>,
                                       dirs: seq<string>, name: string, c: Path)
    requires Restaged(before, after, dest, gone) && FindIn(before, dirs, name) == Some(c) && c !in gone
    requires !EarlierIn(dirs, name, dest, c)
    ensures FindIn(after, dirs, name) == Some(c)
  {
    var g := dirs[0];
    var p := g + "/" + name;
    UnderGone(gone, g, name);
    if p == c {
      FoundAt(before, dirs, name, g);
      FoundIsStaged(before, dirs, name);
      assert g !in after && c in after;
    } else {
      assert p in after ==> p != dest && p in before && g in after;
      FindInStays(before, after, dest, gone, dirs[1..], name, c);
    }
  }

  /** A bundle that the scan finds in a group lies in no other bundle. */
  lemma {:induction false} FoundAt(staged: map<Path, Staged>, dirs: seq<string>, name: string, g: string)
    requires FindIn(staged, dirs, name) == Some(g + "/" + name)
    ensures g !in staged
  {
    SameGroup(dirs[0], g, name);
    if !(dirs[0] !in staged && dirs[0] + "/" + name in staged) {
      FoundAt(staged, dirs[1..], name, g);
    }
  }

  lemma SameGroup(g: string, h: string, name: string)
    ensures g + "/" + name == h + "/" + name ==> g == h
  {
    if g + "/" + name == h + "/" + name {
      assert |g| == |h|;
      assert (g + "/" + name)[..|g|] == g && (h + "/" + name)[..|h|] == h;
    }
  }

  lemma UnderGone(gone: iset<Path>, p: Path, name: string)
    requires forall p, name | p in gone :: p + "/" + name in gone
    ensures p in gone ==> p + "/" + name in gone
  {
  }

  lemma FindStays(reg: Registry, before: map<Path, Staged>, after: map<Path, Staged>, dest: Path, gone: iset<Path>,
                  name: string, c: Path)
    requires Restaged(before, after, dest, gone) && FindInstalled(reg, before, name) == Some(c) && c !in gone
    requires !Earlier(reg, name, dest, c)
    ensures FindInstalled(reg, after, name) == Some(c)
  {
    if name != c {
      FindInStays(before, after, dest, gone, reg.dirs, name, c);
    }
    hide FindIn, EarlierIn;
  }

  /** Staging one bundle leaves every satisfied dependency satisfied. */
  lemma StageSatisfies(reg: Registry, st: State, src: Source, dep: string)
    requires src in reg.bundles && Apart(reg) && StraysSafe(reg, st.staged) && Stage(reg, st, src).1.None?
    requires Satisfied(reg, st.staged, dep)
    ensures Satisfied(reg, Stage(reg, st, src).0.staged, dep)
  {
    var d := reg.lookup[dep];
    var t := Stage(reg, st, src).0;
    StageKeepsCurrent(reg, st, src, d);
    SatisfiedMeans(reg, st.staged, dep);
    if Current(reg, t.staged, d) {
      CurrentSatisfies(reg, t.staged, dep);
    } else {
      StrayStays(reg, st, src, dep);
    }
  }

  lemma StrayStays(reg: Registry, st: State, src: Source, dep: string)
    requires src in reg.bundles && Apart(reg) && StraysSafe(reg, st.staged) && Stage(reg, st, src).1.None?
    requires dep in reg.lookup && reg.lookup[dep] in reg.bundles && reg.lookup[dep] != src
    requires OptRel(reg.bundles[reg.lookup[dep]]) !in st.staged && FindInstalled(reg, st.staged, dep).Some?
    requires Fresh(reg, reg.lookup[dep], st.staged[FindInstalled(reg, st.staged, dep).value])
    ensures Satisfied(reg, Stage(reg, st, src).0.staged, dep)
  {
    var d, c := reg.lookup[dep], FindInstalled(reg, st.staged, dep).value;
    var dest, after := OptRel(reg.bundles[src]), Stage(reg, st, src).0.staged;
    FoundIsCandidate(reg, st.staged, dep);
    assert OutOfTheWay(reg, dep, d, c);
    var gone := StageShape(reg, st, src);
    assert Under(dest, dest);
    assert OptRel(reg.bundles[d]) != dest;
    hide Stage, FindInstalled, Candidate, Fresh, OptRel, Under, Earlier, StraysSafe;
    FindStays(reg, st.staged, after, dest, gone, dep, c);
    StraySatisfies(reg, after, dep);
  }

  /** Nothing that is staged is a stray copy of something else, so no stray copy appears. */
  lemma StageStrays(reg: Registry, st: State, src: Source)
    requires src in reg.bundles && Titled(reg) && StraysSafe(reg, st.staged) && Stage(reg, st, src).1.None?
    ensures StraysSafe(reg, Stage(reg, st, src).0.staged)
  {
    FreshCopyIsNotStale(reg.bundles[src].tree);
    var gone := StageShape(reg, st, src);
    var after := Stage(reg, st, src).0.staged;
    hide Stage, OptRel, Under, OwnedFiles, CopyTree, Candidate, OutOfTheWay, Topical;
    forall dep, c | dep in reg.lookup && reg.lookup[dep] in reg.bundles && c in after && Candidate(reg, dep, c)
                    && c != OptRel(reg.bundles[reg.lookup[dep]]) && Fresh(reg, reg.lookup[dep], after[c])
      ensures OutOfTheWay(reg, dep, reg.lookup[dep], c)
    {
      StagedCovers(reg, after, src, reg.lookup[dep], c);
    }
  }

  /** Where `src` was staged, only what `src` covers is fresh. */
  lemma StagedCovers(reg: Registry, after: map<Path, Staged>, src: Source, d: Source, c: Path)
    requires src in reg.bundles && d in reg.bundles && c in after && Fresh(reg, d, after[c])
    requires c == OptRel(reg.bundles[src]) ==> after[c] == Copy(CopyTree(reg.bundles[src].tree))
    ensures c == OptRel(reg.bundles[src]) ==> Covers(reg, d, src)
  {
    FreshCopyIsNotStale(reg.bundles[src].tree);
    hide OptRel, OwnedFiles, CopyTree;
  }

  /** A stray copy is found under one name only, so a source is satisfied under all its names or under none. */
  lemma OneName(reg: Registry, staged: map<Path, Staged>, dep: string, other: string)
    requires StraysSafe(reg, staged) && Satisfied(reg, staged, dep) && Resolves(reg, other, reg.lookup[dep])
    ensures Satisfied(reg, staged, other)
  {
    SatisfiedMeans(reg, staged, dep);
    if Current(reg, staged, reg.lookup[dep]) {
      CurrentSatisfies(reg, staged, other);
    } else {
      FoundIsCandidate(reg, staged, dep);
      assert OutOfTheWay(reg, dep, reg.lookup[dep], FindInstalled(reg, staged, dep).value);
    }
  }

  lemma DepsStay(reg: Registry, st: State, src: Source, i: nat)
    requires src in reg.bundles && Apart(reg) && StraysSafe(reg, st.staged) && Stage(reg, st, src).1.None?
    requires i < |st.installed| && DepsOk(reg, st.staged, st.installed, i) && !DependsOn(reg, st.installed[i], src)
    ensures var t := Stage(reg, st, src).0;
            t.installed == st.installed + [src] && DepsOk(reg, t.staged, t.installed, i)
  {
    var t := Stage(reg, st, src).0;
    StageInstalls(reg, st, src);
    hide Stage, Satisfied, StraysSafe, Apart, DependsOn;
    forall dep | dep in DepsOf(reg.bundles[st.installed[i]]) && dep in reg.lookup && reg.lookup[dep] in reg.bundles
      ensures Satisfied(reg, t.staged, dep) && reg.lookup[dep] !in t.installed[i..]
    {
      var d := reg.lookup[dep];
      StageSatisfies(reg, st, src, dep);
      assert DependsOn(reg, st.installed[i], d) by { DependsIntro(reg, st.installed[i], dep); }
      assert t.installed[i..] == st.installed[i..] + [src];
    }
  }

  /** All dependencies of the bundle at hand are in place. */
  ghost predicate Ready(reg: Registry, staged: map<Path, Staged>, src: Source)
    requires src in reg.bundles
  {
    forall dep | dep in DepsOf(reg.bundles[src]) && dep in reg.lookup && reg.lookup[dep] in reg.bundles ::
        Satisfied(reg, staged, dep)
  }

  lemma StageOk(reg: Registry, rank: Ranks, st: State, src: Source, open: set<Source>)
    requires Acyclic(reg, rank) && Apart(reg) && Titled(reg) && src in reg.bundles
    requires Inv(reg, st, open + {src}) && src !in open && Ready(reg, st.staged, src)
    requires forall i | 0 <= i < |st.installed| :: !DependsOn(reg, st.installed[i], src)
    requires Stage(reg, st, src).1.None?
    ensures Inv(reg, Stage(reg, st, src).0, open)
  {
    var t := Stage(reg, st, src).0;
    StageInstalls(reg, st, src);
    StageStrays(reg, st, src);
    StageCalm(reg, st, src, open);
    hide Stage, Apart, Titled, StraysSafe, Calm;
    forall i | 0 <= i < |t.installed| ensures DepsOk(reg, t.staged, t.installed, i) {
      if i < |st.installed| {
        DepsStay(reg, st, src, i);
      } else {
        LastDeps(reg, rank, st, t, src);
      }
    }
    hide Acyclic, DepsOk, Ready, Current, Satisfied, DependsOn;
  }

  lemma LastDeps(reg: Registry, rank: Ranks, st: State, t: State, src: Source)
    requires Acyclic(reg, rank) && Apart(reg) && StraysSafe(reg, st.staged) && src in reg.bundles
             && Stage(reg, st, src) == (t, None)
    requires Ready(reg, st.staged, src) && t.installed == st.installed + [src]
    ensures DepsOk(reg, t.staged, t.installed, |st.installed|)
  {
    hide Stage, Apart, Satisfied, StraysSafe, DependsOn;
    forall dep | dep in DepsOf(reg.bundles[src]) && dep in reg.lookup && reg.lookup[dep] in reg.bundles
      ensures Satisfied(reg, t.staged, dep) && reg.lookup[dep] !in t.installed[|st.installed|..]
    {
      StageSatisfies(reg, st, src, dep);
      DependsIntro(reg, src, dep);
      assert t.installed[|st.installed|..] == [src];
    }
  }

  // ----- a whole install --------------------------------------------------------------------

  /** No bundle installed so far depends on `src`. */
  ghost predicate Unneeded(reg: Registry, installed: seq<Source>, src: Source) {
    forall i | 0 <= i < |installed| :: !DependsOn(reg, installed[i], src)
  }

  /** Everything installed in between ranks at or below `src`. */
  ghost predicate Lower(rank: Ranks, before: seq<Source>, after: seq<Source>, bound: int) {
    before <= after && forall i | |before| <= i < |after| :: after[i] in rank && rank[after[i]] <= bound
  }

  lemma LowerTrans(rank: Ranks, a: seq<Source>, b: seq<Source>, c: seq<Source>, low: int, bound: int)
    requires Lower(rank, a, b, low) && Lower(rank, b, c, bound) && low <= bound
    ensures Lower(rank, a, c, bound)
  {
  }

  /** A dependency that is to be renewed was not handled before in this install, nor needed under another name. */
  lemma RenewIsNew(reg: Registry, st: State, open: set<Source>, dep: string, rank: Ranks)
    requires Inv(reg, st, open) && Judge(reg, st.staged, dep).Renew?
    requires Acyclic(reg, rank) && Above(rank, open, Judge(reg, st.staged, dep).src)
    ensures var src := Judge(reg, st.staged, dep).src;
            src !in st.seen && Unneeded(reg, st.installed, src) && Resolves(reg, dep, src)
  {
    RenewIsUnseen(reg, rank, st, open, dep);
    RenewResolves(reg, st.staged, dep);
    hide Current, Judge, Calm;
    var src := Judge(reg, st.staged, dep).src;
    forall i | 0 <= i < |st.installed| ensures !DependsOn(reg, st.installed[i], src) {
      assert DepsOk(reg, st.staged, st.installed, i);
      if DependsOn(reg, st.installed[i], src) {
        var other :| other in DepsOf(reg.bundles[st.installed[i]]) && Resolves(reg, other, src);
        assert Satisfied(reg, st.staged, other);
        OneName(reg, st.staged, other, dep);
        assert false;
      }
    }
  }

  ghost predicate ReadyFor(reg: Registry, staged: map<Path, Staged>, deps: seq<string>) {
    forall dep | dep in deps && dep in reg.lookup && reg.lookup[dep] in reg.bundles :: Satisfied(reg, staged, dep)
  }

  /** What is satisfied stays satisfied while other bundles are installed. */
  ghost predicate Keeps(reg: Registry, a: State, b: State) {
    forall dep | Satisfied(reg, a.staged, dep) :: Satisfied(reg, b.staged, dep)
  }

  /** The outcome of one recursive call. */
  ghost predicate Good(reg: Registry, rank: Ranks, before: State, r: (State, Option<Error>), open: set<Source>,
                       bound: int) {
    r.1.None? ==> Inv(reg, r.0, open) && Keeps(reg, before, r.0) && Lower(rank, before.installed, r.0.installed, bound)
  }

  lemma {:induction false} InstallIsGood(reg: Registry, rank: Ranks, st: State, src: Source, open: set<Source>)
    requires Acyclic(reg, rank) && Apart(reg) && Titled(reg) && (src in reg.bundles ==> src in rank)
    requires Inv(reg, st, open) && src !in st.seen && Above(rank, open, src) && Unneeded(reg, st.installed, src)
    ensures src in reg.bundles ==> Good(reg, rank, st, Install(reg, st, src), open, rank[src])
    ensures var r := Install(reg, st, src);
            r.1.None? ==> src in reg.bundles && Current(reg, r.0.staged, src) && src in r.0.installed
    decreases |Left(reg, st.seen)|, 0
  {
    hide *;
    InstallStep(reg, st, src);
    var r := Install(reg, st, src);
    if src in reg.bundles && reg.bundles[src].sound && !Reserved(reg.bundles[src]) {
      var st1 := st.(seen := st.seen + {src});
      var deps := DepsOf(reg.bundles[src]);
      OpenOne(reg, st, src, open);
      OpenRanks(rank, open, src);
      DepsRankBelow(reg, rank, src);
      InstallDepsIsGood(reg, rank, st1, deps, open + {src}, src);
      var (st2, error) := InstallDeps(reg, st1, deps);
      GoodParts(reg, rank, st1, (st2, error), open + {src}, rank[src] as int - 1);
      if error.None? {
        StillUnneeded(reg, rank, st.installed, st2.installed, src);
        SeenIsNotStaged(reg, st, st1, st2);
        CloseOne(reg, rank, st, st2, src, open);
        GoodParts(reg, rank, st, r, open, rank[src]);
      } else {
        GoodError(reg, rank, st, r, open, rank[src]);
      }
    } else if src in reg.bundles {
      GoodError(reg, rank, st, r, open, rank[src]);
    }
  }

  lemma SeenIsNotStaged(reg: Registry, st: State, st1: State, st2: State)
    requires st1 == st.(seen := st1.seen) && Keeps(reg, st1, st2)
    ensures Keeps(reg, st, st2)
  {
  }

  /** From here on `src` is one of the open bundles. */
  lemma OpenOne(reg: Registry, st: State, src: Source, open: set<Source>)
    requires Inv(reg, st, open) && src !in st.seen
    ensures Inv(reg, st.(seen := st.seen + {src}), open + {src}) && src !in open
  {
    hide DepsOk, Current, StraysSafe;
  }

  /** What was installed for the sake of `src` ranks below it, so it cannot need it. */
  lemma StillUnneeded(reg: Registry, rank: Ranks, before: seq<Source>, after: seq<Source>, src: Source)
    requires Acyclic(reg, rank) && src in reg.bundles && src in rank && Unneeded(reg, before, src)
             && Lower(rank, before, after, rank[src] as int - 1)
    ensures Unneeded(reg, after, src)
  {
    hide DependsOn;
    forall i | 0 <= i < |after| ensures !DependsOn(reg, after[i], src) {
      if i < |before| {
        assert after[i] == before[i];
      }
    }
  }

  lemma CloseOne(reg: Registry, rank: Ranks, st: State, st2: State, src: Source, open: set<Source>)
    requires Acyclic(reg, rank) && Apart(reg) && Titled(reg) && src in reg.bundles && src in rank && src !in open
    requires Inv(reg, st2, open + {src}) && Unneeded(reg, st2.installed, src)
             && ReadyFor(reg, st2.staged, DepsOf(reg.bundles[src]))
    requires Keeps(reg, st, st2) && Lower(rank, st.installed, st2.installed, rank[src] as int - 1)
    ensures var r := Stage(reg, st2, src);
            && Good(reg, rank, st, r, open, rank[src])
            && (r.1.None? ==> Current(reg, r.0.staged, src) && src in r.0.installed)
  {
    var r := Stage(reg, st2, src);
    StageErrors(reg, st2, src);
    if r.1.None? {
      assert Ready(reg, st2.staged, src);
      StageOk(reg, rank, st2, src, open);
      StageInstalls(reg, st2, src);
      assert StraysSafe(reg, st2.staged);
      hide Inv, Apart, Titled, DependsOn, Stage, ReadyFor, Ready, StraysSafe, Satisfied;
      forall dep | Satisfied(reg, st.staged, dep) ensures Satisfied(reg, r.0.staged, dep) {
        StageSatisfies(reg, st2, src, dep);
      }
      StageKeepsCurrent(reg, st2, src, src);
      hide Current;
    }
  }

  lemma NothingToDo(reg: Registry, st: State)
    ensures ReadyFor(reg, st.staged, [])
  {
  }

  lemma GoodTrans(reg: Registry, rank: Ranks, a: State, b: State, r: (State, Option<Error>), open: set<Source>,
                  low: int, bound: int)
    requires Keeps(reg, a, b) && Lower(rank, a.installed, b.installed, low) && low <= bound
             && Good(reg, rank, b, r, open, bound)
    ensures Good(reg, rank, a, r, open, bound)
  {
    hide Inv, Keeps, Lower;
    if r.1.None? {
      LowerTrans(rank, a.installed, b.installed, r.0.installed, low, bound);
      KeepsTrans(reg, a, b, r.0);
    }
  }

  lemma GoodNow(reg: Registry, rank: Ranks, st: State, open: set<Source>, bound: int)
    requires Inv(reg, st, open)
    ensures Good(reg, rank, st, (st, None), open, bound)
  {
    hide Inv, Current;
  }

  lemma GoodParts(reg: Registry, rank: Ranks, a: State, r: (State, Option<Error>), open: set<Source>, bound: int)
    requires Good(reg, rank, a, r, open, bound)
    ensures r.1.None? ==> Inv(reg, r.0, open) && Keeps(reg, a, r.0) && Lower(rank, a.installed, r.0.installed, bound)
  {
    hide Inv, Keeps, Lower;
  }

  lemma GoodError(reg: Registry, rank: Ranks, a: State, r: (State, Option<Error>), open: set<Source>, bound: int)
    requires r.1.Some?
    ensures Good(reg, rank, a, r, open, bound)
  {
  }

  lemma {:induction false} InstallDepsIsGood(reg: Registry, rank: Ranks, st: State, deps: seq<string>,
                                             open: set<Source>, src: Source)
    requires Acyclic(reg, rank) && Apart(reg) && Titled(reg) && src in rank
    requires Inv(reg, st, open) && Stack(rank, open, src) && AllBelow(reg, rank, deps, src)
    ensures Good(reg, rank, st, InstallDeps(reg, st, deps), open, rank[src] as int - 1)
    ensures InstallDeps(reg, st, deps).1.None? ==> ReadyFor(reg, InstallDeps(reg, st, deps).0.staged, deps)
    decreases |Left(reg, st.seen)|, |deps| + 1
  {
    hide *;
    if deps == [] {
      NoDeps(reg, st);
      NothingToDo(reg, st);
      GoodNow(reg, rank, st, open, rank[src] as int - 1);
    } else {
      var dep, rest := deps[0], deps[1..];
      var v, r := Judge(reg, st.staged, dep), InstallDeps(reg, st, deps);
      DepsStep(reg, st, deps);
      RestBelow(reg, rank, deps, src);
      RenewResolves(reg, st.staged, dep);
      if v.Keep? {
        InstallDepsIsGood(reg, rank, st, rest, open, src);
        KeptIsGood(reg, rank, st, deps, open, rank[src] as int - 1, r);
      } else if v.Renew? && v.src in rank {
        BelowStack(rank, open, src, v.src);
        RenewIsNew(reg, st, open, dep, rank);
        InstallIsGood(reg, rank, st, v.src, open);
        var n := Install(reg, st, v.src);
        GoodParts(reg, rank, st, n, open, rank[v.src]);
        if n.1.None? {
          LeftShrinks(reg, st.seen, n.0.seen);
          InstallDepsIsGood(reg, rank, n.0, rest, open, src);
          CurrentSatisfies(reg, n.0.staged, dep);
          RenewedIsGood(reg, rank, st, n.0, deps, open, rank[v.src], rank[src] as int - 1, r);
        } else {
          GoodError(reg, rank, st, r, open, rank[src] as int - 1);
        }
      } else {
        GoodError(reg, rank, st, r, open, rank[src] as int - 1);
      }
    }
  }

  lemma KeptIsGood(reg: Registry, rank: Ranks, st: State, deps: seq<string>, open: set<Source>, bound: int,
                   r: (State, Option<Error>))
    requires Inv(reg, st, open) && deps != [] && Judge(reg, st.staged, deps[0]).Keep?
    requires Good(reg, rank, st, r, open, bound) && (r.1.None? ==> ReadyFor(reg, r.0.staged, deps[1..]))
    ensures r.1.None? ==> ReadyFor(reg, r.0.staged, deps)
  {
    hide *;
    GoodParts(reg, rank, st, r, open, bound);
    if deps[0] in reg.lookup {
      KeepIsSatisfied(reg, st.staged, deps[0]);
    }
    ReadyMore(reg, st, r.0, deps, r);
  }

  lemma RenewedIsGood(reg: Registry, rank: Ranks, st: State, mid: State, deps: seq<string>, open: set<Source>,
                      low: int, bound: int,
                      r: (State, Option<Error>))
    requires deps != [] && Satisfied(reg, mid.staged, deps[0])
    requires Keeps(reg, st, mid) && Lower(rank, st.installed, mid.installed, low) && low <= bound
    requires Good(reg, rank, mid, r, open, bound) && (r.1.None? ==> ReadyFor(reg, r.0.staged, deps[1..]))
    ensures Good(reg, rank, st, r, open, bound) && (r.1.None? ==> ReadyFor(reg, r.0.staged, deps))
  {
    hide *;
    GoodTrans(reg, rank, st, mid, r, open, low, bound);
    GoodParts(reg, rank, mid, r, open, bound);
    ReadyMore(reg, mid, r.0, deps, r);
  }

  lemma KeepsTrans(reg: Registry, a: State, b: State, c: State)
    requires Keeps(reg, a, b) && Keeps(reg, b, c)
    ensures Keeps(reg, a, c)
  {
  }

  lemma ReadyMore(reg: Registry, mid: State, after: State, deps: seq<string>, r: (State, Option<Error>))
    requires deps != [] && r.0 == after
             && (r.1.None? ==> Keeps(reg, mid, after) && ReadyFor(reg, after.staged, deps[1..]))
    requires r.1.None? && deps[0] in reg.lookup && reg.lookup[deps[0]] in reg.bundles ==>
             Satisfied(reg, mid.staged, deps[0])
    ensures r.1.None? ==> ReadyFor(reg, after.staged, deps)
  {
    hide Current;
    assert forall dep | dep in deps :: dep == deps[0] || dep in deps[1..];
  }

  // ----- what an install promises ------------------------------------------------------------

  lemma FreshInv(reg: Registry, staged: map<Path, Staged>)
    requires StraysSafe(reg, staged)
    ensures Inv(reg, State({}, staged, []), {})
  {
    hide StraysSafe;
  }

  lemma NobodyYet(reg: Registry, rank: Ranks, src: Source)
    ensures Above(rank, {}, src) && Unneeded(reg, [], src)
  {
  }

  /** Each bundle was staged at most once and is current; its dependencies that the registry knows are found where
      the installer looks for them, up to date, and were not staged after it. */
  ghost predicate Promised(reg: Registry, t: State) {
    && (forall i, j | 0 <= i < j < |t.installed| :: t.installed[i] != t.installed[j])
    && (forall s | s in t.installed :: Current(reg, t.staged, s))
    && (forall i | 0 <= i < |t.installed| :: DepsOk(reg, t.staged, t.installed, i))
  }

  lemma InvPromise(reg: Registry, t: State)
    requires Inv(reg, t, {})
    ensures Promised(reg, t)
  {
    hide Current, StraysSafe, DepsOk;
  }

  /** What an install that succeeds leaves behind, as long as stray copies are out of the way: the bundle itself is
      among those it staged. */
  lemma InstallPromise(reg: Registry, rank: Ranks, staged: map<Path, Staged>, src: Source)
    requires Acyclic(reg, rank) && Apart(reg) && Manifested(reg) && StraysSafe(reg, staged)
    requires Install(reg, State({}, staged, []), src).1.None?
    ensures var t := Install(reg, State({}, staged, []), src).0; src in t.installed && Promised(reg, t)
  {
    TitledByManifest(reg);
    hide *;
    var st := State({}, staged, []);
    RanksKnown(reg, rank);
    FreshInv(reg, staged);
    NobodyYet(reg, rank, src);
    InstallIsGood(reg, rank, st, src, {});
    GoodParts(reg, rank, st, Install(reg, st, src), {}, rank[src]);
    InvPromise(reg, Install(reg, st, src).0);
  }

  // ----- dependencies the registry does not know -----------------------------------------------

  /** Something is staged under that name, flat or in a group that is no bundle itself. */
  predicate Somewhere(reg: Registry, staged: map<Path, Staged>, name: string) {
    name in staged || exists g :: g in reg.dirs && g !in staged && g + "/" + name in staged
  }

  lemma {:induction false} FoundIffThere(staged: map<Path, Staged>, dirs: seq<string>, name: string)
    ensures FindIn(staged, dirs, name).Some? <==> exists g :: g in dirs && g !in staged && g + "/" + name in staged
  {
    if dirs != [] {
      FoundIffThere(staged, dirs[1..], name);
      if g :| g in dirs && g !in staged && g + "/" + name in staged {
        assert g == dirs[0] || g in dirs[1..];
      }
      if g :| g in dirs[1..] && g !in staged && g + "/" + name in staged {
        assert g in dirs;
      }
      assert dirs[0] in dirs;
    }
  }

  /** A dependency that the registry does not know is left alone if something of that name is staged, and otherwise the
      install fails, with everything installed so far in place. */
  lemma UnknownDependency(reg: Registry, st: State, deps: seq<string>)
    requires deps != [] && deps[0] !in reg.lookup
    ensures InstallDeps(reg, st, deps) == if Somewhere(reg, st.staged, deps[0]) then InstallDeps(reg, st, deps[1..])
                                          else (st, Some(NotFound(deps[0])))
  {
    FoundIffThere(st.staged, reg.dirs, deps[0]);
    hide FindIn, Install;
  }

  /** A staged copy is current if and only if every file the source ships, at a path no part of which is ignored, is
      there with the same content; a link is current if it leads to that source, or to one that ships the same. */
  lemma CurrentIffFilesAgree(reg: Registry, src: Source, s: Staged)
    requires src in reg.bundles
    ensures s.Copy? ==> (Fresh(reg, src, s) <==> HoldsAll(reg.bundles[src].tree, s.tree))
    ensures s.Link? && s.to == src ==> Fresh(reg, src, s)
    ensures s.Link? && s.to != src && s.to in reg.bundles ==>
              (Fresh(reg, src, s) <==> HoldsAll(reg.bundles[src].tree, reg.bundles[s.to].tree))
  {
    match s
    case Copy(tree) => OwnedAgreeIff(reg.bundles[src].tree, tree); hide OwnedFiles, HoldsAll;
    case Link(to) =>
      if to in reg.bundles {
        OwnedAgreeIff(reg.bundles[src].tree, reg.bundles[to].tree);
      }
      hide OwnedFiles, HoldsAll;
  }

  /** Binaries, drivers, PAIs and subagents have their dependencies resolved; skills, prompts and libraries do not. */
  lemma DepsByKind(b: Bundle)
    ensures b.kind.Bin? || b.kind.Driver? || b.kind.Pai? || b.kind.Subagent? ==> DepsOf(b) == b.deps
    ensures b.kind.Skill? || b.kind.Prompt? || b.kind.Lib? ==> DepsOf(b) == []
  {
  }

  /** A dependency whose source has no readable manifest ends the install, whatever is staged. */
  lemma BrokenDependency(reg: Registry, st: State, deps: seq<string>)
    requires deps != [] && deps[0] in reg.lookup && reg.lookup[deps[0]] !in reg.bundles
    ensures InstallDeps(reg, st, deps) == (st, Some(BadManifest(reg.lookup[deps[0]])))
  {
    hide FindInstalled, Install;
  }
}
