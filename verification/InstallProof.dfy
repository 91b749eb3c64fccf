/** On an acyclic registry an install never reports a cycle and stages each bundle at most once; what it stages is
    current in the end. */
module InstallProof {
  import opened Wrappers
  import opened InstallSpec
  import opened BundleCopy
  import opened Seqs

  type Ranks = map<Source, nat>

  function DepsOf(b: Bundle): seq<string> {
    if HasDeps(b.kind) then b.deps else []
  }

  /** `dep` stands for the source `d` in the registry. */
  predicate Resolves(reg: Registry, dep: string, d: Source) {
    dep in reg.lookup && reg.lookup[dep] == d && d in reg.bundles
  }

  predicate DependsOn(reg: Registry, s: Source, d: Source) {
    s in reg.bundles && d in reg.bundles && exists dep :: dep in DepsOf(reg.bundles[s]) && Resolves(reg, dep, d)
  }

  ghost predicate Acyclic(reg: Registry, rank: Ranks) {
    && (forall s | s in reg.bundles :: s in rank)
    && (forall s, d | DependsOn(reg, s, d) :: rank[d] < rank[s])
  }

  /** No bundle is staged at or below the place of another, or where a topical skill clears up. */
  ghost predicate Apart(reg: Registry) {
    forall a, b | a in reg.bundles && b in reg.bundles && a != b ::
      && !Under(OptRel(reg.bundles[b]), OptRel(reg.bundles[a]))
      && (Topical(reg.bundles[a]) ==> !Under(OptRel(reg.bundles[b]), reg.bundles[a].name))
  }

  /** A copy of `b` would pass for a copy of `a`. */
  predicate Covers(reg: Registry, a: Source, b: Source)
    requires a in reg.bundles && b in reg.bundles
  {
    Matches(OwnedFiles(reg.bundles[a].tree), OwnedFiles(reg.bundles[b].tree))
  }

  predicate Current(reg: Registry, staged: map<Path, Staged>, d: Source) {
    d in reg.bundles && OptRel(reg.bundles[d]) in staged && Fresh(reg, d, staged[OptRel(reg.bundles[d])])
  }

  /** What holds between two steps, whatever was staged before: all that was seen is current by now, except for
      the bundles whose dependencies are being handled, which are `open`. */
  ghost predicate Calm(reg: Registry, st: State, open: set<Source>) {
    && open <= st.seen
    && (forall s :: s in st.installed <==> s in st.seen && s !in open)
    && (forall i, j | 0 <= i < j < |st.installed| :: st.installed[i] != st.installed[j])
    && (forall s | s in st.installed :: Current(reg, st.staged, s))
  }

  // ----- staging one bundle -----------------------------------------------------------------

  /** Staging a bundle leaves everything else in place. */
  lemma StageKeepsCurrent(reg: Registry, st: State, src: Source, d: Source)
    requires src in reg.bundles && Apart(reg) && Stage(reg, st, src).1.None?
    ensures Current(reg, Stage(reg, st, src).0.staged, src)
    ensures Current(reg, st.staged, d) ==> Current(reg, Stage(reg, st, src).0.staged, d)
  {
    assert Under(OptRel(reg.bundles[src]), OptRel(reg.bundles[src]));
    FreshCopyIsNotStale(reg.bundles[src].tree);
    hide OptRel, Under, OwnedFiles, CopyTree;
  }

  lemma StageInstalls(reg: Registry, st: State, src: Source)
    requires src in reg.bundles && Stage(reg, st, src).1.None?
    ensures var t := Stage(reg, st, src).0; t.installed == st.installed + [src] && t.seen == st.seen
  {
  }

  lemma DependsIntro(reg: Registry, s: Source, dep: string)
    requires s in reg.bundles && dep in DepsOf(reg.bundles[s]) && dep in reg.lookup && reg.lookup[dep] in reg.bundles
    ensures DependsOn(reg, s, reg.lookup[dep])
  {
    assert Resolves(reg, dep, reg.lookup[dep]);
  }

  /** Staging the bundle at hand closes it. */
  lemma StageCalm(reg: Registry, st: State, src: Source, open: set<Source>)
    requires Apart(reg) && src in reg.bundles && Calm(reg, st, open + {src}) && src !in open
             && Stage(reg, st, src).1.None?
    ensures var t := Stage(reg, st, src).0; Calm(reg, t, open) && Current(reg, t.staged, src) && src in t.installed
  {
    var t := Stage(reg, st, src).0;
    StageInstalls(reg, st, src);
    StageKeepsCurrent(reg, st, src, src);
    hide Stage, Apart;
    Members(st.installed, [src]);
    forall s | s in t.installed ensures Current(reg, t.staged, s) {
      StageKeepsCurrent(reg, st, src, s);
    }
    hide Current;
  }

  // ----- no false cycle ----------------------------------------------------------------------

  /** The ancestors on the stack all rank above what is handled below them. */
  ghost predicate Above(rank: Ranks, open: set<Source>, src: Source) {
    src in rank ==> forall o | o in open :: o in rank && rank[src] < rank[o]
  }

  /** The ancestors on the stack, `src` itself included. */
  ghost predicate Stack(rank: Ranks, open: set<Source>, src: Source) {
    src in open && src in rank && forall o | o in open :: o in rank && rank[src] <= rank[o]
  }

  lemma BelowStack(rank: Ranks, open: set<Source>, src: Source, next: Source)
    requires Stack(rank, open, src) && (next in rank ==> rank[next] < rank[src])
    ensures Above(rank, open, next)
  {
  }

  lemma OpenRanks(rank: Ranks, open: set<Source>, src: Source)
    requires Above(rank, open, src) && src in rank
    ensures Stack(rank, open + {src}, src)
  {
  }

  /** All dependencies in the list that resolve rank below `src`. */
  ghost predicate AllBelow(reg: Registry, rank: Ranks, deps: seq<string>, src: Source) {
    forall dep | dep in deps && dep in reg.lookup && reg.lookup[dep] in reg.bundles ::
      reg.lookup[dep] in rank && src in rank && rank[reg.lookup[dep]] < rank[src]
  }

  lemma RestBelow(reg: Registry, rank: Ranks, deps: seq<string>, src: Source)
    requires AllBelow(reg, rank, deps, src) && deps != []
    ensures AllBelow(reg, rank, deps[1..], src)
    ensures deps[0] in reg.lookup && reg.lookup[deps[0]] in reg.bundles && src in rank ==>
              reg.lookup[deps[0]] in rank && rank[reg.lookup[deps[0]]] < rank[src]
  {
    assert forall dep | dep in deps[1..] :: dep in deps;
  }

  lemma DepsRankBelow(reg: Registry, rank: Ranks, src: Source)
    requires Acyclic(reg, rank) && src in reg.bundles
    ensures AllBelow(reg, rank, DepsOf(reg.bundles[src]), src)
  {
    forall dep | dep in DepsOf(reg.bundles[src]) && dep in reg.lookup && reg.lookup[dep] in reg.bundles
      ensures rank[reg.lookup[dep]] < rank[src]
    {
      DependsIntro(reg, src, dep);
    }
  }

  /** The checks, then the dependencies, then the bundle itself. */
  lemma InstallStep(reg: Registry, st: State, src: Source)
    requires src !in st.seen
    ensures var r := Install(reg, st, src);
            if src !in reg.bundles || !reg.bundles[src].sound
                || Reserved(reg.bundles[src]) then r == (st, Some(BadManifest(src))) else
              var st1 := st.(seen := st.seen + {src});
              var (st2, error) := InstallDeps(reg, st1, DepsOf(reg.bundles[src]));
              && |Left(reg, st1.seen)| < |Left(reg, st.seen)|
              && r == if error.Some? then (st2, error) else Stage(reg, st2, src)
  {
    LeftShrinks(reg, st.seen, st.seen + {src});
    hide Stage, Reserved, Left, InstallDeps;
  }

  /** The first dependency, then the rest. */
  lemma DepsStep(reg: Registry, st: State, deps: seq<string>)
    requires deps != []
    ensures var v, r := Judge(reg, st.staged, deps[0]), InstallDeps(reg, st, deps);
            && (v.Keep? ==> r == InstallDeps(reg, st, deps[1..]))
            && (v.Missing? ==> r == (st, Some(v.error)) && !v.error.Cycle?)
            && (v.Renew? ==> var n := Install(reg, st, v.src);
                             st.seen <= n.0.seen && r == if n.1.Some? then n else InstallDeps(reg, n.0, deps[1..]))
  {
    MissingIsNoCycle(reg, st.staged, deps[0]);
    hide Judge, Install;
  }

  lemma StageErrors(reg: Registry, st: State, src: Source)
    requires src in reg.bundles
    ensures var error := Stage(reg, st, src).1; error.Some? ==> error.value.LinkInTheWay?
  {
  }

  lemma RenewResolves(reg: Registry, staged: map<Path, Staged>, dep: string)
    ensures var v := Judge(reg, staged, dep);
            v.Renew? ==> dep in reg.lookup && reg.lookup[dep] == v.src && v.src in reg.bundles
  {
  }

  lemma MissingIsNoCycle(reg: Registry, staged: map<Path, Staged>, dep: string)
    ensures var v := Judge(reg, staged, dep); v.Missing? ==> !v.error.Cycle?
  {
  }

  lemma RanksKnown(reg: Registry, rank: Ranks)
    requires Acyclic(reg, rank)
    ensures forall s | s in reg.bundles :: s in rank
  {
  }

  /** A dependency that is to be renewed was not handled before in this install. */
  lemma RenewIsUnseen(reg: Registry, rank: Ranks, st: State, open: set<Source>, dep: string)
    requires Calm(reg, st, open) && Judge(reg, st.staged, dep).Renew?
    requires Acyclic(reg, rank) && Above(rank, open, Judge(reg, st.staged, dep).src)
    ensures var src := Judge(reg, st.staged, dep).src; src !in st.seen && !Current(reg, st.staged, src)
  {
    hide OptRel, FindInstalled, Content;
    var src := Judge(reg, st.staged, dep).src;
    assert !Current(reg, st.staged, src);
  }

  /** The outcome of one recursive call, whatever was staged before. */
  ghost predicate CalmAfter(reg: Registry, r: (State, Option<Error>), open: set<Source>) {
    if r.1.Some? then !r.1.value.Cycle? else Calm(reg, r.0, open)
  }

  /** From here on `src` is one of the open bundles. */
  lemma OpenCalm(reg: Registry, st: State, src: Source, open: set<Source>)
    requires Calm(reg, st, open) && src !in st.seen
    ensures Calm(reg, st.(seen := st.seen + {src}), open + {src}) && src !in open
  {
    hide Current;
  }

  lemma CloseCalm(reg: Registry, st: State, src: Source, open: set<Source>)
    requires Apart(reg) && src in reg.bundles && Calm(reg, st, open + {src}) && src !in open
    ensures var r := Stage(reg, st, src); CalmAfter(reg, r, open) && (r.1.None? ==> src in r.0.installed)
  {
    StageErrors(reg, st, src);
    hide Stage, Calm;
    if Stage(reg, st, src).1.None? {
      StageCalm(reg, st, src, open);
    }
  }

  lemma CalmParts(reg: Registry, r: (State, Option<Error>), open: set<Source>)
    requires CalmAfter(reg, r, open)
    ensures if r.1.Some? then !r.1.value.Cycle? else Calm(reg, r.0, open)
  {
    hide Calm;
  }

  lemma CalmError(reg: Registry, r: (State, Option<Error>), open: set<Source>)
    requires r.1.Some? && !r.1.value.Cycle?
    ensures CalmAfter(reg, r, open)
  {
  }

  lemma {:induction false} InstallIsCalm(reg: Registry, rank: Ranks, st: State, src: Source, open: set<Source>)
    requires Acyclic(reg, rank) && Apart(reg) && Calm(reg, st, open) && src !in st.seen && Above(rank, open, src)
    requires src in reg.bundles ==> src in rank
    ensures var r := Install(reg, st, src); CalmAfter(reg, r, open) && (r.1.None? ==> src in r.0.installed)
    decreases |Left(reg, st.seen)|, 0
  {
    hide *;
    InstallStep(reg, st, src);
    var r := Install(reg, st, src);
    if src in reg.bundles && reg.bundles[src].sound && !Reserved(reg.bundles[src]) {
      var st1 := st.(seen := st.seen + {src});
      var deps := DepsOf(reg.bundles[src]);
      OpenCalm(reg, st, src, open);
      OpenRanks(rank, open, src);
      DepsRankBelow(reg, rank, src);
      InstallDepsIsCalm(reg, rank, st1, deps, open + {src}, src);
      var (st2, error) := InstallDeps(reg, st1, deps);
      CalmParts(reg, (st2, error), open + {src});
      if error.None? {
        CloseCalm(reg, st2, src, open);
      } else {
        CalmError(reg, r, open);
      }
    } else {
      CalmError(reg, r, open);
    }
  }

  lemma {:induction false} InstallDepsIsCalm(reg: Registry, rank: Ranks, st: State, deps: seq<string>,
                                             open: set<Source>, src: Source)
    requires Acyclic(reg, rank) && Apart(reg) && Calm(reg, st, open) && Stack(rank, open, src)
             && AllBelow(reg, rank, deps, src)
    requires src in rank
    ensures CalmAfter(reg, InstallDeps(reg, st, deps), open)
    decreases |Left(reg, st.seen)|, |deps| + 1
  {
    hide *;
    if deps == [] {
      NoDepsCalm(reg, st, open);
    } else {
      var dep, rest := deps[0], deps[1..];
      var v, r := Judge(reg, st.staged, dep), InstallDeps(reg, st, deps);
      DepsStep(reg, st, deps);
      RestBelow(reg, rank, deps, src);
      RenewResolves(reg, st.staged, dep);
      RanksKnown(reg, rank);
      if v.Keep? {
        InstallDepsIsCalm(reg, rank, st, rest, open, src);
      } else if v.Renew? {
        BelowStack(rank, open, src, v.src);
        RenewIsUnseen(reg, rank, st, open, dep);
        InstallIsCalm(reg, rank, st, v.src, open);
        var n := Install(reg, st, v.src);
        CalmParts(reg, n, open);
        if n.1.None? {
          LeftShrinks(reg, st.seen, n.0.seen);
          InstallDepsIsCalm(reg, rank, n.0, rest, open, src);
        } else {
          CalmError(reg, r, open);
        }
      } else {
        CalmError(reg, r, open);
      }
    }
  }

  lemma NoDepsCalm(reg: Registry, st: State, open: set<Source>)
    requires Calm(reg, st, open)
    ensures CalmAfter(reg, InstallDeps(reg, st, []), open)
  {
    hide Calm;
  }

  lemma StartIsCalm(reg: Registry, rank: Ranks, staged: map<Path, Staged>, src: Source)
    ensures Calm(reg, State({}, staged, []), {}) && Above(rank, {}, src)
  {
  }

  /** On an acyclic registry, diamonds included, no install reports a cycle, whatever was staged before. */
  lemma NoFalseCycle(reg: Registry, rank: Ranks, staged: map<Path, Staged>, src: Source)
    requires Acyclic(reg, rank) && Apart(reg)
    ensures var r := Install(reg, State({}, staged, []), src); !(r.1.Some? && r.1.value.Cycle?)
  {
    hide *;
    StartIsCalm(reg, rank, staged, src);
    RanksKnown(reg, rank);
    InstallIsCalm(reg, rank, State({}, staged, []), src, {});
    CalmParts(reg, Install(reg, State({}, staged, []), src), {});
  }

  /** An install that succeeds staged each bundle at most once, the one asked for among them, and all that it staged
      is current in the end, whatever was staged before. */
  lemma StagedOnce(reg: Registry, rank: Ranks, staged: map<Path, Staged>, src: Source)
    requires Acyclic(reg, rank) && Apart(reg) && Install(reg, State({}, staged, []), src).1.None?
    ensures var t := Install(reg, State({}, staged, []), src).0;
            && src in t.installed
            && (forall i, j | 0 <= i < j < |t.installed| :: t.installed[i] != t.installed[j])
            && (forall s | s in t.installed :: Current(reg, t.staged, s))
  {
    hide *;
    StartIsCalm(reg, rank, staged, src);
    RanksKnown(reg, rank);
    InstallIsCalm(reg, rank, State({}, staged, []), src, {});
    CalmParts(reg, Install(reg, State({}, staged, []), src), {});
    CalmMeans(reg, Install(reg, State({}, staged, []), src).0);
  }

  lemma CalmMeans(reg: Registry, t: State)
    requires Calm(reg, t, {})
    ensures forall i, j | 0 <= i < j < |t.installed| :: t.installed[i] != t.installed[j]
    ensures forall s | s in t.installed :: Current(reg, t.staged, s)
  {
    hide Current;
  }

  lemma NoDeps(reg: Registry, st: State)
    ensures InstallDeps(reg, st, []) == (st, None)
  {
  }
}
