/** Where bundles are staged, and what happens when two of them share a place. */
module InstallPlaces {
  import opened Wrappers
  import opened InstallSpec
  import opened InstallProof
  import opened BundleCopy
  import opened Seqs

  // ----- when staging paths stay apart -------------------------------------------------------

  /** Names and topics hold no slash. */
  predicate Plain(b: Bundle) {
    '/' !in b.name && (Topical(b) ==> '/' !in b.topic.value)
  }

  predicate Flat(b: Bundle) {
    b.kind.Prompt?
  }

  /** The directory a bundle is grouped under, or its own if it is staged flat. */
  function First(b: Bundle): string {
    if Topical(b) then b.topic.value else if Flat(b) then b.name else Group(b.kind)
  }

  /** Staging `a` takes away what `b` has: they share a group and a name, or `a` owns the directory that `b` is grouped
      under. A topical skill clears the flat directory of its name. */
  predicate Clashes(a: Bundle, b: Bundle) {
    || ((Flat(a) || Topical(a)) && First(b) == a.name)
    || (!Flat(a) && !Flat(b) && First(a) == First(b) && a.name == b.name)
  }

  /** A grouped path holds one slash, after the group. */
  lemma Slashes(g: string, n: string)
    requires '/' !in g && '/' !in n
    ensures var p := g + "/" + n;
            && |p| == |g| + 1 + |n| && p[..|g|] == g && p[|g| + 1..] == n
            && (forall i | 0 <= i < |p| :: p[i] == '/' <==> i == |g|)
  {
    NoSlashes(g);
    NoSlashes(n);
  }

  lemma NoSlashes(s: string)
    requires '/' !in s
    ensures forall i | 0 <= i < |s| :: s[i] != '/'
  {
  }

  /** Two grouped paths: if one lies under the other they are the same. */
  lemma GroupedApart(g1: string, n1: string, g2: string, n2: string)
    requires '/' !in g1 && '/' !in g2 && '/' !in n1 && '/' !in n2
    requires Under(g1 + "/" + n1, g2 + "/" + n2)
    ensures g1 == g2 && n1 == n2
  {
    var p, q := g1 + "/" + n1, g2 + "/" + n2;
    Slashes(g1, n1);
    Slashes(g2, n2);
    assert p[..|q|] == q;
    assert p[|g2|] == p[..|q|][|g2|];
    assert |g1| == |g2|;
    assert p == q;
  }

  lemma FlatApart(name: string, dir: Path)
    requires '/' !in name && Under(name, dir)
    ensures name == dir
  {
    NoSlashes(name);
  }

  lemma GroupedUnderFlat(g: string, n: string, name: string)
    requires '/' !in g && '/' !in n && '/' !in name && Under(g + "/" + n, name)
    ensures g == name
  {
    Slashes(g, n);
    NoSlashes(name);
    var p := g + "/" + n;
    assert p != name;
    assert |name| == |g| && p[..|g|] == g;
  }

  lemma FlatIsNotGrouped(g: string, n: string, name: string)
    requires '/' !in g && '/' !in n && '/' !in name
    ensures name != g + "/" + n
  {
    Slashes(g, n);
    NoSlashes(name);
  }

  lemma OptRelIs(b: Bundle)
    requires Plain(b)
    ensures '/' !in First(b) && OptRel(b) == if Flat(b) then b.name else First(b) + "/" + b.name
  {
  }

  /** Whether a bundle lies below a flat directory depends on its group only. */
  lemma UnderFlat(b: Bundle, name: string)
    requires Plain(b) && '/' !in name
    ensures Under(OptRel(b), name) <==> First(b) == name
  {
    OptRelIs(b);
    if Flat(b) {
      if Under(b.name, name) {
        FlatApart(b.name, name);
      }
    } else {
      Slashes(First(b), b.name);
      if Under(OptRel(b), name) {
        GroupedUnderFlat(First(b), b.name, name);
      }
    }
  }

  /** Whether it lies below a grouped one: they are the same place. */
  lemma UnderGrouped(a: Bundle, b: Bundle)
    requires Plain(a) && Plain(b) && !Flat(a)
    ensures Under(OptRel(b), OptRel(a)) <==> !Flat(b) && First(a) == First(b) && a.name == b.name
  {
    OptRelIs(a);
    OptRelIs(b);
    hide OptRel, First, Plain;
    if Under(OptRel(b), OptRel(a)) {
      if Flat(b) {
        FlatApart(b.name, OptRel(a));
        FlatIsNotGrouped(First(a), a.name, b.name);
      } else {
        hide Under;
        GroupedApart(First(b), b.name, First(a), a.name);
      }
    }
  }

  lemma ClashIs(a: Bundle, b: Bundle)
    requires Plain(a) && Plain(b)
    ensures Under(OptRel(b), OptRel(a)) || (Topical(a) && Under(OptRel(b), a.name)) <==> Clashes(a, b)
  {
    UnderFlat(b, a.name);
    if Flat(a) {
      OptRelIs(a);
    } else {
      UnderGrouped(a, b);
    }
    hide OptRel, Under, First;
  }

  /** Staging paths stay apart if and only if no two bundles clash by kind, topic and name. */
  lemma ApartIffNoClash(reg: Registry)
    requires forall s | s in reg.bundles :: Plain(reg.bundles[s])
    ensures Apart(reg) <==> forall a, b | a in reg.bundles && b in reg.bundles && a != b ::
            !Clashes(reg.bundles[a], reg.bundles[b])
  {
    forall a, b | a in reg.bundles && b in reg.bundles
      ensures Clashes(reg.bundles[a], reg.bundles[b]) <==>
              Under(OptRel(reg.bundles[b]), OptRel(reg.bundles[a]))
              || (Topical(reg.bundles[a]) && Under(OptRel(reg.bundles[b]), reg.bundles[a].name))
    {
      ClashIs(reg.bundles[a], reg.bundles[b]);
    }
    hide OptRel, Under, Clashes, Plain, Topical;
  }

  // ----- what staging takes away -------------------------------------------------------------

  /** What lies elsewhere survives, unchanged, unless the bundle is a topical skill and it lies below the flat
      directory of that skill's name; this holds whether or not the staging succeeds. */
  lemma StagingSpares(reg: Registry, st: State, src: Source, p: Path)
    requires src in reg.bundles && p in st.staged && !Under(p, OptRel(reg.bundles[src]))
    ensures var b, t := reg.bundles[src], Stage(reg, st, src).0.staged;
            && (p in t <==> !(Topical(b) && Under(p, b.name)))
            && (p in t ==> t[p] == st.staged[p])
  {
    assert Under(OptRel(reg.bundles[src]), OptRel(reg.bundles[src]));
    hide OptRel, Under, CopyTree;
  }

  /** The naming rules do not cover topics: a topical skill named like a group, whatever its topic, passes them,
      and takes every bundle of that group away. */
  lemma TopicalSkillClearsGroup(reg: Registry, st: State, src: Source, name: string)
    requires src in reg.bundles && Topical(reg.bundles[src]) && Plain(reg.bundles[src])
    requires '/' !in name && reg.bundles[src].topic.value != reg.bundles[src].name
    ensures !Reserved(reg.bundles[src])
    ensures reg.bundles[src].name + "/" + name !in Stage(reg, st, src).0.staged
  {
    var b := reg.bundles[src];
    var p := b.name + "/" + name;
    Slashes(b.topic.value, b.name);
    Slashes(b.name, name);
    assert Under(p, b.name);
    hide OptRel, Under, CopyTree;
  }

  // ----- when two sources share a place ------------------------------------------------------

  /** A bundle without dependencies whose manifest is accepted. */
  predicate Leaf(reg: Registry, s: Source) {
    s in reg.bundles && reg.bundles[s].sound && !Reserved(reg.bundles[s]) && DepsOf(reg.bundles[s]) == []
  }

  /** `top` asks for `a`, then `b`, then `a` again, which share a place without passing for each other. */
  predicate Shared(reg: Registry, top: Source, a: Source, b: Source, x: string, y: string) {
    && Leaf(reg, a) && Leaf(reg, b) && a != b
    && top in reg.bundles && reg.bundles[top].sound && !Reserved(reg.bundles[top])
    && DepsOf(reg.bundles[top]) == [x, y, x] && Resolves(reg, x, a) && Resolves(reg, y, b)
    && OptRel(reg.bundles[a]) == OptRel(reg.bundles[b]) && !Topical(reg.bundles[a]) && !Topical(reg.bundles[b])
    && !Covers(reg, a, b) && !Covers(reg, b, a)
  }

  /** Nothing depends on itself there, however the dependencies are resolved. */
  lemma SharedIsAcyclic(reg: Registry, top: Source, a: Source, b: Source, x: string, y: string)
    requires Shared(reg, top, a, b, x, y) && reg.bundles.Keys == {top, a, b}
    ensures Acyclic(reg, map[a := 0, b := 0, top := 1])
  {
    hide Covers, OptRel, Reserved;
    assert forall dep | dep in [x, y, x] :: dep == x || dep == y;
  }

  lemma LeafInstall(reg: Registry, st: State, s: Source)
    requires Leaf(reg, s)
    ensures Install(reg, st, s) == if s in st.seen then (st, Some(Cycle(s)))
            else Stage(reg, st.(seen := st.seen + {s}), s)
  {
    if s !in st.seen {
      InstallStep(reg, st, s);
      NoDeps(reg, st.(seen := st.seen + {s}));
    }
    hide Stage, Reserved, OptRel;
  }

  /** A link lies where the bundle is to be staged. */
  predicate Blocked(staged: map<Path, Staged>, p: Path) {
    p in staged && staged[p].Link?
  }

  lemma StageIs(reg: Registry, st: State, s: Source)
    requires s in reg.bundles && !Topical(reg.bundles[s])
    ensures var p, r := OptRel(reg.bundles[s]), Stage(reg, st, s);
            && r.0.seen == st.seen
            && (Blocked(st.staged, p) ==> r.1 == Some(LinkInTheWay(p)))
            && (!Blocked(st.staged, p) ==>
                r.1 == None && p in r.0.staged && r.0.staged[p] == Copy(CopyTree(reg.bundles[s].tree)))
  {
    hide OptRel, CopyTree, Under;
  }

  /** Where a copy of the one lies, the other looks stale. */
  lemma OtherIsStale(reg: Registry, staged: map<Path, Staged>, dep: string, s: Source, other: Source)
    requires Resolves(reg, dep, s) && other in reg.bundles && OptRel(reg.bundles[s]) in staged && !Covers(reg, s, other)
    requires staged[OptRel(reg.bundles[s])] == Copy(CopyTree(reg.bundles[other].tree))
    ensures Judge(reg, staged, dep) == Renew(s)
  {
    FreshCopyIsNotStale(reg.bundles[other].tree);
    hide OptRel, FindInstalled, OwnedFiles, CopyTree, Matches;
  }

  /** One dependency on a bundle without dependencies of its own. */
  lemma LeafDep(reg: Registry, st: State, deps: seq<string>, s: Source)
    requires deps != [] && Leaf(reg, s) && Resolves(reg, deps[0], s) && !Topical(reg.bundles[s])
    ensures var p, t := OptRel(reg.bundles[s]), Stage(reg, st.(seen := st.seen + {s}), s).0;
            InstallDeps(reg, st, deps) ==
            if Judge(reg, st.staged, deps[0]) != Renew(s) then InstallDeps(reg, st, deps[1..])
            else if s in st.seen then (st, Some(Cycle(s)))
            else if Blocked(st.staged, p) then (t, Some(LinkInTheWay(p)))
            else InstallDeps(reg, t, deps[1..])
  {
    DepsStep(reg, st, deps);
    LeafInstall(reg, st, s);
    StageIs(reg, st.(seen := st.seen + {s}), s);
    JudgeLeaf(reg, st.staged, deps[0], s);
    hide *;
  }

  lemma JudgeLeaf(reg: Registry, staged: map<Path, Staged>, dep: string, s: Source)
    requires Resolves(reg, dep, s)
    ensures Judge(reg, staged, dep) == Keep || Judge(reg, staged, dep) == Renew(s)
  {
    hide OptRel, FindInstalled, Fresh;
  }

  lemma TopInstall(reg: Registry, st: State, top: Source)
    requires top in reg.bundles && reg.bundles[top].sound && !Reserved(reg.bundles[top]) && top !in st.seen
    ensures var st1 := st.(seen := st.seen + {top});
            var r := InstallDeps(reg, st1, DepsOf(reg.bundles[top]));
            && (r.1.Some? ==> Install(reg, st, top) == r)
            && (r.1.None? ==> var error := Install(reg, st, top).1; error.Some? ==> error.value.LinkInTheWay?)
  {
    InstallStep(reg, st, top);
    StageErrors(reg, InstallDeps(reg, st.(seen := st.seen + {top}), DepsOf(reg.bundles[top])).0, top);
    hide *;
  }

  /** The other side of `NoFalseCycle`: where two sources share a place, the install reports a cycle if and only if
      the first one looks stale and no link bars its place. */
  lemma SharedPlaceLooksLikeACycle(reg: Registry, staged: map<Path, Staged>, top: Source, a: Source, b: Source,
                                   x: string, y: string)
    requires Shared(reg, top, a, b, x, y)
    ensures !Apart(reg)
    ensures Install(reg, State({}, staged, []), top).1 == Some(Cycle(a)) <==>
            Judge(reg, staged, x) == Renew(a) && !Blocked(staged, OptRel(reg.bundles[a]))
  {
    SharedIsNotApart(reg, top, a, b, x, y);
    SharedParts(reg, top, a, b, x, y);
    var st := State({top}, staged, []);
    assert {} + {top} == {top};
    TopInstall(reg, State({}, staged, []), top);
    hide *;
    if Judge(reg, staged, x) == Renew(a) && !Blocked(staged, OptRel(reg.bundles[a])) {
      StaleThenCycle(reg, st, top, a, b, x, y);
    } else {
      FreshThenNone(reg, st, top, a, b, x, y);
    }
  }

  /** The first looks stale and is installed, so the second looks stale, and so does the first again. */
  lemma StaleThenCycle(reg: Registry, st: State, top: Source, a: Source, b: Source, x: string, y: string)
    requires Shared(reg, top, a, b, x, y) && st.seen == {top}
    requires Judge(reg, st.staged, x) == Renew(a) && !Blocked(st.staged, OptRel(reg.bundles[a]))
    ensures InstallDeps(reg, st, [x, y, x]).1 == Some(Cycle(a))
  {
    hide *;
    SharedParts(reg, top, a, b, x, y);
    assert [x, y, x][1..] == [y, x] && [y, x][1..] == [x];
    var p := OptRel(reg.bundles[a]);
    LeafDep(reg, st, [x, y, x], a);
    StageIs(reg, st.(seen := st.seen + {a}), a);
    var s1 := Stage(reg, st.(seen := st.seen + {a}), a).0;
    OtherIsStale(reg, s1.staged, y, b, a);
    LeafDep(reg, s1, [y, x], b);
    NotBlocked(s1.staged, p);
    StageIs(reg, s1.(seen := s1.seen + {b}), b);
    var s2 := Stage(reg, s1.(seen := s1.seen + {b}), b).0;
    OtherIsStale(reg, s2.staged, x, a, b);
    LeafDep(reg, s2, [x], a);
  }

  /** Otherwise the first is installed at most once. */
  lemma FreshThenNone(reg: Registry, st: State, top: Source, a: Source, b: Source, x: string, y: string)
    requires Shared(reg, top, a, b, x, y) && st.seen == {top}
    requires Judge(reg, st.staged, x) != Renew(a) || Blocked(st.staged, OptRel(reg.bundles[a]))
    ensures InstallDeps(reg, st, [x, y, x]).1 != Some(Cycle(a))
  {
    hide *;
    SharedParts(reg, top, a, b, x, y);
    assert [x, y, x][1..] == [y, x] && [y, x][1..] == [x];
    LeafDep(reg, st, [x, y, x], a);
    if Judge(reg, st.staged, x) != Renew(a) {
      LeafDep(reg, st, [y, x], b);
      AgainAtMostOnce(reg, st, x, a);
      StageIs(reg, st.(seen := st.seen + {b}), b);
      AgainAtMostOnce(reg, Stage(reg, st.(seen := st.seen + {b}), b).0, x, a);
    }
  }

  lemma NotBlocked(staged: map<Path, Staged>, p: Path)
    requires p in staged && staged[p].Copy?
    ensures !Blocked(staged, p)
  {
  }

  /** A bundle that was not seen yet is no cycle. */
  lemma AgainAtMostOnce(reg: Registry, st: State, x: string, a: Source)
    requires Leaf(reg, a) && Resolves(reg, x, a) && !Topical(reg.bundles[a]) && a !in st.seen
    ensures InstallDeps(reg, st, [x]).1 != Some(Cycle(a))
  {
    LeafDep(reg, st, [x], a);
    assert [x][1..] == [];
    NoDeps(reg, st);
    NoDeps(reg, Stage(reg, st.(seen := st.seen + {a}), a).0);
    hide *;
  }

  lemma SharedParts(reg: Registry, top: Source, a: Source, b: Source, x: string, y: string)
    requires Shared(reg, top, a, b, x, y)
    ensures Leaf(reg, a) && Leaf(reg, b) && a != b && top != a && top != b
    ensures top in reg.bundles && reg.bundles[top].sound && !Reserved(reg.bundles[top])
    ensures DepsOf(reg.bundles[top]) == [x, y, x] && Resolves(reg, x, a) && Resolves(reg, y, b)
    ensures a in reg.bundles && b in reg.bundles && OptRel(reg.bundles[a]) == OptRel(reg.bundles[b])
    ensures !Topical(reg.bundles[a]) && !Topical(reg.bundles[b]) && !Covers(reg, a, b) && !Covers(reg, b, a)
  {
    hide OptRel, Reserved, Covers;
  }

  lemma SharedIsNotApart(reg: Registry, top: Source, a: Source, b: Source, x: string, y: string)
    requires Shared(reg, top, a, b, x, y)
    ensures !Apart(reg)
  {
    assert Under(OptRel(reg.bundles[b]), OptRel(reg.bundles[a]));
    hide OptRel, Under, Covers, Reserved;
  }

  /** Where a bundle is staged, its copy is all there is: nothing of what lay there or below it before is left. */
  lemma StagingReplaces(reg: Registry, st: State, src: Source)
    requires src in reg.bundles && Stage(reg, st, src).1.None?
    ensures var t, dest := Stage(reg, st, src).0, OptRel(reg.bundles[src]);
            && dest in t.staged && t.staged[dest] == Copy(CopyTree(reg.bundles[src].tree))
            && forall p | p in t.staged && Under(p, dest) :: p == dest
  {
    hide OptRel, CopyTree, Under;
  }
}
