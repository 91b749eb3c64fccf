/** Why a stray copy must be out of the way: an old flat copy satisfies one bundle, is replaced by another, and its
    source is then staged after the bundle that needed it. */
module InstallStray {
  import opened Wrappers
  import opened InstallSpec
  import opened InstallProof
  import opened InstallOrder
  import opened InstallPlaces
  import opened BundleCopy
  import Trees

  /** `t` needs `x`, the prompt `p` and `y`; `x` and `y` need `d`; the prompt is staged flat, under the name `d`. */
  ghost predicate Crossed(reg: Registry, t: Source, x: Source, p: Source, y: Source, d: Source) {
    && Usable(reg, t) && Usable(reg, x) && Leaf(reg, p) && Usable(reg, y) && Leaf(reg, d)
    && t != x && t != p && t != y && t != d && x != p && x != y && x != d && p != y && p != d && y != d
    && DepsOf(reg.bundles[t]) == [x, p, y] && DepsOf(reg.bundles[x]) == [d] && DepsOf(reg.bundles[y]) == [d]
    && Named(reg, x) && Named(reg, p) && Named(reg, y) && Named(reg, d)
    && !Topical(reg.bundles[p]) && !Topical(reg.bundles[d]) && OptRel(reg.bundles[p]) == d
  }

  /** The bundle passes the checks and clears nothing but its own place. */
  predicate Usable(reg: Registry, s: Source) {
    s in reg.bundles && reg.bundles[s].sound && !Reserved(reg.bundles[s]) && !Topical(reg.bundles[s])
  }

  predicate Named(reg: Registry, s: Source) {
    s in reg.lookup && reg.lookup[s] == s
  }

  // ----- staging trees that hold copies of bundles -------------------------------------------------

  function CopyOf(reg: Registry, s: Source): Staged
    requires s in reg.bundles
  {
    Copy(CopyTree(reg.bundles[s].tree))
  }

  /** Which bundle each entry is a copy of; every entry lies where some bundle is staged. */
  ghost predicate Holds(reg: Registry, staged: map<Path, Staged>, who: map<Path, Source>) {
    && staged.Keys == who.Keys
    && (forall q | q in who :: who[q] in reg.bundles && staged[q] == CopyOf(reg, who[q]))
    && (forall q | q in who :: IsPlace(reg, q))
  }

  /** Some bundle is staged there. */
  ghost predicate IsPlace(reg: Registry, q: Path) {
    exists e :: e in reg.bundles && OptRel(reg.bundles[e]) == q
  }

  /** A copy is fresh for its own source only. */
  lemma FreshIff(reg: Registry, s: Source, z: Source)
    requires Titled(reg) && s in reg.bundles && z in reg.bundles
    ensures Fresh(reg, s, CopyOf(reg, z)) <==> s == z
  {
    FreshCopyIsNotStale(reg.bundles[z].tree);
    hide OwnedFiles, CopyTree;
    assert Covers(reg, s, z) <==> s == z;
  }

  /** Clearing a place takes nothing else away. */
  lemma ClearsOnly(reg: Registry, q: Path, src: Source)
    requires Apart(reg) && src in reg.bundles && IsPlace(reg, q) && q != OptRel(reg.bundles[src])
    ensures !Under(q, OptRel(reg.bundles[src]))
  {
    hide OptRel, Under;
    var e :| e in reg.bundles && OptRel(reg.bundles[e]) == q;
  }

  lemma Replaces(reg: Registry, staged: map<Path, Staged>, who: map<Path, Source>, src: Source)
    requires Apart(reg) && Holds(reg, staged, who) && src in reg.bundles
    ensures var dest := OptRel(reg.bundles[src]);
            RemoveTree(staged, dest)[dest := CopyOf(reg, src)] == staged[dest := CopyOf(reg, src)]
  {
    hide OptRel, Under, CopyTree, Apart, CopyOf, IsPlace;
    forall q | q in staged && q != OptRel(reg.bundles[src]) ensures !Under(q, OptRel(reg.bundles[src])) {
      ClearsOnly(reg, q, src);
    }
  }

  lemma HoldsMore(reg: Registry, staged: map<Path, Staged>, who: map<Path, Source>, src: Source)
    requires Holds(reg, staged, who) && src in reg.bundles
    ensures var dest := OptRel(reg.bundles[src]); Holds(reg, staged[dest := CopyOf(reg, src)], who[dest := src])
  {
    hide OptRel, CopyOf;
    assert IsPlace(reg, OptRel(reg.bundles[src]));
    hide IsPlace;
  }

  lemma NoLinks(reg: Registry, staged: map<Path, Staged>, who: map<Path, Source>, q: Path)
    requires Holds(reg, staged, who) && q in staged
    ensures staged[q].Copy?
  {
    hide IsPlace, CopyTree;
  }

  lemma StageAdds(reg: Registry, st: State, who: map<Path, Source>, src: Source)
    requires Apart(reg) && Holds(reg, st.staged, who) && src in reg.bundles && !Topical(reg.bundles[src])
    ensures var dest, r := OptRel(reg.bundles[src]), Stage(reg, st, src);
            && r.0.seen == st.seen && r.0.installed == st.installed + [src] && r.1 == None
            && Holds(reg, r.0.staged, who[dest := src])
  {
    var dest := OptRel(reg.bundles[src]);
    Replaces(reg, st.staged, who, src);
    HoldsMore(reg, st.staged, who, src);
    if dest in st.staged {
      NoLinks(reg, st.staged, who, dest);
    }
    hide Holds, Apart, OptRel, RemoveTree, CopyTree, Topical;
  }

  /** No entry is a copy of `s`. */
  ghost predicate Spares(who: map<Path, Source>, s: Source) {
    forall q | q in who :: who[q] != s
  }

  lemma SparesMore(who: map<Path, Source>, s: Source, q: Path, z: Source)
    requires Spares(who, s) && s != z
    ensures Spares(who[q := z], s)
  {
  }

  /** A bundle that nothing is a copy of is to be installed, whatever the scan finds under its name. */
  lemma JudgeNew(reg: Registry, staged: map<Path, Staged>, who: map<Path, Source>, s: Source)
    requires Titled(reg) && Holds(reg, staged, who) && s in reg.bundles && Named(reg, s) && Spares(who, s)
    ensures Judge(reg, staged, s) == Renew(s)
  {
    var c := InstalledCopy(reg, staged, s, s);
    hide InstalledCopy, Fresh, CopyTree, Titled, OptRel, IsPlace;
    if c.Some? {
      FreshIff(reg, s, who[c.value]);
    }
  }

  /** While nothing is staged where `s` belongs, it is judged by what lies flat under its name. */
  lemma JudgeFlat(reg: Registry, staged: map<Path, Staged>, who: map<Path, Source>, s: Source)
    requires Titled(reg) && Holds(reg, staged, who) && s in reg.bundles && Named(reg, s)
    requires OptRel(reg.bundles[s]) !in who && s in who
    ensures Judge(reg, staged, s) == if who[s] == s then Keep else Renew(s)
  {
    FreshIff(reg, s, who[s]);
    hide Fresh, CopyTree, Titled, OptRel, IsPlace;
    assert InstalledCopy(reg, staged, s, s) == Some(s);
  }

  // ----- the install, bundle by bundle -----------------------------------------------------------

  lemma UsableParts(reg: Registry, s: Source)
    requires Usable(reg, s)
    ensures s in reg.bundles && reg.bundles[s].sound && !Reserved(reg.bundles[s]) && !Topical(reg.bundles[s])
  {
  }

  /** The four places, in the order in which they are filled. */
  lemma PlacesDiffer(reg: Registry, t: Source, x: Source, p: Source, y: Source, d: Source)
    requires Crossed(reg, t, x, p, y, d) && Apart(reg)
    ensures var X, Y, D := OptRel(reg.bundles[x]), OptRel(reg.bundles[y]), OptRel(reg.bundles[d]);
            X != Y && X != D && Y != D && X != d && Y != d && D != d
  {
    PlaceApart(reg, x, y);
    PlaceApart(reg, x, d);
    PlaceApart(reg, y, d);
    PlaceApart(reg, x, p);
    PlaceApart(reg, y, p);
    PlaceApart(reg, d, p);
    hide Usable, Leaf, OptRel, Apart;
  }

  lemma PlaceApart(reg: Registry, a: Source, b: Source)
    requires Apart(reg) && a in reg.bundles && b in reg.bundles && a != b
    ensures OptRel(reg.bundles[a]) != OptRel(reg.bundles[b])
  {
    hide OptRel;
  }

  /** A dependency of one bundle is satisfied, so only the bundle itself is staged. */
  lemma InstallOver(reg: Registry, st: State, who: map<Path, Source>, x: Source, d: Source)
    requires Apart(reg) && Usable(reg, x) && x !in st.seen && DepsOf(reg.bundles[x]) == [d]
    requires Holds(reg, st.staged, who) && Judge(reg, st.staged, d) == Keep
    ensures var r := Install(reg, st, x);
            && r.1 == None && r.0.seen == st.seen + {x} && r.0.installed == st.installed + [x]
            && Holds(reg, r.0.staged, who[OptRel(reg.bundles[x]) := x])
  {
    hide *;
    UsableParts(reg, x);
    var st1 := st.(seen := st.seen + {x});
    InstallStep(reg, st, x);
    DepsStep(reg, st1, [d]);
    NoDeps(reg, st1);
    assert [d][1..] == [];
    StageAdds(reg, st1, who, x);
  }

  /** A bundle without dependencies takes its place. */
  lemma InstallLeaf(reg: Registry, st: State, who: map<Path, Source>, p: Source)
    requires Apart(reg) && Leaf(reg, p) && !Topical(reg.bundles[p]) && p !in st.seen && Holds(reg, st.staged, who)
    ensures var r := Install(reg, st, p);
            && r.1 == None && r.0.seen == st.seen + {p} && r.0.installed == st.installed + [p]
            && Holds(reg, r.0.staged, who[OptRel(reg.bundles[p]) := p])
  {
    LeafInstall(reg, st, p);
    StageAdds(reg, st.(seen := st.seen + {p}), who, p);
    hide Install, Stage, Holds, OptRel, Topical, Apart;
  }

  /** The one dependency is installed first. */
  lemma InstallAfter(reg: Registry, st: State, who: map<Path, Source>, y: Source, d: Source)
    requires Apart(reg) && Usable(reg, y) && Leaf(reg, d) && !Topical(reg.bundles[d]) && DepsOf(reg.bundles[y]) == [d]
    requires Holds(reg, st.staged, who) && y !in st.seen && d !in st.seen && y != d
             && Judge(reg, st.staged, d) == Renew(d)
    ensures var r := Install(reg, st, y);
            && r.1 == None && r.0.seen == st.seen + {y} + {d} && r.0.installed == st.installed + [d] + [y]
            && Holds(reg, r.0.staged, who[OptRel(reg.bundles[d]) := d][OptRel(reg.bundles[y]) := y])
  {
    hide *;
    UsableParts(reg, y);
    var st1 := st.(seen := st.seen + {y});
    InstallStep(reg, st, y);
    DepsStep(reg, st1, [d]);
    InstallLeaf(reg, st1, who, d);
    var st2 := Install(reg, st1, d).0;
    NoDeps(reg, st2);
    assert [d][1..] == [];
    StageAdds(reg, st2, who[OptRel(reg.bundles[d]) := d], y);
  }

  /** What is known of the five, without looking into them. */
  lemma CrossedParts(reg: Registry, t: Source, x: Source, p: Source, y: Source, d: Source)
    requires Crossed(reg, t, x, p, y, d)
    ensures Usable(reg, t) && Usable(reg, x) && Leaf(reg, p) && Usable(reg, y) && Leaf(reg, d)
    ensures t in reg.bundles && x in reg.bundles && p in reg.bundles && y in reg.bundles && d in reg.bundles
    ensures DepsOf(reg.bundles[t]) == [x, p, y] && DepsOf(reg.bundles[x]) == [d] && DepsOf(reg.bundles[y]) == [d]
    ensures Named(reg, x) && Named(reg, p) && Named(reg, y) && Named(reg, d)
    ensures !Topical(reg.bundles[p]) && !Topical(reg.bundles[d]) && OptRel(reg.bundles[p]) == d
    ensures t != x && t != p && t != y && t != d && x != p && x != y && x != d && p != y && p != d && y != d
  {
    hide Reserved, Topical, OptRel, DepsOf, Named;
  }

  /** What was staged, seen and installed after the three dependencies of `t`. */
  ghost predicate Before(reg: Registry, r: (State, Option<Error>), x: Source, p: Source, y: Source, d: Source) {
    r.1 == None && r.0.installed == [x, p, d, y] && Copies(reg, r.0.staged)
  }

  ghost predicate Copies(reg: Registry, staged: map<Path, Staged>) {
    exists who :: Holds(reg, staged, who)
  }

  lemma DepsInOrder(reg: Registry, st: State, t: Source, x: Source, p: Source, y: Source, d: Source)
    requires Crossed(reg, t, x, p, y, d) && Apart(reg) && Titled(reg)
    requires st.seen == {t} && st.installed == [] && Holds(reg, st.staged, map[d := d])
    ensures Before(reg, InstallDeps(reg, st, [x, p, y]), x, p, y, d)
  {
    hide *;
    PlacesDiffer(reg, t, x, p, y, d);
    CrossedParts(reg, t, x, p, y, d);
    var who: map<Path, Source> := map[d := d];
    SparesOne(d, x);
    SparesOne(d, y);
    SparesOne(d, p);
    var X := OptRel(reg.bundles[x]);
    JudgeNew(reg, st.staged, who, x);
    JudgeFlat(reg, st.staged, who, d);
    InstallOver(reg, st, who, x, d);
    SparesMore(who, y, X, x);
    SparesMore(who, p, X, x);
    DepsStep(reg, st, [x, p, y]);
    LastTwo(reg, Install(reg, st, x).0, t, x, p, y, d, who[X := x]);
    assert [x, p, y][1..] == [p, y];
    FourInOrder(x, p, d, y);
    BeforeIntro(reg, InstallDeps(reg, st, [x, p, y]), x, p, y, d);
  }

  lemma SparesOne(d: Source, s: Source)
    requires s != d
    ensures Spares(map[d := d], s)
  {
  }

  lemma FourInOrder(x: Source, p: Source, d: Source, y: Source)
    ensures [] + [x] + [p] + [d] + [y] == [x, p, d, y]
  {
  }

  lemma BeforeIntro(reg: Registry, r: (State, Option<Error>), x: Source, p: Source, y: Source, d: Source)
    requires r.1 == None && r.0.installed == [x, p, d, y] && Copies(reg, r.0.staged)
    ensures Before(reg, r, x, p, y, d)
  {
  }

  lemma LastTwo(reg: Registry, st: State, t: Source, x: Source, p: Source, y: Source, d: Source, who: map<Path, Source>)
    requires Crossed(reg, t, x, p, y, d) && Apart(reg) && Titled(reg)
    requires st.seen == {t} + {x} && Holds(reg, st.staged, who) && Spares(who, p) && Spares(who, y)
    requires OptRel(reg.bundles[d]) !in who && OptRel(reg.bundles[d]) != d
    ensures var r := InstallDeps(reg, st, [p, y]);
            r.1 == None && r.0.installed == st.installed + [p] + [d] + [y] && Copies(reg, r.0.staged)
  {
    hide *;
    CrossedParts(reg, t, x, p, y, d);
    JudgeNew(reg, st.staged, who, p);
    InstallLeaf(reg, st, who, p);
    var st1, who1 := Install(reg, st, p).0, who[d := p];
    SparesMore(who, y, d, p);
    JudgeNew(reg, st1.staged, who1, y);
    JudgeFlat(reg, st1.staged, who1, d);
    InstallAfter(reg, st1, who1, y, d);
    var st2 := Install(reg, st1, y).0;
    DepsStep(reg, st, [p, y]);
    DepsStep(reg, st1, [y]);
    NoDeps(reg, st2);
    assert [p, y][1..] == [y] && [y][1..] == [];
    CopiesIntro(reg, st2.staged, who1[OptRel(reg.bundles[d]) := d][OptRel(reg.bundles[y]) := y]);
  }

  lemma CopiesIntro(reg: Registry, staged: map<Path, Staged>, who: map<Path, Source>)
    requires Holds(reg, staged, who)
    ensures Copies(reg, staged)
  {
  }

  lemma FlatCopy(reg: Registry, p: Source, d: Source)
    requires p in reg.bundles && d in reg.bundles && OptRel(reg.bundles[p]) == d
    ensures Holds(reg, map[d := CopyOf(reg, d)], map[d := d])
  {
    hide OptRel, CopyOf;
    assert IsPlace(reg, d);
    hide IsPlace;
  }

  lemma BeforeParts(reg: Registry, r: (State, Option<Error>), x: Source, p: Source, y: Source, d: Source)
    requires Before(reg, r, x, p, y, d)
    ensures r.1 == None && r.0.installed == [x, p, d, y] && Copies(reg, r.0.staged)
  {
  }

  lemma StageOver(reg: Registry, st: State, t: Source)
    requires Apart(reg) && t in reg.bundles && !Topical(reg.bundles[t]) && Copies(reg, st.staged)
    ensures var r := Stage(reg, st, t); r.0.installed == st.installed + [t] && r.1 == None
  {
    hide Apart, OptRel, Topical, Holds, Stage;
    var who :| Holds(reg, st.staged, who);
    StageAdds(reg, st, who, t);
  }

  /** The bundle itself comes last. */
  lemma ThenItself(reg: Registry, st: State, t: Source, x: Source, p: Source, y: Source, d: Source)
    requires Crossed(reg, t, x, p, y, d) && Apart(reg) && t !in st.seen
    requires Before(reg, InstallDeps(reg, st.(seen := st.seen + {t}), [x, p, y]), x, p, y, d)
    ensures var r := Install(reg, st, t); r.1 == None && r.0.installed == [x, p, d, y, t]
  {
    hide *;
    CrossedParts(reg, t, x, p, y, d);
    UsableParts(reg, t);
    InstallStep(reg, st, t);
    var st2 := InstallDeps(reg, st.(seen := st.seen + {t}), [x, p, y]).0;
    BeforeParts(reg, InstallDeps(reg, st.(seen := st.seen + {t}), [x, p, y]), x, p, y, d);
    StageOver(reg, st2, t);
    assert [x, p, d, y] + [t] == [x, p, d, y, t];
  }

  /** A bundle that is staged before its dependency. */
  lemma TooEarly(reg: Registry, t: State, x: Source, d: Source)
    requires x in reg.bundles && d in reg.bundles && Named(reg, d) && DepsOf(reg.bundles[x]) == [d]
    requires |t.installed| >= 3 && t.installed[0] == x && t.installed[2] == d
    ensures !DepsOk(reg, t.staged, t.installed, 0) && !Promised(reg, t)
  {
    hide Satisfied, DepsOf, Current;
    assert d in DepsOf(reg.bundles[x]) && t.installed[0..][2] == d;
  }

  /** In every such registry, however well ordered, an old flat copy of `d` makes the install of `t` stage `x` before
      its dependency `d`. The install succeeds. */
  lemma StrayCopyBreaksTheOrder(reg: Registry, t: Source, x: Source, p: Source, y: Source, d: Source)
    requires Crossed(reg, t, x, p, y, d) && Apart(reg) && Manifested(reg)
    ensures d in reg.bundles
    ensures var (end, error) := Install(reg, State({}, map[d := CopyOf(reg, d)], []), t);
            error == None && end.installed == [x, p, d, y, t] && !DepsOk(reg, end.staged, end.installed, 0)
                && !Promised(reg, end)
  {
    hide *;
    TitledByManifest(reg);
    CrossedParts(reg, t, x, p, y, d);
    FlatCopy(reg, p, d);
    var st := State({}, map[d := CopyOf(reg, d)], []);
    assert {} + {t} == {t};
    DepsInOrder(reg, st.(seen := st.seen + {t}), t, x, p, y, d);
    ThenItself(reg, st, t, x, p, y, d);
    TooEarly(reg, Install(reg, st, t).0, x, d);
  }

  // ----- such a registry ----------------------------------------------------------------------------

  /** A bundle whose one file is its manifest. */
  function Tree(content: string): Trees.Node {
    Trees.Dir(map["package.yaml" := Trees.File(content)])
  }

  function Shipped(s: Source): Bundle {
    Bundle(if s == "p" then "d" else s, if s == "p" then Prompt else Bin, None,
           if s == "t" then ["x", "p", "y"] else if s == "x" || s == "y" then ["d"] else [], Tree(s), true)
  }

  predicate IsOne(s: Source) {
    s == "t" || s == "x" || s == "p" || s == "y" || s == "d"
  }

  function CrossedRegistry(): (reg: Registry)
    ensures forall s :: s in reg.bundles <==> IsOne(s)
  {
    Registry(map["x" := "x", "p" := "p", "y" := "y", "d" := "d"],
             map s | s in {"t", "x", "p", "y", "d"} && IsOne(s) :: Shipped(s), ["bin"])
  }

  function CrossedRanks(): Ranks {
    map["t" := 2, "x" := 1, "p" := 0, "y" := 1, "d" := 0]
  }

  lemma ShippedIs(s: Source)
    requires IsOne(s)
    ensures OptRel(Shipped(s)) == (if s == "p" then "d" else "bin" + "/" + s) && !Topical(Shipped(s))
    ensures DepsOf(Shipped(s)) == if s == "t" then ["x", "p", "y"] else if s == "x" || s == "y" then ["d"] else []
  {
    hide Tree;
  }

  lemma NotReserved(s: Source)
    requires IsOne(s)
    ensures !Reserved(Shipped(s))
  {
    hide Tree, Topical;
    assert s != "p" ==> ("bin" + "/" + s)[3] == '/';
  }

  lemma InRegistry(s: Source)
    requires IsOne(s)
    ensures s in CrossedRegistry().bundles && CrossedRegistry().bundles[s] == Shipped(s) && Usable(CrossedRegistry(), s)
    ensures s != "t" ==> Named(CrossedRegistry(), s)
  {
    ShippedIs(s);
    NotReserved(s);
    hide Tree, OptRel, Topical, Reserved, DepsOf;
  }

  lemma ManifestIs(s: Source)
    ensures MANIFEST in OwnedFiles(Tree(s)) && OwnedFiles(Tree(s))[MANIFEST] == s
  {
    hide OwnedPaths, Ignored;
    NotIgnored();
    WalkFindsOwned(Tree(s), MANIFEST);
    assert MANIFEST[1..] == [] && Trees.Lookup(Trees.File(s), []) == Some(Trees.File(s));
  }

  lemma NotIgnored()
    ensures !Ignored("package.yaml")
  {
    assert "package.yaml"[|"package.yaml"| - 4..][3] == 'l' && ".pyc"[3] == 'c';
  }

  /** Two places of one length are apart, and so are a grouped one and `d`. */
  lemma SpotsApart(p: Path, q: Path)
    requires p != q && (p == "d" || (|p| == 5 && p[0] == 'b')) && (q == "d" || |q| == 5)
    ensures !Under(p, q)
  {
    assert q == "d" && p != "d" ==> p[..|q|][0] == 'b';
  }

  lemma Spot(s: Source)
    requires IsOne(s)
    ensures var p := OptRel(Shipped(s));
            (s == "p" && p == "d") || (s != "p" && |p| == 5 && p[0] == 'b' && p[4] == s[0] && |s| == 1)
  {
    ShippedIs(s);
    hide Shipped, OptRel, Topical, DepsOf;
  }

  lemma CrossedApart(a: Source, b: Source)
    requires IsOne(a) && IsOne(b) && a != b
    ensures !Under(OptRel(Shipped(b)), OptRel(Shipped(a)))
  {
    Spot(a);
    Spot(b);
    hide Shipped, OptRel, Under;
    assert a[0] == b[0] ==> a == b;
    SpotsApart(OptRel(Shipped(b)), OptRel(Shipped(a)));
  }

  lemma RegistryApart()
    ensures Apart(CrossedRegistry())
  {
    hide *;
    forall a, b | a in CrossedRegistry().bundles && b in CrossedRegistry().bundles && a != b
      ensures var x, y := CrossedRegistry().bundles[a], CrossedRegistry().bundles[b];
              !Under(OptRel(y), OptRel(x)) && !Topical(x)
    {
      InRegistry(a);
      InRegistry(b);
      ShippedIs(a);
      CrossedApart(a, b);
    }
    ApartIntro(CrossedRegistry());
  }

  lemma ApartIntro(reg: Registry)
    requires forall a, b | a in reg.bundles && b in reg.bundles && a != b ::
               !Under(OptRel(reg.bundles[b]), OptRel(reg.bundles[a])) && !Topical(reg.bundles[a])
    ensures Apart(reg)
  {
    hide OptRel, Topical, Under;
  }

  lemma RegistryManifested()
    ensures Manifested(CrossedRegistry())
  {
    hide *;
    forall a | a in CrossedRegistry().bundles
      ensures var files := OwnedFiles(CrossedRegistry().bundles[a].tree); MANIFEST in files && files[MANIFEST] == a
    {
      InRegistry(a);
      ManifestIs(a);
      ShippedTree(a);
    }
    ManifestedIntro(CrossedRegistry());
  }

  lemma ShippedTree(s: Source)
    ensures Shipped(s).tree == Tree(s)
  {
    hide Tree;
  }

  lemma ManifestedIntro(reg: Registry)
    requires forall a | a in reg.bundles :: var files := OwnedFiles(reg.bundles[a].tree);
             MANIFEST in files && files[MANIFEST] == a
    ensures Manifested(reg)
  {
    hide OptRel, OwnedFiles;
  }

  lemma RanksFall(s: Source, dep: string)
    requires IsOne(s) && dep in DepsOf(Shipped(s))
    ensures dep in CrossedRanks() && s in CrossedRanks() && CrossedRanks()[dep] < CrossedRanks()[s]
    ensures dep in CrossedRegistry().lookup && CrossedRegistry().lookup[dep] == dep
  {
    ShippedIs(s);
    hide Shipped, DepsOf, Tree;
  }

  lemma DependsMeans(reg: Registry, s: Source, d: Source) returns (dep: string)
    requires DependsOn(reg, s, d)
    ensures s in reg.bundles && dep in DepsOf(reg.bundles[s]) && (dep in reg.lookup ==> reg.lookup[dep] == d)
  {
    hide DepsOf;
    dep :| dep in DepsOf(reg.bundles[s]) && Resolves(reg, dep, d);
  }

  lemma RegistryAcyclic()
    ensures Acyclic(CrossedRegistry(), CrossedRanks())
  {
    var reg, rank := CrossedRegistry(), CrossedRanks();
    forall s | s in reg.bundles ensures s in rank {}
    forall s, d | DependsOn(reg, s, d) ensures s in rank && d in rank && rank[d] < rank[s] {
      hide *;
      var dep := DependsMeans(reg, s, d);
      InRegistry(s);
      RanksFall(s, dep);
    }
    hide CrossedRegistry, CrossedRanks, DependsOn;
  }

  lemma CrossedOne(s: Source)
    requires IsOne(s)
    ensures var reg := CrossedRegistry();
            && Usable(reg, s) && !Topical(reg.bundles[s]) && !Reserved(reg.bundles[s]) && reg.bundles[s].sound
            && (s != "t" ==> Named(reg, s))
            && OptRel(reg.bundles[s]) == (if s == "p" then "d" else "bin" + "/" + s)
            && DepsOf(reg.bundles[s]) == if s == "t" then ["x", "p", "y"] else if s == "x" || s == "y" then ["d"]
                else []
  {
    hide *;
    InRegistry(s);
    ShippedIs(s);
    UsableParts(CrossedRegistry(), s);
  }

  lemma IsCrossed()
    ensures Crossed(CrossedRegistry(), "t", "x", "p", "y", "d")
  {
    CrossedOne("t");
    CrossedOne("x");
    CrossedOne("p");
    CrossedOne("y");
    CrossedOne("d");
    hide CrossedRegistry, Usable, Named, Tree, OptRel, DepsOf, Topical, Reserved;
  }

  /** Nothing else is amiss with such a registry. */
  lemma SomeAreCrossed()
    ensures var reg := CrossedRegistry();
            Crossed(reg, "t", "x", "p", "y", "d") && Acyclic(reg, CrossedRanks()) && Apart(reg) && Manifested(reg)
  {
    hide *;
    IsCrossed();
    RegistryAcyclic();
    RegistryApart();
    RegistryManifested();
  }
}
