/** The installer as it runs: one recursive method over a shared `seen` set and the staging tree. */
module InstallerModel {
  import opened Wrappers
  import opened InstallSpec
  import opened BundleCopy

  class Installer {
    const reg: Registry
    var seen: set<Source>
    var staged: map<Path, Staged>
    var installed: seq<Source>

    constructor (reg: Registry, staged: map<Path, Staged>)
      ensures this.reg == reg && View() == State({}, staged, [])
    {
      this.reg := reg;
      this.seen, this.staged, this.installed := {}, staged, [];
    }

    ghost function View(): State
      reads this
    {
      State(seen, staged, installed)
    }

    /** `shutil.rmtree`: everything at or below `dir` goes. */
    method RemoveDir(dir: Path)
      modifies this`staged
      ensures staged == RemoveTree(old(staged), dir)
    {
      var todo := staged.Keys;
      while todo != {}
        invariant todo <= old(staged).Keys
        invariant staged == map p | p in old(staged) && (p in todo || !Under(p, dir)) :: old(staged)[p]
        decreases |todo|
      {
        var p :| p in todo;
        if Under(p, dir) {
          staged := staged - {p};
        }
        todo := todo - {p};
      }
    }

    method CopyIntoPlace(src: Source) returns (error: Option<Error>)
      requires src in reg.bundles
      modifies this`staged, this`installed
      ensures (View(), error) == Stage(reg, old(View()), src)
    {
      var b := reg.bundles[src];
      if Topical(b) {
        RemoveDir(b.name);
      }
      var dest := OptRel(b);
      if dest in staged && staged[dest].Link? {
        return Some(LinkInTheWay(dest));
      }
      RemoveDir(dest);
      staged := staged[dest := Copy(CopyTree(b.tree))];
      installed := installed + [src];
      error := None;
    }

    /** Walks what the registry ships; the first file that is missing or differs settles it. */
    method CopyStale(src: Source, at: Path) returns (stale: bool)
      requires src in reg.bundles && at in staged
      ensures stale == !Fresh(reg, src, staged[at])
    {
      if staged[at] == Link(src) {
        return false;
      }
      var tree := reg.bundles[src].tree;
      var todo := Walk(tree, [], {});
      BelowRoot(OwnedPaths(tree));
      var shipped, there := OwnedFiles(tree), Content(reg, staged[at]);
      while todo != {}
        invariant todo <= shipped.Keys
        invariant forall f | f in shipped && f !in todo :: f in there && there[f] == shipped[f]
        decreases |todo|
      {
        var f :| f in todo;
        if f !in there || there[f] != shipped[f] {
          return true;
        }
        todo := todo - {f};
      }
      stale := false;
    }

    method JudgeDep(dep: string) returns (v: Verdict)
      ensures v == Judge(reg, staged, dep)
    {
      hide OptRel, FindInstalled, Fresh;
      if dep !in reg.lookup {
        return if FindInstalled(reg, staged, dep).Some? then Keep else Missing(NotFound(dep));
      }
      var src := reg.lookup[dep];
      if src !in reg.bundles {
        return Missing(BadManifest(src));
      }
      var copy := InstalledCopy(reg, staged, dep, src);
      if copy.Some? {
        var stale := CopyStale(src, copy.value);
        return if stale then Renew(src) else Keep;
      }
      v := Renew(src);
    }

    method InstallFromSource(src: Source) returns (error: Option<Error>)
      modifies this
      ensures (View(), error) == Install(reg, old(View()), src)
      decreases |Left(reg, seen)|, 1
    {
      hide OptRel, Stage;
      if src !in reg.bundles || !reg.bundles[src].sound || Reserved(reg.bundles[src]) {
        return Some(BadManifest(src));
      }
      if src in seen {
        return Some(Cycle(src));
      }
      LeftShrinks(reg, seen, seen + {src});
      seen := seen + {src};
      var b := reg.bundles[src];
      error := ResolveDeps(if HasDeps(b.kind) then b.deps else []);
      if error.Some? {
        return;
      }
      error := CopyIntoPlace(src);
    }

    method ResolveDeps(deps: seq<string>) returns (error: Option<Error>)
      modifies this
      ensures (View(), error) == InstallDeps(reg, old(View()), deps)
      decreases |Left(reg, seen)|, 2
    {
      hide Judge, Install;
      for i := 0 to |deps|
        invariant old(seen) <= seen
        invariant InstallDeps(reg, old(View()), deps) == InstallDeps(reg, View(), deps[i..])
      {
        assert deps[i..][1..] == deps[i + 1..];
        LeftShrinks(reg, old(seen), seen);
        var v := JudgeDep(deps[i]);
        match v {
          case Keep =>
          case Missing(reason) =>
            return Some(reason);
          case Renew(src) =>
            error := InstallFromSource(src);
            if error.Some? {
              return;
            }
        }
      }
      assert deps[|deps|..] == [];
      error := None;
    }
  }
}
