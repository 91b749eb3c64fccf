/** What `paiman install` does to the staging tree: one bundle after its dependencies, which are skipped while they
    are current. */
module InstallSpec {
  import opened Wrappers
  import opened Seqs
  import opened BundleCopy
  import Trees

  type Source = string
  type Path = string

  datatype Kind = Bin | Driver | Skill | Prompt | Pai | Lib | Subagent

  /** A bundle as its source ships it; `sound` says that its manifest passes the checks on names and entrypoint. */
  datatype Bundle = Bundle(name: string, kind: Kind, topic: Option<string>, deps: seq<string>, tree: Trees.Node,
      sound: bool)

  /** Registry lookups by dependency name, what each source holds, and the directories that bundles may be grouped
      under, in the order a scan of the staging tree meets them. */
  datatype Registry = Registry(lookup: map<string, Source>, bundles: map<Source, Bundle>, dirs: seq<string>)

  /** An installed bundle: its own copy, or a link to a source tree. */
  datatype Staged = Copy(tree: Trees.Node) | Link(to: Source)

  datatype Error = Cycle(at: Source) | NotFound(dep: string) | BadManifest(at: Source) | LinkInTheWay(at: Path)

  datatype State = State(seen: set<Source>, staged: map<Path, Staged>, installed: seq<Source>)

  // ----- names and paths ---------------------------------------------------------------

  const RESERVED: set<string> := {"bin", "driver", "skill", "pai", "lib", "subagents"}

  function Group(kind: Kind): string {
    match kind
    case Bin => "bin"
    case Driver => "driver"
    case Skill => "skill"
    case Prompt => "prompt"
    case Pai => "pai"
    case Lib => "lib"
    case Subagent => "subagents"
  }

  function OptRel(b: Bundle): Path {
    if b.kind.Skill? && b.topic.Some? && b.topic.value != "" then b.topic.value + "/" + b.name
    else if b.kind.Prompt? then b.name
    else Group(b.kind) + "/" + b.name
  }

  predicate Topical(b: Bundle) {
    b.kind.Skill? && b.topic.Some? && b.topic.value != ""
  }

  predicate Reserved(b: Bundle) {
    '/' !in OptRel(b) && b.name in RESERVED
  }

  predicate Under(p: Path, dir: Path) {
    p == dir || (|dir| < |p| && p[..|dir|] == dir && p[|dir|] == '/')
  }

  /** Removing a directory takes everything below it along. */
  function RemoveTree(staged: map<Path, Staged>, dir: Path): map<Path, Staged> {
    map p | p in staged && !Under(p, dir) :: staged[p]
  }

  predicate HasDeps(kind: Kind) {
    kind.Bin? || kind.Pai? || kind.Driver? || kind.Subagent?
  }

  // ----- is a dependency current? ------------------------------------------------------

  function FindIn(staged: map<Path, Staged>, dirs: seq<string>, name: string): Option<Path> {
    if dirs == [] then None
    else if dirs[0] !in staged && dirs[0] + "/" + name in staged then Some(dirs[0] + "/" + name)
    else FindIn(staged, dirs[1..], name)
  }

  /** A bundle of that name, flat or one level down. */
  function FindInstalled(reg: Registry, staged: map<Path, Staged>, name: string): (r: Option<Path>)
    ensures r.Some? ==> r.value in staged
  {
    if name in staged then Some(name) else FoundIsStaged(staged, reg.dirs, name); FindIn(staged, reg.dirs, name)
  }

  lemma {:induction false} FoundIsStaged(staged: map<Path, Staged>, dirs: seq<string>, name: string)
    ensures var r := FindIn(staged, dirs, name); r.Some? ==> r.value in staged
  {
    if dirs != [] {
      FoundIsStaged(staged, dirs[1..], name);
    }
  }

  /** The copy to compare with: where the bundle would be staged, or else any bundle of that name. */
  function InstalledCopy(reg: Registry, staged: map<Path, Staged>, dep: string, src: Source): (r: Option<Path>)
    requires src in reg.bundles
    ensures r.Some? ==> r.value in staged
  {
    var expected := OptRel(reg.bundles[src]);
    if expected in staged then Some(expected) else FindInstalled(reg, staged, dep)
  }

  /** What is found behind an entry of the staging tree. */
  function Content(reg: Registry, s: Staged): Files {
    match s
    case Copy(tree) => OwnedFiles(tree)
    case Link(to) => if to in reg.bundles then OwnedFiles(reg.bundles[to].tree) else map[]
  }

  /** Every file the registry ships is there, byte for byte; extra files do not matter. */
  predicate Matches(shipped: Files, there: Files) {
    forall f | f in shipped :: f in there && there[f] == shipped[f]
  }

  predicate Fresh(reg: Registry, src: Source, s: Staged)
    requires src in reg.bundles
  {
    s == Link(src) || Matches(OwnedFiles(reg.bundles[src].tree), Content(reg, s))
  }

  // ----- installing ------------------------------------------------------------------------

  function Left(reg: Registry, seen: set<Source>): set<Source> {
    reg.bundles.Keys - seen
  }

  lemma LeftShrinks(reg: Registry, seen: set<Source>, more: set<Source>)
    requires seen <= more
    ensures |Left(reg, more)| <= |Left(reg, seen)|
    ensures forall s | s in reg.bundles && s !in seen && s in more :: |Left(reg, more)| < |Left(reg, seen)|
  {
    SubsetSize(Left(reg, more), Left(reg, seen));
    forall s | s in reg.bundles && s !in seen && s in more ensures |Left(reg, more)| < |Left(reg, seen)| {
      SubsetSize(Left(reg, more), Left(reg, seen) - {s});
    }
  }

  /** Copies the bundle into place. A link in the way cannot be removed as a tree. */
  function Stage(reg: Registry, st: State, src: Source): (State, Option<Error>)
    requires src in reg.bundles
  {
    var b := reg.bundles[src];
    var dest := OptRel(b);
    var cleaned := if Topical(b) then RemoveTree(st.staged, b.name) else st.staged;
    if dest in cleaned && cleaned[dest].Link? then (st.(staged := cleaned), Some(LinkInTheWay(dest)))
    else (State(st.seen, RemoveTree(cleaned, dest)[dest := Copy(CopyTree(b.tree))], st.installed + [src]), None)
  }

  /** What becomes of one dependency: skipped, reported missing, or installed from a source. */
  datatype Verdict = Keep | Missing(error: Error) | Renew(src: Source)

  function Judge(reg: Registry, staged: map<Path, Staged>, dep: string): (v: Verdict)
    ensures v.Renew? ==> v.src in reg.bundles
  {
    if dep !in reg.lookup then
      if FindInstalled(reg, staged, dep).Some? then Keep else Missing(NotFound(dep))
    else
      var src := reg.lookup[dep];
      if src !in reg.bundles then Missing(BadManifest(src)) else
        var copy := InstalledCopy(reg, staged, dep, src);
        if copy.Some? && Fresh(reg, src, staged[copy.value]) then Keep else Renew(src)
  }

  function Install(reg: Registry, st: State, src: Source): (r: (State, Option<Error>))
    ensures st.seen <= r.0.seen
    decreases |Left(reg, st.seen)|, 0
  {
    if src !in reg.bundles || !reg.bundles[src].sound || Reserved(reg.bundles[src]) then (st, Some(BadManifest(src)))
    else if src in st.seen then (st, Some(Cycle(src)))
    else
      var st1 := st.(seen := st.seen + {src});
      LeftShrinks(reg, st.seen, st1.seen);
      var b := reg.bundles[src];
      var (st2, error) := InstallDeps(reg, st1, if HasDeps(b.kind) then b.deps else []);
      if error.Some? then (st2, error) else Stage(reg, st2, src)
  }

  function InstallDeps(reg: Registry, st: State, deps: seq<string>): (r: (State, Option<Error>))
    ensures st.seen <= r.0.seen
    decreases |Left(reg, st.seen)|, |deps| + 1
  {
    if deps == [] then (st, None) else
      match Judge(reg, st.staged, deps[0])
      case Keep => InstallDeps(reg, st, deps[1..])
      case Missing(error) => (st, Some(error))
      case Renew(src) =>
        var (st1, error) := Install(reg, st, src);
        LeftShrinks(reg, st.seen, st1.seen);
        if error.Some? then (st1, error) else InstallDeps(reg, st1, deps[1..])
  }
}
