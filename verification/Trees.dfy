/** Directory trees as values. */
module Trees {
  import opened Wrappers

  type Name = string

  datatype Node = File(content: string) | Link(target: string) | Dir(entries: map<Name, Node>)

  type Entries = map<Name, Node>

  /** What lies at a path below a node; the empty path is the node itself. */
  function Lookup(node: Node, path: seq<Name>): Option<Node>
    decreases |path|
  {
    if path == [] then Some(node)
    else if node.Dir? && path[0] in node.entries then Lookup(node.entries[path[0]], path[1..])
    else None
  }

  function Get(dir: Entries, n: Name): Option<Node> {
    if n in dir then Some(dir[n]) else None
  }

  /** A file or link at that path, but not a directory. */
  predicate LeafAt(node: Node, path: seq<Name>, leaf: Node) {
    !leaf.Dir? && Lookup(node, path) == Some(leaf)
  }

  predicate DirAt(node: Node, path: seq<Name>) {
    Lookup(node, path).Some? && Lookup(node, path).value.Dir?
  }
}
