/** A disk seen as a map from path to node, on which every step may fail.

    A replace, create, write or removal either happens as a whole or raises and
    changes nothing; only a write and a recursive removal may leave a partial
    result behind.  `history` records the disk after every step, so a contract
    can speak about each point at which the process might be killed. */
module FileSystem {

  type Path = seq<string>
  type Bytes = seq<int>

  /** A regular file, one directory entry, or a whole directory tree moved as a unit. */
  datatype Node = File(content: Bytes) | Directory | Tree(entries: map<Path, Bytes>)

  type Nodes = map<Path, Node>

  datatype Option<+T> = None | Some(value: T)

  function Elements<T>(s: seq<T>): set<T> {
    set x | x in s
  }

  function Parent(p: Path): Path
    requires p != []
  {
    p[..|p| - 1]
  }

  predicate Holds(n: Nodes, p: Path, node: Node) {
    p in n && n[p] == node
  }

  predicate Same(a: Nodes, b: Nodes, p: Path) {
    (p in a <==> p in b) && (p in a ==> a[p] == b[p])
  }

  /** Every node of `a` is still at its own path in `b`. */
  ghost predicate Contains(a: Nodes, b: Nodes) {
    forall p | p in a :: Holds(b, p, a[p])
  }

  /** A rename onto an existing name is possible only from file to file. */
  predicate Replaceable(n: Nodes, src: Path, dst: Path) {
    && src in n && src != dst && !n[src].Directory?
    && (dst in n ==> n[src].File? && n[dst].File?)
  }

  function Replaced(n: Nodes, src: Path, dst: Path): Nodes
    requires src in n
  {
    (n - {src})[dst := n[src]]
  }

  class Disk {
    var nodes: Nodes
    ghost var history: seq<Nodes>
    ghost var faults: nat

    constructor (initial: Nodes)
      ensures nodes == initial && history == [] && faults == 0
    {
      nodes, history, faults := initial, [], 0;
    }

    /** The operating system's say in one step: it may raise at any time. */
    method Attempt() returns (ok: bool)
      modifies this`faults
      ensures ok ==> faults == old(faults)
      ensures !ok ==> faults == old(faults) + 1
    {
      ok := *;
      if !ok {
        faults := faults + 1;
      }
    }

    method Replace(src: Path, dst: Path) returns (ok: bool)
      modifies this
      ensures ok ==> Replaceable(old(nodes), src, dst) && nodes == Replaced(old(nodes), src, dst) && faults == old(faults)
      ensures !ok ==> nodes == old(nodes)
      ensures history == old(history) + [nodes]
      ensures old(faults) <= faults <= old(faults) + 1
      ensures !ok ==> faults > old(faults) || !Replaceable(old(nodes), src, dst)
    {
      ok := Attempt();
      ok := ok && Replaceable(nodes, src, dst);
      if ok {
        nodes := Replaced(nodes, src, dst);
      }
      history := history + [nodes];
    }

    /** An exclusive, empty file under `dir` whose name is neither taken nor in `reserved`. */
    method MakeTemporary(dir: Path, reserved: set<Path>) returns (made: Option<Path>)
      modifies this
      ensures made.Some? ==> made.value !in old(nodes) && made.value !in reserved
      ensures made.Some? ==> nodes == old(nodes)[made.value := File([])] && faults == old(faults)
      ensures made.None? ==> nodes == old(nodes) && faults == old(faults) + 1
      ensures history == old(history) + [nodes]
      ensures old(faults) <= faults <= old(faults) + 1
    {
      var ok := Attempt();
      var name: string := *;
      var p := dir + [name];
      made := None;
      if ok && p !in nodes && p !in reserved {
        made, nodes := Some(p), nodes[p := File([])];
      } else if ok {
        faults := faults + 1;
      }
      history := history + [nodes];
    }

    /** Writing over a file may stop half way and leave any content in it. */
    method WriteFile(p: Path, content: Bytes) returns (ok: bool)
      requires p in nodes
      modifies this
      ensures ok ==> nodes == old(nodes)[p := File(content)] && faults == old(faults)
      ensures !ok ==> p in nodes && nodes[p].File? && nodes == old(nodes)[p := nodes[p]]
      ensures history == old(history) + [nodes]
      ensures old(faults) <= faults <= old(faults) + 1 && (!ok ==> faults > old(faults))
    {
      ok := Attempt();
      var partial: Bytes := *;
      nodes := nodes[p := File(if ok then content else partial)];
      history := history + [nodes];
    }

    /** Makes one directory entry, or one empty tree. */
    method MakeDirectory(p: Path, node: Node) returns (ok: bool)
      modifies this
      ensures ok ==> p !in old(nodes) && nodes == old(nodes)[p := node] && faults == old(faults)
      ensures !ok ==> nodes == old(nodes)
      ensures history == old(history) + [nodes]
      ensures old(faults) <= faults <= old(faults) + 1
      ensures !ok ==> faults > old(faults) || p in old(nodes)
    {
      ok := Attempt();
      ok := ok && p !in nodes;
      if ok {
        nodes := nodes[p := node];
      }
      history := history + [nodes];
    }

    /** Removes one file or empty directory; a missing name is not an error when `missingOk`. */
    method Remove(p: Path, missingOk: bool) returns (ok: bool)
      modifies this
      ensures ok ==> nodes == old(nodes) - {p} && (p in old(nodes) || missingOk) && faults == old(faults)
      ensures !ok ==> nodes == old(nodes)
      ensures history == old(history) + [nodes]
      ensures old(faults) <= faults <= old(faults) + 1
      ensures !ok ==> faults > old(faults) || (p !in old(nodes) && !missingOk)
    {
      ok := Attempt();
      ok := ok && (p in nodes || missingOk);
      if ok {
        nodes := nodes - {p};
      }
      history := history + [nodes];
    }

    /** Adds one member to the tree at `p`; the member must not be there yet. */
    method AddMember(p: Path, member: Path, content: Bytes) returns (ok: bool)
      requires p in nodes && nodes[p].Tree?
      modifies this
      ensures ok ==> nodes == old(nodes)[p := Tree(old(nodes)[p].entries[member := content])] && faults == old(faults)
      ensures ok ==> member !in old(nodes)[p].entries
      ensures !ok ==> p in nodes && nodes[p].Tree? && nodes == old(nodes)[p := nodes[p]]
      ensures history == old(history) + [nodes]
      ensures old(faults) <= faults <= old(faults) + 1
      ensures !ok ==> faults > old(faults) || member in old(nodes)[p].entries
    {
      ok := Attempt();
      ok := ok && member !in nodes[p].entries;
      var partial: map<Path, Bytes> := *;
      nodes := nodes[p := Tree(if ok then nodes[p].entries[member := content] else partial)];
      history := history + [nodes];
    }

    /** Recursive removal may fail after it has removed part of the tree. */
    method RemoveTree(p: Path) returns (ok: bool)
      modifies this
      ensures ok ==> nodes == old(nodes) - {p} && faults == old(faults)
      ensures !ok ==> p in old(nodes) && p in nodes && nodes == old(nodes)[p := nodes[p]]
      ensures !ok ==> (old(nodes)[p].Tree? <==> nodes[p].Tree?)
      ensures history == old(history) + [nodes]
      ensures old(faults) <= faults <= old(faults) + 1
      ensures !ok ==> faults > old(faults) || !old(nodes)[p].Tree?
    {
      ok := true;
      if p in nodes {
        ok := Attempt();
        ok := ok && nodes[p].Tree?;
        var partial: map<Path, Bytes> := *;
        if ok {
          nodes := nodes - {p};
        } else if nodes[p].Tree? {
          nodes := nodes[p := Tree(partial)];
        }
      }
      history := history + [nodes];
    }
  }
}
