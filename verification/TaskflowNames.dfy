/** How a TaskFlow listener finds an atom: by its name, among the nodes of its engine's graph. */
module TaskflowNames {

  /** A node of an execution graph: a flow pattern, or an atom with a name and an `execute`. */
  datatype Node<A> = Pattern | AtomNode(name: string, atom: A)

  /** The names a listener resolves: the last atom of each name. */
  function Names<A>(nodes: seq<Node<A>>): map<string, A> {
    if nodes == [] then map[]
    else
      var last := nodes[|nodes| - 1];
      var before := Names(nodes[..|nodes| - 1]);
      if last.AtomNode? then before[last.name := last.atom] else before
  }

  ghost predicate LastOfName<A>(nodes: seq<Node<A>>, i: nat, name: string) {
    && i < |nodes| && nodes[i].AtomNode? && nodes[i].name == name
    && forall j | i < j < |nodes| :: nodes[j].AtomNode? ==> nodes[j].name != name
  }

  lemma {:induction false} NamesResolve<A>(nodes: seq<Node<A>>, name: string)
    ensures name in Names(nodes) <==> exists i: nat :: LastOfName(nodes, i, name)
    ensures forall i: nat | LastOfName(nodes, i, name) :: name in Names(nodes) && Names(nodes)[name] == nodes[i].atom
  {
    if nodes != [] {
      var n := |nodes| - 1;
      NamesResolve(nodes[..n], name);
      if nodes[n].AtomNode? && nodes[n].name == name {
        assert LastOfName(nodes, n, name);
      } else {
        forall i: nat ensures LastOfName(nodes, i, name) <==> LastOfName(nodes[..n], i, name) { }
      }
    }
  }

  lemma {:induction false} NamesAreAtoms<A>(nodes: seq<Node<A>>)
    ensures forall name | name in Names(nodes) :: AtomNode(name, Names(nodes)[name]) in nodes
  {
    if nodes != [] { NamesAreAtoms(nodes[..|nodes| - 1]); }
  }

  lemma {:induction false} AtomsAreNamed<A>(nodes: seq<Node<A>>, name: string)
    ensures (exists n :: n in nodes && n.AtomNode? && n.name == name) ==> name in Names(nodes)
  {
    if nodes != [] {
      var last := nodes[|nodes| - 1];
      AtomsAreNamed(nodes[..|nodes| - 1], name);
      assert nodes == nodes[..|nodes| - 1] + [last];
    }
  }
}
