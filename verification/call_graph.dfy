module Wrappers {
  datatype Option<+T> = None | Some(value: T)
}

/** The call graph of golang.org/x/tools/go/callgraph, as far as the walks read it. */
module CallGraph {
  import opened Wrappers

  // Nodes and edges are pointers in the source; here they are told apart by value.
  type Node = nat

  datatype Edge = Edge(id: nat, caller: Option<Node>, callee: Option<Node>)

  /** name: the nodes whose Func is not nil, with its String(). */
  datatype Graph = Graph(name: map<Node, string>, out: map<Node, seq<Edge>>, into: map<Node, seq<Edge>>)

  function Out(g: Graph, n: Node): seq<Edge> {
    if n in g.out then g.out[n] else []
  }

  function Into(g: Graph, n: Node): seq<Edge> {
    if n in g.into then g.into[n] else []
  }

  /** The end is there and has a function. */
  predicate Named(g: Graph, end: Option<Node>) {
    end.Some? && end.value in g.name
  }
}
