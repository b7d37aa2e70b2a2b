/**
 * The local-subgraph view: the nodes around the suspicious transaction's
 * sender (at most 12, in input order) and the edges of the network whose
 * two endpoints are both among them.
 */
module Subgraph {
  import opened Seqs

  datatype GraphNode = GraphNode(id: string, caption: string, kind: string, transfers: int, flagged: bool)

  datatype Edge = Edge(source: string, target: string, value: real)

  datatype Network = Network(nodes: seq<GraphNode>, edges: seq<Edge>)

  /** The transaction that triggers the extraction; only its endpoints are used. */
  datatype Suspicious = Suspicious(sender: string, receiver: string)

  const MaxLocalNodes: nat := 12

  predicate Touches(e: Edge, account: string) {
    e.source == account || e.target == account
  }

  /** The node test: the sender, the receiver, or an endpoint of an edge that also touches the sender. */
  predicate Qualifies(g: Network, tx: Suspicious, n: GraphNode) {
    || n.id == tx.sender
    || n.id == tx.receiver
    || exists i :: 0 <= i < |g.edges| && Touches(g.edges[i], tx.sender) && Touches(g.edges[i], n.id)
  }

  function LocalNodes(g: Network, tx: Suspicious): (r: seq<GraphNode>)
    ensures |r| <= MaxLocalNodes
    ensures forall i :: 0 <= i < |r| ==> Qualifies(g, tx, r[i])
  {
    Take(Filter(g.nodes, (n: GraphNode) => Qualifies(g, tx, n)), MaxLocalNodes)
  }

  /** `nodes.some(n => n.id === id)`. */
  predicate HasNode(nodes: seq<GraphNode>, id: string) {
    exists i :: 0 <= i < |nodes| && nodes[i].id == id
  }

  function LocalEdges(g: Network, local: seq<GraphNode>): seq<Edge> {
    Filter(g.edges, (e: Edge) => HasNode(local, e.source) && HasNode(local, e.target))
  }

  /** The kept nodes appear in the network's node list, in the same order. */
  lemma LocalNodesSubsequence(g: Network, tx: Suspicious)
    ensures SubsequenceOf(LocalNodes(g, tx), g.nodes)
  {
    var q := Filter(g.nodes, (n: GraphNode) => Qualifies(g, tx, n));
    FilterIsSubsequence(g.nodes, (n: GraphNode) => Qualifies(g, tx, n));
    TakeSubsequence(q, g.nodes, MaxLocalNodes);
  }

  lemma {:induction false} TakeSubsequence<T>(r: seq<T>, s: seq<T>, k: nat)
    requires SubsequenceOf(r, s)
    ensures SubsequenceOf(Take(r, k), s)
    decreases |s|
  {
    if Take(r, k) != [] {
      assert r != [] && k > 0;
      if r[0] == s[0] && SubsequenceOf(r[1..], s[1..]) {
        TakeSubsequence(r[1..], s[1..], k - 1);
        assert Take(r, k)[1..] == Take(r[1..], k - 1);
      } else {
        TakeSubsequence(r, s[1..], k);
      }
    }
  }

  /**
   * Node `i` of the network is kept iff it qualifies and fewer than 12
   * qualifying nodes come before it; it then sits at the position given
   * by that count.
   */
  lemma LocalNodesIncludes(g: Network, tx: Suspicious, i: nat)
    requires i < |g.nodes| && Qualifies(g, tx, g.nodes[i])
    requires |Filter(g.nodes[..i], (n: GraphNode) => Qualifies(g, tx, n))| < MaxLocalNodes
    ensures var c := |Filter(g.nodes[..i], (n: GraphNode) => Qualifies(g, tx, n))|;
      c < |LocalNodes(g, tx)| && LocalNodes(g, tx)[c] == g.nodes[i]
  {
    FilterPosition(g.nodes, (n: GraphNode) => Qualifies(g, tx, n), i);
  }

  lemma LocalNodesSource(g: Network, tx: Suspicious, j: nat) returns (i: nat)
    requires j < |LocalNodes(g, tx)|
    ensures i < |g.nodes| && Qualifies(g, tx, g.nodes[i]) && LocalNodes(g, tx)[j] == g.nodes[i]
    ensures |Filter(g.nodes[..i], (n: GraphNode) => Qualifies(g, tx, n))| == j < MaxLocalNodes
  {
    i := FilterSource(g.nodes, (n: GraphNode) => Qualifies(g, tx, n), j);
  }

  /** With at most 12 qualifying nodes all of them are kept; with more, exactly 12 are. */
  lemma LocalNodesCount(g: Network, tx: Suspicious)
    ensures var q := Filter(g.nodes, (n: GraphNode) => Qualifies(g, tx, n));
      && (|q| <= MaxLocalNodes ==> LocalNodes(g, tx) == q)
      && (|q| > MaxLocalNodes ==> |LocalNodes(g, tx)| == MaxLocalNodes)
  {
  }

  /** The induced subgraph: an edge is kept iff it is in the network and both its ends are local nodes. */
  lemma LocalEdgesInduced(g: Network, local: seq<GraphNode>, e: Edge)
    ensures e in LocalEdges(g, local) <==> e in g.edges && HasNode(local, e.source) && HasNode(local, e.target)
    ensures SubsequenceOf(LocalEdges(g, local), g.edges)
  {
    var p := (e: Edge) => HasNode(local, e.source) && HasNode(local, e.target);
    FilterMembership(g.edges, p, e);
    FilterIsSubsequence(g.edges, p);
  }
}
