/** The bounded parent relation of DOM nodes, and what a batch of node descriptions does to it. */
module Dom {
  import opened Wrappers

  type Id = nat

  datatype Relation = Relation(backend: Id, parent: Id)

  /** A node description from the protocol; a field of another type than expected reads as 0 or []. */
  datatype Raw = Other | Node(nodeId: Id, backend: Id, children: seq<Raw>, shadowRoots: seq<Raw>)

  predicate IsId(n: nat) {
    0 < n <= 9007199254740991
  }

  // ---------- Ancestry ----------

  /** The node `k` parent steps above `n`; a node that is not known has no parent. */
  function Up(nodes: map<Id, Relation>, n: Id, k: nat): Option<Id>
    decreases k
  {
    if k == 0 then Some(n)
    else if n in nodes then Up(nodes, nodes[n].parent, k - 1)
    else None
  }

  /** The node itself and everything that a chain of child edges reaches from it. */
  ghost predicate Below(nodes: map<Id, Relation>, root: Id, n: Id) {
    exists k: nat :: Up(nodes, n, k) == Some(root)
  }

  const WalkMax: nat := 32

  predicate Found(nodes: map<Id, Relation>, n: Id, target: Id, k: nat) {
    var m := Up(nodes, n, k);
    m.Some? && m.value in nodes && nodes[m.value].backend == target
  }

  /** The node or one of its nearest ancestors is the target. */
  predicate Within(nodes: map<Id, Relation>, n: Id, target: Id) {
    exists k :: 0 <= k < WalkMax && Found(nodes, n, target, k)
  }

  // ---------- The index ----------

  predicate IsChild(children: map<Id, set<Id>>, p: Id, c: Id) {
    p in children && c in children[p]
  }

  ghost predicate NoneEmpty(children: map<Id, set<Id>>) {
    forall p :: p in children ==> children[p] != {}
  }

  /** `children` is the exact inverse of the parent relation, without empty sets. */
  ghost predicate Inverse(nodes: map<Id, Relation>, children: map<Id, set<Id>>) {
    && (forall p, c :: IsChild(children, p, c) ==> c in nodes && nodes[c].parent == p)
    && (forall c :: c in nodes ==> IsChild(children, nodes[c].parent, c))
    && NoneEmpty(children)
  }

  // ---------- Descriptions ----------

  predicate Known(r: Raw) {
    r.Node? && IsId(r.nodeId) && IsId(r.backend)
  }

  /** How many descriptions a reading visits. */
  function Count(r: Raw): nat
    decreases r
  {
    match r
    case Other => 1
    case Node(_, _, children, shadowRoots) =>
      1 + if Known(r) then CountAll(children) + CountAll(shadowRoots) else 0
  }

  function CountAll(items: seq<Raw>): nat
    decreases items
  {
    if items == [] then 0 else CountAll(items[..|items|-1]) + Count(items[|items|-1])
  }

  /** The relations a description states, in the order in which a reading meets them: the last item
      of a list first, and shadow roots before children. */
  function Edges(r: Raw, parent: Id): seq<(Id, Relation)>
    decreases r
  {
    match r
    case Other => []
    case Node(nodeId, backend, children, shadowRoots) =>
      if !Known(r) then []
      else [(nodeId, Relation(backend, parent))]
           + EdgesAll(shadowRoots, nodeId) + EdgesAll(children, nodeId)
  }

  function EdgesAll(items: seq<Raw>, parent: Id): seq<(Id, Relation)>
    decreases items
  {
    if items == [] then [] else Edges(items[|items|-1], parent) + EdgesAll(items[..|items|-1], parent)
  }

  /** Later relations override earlier ones. */
  function Overlaid(nodes: map<Id, Relation>, edges: seq<(Id, Relation)>): map<Id, Relation>
    decreases |edges|
  {
    if edges == [] then nodes else Overlaid(nodes[edges[0].0 := edges[0].1], edges[1..])
  }
}
