/** Facts about ancestry, and about reading descriptions with a stack. */
module DomProofs {
  import opened Wrappers
  import opened Dom
  import opened Sequences
  import opened Sets

  // ---------- Ancestry ----------

  lemma {:induction false} UpSplits(nodes: map<Id, Relation>, n: Id, j: nat, k: nat)
    ensures Up(nodes, n, j + k) == (match Up(nodes, n, j) case Some(m) => Up(nodes, m, k) case None => None)
    decreases j
  {
    if j > 0 && n in nodes {
      UpSplits(nodes, nodes[n].parent, j - 1, k);
    }
  }

  lemma {:induction false} DomBelowChild(nodes: map<Id, Relation>, root: Id, n: Id)
    requires n in nodes && Below(nodes, root, nodes[n].parent)
    ensures Below(nodes, root, n)
  {
    var k: nat :| Up(nodes, nodes[n].parent, k) == Some(root);
    assert Up(nodes, n, k + 1) == Some(root);
  }

  /** Every set that holds the root and is closed under child edges holds all that is below. */
  lemma {:induction false} BelowIsLeast(nodes: map<Id, Relation>, root: Id, s: set<Id>, n: Id)
    requires root in s && (forall c :: c in nodes && nodes[c].parent in s ==> c in s)
    requires Below(nodes, root, n)
    ensures n in s
  {
    var k: nat :| Up(nodes, n, k) == Some(root);
    InClosedSet(nodes, root, s, n, k);
  }

  lemma {:induction false} InClosedSet(nodes: map<Id, Relation>, root: Id, s: set<Id>, n: Id, k: nat)
    requires root in s && (forall c :: c in nodes && nodes[c].parent in s ==> c in s)
    requires Up(nodes, n, k) == Some(root)
    ensures n in s
    decreases k
  {
    if k > 0 {
      InClosedSet(nodes, root, s, nodes[n].parent, k - 1);
    }
  }

  /** Removing all that is below a node leaves the ancestry of every other node as it was. */
  lemma {:induction false} RemovalKeepsAncestry(nodes: map<Id, Relation>, after: map<Id, Relation>, root: Id, n: Id,
      k: nat)
    requires forall m :: m in after <==> m in nodes && !Below(nodes, root, m)
    requires forall m :: m in after ==> after[m] == nodes[m]
    requires !Below(nodes, root, n)
    ensures Up(after, n, k) == Up(nodes, n, k)
    decreases k
  {
    if k > 0 && n in nodes {
      if Below(nodes, root, nodes[n].parent) {
        DomBelowChild(nodes, root, n);
      }
      RemovalKeepsAncestry(nodes, after, root, nodes[n].parent, k - 1);
    }
  }

  /** So whether a surviving node is within a target does not change. */
  lemma RemovalKeepsWithin(nodes: map<Id, Relation>, after: map<Id, Relation>, root: Id, n: Id, target: Id)
    requires forall m :: m in after <==> m in nodes && !Below(nodes, root, m)
    requires forall m :: m in after ==> after[m] == nodes[m]
    requires !Below(nodes, root, n)
    ensures Within(after, n, target) <==> Within(nodes, n, target)
  {
    forall k: nat | k < WalkMax ensures Found(after, n, target, k) <==> Found(nodes, n, target, k) {
      RemovalKeepsAncestry(nodes, after, root, n, k);
      var m := Up(nodes, n, k);
      if m.Some? && Below(nodes, root, m.value) {
        BelowThrough(nodes, root, n, k);
      }
    }
  }

  lemma BelowThrough(nodes: map<Id, Relation>, root: Id, n: Id, k: nat)
    requires Up(nodes, n, k).Some? && Below(nodes, root, Up(nodes, n, k).value)
    ensures Below(nodes, root, n)
  {
    var j: nat :| Up(nodes, Up(nodes, n, k).value, j) == Some(root);
    UpSplits(nodes, n, k, j);
    assert Up(nodes, n, k + j) == Some(root);
  }

  /** A walk that comes back to a node it has seen finds nothing new. */
  lemma {:induction false} RepeatsFindNothing(nodes: map<Id, Relation>, n: Id, target: Id, j: nat, d: nat, k: nat)
    requires j < d && Up(nodes, n, j).Some? && Up(nodes, n, j) == Up(nodes, n, d)
    requires forall i: nat :: i < d ==> !Found(nodes, n, target, i)
    ensures !Found(nodes, n, target, k)
    decreases k
  {
    if k >= d {
      UpSplits(nodes, n, d, k - d);
      UpSplits(nodes, n, j, k - d);
      RepeatsFindNothing(nodes, n, target, j, d, j + (k - d));
    }
  }

  // ---------- Reading with a stack ----------

  function CountStack(stack: seq<(Raw, Id)>): nat {
    if stack == [] then 0 else CountStack(stack[..|stack|-1]) + Count(stack[|stack|-1].0)
  }

  function EdgesStack(stack: seq<(Raw, Id)>): seq<(Id, Relation)> {
    if stack == [] then []
    else Edges(stack[|stack|-1].0, stack[|stack|-1].1) + EdgesStack(stack[..|stack|-1])
  }

  function Push(items: seq<Raw>, parent: Id): (r: seq<(Raw, Id)>)
    ensures |r| == |items| && forall i :: 0 <= i < |r| ==> r[i] == (items[i], parent)
  {
    seq(|items|, i requires 0 <= i < |items| => (items[i], parent))
  }

  lemma {:induction false} StackConcat(a: seq<(Raw, Id)>, b: seq<(Raw, Id)>)
    ensures CountStack(a + b) == CountStack(a) + CountStack(b)
    ensures EdgesStack(a + b) == EdgesStack(b) + EdgesStack(a)
  {
    if b == [] {
      assert a + b == a;
    } else {
      var n := |b| - 1;
      var top := b[n];
      assert (a + b)[..|a + b|-1] == a + b[..n] && (a + b)[|a + b|-1] == top;
      StackConcat(a, b[..n]);
      Associates(Edges(top.0, top.1), EdgesStack(b[..n]), EdgesStack(a));
    }
  }

  lemma {:induction false} PushedAll(items: seq<Raw>, parent: Id)
    ensures CountStack(Push(items, parent)) == CountAll(items)
    ensures EdgesStack(Push(items, parent)) == EdgesAll(items, parent)
  {
    if items != [] {
      var n := |items| - 1;
      assert Push(items, parent)[..n] == Push(items[..n], parent);
      PushedAll(items[..n], parent);
    }
  }

  /** Popping a known description and pushing what it holds visits the same relations, one fewer. */
  lemma StackStep(stack: seq<(Raw, Id)>)
    requires stack != [] && Known(stack[|stack|-1].0)
    ensures var (r, parent) := stack[|stack|-1];
      var rest := stack[..|stack|-1] + Push(r.children, r.nodeId) + Push(r.shadowRoots, r.nodeId);
      && CountStack(stack) == 1 + CountStack(rest)
      && EdgesStack(stack) == [(r.nodeId, Relation(r.backend, parent))] + EdgesStack(rest)
  {
    var (r, parent) := stack[|stack|-1];
    var init := stack[..|stack|-1];
    var c, h := Push(r.children, r.nodeId), Push(r.shadowRoots, r.nodeId);
    StackConcat(init + c, h);
    StackConcat(init, c);
    PushedAll(r.children, r.nodeId);
    PushedAll(r.shadowRoots, r.nodeId);
    var first := [(r.nodeId, Relation(r.backend, parent))];
    Associates(first + EdgesStack(h), EdgesStack(c), EdgesStack(init));
    Associates(first, EdgesStack(h), EdgesStack(c) + EdgesStack(init));
  }

  lemma {:induction false} CountAtLeastLength(stack: seq<(Raw, Id)>)
    ensures CountStack(stack) >= |stack|
  {
    if stack != [] {
      CountAtLeastLength(stack[..|stack|-1]);
    }
  }

  lemma {:induction false} OverlaidKeepsKeys(nodes: map<Id, Relation>, edges: seq<(Id, Relation)>)
    ensures nodes.Keys <= Overlaid(nodes, edges).Keys
    decreases |edges|
  {
    if edges != [] {
      OverlaidKeepsKeys(nodes[edges[0].0 := edges[0].1], edges[1..]);
    }
  }

  lemma SmallerKeys(a: map<Id, Relation>, b: map<Id, Relation>)
    requires a.Keys <= b.Keys
    ensures |a| <= |b|
  {
    SubsetSize(a.Keys, b.Keys);
  }
}
