/** `BrowserDomRelations` as the source writes it: two maps changed in place by worklist loops. */
module BrowserDomRelations {
  import opened Wrappers
  import opened Dom
  import opened DomProofs
  import opened Sets

  class BrowserDomRelations {
    const limit: nat
    var nodes: map<Id, Relation>
    var children: map<Id, set<Id>>
    var exhausted: bool

    ghost predicate Valid()
      reads this
    {
      Inverse(nodes, children) && |nodes| <= limit && (exhausted ==> nodes == map[])
    }

    constructor (limit: nat)
      ensures Valid() && nodes == map[] && !exhausted && this.limit == limit
    {
      this.limit := limit;
      nodes, children, exhausted := map[], map[], false;
    }

    method Clear()
      modifies this
      ensures Valid() && nodes == map[] && children == map[] && !exhausted
    {
      nodes, children, exhausted := map[], map[], false;
    }

    method Exhaust()
      modifies this
      ensures Valid() && nodes == map[] && exhausted
    {
      Clear();
      exhausted := true;
    }

    /** The walk finds the target among the node and its nearest ancestors, and stops at a cycle. */
    method IsWithin(start: Id, target: Id) returns (within: bool)
      requires Valid()
      ensures within <==> !exhausted && IsId(start) && IsId(target) && Within(nodes, start, target)
    {
      if exhausted || !IsId(start) || !IsId(target) { return false; }
      var nodeId := start;
      var seen: set<Id> := {};
      var depth := 0;
      while depth < WalkMax && nodeId !in seen
        invariant depth <= WalkMax && Up(nodes, start, depth) == Some(nodeId)
        invariant forall i: nat :: i < depth ==> !Found(nodes, start, target, i)
        invariant forall m :: m in seen ==> exists i: nat :: i < depth && Up(nodes, start, i) == Some(m)
      {
        seen := seen + {nodeId};
        if nodeId !in nodes {
          NothingAbove(start, target, depth);
          return false;
        }
        if nodes[nodeId].backend == target {
          assert Found(nodes, start, target, depth);
          return true;
        }
        assert !Found(nodes, start, target, depth);
        UpSplits(nodes, start, depth, 1);
        assert Up(nodes, start, depth) == Some(nodeId);
        nodeId := nodes[nodeId].parent;
        depth := depth + 1;
      }
      if depth < WalkMax {
        var i: nat :| i < depth && Up(nodes, start, i) == Some(nodeId);
        forall k: nat | k < WalkMax ensures !Found(nodes, start, target, k) {
          RepeatsFindNothing(nodes, start, target, i, depth, k);
        }
      }
      return false;
    }

    lemma NothingAbove(start: Id, target: Id, depth: nat)
      requires Up(nodes, start, depth).Some? && Up(nodes, start, depth).value !in nodes
      requires forall i: nat :: i < depth ==> !Found(nodes, start, target, i)
      ensures forall k: nat :: !Found(nodes, start, target, k)
    {
      forall k: nat ensures !Found(nodes, start, target, k) {
        if k > depth {
          UpSplits(nodes, start, depth, k - depth);
        }
      }
    }

    method PushChildren(pending: seq<Id>, more: set<Id>) returns (r: seq<Id>)
      ensures forall n :: n in r <==> n in pending || n in more
    {
      r := pending;
      var todo := more;
      while todo != {}
        invariant todo <= more
        invariant forall n :: n in r <==> n in pending || (n in more && n !in todo)
        decreases |todo|
      {
        var n :| n in todo;
        todo := todo - {n};
        r := r + [n];
      }
    }

    /** Remove a node from its parent's set, and the set when it becomes empty. */
    method Unlink(nodeId: Id, parent: Id)
      modifies this`children
      ensures forall p, c :: IsChild(children, p, c) <==> IsChild(old(children), p, c) && !(p == parent && c == nodeId)
      ensures NoneEmpty(old(children)) ==> NoneEmpty(children)
    {
      if parent in children {
        var siblings := children[parent] - {nodeId};
        children := children[parent := siblings];
        assert forall c :: c in old(children)[parent] ==> c in siblings || c == nodeId;
        if siblings == {} {
          children := children - {parent};
        }
      }
    }

    /** Take one node out of both maps; `more` are its remaining children. */
    method Detach(current: Id, ghost was: map<Id, Relation>, ghost seen: set<Id>) returns (more: set<Id>)
      requires current !in seen && Left(nodes, was, seen) && Pruned(was, seen, children)
      modifies this`nodes, this`children
      ensures Left(nodes, was, seen + {current}) && Pruned(was, seen + {current}, children)
      ensures forall c :: c in more <==> c in was && c !in seen && c != current && was[c].parent == current
    {
      ghost var whole := children;
      if current in nodes {
        Unlink(current, nodes[current].parent);
      }
      ghost var linked := children;
      assert forall p, c :: IsChild(linked, p, c) <==> IsChild(whole, p, c) && c != current;
      more := if current in children then children[current] else {};
      children := children - {current};
      nodes := nodes - {current};
      OneLess(was, seen, current, whole, linked, children);
    }

    lemma OneLess(was: map<Id, Relation>, seen: set<Id>, current: Id,
                  whole: map<Id, set<Id>>, linked: map<Id, set<Id>>, after: map<Id, set<Id>>)
      requires Pruned(was, seen, whole) && NoneEmpty(linked) && after == linked - {current} && current !in seen
      requires forall p, c :: IsChild(linked, p, c) <==> IsChild(whole, p, c) && c != current
      ensures Pruned(was, seen + {current}, after)
      ensures forall c :: IsChild(linked, current, c) <==>
        c in was && c !in seen && c != current && was[c].parent == current
    {
      forall p, c ensures IsChild(after, p, c) <==> IsChild(whole, p, c) && c != current && p != current {
        assert IsChild(after, p, c) <==> IsChild(linked, p, c) && p != current;
      }
    }

    /** One node leaves, and its children come up. */
    method Visit(current: Id, pending: seq<Id>, ghost was: map<Id, Relation>, ghost nodeId: Id, ghost below: set<Id>,
                 ghost seen: set<Id>) returns (next: seq<Id>)
      requires Progress(was, nodeId, below, pending + [current], seen) && current !in seen
      requires forall c :: c in was && was[c].parent in below ==> c in below
      requires Left(nodes, was, seen) && Pruned(was, seen, children)
      modifies this`nodes, this`children
      ensures Progress(was, nodeId, below, next, seen + {current}) && |seen| < |below|
      ensures Left(nodes, was, seen + {current}) && Pruned(was, seen + {current}, children)
    {
      var more := Detach(current, was, seen);
      next := PushChildren(pending, more);
      Progressed(was, nodeId, below, pending, current, seen, more, next);
    }

    /** Deletes the node and precisely what is below it; the bound on `seen` cuts nothing off. */
    method Remove(nodeId: Id)
      requires Valid()
      modifies this`nodes, this`children
      ensures Valid()
      ensures forall n :: n in nodes <==> n in old(nodes) && !Below(old(nodes), nodeId, n)
      ensures forall n :: n in nodes ==> nodes[n] == old(nodes)[n]
    {
      ghost var was := nodes;
      ghost var below := set n | n in was.Keys + {nodeId} && Below(was, nodeId, n);
      BelowIsClosed(was, nodeId, below);
      var seen, pending := RemoveEach(nodeId, was, below);
      RemovedExactly(was, nodeId, below, pending, seen);
      PrunedIsInverse(nodes, was, seen, children);
    }

    /** The loop of the removal; `below` is any set that is closed under children. */
    method RemoveEach(nodeId: Id, ghost was: map<Id, Relation>, ghost below: set<Id>)
        returns (seen: set<Id>, pending: seq<Id>)
      requires nodes == was && Inverse(was, children) && nodeId in below
      requires forall c :: c in was && was[c].parent in below ==> c in below
      modifies this`nodes, this`children
      ensures Progress(was, nodeId, below, pending, seen) && (pending == [] || |seen| > limit)
      ensures Left(nodes, was, seen) && Pruned(was, seen, children)
    {
      seen, pending := {}, [nodeId];
      NothingSeen(was, nodeId, below, children);
      while pending != [] && |seen| <= limit
        invariant Progress(was, nodeId, below, pending, seen)
        invariant Left(nodes, was, seen) && Pruned(was, seen, children)
        decreases |below| - |seen|, |pending|
      {
        var current := pending[|pending|-1];
        ghost var before := pending;
        pending := pending[..|pending|-1];
        assert before == pending + [current];
        if current in seen {
          Skipped(was, nodeId, below, pending, current, seen);
          continue;
        }
        pending := Visit(current, pending, was, nodeId, below, seen);
        seen := seen + {current};
      }
    }

    lemma NothingSeen(was: map<Id, Relation>, nodeId: Id, below: set<Id>, children: map<Id, set<Id>>)
      requires Inverse(was, children) && nodeId in below
      ensures Progress(was, nodeId, below, [nodeId], {}) && Left(was, was, {}) && Pruned(was, {}, children)
    {
    }

    lemma PrunedIsInverse(nodes: map<Id, Relation>, was: map<Id, Relation>, seen: set<Id>, children: map<Id, set<Id>>)
      requires Left(nodes, was, seen) && Pruned(was, seen, children)
      requires forall c :: c in was && c !in seen ==> was[c].parent !in seen
      ensures Inverse(nodes, children) && |nodes| <= |was|
    {
      forall n | n in nodes ensures n in was {
      }
      SubsetSize(nodes.Keys, was.Keys);
    }

    ghost predicate Left(nodes: map<Id, Relation>, was: map<Id, Relation>, seen: set<Id>) {
      && (forall n :: n in nodes <==> n in was && n !in seen)
      && (forall n :: n in nodes ==> nodes[n] == was[n])
    }

    lemma Skipped(was: map<Id, Relation>, nodeId: Id, below: set<Id>, rest: seq<Id>, current: Id, seen: set<Id>)
      requires Progress(was, nodeId, below, rest + [current], seen) && current in seen
      ensures Progress(was, nodeId, below, rest, seen)
    {
      assert forall n :: n in rest ==> n in rest + [current];
      assert forall n :: n in rest + [current] ==> n in rest || n == current;
    }

    /** Every known node whose parent has been seen is seen or pending. */
    ghost predicate Progress(was: map<Id, Relation>, nodeId: Id, below: set<Id>, pending: seq<Id>, seen: set<Id>) {
      && seen <= below && |seen| <= |below| && (nodeId in seen || nodeId in pending)
      && (forall n :: n in pending ==> n in below)
      && (forall c :: c in was && c !in seen && was[c].parent in seen ==> c in pending)
    }

    lemma Progressed(was: map<Id, Relation>, nodeId: Id, below: set<Id>, rest: seq<Id>, current: Id, seen: set<Id>,
                     more: set<Id>, pending: seq<Id>)
      requires Progress(was, nodeId, below, rest + [current], seen) && current !in seen
      requires forall c :: c in was && was[c].parent in below ==> c in below
      requires forall c :: c in more <==> c in was && c !in seen && c != current && was[c].parent == current
      requires forall n :: n in pending <==> n in rest || n in more
      ensures Progress(was, nodeId, below, pending, seen + {current}) && |seen| < |below|
    {
      assert current in rest + [current];
      assert forall n :: n in rest ==> n in rest + [current];
      assert forall n :: n in rest + [current] ==> n in rest || n == current;
      SubsetSize(seen + {current}, below);
    }

    /** Whichever way the loop ends, all that is below the node has been seen. */
    lemma RemovedExactly(was: map<Id, Relation>, nodeId: Id, below: set<Id>, pending: seq<Id>, seen: set<Id>)
      requires |was| <= limit && below == set n | n in was.Keys + {nodeId} && Below(was, nodeId, n)
      requires Progress(was, nodeId, below, pending, seen) && (pending == [] || |seen| > limit)
      ensures forall n :: n in was ==> (n in seen <==> Below(was, nodeId, n))
      ensures forall c :: c in was && c !in seen ==> was[c].parent !in seen
    {
      SubsetSize(seen, was.Keys + {nodeId});
      assert |was.Keys + {nodeId}| <= |was| + 1;
      assert nodeId in seen && forall c :: c in was && was[c].parent in seen ==> c in seen;
      AllBelowSeen(was, nodeId, seen);
    }

    lemma BelowIsClosed(was: map<Id, Relation>, nodeId: Id, below: set<Id>)
      requires below == set n | n in was.Keys + {nodeId} && Below(was, nodeId, n)
      ensures nodeId in below
      ensures forall c :: c in was && was[c].parent in below ==> c in below
    {
      assert Up(was, nodeId, 0) == Some(nodeId);
      forall c | c in was && was[c].parent in below ensures c in below {
        DomBelowChild(was, nodeId, c);
      }
    }

    lemma AllBelowSeen(was: map<Id, Relation>, nodeId: Id, seen: set<Id>)
      requires nodeId in seen && forall c :: c in was && was[c].parent in seen ==> c in seen
      ensures forall n :: Below(was, nodeId, n) ==> n in seen
    {
      forall n | Below(was, nodeId, n) ensures n in seen {
        BelowIsLeast(was, nodeId, seen, n);
      }
    }

    /** The index of what is left, without the sets of the nodes already dealt with. */
    ghost predicate Pruned(was: map<Id, Relation>, seen: set<Id>, children: map<Id, set<Id>>) {
      && (forall p, c :: IsChild(children, p, c) ==> p !in seen && c !in seen && c in was && was[c].parent == p)
      && (forall c :: c in was && c !in seen && was[c].parent !in seen ==> IsChild(children, was[c].parent, c))
      && NoneEmpty(children)
    }

    /** Set one relation; a node that moves leaves its old parent's set. */
    method Link(nodeId: Id, backend: Id, parent: Id)
      requires Inverse(nodes, children)
      modifies this`nodes, this`children
      ensures nodes == old(nodes)[nodeId := Relation(backend, parent)] && Inverse(nodes, children)
    {
      if nodeId in nodes && nodes[nodeId].parent != parent {
        Unlink(nodeId, nodes[nodeId].parent);
      }
      ghost var linked := children;
      assert forall p, c :: IsChild(linked, p, c) ==>
        c in nodes && nodes[c].parent == p && (c == nodeId ==> p == parent);
      nodes := nodes[nodeId := Relation(backend, parent)];
      var siblings := if parent in children then children[parent] else {};
      children := children[parent := siblings + {nodeId}];
      assert forall p, c :: IsChild(children, p, c) <==> IsChild(linked, p, c) || (p == parent && c == nodeId);
    }

    method PushAll(pending: seq<(Raw, Id)>, items: seq<Raw>, parent: Id) returns (r: seq<(Raw, Id)>)
      ensures r == pending + Push(items, parent)
    {
      r := pending;
      var i := 0;
      while i < |items|
        invariant i <= |items| && r == pending + Push(items, parent)[..i]
      {
        r := r + [(items[i], parent)];
        i := i + 1;
      }
    }

    /** Reads the descriptions into the index, or, where they are too many or leave too many nodes,
        empties the index for good. */
    method Remember(rawNodes: seq<Raw>, parent: Id)
      requires Valid()
      modifies this
      ensures Valid()
      ensures old(exhausted) || !IsId(parent) ==> nodes == old(nodes) && exhausted == old(exhausted)
      ensures !old(exhausted) && IsId(parent) ==>
        var all := Overlaid(old(nodes), EdgesAll(rawNodes, parent));
        if CountAll(rawNodes) > limit || |all| > limit then exhausted else !exhausted && nodes == all
    {
      if exhausted || !IsId(parent) { return; }
      PushedAll(rawNodes, parent);
      CountAtLeastLength(Push(rawNodes, parent));
      if |rawNodes| > limit {
        Exhaust();
        return;
      }
      ghost var total := CountAll(rawNodes);
      ghost var all := Overlaid(nodes, EdgesAll(rawNodes, parent));
      var pending := PushAll([], rawNodes, parent);
      assert pending == Push(rawNodes, parent);
      var scanned := 0;
      while pending != []
        invariant scanned <= limit && scanned + CountStack(pending) == total
        invariant Valid() && !exhausted && Overlaid(nodes, EdgesStack(pending)) == all
        decreases limit - scanned
      {
        CountAtLeastLength(pending);
        scanned := scanned + 1;
        if scanned > limit {
          Exhaust();
          return;
        }
        var (node, above) := pending[|pending|-1];
        if !Known(node) {
          assert EdgesStack(pending) == EdgesStack(pending[..|pending|-1]);
          assert CountStack(pending) == CountStack(pending[..|pending|-1]) + 1;
          pending := pending[..|pending|-1];
          continue;
        }
        StackStep(pending);
        ghost var rest := pending[..|pending|-1] + Push(node.children, node.nodeId) +
          Push(node.shadowRoots, node.nodeId);
        CountAtLeastLength(rest);
        ghost var edges := EdgesStack(pending);
        assert edges[0] == (node.nodeId, Relation(node.backend, above)) && edges[1..] == EdgesStack(rest);
        OverlaidKeepsKeys(nodes[edges[0].0 := edges[0].1], edges[1..]);
        SmallerKeys(nodes[edges[0].0 := edges[0].1], all);
        pending := pending[..|pending|-1];
        if node.nodeId !in nodes && |nodes| >= limit {
          Exhaust();
          return;
        }
        Link(node.nodeId, node.backend, above);
        if scanned + |pending| + |node.children| > limit {
          Exhaust();
          return;
        }
        pending := PushAll(pending, node.children, node.nodeId);
        if scanned + |pending| + |node.shadowRoots| > limit {
          Exhaust();
          return;
        }
        pending := PushAll(pending, node.shadowRoots, node.nodeId);
        assert pending == rest;
      }
    }
  }
}
