/** The three-way merge of the host's snapshot into the state file (`applyBrowserRuntimeDelta`). */
module Merge {
  import opened Wrappers
  import opened BrowserState

  function Get<K, V>(m: map<K, V>, k: K): Option<V> {
    if k in m then Some(m[k]) else None
  }

  // ---------- Records ----------

  /** The host's own change wins; its deletion only where nobody else changed the record. */
  function MergedRecord(current: Option<Record>, previous: Option<Record>, runtime: Option<Record>): Option<Record> {
    if runtime.Some? && runtime != previous then runtime
    else if runtime.None? && previous.Some? && current == previous then None
    else current
  }

  function MergedAt(c: map<BrowserId, Record>, p: map<BrowserId, Record>, r: map<BrowserId, Record>,
      id: BrowserId): Option<Record> {
    MergedRecord(Get(c, id), Get(p, id), Get(r, id))
  }

  function MergedRecords(c: map<BrowserId, Record>, p: map<BrowserId, Record>,
                         r: map<BrowserId, Record>): (m: map<BrowserId, Record>)
    ensures forall id :: Get(m, id) == MergedAt(c, p, r, id)
  {
    map id | id in c.Keys + r.Keys && MergedAt(c, p, r, id).Some? :: MergedAt(c, p, r, id).value
  }

  // ---------- Recovery items ----------

  /** Items by identity; of two with one id the later counts. */
  function ById(items: seq<RecoveryItem>): (m: map<RecoveryId, RecoveryItem>)
    ensures forall id :: id in m ==> m[id].id == id && m[id] in items
    ensures forall x :: x in items ==> x.id in m
  {
    if items == [] then map[]
    else
      assert items == items[..|items|-1] + [items[|items|-1]];
      ById(items[..|items|-1])[items[|items|-1].id := items[|items|-1]]
  }

  predicate Unique(items: seq<RecoveryItem>) {
    forall i, j :: 0 <= i < j < |items| ==> items[i].id != items[j].id
  }

  function Ids(items: seq<RecoveryItem>): set<RecoveryId> {
    set x | x in items :: x.id
  }

  /** What becomes of one item of the file, when the host changed the items in `done`. */
  function KeptItem(x: RecoveryItem, done: set<RecoveryId>, prior: map<RecoveryId, RecoveryItem>,
                    next: map<RecoveryId, RecoveryItem>): seq<RecoveryItem> {
    if x.id in done && Get(prior, x.id) == Some(x) then if x.id in next then [next[x.id]] else []
    else [x]
  }

  function Kept(current: seq<RecoveryItem>, done: set<RecoveryId>, prior: map<RecoveryId, RecoveryItem>,
                next: map<RecoveryId, RecoveryItem>): seq<RecoveryItem> {
    if current == [] then []
    else KeptItem(current[0], done, prior, next) + Kept(current[1..], done, prior, next)
  }

  /** The host's new items, in the host's order, where neither side knows their ids. */
  function Added(runtime: seq<RecoveryItem>, known: set<RecoveryId>): seq<RecoveryItem> {
    if runtime == [] then []
    else if runtime[0].id in known then Added(runtime[1..], known)
    else [runtime[0]] + Added(runtime[1..], known + {runtime[0].id})
  }

  function MergedRecovery(c: seq<RecoveryItem>, p: seq<RecoveryItem>, r: seq<RecoveryItem>): seq<RecoveryItem> {
    var prior, next := ById(p), ById(r);
    var kept := Kept(c, prior.Keys, prior, next);
    kept + Added(r, prior.Keys + Ids(kept))
  }

  function Merged(current: StateFile, previous: StateFile, runtime: StateFile): StateFile {
    current.(revision := current.revision + 1, profile := runtime.profile,
             records := MergedRecords(current.records, previous.records, runtime.records),
             recovery := MergedRecovery(current.recovery, previous.recovery, runtime.recovery))
  }

  // ---------- Facts about items ----------

  lemma {:induction false} KeptIds(c: seq<RecoveryItem>, done: set<RecoveryId>, prior: map<RecoveryId, RecoveryItem>,
                                   next: map<RecoveryId, RecoveryItem>)
    requires Unique(c) && (forall id :: id in next ==> next[id].id == id)
    ensures Unique(Kept(c, done, prior, next))
    ensures forall x :: x in Kept(c, done, prior, next) ==> x.id in Ids(c)
  {
    if c != [] {
      KeptIds(c[1..], done, prior, next);
      var rest := Kept(c[1..], done, prior, next);
      assert forall x :: x in rest ==> x.id in Ids(c[1..]) && x.id != c[0].id;
    }
  }

  lemma {:induction false} KeptConcat(a: seq<RecoveryItem>, b: seq<RecoveryItem>, done: set<RecoveryId>,
                                      prior: map<RecoveryId, RecoveryItem>, next: map<RecoveryId, RecoveryItem>)
    ensures Kept(a + b, done, prior, next) == Kept(a, done, prior, next) + Kept(b, done, prior, next)
  {
    if a == [] {
      assert a + b == b;
    } else {
      assert (a + b)[0] == a[0] && (a + b)[1..] == a[1..] + b;
      KeptConcat(a[1..], b, done, prior, next);
    }
  }

  /** Working off one more id changes at most the one item that carries it. */
  lemma KeptStep(c: seq<RecoveryItem>, done: set<RecoveryId>, prior: map<RecoveryId, RecoveryItem>,
                 next: map<RecoveryId, RecoveryItem>, id: RecoveryId, i: nat)
    requires Unique(c) && id in prior && id !in done && (forall k :: k in next ==> next[k].id == k)
    requires i < |Kept(c, done, prior, next)| && Kept(c, done, prior, next)[i].id == id
    ensures var s := Kept(c, done, prior, next);
      Kept(c, done + {id}, prior, next) ==
        if s[i] != prior[id] then s else if id in next then s[i := next[id]] else s[..i] + s[i+1..]
  {
    KeptIds(c, done, prior, next);
    assert Kept(c, done, prior, next)[i] in Kept(c, done, prior, next);
    var n := FindItem(c, id);
    var before, x, after := c[..n], c[n], c[n+1..];
    var a, b := Kept(before, done, prior, next), Kept(after, done, prior, next);
    KeptAround(c, done, prior, next, n);
    assert KeptItem(x, done, prior, next) == [x];
    Locate(a, x, b, i);
  }

  lemma FindItem(c: seq<RecoveryItem>, id: RecoveryId) returns (n: nat)
    requires id in Ids(c)
    ensures n < |c| && c[n].id == id
  {
    n :| 0 <= n < |c| && c[n].id == id;
  }

  lemma KeptAround(c: seq<RecoveryItem>, done: set<RecoveryId>, prior: map<RecoveryId, RecoveryItem>,
                   next: map<RecoveryId, RecoveryItem>, n: nat)
    requires Unique(c) && n < |c|
    ensures var a, b := Kept(c[..n], done, prior, next), Kept(c[n+1..], done, prior, next);
      && Kept(c, done, prior, next) == a + KeptItem(c[n], done, prior, next) + b
      && Kept(c, done + {c[n].id}, prior, next) == a + KeptItem(c[n], done + {c[n].id}, prior, next) + b
  {
    assert c == c[..n] + ([c[n]] + c[n+1..]);
    Split(c[..n], c[n], c[n+1..], done, prior, next);
    Split(c[..n], c[n], c[n+1..], done + {c[n].id}, prior, next);
    KeptUntouched(c[..n], done, prior, next, c[n].id);
    KeptUntouched(c[n+1..], done, prior, next, c[n].id);
  }

  /** The one place of an id, and what replacing or removing the item there gives. */
  lemma Locate(a: seq<RecoveryItem>, x: RecoveryItem, b: seq<RecoveryItem>, i: nat)
    requires Unique(a + [x] + b) && i < |a + [x] + b| && (a + [x] + b)[i].id == x.id
    ensures i == |a| && (a + [x] + b)[i] == x
    ensures (a + [x] + b)[..i] + (a + [x] + b)[i+1..] == a + [] + b
    ensures forall y :: (a + [x] + b)[i := y] == a + [y] + b
  {
    var s := a + [x] + b;
    assert s[|a|] == x;
  }

  lemma Split(before: seq<RecoveryItem>, x: RecoveryItem, after: seq<RecoveryItem>, done: set<RecoveryId>,
              prior: map<RecoveryId, RecoveryItem>, next: map<RecoveryId, RecoveryItem>)
    ensures Kept(before + ([x] + after), done, prior, next)
            == Kept(before, done, prior, next) + KeptItem(x, done, prior, next) + Kept(after, done, prior, next)
  {
    KeptConcat(before, [x] + after, done, prior, next);
    assert ([x] + after)[1..] == after;
  }

  lemma {:induction false} KeptUntouched(c: seq<RecoveryItem>, done: set<RecoveryId>,
                                         prior: map<RecoveryId, RecoveryItem>,
                                         next: map<RecoveryId, RecoveryItem>, id: RecoveryId)
    requires id !in Ids(c)
    ensures Kept(c, done + {id}, prior, next) == Kept(c, done, prior, next)
  {
    if c != [] {
      assert forall x :: x in c[1..] ==> x in c;
      assert c[0].id in Ids(c);
      KeptUntouched(c[1..], done, prior, next, id);
    }
  }

  /** An item that is gone already stays gone. */
  lemma KeptAbsent(c: seq<RecoveryItem>, done: set<RecoveryId>, prior: map<RecoveryId, RecoveryItem>,
                   next: map<RecoveryId, RecoveryItem>, id: RecoveryId)
    requires id !in done && id !in Ids(Kept(c, done, prior, next))
    ensures Kept(c, done + {id}, prior, next) == Kept(c, done, prior, next)
  {
    if id in Ids(c) {
      KeptPresent(c, done, prior, next, id);
    } else {
      KeptUntouched(c, done, prior, next, id);
    }
  }

  lemma {:induction false} KeptPresent(c: seq<RecoveryItem>, done: set<RecoveryId>,
                                       prior: map<RecoveryId, RecoveryItem>,
                                       next: map<RecoveryId, RecoveryItem>, id: RecoveryId)
    requires id !in done && id in Ids(c)
    ensures id in Ids(Kept(c, done, prior, next))
  {
    var rest := Kept(c[1..], done, prior, next);
    if c[0].id == id {
      assert Kept(c, done, prior, next)[0] == c[0];
    } else {
      var x :| x in c && x.id == id;
      assert x in c[1..];
      KeptPresent(c[1..], done, prior, next, id);
      var y :| y in rest && y.id == id;
      assert y in Kept(c, done, prior, next);
    }
  }
}
