/** `applyBrowserRuntimeDelta` as the source writes it: loops over local copies. */
module RuntimeDelta {
  import opened Wrappers
  import opened BrowserState
  import opened Merge
  import opened MergeProofs

  method IndexById(items: seq<RecoveryItem>) returns (m: map<RecoveryId, RecoveryItem>)
    ensures m == ById(items)
  {
    m := map[];
    var i := 0;
    while i < |items|
      invariant i <= |items|
      invariant m == ById(items[..i])
    {
      assert items[..i+1][..i] == items[..i];
      m := m[items[i].id := items[i]];
      i := i + 1;
    }
    assert items[..i] == items;
  }

  method FindIndex(items: seq<RecoveryItem>, id: RecoveryId) returns (i: nat)
    ensures i <= |items|
    ensures i < |items| ==> items[i].id == id
    ensures i == |items| ==> id !in Ids(items)
  {
    i := 0;
    while i < |items| && items[i].id != id
      invariant i <= |items|
      invariant forall j :: 0 <= j < i ==> items[j].id != id
    {
      i := i + 1;
    }
  }

  predicate DeletedByHost(c: map<BrowserId, Record>, p: map<BrowserId, Record>, r: map<BrowserId, Record>,
      id: BrowserId) {
    id in c && id in p && id !in r && c[id] == p[id]
  }

  predicate ChangedByHost(p: map<BrowserId, Record>, r: map<BrowserId, Record>, id: BrowserId) {
    id in r && (id !in p || p[id] != r[id])
  }

  method DeleteRecords(c: map<BrowserId, Record>, p: map<BrowserId, Record>, r: map<BrowserId, Record>)
    returns (records: map<BrowserId, Record>)
    ensures forall id :: id in records <==> id in c && !DeletedByHost(c, p, r, id)
    ensures forall id :: id in records ==> records[id] == c[id]
  {
    records := c;
    var todo := p.Keys;
    while todo != {}
      invariant todo <= p.Keys
      invariant forall id :: id in records <==> id in c && (id in todo || !DeletedByHost(c, p, r, id))
      invariant forall id :: id in records ==> records[id] == c[id]
      decreases |todo|
    {
      var id :| id in todo;
      todo := todo - {id};
      if id !in r && id in c && c[id] == p[id] {
        records := records - {id};
      }
    }
  }

  method ChangeRecords(d: map<BrowserId, Record>, p: map<BrowserId, Record>, r: map<BrowserId, Record>)
    returns (records: map<BrowserId, Record>)
    ensures forall id :: id in records <==> ChangedByHost(p, r, id) || id in d
    ensures forall id :: id in records ==> records[id] == if ChangedByHost(p, r, id) then r[id] else d[id]
  {
    records := d;
    var todo := r.Keys;
    while todo != {}
      invariant todo <= r.Keys
      invariant forall id :: id in records <==> (id !in todo && ChangedByHost(p, r, id)) || id in d
      invariant forall id :: id in records ==>
          records[id] == if id !in todo && ChangedByHost(p, r, id) then r[id] else d[id]
      decreases |todo|
    {
      var id :| id in todo;
      todo := todo - {id};
      if id !in p || p[id] != r[id] {
        records := records[id := r[id]];
      }
    }
  }

  method ApplyRecords(c: map<BrowserId, Record>, p: map<BrowserId, Record>, r: map<BrowserId, Record>)
    returns (records: map<BrowserId, Record>)
    ensures records == MergedRecords(c, p, r)
  {
    records := DeleteRecords(c, p, r);
    records := ChangeRecords(records, p, r);
    forall id ensures Get(records, id) == MergedAt(c, p, r, id) {
      assert id in records <==> ChangedByHost(p, r, id) || (id in c && !DeletedByHost(c, p, r, id));
    }
    FromGets(records, MergedRecords(c, p, r));
  }

  method Reconcile(c: seq<RecoveryItem>, prior: map<RecoveryId, RecoveryItem>, next: map<RecoveryId, RecoveryItem>)
    returns (recovery: seq<RecoveryItem>)
    requires Unique(c) && forall id :: id in next ==> next[id].id == id
    ensures recovery == Kept(c, prior.Keys, prior, next)
  {
    recovery := c;
    var todo := prior.Keys;
    KeptNothingYet(c, prior, next);
    while todo != {}
      invariant todo <= prior.Keys
      invariant recovery == Kept(c, prior.Keys - todo, prior, next)
      decreases |todo|
    {
      var id :| id in todo;
      ghost var done := prior.Keys - todo;
      todo := todo - {id};
      assert prior.Keys - todo == done + {id};
      var at := FindIndex(recovery, id);
      if at == |recovery| {
        KeptAbsent(c, done, prior, next, id);
      } else {
        KeptStep(c, done, prior, next, id, at);
        if id !in next && recovery[at] == prior[id] {
          recovery := recovery[..at] + recovery[at+1..];
        } else if id in next && recovery[at] == prior[id] {
          recovery := recovery[at := next[id]];
        }
      }
    }
    assert prior.Keys - todo == prior.Keys;
  }

  method ApplyRecovery(c: seq<RecoveryItem>, p: seq<RecoveryItem>, r: seq<RecoveryItem>)
      returns (recovery: seq<RecoveryItem>)
    requires Unique(c)
    ensures recovery == MergedRecovery(c, p, r)
  {
    var prior := IndexById(p);
    var next := IndexById(r);
    var kept := Reconcile(c, prior, next);
    recovery := AppendNew(kept, r, prior.Keys + Ids(kept));
  }

  /** The items that nobody knows yet, in their order. */
  method AppendNew(kept: seq<RecoveryItem>, r: seq<RecoveryItem>, start: set<RecoveryId>)
      returns (recovery: seq<RecoveryItem>)
    ensures recovery == kept + Added(r, start)
  {
    recovery := kept;
    var known := start;
    var i := 0;
    while i < |r|
      invariant i <= |r|
      invariant recovery + Added(r[i..], known) == kept + Added(r, start)
    {
      assert r[i..][1..] == r[i+1..];
      if r[i].id !in known {
        recovery := recovery + [r[i]];
        known := known + {r[i].id};
      }
      i := i + 1;
    }
  }

  lemma {:induction false} KeptNothingYet(c: seq<RecoveryItem>, prior: map<RecoveryId, RecoveryItem>,
      next: map<RecoveryId, RecoveryItem>)
    ensures Kept(c, {}, prior, next) == c
    ensures Kept(c, prior.Keys - prior.Keys, prior, next) == c
  {
    assert prior.Keys - prior.Keys == {};
    if c != [] {
      KeptNothingYet(c[1..], prior, next);
    }
  }

  method ApplyBrowserRuntimeDelta(current: StateFile, previous: StateFile, runtime: StateFile) returns (r: StateFile)
    requires Unique(current.recovery)
    ensures r == Merged(current, previous, runtime)
  {
    var records := ApplyRecords(current.records, previous.records, runtime.records);
    var recovery := ApplyRecovery(current.recovery, previous.recovery, runtime.recovery);
    r := current.(
      revision := current.revision + 1, profile := runtime.profile, records := records, recovery := recovery);
  }
}
