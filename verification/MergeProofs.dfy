/** What the merge means for one id, for repeated merges, and for a whole run of saves. */
module MergeProofs {
  import opened Wrappers
  import opened BrowserState
  import opened Merge
  import J = Journal
  import Runs

  // ---------- Items by identity ----------

  lemma {:induction false} ByIdUnique(s: seq<RecoveryItem>, x: RecoveryItem)
    requires Unique(s) && x in s
    ensures ById(s)[x.id] == x
  {
    var n := |s| - 1;
    assert s == s[..n] + [s[n]];
    if x != s[n] {
      ByIdUnique(s[..n], x);
    }
  }

  /** In a list without repeated ids, looking an id up and being a member are the same. */
  lemma LookUp(s: seq<RecoveryItem>, id: RecoveryId, x: RecoveryItem)
    requires Unique(s)
    ensures Get(ById(s), id) == Some(x) <==> x in s && x.id == id
  {
    if x in s {
      ByIdUnique(s, x);
    }
  }

  lemma {:induction false} KeptMembers(c: seq<RecoveryItem>, done: set<RecoveryId>,
                                       prior: map<RecoveryId, RecoveryItem>,
                                       next: map<RecoveryId, RecoveryItem>, y: RecoveryItem)
    ensures y in Kept(c, done, prior, next) <==> exists x :: x in c && y in KeptItem(x, done, prior, next)
  {
    if c != [] {
      KeptMembers(c[1..], done, prior, next, y);
      assert forall x :: x in c <==> x == c[0] || x in c[1..];
    }
  }

  lemma {:induction false} AddedMembers(r: seq<RecoveryItem>, known: set<RecoveryId>, y: RecoveryItem)
    requires Unique(r)
    ensures y in Added(r, known) <==> y in r && y.id !in known
    ensures Unique(Added(r, known))
  {
    if r != [] {
      var known' := if r[0].id in known then known else known + {r[0].id};
      assert forall i :: 1 <= i < |r| ==> r[i].id != r[0].id;
      forall z ensures z in Added(r[1..], known') <==> z in r[1..] && z.id !in known' {
        AddedMembers(r[1..], known', z);
      }
      AddedMembers(r[1..], known', y);
      assert y in r <==> y == r[0] || y in r[1..];
    }
  }

  // ---------- The three-way law ----------

  /** Whoever changed the item alone has his way; where both changed it the file keeps its own. */
  function MergedItem(current: Option<RecoveryItem>, previous: Option<RecoveryItem>,
      runtime: Option<RecoveryItem>): Option<RecoveryItem> {
    if previous.Some? then if current == previous then runtime else current
    else if current.Some? then current else runtime
  }

  lemma RecoveryLaw(c: seq<RecoveryItem>, p: seq<RecoveryItem>, r: seq<RecoveryItem>, id: RecoveryId)
    requires Unique(c) && Unique(r)
    ensures Unique(MergedRecovery(c, p, r))
    ensures Get(ById(MergedRecovery(c, p, r)), id) == MergedItem(Get(ById(c), id), Get(ById(p), id), Get(ById(r), id))
  {
    MergedUnique(c, p, r);
    var m := MergedRecovery(c, p, r);
    var expected := MergedItem(Get(ById(c), id), Get(ById(p), id), Get(ById(r), id));
    forall y: RecoveryItem | y.id == id ensures y in m <==> expected == Some(y) {
      MergedMembers(c, p, r, y);
    }
    if expected.Some? {
      assert expected.value.id == id;
      LookUp(m, id, expected.value);
    } else if id in ById(m) {
      LookUp(m, id, ById(m)[id]);
    }
  }

  lemma MergedUnique(c: seq<RecoveryItem>, p: seq<RecoveryItem>, r: seq<RecoveryItem>)
    requires Unique(c) && Unique(r)
    ensures Unique(MergedRecovery(c, p, r))
  {
    var prior, next := ById(p), ById(r);
    var kept := Kept(c, prior.Keys, prior, next);
    KeptIds(c, prior.Keys, prior, next);
    var added := Added(r, prior.Keys + Ids(kept));
    forall i | 0 <= i < |added| ensures added[i].id !in Ids(kept) {
      AddedMembers(r, prior.Keys + Ids(kept), added[i]);
    }
    AddedMembersUnique(r, prior.Keys + Ids(kept));
    assert forall i :: 0 <= i < |kept| ==> kept[i].id in Ids(kept);
  }

  lemma AddedMembersUnique(r: seq<RecoveryItem>, known: set<RecoveryId>)
    requires Unique(r)
    ensures Unique(Added(r, known))
  {
    AddedMembers(r, known, RecoveryItem(0, 0, 0, "", 0));
  }

  lemma KeptLookUp(c: seq<RecoveryItem>, p: seq<RecoveryItem>, r: seq<RecoveryItem>, y: RecoveryItem)
    requires Unique(c)
    ensures var current, previous, runtime := Get(ById(c), y.id), Get(ById(p), y.id), Get(ById(r), y.id);
      y in Kept(c, ById(p).Keys, ById(p), ById(r)) <==>
        if current.Some? && current == previous then runtime == Some(y) else current == Some(y)
  {
    var prior, next := ById(p), ById(r);
    KeptMembers(c, prior.Keys, prior, next, y);
    forall z | z in c && y in KeptItem(z, prior.Keys, prior, next) ensures Get(ById(c), y.id) == Some(z) {
      KeptItemIs(p, r, z, y);
      ByIdUnique(c, z);
    }
    if y.id in ById(c) {
      KeptItemIs(p, r, ById(c)[y.id], y);
    }
  }

  lemma KeptItemIs(p: seq<RecoveryItem>, r: seq<RecoveryItem>, x: RecoveryItem, y: RecoveryItem)
    ensures y in KeptItem(x, ById(p).Keys, ById(p), ById(r)) ==> y.id == x.id
    ensures y.id == x.id ==>
      (y in KeptItem(x, ById(p).Keys, ById(p), ById(r)) <==>
        if Get(ById(p), x.id) == Some(x) then Get(ById(r), x.id) == Some(y) else x == y)
  {
  }

  lemma KeptNewId(c: seq<RecoveryItem>, p: seq<RecoveryItem>, r: seq<RecoveryItem>, id: RecoveryId)
    requires Unique(c) && id !in ById(p)
    ensures id in Ids(Kept(c, ById(p).Keys, ById(p), ById(r))) <==> id in ById(c)
  {
    var kept := Kept(c, ById(p).Keys, ById(p), ById(r));
    if id in ById(c) {
      KeptLookUp(c, p, r, ById(c)[id]);
    }
    if id in Ids(kept) {
      var z :| z in kept && z.id == id;
      KeptLookUp(c, p, r, z);
    }
  }

  lemma MergedMembers(c: seq<RecoveryItem>, p: seq<RecoveryItem>, r: seq<RecoveryItem>, y: RecoveryItem)
    requires Unique(c) && Unique(r)
    ensures y in MergedRecovery(c, p, r) <==>
            MergedItem(Get(ById(c), y.id), Get(ById(p), y.id), Get(ById(r), y.id)) == Some(y)
  {
    var kept := Kept(c, ById(p).Keys, ById(p), ById(r));
    KeptLookUp(c, p, r, y);
    AddedMembers(r, ById(p).Keys + Ids(kept), y);
    LookUp(r, y.id, y);
    if y.id !in ById(p) {
      KeptNewId(c, p, r, y.id);
    }
  }

  // ---------- Order ----------

  /** The ids of `a` come in the order in which they stand in `b`. */
  ghost predicate Follows(a: seq<RecoveryItem>, b: seq<RecoveryItem>) {
    forall i, j :: 0 <= i < j < |a| ==> Ordered(b, a[i].id, a[j].id)
  }

  ghost predicate Ordered(b: seq<RecoveryItem>, x: RecoveryId, y: RecoveryId) {
    exists k, l :: 0 <= k < l < |b| && b[k].id == x && b[l].id == y
  }

  lemma OrderedLater(b: seq<RecoveryItem>, x: RecoveryId, y: RecoveryId)
    requires b != [] && Ordered(b[1..], x, y)
    ensures Ordered(b, x, y)
  {
    var k, l :| 0 <= k < l < |b[1..]| && b[1..][k].id == x && b[1..][l].id == y;
    assert b[k + 1].id == x && b[l + 1].id == y;
  }

  lemma OrderedFirst(b: seq<RecoveryItem>, y: RecoveryId)
    requires b != [] && y in Ids(b[1..])
    ensures Ordered(b, b[0].id, y)
  {
    var z :| z in b[1..] && z.id == y;
    var l :| 0 <= l < |b[1..]| && b[1..][l] == z;
    assert b[l + 1].id == y;
  }

  lemma {:induction false} KeptFollows(
      c: seq<RecoveryItem>, done: set<RecoveryId>, prior: map<RecoveryId, RecoveryItem>,
      next: map<RecoveryId, RecoveryItem>)
    requires forall id :: id in next ==> next[id].id == id
    ensures Follows(Kept(c, done, prior, next), c)
    ensures Ids(Kept(c, done, prior, next)) <= Ids(c)
  {
    if c != [] {
      var rest := Kept(c[1..], done, prior, next);
      KeptFollows(c[1..], done, prior, next);
      FollowsMore(KeptItem(c[0], done, prior, next), rest, c);
    }
  }

  /** One more at the front. */
  lemma FollowsMore(one: seq<RecoveryItem>, rest: seq<RecoveryItem>, b: seq<RecoveryItem>)
    requires b != [] && |one| <= 1 && (one != [] ==> one[0].id == b[0].id)
    requires Follows(rest, b[1..]) && Ids(rest) <= Ids(b[1..])
    ensures Follows(one + rest, b) && Ids(one + rest) <= Ids(b)
  {
    var a := one + rest;
    forall i, j | 0 <= i < j < |a| ensures Ordered(b, a[i].id, a[j].id) {
      assert a[j] == rest[j - |one|] && a[j].id in Ids(rest);
      if i < |one| {
        OrderedFirst(b, a[j].id);
      } else {
        assert a[i] == rest[i - |one|];
        OrderedLater(b, a[i].id, a[j].id);
      }
    }
    IdsMore(one, rest, b);
  }

  lemma IdsMore(one: seq<RecoveryItem>, rest: seq<RecoveryItem>, b: seq<RecoveryItem>)
    requires b != [] && |one| <= 1 && (one != [] ==> one[0].id == b[0].id) && Ids(rest) <= Ids(b[1..])
    ensures Ids(one + rest) <= Ids(b)
  {
    assert b[0] in b;
    forall x | x in one + rest ensures x.id in Ids(b) {
      if x in rest { assert x.id in Ids(rest); }
    }
  }

  lemma {:induction false} AddedFollows(r: seq<RecoveryItem>, known: set<RecoveryId>)
    ensures Follows(Added(r, known), r)
    ensures Ids(Added(r, known)) <= Ids(r)
  {
    if r != [] {
      var one := if r[0].id in known then [] else [r[0]];
      var more := if r[0].id in known then known else known + {r[0].id};
      AddedFollows(r[1..], more);
      FollowsMore(one, Added(r[1..], more), r);
      assert Added(r, known) == one + Added(r[1..], more);
    }
  }

  lemma {:induction false} AddedNew(r: seq<RecoveryItem>, known: set<RecoveryId>)
    ensures forall y :: y in Added(r, known) ==> y.id !in known
  {
    if r != [] { AddedNew(r[1..], if r[0].id in known then known else known + {r[0].id}); }
  }

  /** The merged items are those of the file, in its order, and behind them the host's new ones, in its
      order. */
  lemma OrderLaw(c: seq<RecoveryItem>, p: seq<RecoveryItem>, r: seq<RecoveryItem>)
      returns (old': seq<RecoveryItem>, new': seq<RecoveryItem>)
    ensures MergedRecovery(c, p, r) == old' + new' && Follows(old', c) && Follows(new', r)
    ensures Ids(old') <= Ids(c) && Ids(new') <= Ids(r)
    ensures forall y :: y in new' ==> y.id !in Ids(old')
  {
    var prior, next := ById(p), ById(r);
    old' := Kept(c, prior.Keys, prior, next);
    new' := Added(r, prior.Keys + Ids(old'));
    KeptFollows(c, prior.Keys, prior, next);
    AddedFollows(r, prior.Keys + Ids(old'));
    AddedNew(r, prior.Keys + Ids(old'));
  }

  // ---------- Consequences ----------

  ghost predicate SameItems(a: seq<RecoveryItem>, b: seq<RecoveryItem>) {
    forall id :: Get(ById(a), id) == Get(ById(b), id)
  }

  ghost predicate Same(a: StateFile, b: StateFile) {
    a.profile == b.profile && a.records == b.records && SameItems(a.recovery, b.recovery)
  }

  predicate Sane(s: StateFile) {
    Unique(s.recovery)
  }

  lemma FromGets<K, V>(a: map<K, V>, b: map<K, V>)
    requires forall id :: Get(a, id) == Get(b, id)
    ensures a == b
  {
    forall id ensures id in a <==> id in b {
      assert Get(a, id) == Get(b, id);
    }
    forall id | id in a ensures a[id] == b[id] {
      assert Get(a, id) == Get(b, id);
    }
  }

  /** A merge leaves the parts of the file alone that belong to its transactions, and raises the revision
      by one; the profile is the host's. */
  lemma MergeKeepsTransactions(current: StateFile, previous: StateFile, runtime: StateFile)
    ensures var m := Merged(current, previous, runtime);
      && m.layoutRevision == current.layoutRevision && m.pending == current.pending
      && m.revision == current.revision + 1 && m.profile == runtime.profile
  {
  }

  /** So a save of the host is one of the updates that stand between the transactions of the two files,
      whatever is merged: it is counted as none of their commits, and loses no entry. */
  lemma SaveIsUpdate(m: J.Machine, previous: StateFile, runtime: StateFile)
    requires m.phase.Idle?
    ensures var merged := Merged(Loaded(m.state), previous, runtime);
      J.Step(m, J.UpdateE(merged)) == m.(state := merged)
  {
  }

  /** Where nobody else wrote since the last save, the file ends up with the host's snapshot. */
  lemma UndisturbedSave(current: StateFile, previous: StateFile, runtime: StateFile)
    requires Sane(current) && Sane(runtime) && Same(current, previous)
    ensures Same(Merged(current, previous, runtime), runtime) && Sane(Merged(current, previous, runtime))
  {
    FromGets(Merged(current, previous, runtime).records, runtime.records);
    MergedUnique(current.recovery, previous.recovery, runtime.recovery);
    forall id ensures Get(ById(Merged(current, previous, runtime).recovery), id) == Get(ById(runtime.recovery), id) {
      RecoveryLaw(current.recovery, previous.recovery, runtime.recovery, id);
    }
  }

  lemma ItemsTwice(c: seq<RecoveryItem>, p: seq<RecoveryItem>, r: seq<RecoveryItem>)
    requires Unique(c) && Unique(r)
    ensures var once := MergedRecovery(c, p, r); MergedRecovery(once, p, r) == once
  {
    var once := MergedRecovery(c, p, r);
    MergedUnique(c, p, r);
    var prior, next := ById(p), ById(r);
    forall x | x in once ensures KeptItem(x, prior.Keys, prior, next) == [x] {
      MergedMembers(c, p, r, x);
    }
    KeptAll(once, prior.Keys, prior, next);
    forall x | x in r ensures x.id in prior.Keys + Ids(once) {
      RecoveryLaw(c, p, r, x.id);
    }
    AddedNone(r, prior.Keys + Ids(once));
  }

  /** Merging the same snapshot again changes nothing but the revision. */
  lemma MergeTwice(current: StateFile, previous: StateFile, runtime: StateFile)
    requires Sane(current) && Sane(runtime)
    ensures var once := Merged(current, previous, runtime);
      Merged(once, previous, runtime) == once.(revision := once.revision + 1)
  {
    var once := Merged(current, previous, runtime);
    FromGets(Merged(once, previous, runtime).records, once.records);
    ItemsTwice(current.recovery, previous.recovery, runtime.recovery);
  }

  lemma {:induction false} KeptAll(c: seq<RecoveryItem>, done: set<RecoveryId>, prior: map<RecoveryId, RecoveryItem>,
                                   next: map<RecoveryId, RecoveryItem>)
    requires forall x :: x in c ==> KeptItem(x, done, prior, next) == [x]
    ensures Kept(c, done, prior, next) == c
  {
    if c != [] {
      KeptAll(c[1..], done, prior, next);
    }
  }

  lemma {:induction false} AddedNone(r: seq<RecoveryItem>, known: set<RecoveryId>)
    requires forall x :: x in r ==> x.id in known
    ensures Added(r, known) == []
  {
    if r != [] {
      AddedNone(r[1..], known);
    }
  }

  // ---------- Runs of saves ----------

  /** The file and the snapshot the service last saved. */
  datatype Store = Store(file: StateFile, persisted: StateFile)

  datatype Outcome = Stored | FailedBefore | FailedAfter      // fails before, or after, the file is renamed

  datatype Event =
    | PersistE(runtime: StateFile, outcome: Outcome)
    | WriteE(file: StateFile)                                 // another writer of the file

  function Step(s: Store, e: Event): Store {
    match e
    case PersistE(runtime, outcome) =>
      var file := Merged(s.file, s.persisted, runtime);
      (match outcome
       case Stored => Store(file, runtime)
       case FailedBefore => s
       case FailedAfter => s.(file := file))
    case WriteE(file) => s.(file := file)
  }

  /** Alone, and where a failed save leaves the file as it was, the file always holds the snapshot
      saved last. */
  lemma {:induction false} FileFollowsSnapshots(s: Store, events: seq<Event>)
    requires Same(s.file, s.persisted) && Sane(s.file)
    requires forall e :: e in events ==> e.PersistE? && !e.outcome.FailedAfter? && Sane(e.runtime)
    ensures Same(Runs.After(Step, s, events).file, Runs.After(Step, s, events).persisted)
    ensures Sane(Runs.After(Step, s, events).file)
    decreases |events|
  {
    if events != [] {
      var e := events[0];
      if e.outcome.Stored? {
        UndisturbedSave(s.file, s.persisted, e.runtime);
      }
      FileFollowsSnapshots(Step(s, e), events[1..]);
    }
  }

  /** A record that the host has never held keeps the value its last writer gave it. */
  lemma {:induction false} ForeignRecordSurvives(s: Store, events: seq<Event>, id: BrowserId)
    requires id !in s.persisted.records
    requires forall e :: e in events ==> e.PersistE? && id !in e.runtime.records
    ensures Get(Runs.After(Step, s, events).file.records, id) == Get(s.file.records, id)
    decreases |events|
  {
    if events != [] {
      var e := events[0];
      var m := MergedRecords(s.file.records, s.persisted.records, e.runtime.records);
      assert Get(m, id) == Get(s.file.records, id);
      ForeignRecordSurvives(Step(s, e), events[1..], id);
    }
  }

  // ---------- What a stored snapshot leaves in the file ----------

  /** A save brings the host's value of a record into the file. */
  predicate RecordTaken(file: Option<Record>, persisted: Option<Record>, runtime: Option<Record>) {
    || file == runtime
    || (runtime.Some? && runtime != persisted)
    || (runtime.None? && persisted.Some? && file == persisted)
  }

  predicate ItemTaken(file: Option<RecoveryItem>, persisted: Option<RecoveryItem>, runtime: Option<RecoveryItem>) {
    file == runtime || (if persisted.Some? then file == persisted else file.None?)
  }

  ghost predicate RecordsTaken(file: map<BrowserId, Record>, persisted: map<BrowserId, Record>,
      runtime: map<BrowserId, Record>) {
    forall id :: RecordTaken(Get(file, id), Get(persisted, id), Get(runtime, id))
  }

  ghost predicate ItemsTaken(file: seq<RecoveryItem>, persisted: seq<RecoveryItem>, runtime: seq<RecoveryItem>) {
    forall id :: ItemTaken(Get(ById(file), id), Get(ById(persisted), id), Get(ById(runtime), id))
  }

  /** Whatever happened before, a stored snapshot is what the file holds afterwards exactly when each
      of its entries is taken: the host changed it, or nobody else did. */
  lemma StoredExactly(s: Store, runtime: StateFile)
    requires Sane(s.file) && Sane(runtime)
    ensures var file := Step(s, PersistE(runtime, Stored)).file;
      && (file.records == runtime.records <==> RecordsTaken(s.file.records, s.persisted.records, runtime.records))
      && (SameItems(file.recovery, runtime.recovery) <==>
            ItemsTaken(s.file.recovery, s.persisted.recovery, runtime.recovery))
  {
    var file := Step(s, PersistE(runtime, Stored)).file;
    forall id ensures Get(file.records, id) == Get(runtime.records, id) <==>
      RecordTaken(Get(s.file.records, id), Get(s.persisted.records, id), Get(runtime.records, id))
    {
    }
    if RecordsTaken(s.file.records, s.persisted.records, runtime.records) {
      FromGets(file.records, runtime.records);
    }
    forall id ensures Get(ById(file.recovery), id) == Get(ById(runtime.recovery), id) <==>
      ItemTaken(Get(ById(s.file.recovery), id), Get(ById(s.persisted.recovery), id), Get(ById(runtime.recovery), id))
    {
      RecoveryLaw(s.file.recovery, s.persisted.recovery, runtime.recovery, id);
    }
  }

  /** A save that fails only after the rename is forgotten by the service: where nobody else writes,
      the next stored snapshot is what the file holds exactly when it repeats the lost one, or
      differs from the one persisted before, record by record and item by item. */
  lemma AfterLostSave(s: Store, lost: StateFile, runtime: StateFile)
    requires Same(s.file, s.persisted) && Sane(s.file) && Sane(lost) && Sane(runtime)
    ensures var file := Runs.After(Step, s, [PersistE(lost, FailedAfter), PersistE(runtime, Stored)]).file;
      && (file.records == runtime.records <==>
            RecordsTaken(lost.records, s.persisted.records, runtime.records))
      && (SameItems(file.recovery, runtime.recovery) <==>
            ItemsTaken(lost.recovery, s.persisted.recovery, runtime.recovery))
  {
    var first, second := PersistE(lost, FailedAfter), PersistE(runtime, Stored);
    var s1 := Step(s, first);
    UndisturbedSave(s.file, s.persisted, lost);
    Runs.Two(Step, s, first, second);
    StoredExactly(s1, runtime);
    ItemsAlike(s1.file.recovery, lost.recovery, s.persisted.recovery, runtime.recovery);
  }

  lemma ItemsAlike(file: seq<RecoveryItem>, lost: seq<RecoveryItem>, persisted: seq<RecoveryItem>,
      runtime: seq<RecoveryItem>)
    requires SameItems(file, lost)
    ensures ItemsTaken(file, persisted, runtime) <==> ItemsTaken(lost, persisted, runtime)
  {
    FromGets(ById(file), ById(lost));
  }

  /** So going back to the snapshot persisted before never undoes a lost save: each record keeps the
      lost value, and the file is right exactly when the lost save had changed no record. */
  lemma LostSaveSticks(s: Store, lost: StateFile)
    requires Same(s.file, s.persisted) && Sane(s.file) && Sane(lost) && Sane(s.persisted)
    ensures var t := Runs.After(Step, s, [PersistE(lost, FailedAfter), PersistE(s.persisted, Stored)]);
      && t.file.records == lost.records && t.persisted == s.persisted
      && (t.file.records == t.persisted.records <==> lost.records == s.persisted.records)
  {
    var first, second := PersistE(lost, FailedAfter), PersistE(s.persisted, Stored);
    var s1 := Step(s, first);
    UndisturbedSave(s.file, s.persisted, lost);
    var t := Step(s1, second);
    Runs.Two(Step, s, first, second);
    forall id ensures Get(t.file.records, id) == Get(lost.records, id) {
    }
    FromGets(t.file.records, lost.records);
  }
}
