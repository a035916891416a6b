/** What a poll of the ring selects. */
module RingLaws {
  import opened Wrappers
  import opened Ring

  /** The entry is held, comes after the cursor, and is wanted. */
  ghost predicate Eligible(kept: seq<Entry>, after: nat, filter: Item -> bool, e: Entry) {
    e in kept && e.cursor > after && filter(e.item)
  }

  predicate Ascends(entries: seq<Entry>) {
    forall i, j :: 0 <= i < j < |entries| ==> entries[i].cursor < entries[j].cursor
  }

  lemma {:induction false} AfterIs(entries: seq<Entry>, after: nat)
    requires Ascends(entries)
    ensures forall e :: e in After(entries, after) <==> e in entries && e.cursor > after
    ensures Ascends(After(entries, after))
  {
    if entries != [] {
      AfterIs(entries[1..], after);
      assert forall e :: e in entries[1..] ==> entries[0].cursor < e.cursor;
    }
  }

  lemma {:induction false} WantedIs(entries: seq<Entry>, filter: Item -> bool)
    requires Ascends(entries)
    ensures forall e :: e in Wanted(entries, filter) <==> e in entries && filter(e.item)
    ensures Ascends(Wanted(entries, filter))
  {
    if entries != [] {
      WantedIs(entries[1..], filter);
      assert forall e :: e in entries[1..] ==> entries[0].cursor < e.cursor;
    }
  }

  /** The entries from position `k` on are those with the higher cursors. */
  lemma SuffixIsNewest(entries: seq<Entry>, k: nat)
    requires Ascends(entries) && k <= |entries|
    ensures Ascends(entries[k..])
    ensures forall e, f :: e in entries[k..] && f in entries && f.cursor >= e.cursor ==> f in entries[k..]
  {
    forall e, f | e in entries[k..] && f in entries && f.cursor >= e.cursor ensures f in entries[k..] {
      var i :| 0 <= i < |entries[k..]| && entries[k..][i] == e;
      var j :| 0 <= j < |entries| && entries[j] == f;
      assert entries[k + i] == e;
      assert j >= k + i;
      assert entries[k..][j - k] == f;
    }
  }

  /** A poll answers with eligible entries only, in their order, the newest ones without a gap, no more
      than were asked for and no more than fit; and it stops only at one of these limits. */
  lemma SelectionLaw(kept: seq<Entry>, after: nat, limit: nat, filter: Item -> bool, e: Entry)
    requires Ascends(kept)
    ensures var eligible := Wanted(After(kept, after), filter);
      var items := Longest(Last(eligible, limit), |eligible|, SelectionMax);
      && Ascends(items) && Sum(items) <= SelectionMax && (limit > 0 ==> |items| <= limit)
      && (e in items ==> Eligible(kept, after, filter, e))
      && (forall x :: x in items && Eligible(kept, after, filter, e) && e.cursor >= x.cursor ==> e in items)
      && (Eligible(kept, after, filter, e) && e !in items ==>
            (limit > 0 && |items| == limit) || Exceeds(eligible, items))
      && (|items| < |eligible| <==> exists x :: Eligible(kept, after, filter, x) && x !in items)
  {
    AfterIs(kept, after);
    WantedIs(After(kept, after), filter);
    Selected(Wanted(After(kept, after), filter), limit, e);
  }

  /** What the ring holds of its pushes is such a sequence. */
  lemma RetainedAscends(pushed: seq<Item>, maxItems: nat, maxBytes: nat)
    ensures Ascends(Retained(pushed, maxItems, maxBytes))
  {
    RetainedNumbered(pushed, maxItems, maxBytes);
  }

  /** With the next older one it would be too much. */
  ghost predicate Exceeds(eligible: seq<Entry>, items: seq<Entry>) {
    exists x :: x in eligible && x !in items && Sum([x] + items) > SelectionMax
      && forall y :: y in eligible && y !in items ==> y.cursor <= x.cursor
  }

  /** The answer is a suffix of the eligible entries, cut where a limit is reached. */
  lemma SelectedShape(eligible: seq<Entry>, limit: nat) returns (k: nat)
    ensures k <= |eligible| && Longest(Last(eligible, limit), |eligible|, SelectionMax) == eligible[k..]
    ensures Sum(eligible[k..]) <= SelectionMax && (limit > 0 ==> |eligible| - k <= limit)
    ensures k > 0 ==> (limit > 0 && |eligible| - k == limit) || Sum([eligible[k-1]] + eligible[k..]) > SelectionMax
  {
    var candidates := Last(eligible, limit);
    LongestIsLongest(candidates, |eligible|, SelectionMax, 0);
    var items := Longest(candidates, |eligible|, SelectionMax);
    k := |eligible| - |items|;
    assert items == eligible[k..];
    if |items| < |candidates| {
      var n := |candidates| - |items|;
      LongestIsLongest(candidates, |eligible|, SelectionMax, n - 1);
      assert candidates[n-1..] == [eligible[k-1]] + items;
    }
  }

  lemma Selected(eligible: seq<Entry>, limit: nat, e: Entry)
    requires Ascends(eligible)
    ensures var items := Longest(Last(eligible, limit), |eligible|, SelectionMax);
      && Ascends(items) && Sum(items) <= SelectionMax && (limit > 0 ==> |items| <= limit)
      && (e in items ==> e in eligible)
      && (forall x :: x in items && e in eligible && e.cursor >= x.cursor ==> e in items)
      && (e in eligible && e !in items ==> (limit > 0 && |items| == limit) || Exceeds(eligible, items))
      && (|items| < |eligible| <==> exists x :: x in eligible && x !in items)
  {
    var k := SelectedShape(eligible, limit);
    SuffixIsNewest(eligible, k);
    if k > 0 {
      NotInSuffix(eligible, k);
      assert eligible[k-1] in eligible;
    } else {
      assert eligible[0..] == eligible;
    }
  }

  lemma NotInSuffix(eligible: seq<Entry>, k: nat)
    requires Ascends(eligible) && 0 < k <= |eligible|
    ensures eligible[k-1] !in eligible[k..]
    ensures forall y :: y in eligible && y !in eligible[k..] ==> y.cursor <= eligible[k-1].cursor
  {
    forall y | y in eligible && y.cursor > eligible[k-1].cursor ensures y in eligible[k..] {
      var j :| 0 <= j < |eligible| && eligible[j] == y;
      assert j >= k;
      assert eligible[k..][j - k] == y;
    }
    forall i | k <= i < |eligible| ensures eligible[i] != eligible[k-1] { }
  }
}
