/** What the bounded ring of console and network entries keeps and reports. */
module Ring {
  import opened Wrappers

  const SelectionMax: nat := 256 * 1024

  datatype Item = Item(value: nat, size: nat)
  datatype Entry = Entry(cursor: nat, item: Item)

  function Sum(entries: seq<Entry>): nat {
    if entries == [] then 0 else entries[0].item.size + Sum(entries[1..])
  }

  predicate Fits(entries: seq<Entry>, maxItems: nat, maxBytes: nat) {
    |entries| <= maxItems && Sum(entries) <= maxBytes
  }

  /** Drop entries from the front until the rest fits. */
  function Longest(entries: seq<Entry>, maxItems: nat, maxBytes: nat): seq<Entry> {
    if entries == [] || Fits(entries, maxItems, maxBytes) then entries else Longest(entries[1..], maxItems, maxBytes)
  }

  /** The pushes that were not too large on their own, numbered from one. */
  function Accepted(pushed: seq<Item>, maxBytes: nat): seq<Entry> {
    if pushed == [] then []
    else
      var n := |pushed| - 1;
      Accepted(pushed[..n], maxBytes) + if pushed[n].size <= maxBytes then [Entry(n + 1, pushed[n])] else []
  }

  function Retained(pushed: seq<Item>, maxItems: nat, maxBytes: nat): seq<Entry> {
    Longest(Accepted(pushed, maxBytes), maxItems, maxBytes)
  }

  function After(entries: seq<Entry>, cursor: nat): seq<Entry> {
    if entries == [] then []
    else if entries[0].cursor > cursor then [entries[0]] + After(entries[1..], cursor)
    else After(entries[1..], cursor)
  }

  function Wanted(entries: seq<Entry>, filter: Item -> bool): seq<Entry> {
    if entries == [] then []
    else if filter(entries[0].item) then [entries[0]] + Wanted(entries[1..], filter)
    else Wanted(entries[1..], filter)
  }

  /** The last entries, at most `limit` of them; a limit of zero is no limit. */
  function Last(entries: seq<Entry>, limit: nat): seq<Entry> {
    if limit == 0 || |entries| <= limit then entries else entries[|entries| - limit..]
  }

  // ---------- Facts ----------

  lemma {:induction false} SumSuffix(entries: seq<Entry>, k: nat)
    requires k <= |entries|
    ensures Sum(entries[k..]) <= Sum(entries)
  {
    if k > 0 {
      assert entries[1..][k-1..] == entries[k..];
      SumSuffix(entries[1..], k - 1);
    } else {
      assert entries[0..] == entries;
    }
  }

  lemma {:induction false} SumConcat(a: seq<Entry>, b: seq<Entry>)
    ensures Sum(a + b) == Sum(a) + Sum(b)
  {
    if a == [] {
      assert a + b == b;
    } else {
      assert (a + b)[1..] == a[1..] + b;
      SumConcat(a[1..], b);
    }
  }

  /** `Longest` is the longest suffix within both budgets. */
  lemma {:induction false} LongestIsLongest(entries: seq<Entry>, maxItems: nat, maxBytes: nat, k: nat)
    requires k <= |entries|
    ensures var r := Longest(entries, maxItems, maxBytes);
      && |r| <= |entries| && r == entries[|entries| - |r|..] && Fits(r, maxItems, maxBytes)
      && (Fits(entries[k..], maxItems, maxBytes) ==> |entries| - k <= |r|)
  {
    if entries != [] && !Fits(entries, maxItems, maxBytes) {
      if k == 0 {
        assert entries[0..] == entries;
        LongestIsLongest(entries[1..], maxItems, maxBytes, 0);
      } else {
        assert entries[1..][k-1..] == entries[k..];
        LongestIsLongest(entries[1..], maxItems, maxBytes, k - 1);
      }
    }
  }

  lemma {:induction false} FitsLess(a: seq<Entry>, x: Entry, maxItems: nat, maxBytes: nat)
    requires Fits(a + [x], maxItems, maxBytes)
    ensures Fits(a, maxItems, maxBytes)
  {
    SumConcat(a, [x]);
  }

  /** Trimming before the next push loses nothing. */
  lemma {:induction false} TrimmedPush(entries: seq<Entry>, x: Entry, maxItems: nat, maxBytes: nat)
    ensures Longest(Longest(entries, maxItems, maxBytes) + [x], maxItems, maxBytes)
            == Longest(entries + [x], maxItems, maxBytes)
  {
    if entries != [] && !Fits(entries, maxItems, maxBytes) {
      if Fits(entries + [x], maxItems, maxBytes) {
        FitsLess(entries, x, maxItems, maxBytes);
      }
      assert (entries + [x])[1..] == entries[1..] + [x];
      TrimmedPush(entries[1..], x, maxItems, maxBytes);
    }
  }

  /** Cursors ascend, and each entry carries the push of its number. */
  predicate Numbered(entries: seq<Entry>, pushed: seq<Item>) {
    && (forall i :: 0 <= i < |entries| ==>
          0 < entries[i].cursor <= |pushed| && entries[i].item == pushed[entries[i].cursor - 1])
    && (forall i, j :: 0 <= i < j < |entries| ==> entries[i].cursor < entries[j].cursor)
  }

  lemma {:induction false} AcceptedNumbered(pushed: seq<Item>, maxBytes: nat)
    ensures Numbered(Accepted(pushed, maxBytes), pushed)
  {
    if pushed != [] {
      var n := |pushed| - 1;
      AcceptedNumbered(pushed[..n], maxBytes);
      assert forall i :: 0 <= i < n ==> pushed[..n][i] == pushed[i];
    }
  }

  lemma RetainedNumbered(pushed: seq<Item>, maxItems: nat, maxBytes: nat)
    ensures Numbered(Retained(pushed, maxItems, maxBytes), pushed)
  {
    AcceptedNumbered(pushed, maxBytes);
    LongestIsLongest(Accepted(pushed, maxBytes), maxItems, maxBytes, 0);
  }

  lemma {:induction false} AllAfter(entries: seq<Entry>, cursor: nat)
    requires forall i :: 0 <= i < |entries| ==> entries[i].cursor > cursor
    ensures After(entries, cursor) == entries
  {
    if entries != [] {
      AllAfter(entries[1..], cursor);
    }
  }

  /** The entries after a cursor are a suffix. */
  lemma {:induction false} AfterIsSuffix(entries: seq<Entry>, pushed: seq<Item>, cursor: nat) returns (k: nat)
    requires Numbered(entries, pushed)
    ensures k <= |entries| && After(entries, cursor) == entries[k..]
    ensures forall i :: k <= i < |entries| ==> entries[i].cursor > cursor
    ensures forall i :: 0 <= i < k ==> entries[i].cursor <= cursor
  {
    k := 0;
    if entries != [] && entries[0].cursor <= cursor {
      var k' := AfterIsSuffix(entries[1..], pushed, cursor);
      k := k' + 1;
      assert entries[1..][k'..] == entries[k..];
      assert forall i :: 1 <= i < |entries| ==> entries[i] == entries[1..][i-1];
    } else {
      AllAfter(entries, cursor);
      assert entries[0..] == entries;
    }
  }

  /** Ascending numbers above `low` leave room for at most their distance. */
  lemma {:induction false} AscendingCount(entries: seq<Entry>, pushed: seq<Item>, low: nat)
    requires Numbered(entries, pushed) && low <= |pushed|
    requires forall e :: e in entries ==> e.cursor > low
    ensures |entries| <= |pushed| - low
  {
    if entries != [] {
      var e := entries[0];
      assert forall i :: 1 <= i < |entries| ==> e.cursor < entries[i].cursor;
      AscendingCount(entries[1..], pushed, e.cursor);
    }
  }

  lemma NumberedSuffix(entries: seq<Entry>, pushed: seq<Item>, k: nat)
    requires Numbered(entries, pushed) && k <= |entries|
    ensures Numbered(entries[k..], pushed)
  {
  }

  // ---------- A polling reader ----------

  function Poll(pushed: seq<Item>, maxItems: nat, maxBytes: nat, cursor: nat): seq<Entry> {
    After(Retained(pushed, maxItems, maxBytes), cursor)
  }

  /** The numbers of the pushes after a cursor that no entry carries: evicted, or never accepted. */
  function Missing(pushed: seq<Item>, entries: seq<Entry>, cursor: nat): set<nat> {
    set k | cursor < k <= |pushed| && !HasCursor(entries, k)
  }

  predicate HasCursor(entries: seq<Entry>, k: nat) {
    exists i :: 0 <= i < |entries| && entries[i].cursor == k
  }

  lemma {:induction false} CountMissing(pushed: seq<Item>, entries: seq<Entry>, cursor: nat)
    requires Numbered(entries, pushed) && cursor <= |pushed| && forall e :: e in entries ==> e.cursor > cursor
    ensures |Missing(pushed, entries, cursor)| + |entries| == |pushed| - cursor
    decreases |pushed| - cursor
  {
    if cursor == |pushed| {
      AscendingCount(entries, pushed, cursor);
      assert Missing(pushed, entries, cursor) == {};
    } else {
      assert entries != [] ==> entries[0] in entries;
      assert forall i :: 1 <= i < |entries| ==> entries[0].cursor < entries[i].cursor;
      if entries != [] && entries[0].cursor == cursor + 1 {
        FirstPresent(pushed, entries, cursor);
        CountMissing(pushed, entries[1..], cursor + 1);
      } else {
        FirstMissing(pushed, entries, cursor);
        CountMissing(pushed, entries, cursor + 1);
      }
    }
  }

  lemma FirstPresent(pushed: seq<Item>, entries: seq<Entry>, cursor: nat)
    requires entries != [] && entries[0].cursor == cursor + 1
    ensures Missing(pushed, entries, cursor) == Missing(pushed, entries[1..], cursor + 1)
  {
    assert HasCursor(entries, cursor + 1);
    forall k | cursor + 1 < k <= |pushed| ensures HasCursor(entries[1..], k) <==> HasCursor(entries, k) {
      SameCursors(entries, k);
    }
  }

  lemma FirstMissing(pushed: seq<Item>, entries: seq<Entry>, cursor: nat)
    requires cursor < |pushed| && forall i :: 0 <= i < |entries| ==> entries[i].cursor > cursor + 1
    ensures Missing(pushed, entries, cursor) == Missing(pushed, entries, cursor + 1) + {cursor + 1}
    ensures cursor + 1 !in Missing(pushed, entries, cursor + 1)
  {
    assert !HasCursor(entries, cursor + 1);
  }

  lemma SameCursors(entries: seq<Entry>, k: nat)
    requires entries != [] && entries[0].cursor != k
    ensures HasCursor(entries[1..], k) <==> HasCursor(entries, k)
  {
    if HasCursor(entries, k) {
      var i :| 0 <= i < |entries| && entries[i].cursor == k;
      assert entries[1..][i-1].cursor == k;
    }
  }

  /** What a poll delivers, and the pushes that are missing from it, are all the pushes since its
      cursor. */
  lemma DroppedIsExact(pushed: seq<Item>, maxItems: nat, maxBytes: nat, cursor: nat)
    requires cursor <= |pushed|
    ensures var got := Poll(pushed, maxItems, maxBytes, cursor);
      && Numbered(got, pushed) && (forall e :: e in got ==> cursor < e.cursor)
      && |Missing(pushed, got, cursor)| == |pushed| - cursor - |got|
  {
    RetainedNumbered(pushed, maxItems, maxBytes);
    var kept := Retained(pushed, maxItems, maxBytes);
    var k := AfterIsSuffix(kept, pushed, cursor);
    NumberedSuffix(kept, pushed, k);
    forall e | e in kept[k..] ensures cursor < e.cursor {
      var i :| 0 <= i < |kept[k..]| && kept[k..][i] == e;
      assert e == kept[k + i];
    }
    CountMissing(pushed, Poll(pushed, maxItems, maxBytes, cursor), cursor);
  }

  /** A reader that polls after each batch of pushes, each time from the cursor it was given. */
  function Read(pushed: seq<Item>, maxItems: nat, maxBytes: nat, cursor: nat,
                batches: seq<seq<Item>>): (seq<Entry>, int)
    decreases |batches|
  {
    if batches == [] then ([], 0)
    else
      var now := pushed + batches[0];
      var got := Poll(now, maxItems, maxBytes, cursor);
      var (later, dropped) := Read(now, maxItems, maxBytes, |now|, batches[1..]);
      (got + later, |now| - cursor - |got| + dropped)
  }

  function Total(pushed: seq<Item>, batches: seq<seq<Item>>): seq<Item>
    decreases |batches|
  {
    if batches == [] then pushed else Total(pushed + batches[0], batches[1..])
  }

  lemma {:induction false} TotalExtends(pushed: seq<Item>, batches: seq<seq<Item>>)
    ensures |pushed| <= |Total(pushed, batches)| && Total(pushed, batches)[..|pushed|] == pushed
    decreases |batches|
  {
    if batches != [] {
      TotalExtends(pushed + batches[0], batches[1..]);
      assert Total(pushed, batches)[..|pushed|] == Total(pushed, batches)[..|pushed + batches[0]|][..|pushed|];
    }
  }

  /** Over a whole run every push after the first cursor is delivered once and in order, or counted
      as dropped. */
  lemma {:induction false} ReaderMissesNothing(pushed: seq<Item>, maxItems: nat, maxBytes: nat, cursor: nat,
      batches: seq<seq<Item>>)
    requires cursor <= |pushed| && batches != []
    ensures var (got, dropped) := Read(pushed, maxItems, maxBytes, cursor, batches);
      var all := Total(pushed, batches);
      && Numbered(got, all) && (forall e :: e in got ==> e.cursor > cursor)
      && |got| + dropped == |all| - cursor && dropped >= 0
    decreases |batches|
  {
    var now := pushed + batches[0];
    var all := Total(pushed, batches);
    DroppedIsExact(now, maxItems, maxBytes, cursor);
    TotalExtends(now, batches[1..]);
    var got := Poll(now, maxItems, maxBytes, cursor);
    NumberedInMore(got, now, all);
    if batches[1..] == [] {
      assert got + [] == got;
    } else {
      ReaderMissesNothing(now, maxItems, maxBytes, |now|, batches[1..]);
      NumberedTogether(got, Read(now, maxItems, maxBytes, |now|, batches[1..]).0, all, |now|);
    }
  }

  lemma NumberedInMore(entries: seq<Entry>, pushed: seq<Item>, more: seq<Item>)
    requires Numbered(entries, pushed) && |pushed| <= |more| && more[..|pushed|] == pushed
    ensures Numbered(entries, more)
  {
    forall i | 0 <= i < |entries| ensures entries[i].item == more[entries[i].cursor - 1] {
      assert more[..|pushed|][entries[i].cursor - 1] == more[entries[i].cursor - 1];
    }
  }

  lemma NumberedTogether(a: seq<Entry>, b: seq<Entry>, pushed: seq<Item>, between: nat)
    requires Numbered(a, pushed) && Numbered(b, pushed)
    requires forall i :: 0 <= i < |a| ==> a[i].cursor <= between
    requires forall e :: e in b ==> e.cursor > between
    ensures Numbered(a + b, pushed)
  {
  }
}
