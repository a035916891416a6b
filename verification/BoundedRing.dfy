/** `BoundedRing` as the source writes it: an array of entries and two counters changed in place. */
module BoundedRing {
  import opened Wrappers
  import opened Ring

  class BoundedRing {
    const maxItems: nat
    const maxBytes: nat
    var entries: seq<Entry>
    var bytes: nat
    var cursor: nat
    ghost var pushed: seq<Item>

    ghost predicate Valid()
      reads this
    {
      entries == Retained(pushed, maxItems, maxBytes) && bytes == Sum(entries) && cursor == |pushed|
    }

    constructor (maxItems: nat, maxBytes: nat)
      ensures Valid() && pushed == [] && this.maxItems == maxItems && this.maxBytes == maxBytes
    {
      this.maxItems, this.maxBytes := maxItems, maxBytes;
      entries, bytes, cursor, pushed := [], 0, 0, [];
    }

    method Push(item: Item)
      requires Valid()
      modifies this
      ensures Valid() && pushed == old(pushed) + [item]
    {
      cursor := cursor + 1;
      pushed := pushed + [item];
      assert pushed[..|pushed|-1] == old(pushed);
      ghost var accepted := Accepted(old(pushed), maxBytes);
      if item.size > maxBytes {
        assert Accepted(pushed, maxBytes) == accepted;
        return;
      }
      var entry := Entry(cursor, item);
      TrimmedPush(accepted, entry, maxItems, maxBytes);
      SumConcat(entries, [entry]);
      entries := entries + [entry];
      bytes := bytes + item.size;
      while |entries| > maxItems || bytes > maxBytes
        invariant pushed == old(pushed) + [item] && cursor == |pushed| && bytes == Sum(entries)
        invariant Longest(entries, maxItems, maxBytes) == Retained(pushed, maxItems, maxBytes)
        decreases |entries|
      {
        var removed := entries[0];
        entries := entries[1..];
        bytes := bytes - removed.item.size;
      }
    }

    /** The entries after a cursor, at most `limit` of the wanted ones and as many of the newest of
        those as fit the selection; what is gone since the cursor is counted. */
    method Since(after: nat, limit: nat, filter: Item -> bool)
      returns (now: nat, items: seq<Entry>, dropped: nat, truncated: bool)
      requires Valid()
      ensures now == |pushed|
      ensures var eligible := Wanted(Poll(pushed, maxItems, maxBytes, after), filter);
        && items == Longest(Last(eligible, limit), |eligible|, SelectionMax)
        && (truncated <==> |items| < |eligible|)
      ensures after <= |pushed| ==> dropped == |Missing(pushed, Poll(pushed, maxItems, maxBytes, after), after)|
      ensures after > |pushed| ==> dropped == 0
    {
      now := cursor;
      var retained := After(entries, after);
      if after <= |pushed| {
        DroppedIsExact(pushed, maxItems, maxBytes, after);
      }
      dropped := if cursor - after - |retained| > 0 then cursor - after - |retained| else 0;
      var eligible := Wanted(retained, filter);
      var candidates := Last(eligible, limit);
      items := SelectNewest(candidates, |eligible|);
      truncated := |items| < |eligible|;
      LongestIsLongest(candidates, |eligible|, SelectionMax, 0);
    }

    /** The newest entries, taken from the end while they fit. */
    method SelectNewest(candidates: seq<Entry>, most: nat) returns (selected: seq<Entry>)
      requires |candidates| <= most
      ensures selected == Longest(candidates, most, SelectionMax)
    {
      selected := [];
      var total := 0;
      var index: nat := |candidates|;
      while index > 0
        invariant index <= |candidates| && selected == candidates[index..]
        invariant total == Sum(selected) && total <= SelectionMax
      {
        var entry := candidates[index-1];
        assert candidates[index-1..] == [entry] + selected;
        SumConcat([entry], selected);
        if total + entry.item.size > SelectionMax {
          LongestFromHere(candidates, index, most);
          return;
        }
        selected := [entry] + selected;
        total := total + entry.item.size;
        index := index - 1;
      }
      assert candidates[0..] == candidates;
    }

    lemma {:induction false} LongestFromHere(candidates: seq<Entry>, index: nat, most: nat)
      requires 0 < index <= |candidates| <= most
      requires Sum(candidates[index..]) <= SelectionMax < Sum(candidates[index-1..])
      ensures Longest(candidates, most, SelectionMax) == candidates[index..]
    {
      SumSuffix(candidates, index - 1);
      if index == 1 {
        assert candidates[0..] == candidates;
        assert Longest(candidates, most, SelectionMax) == Longest(candidates[1..], most, SelectionMax);
      } else {
        assert candidates[1..][index-1..] == candidates[index..] && candidates[1..][index-2..] == candidates[index-1..];
        LongestFromHere(candidates[1..], index - 1, most);
      }
    }
  }
}
