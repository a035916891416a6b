/** The per-browser queue of `TabBrowserService` as the source writes it: callbacks that change one
    entry's flags in place, proved against `Queue`. */
module TabBrowserService {
  import opened Wrappers
  import opened Queue
  import Q = Queue
  import QueueProofs

  class BrowserQueue {
    var entries: seq<Entry>
    var poisoned: bool

    function Model(): Queue
      reads this
    {
      Queue(entries, poisoned)
    }

    constructor ()
      ensures Model() == Q.Empty
    {
      entries, poisoned := [], false;
    }

    method Set(k: nat, e: Entry)
      requires k < |entries|
      modifies this`entries
      ensures entries == old(entries)[k := e]
    {
      entries := entries[k := e];
    }

    method EnqueueCommand(incarnation: Option<nat>, announces: bool, aborted: bool) returns (k: nat)
      modifies this
      ensures k == |old(entries)|
      ensures Model() == Step(old(Model()), EnqueueE(incarnation, announces, aborted))
      ensures QueueInv(old(Model())) ==> QueueInv(Model())
    {
      if QueueInv(Model()) { QueueProofs.StepKeeps(Model(), EnqueueE(incarnation, announces, aborted)); }
      k := |entries|;
      var e := NewEntry(incarnation, announces, false);
      if aborted {
        e := e.(cancelled := true);
      }
      entries := entries + [e];
    }

    /** The operation runs once the prior tail has ended. */
    method RunOperation(k: nat, accepting: bool)
      requires k < |entries|
      modifies this`entries
      ensures entries == if Reached(old(Model()), k)
        then old(entries)[k := AtHead(old(entries[k]), accepting, poisoned)]
        else old(entries)
      ensures QueueInv(old(Model())) ==> QueueInv(Model())
    {
      if QueueInv(Model()) { QueueProofs.StepKeeps(Model(), EntryE(k, Head(accepting))); }
      if k > 0 && entries[k-1].terminal.None? { return; }
      var e := entries[k];
      if e.operation != Waiting { return; }
      if !accepting || e.cancelled || poisoned {
        Set(k, e.(operation := Done));
        return;
      }
      Set(k, e.(operation := Active, bound := true));
      assert entries[k] == AtHead(e, accepting, poisoned);
    }

    /** The command passes its last fence and reports its dispatch, if it is one that reports. */
    method DispatchCommand(k: nat, accepting: bool)
      requires k < |entries|
      modifies this`entries
      ensures entries == old(entries)[k := Dispatched(old(entries[k]), accepting, poisoned)]
      ensures QueueInv(old(Model())) ==> QueueInv(Model())
    {
      if QueueInv(Model()) { QueueProofs.StepKeeps(Model(), EntryE(k, Dispatch(accepting))); }
      var e := entries[k];
      if e.operation != Active || e.dispatched { return; }
      if !accepting || e.cancelled || poisoned {
        Set(k, e.(operation := Done));
        return;
      }
      Set(k, e.(dispatched := true, started := e.announces));
      assert entries[k] == Dispatched(e, accepting, poisoned);
    }

    method Finish(k: nat, terminal: Terminal)
      requires k < |entries|
      modifies this`entries
      ensures entries == old(entries)[k := End(old(entries[k]), terminal)]
    {
      if entries[k].terminal.Some? { return; }
      Set(k, entries[k].(timer := false, terminal := Some(terminal)));
    }

    method Settled(k: nat)
      requires k < |entries|
      modifies this
      ensures Model() == Step(old(Model()), EntryE(k, Settle))
      ensures QueueInv(old(Model())) ==> QueueInv(Model())
    {
      if QueueInv(Model()) { QueueProofs.StepKeeps(Model(), EntryE(k, Settle)); }
      if entries[k].operation != Done || entries[k].settled { return; }
      Set(k, entries[k].(settled := true));
      if !entries[k].isolating {
        Finish(k, Cooperative);
      }
    }

    method ReadPending(k: nat, adapter: Answer) returns (pending: Answer)
      requires k < |entries|
      ensures pending == Reading(entries[k], adapter)
    {
      if !entries[k].bound || entries[k].incarnation.None? { return Some(false); }
      return adapter;
    }

    /** The abort listener of the barrier. */
    method ReleaseBarrier(k: nat, adapter: Answer)
      requires k < |entries|
      modifies this`entries
      ensures entries == old(entries)[k := Release(old(entries[k]), adapter)]
    {
      var e := entries[k];
      if e.terminal.Some? || e.timer || e.settled || e.isolating {
        if e.settled && !e.isolating {
          Finish(k, Cooperative);
        }
        return;
      }
      if !e.started { return; }
      var pending := ReadPending(k, adapter);
      if pending == Some(false) {
        Set(k, entries[k].(released := true));
        Finish(k, Cooperative);
        return;
      }
      Set(k, entries[k].(timer := true));
    }

    method Abort(k: nat, adapter: Answer)
      requires k < |entries|
      modifies this`entries
      ensures entries == old(entries)[k := Cancelled(old(entries[k]), adapter)]
      ensures QueueInv(old(Model())) ==> QueueInv(Model())
    {
      if QueueInv(Model()) { QueueProofs.StepKeeps(Model(), EntryE(k, Cancel(adapter))); }
      if entries[k].cancelled { return; }
      Set(k, entries[k].(cancelled := true));
      ReleaseBarrier(k, adapter);
    }

    method TimerFires(k: nat, adapter: Answer)
      requires k < |entries|
      modifies this`entries
      ensures entries == old(entries)[k := TimedOut(old(entries[k]), adapter)]
      ensures QueueInv(old(Model())) ==> QueueInv(Model())
    {
      if QueueInv(Model()) { QueueProofs.StepKeeps(Model(), EntryE(k, Timeout(adapter))); }
      if !entries[k].timer { return; }
      var pending := ReadPending(k, adapter);
      var e := entries[k].(timer := false);
      if e.settled {
        Set(k, e);
        Finish(k, Cooperative);
      } else if pending == Some(false) {
        Set(k, e.(released := true));
        Finish(k, Cooperative);
      } else {
        Set(k, if e.terminal.None? && !e.isolating then e.(isolating := true) else e);
      }
    }

    /** Quarantine, or else freeze, the page of the entry; where both fail the browser is poisoned. */
    method IsolationEnds(k: nat, detached: bool)
      requires k < |entries|
      modifies this
      ensures Model() == Step(old(Model()), EntryE(k, Isolate(detached)))
      ensures QueueInv(old(Model())) ==> QueueInv(Model())
    {
      if QueueInv(Model()) { QueueProofs.StepKeeps(Model(), EntryE(k, Isolate(detached))); }
      var e := entries[k];
      if !e.isolating || e.terminal.Some? { return; }
      if !e.started || !e.bound || e.incarnation.None? {
        Finish(k, Isolated);
      } else if detached {
        Set(k, e.(detached := true));
        Finish(k, Isolated);
      } else {
        poisoned := true;
        Finish(k, Poisoned);
      }
      assert entries[k] == Isolation(e, detached);
    }

    /** Abort every entry of the browser, then let a later browser of this id run again. */
    method Destroy(answers: seq<Answer>)
      modifies this
      ensures Model() == Step(old(Model()), DestroyE(answers))
      ensures QueueInv(old(Model())) ==> QueueInv(Model())
    {
      if QueueInv(Model()) { QueueProofs.StepKeeps(Model(), DestroyE(answers)); }
      var k := 0;
      while k < |entries|
        invariant k <= |entries| == |old(entries)|
        invariant forall i :: 0 <= i < k ==>
          entries[i] == Cancelled(old(entries[i]), if i < |answers| then answers[i] else None)
        invariant forall i :: k <= i < |entries| ==> entries[i] == old(entries[i])
      {
        Abort(k, if k < |answers| then answers[k] else None);
        k := k + 1;
      }
      poisoned := false;
      assert entries == CancelFrom(old(entries), answers);
    }
  }
}
