/** `TabBrowserHost` as the source writes it: tables updated in place, proved against `Host`.

    An `async` method is cut at its `await`s: `Open` and `Thaw` run up to the wait for capacity,
    `Resume` from there to the load of a restored page, `Restored` from the end of that load.
 */
module TabBrowserHost {
  import opened Wrappers
  import opened Capacity
  import opened Host
  import H = Host
  import opened TabBrowserPolicy
  import T = HostTheorems

  class TabBrowserHost {
    const capacity: BrowserCapacity
    var records: set<Id>
    var runtimes: map<Id, nat>
    var pages: map<nat, Page>
    var generationFloor: map<Id, nat>
    var calls: map<Id, Call>
    var incarnations: nat
    var leaked: nat

    ghost function Model(): Host
      reads this, capacity
    {
      Host(capacity.Model(), records, runtimes, pages, generationFloor, calls, incarnations, leaked)
    }

    constructor (maxLive: nat, maxQueue: nat, records: set<Id>)
      ensures fresh(capacity) && Model() == H.Empty(maxLive, maxQueue, records)
    {
      capacity := new BrowserCapacity(maxLive, maxQueue);
      this.records := records;
      runtimes, pages, generationFloor, calls, incarnations, leaked := map[], map[], map[], map[], 0, 0;
    }

    // ---------- Teardown ----------

    /** Leave the table, then advance the generation and keep it as the tombstone. */
    method TearDown(id: Id, incarnation: nat)
      modifies this
      ensures Model() == H.TornDown(old(Model()), id, incarnation)
    {
      runtimes := runtimes - {id};
      if incarnation in pages {
        Advance(incarnation);
        generationFloor := generationFloor[id := pages[incarnation].generation];
      }
    }

    method Advance(incarnation: nat)
      requires incarnation in pages
      modifies this`pages
      ensures Model() == Bumped(old(Model()), incarnation)
    {
      var page := pages[incarnation];
      pages := pages[incarnation := page.(generation := page.generation + 1)];
    }

    method Freeze(id: Id)
      modifies this, capacity
      ensures Model() == H.Freeze(old(Model()), id)
    {
      if id !in records { return; }
      if id in runtimes {
        TearDown(id, runtimes[id]);
      }
      capacity.MarkFrozen(id);
    }

    method Quarantine(id: Id, incarnation: nat)
      modifies this, capacity
      ensures Model() == H.Quarantine(old(Model()), id, incarnation)
    {
      if id !in records || id !in runtimes || runtimes[id] != incarnation { return; }
      TearDown(id, incarnation);
      capacity.MarkFrozen(id);
    }

    method Close(id: Id)
      modifies this, capacity
      ensures Model() == H.Close(old(Model()), id)
    {
      if id !in records { return; }
      capacity.Cancel(id);
      runtimes := runtimes - {id};
      capacity.MarkFrozen(id);
      records := records - {id};
    }

    // ---------- Activation ----------

    method Open(id: Id, now: int, visible: bool, aborted: bool)
      modifies this, capacity
      ensures Model() == H.Open(old(Model()), id, now, visible, aborted)
    {
      records := records + {id};
      var promise := capacity.ActivateQueued(id, now, aborted);
      calls := calls[id := Call(promise, Opening(visible), Awaiting)];
    }

    method Thaw(id: Id, now: int, aborted: bool)
      modifies this, capacity
      ensures Model() == H.Thaw(old(Model()), id, now, aborted)
    {
      if id !in records || id in runtimes { return; }
      var promise := capacity.ActivateQueued(id, now, aborted);
      calls := calls[id := Call(promise, Thawing, Awaiting)];
    }

    /** An error before the page exists: roll back, forget the record of an opening, settle. */
    method Fail(id: Id)
      requires id in calls
      modifies this, capacity
      ensures Model() == Failed(old(Model()), id)
    {
      var kind := calls[id].kind;
      capacity.RollbackActivation(id);
      calls := calls - {id};
      if kind.Opening? {
        records := records - {id};
      }
      capacity.SettleActivation(id);
    }

    method FreezeAdmissionVictim(candidate: Id, victim: Id)
      modifies this, capacity
      ensures Model() == FreezeVictim(old(Model()), candidate, victim)
    {
      capacity.MarkAdmissionVictimFrozen(candidate);
      Freeze(victim);
    }

    method MakeRuntime(id: Id, now: int) returns (incarnation: nat)
      modifies this, capacity
      ensures incarnation == old(incarnations)
      ensures Model() == H.MakeRuntime(old(Model()), id, now)
    {
      incarnation := incarnations;
      incarnations := incarnations + 1;
      var floor := if id in generationFloor then generationFloor[id] else 0;
      pages := pages[incarnation := Page(floor, false, false, false)];
      runtimes := runtimes[id := incarnation];
      capacity.MarkLive(id, now);
    }

    method SetVisible(id: Id, visible: bool)
      modifies this
      ensures Model() == WithVisible(old(Model()), id, visible)
    {
      if id in runtimes && runtimes[id] in pages {
        var incarnation := runtimes[id];
        pages := pages[incarnation := pages[incarnation].(visible := visible)];
      }
    }

    /** Hide and unprotect the other pages in turn. */
    method HideAll(others: seq<Id>)
      modifies this, capacity
      ensures Model() == HideOthers(old(Model()), others)
    {
      var i := 0;
      while i < |others|
        invariant i <= |others|
        invariant HideOthers(Model(), others[i..]) == HideOthers(old(Model()), others)
      {
        assert others[i..][1..] == others[i+1..];
        SetVisible(others[i], false);
        capacity.ProtectFor(others[i], Visible, false);
        i := i + 1;
      }
    }

    /** Hide every other page, then show and protect this one. */
    method Present(id: Id, others: seq<Id>)
      modifies this, capacity
      ensures Model() == H.Present(old(Model()), id, others)
    {
      HideAll(others);
      SetVisible(id, true);
      capacity.ProtectFor(id, Visible, true);
    }

    /** The load of a restored page failed, wherever it got to. */
    method FailRestore(id: Id, incarnation: nat)
      modifies this, capacity
      ensures Model() == RestoreFailed(old(Model()), id, incarnation)
    {
      calls := calls - {id};
      TearDown(id, incarnation);
      capacity.MarkFrozen(id);
      capacity.SettleActivation(id);
    }

    method Resume(id: Id, ok: bool, now: int, loads: bool, others: seq<Id>, fault: Fault)
      modifies this, capacity
      ensures Model() == H.Resume(old(Model()), id, ok, now, loads, others, fault)
    {
      if id !in calls || !calls[id].phase.Awaiting? || calls[id].promise !in capacity.settled { return; }
      var outcome := capacity.settled[calls[id].promise];
      if !ok || !outcome.Granted? {
        Fail(id);
        return;
      }
      if outcome.freeze.Some? {
        FreezeAdmissionVictim(id, outcome.freeze.value);
      }
      Continue(id, now, loads, others, fault);
    }

    /** A granted activation makes its page, then looks its record up; an opening ends here, a thaw
        goes on to load. */
    method Continue(id: Id, now: int, loads: bool, others: seq<Id>, fault: Fault)
      requires id in calls
      modifies this, capacity
      ensures Model() == Resumed(old(Model()), id, now, loads, others, fault)
    {
      if fault.CreateThrows? {
        Fail(id);
        return;
      }
      if id !in records {
        leaked := leaked + 1;
        Fail(id);
        return;
      }
      var call := calls[id];
      var incarnation := MakeRuntime(id, now);
      match call.kind
      case Opening(visible) =>
        Finish(id, visible, others, fault);
      case Thawing =>
        if loads {
          calls := calls[id := call.(phase := Restoring(incarnation))];
        } else {
          FailRestore(id, incarnation);
        }
    }

    /** The page calls of an opening: the first that throws undoes the activation, but not the page. */
    method Finish(id: Id, visible: bool, others: seq<Id>, fault: Fault)
      requires id in calls
      modifies this, capacity
      ensures Model() == if fault.CallThrows? then PresentFailed(old(Model()), id, visible, others, fault.call)
        else H.Settle(if visible then H.Present(Left(old(Model()), id), id, others) else Left(old(Model()), id), id)
    {
      if fault.CallThrows? {
        if visible {
          HideAll(Upto(others, fault.call));
        }
        Fail(id);
      } else {
        calls := calls - {id};
        if visible {
          Present(id, others);
        }
        capacity.SettleActivation(id);
      }
    }

    method Restored(id: Id, ok: bool)
      modifies this, capacity
      ensures Model() == H.Restored(old(Model()), id, ok)
    {
      if id !in calls || calls[id].phase.Awaiting? { return; }
      if ok && id in records {
        calls := calls - {id};
        capacity.SettleActivation(id);
      } else {
        FailRestore(id, calls[id].phase.incarnation);
      }
    }

    // ---------- Pages and commands ----------

    method PageEvent(id: Id, incarnation: nat, event: PageEvent)
      modifies this, capacity
      ensures Model() == OnPage(old(Model()), id, incarnation, event)
    {
      if id !in runtimes || runtimes[id] != incarnation || incarnation !in pages
        || (id !in records && !event.UserInput?) { return; }
      var page := pages[incarnation];
      match event {
        case UserInput => Advance(incarnation);
        case Dialog => Advance(incarnation);
        case LoadingStopped =>
          pages := pages[incarnation := page.(navigationPending := false, loading := false)];
        case NavigationStarted =>
          if page.navigationPending {
            page := page.(navigationPending := false);
          } else if !page.loading {
            page := page.(generation := page.generation + 1);
          }
          pages := pages[incarnation := page.(loading := true)];
        case NavigationCommitted(inPage, allowed) =>
          if !allowed {
            TearDown(id, incarnation);
            capacity.MarkFrozen(id);
          } else {
            if inPage && !page.loading {
              page := page.(generation := page.generation + 1);
            }
            pages := pages[incarnation := page.(navigationPending := false, loading := false)];
          }
        case Crashed =>
          TearDown(id, incarnation);
          capacity.MarkFrozen(id);
      }
    }

    method Act(id: Id, incarnation: nat, generation: nat, command: Command) returns (accepted: bool)
      modifies this`pages
      ensures accepted == old(Accepts(Model(), id, incarnation, generation))
      ensures Model() == H.Act(old(Model()), id, incarnation, generation, command)
    {
      if id !in records || id !in runtimes || runtimes[id] != incarnation || incarnation !in pages
        || pages[incarnation].generation != generation { return false; }
      var page := pages[incarnation];
      page := page.(generation := page.generation + 1);
      match command {
        case Navigate => page := page.(loading := true);
        case Reload => page := page.(navigationPending := true);
        case Other =>
      }
      pages := pages[incarnation := page];
      return true;
    }

    method Show(id: Id, now: int, others: seq<Id>)
      modifies this, capacity
      ensures Model() == H.Show(old(Model()), id, now, others)
    {
      if id !in records || id !in runtimes { return; }
      Present(id, others);
      capacity.Touch(id, now);
    }

    method Hide(id: Id)
      modifies this, capacity
      ensures Model() == H.Hide(old(Model()), id)
    {
      if id !in records { return; }
      SetVisible(id, false);
      capacity.ProtectFor(id, Visible, false);
    }

    // ---------- Any stretch ----------

    /** Whatever comes next is one of these calls, and takes the step of the machine. */
    method Take(e: H.Event)
      modifies this, capacity
      ensures Model() == H.Step(old(Model()), e)
    {
      match e {
        case OpenE(id, now, visible, aborted) => Open(id, now, visible, aborted);
        case ThawE(id, now, aborted) => Thaw(id, now, aborted);
        case ResumeE(id, ok, now, loads, others, fault) => Resume(id, ok, now, loads, others, fault);
        case RestoredE(id, ok) => Restored(id, ok);
        case PageE(id, incarnation, event) => PageEvent(id, incarnation, event);
        case ActE(id, incarnation, generation, command) => var _ := Act(id, incarnation, generation, command);
        case FreezeE(id) => Freeze(id);
        case QuarantineE(id, incarnation) => Quarantine(id, incarnation);
        case CloseE(id) => Close(id);
        case ShowE(id, now, others) => Show(id, now, others);
        case HideE(id) => Hide(id);
        case ProtectE(id, reason, on) => capacity.ProtectFor(id, reason, on);
        case WaiterE(waiter, how) => capacity.Remove(waiter, how);
      }
    }

    /** So the bound is kept if the step was allowed, and leases stay fenced. */
    method Perform(e: H.Event)
      modifies this, capacity
      ensures Model() == H.Step(old(Model()), e)
      ensures T.Keeps(old(Model()), e, Model())
    {
      ghost var before := Model();
      Take(e);
      T.Kept(before, e);
    }
  }
}
