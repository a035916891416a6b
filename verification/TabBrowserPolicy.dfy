/** `BrowserCapacity` as the source writes it: fields updated in place, proved against `Capacity`. */
module TabBrowserPolicy {
  import opened Wrappers
  import opened Capacity
  import CapacityProofs

  class BrowserCapacity {
    const maxLive: nat
    const maxQueue: nat
    var live: map<Id, LiveEntry>
    var queue: seq<Waiter>
    var pending: map<Id, Waiter>
    var admissions: map<Id, Admission>
    var promises: nat
    var settled: map<nat, Settlement>
    var served: seq<nat>

    ghost function Model(): Cap
      reads this
    {
      Cap(maxLive, maxQueue, live, queue, pending, admissions, promises, settled, served)
    }

    constructor (maxLive: nat, maxQueue: nat)
      ensures Model() == Empty(maxLive, maxQueue) && Inv(Model())
    {
      this.maxLive, this.maxQueue := maxLive, maxQueue;
      live, queue, pending, admissions := map[], [], map[], map[];
      promises, settled, served := 0, map[], [];
    }

    method MarkLive(id: Id, lastUsedAt: int)
      modifies this
      ensures Model() == Capacity.MarkLive(old(Model()), id, lastUsedAt)
    {
      var protections := if id in live then live[id].protections else {};
      live := live[id := LiveEntry(lastUsedAt, protections)];
    }

    method Touch(id: Id, lastUsedAt: int)
      modifies this
      ensures Model() == Capacity.Touch(old(Model()), id, lastUsedAt)
    {
      if id in live {
        live := live[id := live[id].(lastUsedAt := lastUsedAt)];
      }
    }

    method MarkFrozen(id: Id)
      modifies this
      ensures Model() == Capacity.MarkFrozen(old(Model()), id)
    {
      live := live - {id};
      MarkVictimAdmissions(id);
      Drain();
    }

    method MarkVictimAdmissions(id: Id)
      modifies this`admissions
      ensures admissions == MarkVictims(old(admissions), id)
    {
      var todo := admissions.Keys;
      ghost var before := admissions;
      while todo != {}
        invariant todo <= admissions.Keys == before.Keys
        invariant forall a :: a in before ==>
          admissions[a] == if a in todo then before[a] else MarkVictims(before, id)[a]
        decreases |todo|
      {
        var a :| a in todo;
        todo := todo - {a};
        if admissions[a].victim.Some? && admissions[a].victim.value.id == id {
          admissions := admissions[a := admissions[a].(victimFrozen := true)];
        }
      }
      assert admissions == MarkVictims(before, id);
    }

    method ProtectFor(id: Id, reason: Reason, protectedValue: bool)
      modifies this
      ensures Model() == Capacity.ProtectFor(old(Model()), id, reason, protectedValue)
      decreases if protectedValue then 0 else 2
    {
      if id !in live { return; }
      if protectedValue {
        live := live[id := live[id].(protections := live[id].protections + {reason})];
      } else {
        live := live[id := live[id].(protections := live[id].protections - {reason})];
        Drain();
      }
    }

    method Cancel(id: Id)
      modifies this
      ensures Model() == Capacity.Cancel(old(Model()), id)
    {
      if id in pending {
        Remove(pending[id], Cancelled);
      }
    }

    method MarkAdmissionVictimFrozen(id: Id)
      modifies this
      ensures Model() == Capacity.MarkAdmissionVictimFrozen(old(Model()), id)
    {
      if id in admissions {
        admissions := admissions[id := admissions[id].(victimFrozen := true)];
      }
    }

    method RollbackActivation(id: Id)
      modifies this
      ensures Model() == Capacity.RollbackActivation(old(Model()), id)
    {
      if id !in admissions { return; }
      var admission := admissions[id];
      admissions := admissions - {id};
      if admission.inserted {
        live := live - {id};
      }
      if admission.victim.Some? && !admission.victimFrozen && admission.victim.value.id !in live {
        live := live[admission.victim.value.id := admission.victim.value.entry];
      }
      Drain();
    }

    method SettleActivation(id: Id)
      modifies this
      ensures Model() == Capacity.SettleActivation(old(Model()), id)
    {
      admissions := admissions - {id};
      ProtectFor(id, Activation, false);
    }

    method ActivateQueued(id: Id, now: int, aborted: bool) returns (promise: nat)
      modifies this
      ensures (Model(), promise) == Capacity.ActivateQueued(old(Model()), id, now, aborted)
    {
      promise := promises;
      if aborted {
        promises, settled := promises + 1, settled[promise := Cancelled];
        return;
      }
      var verdict := Admit(id, now);
      if verdict.Admitted? {
        ProtectFor(id, Activation, true);
        promises, settled := promises + 1, settled[promise := Granted(verdict.freeze)];
        return;
      }
      if id in pending { return pending[id].promise; }
      if |queue| >= maxQueue {
        promises, settled := promises + 1, settled[promise := Busy];
        return;
      }
      var waiter := Waiter(id, now, promise);
      promises, queue, pending := promises + 1, queue + [waiter], pending[id := waiter];
    }

    /** The least unprotected entry by (lastUsedAt, id). */
    method SelectVictim() returns (selected: Option<Id>)
      ensures selected == VictimOf(live)
    {
      selected := None;
      var todo := live.Keys;
      while todo != {}
        invariant todo <= live.Keys
        invariant selected.None? ==> forall id :: id in live && id !in todo ==> !Evictable(live, id)
        invariant selected.Some? ==> Evictable(live, selected.value) && selected.value !in todo
        invariant selected.Some? ==>
          forall id :: Evictable(live, id) && id !in todo && id != selected.value ==> Older(live, selected.value, id)
        decreases |todo|
      {
        var id :| id in todo;
        todo := todo - {id};
        if live[id].protections == {} && (selected.None? || Older(live, id, selected.value)) {
          selected := Some(id);
        }
      }
      CapacityProofs.VictimExists(live);
      if selected.Some? {
        assert Evictable(live, selected.value);
        CapacityProofs.VictimUnique(live, selected.value, VictimOf(live).value);
      }
    }

    method Admit(id: Id, now: int) returns (verdict: Verdict)
      modifies this
      ensures (Model(), verdict) == Capacity.Admit(old(Model()), id, now)
    {
      if id in live {
        Touch(id, now);
        admissions := admissions[id := Admission(false, None, false)];
        return Admitted(None);
      }
      if |live| < maxLive {
        MarkLive(id, now);
        admissions := admissions[id := Admission(true, None, false)];
        return Admitted(None);
      }
      var selected := SelectVictim();
      if selected.None? { return Full; }
      var victim := selected.value;
      var entry := live[victim];
      live := live - {victim};
      MarkLive(id, now);
      admissions := admissions[id := Admission(true, Some(Victim(victim, entry)), false)];
      return Admitted(Some(victim));
    }

    method Remove(waiter: Waiter, how: Settlement)
      modifies this
      ensures Model() == Capacity.Remove(old(Model()), waiter, how)
    {
      if waiter.id !in pending || pending[waiter.id] != waiter { return; }
      pending := pending - {waiter.id};
      queue := Without(queue, waiter);
      settled := settled[waiter.promise := how];
    }

    method Drain()
      modifies this
      ensures Model() == Capacity.Drain(old(Model()))
      decreases 1
    {
      if queue == [] { return; }
      var waiter := queue[0];
      var activation := Admit(waiter.id, waiter.now);
      if activation.Full? { return; }
      ProtectFor(waiter.id, Activation, true);
      Remove(waiter, Granted(activation.freeze));
      served := served + [waiter.promise];
    }

    /** Whatever is called next takes the step of the specification, and keeps its invariant if a
        caller may call it. */
    method Perform(e: Event)
      modifies this
      ensures Model() == Step(old(Model()), e)
      ensures CapacityProofs.Keeps(old(Model()), e, Model())
    {
      ghost var before := Model();
      match e {
        case MarkLiveE(id, now) => MarkLive(id, now);
        case MarkFrozenE(id) => MarkFrozen(id);
        case ProtectForE(id, reason, on) => ProtectFor(id, reason, on);
        case TouchE(id, now) => Touch(id, now);
        case ActivateE(id, now, aborted) => var _ := ActivateQueued(id, now, aborted);
        case CancelE(id) => Cancel(id);
        case RejectE(waiter, how) => Remove(waiter, how);
        case VictimFrozenE(id) => MarkAdmissionVictimFrozen(id);
        case RollbackE(id) => RollbackActivation(id);
        case SettleE(id) => SettleActivation(id);
      }
      CapacityProofs.Kept(before, e);
    }
  }
}
