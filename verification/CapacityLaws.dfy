/** What becomes of one browser in the capacity: the reasons that protect it, the time of its last use,
    who is evicted and who comes in, and what those who ask are answered.  Each law speaks of the event
    and not of the function that carries it out. */
module CapacityLaws {
  import opened Wrappers
  import opened Capacity
  import CP = CapacityProofs
  import Runs

  // ---------- What an event says of one browser ----------

  function Given(e: Event, id: Id): set<Reason> {
    match e
    case ProtectForE(i, reason, on) => if i == id && on then {reason} else {}
    case ActivateE(i, _, aborted) => if i == id && !aborted then {Activation} else {}
    case _ => {}
  }

  function Lifted(e: Event, id: Id): set<Reason> {
    match e
    case ProtectForE(i, reason, on) => if i == id && !on then {reason} else {}
    case SettleE(i) => if i == id then {Activation} else {}
    case _ => {}
  }

  function UsedAt(e: Event, id: Id): Option<int> {
    match e
    case MarkLiveE(i, now) => if i == id then Some(now) else None
    case TouchE(i, now) => if i == id then Some(now) else None
    case ActivateE(i, now, aborted) => if i == id && !aborted then Some(now) else None
    case _ => None
  }

  /** Its page is frozen, or its own insertion is undone. */
  predicate Removes(c: Cap, e: Event, id: Id) {
    || e == MarkFrozenE(id)
    || (e == RollbackE(id) && id in c.admissions && c.admissions[id].inserted)
  }

  /** The entry of a browser that stays, as the event leaves it. */
  function Next(entry: LiveEntry, e: Event, id: Id): LiveEntry {
    LiveEntry(if UsedAt(e, id).Some? then UsedAt(e, id).value else entry.lastUsedAt,
              entry.protections + Given(e, id) - Lifted(e, id))
  }

  /** An event that does not speak of a browser leaves its entry alone. */
  lemma NextOther(e: Event, id: Id)
    requires Given(e, id) == {} && Lifted(e, id) == {} && UsedAt(e, id).None?
    ensures forall entry :: Next(entry, e, id) == entry
  {
    forall entry ensures Next(entry, e, id) == entry {
      assert entry.protections + {} - {} == entry.protections;
    }
  }

  lemma NextOthers(e: Event)
    ensures forall id, entry :: Given(e, id) == {} && Lifted(e, id) == {} && UsedAt(e, id).None? ==>
      Next(entry, e, id) == entry
  {
    forall id | Given(e, id) == {} && Lifted(e, id) == {} && UsedAt(e, id).None?
      ensures forall entry :: Next(entry, e, id) == entry
    {
      NextOther(e, id);
    }
  }

  /** Of the browsers that the event leaves without protection, `id` has been used least recently. */
  ghost predicate LeastUsed(c: Cap, e: Event, id: Id) {
    && id in c.live && Next(c.live[id], e, id).protections == {}
    && forall other :: other in c.live && other != id && !Removes(c, e, other) ==>
         var a, b := Next(c.live[id], e, id), Next(c.live[other], e, other);
         b.protections == {} ==> a.lastUsedAt < b.lastUsedAt || (a.lastUsedAt == b.lastUsedAt && id < other)
  }

  /** Who takes a place in this step, apart from a victim that is given back: the one who asks, or the
      head of the queue. */
  predicate ComesIn(c: Cap, d: Cap, e: Event, id: Id) {
    && id !in c.live && id in d.live
    && ((e.ActivateE? && e.id == id && !e.aborted && d.live[id] == LiveEntry(e.now, {Activation}))
        || (c.queue != [] && c.queue[0].id == id && d.live[id] == LiveEntry(c.queue[0].now, {Activation})
            && c.queue[0].promise in d.settled && d.settled[c.queue[0].promise].Granted?))
  }

  // ---------- One drain ----------

  /** The head of the queue takes a place, from `victim` if there is one. */
  ghost predicate Serves(c: Cap, d: Cap, victim: Option<Id>) {
    && c.queue != [] && c.queue[0].id !in c.live && (victim.Some? ==> IsVictim(c.live, victim.value))
    && d.live == CP.Take(c.live, c.queue[0].id, LiveEntry(c.queue[0].now, {Activation}), victim)
    && d.admissions == c.admissions[c.queue[0].id := Admission(true, CP.VictimEntry(c.live, victim), false)]
    && d.queue == c.queue[1..] && d.settled == c.settled[c.queue[0].promise := Granted(victim)]
    && d.promises == c.promises
  }

  lemma DrainForm(c: Cap) returns (victim: Option<Id>)
    requires CP.Slack(c)
    ensures Drain(c) == c || Serves(c, Drain(c), victim)
  {
    victim := None;
    if c.queue != [] {
      var w := c.queue[0];
      assert w in c.queue;
      CP.DrainShape(c);
      CP.AdmitShape(c, w.id, w.now);
      var verdict := Admit(c, w.id, w.now).1;
      if verdict.Admitted? { victim := verdict.freeze; }
    }
  }

  lemma DrainEntry(c: Cap, id: Id)
    requires CP.Slack(c) && id in c.live
    ensures var d := Drain(c); id in d.live ==> d.live[id] == c.live[id]
    ensures var d := Drain(c); id !in d.live ==> IsVictim(c.live, id) && c.queue != [] && c.queue[0].id in d.live
  {
    var victim := DrainForm(c);
    if Drain(c) != c { ServesEntry(c, Drain(c), victim, id); }
  }

  lemma ServesEntry(c: Cap, d: Cap, victim: Option<Id>, id: Id)
    requires Serves(c, d, victim) && id in c.live
    ensures id in d.live ==> d.live[id] == c.live[id]
    ensures id !in d.live ==> IsVictim(c.live, id) && c.queue[0].id in d.live
  {
  }

  lemma DrainNewcomer(c: Cap, id: Id)
    requires CP.Slack(c) && id !in c.live && id in Drain(c).live
    ensures c.queue != [] && c.queue[0].id == id && Drain(c).live[id] == LiveEntry(c.queue[0].now, {Activation})
    ensures c.queue[0].promise in Drain(c).settled && Drain(c).settled[c.queue[0].promise].Granted?
  {
    var victim := DrainForm(c);
  }

  // ---------- Those who are live ----------

  /** What an event does to one live browser: it has its next entry, or it was the least recently used
      of the unprotected ones and another has come in. */
  ghost predicate EntryLaw(c: Cap, d: Cap, e: Event, id: Id)
    requires id in c.live
  {
    && (id in d.live ==> d.live[id] == Next(c.live[id], e, id))
    && (id !in d.live ==> LeastUsed(c, e, id) && exists n :: ComesIn(c, d, e, n))
  }

  /** Just before the drain, if there is one, everyone who stays has its next entry. */
  ghost predicate Prepared(c: Cap, m: Cap, e: Event) {
    && m.queue == c.queue && m.settled == c.settled
    && (forall x :: x in c.live && !Removes(c, e, x) ==> x in m.live && m.live[x] == Next(c.live[x], e, x))
    && (forall x :: x in c.live && Removes(c, e, x) ==> x !in m.live)
  }

  lemma DrainLaw(c: Cap, m: Cap, e: Event, id: Id)
    requires CP.Slack(m) && Prepared(c, m, e) && id in c.live && !Removes(c, e, id)
    requires forall w :: w in c.queue ==> w.id !in c.live
    ensures EntryLaw(c, Drain(m), e, id)
  {
    DrainEntry(m, id);
    if id !in Drain(m).live {
      LeastOfThose(c, m, e, id);
      var w := c.queue[0];
      assert w in c.queue;
      WhoComesIn(c, m, e, w);
    }
  }

  lemma LeastOfThose(c: Cap, m: Cap, e: Event, id: Id)
    requires Prepared(c, m, e) && id in c.live && !Removes(c, e, id) && IsVictim(m.live, id)
    ensures LeastUsed(c, e, id)
  {
    forall other | other in c.live && other != id && !Removes(c, e, other)
      && Next(c.live[other], e, other).protections == {}
      ensures Older(m.live, id, other)
    {
      assert Evictable(m.live, other);
    }
  }

  lemma WhoComesIn(c: Cap, m: Cap, e: Event, w: Waiter)
    requires CP.Slack(m) && m.queue == c.queue && c.queue != [] && w == c.queue[0] && w in c.queue
    requires w.id !in c.live && w.id in Drain(m).live
    ensures ComesIn(c, Drain(m), e, w.id)
  {
    DrainNewcomer(m, w.id);
  }

  lemma ActivateLaw(c: Cap, i: Id, now: int, id: Id)
    requires Inv(c) && id in c.live
    ensures EntryLaw(c, ActivateQueued(c, i, now, false).0, ActivateE(i, now, false), id)
  {
    var e, d := ActivateE(i, now, false), ActivateQueued(c, i, now, false).0;
    NextOthers(e);
    if i in c.live {
      assert c.live[i].protections + {Activation} - {} == c.live[i].protections + {Activation};
    } else {
      CP.AdmitShape(c, i, now);
      var verdict := Admit(c, i, now).1;
      if verdict.Admitted? { TakenLaw(c, d, i, now, verdict.freeze, id); }
    }
  }

  lemma TakenLaw(c: Cap, d: Cap, i: Id, now: int, victim: Option<Id>, id: Id)
    requires id in c.live && i !in c.live && (victim.Some? ==> IsVictim(c.live, victim.value))
    requires d.live == CP.Take(c.live, i, LiveEntry(now, {Activation}), victim)
    ensures EntryLaw(c, d, ActivateE(i, now, false), id)
  {
    var e := ActivateE(i, now, false);
    NextOthers(e);
    if id !in d.live {
      LeastOfThose(c, c, e, id);
      assert ComesIn(c, d, e, i);
    }
  }

  lemma ProtectLaw(c: Cap, i: Id, reason: Reason, on: bool, id: Id)
    requires Inv(c) && id in c.live && (reason == Activation ==> on)
    ensures EntryLaw(c, ProtectFor(c, i, reason, on), ProtectForE(i, reason, on), id)
  {
    var e := ProtectForE(i, reason, on);
    NextOthers(e);
    if i in c.live {
      var entry := Next(c.live[i], e, i);
      if on {
        assert entry.protections == c.live[i].protections + {reason};
      } else {
        assert entry.protections == c.live[i].protections - {reason};
        CP.EntrySlack(c, i, entry);
        DrainLaw(c, c.(live := c.live[i := entry]), e, id);
      }
    }
  }

  lemma FreezeLaw(c: Cap, i: Id, id: Id)
    requires Inv(c) && id in c.live && id != i && !HoldsUnfrozenVictim(c, i)
    ensures EntryLaw(c, MarkFrozen(c, i), MarkFrozenE(i), id)
  {
    NextOthers(MarkFrozenE(i));
    CP.FreezeSlack(c, i);
    DrainLaw(c, c.(live := c.live - {i}, admissions := MarkVictims(c.admissions, i)), MarkFrozenE(i), id);
  }

  lemma RollbackLaw(c: Cap, i: Id, id: Id)
    requires Inv(c) && id in c.live && !Removes(c, RollbackE(i), id)
    ensures EntryLaw(c, RollbackActivation(c, i), RollbackE(i), id)
  {
    NextOthers(RollbackE(i));
    if i in c.admissions {
      var a := c.admissions[i];
      CP.RollbackSlack(c, i);
      assert a.victim.Some? && !a.victimFrozen ==> Owes(c.admissions, i, a.victim.value.id);
      DrainLaw(c, c.(live := Restored(c.live, i, a), admissions := c.admissions - {i}), RollbackE(i), id);
    }
  }

  lemma SettleLaw(c: Cap, i: Id, id: Id)
    requires Inv(c) && id in c.live
    ensures EntryLaw(c, SettleActivation(c, i), SettleE(i), id)
  {
    NextOthers(SettleE(i));
    if i in c.live {
      var entry := Next(c.live[i], SettleE(i), i);
      assert entry.protections == c.live[i].protections - {Activation};
      var m := c.(admissions := c.admissions - {i});
      assert forall b, v :: Owes(m.admissions, b, v) ==> Owes(c.admissions, b, v);
      CP.EntrySlack(m, i, entry);
      DrainLaw(c, m.(live := c.live[i := entry]), SettleE(i), id);
    }
  }

  /** Of every live browser, whatever is called: it keeps every reason that this very call does not
      lift and gains the one it is given, and the time of its last use is that of the last call that
      used it; it goes only if it is removed, or if nothing protects it, no other unprotected one has
      been used less recently, and another comes in. */
  lemma LiveLaw(c: Cap, e: Event, id: Id)
    requires Inv(c) && Allowed(c, e) && id in c.live && !Removes(c, e, id)
    ensures EntryLaw(c, Step(c, e), e, id)
  {
    NextOthers(e);
    match e
    case MarkFrozenE(i) => FreezeLaw(c, i, id);
    case ProtectForE(i, reason, on) => ProtectLaw(c, i, reason, on, id);
    case ActivateE(i, now, aborted) => if !aborted { ActivateLaw(c, i, now, id); }
    case RollbackE(i) => RollbackLaw(c, i, id);
    case SettleE(i) => SettleLaw(c, i, id);
    case _ => PlainLaw(c, e, id);
  }

  lemma PlainLaw(c: Cap, e: Event, id: Id)
    requires Inv(c) && Allowed(c, e) && id in c.live
    requires e.MarkLiveE? || e.TouchE? || e.CancelE? || e.RejectE? || e.VictimFrozenE?
    ensures EntryLaw(c, Step(c, e), e, id)
  {
    NextOthers(e);
    assert c.live[id].protections + {} - {} == c.live[id].protections;
  }

  /** A browser whose page is frozen, or whose insertion is undone, is not live any more. */
  lemma RemovedLaw(c: Cap, e: Event, id: Id)
    requires Inv(c) && Allowed(c, e) && id in c.live && Removes(c, e, id)
    ensures id !in Step(c, e).live
  {
    if e.MarkFrozenE? {
      CP.FreezeSlack(c, id);
      var m := c.(live := c.live - {id}, admissions := MarkVictims(c.admissions, id));
      assert c.queue != [] ==> c.queue[0] in c.queue;
      if id in Drain(m).live { DrainNewcomer(m, id); }
    } else {
      var a := c.admissions[id];
      CP.RollbackSlack(c, id);
      var m := c.(live := Restored(c.live, id, a), admissions := c.admissions - {id});
      assert a.victim.Some? && !a.victimFrozen ==> Owes(c.admissions, id, a.victim.value.id);
      assert c.queue != [] ==> c.queue[0] in c.queue;
      if id in Drain(m).live { DrainNewcomer(m, id); }
    }
  }

  // ---------- Over runs ----------

  /** The reasons and the time of last use that the calls of a run give a browser. */
  function History(entry: LiveEntry, events: seq<Event>, id: Id): LiveEntry
    decreases |events|
  {
    if events == [] then entry else History(Next(entry, events[0], id), events[1..], id)
  }

  /** An allowed call that neither removes a browser nor lifts `reason` from it. */
  ghost predicate Spares(id: Id, reason: Reason, c: Cap, e: Event) {
    Allowed(c, e) && !Removes(c, e, id) && reason !in Lifted(e, id)
  }

  /** While a reason to protect it stands, a browser stays: it is no victim of any admission, and its
      entry is exactly what the calls since then have made of it. */
  lemma {:induction false} ProtectedStays(c: Cap, events: seq<Event>, id: Id, reason: Reason)
    requires Inv(c) && id in c.live && reason in c.live[id].protections
    requires Runs.Legal((t, e) => Spares(id, reason, t, e), Step, c, events)
    ensures var d := Runs.After(Step, c, events);
      && id in d.live && d.live[id] == History(c.live[id], events, id)
      && reason in d.live[id].protections && !IsUnfrozenVictim(d, id)
    decreases |events|
  {
    if events != [] {
      LiveLaw(c, events[0], id);
      CP.StepKeeps(c, events[0]);
      assert reason in Next(c.live[id], events[0], id).protections;
      ProtectedStays(Step(c, events[0]), events[1..], id, reason);
    }
  }

  /** So it is from the call that gives the reason. */
  lemma ProtectionHolds(c: Cap, id: Id, reason: Reason, events: seq<Event>)
    requires Inv(c) && id in c.live
    requires Runs.Legal((t, e) => Spares(id, reason, t, e), Step, Step(c, ProtectForE(id, reason, true)), events)
    ensures var d := Runs.After(Step, Step(c, ProtectForE(id, reason, true)), events);
      id in d.live && reason in d.live[id].protections && !IsUnfrozenVictim(d, id)
  {
    var e := ProtectForE(id, reason, true);
    LiveLaw(c, e, id);
    CP.StepKeeps(c, e);
    assert reason in Next(c.live[id], e, id).protections;
    ProtectedStays(Step(c, e), events, id, reason);
  }

  // ---------- Those who come in ----------

  /** Its evicted victim is given back, as it was. */
  predicate GivenBack(c: Cap, d: Cap, e: Event, id: Id) {
    && e.RollbackE? && Owes(c.admissions, e.id, id)
    && id in d.live && d.live[id] == c.admissions[e.id].victim.value.entry
  }

  /** Nobody comes in but the one who asks, the head of the queue, and a victim that is given back. */
  lemma NewcomerLaw(c: Cap, e: Event, id: Id)
    requires Inv(c) && Allowed(c, e) && id !in c.live && id in Step(c, e).live
    ensures ComesIn(c, Step(c, e), e, id) || GivenBack(c, Step(c, e), e, id)
  {
    if e.MarkFrozenE? {
      NewcomerFrozen(c, e.id, id);
    } else if e.ProtectForE? {
      NewcomerProtected(c, e.id, e.reason, e.on, id);
    } else if e.ActivateE? {
      NewcomerActivated(c, e.id, e.now, e.aborted, id);
    } else if e.RollbackE? {
      NewcomerRolledBack(c, e.id, id);
    } else if e.SettleE? {
      NewcomerSettled(c, e.id, id);
    }
  }

  lemma NewcomerFrozen(c: Cap, i: Id, id: Id)
    requires Inv(c) && !HoldsUnfrozenVictim(c, i) && id !in c.live && id in MarkFrozen(c, i).live
    ensures ComesIn(c, MarkFrozen(c, i), MarkFrozenE(i), id)
  {
    CP.FreezeSlack(c, i);
    DrainNewcomer(c.(live := c.live - {i}, admissions := MarkVictims(c.admissions, i)), id);
  }

  lemma NewcomerProtected(c: Cap, i: Id, reason: Reason, on: bool, id: Id)
    requires Inv(c) && (reason == Activation ==> on) && id !in c.live && id in ProtectFor(c, i, reason, on).live
    ensures ComesIn(c, ProtectFor(c, i, reason, on), ProtectForE(i, reason, on), id)
  {
    var entry := c.live[i].(protections := c.live[i].protections - {reason});
    CP.EntrySlack(c, i, entry);
    DrainNewcomer(c.(live := c.live[i := entry]), id);
  }

  lemma NewcomerSettled(c: Cap, i: Id, id: Id)
    requires Inv(c) && id !in c.live && id in SettleActivation(c, i).live
    ensures ComesIn(c, SettleActivation(c, i), SettleE(i), id)
  {
    var m := c.(admissions := c.admissions - {i});
    assert forall b, v :: Owes(m.admissions, b, v) ==> Owes(c.admissions, b, v);
    var entry := c.live[i].(protections := c.live[i].protections - {Activation});
    CP.EntrySlack(m, i, entry);
    DrainNewcomer(m.(live := c.live[i := entry]), id);
  }

  lemma NewcomerActivated(c: Cap, i: Id, now: int, aborted: bool, id: Id)
    requires Inv(c) && id !in c.live && id in ActivateQueued(c, i, now, aborted).0.live
    ensures ComesIn(c, ActivateQueued(c, i, now, aborted).0, ActivateE(i, now, aborted), id)
  {
    if !aborted && i !in c.live { CP.AdmitShape(c, i, now); }
  }

  lemma NewcomerRolledBack(c: Cap, i: Id, id: Id)
    requires Inv(c) && id !in c.live && id in RollbackActivation(c, i).live
    ensures ComesIn(c, RollbackActivation(c, i), RollbackE(i), id)
      || GivenBack(c, RollbackActivation(c, i), RollbackE(i), id)
  {
    var a := c.admissions[i];
    CP.RollbackSlack(c, i);
    var m := c.(live := Restored(c.live, i, a), admissions := c.admissions - {i});
    if id in m.live {
      assert Owes(c.admissions, i, id);
      DrainEntry(m, id);
    } else {
      DrainNewcomer(m, id);
    }
  }

  // ---------- What those who ask are told ----------

  /** There is neither a free place nor anyone to evict. */
  ghost predicate Occupied(c: Cap, id: Id) {
    id !in c.live && |c.live| == c.maxLive && forall l :: l in c.live ==> c.live[l].protections != {}
  }

  /** Who asks is granted a place at once unless all are taken by protected browsers; then he shares the
      promise he waits for already, or is refused because too many wait, or waits behind all others. */
  lemma AnswerLaw(c: Cap, id: Id, now: int, aborted: bool)
    requires Inv(c) && (aborted || !IsUnfrozenVictim(c, id))
    ensures var (d, p) := ActivateQueued(c, id, now, aborted);
      if aborted then p == c.promises && p in d.settled && d.settled[p] == Cancelled && d.live == c.live
      else if !Occupied(c, id) then
        p == c.promises && p in d.settled && d.settled[p].Granted? && id in d.live
        && (d.settled[p].freeze.Some? <==> id !in c.live && |c.live| == c.maxLive)
      else if id in c.pending then d == c && p == c.pending[id].promise
      else
        && p == c.promises && d.live == c.live
        && (if |c.queue| >= c.maxQueue then d.queue == c.queue && p in d.settled && d.settled[p] == Busy
            else d.queue == c.queue + [Waiter(id, now, p)] && p !in d.settled)
  {
    if !aborted {
      CP.VictimExists(c.live);
      if id !in c.live { CP.AdmitShape(c, id, now); }
    }
  }

  /** Whoever takes a place from another takes it from one that nothing protected. */
  lemma TakesFrom(c: Cap, id: Id, now: int)
    requires Inv(c) && id !in c.live && !Occupied(c, id) && !IsUnfrozenVictim(c, id)
    ensures var (d, p) := ActivateQueued(c, id, now, false);
      && p == c.promises && p in d.settled && d.settled[p].Granted? && id in d.live
      && (d.settled[p].freeze.Some? ==>
            var v := d.settled[p].freeze.value; v in c.live && c.live[v].protections == {} && v !in d.live)
  {
    CP.VictimExists(c.live);
    CP.AdmitShape(c, id, now);
  }

  /** Who stops waiting does not wait any more and is told why. */
  lemma RejectLaw(c: Cap, w: Waiter, how: Settlement)
    requires QueueOk(c) && w in c.queue
    ensures var d := Step(c, RejectE(w, how));
      && w.promise in d.settled && d.settled[w.promise] == how && d.live == c.live
      && (forall x :: x in d.queue <==> x in c.queue && x != w)
  {
    RestOf(c.queue, c.pending, w);
  }

  lemma RestOf(queue: seq<Waiter>, pending: map<Id, Waiter>, w: Waiter)
    requires Indexed(queue, pending) && w in queue
    ensures w.id in pending && pending[w.id] == w
    ensures forall x :: x in Without(queue, w) <==> x in queue && x != w
  {
    assert forall i, j :: 0 <= i < j < |queue| ==> queue[i] != queue[j];
    forall x ensures x in Without(queue, w) <==> x in queue && x != w {
      CP.WithoutMember(queue, w, x);
    }
  }

  /** The others keep their order. */
  lemma RejectOrder(c: Cap, w: Waiter, how: Settlement, i: nat, j: nat)
    requires QueueOk(c) && w in c.queue && i < j < |Step(c, RejectE(w, how)).queue|
    ensures var q := Step(c, RejectE(w, how)).queue; CP.Before(c.queue, q[i], q[j])
  {
    RestInOrder(c.queue, w, i, j);
  }

  lemma RestInOrder(queue: seq<Waiter>, w: Waiter, i: nat, j: nat)
    requires w in queue && i < j < |Without(queue, w)|
    ensures CP.Before(queue, Without(queue, w)[i], Without(queue, w)[j])
  {
    var k := IndexOf(queue, w);
    CP.WithoutAt(queue, w, i);
    CP.WithoutAt(queue, w, j);
    assert queue[if i < k then i else i + 1] == Without(queue, w)[i];
    assert queue[if j < k then j else j + 1] == Without(queue, w)[j];
  }

  lemma CancelLaw(c: Cap, id: Id)
    requires Inv(c)
    ensures var d := Step(c, CancelE(id));
      && (forall w :: w in d.queue <==> w in c.queue && w.id != id)
      && (forall w :: w in c.queue && w.id == id ==> w.promise in d.settled && d.settled[w.promise] == Cancelled)
  {
    if id in c.pending {
      RejectLaw(c, c.pending[id], Cancelled);
    }
  }

  // ---------- Promises ----------

  /** What has been answered stays answered, as it was. */
  ghost predicate Answered(c: Cap, d: Cap) {
    QueueOk(d) && forall p :: p in c.settled ==> p in d.settled && d.settled[p] == c.settled[p]
  }

  /** Promises do not depend on who is live. */
  predicate Aside(c: Cap, d: Cap) {
    d.queue == c.queue && d.pending == c.pending && d.settled == c.settled && d.promises == c.promises
      && d.maxQueue == c.maxQueue
  }

  lemma AsideAnswers(c: Cap, d: Cap)
    requires QueueOk(c) && Aside(c, d)
    ensures Answered(c, d)
  {
  }

  lemma TakesAside(c: Cap, id: Id, now: int)
    ensures Aside(c, Admit(c, id, now).0) && Aside(c, Protected(Admit(c, id, now).0, id, Activation))
  {
  }

  lemma DrainAnswers(c: Cap)
    requires QueueOk(c)
    ensures Answered(c, Drain(c))
  {
    if c.queue != [] {
      var w := c.queue[0];
      var (c1, verdict) := Admit(c, w.id, w.now);
      TakesAside(c, w.id, w.now);
      if verdict.Admitted? { HeadAnswers(c, Protected(c1, w.id, Activation), Granted(verdict.freeze)); }
    }
  }

  lemma HeadAnswers(c: Cap, m: Cap, how: Settlement)
    requires QueueOk(c) && Aside(c, m) && c.queue != []
    ensures var d := Remove(m, c.queue[0], how); Answered(c, d.(served := d.served + [c.queue[0].promise]))
  {
    AsideAnswers(c, m);
    assert c.queue[0] in c.queue;
    CP.RemoveHead(m, how);
    var d := Remove(m, c.queue[0], how);
    AsideAnswers(d, d.(served := d.served + [c.queue[0].promise]));
  }

  lemma RemoveAnswers(c: Cap, w: Waiter, how: Settlement)
    requires QueueOk(c)
    ensures Answered(c, Remove(c, w, how))
  {
    if w.id in c.pending && c.pending[w.id] == w { CP.RemoveFromQueue(c, w, how); }
  }

  lemma ActivateAnswers(c: Cap, id: Id, now: int, aborted: bool)
    requires QueueOk(c)
    ensures Answered(c, ActivateQueued(c, id, now, aborted).0)
  {
    if aborted {
      NewAnswer(c, c, Cancelled);
    } else if Admit(c, id, now).1.Admitted? {
      GrantAnswers(c, id, now);
    } else {
      FullAnswers(c, id, now);
    }
  }

  lemma GrantAnswers(c: Cap, id: Id, now: int)
    requires QueueOk(c) && Admit(c, id, now).1.Admitted?
    ensures Answered(c, ActivateQueued(c, id, now, false).0)
  {
    var (c1, verdict) := Admit(c, id, now);
    TakesAside(c, id, now);
    NewAnswer(c, Protected(c1, id, Activation), Granted(verdict.freeze));
  }

  lemma FullAnswers(c: Cap, id: Id, now: int)
    requires QueueOk(c) && Admit(c, id, now).1.Full?
    ensures Answered(c, ActivateQueued(c, id, now, false).0)
  {
    if id !in c.pending {
      if |c.queue| >= c.maxQueue { NewAnswer(c, c, Busy); } else { NewWaiter(c, id, now); }
    }
  }

  lemma NewWaiter(c: Cap, id: Id, now: int)
    requires QueueOk(c) && id !in c.pending && |c.queue| < c.maxQueue
    ensures var w := Waiter(id, now, c.promises);
      Answered(c, c.(promises := c.promises + 1, queue := c.queue + [w], pending := c.pending[id := w]))
  {
    CP.QueueLonger(c.queue, c.pending, c.settled, c.promises, Waiter(id, now, c.promises));
  }

  lemma NewAnswer(c: Cap, m: Cap, how: Settlement)
    requires QueueOk(c) && Aside(c, m)
    ensures Answered(c, m.(promises := c.promises + 1, settled := c.settled[c.promises := how]))
  {
  }

  lemma StepAnswers(c: Cap, e: Event)
    requires QueueOk(c)
    ensures Answered(c, Step(c, e))
  {
    if e.MarkFrozenE? {
      DrainAnswers(c.(live := c.live - {e.id}, admissions := MarkVictims(c.admissions, e.id)));
    } else if e.ProtectForE? {
      DrainAnswers(Unprotected(c, e.id, e.reason));
    } else if e.ActivateE? {
      ActivateAnswers(c, e.id, e.now, e.aborted);
    } else if e.CancelE? {
      if e.id in c.pending { RemoveAnswers(c, c.pending[e.id], Cancelled); }
    } else if e.RejectE? {
      RemoveAnswers(c, e.waiter, e.how);
    } else if e.RollbackE? && e.id in c.admissions {
      DrainAnswers(c.(live := Restored(c.live, e.id, c.admissions[e.id]), admissions := c.admissions - {e.id}));
    } else if e.SettleE? {
      DrainAnswers(Unprotected(c.(admissions := c.admissions - {e.id}), e.id, Activation));
    }
  }

  /** Over every run, allowed or not, each promise is answered once. */
  lemma {:induction false} AnsweredOnce(c: Cap, events: seq<Event>)
    requires QueueOk(c)
    ensures Answered(c, Runs.After(Step, c, events))
    decreases |events|
  {
    if events != [] {
      StepAnswers(c, events[0]);
      AnsweredOnce(Step(c, events[0]), events[1..]);
    }
  }

  // ---------- Admissions ----------

  /** An admission is forgotten when it is settled or undone, and otherwise stays as it was recorded,
      but for the mark that its victim is frozen. */
  lemma AdmissionLaw(c: Cap, e: Event, a: Id)
    requires Inv(c) && Allowed(c, e) && a in c.admissions
    requires !(e.ActivateE? && e.id == a) && (c.queue != [] ==> c.queue[0].id != a)
    ensures var d, old' := Step(c, e), c.admissions[a];
      if e == SettleE(a) || e == RollbackE(a) then a !in d.admissions
      else
        && a in d.admissions
        && d.admissions[a] == old'.(victimFrozen := old'.victimFrozen || e == VictimFrozenE(a)
             || (e.MarkFrozenE? && old'.victim.Some? && old'.victim.value.id == e.id))
  {
    match e
    case MarkFrozenE(i) =>
      CP.DrainOthers(c.(live := c.live - {i}, admissions := MarkVictims(c.admissions, i)), a);
    case ProtectForE(i, reason, on) => CP.DrainOthers(Unprotected(c, i, reason), a);
    case ActivateE(i, now, aborted) => CP.AdmitOthers(c, i, now, a);
    case RollbackE(i) =>
      if i in c.admissions {
        CP.DrainOthers(c.(live := Restored(c.live, i, c.admissions[i]), admissions := c.admissions - {i}), a);
      }
    case SettleE(i) => CP.DrainOthers(Unprotected(c.(admissions := c.admissions - {i}), i, Activation), a);
    case _ =>
  }
}
