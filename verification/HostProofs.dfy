/** What the host keeps over every run: at most `maxLive` pages, and generations that fence leases. */
module HostProofs {
  import opened Wrappers
  import opened Capacity
  import opened Host
  import H = Host
  import CP = CapacityProofs
  import Runs

  // ---------- Draining ----------

  ghost predicate GrantsKept(h: Host, g: Host) {
    forall id :: IsGranted(h, id) ==> IsGranted(g, id) && GrantOf(h, id) == GrantOf(g, id)
  }

  lemma DrainLinks(h: Host, except: set<Id>)
    requires CP.Slack(h.cap) && Core(h) && Accounted(h, except)
    ensures var d := h.(cap := Drain(h.cap)); Core(d) && Accounted(d, except) && Inv(d.cap)
    ensures GrantsKept(h, h.(cap := Drain(h.cap)))
  {
    CP.DrainRestores(h.cap);
    if h.cap.queue != [] {
      var c, w := h.cap, h.cap.queue[0];
      assert w in c.queue;
      CP.DrainShape(c);
      CP.AdmitShape(c, w.id, w.now);
      var (c1, verdict) := Admit(c, w.id, w.now);
      if verdict.Admitted? {
        SeatLinks(h, except, w, verdict.freeze, Drain(c));
      }
    }
  }

  ghost predicate Seated(h: Host, w: Waiter, victim: Option<Id>, d: Cap) {
    && CP.Slack(h.cap) && h.cap.queue != [] && w == h.cap.queue[0] && w in h.cap.queue
    && (victim.Some? ==> Evictable(h.cap.live, victim.value))
    && d.live == CP.Take(h.cap.live, w.id, LiveEntry(w.now, {Activation}), victim)
    && d.admissions == h.cap.admissions[w.id := Admission(true, CP.VictimEntry(h.cap.live, victim), false)]
    && d.queue == h.cap.queue[1..] && d.settled == h.cap.settled[w.promise := Granted(victim)]
    && d.promises == h.cap.promises
  }

  lemma SeatGrants(h: Host, w: Waiter, victim: Option<Id>, d: Cap)
    requires Seated(h, w, victim, d) && Core(h)
    ensures var g := h.(cap := d);
      && IsGranted(g, w.id) && GrantOf(g, w.id) == victim && !IsGranted(h, w.id)
      && forall id :: id != w.id ==>
           (IsGranted(g, id) <==> IsGranted(h, id)) && (IsGranted(h, id) ==> GrantOf(h, id) == GrantOf(g, id))
  {
  }

  lemma SeatDebts(h: Host, w: Waiter, victim: Option<Id>, d: Cap)
    requires Seated(h, w, victim, d)
    ensures forall a: Id, v: Id :: Owes(d.admissions, a, v) <==>
      (if a == w.id then victim == Some(v) else Owes(h.cap.admissions, a, v))
    ensures forall v: Id :: !Owes(h.cap.admissions, w.id, v)
  {
  }

  /** The head waiter `w` is seated in the place of `victim`. */
  lemma SeatLinks(h: Host, except: set<Id>, w: Waiter, victim: Option<Id>, d: Cap)
    requires Seated(h, w, victim, d) && Core(h) && Accounted(h, except)
    ensures Core(h.(cap := d)) && Accounted(h.(cap := d), except)
    ensures GrantsKept(h, h.(cap := d))
  {
    SeatGrants(h, w, victim, d);
    SeatDebts(h, w, victim, d);
    SeatAccounted(h, except, w, victim, d);
    SeatCalls(h.calls, h.cap.queue, h.cap.promises);
  }

  lemma SeatCalls(calls: map<Id, Call>, queue: seq<Waiter>, promises: nat)
    requires CallsOk(calls, queue, promises) && queue != []
    ensures CallsOk(calls, queue[1..], promises)
  {
    assert forall w :: w in queue[1..] ==> w in queue;
  }

  lemma SeatAccounted(h: Host, except: set<Id>, w: Waiter, victim: Option<Id>, d: Cap)
    requires Seated(h, w, victim, d) && Accounted(h, except)
    requires forall a: Id, v: Id :: Owes(d.admissions, a, v) <==>
      (if a == w.id then victim == Some(v) else Owes(h.cap.admissions, a, v))
    requires forall v: Id :: !Owes(h.cap.admissions, w.id, v)
    ensures Accounted(h.(cap := d), except)
  {
    if victim.Some? { assert Owes(d.admissions, w.id, victim.value); }
    forall v | IsUnfrozenVictim(h.cap, v) ensures IsUnfrozenVictim(d, v) {
      var a :| Owes(h.cap.admissions, a, v);
      assert Owes(d.admissions, a, v);
    }
  }

  // ---------- Single capacity calls under the host ----------

  ghost predicate SameGrants(h: Host, g: Host) {
    forall id :: (IsGranted(h, id) <==> IsGranted(g, id)) && (IsGranted(h, id) ==> GrantOf(h, id) == GrantOf(g, id))
  }

  /** `live` has the same members, and every grant still owns its protected place. */
  ghost predicate PlacesKept(h: Host, live: map<Id, LiveEntry>) {
    && live.Keys == h.cap.live.Keys
    && forall id :: IsGranted(h, id) && id in live ==> Activation in live[id].protections
  }

  /** A change of protections only. */
  lemma EntryCore(h: Host, live: map<Id, LiveEntry>, except: set<Id>)
    requires Core(h) && Accounted(h, except) && PlacesKept(h, live)
    ensures var g := h.(cap := h.cap.(live := live)); Core(g) && Accounted(g, except) && SameGrants(h, g)
  {
    var g := h.(cap := h.cap.(live := live));
    assert SameGrants(h, g);
    assert forall v :: IsUnfrozenVictim(h.cap, v) <==> IsUnfrozenVictim(g.cap, v);
  }

  lemma ProtectLinks(h: Host, id: Id, reason: Reason, on: bool, except: set<Id>)
    requires Linked(h, except) && (reason == Activation && !on ==> !IsGranted(h, id))
    ensures Linked(Protect(h, id, reason, on), except)
    ensures GrantsKept(h, Protect(h, id, reason, on))
  {
    if id in h.cap.live {
      var c := if on then Protected(h.cap, id, reason) else Unprotected(h.cap, id, reason);
      EntryCore(h, c.live, except);
      if !IsGranted(h, id) { HoldersAreGranted(h, id); }
      CP.EntrySlack(h.cap, id, c.live[id]);
      if !on { DrainLinks(h.(cap := c), except); }
    }
  }

  lemma HoldersAreGranted(h: Host, id: Id)
    requires Core(h) && !IsGranted(h, id)
    ensures !HoldsUnfrozenVictim(h.cap, id)
  {
  }

  lemma FreezeCore(h: Host, id: Id, except: set<Id>)
    requires Core(h) && Accounted(h, except + {id}) && (IsGranted(h, id) ==> id !in h.records)
    ensures var g := h.(runtimes := h.runtimes - {id},
        cap := h.cap.(live := h.cap.live - {id}, admissions := MarkVictims(h.cap.admissions, id)));
      Core(g) && Accounted(g, except) && SameGrants(h, g)
  {
    var c := h.cap.(live := h.cap.live - {id}, admissions := MarkVictims(h.cap.admissions, id));
    var g := h.(runtimes := h.runtimes - {id}, cap := c);
    assert SameGrants(h, g);
    MarkedDebts(h.cap.admissions, id);
    FreezeAccounted(h, g, id, except);
  }

  lemma MarkedDebts(admissions: map<Id, Admission>, id: Id)
    ensures forall a: Id, v: Id :: Owes(MarkVictims(admissions, id), a, v) <==> Owes(admissions, a, v) && v != id
  {
  }

  lemma FreezeAccounted(h: Host, g: Host, id: Id, except: set<Id>)
    requires Accounted(h, except + {id}) && g.runtimes == h.runtimes - {id} && g.cap.live == h.cap.live - {id}
    requires forall a: Id, v: Id :: Owes(g.cap.admissions, a, v) <==> Owes(h.cap.admissions, a, v) && v != id
    ensures Accounted(g, except)
  {
    forall v | IsUnfrozenVictim(h.cap, v) && v != id ensures IsUnfrozenVictim(g.cap, v) {
      var a :| Owes(h.cap.admissions, a, v);
      assert Owes(g.cap.admissions, a, v);
    }
  }

  /** A page leaves: its browser is no longer live and owes nobody anything. */
  lemma ReleaseLinks(h: Host, id: Id, except: set<Id>)
    requires Inv(h.cap) && Core(h) && Accounted(h, except + {id}) && !HoldsUnfrozenVictim(h.cap, id)
    requires IsGranted(h, id) ==> id !in h.records
    ensures var g := Release(h.(runtimes := h.runtimes - {id}), id);
      Linked(g, except) && GrantsKept(h, g)
  {
    CP.FreezeSlack(h.cap, id);
    FreezeCore(h, id, except);
    DrainLinks(h.(runtimes := h.runtimes - {id},
      cap := h.cap.(live := h.cap.live - {id}, admissions := MarkVictims(h.cap.admissions, id))), except);
  }

  lemma AdmissionGone(h: Host, id: Id, except: set<Id>)
    requires Core(h) && Accounted(h, except) && !IsGranted(h, id)
    ensures var g := h.(cap := h.cap.(admissions := h.cap.admissions - {id}));
      Core(g) && Accounted(g, except) && SameGrants(h, g)
  {
    var g := h.(cap := h.cap.(admissions := h.cap.admissions - {id}));
    assert SameGrants(h, g);
    assert forall a: Id, v: Id :: Owes(g.cap.admissions, a, v) <==> Owes(h.cap.admissions, a, v);
    forall v | IsUnfrozenVictim(h.cap, v) ensures IsUnfrozenVictim(g.cap, v) {
      var a :| Owes(h.cap.admissions, a, v);
      assert Owes(g.cap.admissions, a, v);
    }
  }

  lemma FewerAdmissions(c: Cap, id: Id)
    requires Inv(c)
    ensures Inv(c.(admissions := c.admissions - {id}))
  {
    assert forall b, v :: Owes(c.admissions - {id}, b, v) ==> Owes(c.admissions, b, v);
  }

  lemma SettleLinks(h: Host, id: Id, except: set<Id>)
    requires Linked(h, except) && !IsGranted(h, id)
    ensures Linked(Settle(h, id), except)
  {
    AdmissionGone(h, id, except);
    FewerAdmissions(h.cap, id);
    ProtectLinks(h.(cap := h.cap.(admissions := h.cap.admissions - {id})), id, Activation, false, except);
  }

  lemma WaiterGrants(h: Host, w: Waiter, how: Settlement)
    requires CallsOk(h.calls, h.cap.queue, h.cap.promises) && InOrder(h.cap.queue, h.cap.settled, h.cap.promises)
    requires w in h.cap.queue && !how.Granted?
    ensures SameGrants(h, h.(cap := h.cap.(settled := h.cap.settled[w.promise := how])))
  {
  }

  /** A waiter leaves without a grant. */
  lemma RemoveLinks(h: Host, w: Waiter, how: Settlement, except: set<Id>)
    requires Linked(h, except) && !how.Granted?
    ensures Linked(h.(cap := Remove(h.cap, w, how)), except) && SameGrants(h, h.(cap := Remove(h.cap, w, how)))
  {
    CP.RemoveKeeps(h.cap, w, how);
    if w.id in h.cap.pending && h.cap.pending[w.id] == w {
      CP.RemoveFromQueue(h.cap, w, how);
      CP.WithoutElements(h.cap.queue, w);
      WaiterGrants(h, w, how);
      SettledCore(h, Remove(h.cap, w, how), except);
    }
  }

  lemma SettledCore(h: Host, c: Cap, except: set<Id>)
    requires Core(h) && Accounted(h, except) && c.live == h.cap.live && c.admissions == h.cap.admissions
    requires SameGrants(h, h.(cap := h.cap.(settled := c.settled)))
    requires CallsOk(h.calls, c.queue, c.promises)
    ensures Core(h.(cap := c)) && Accounted(h.(cap := c), except) && SameGrants(h, h.(cap := c))
  {
    var m, g := h.(cap := h.cap.(settled := c.settled)), h.(cap := c);
    assert forall id :: IsGranted(m, id) <==> IsGranted(g, id);
    assert forall v :: IsUnfrozenVictim(h.cap, v) <==> IsUnfrozenVictim(c, v);
  }

  // ---------- Beginning an activation ----------

  lemma NotLive(h: Host, id: Id)
    requires HostInv(h) && id !in h.calls && id !in h.runtimes
    ensures id !in h.cap.live && id !in h.cap.pending && !IsUnfrozenVictim(h.cap, id)
  {
    assert forall p :: p in h.cap.pending ==> h.cap.pending[p] in h.cap.queue;
  }

  ghost predicate NewPromise(c: Cap, d: Cap, how: Settlement) {
    d.promises == c.promises + 1 && d.settled == c.settled[c.promises := how] && d.queue == c.queue
  }

  /** Every earlier grant is untouched by a new call with a new promise. */
  lemma NewCallGrants(h: Host, id: Id, kind: Kind, c: Cap, how: Settlement)
    requires id !in h.calls && CallsOk(h.calls, h.cap.queue, h.cap.promises) && NewPromise(h.cap, c, how)
    ensures var g := h.(cap := c, calls := h.calls[id := Call(h.cap.promises, kind, Awaiting)]);
      && (forall x :: x != id ==>
            (IsGranted(h, x) <==> IsGranted(g, x)) && (IsGranted(h, x) ==> GrantOf(h, x) == GrantOf(g, x)))
      && (IsGranted(g, id) <==> how.Granted?) && (how.Granted? ==> GrantOf(g, id) == how.freeze)
      && CallsOk(g.calls, g.cap.queue, g.cap.promises)
  {
  }

  /** Refused at once. */
  lemma BeginRefused(h: Host, id: Id, kind: Kind, how: Settlement)
    requires Core(h) && Accounted(h, {}) && id !in h.calls && id !in h.runtimes && id in h.records && !how.Granted?
    ensures var c := h.cap.(promises := h.cap.promises + 1, settled := h.cap.settled[h.cap.promises := how]);
      var g := h.(cap := c, calls := h.calls[id := Call(h.cap.promises, kind, Awaiting)]);
      Core(g) && Accounted(g, {})
  {
    var c := h.cap.(promises := h.cap.promises + 1, settled := h.cap.settled[h.cap.promises := how]);
    NewCallGrants(h, id, kind, c, how);
    assert forall v :: IsUnfrozenVictim(h.cap, v) <==> IsUnfrozenVictim(c, v);
  }

  /** Capacity with a new promise that is granted, in a free place or a victim's. */
  function GrantedCap(c: Cap, id: Id, now: int, victim: Option<Id>): Cap
    requires victim.Some? ==> victim.value in c.live
  {
    c.(live := CP.Take(c.live, id, LiveEntry(now, {Activation}), victim),
       admissions := c.admissions[id := Admission(true, CP.VictimEntry(c.live, victim), false)],
       promises := c.promises + 1, settled := c.settled[c.promises := Granted(victim)])
  }

  /** Granted at once. */
  lemma BeginGranted(h: Host, id: Id, now: int, kind: Kind, victim: Option<Id>)
    requires Core(h) && Accounted(h, {}) && id !in h.calls && id !in h.runtimes && id !in h.cap.live
    requires victim.Some? ==> Evictable(h.cap.live, victim.value)
    ensures var g := h.(cap := GrantedCap(h.cap, id, now, victim),
        calls := h.calls[id := Call(h.cap.promises, kind, Awaiting)]);
      Core(g) && Accounted(g, {})
  {
    TakenDebts(h.cap.live, h.cap.admissions, id, victim);
    TakenAccounted(h, id, GrantedCap(h.cap, id, now, victim), victim);
    BeginGrantedCore(h, id, now, kind, victim);
  }

  lemma BeginGrantedCore(h: Host, id: Id, now: int, kind: Kind, victim: Option<Id>)
    requires Core(h) && id !in h.calls && id !in h.runtimes && id !in h.cap.live
    requires victim.Some? ==> Evictable(h.cap.live, victim.value)
    requires forall a: Id, v: Id :: Owes(GrantedCap(h.cap, id, now, victim).admissions, a, v) <==>
      (if a == id then victim == Some(v) else Owes(h.cap.admissions, a, v))
    ensures Core(h.(cap := GrantedCap(h.cap, id, now, victim),
      calls := h.calls[id := Call(h.cap.promises, kind, Awaiting)]))
  {
    var g := h.(cap := GrantedCap(h.cap, id, now, victim),
      calls := h.calls[id := Call(h.cap.promises, kind, Awaiting)]);
    NewCallGrants(h, id, kind, g.cap, Granted(victim));
    VictimHasPage(h, victim);
    TakenPlaces(h, g.cap, id, LiveEntry(now, {Activation}), victim);
    SeatedCore(h, g, id, victim);
  }

  /** Who is chosen as a victim has no grant to use, so it has a page. */
  lemma VictimHasPage(h: Host, victim: Option<Id>)
    requires Core(h) && (victim.Some? ==> Evictable(h.cap.live, victim.value))
    ensures victim.Some? ==> !IsGranted(h, victim.value) && victim.value in h.runtimes
  {
  }

  /** Every place but the new one and the victim's is as it was. */
  ghost predicate PlaceTaken(c: Cap, d: Cap, id: Id, victim: Option<Id>) {
    && id in d.live && Activation in d.live[id].protections && id in d.admissions && d.admissions[id].inserted
    && (forall x :: x in d.live && x != id ==> x in c.live && d.live[x] == c.live[x])
    && (forall x :: x in c.live && victim != Some(x) ==> x in d.live)
    && (forall x :: x in c.admissions && x != id ==> x in d.admissions && d.admissions[x] == c.admissions[x])
  }

  lemma TakenPlaces(h: Host, d: Cap, id: Id, e: LiveEntry, victim: Option<Id>)
    requires id !in h.cap.live && Activation in e.protections && (victim.Some? ==> victim.value in h.cap.live)
    requires d.live == CP.Take(h.cap.live, id, e, victim)
    requires d.admissions == h.cap.admissions[id := Admission(true, CP.VictimEntry(h.cap.live, victim), false)]
    ensures PlaceTaken(h.cap, d, id, victim)
  {
  }

  lemma SeatedCore(h: Host, g: Host, id: Id, victim: Option<Id>)
    requires Core(h) && id !in h.calls && id !in h.runtimes && id !in h.cap.live
    requires victim.Some? ==> victim.value in h.cap.live && !IsGranted(h, victim.value) && victim.value in h.runtimes
    requires g.records == h.records && g.runtimes == h.runtimes && PlaceTaken(h.cap, g.cap, id, victim)
    requires g.calls.Keys == h.calls.Keys + {id} && (forall x :: x in h.calls ==> g.calls[x] == h.calls[x])
    requires CallsOk(g.calls, g.cap.queue, g.cap.promises) && IsGranted(g, id) && GrantOf(g, id) == victim
    requires forall x :: x != id ==>
      ((IsGranted(h, x) <==> IsGranted(g, x)) && (IsGranted(h, x) ==> GrantOf(h, x) == GrantOf(g, x)))
    requires forall a: Id, v: Id :: Owes(g.cap.admissions, a, v) <==>
      (if a == id then victim == Some(v) else Owes(h.cap.admissions, a, v))
    ensures Core(g)
  {
    forall x | IsAwaiting(g, x) ensures x !in g.runtimes {
      assert x != id ==> IsAwaiting(h, x);
    }
  }

  lemma TakenDebts(live: map<Id, LiveEntry>, admissions: map<Id, Admission>, id: Id, victim: Option<Id>)
    requires victim.Some? ==> victim.value in live
    ensures var admissions' := admissions[id := Admission(true, CP.VictimEntry(live, victim), false)];
      forall a: Id, v: Id :: Owes(admissions', a, v) <==>
        (if a == id then victim == Some(v) else Owes(admissions, a, v))
  {
  }

  lemma TakenAccounted(h: Host, id: Id, c: Cap, victim: Option<Id>)
    requires Accounted(h, {}) && (forall v: Id :: !Owes(h.cap.admissions, id, v))
    requires forall a: Id, v: Id :: Owes(c.admissions, a, v) <==>
      (if a == id then victim == Some(v) else Owes(h.cap.admissions, a, v))
    requires forall x :: x in h.cap.live && victim != Some(x) ==> x in c.live
    ensures forall x :: x in h.runtimes ==> x in c.live || IsUnfrozenVictim(c, x)
  {
    if victim.Some? { assert Owes(c.admissions, id, victim.value); }
    forall v | IsUnfrozenVictim(h.cap, v) ensures IsUnfrozenVictim(c, v) {
      var a :| Owes(h.cap.admissions, a, v);
      assert Owes(c.admissions, a, v);
    }
  }

  /** Left waiting. */
  lemma BeginWaiting(h: Host, id: Id, now: int, kind: Kind)
    requires Core(h) && Accounted(h, {}) && id !in h.calls && id !in h.runtimes
    requires InOrder(h.cap.queue, h.cap.settled, h.cap.promises)
    ensures var w := Waiter(id, now, h.cap.promises);
      var c := h.cap.(promises := h.cap.promises + 1, queue := h.cap.queue + [w], pending := h.cap.pending[id := w]);
      var g := h.(cap := c, calls := h.calls[id := Call(h.cap.promises, kind, Awaiting)]);
      Core(g) && Accounted(g, {})
  {
    var w := Waiter(id, now, h.cap.promises);
    var c := h.cap.(promises := h.cap.promises + 1, queue := h.cap.queue + [w], pending := h.cap.pending[id := w]);
    WaitingCalls(h.calls, h.cap.queue, h.cap.promises, w, kind);
    CalledCore(h, id, Call(h.cap.promises, kind, Awaiting), c);
  }

  /** A new call without a grant. */
  lemma CalledCore(h: Host, id: Id, call: Call, c: Cap)
    requires Core(h) && Accounted(h, {}) && id !in h.calls && id !in h.runtimes && call.promise !in h.cap.settled
    requires c.live == h.cap.live && c.admissions == h.cap.admissions && c.settled == h.cap.settled
    requires CallsOk(h.calls[id := call], c.queue, c.promises)
    ensures var g := h.(cap := c, calls := h.calls[id := call]); Core(g) && Accounted(g, {})
  {
    var g := h.(cap := c, calls := h.calls[id := call]);
    assert SameGrants(h, g);
    assert forall v :: IsUnfrozenVictim(h.cap, v) <==> IsUnfrozenVictim(c, v);
  }

  lemma WaitingCalls(calls: map<Id, Call>, queue: seq<Waiter>, promises: nat, w: Waiter, kind: Kind)
    requires CallsOk(calls, queue, promises) && w.id !in calls && w.promise == promises
    ensures CallsOk(calls[w.id := Call(promises, kind, Awaiting)], queue + [w], promises + 1)
  {
  }

  lemma BeginLinks(h: Host, id: Id, now: int, kind: Kind, aborted: bool)
    requires HostInv(h) && id !in h.calls && id !in h.runtimes && id in h.records
    ensures HostInv(Begin(h, id, now, kind, aborted))
  {
    NotLive(h, id);
    CP.ActivateKeeps(h.cap, id, now, aborted);
    if aborted {
      BeginRefused(h, id, kind, Cancelled);
    } else {
      BeginCore(h, id, now, kind);
    }
  }

  /** Capacity answers a newcomer in one of three ways; here it has a place. */
  lemma ActivateAdmits(c: Cap, id: Id, now: int)
    requires Inv(c) && id !in c.live && Admit(c, id, now).1.Admitted?
    ensures var victim := Admit(c, id, now).1.freeze;
      && (victim.Some? ==> Evictable(c.live, victim.value))
      && ActivateQueued(c, id, now, false) ==
           (c.(live := CP.Take(c.live, id, LiveEntry(now, {Activation}), victim),
               admissions := c.admissions[id := Admission(true, CP.VictimEntry(c.live, victim), false)],
               promises := c.promises + 1, settled := c.settled[c.promises := Granted(victim)]), c.promises)
  {
    CP.AdmitShape(c, id, now);
  }

  /** Here it has none. */
  lemma ActivateWaits(c: Cap, id: Id, now: int)
    requires id !in c.pending && Admit(c, id, now).1.Full?
    ensures ActivateQueued(c, id, now, false) ==
      (if |c.queue| >= c.maxQueue
       then c.(promises := c.promises + 1, settled := c.settled[c.promises := Busy])
       else c.(promises := c.promises + 1, queue := c.queue + [Waiter(id, now, c.promises)],
               pending := c.pending[id := Waiter(id, now, c.promises)]), c.promises)
  {
  }

  lemma BeginCore(h: Host, id: Id, now: int, kind: Kind)
    requires Inv(h.cap) && Core(h) && Accounted(h, {}) && id !in h.calls && id !in h.runtimes && id in h.records
    requires id !in h.cap.live && id !in h.cap.pending && !IsUnfrozenVictim(h.cap, id)
    ensures var g := Begin(h, id, now, kind, false); Core(g) && Accounted(g, {})
  {
    match Admit(h.cap, id, now).1
    case Admitted(victim) =>
      ActivateAdmits(h.cap, id, now);
      BeginGranted(h, id, now, kind, victim);
    case Full =>
      ActivateWaits(h.cap, id, now);
      if |h.cap.queue| >= h.cap.maxQueue { BeginRefused(h, id, kind, Busy); } else { BeginWaiting(h, id, now, kind); }
  }

  // ---------- Ending an activation ----------

  /** Pages, tombstones and visibility are outside the accounting. */
  lemma PagesAside(h: Host, pages: map<nat, Page>, floor: map<Id, nat>, incarnations: nat, except: set<Id>)
    requires Linked(h, except)
    ensures var g := h.(pages := pages, floor := floor, incarnations := incarnations);
      Linked(g, except) && SameGrants(h, g)
  {
    var g := h.(pages := pages, floor := floor, incarnations := incarnations);
    assert SameGrants(h, g);
  }

  /** Once its promise is settled a call is no longer in the queue. */
  lemma LeaveCalls(h: Host, id: Id)
    requires CallsOk(h.calls, h.cap.queue, h.cap.promises) && InOrder(h.cap.queue, h.cap.settled, h.cap.promises)
    requires id in h.calls && (h.calls[id].phase.Restoring? || h.calls[id].promise in h.cap.settled)
    ensures CallsOk(h.calls - {id}, h.cap.queue, h.cap.promises)
    ensures forall x :: IsGranted(Left(h, id), x) <==> x != id && IsGranted(h, x)
    ensures forall x :: IsGranted(h, x) && x != id ==> GrantOf(Left(h, id), x) == GrantOf(h, x)
  {
  }

  lemma LeaveRestoring(h: Host, id: Id, except: set<Id>)
    requires Linked(h, except) && id in h.calls && h.calls[id].phase.Restoring?
    ensures Linked(Left(h, id), except)
  {
    LeaveCalls(h, id);
    assert forall v :: IsUnfrozenVictim(h.cap, v) <==> IsUnfrozenVictim(Left(h, id).cap, v);
  }

  function RolledBackCap(c: Cap, id: Id): Cap
    requires id in c.admissions
  {
    c.(live := Capacity.Restored(c.live, id, c.admissions[id]), admissions := c.admissions - {id})
  }

  /** The rolled-back place goes to the victim, whose page is still there, or back to the pool. */
  lemma RolledBackCore(h: Host, id: Id)
    requires Core(h) && IsAwaiting(h, id) && h.calls[id].promise in h.cap.settled && id in h.cap.admissions
    requires InOrder(h.cap.queue, h.cap.settled, h.cap.promises)
    requires forall v: Id :: Owes(h.cap.admissions, id, v) ==> v !in h.cap.live
    ensures Core(Left(h.(cap := RolledBackCap(h.cap, id)), id))
  {
    var a := h.cap.admissions[id];
    var g := Left(h.(cap := RolledBackCap(h.cap, id)), id);
    LeaveCalls(h, id);
    RolledBackOwes(h.cap.admissions, id);
    assert forall x :: IsGranted(g, x) <==> IsGranted(Left(h, id), x);
    assert a.victim.Some? && !a.victimFrozen ==> Owes(h.cap.admissions, id, a.victim.value.id);
    assert !IsGranted(h, id) ==> id !in h.cap.live;
  }

  lemma RolledBackAccounted(h: Host, id: Id, except: set<Id>)
    requires Accounted(h, except) && id in h.cap.admissions && id !in h.runtimes
    ensures Accounted(Left(h.(cap := RolledBackCap(h.cap, id)), id), except)
  {
    var a, c := h.cap.admissions[id], RolledBackCap(h.cap, id);
    RolledBackOwes(h.cap.admissions, id);
    forall v | IsUnfrozenVictim(h.cap, v) && !Owes(h.cap.admissions, id, v) ensures IsUnfrozenVictim(c, v) {
      var b :| Owes(h.cap.admissions, b, v);
      assert Owes(c.admissions, b, v);
    }
  }

  lemma RolledBackOwes(admissions: map<Id, Admission>, id: Id)
    ensures forall b: Id, v: Id :: Owes(admissions - {id}, b, v) <==> b != id && Owes(admissions, b, v)
  {
  }

  lemma LeaveUngranted(h: Host, id: Id, except: set<Id>)
    requires Core(h) && Accounted(h, except) && IsAwaiting(h, id) && h.calls[id].promise in h.cap.settled
    requires (IsGranted(h, id) ==> id !in h.cap.live) && (forall v: Id :: !Owes(h.cap.admissions, id, v))
    requires InOrder(h.cap.queue, h.cap.settled, h.cap.promises)
    ensures Core(Left(h, id)) && Accounted(Left(h, id), except)
  {
    LeaveCalls(h, id);
    assert forall v :: IsUnfrozenVictim(h.cap, v) <==> IsUnfrozenVictim(Left(h, id).cap, v);
  }

  lemma RolledBackLinks(h: Host, id: Id, except: set<Id>)
    requires Linked(h, except) && IsAwaiting(h, id) && h.calls[id].promise in h.cap.settled
    ensures Linked(Left(h.(cap := RollbackActivation(h.cap, id)), id), except)
  {
    if id in h.cap.admissions {
      CP.RollbackSlack(h.cap, id);
      RolledBackCore(h, id);
      RolledBackAccounted(h, id, except);
      DrainLinks(Left(h.(cap := RolledBackCap(h.cap, id)), id), except);
    } else {
      LeaveUngranted(h, id, except);
    }
  }

  lemma FewerRecords(h: Host, id: Id, except: set<Id>)
    requires Linked(h, except) && id !in h.runtimes
    ensures Linked(h.(records := h.records - {id}), except)
  {
    var g := h.(records := h.records - {id});
    assert SameGrants(h, g);
  }

  lemma FailedLinks(h: Host, id: Id, except: set<Id>)
    requires Linked(h, except) && IsAwaiting(h, id) && h.calls[id].promise in h.cap.settled
    ensures Linked(Failed(h, id), except)
  {
    RolledBackLinks(h, id, except);
    var h1 := Left(h.(cap := RollbackActivation(h.cap, id)), id);
    if h.calls[id].kind.Opening? {
      FewerRecords(h1, id, except);
      SettleLinks(h1.(records := h1.records - {id}), id, except);
    } else {
      SettleLinks(h1, id, except);
    }
  }

  /** A torn-down page leaves the accounting together with its browser. */
  lemma TearDownLinks(h: Host, id: Id, incarnation: nat, except: set<Id>)
    requires Inv(h.cap) && Core(h) && Accounted(h, except + {id}) && !IsGranted(h, id)
    ensures var g := Release(TornDown(h, id, incarnation), id);
      Linked(g, except) && g.calls == h.calls && g.runtimes == h.runtimes - {id} && g.records == h.records
      && GrantsKept(h, g)
  {
    var t := TornDown(h, id, incarnation);
    var h1 := h.(pages := t.pages, floor := t.floor);
    PagesAside(h, t.pages, t.floor, h.incarnations, except + {id});
    HoldersAreGranted(h, id);
    ReleaseLinks(h1, id, except);
    assert h1.(runtimes := h.runtimes - {id}) == t;
  }

  lemma FreezeLinks(h: Host, id: Id, except: set<Id>)
    requires Inv(h.cap) && Core(h) && Accounted(h, except + {id}) && !IsGranted(h, id) && id in h.records
    ensures var g := Freeze(h, id);
      Linked(g, except) && g.calls == h.calls && g.runtimes == h.runtimes - {id} && g.records == h.records
      && GrantsKept(h, g)
  {
    if id in h.runtimes {
      TearDownLinks(h, id, h.runtimes[id], except);
    } else {
      HoldersAreGranted(h, id);
      ReleaseLinks(h, id, except);
      assert h.runtimes - {id} == h.runtimes;
      assert h.(runtimes := h.runtimes) == h;
    }
  }

  lemma VictimMarked(h: Host, id: Id, v: Id)
    requires HostInv(h) && IsGranted(h, id) && GrantOf(h, id) == Some(v)
    ensures var g := h.(cap := MarkAdmissionVictimFrozen(h.cap, id));
      Inv(g.cap) && Core(g) && Accounted(g, {v}) && SameGrants(h, g)
  {
    CP.VictimFrozenKeeps(h.cap, id);
    var c := MarkAdmissionVictimFrozen(h.cap, id);
    var g := h.(cap := c);
    assert SameGrants(h, g);
    MarkedOwes(h.cap, id);
    forall u | IsUnfrozenVictim(h.cap, u) && u != v ensures IsUnfrozenVictim(c, u) {
      var a :| Owes(h.cap.admissions, a, u);
      assert Owes(c.admissions, a, u);
    }
  }

  lemma MarkedOwes(c: Cap, id: Id)
    ensures forall a: Id, u: Id :: Owes(MarkAdmissionVictimFrozen(c, id).admissions, a, u) <==>
      a != id && Owes(c.admissions, a, u)
  {
  }

  lemma FreezeVictimLinks(h: Host, id: Id, v: Id)
    requires HostInv(h) && IsGranted(h, id) && GrantOf(h, id) == Some(v) && (v in h.records ==> !IsGranted(h, v))
    ensures var g := FreezeVictim(h, id, v);
      && HostInv(g) && IsGranted(g, id) && g.calls == h.calls && !HoldsUnfrozenVictim(g.cap, id)
  {
    VictimMarked(h, id, v);
    MarkedOwes(h.cap, id);
    var h1 := h.(cap := MarkAdmissionVictimFrozen(h.cap, id));
    if v in h.records {
      FreezeLinks(h1, v, {});
      var g := FreezeVictim(h, id, v);
      assert GrantOf(g, id) == Some(v) && v !in g.runtimes;
    } else {
      assert Accounted(h1, {});
    }
  }

  /** The granted browser gets its page; its call ends, or goes on to load it. */
  lemma MakeRuntimeLinks(h: Host, id: Id, now: int, calls: map<Id, Call>, except: set<Id>)
    requires Linked(h, except) && IsGranted(h, id) && id in h.records && !HoldsUnfrozenVictim(h.cap, id)
    requires calls == h.calls - {id} || (calls == h.calls[id := h.calls[id].(phase := Restoring(h.incarnations))])
    ensures Linked(MakeRuntime(h, id, now).(calls := calls), except)
  {
    var c := MarkLive(h.cap, id, now);
    var g := MakeRuntime(h, id, now).(calls := calls);
    CP.EntrySlack(h.cap, id, c.live[id]);
    assert forall v: Id :: !Owes(h.cap.admissions, id, v);
    assert forall v :: IsUnfrozenVictim(h.cap, v) <==> IsUnfrozenVictim(c, v);
    MakeRuntimeCore(h, id, now, calls);
  }

  lemma MakeRuntimeGrants(h: Host, id: Id, now: int, calls: map<Id, Call>)
    requires id in h.calls
    requires calls == h.calls - {id} || (calls == h.calls[id := h.calls[id].(phase := Restoring(h.incarnations))])
    ensures var g := MakeRuntime(h, id, now).(calls := calls);
      forall x :: (IsGranted(g, x) <==> x != id && IsGranted(h, x))
        && (IsGranted(g, x) ==> GrantOf(g, x) == GrantOf(h, x))
  {
  }

  lemma MakeRuntimeCore(h: Host, id: Id, now: int, calls: map<Id, Call>)
    requires Core(h) && IsGranted(h, id) && id in h.records && (forall v: Id :: !Owes(h.cap.admissions, id, v))
    requires InOrder(h.cap.queue, h.cap.settled, h.cap.promises)
    requires calls == h.calls - {id} || (calls == h.calls[id := h.calls[id].(phase := Restoring(h.incarnations))])
    ensures Core(MakeRuntime(h, id, now).(calls := calls))
  {
    MakeRuntimeGrants(h, id, now, calls);
    NotQueued(h, id, calls);
  }

  lemma NotQueued(h: Host, id: Id, calls: map<Id, Call>)
    requires CallsOk(h.calls, h.cap.queue, h.cap.promises) && InOrder(h.cap.queue, h.cap.settled, h.cap.promises)
    requires id in h.calls && h.calls[id].promise in h.cap.settled
    requires calls == h.calls - {id} || (calls == h.calls[id := h.calls[id].(phase := Restoring(h.incarnations))])
    ensures CallsOk(calls, h.cap.queue, h.cap.promises)
  {
  }

  lemma {:induction false} HideOthersLinks(h: Host, others: seq<Id>, except: set<Id>)
    requires Linked(h, except)
    ensures Linked(HideOthers(h, others), except) && HideOthers(h, others).calls == h.calls
    ensures HideOthers(h, others).runtimes == h.runtimes && GrantsKept(h, HideOthers(h, others))
    decreases |others|
  {
    if others != [] {
      var h1 := WithVisible(h, others[0], false);
      PagesAside(h, h1.pages, h1.floor, h1.incarnations, except);
      ProtectLinks(h1, others[0], Visible, false, except);
      HideOthersLinks(Protect(h1, others[0], Visible, false), others[1..], except);
    }
  }

  lemma PresentLinks(h: Host, id: Id, others: seq<Id>, except: set<Id>)
    requires Linked(h, except)
    ensures Linked(Present(h, id, others), except) && Present(h, id, others).calls == h.calls
  {
    HideOthersLinks(h, others, except);
    var h1 := HideOthers(h, others);
    var h2 := WithVisible(h1, id, true);
    PagesAside(h1, h2.pages, h2.floor, h2.incarnations, except);
    ProtectLinks(h2, id, Visible, true, except);
  }

  lemma RestoreFailedLinks(h: Host, id: Id, incarnation: nat, except: set<Id>)
    requires Linked(Left(h, id), except)
    ensures Linked(RestoreFailed(h, id, incarnation), except)
  {
    TearDownLinks(Left(h, id), id, incarnation, except);
    SettleLinks(Release(TornDown(Left(h, id), id, incarnation), id), id, except);
  }

  lemma ResumeLinks(h: Host, id: Id, ok: bool, now: int, loads: bool, others: seq<Id>, fault: Fault)
    requires HostInv(h) && Harmless(h, ResumeE(id, ok, now, loads, others, fault))
    ensures HostInv(Resume(h, id, ok, now, loads, others, fault))
  {
    if IsAwaiting(h, id) && h.calls[id].promise in h.cap.settled {
      if !ok || !IsGranted(h, id) {
        FailedLinks(h, id, {});
      } else {
        var h1 := VictimFirst(h, id);
        ResumeGranted(h1, id, now, loads, others, fault, {});
      }
    }
  }

  /** The victim of a grant is frozen, if it has one. */
  lemma VictimFirst(h: Host, id: Id) returns (h1: Host)
    requires HostInv(h) && IsGranted(h, id)
    requires GrantOf(h, id).Some? && GrantOf(h, id).value in h.records ==> !IsGranted(h, GrantOf(h, id).value)
    ensures h1 == if GrantOf(h, id).Some? then FreezeVictim(h, id, GrantOf(h, id).value) else h
    ensures HostInv(h1) && IsGranted(h1, id) && !HoldsUnfrozenVictim(h1.cap, id) && h1.calls == h.calls
    ensures h1.records == h.records
  {
    if GrantOf(h, id).Some? {
      h1 := FreezeVictim(h, id, GrantOf(h, id).value);
      FreezeVictimLinks(h, id, GrantOf(h, id).value);
    } else {
      h1 := h;
    }
  }

  lemma LeakAside(h: Host, except: set<Id>)
    requires Linked(h, except)
    ensures Linked(h.(leaked := h.leaked + 1), except)
  {
    assert SameGrants(h, h.(leaked := h.leaked + 1));
  }

  /** The part of a resumption after the victim is frozen. */
  lemma ResumeGranted(h: Host, id: Id, now: int, loads: bool, others: seq<Id>, fault: Fault, except: set<Id>)
    requires Linked(h, except) && IsGranted(h, id) && !HoldsUnfrozenVictim(h.cap, id)
    requires id in h.records && h.calls[id].kind.Opening? ==> !fault.CallThrows?
    ensures Linked(Resumed(h, id, now, loads, others, fault), except)
  {
    var g := Resumed(h, id, now, loads, others, fault);
    ResumedForms(h, id, now, loads, others, fault);
    if fault.CreateThrows? || id !in h.records {
      ResumeWithoutPage(h, id, except);
    } else if h.calls[id].kind.Opening? {
      ResumeOpening(h, id, now, others, except);
    } else {
      ResumeThawing(h, id, now, loads, except);
    }
  }

  /** The ends a resumption can come to. */
  lemma ResumedForms(h: Host, id: Id, now: int, loads: bool, others: seq<Id>, fault: Fault)
    requires id in h.calls
    ensures var g := Resumed(h, id, now, loads, others, fault);
      var h2 := MakeRuntime(h, id, now);
      var l := Left(h2, id);
      if fault.CreateThrows? then g == Failed(h, id)
      else if id !in h.records then g == Failed(h.(leaked := h.leaked + 1), id)
      else if h.calls[id].kind.Opening? then
        g == (if fault.CallThrows? then PresentFailed(h2, id, h.calls[id].kind.visible, others, fault.call)
              else Settle(if h.calls[id].kind.visible then Present(l, id, others) else l, id))
      else if loads then g == h2.(calls := h2.calls[id := h2.calls[id].(phase := Restoring(h.incarnations))])
      else g == RestoreFailed(h2, id, h.incarnations)
  {
  }

  lemma ResumeWithoutPage(h: Host, id: Id, except: set<Id>)
    requires Linked(h, except) && IsGranted(h, id)
    ensures Linked(Failed(h, id), except) && Linked(Failed(h.(leaked := h.leaked + 1), id), except)
  {
    FailedLinks(h, id, except);
    LeakAside(h, except);
    FailedLinks(h.(leaked := h.leaked + 1), id, except);
  }

  lemma ResumeOpening(h: Host, id: Id, now: int, others: seq<Id>, except: set<Id>)
    requires Linked(h, except) && IsGranted(h, id) && id in h.records && !HoldsUnfrozenVictim(h.cap, id)
    ensures var l := Left(MakeRuntime(h, id, now), id);
      Linked(Settle(l, id), except) && Linked(Settle(Present(l, id, others), id), except)
  {
    var l := Left(MakeRuntime(h, id, now), id);
    MakeRuntimeLinks(h, id, now, h.calls - {id}, except);
    assert !IsGranted(l, id);
    ShownSettled(l, id, others, except);
  }

  lemma ShownSettled(l: Host, id: Id, others: seq<Id>, except: set<Id>)
    requires Linked(l, except) && id !in l.calls
    ensures Linked(Settle(l, id), except) && Linked(Settle(Present(l, id, others), id), except)
  {
    PresentLinks(l, id, others, except);
    SettleLinks(l, id, except);
    SettleLinks(Present(l, id, others), id, except);
  }

  lemma ResumeThawing(h: Host, id: Id, now: int, loads: bool, except: set<Id>)
    requires Linked(h, except) && IsGranted(h, id) && id in h.records && !HoldsUnfrozenVictim(h.cap, id)
    ensures var h2 := MakeRuntime(h, id, now);
      && Linked(h2.(calls := h2.calls[id := h2.calls[id].(phase := Restoring(h.incarnations))]), except)
      && Linked(RestoreFailed(h2, id, h.incarnations), except)
  {
    MakeRuntimeLinks(h, id, now, h.calls[id := h.calls[id].(phase := Restoring(h.incarnations))], except);
    MakeRuntimeLinks(h, id, now, h.calls - {id}, except);
    RestoreFailedLinks(MakeRuntime(h, id, now), id, h.incarnations, except);
  }

  lemma RestoredLinks(h: Host, id: Id, ok: bool)
    requires HostInv(h)
    ensures HostInv(H.Restored(h, id, ok))
  {
    if id in h.calls && h.calls[id].phase.Restoring? {
      LeaveRestoring(h, id, {});
      if ok && id in h.records { SettleLinks(Left(h, id), id, {}); }
      else { RestoreFailedLinks(h, id, h.calls[id].phase.incarnation, {}); }
    }
  }

  lemma CloseLinks(h: Host, id: Id)
    requires HostInv(h) && !HoldsUnfrozenVictim(h.cap, id)
    ensures HostInv(Close(h, id))
  {
    if id in h.records {
      var h0 := h.(cap := Cancel(h.cap, id));
      if id in h.cap.pending { RemoveLinks(h, h.cap.pending[id], Cancelled, {}); }
      ClosedLinks(h0, id);
    }
  }

  /** The rest of a close, once nothing waits for the browser any more. */
  lemma ClosedLinks(h: Host, id: Id)
    requires HostInv(h) && !HoldsUnfrozenVictim(h.cap, id)
    ensures HostInv(Release(h.(runtimes := h.runtimes - {id}), id).(records := h.records - {id}))
  {
    var g := h.(records := h.records - {id}, runtimes := h.runtimes - {id});
    if IsGranted(h, id) {
      assert h.runtimes - {id} == h.runtimes;
      FewerRecords(h, id, {});
      ReleaseLinks(g, id, {});
      assert g.(runtimes := g.runtimes - {id}) == g;
    } else {
      ReleaseLinks(h, id, {});
      FewerRecords(Release(h.(runtimes := h.runtimes - {id}), id), id, {});
    }
  }

  lemma OnPageLinks(h: Host, id: Id, incarnation: nat, event: PageEvent)
    requires HostInv(h)
    ensures HostInv(OnPage(h, id, incarnation, event))
  {
    if Serves(h, id, incarnation) && (id in h.records || event.UserInput?) {
      if event.Crashed? || (event.NavigationCommitted? && !event.allowed) {
        TearDownLinks(h, id, incarnation, {});
      } else {
        OnPageAside(h, id, incarnation, event);
        PagesAside(h, OnPage(h, id, incarnation, event).pages, h.floor, h.incarnations, {});
      }
    }
  }

  lemma OnPageAside(h: Host, id: Id, incarnation: nat, event: PageEvent)
    requires !event.Crashed? && (event.NavigationCommitted? ==> event.allowed)
    ensures var g := OnPage(h, id, incarnation, event);
      g == h.(pages := g.pages, floor := h.floor, incarnations := h.incarnations)
  {
  }

  lemma OpenLinks(h: Host, id: Id, now: int, visible: bool, aborted: bool)
    requires HostInv(h) && id !in h.calls && id !in h.runtimes
    ensures HostInv(Open(h, id, now, visible, aborted))
  {
    MoreRecords(h, id, {});
    BeginLinks(h.(records := h.records + {id}), id, now, Opening(visible), aborted);
  }

  lemma HideLinks(h: Host, id: Id)
    requires HostInv(h)
    ensures HostInv(Hide(h, id))
  {
    if id in h.records {
      var h1 := WithVisible(h, id, false);
      PagesAside(h, h1.pages, h1.floor, h1.incarnations, {});
      ProtectLinks(h1, id, Visible, false, {});
    }
  }

  lemma ActivationLinks(h: Host, e: H.Event)
    requires HostInv(h) && H.Allowed(h, e) && (e.OpenE? || e.ThawE? || e.ResumeE? || e.RestoredE?)
    ensures HostInv(H.Step(h, e))
  {
    if e.OpenE? {
      OpenLinks(h, e.id, e.now, e.visible, e.aborted);
    } else if e.ThawE? {
      if e.id in h.records && e.id !in h.runtimes { BeginLinks(h, e.id, e.now, Thawing, e.aborted); }
    } else if e.ResumeE? {
      ResumeLinks(h, e.id, e.ok, e.now, e.loads, e.others, e.fault);
    } else {
      RestoredLinks(h, e.id, e.ok);
    }
  }

  lemma PageStepLinks(h: Host, e: H.Event)
    requires HostInv(h) && H.Allowed(h, e) && (e.PageE? || e.ActE? || e.FreezeE? || e.QuarantineE? || e.CloseE?)
    ensures HostInv(H.Step(h, e))
  {
    if e.PageE? {
      OnPageLinks(h, e.id, e.incarnation, e.event);
    } else if e.ActE? {
      PagesAside(h, H.Step(h, e).pages, h.floor, h.incarnations, {});
    } else if e.CloseE? {
      if e.id in h.records { CloseLinks(h, e.id); }
    } else if e.FreezeE? {
      if e.id in h.records { FreezeLinks(h, e.id, {}); }
    } else if e.id in h.records && e.id in h.runtimes && h.runtimes[e.id] == e.incarnation {
      TearDownLinks(h, e.id, e.incarnation, {});
    }
  }

  /** Every allowed stretch keeps the invariant. */
  lemma StepLinks(h: Host, e: H.Event)
    requires HostInv(h) && H.Allowed(h, e)
    ensures HostInv(H.Step(h, e))
  {
    if e.OpenE? || e.ThawE? || e.ResumeE? || e.RestoredE? {
      ActivationLinks(h, e);
    } else if e.PageE? || e.ActE? || e.FreezeE? || e.QuarantineE? || e.CloseE? {
      PageStepLinks(h, e);
    } else {
      PlaceStepLinks(h, e);
    }
  }

  lemma PlaceStepLinks(h: Host, e: H.Event)
    requires HostInv(h) && H.Allowed(h, e) && (e.ShowE? || e.HideE? || e.ProtectE? || e.WaiterE?)
    ensures HostInv(H.Step(h, e))
  {
    if e.ShowE? {
      if e.id in h.records && e.id in h.runtimes { ShowLinks(h, e.id, e.now, e.others, {}); }
    } else if e.HideE? {
      HideLinks(h, e.id);
    } else if e.ProtectE? {
      ProtectLinks(h, e.id, e.reason, e.on, {});
    } else {
      RemoveLinks(h, e.waiter, e.how, {});
    }
  }

  lemma MoreRecords(h: Host, id: Id, except: set<Id>)
    requires Linked(h, except) && id !in h.calls
    ensures Linked(h.(records := h.records + {id}), except)
  {
    assert SameGrants(h, h.(records := h.records + {id}));
  }

  lemma ShowLinks(h: Host, id: Id, now: int, others: seq<Id>, except: set<Id>)
    requires Linked(h, except) && id in h.records && id in h.runtimes
    ensures Linked(Show(h, id, now, others), except)
  {
    PresentLinks(h, id, others, except);
    var h1 := Present(h, id, others);
    if id in h1.cap.live {
      EntryCore(h1, Touch(h1.cap, id, now).live, except);
      CP.EntrySlack(h1.cap, id, Touch(h1.cap, id, now).live[id]);
    }
  }
}
