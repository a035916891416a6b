/** How the bound on pages is lost: what the host looks like once a browser has lost its place or its
    record while a grant or a page of it is left, and a legal run from there past the bound. */
module HostOverflow {
  import opened Wrappers
  import opened Capacity
  import opened H = Host
  import HP = HostProofs
  import CP = CapacityProofs
  import Runs
  import Sets

  // ---------- Setting browsers aside ----------

  function Less(c: Cap, vs: set<Id>): Cap {
    c.(admissions := c.admissions - vs)
  }

  /** The host without the admissions, records and pages of `vs`. */
  function Rest(h: Host, vs: set<Id>): Host {
    h.(cap := Less(h.cap, vs), records := h.records - vs, runtimes := h.runtimes - vs)
  }

  ghost predicate NoneWaits(c: Cap, vs: set<Id>) {
    forall w :: w in c.queue ==> w.id !in vs
  }

  lemma PutLess(admissions: map<Id, Admission>, id: Id, a: Admission, vs: set<Id>)
    requires id !in vs
    ensures (admissions - vs)[id := a] == admissions[id := a] - vs
  {
  }

  /** Which admission is recorded, and which live map results, does not depend on the admissions. */
  lemma AdmitForm(c: Cap, id: Id, now: int) returns (a: Admission, live: map<Id, LiveEntry>)
    ensures forall m: map<Id, Admission> :: Admit(c.(admissions := m), id, now).1 == Admit(c, id, now).1
    ensures forall m: map<Id, Admission> :: (Admit(c.(admissions := m), id, now).0
      == if Admit(c, id, now).1.Full? then c.(admissions := m) else c.(live := live, admissions := m[id := a]))
  {
    a, live := Admission(false, None, false), Admit(c, id, now).0.live;
    if Admit(c, id, now).1.Admitted? { a := Admit(c, id, now).0.admissions[id]; }
  }

  lemma AdmitLess(c: Cap, id: Id, now: int, vs: set<Id>)
    requires id !in vs
    ensures Admit(Less(c, vs), id, now) == (Less(Admit(c, id, now).0, vs), Admit(c, id, now).1)
  {
    var a, live := AdmitForm(c, id, now);
    assert Admit(c.(admissions := c.admissions), id, now) == Admit(c, id, now);
    PutLess(c.admissions, id, a, vs);
  }

  lemma DrainLess(c: Cap, vs: set<Id>)
    requires NoneWaits(c, vs)
    ensures Drain(Less(c, vs)) == Less(Drain(c), vs) && NoneWaits(Drain(c), vs)
  {
    if c.queue != [] {
      var w := c.queue[0];
      assert w in c.queue;
      AdmitLess(c, w.id, w.now, vs);
      var (c1, verdict) := Admit(c, w.id, w.now);
      if verdict.Admitted? { SeatLess(c1, w, Granted(verdict.freeze), vs); }
    }
  }

  lemma SeatLess(c: Cap, w: Waiter, how: Settlement, vs: set<Id>)
    requires NoneWaits(c, vs)
    ensures var d := Remove(Protected(c, w.id, Activation), w, how);
      Remove(Protected(Less(c, vs), w.id, Activation), w, how) == Less(d, vs) && NoneWaits(d, vs)
  {
    forall x | x in Without(c.queue, w) ensures x in c.queue { }
  }

  lemma ProtectLess(c: Cap, id: Id, reason: Reason, on: bool, vs: set<Id>)
    requires NoneWaits(c, vs)
    ensures ProtectFor(Less(c, vs), id, reason, on) == Less(ProtectFor(c, id, reason, on), vs)
    ensures NoneWaits(ProtectFor(c, id, reason, on), vs)
  {
    DrainLess(Unprotected(c, id, reason), vs);
  }

  lemma ReleaseLess(c: Cap, id: Id, vs: set<Id>)
    requires NoneWaits(c, vs)
    ensures MarkFrozen(Less(c, vs), id) == Less(MarkFrozen(c, id), vs) && NoneWaits(MarkFrozen(c, id), vs)
  {
    assert MarkVictims(c.admissions - vs, id) == MarkVictims(c.admissions, id) - vs;
    DrainLess(c.(live := c.live - {id}, admissions := MarkVictims(c.admissions, id)), vs);
  }

  lemma SettleLess(c: Cap, id: Id, vs: set<Id>)
    requires NoneWaits(c, vs)
    ensures SettleActivation(Less(c, vs), id) == Less(SettleActivation(c, id), vs)
    ensures NoneWaits(SettleActivation(c, id), vs)
  {
    assert c.admissions - vs - {id} == c.admissions - {id} - vs;
    ProtectLess(c.(admissions := c.admissions - {id}), id, Activation, false, vs);
  }

  lemma RollbackLess(c: Cap, id: Id, vs: set<Id>)
    requires NoneWaits(c, vs) && id !in vs
    ensures RollbackActivation(Less(c, vs), id) == Less(RollbackActivation(c, id), vs)
    ensures NoneWaits(RollbackActivation(c, id), vs)
  {
    assert c.admissions - vs - {id} == c.admissions - {id} - vs;
    if id in c.admissions { DrainLess(HP.RolledBackCap(c, id), vs); }
  }

  lemma FailedRest(h: Host, id: Id, vs: set<Id>)
    requires NoneWaits(h.cap, vs) && id !in vs && id in h.calls
    ensures Rest(Failed(h, id), vs) == Failed(Rest(h, vs), id) && NoneWaits(Failed(h, id).cap, vs)
  {
    RollbackLess(h.cap, id, vs);
    SettleLess(RollbackActivation(h.cap, id), id, vs);
    assert h.records - vs - {id} == h.records - {id} - vs;
  }

  // ---------- A grant without its place ----------

  /** `v` is open and holds a grant, waits for nothing and has no page. */
  ghost predicate Stranded(h: Host, v: Id) {
    && IsGranted(h, v) && v in h.records && v !in h.runtimes
    && forall w :: w in h.cap.queue ==> w.id != v && w.promise != h.calls[v].promise
  }

  lemma DrainStranded(h: Host, v: Id)
    requires Stranded(h, v)
    ensures Stranded(h.(cap := Drain(h.cap)), v)
  {
    var c := h.cap;
    if c.queue != [] {
      var w := c.queue[0];
      assert w in c.queue;
      var (c1, verdict) := Admit(c, w.id, w.now);
      if verdict.Admitted? {
        OthersSettled(Protected(c1, w.id, Activation), w, Granted(verdict.freeze), h.calls[v].promise);
      }
    }
  }

  /** A waiter that is served leaves other promises alone. */
  lemma OthersSettled(c: Cap, w: Waiter, how: Settlement, p: nat)
    requires p in c.settled && w in c.queue && w.promise != p
    ensures var d := Remove(c, w, how);
      && p in d.settled && d.settled[p] == c.settled[p] && forall x :: x in d.queue ==> x in c.queue
  {
    forall x | x in Without(c.queue, w) ensures x in c.queue { }
  }

  lemma ProtectStranded(h: Host, v: Id, id: Id, reason: Reason, on: bool)
    requires Stranded(h, v)
    ensures Stranded(Protect(h, id, reason, on), v)
    ensures Rest(Protect(h, id, reason, on), {v}) == Protect(Rest(h, {v}), id, reason, on)
  {
    ProtectLess(h.cap, id, reason, on, {v});
    var g := h.(cap := Unprotected(h.cap, id, reason));
    assert Stranded(g, v);
    DrainStranded(g, v);
  }

  lemma ReleaseStranded(h: Host, v: Id, id: Id)
    requires Stranded(h, v)
    ensures Stranded(Release(h, id), v) && Rest(Release(h, id), {v}) == Release(Rest(h, {v}), id)
  {
    ReleaseLess(h.cap, id, {v});
    var g := h.(cap := h.cap.(live := h.cap.live - {id}, admissions := MarkVictims(h.cap.admissions, id)));
    assert Stranded(g, v);
    DrainStranded(g, v);
  }

  lemma SettleStranded(h: Host, v: Id, id: Id)
    requires Stranded(h, v)
    ensures Stranded(Settle(h, id), v) && Rest(Settle(h, id), {v}) == Settle(Rest(h, {v}), id)
  {
    SettleLess(h.cap, id, {v});
    var g := h.(cap := h.cap.(admissions := h.cap.admissions - {id}));
    assert Stranded(g, v);
    ProtectStranded(g, v, id, Activation, false);
  }

  lemma RolledBackStranded(h: Host, v: Id, id: Id)
    requires Stranded(h, v) && v != id
    ensures Stranded(Left(h.(cap := RollbackActivation(h.cap, id)), id), v)
  {
    if id in h.cap.admissions {
      var g := h.(cap := HP.RolledBackCap(h.cap, id));
      assert Stranded(g, v);
      DrainStranded(g, v);
    }
  }

  lemma FailedStranded(h: Host, v: Id, id: Id)
    requires Stranded(h, v) && v != id && id in h.calls
    ensures Stranded(Failed(h, id), v) && Rest(Failed(h, id), {v}) == Failed(Rest(h, {v}), id)
  {
    FailedRest(h, id, {v});
    RolledBackStranded(h, v, id);
    var h1 := Left(h.(cap := RollbackActivation(h.cap, id)), id);
    var h2 := if h.calls[id].kind.Opening? then h1.(records := h1.records - {id}) else h1;
    assert Stranded(h2, v);
    SettleStranded(h2, v, id);
  }

  lemma {:induction false} HideOthersStranded(h: Host, v: Id, others: seq<Id>)
    requires Stranded(h, v)
    ensures Stranded(HideOthers(h, others), v) && Rest(HideOthers(h, others), {v}) == HideOthers(Rest(h, {v}), others)
    decreases |others|
  {
    if others != [] {
      var h1 := WithVisible(h, others[0], false);
      assert Stranded(h1, v) && Rest(h1, {v}) == WithVisible(Rest(h, {v}), others[0], false);
      ProtectStranded(h1, v, others[0], Visible, false);
      HideOthersStranded(Protect(h1, others[0], Visible, false), v, others[1..]);
    }
  }

  lemma PresentStranded(h: Host, v: Id, id: Id, others: seq<Id>)
    requires Stranded(h, v)
    ensures Stranded(Present(h, id, others), v)
    ensures Rest(Present(h, id, others), {v}) == Present(Rest(h, {v}), id, others)
  {
    HideOthersStranded(h, v, others);
    var h1 := HideOthers(h, others);
    var h2 := WithVisible(h1, id, true);
    assert Stranded(h2, v) && Rest(h2, {v}) == WithVisible(Rest(h1, {v}), id, true);
    ProtectStranded(h2, v, id, Visible, true);
  }

  lemma MakeRuntimeStranded(h: Host, v: Id, id: Id, now: int)
    requires Stranded(h, v) && v != id
    ensures Stranded(MakeRuntime(h, id, now), v)
    ensures Rest(MakeRuntime(h, id, now), {v}) == MakeRuntime(Rest(h, {v}), id, now)
  {
    assert (h.runtimes - {v})[id := h.incarnations] == h.runtimes[id := h.incarnations] - {v};
  }

  lemma RestoreFailedStranded(h: Host, v: Id, id: Id, incarnation: nat)
    requires Stranded(h, v) && v != id
    ensures Stranded(RestoreFailed(h, id, incarnation), v)
    ensures Rest(RestoreFailed(h, id, incarnation), {v}) == RestoreFailed(Rest(h, {v}), id, incarnation)
  {
    var t := TornDown(Left(h, id), id, incarnation);
    assert h.runtimes - {v} - {id} == h.runtimes - {id} - {v};
    assert Stranded(t, v) && Rest(t, {v}) == TornDown(Left(Rest(h, {v}), id), id, incarnation);
    ReleaseStranded(t, v, id);
    SettleStranded(Release(t, id), v, id);
  }

  lemma PresentFailedStranded(h: Host, v: Id, id: Id, visible: bool, others: seq<Id>, call: nat)
    requires Stranded(h, v) && v != id && id in h.calls
    ensures Stranded(PresentFailed(h, id, visible, others, call), v)
    ensures Rest(PresentFailed(h, id, visible, others, call), {v}) ==
      PresentFailed(Rest(h, {v}), id, visible, others, call)
  {
    if visible { HideOthersStranded(h, v, Upto(others, call)); }
    FailedStranded(if visible then HideOthers(h, Upto(others, call)) else h, v, id);
  }

  lemma ShownStranded(l: Host, v: Id, id: Id, others: seq<Id>)
    requires Stranded(l, v)
    ensures var g := Settle(Present(l, id, others), id);
      Stranded(g, v) && Rest(g, {v}) == Settle(Present(Rest(l, {v}), id, others), id)
  {
    PresentStranded(l, v, id, others);
    SettleStranded(Present(l, id, others), v, id);
  }

  /** What another activation does when it goes on is the same with and without the stranded browser. */
  lemma ResumedStranded(h: Host, v: Id, id: Id, now: int, loads: bool, others: seq<Id>, fault: Fault)
    requires Stranded(h, v) && v != id && id in h.calls
    ensures var g := Resumed(h, id, now, loads, others, fault);
      Stranded(g, v) && Rest(g, {v}) == Resumed(Rest(h, {v}), id, now, loads, others, fault)
  {
    HP.ResumedForms(h, id, now, loads, others, fault);
    HP.ResumedForms(Rest(h, {v}), id, now, loads, others, fault);
    if fault.CreateThrows? || id !in h.records {
      WithoutPageStranded(h, v, id);
    } else {
      MakeRuntimeStranded(h, v, id, now);
      if h.calls[id].kind.Opening? {
        OpeningStranded(MakeRuntime(h, id, now), v, id, h.calls[id].kind.visible, others, fault);
      } else {
        ThawingStranded(MakeRuntime(h, id, now), v, id, h.incarnations);
      }
    }
  }

  lemma WithoutPageStranded(h: Host, v: Id, id: Id)
    requires Stranded(h, v) && v != id && id in h.calls
    ensures Stranded(Failed(h, id), v) && Rest(Failed(h, id), {v}) == Failed(Rest(h, {v}), id)
    ensures var h1, r := h.(leaked := h.leaked + 1), Rest(h, {v});
      Stranded(Failed(h1, id), v) && Rest(Failed(h1, id), {v}) == Failed(r.(leaked := r.leaked + 1), id)
  {
    FailedStranded(h, v, id);
    assert Stranded(h.(leaked := h.leaked + 1), v);
    FailedStranded(h.(leaked := h.leaked + 1), v, id);
  }

  lemma OpeningStranded(h2: Host, v: Id, id: Id, visible: bool, others: seq<Id>, fault: Fault)
    requires Stranded(h2, v) && v != id && id in h2.calls
    ensures var end := (h: Host) requires id in h.calls =>
        if fault.CallThrows? then PresentFailed(h, id, visible, others, fault.call)
        else Settle(if visible then Present(Left(h, id), id, others) else Left(h, id), id);
      Stranded(end(h2), v) && Rest(end(h2), {v}) == end(Rest(h2, {v}))
  {
    if fault.CallThrows? {
      PresentFailedStranded(h2, v, id, visible, others, fault.call);
    } else {
      var l := Left(h2, id);
      assert Stranded(l, v) && Rest(l, {v}) == Left(Rest(h2, {v}), id);
      ShownStranded(l, v, id, others);
      SettleStranded(l, v, id);
    }
  }

  lemma ThawingStranded(h2: Host, v: Id, id: Id, incarnation: nat)
    requires Stranded(h2, v) && v != id && id in h2.calls
    ensures var g := h2.(calls := h2.calls[id := h2.calls[id].(phase := Restoring(incarnation))]);
      Stranded(g, v) && Rest(g, {v}) == Rest(h2, {v}).(calls := g.calls)
    ensures var g := RestoreFailed(h2, id, incarnation);
      Stranded(g, v) && Rest(g, {v}) == RestoreFailed(Rest(h2, {v}), id, incarnation)
  {
    RestoreFailedStranded(h2, v, id, incarnation);
  }

  // ---------- After the bound is lost ----------

  /** The host is in order but for the browsers `vs`, none of which waits or is live. */
  ghost predicate Limping(h: Host, vs: set<Id>) {
    Inv(h.cap.(admissions := h.cap.admissions - vs)) && Core(Rest(h, vs)) && NoneWaits(h.cap, vs)
  }

  lemma LimpingLinked(h: Host, vs: set<Id>)
    requires Limping(h, vs)
    ensures Linked(Rest(h, vs), h.runtimes.Keys)
    ensures forall v :: v in vs ==> v !in h.cap.live && CP.Gone(Rest(h, vs).cap, v)
  {
    var r := Rest(h, vs);
    forall v | v in vs ensures v !in h.cap.live && CP.Gone(r.cap, v) {
      assert v !in r.runtimes && v !in r.cap.admissions;
      assert forall a: Id :: !Owes(r.cap.admissions, a, v);
    }
  }

  /** What is left over: a page of a browser that is out of order, or a grant of one without a page. */
  ghost predicate Leftover(h: Host, vs: set<Id>, v: Id) {
    v in vs && (v in h.runtimes || (vs == {v} && IsGranted(h, v) && v in h.records))
  }

  // ---------- The steps that lose it ----------

  lemma LoseDebts(admissions: map<Id, Admission>, v: Id)
    ensures var m := MarkVictims(admissions - {v}, v);
      forall a: Id, u: Id :: Owes(m, a, u) <==> a != v && u != v && Owes(admissions, a, u)
  {
  }

  /** The place of a granted browser is given away: before the drain. */
  lemma LosePlaceCore(h: Host, v: Id)
    requires Core(h) && IsGranted(h, v)
    ensures var e := h.(records := h.records - {v}, runtimes := h.runtimes - {v},
        cap := h.cap.(live := h.cap.live - {v}, admissions := MarkVictims(h.cap.admissions - {v}, v)));
      Core(e) && HP.SameGrants(h, e)
  {
    var c := h.cap.(live := h.cap.live - {v}, admissions := MarkVictims(h.cap.admissions - {v}, v));
    var e := h.(records := h.records - {v}, runtimes := h.runtimes - {v}, cap := c);
    LoseDebts(h.cap.admissions, v);
    assert HP.SameGrants(h, e);
  }

  lemma GrantedStranded(h: Host, v: Id)
    requires Inv(h.cap) && Core(h) && IsGranted(h, v) && v in h.records
    ensures Stranded(h, v) && v !in h.cap.pending
  {
    assert forall p :: p in h.cap.pending ==> h.cap.pending[p] in h.cap.queue;
  }

  lemma LosePlace(h: Host, v: Id)
    requires Inv(h.cap) && Core(h) && IsGranted(h, v) && v in h.records
    ensures Limping(Release(h, v), {v}) && Stranded(Release(h, v), v)
    ensures HP.GrantsKept(h, Release(h, v))
    ensures forall u :: Owes(h.cap.admissions, v, u) ==> CP.Gone(Rest(Release(h, v), {v}).cap, u)
  {
    GrantedStranded(h, v);
    ReleaseStranded(h, v, v);
    var l := Less(h.cap, {v});
    HP.FewerAdmissions(h.cap, v);
    CP.FreezeSlack(l, v);
    LosePlaceCore(h, v);
    var e := Rest(h, {v}).(cap := l.(live := l.live - {v}, admissions := MarkVictims(l.admissions, v)));
    HP.DrainLinks(e, h.runtimes.Keys);
    forall u | Owes(h.cap.admissions, v, u) ensures CP.Gone(MarkFrozen(l, v), u) {
      LoseDebts(h.cap.admissions, v);
      DebtorGone(h.cap, v, u, e.cap);
    }
  }

  lemma DebtorGone(c: Cap, v: Id, u: Id, e: Cap)
    requires Inv(c) && Owes(c.admissions, v, u) && e.queue == c.queue && e.live == c.live - {v}
    requires forall a: Id, u: Id :: Owes(e.admissions, a, u) <==> a != v && u != v && Owes(c.admissions, a, u)
    ensures CP.Gone(Drain(e), u)
  {
    assert forall w :: w in c.queue ==> w.id in c.pending;
    CP.DrainGone(e, u);
  }

  /** A freeze in the gap. */
  lemma FreezeLoses(h: Host, v: Id)
    requires HostInv(h) && IsGranted(h, v) && v in h.records
    ensures Limping(Freeze(h, v), {v}) && Leftover(Freeze(h, v), {v}, v)
  {
    GrantedStranded(h, v);
    LosePlace(h, v);
  }

  /** A close in the gap, while a victim is still to be frozen. */
  lemma CloseLoses(h: Host, v: Id, u: Id)
    requires HostInv(h) && Owes(h.cap.admissions, v, u) && v in h.records
    ensures Limping(Close(h, v), {v, u}) && Leftover(Close(h, v), {v, u}, u)
  {
    LosePlace(h, v);
    CloseInTheGap(h, v);
    var r := Release(h, v);
    DropPage(Rest(r, {v}), u);
    RestTwice(r, r.(records := r.records - {v}), v, u);
  }

  lemma CloseInTheGap(h: Host, v: Id)
    requires HostInv(h) && IsGranted(h, v) && v in h.records
    ensures var r := Release(h, v); Close(h, v) == r.(records := r.records - {v})
  {
    GrantedStranded(h, v);
    assert h.runtimes - {v} == h.runtimes;
    assert h.(runtimes := h.runtimes) == h;
  }

  lemma RestTwice(h: Host, g: Host, v: Id, u: Id)
    requires g == h || g == h.(records := h.records - {v})
    ensures Rest(Rest(h, {v}), {u}) == Rest(g, {v, u})
  {
    assert h.records - {v} - {u} == g.records - {v, u};
    assert h.runtimes - {v} - {u} == h.runtimes - {v, u};
    assert h.cap.admissions - {v} - {u} == h.cap.admissions - {v, u};
  }

  /** A page that nothing accounts for is set aside. */
  lemma DropPage(h: Host, u: Id)
    requires Inv(h.cap) && Core(h) && u in h.runtimes && CP.Gone(h.cap, u)
    ensures Inv(Rest(h, {u}).cap) && Core(Rest(h, {u}))
  {
    HP.FewerAdmissions(h.cap, u);
    HP.AdmissionGone(h, u, h.runtimes.Keys);
    var g := h.(cap := Less(h.cap, {u}));
    assert forall a: Id :: !Owes(h.cap.admissions, a, u);
    assert forall a, v :: Owes(g.cap.admissions, a, v) ==> Owes(h.cap.admissions, a, v);
    assert HP.SameGrants(g, Rest(h, {u}));
  }

  /** Capacity does not see which pages there are. */
  lemma {:induction false} HiddenAlike(h: Host, g: Host, others: seq<Id>)
    requires g.cap == h.cap
    ensures HideOthers(g, others).cap == HideOthers(h, others).cap
    decreases |others|
  {
    if others != [] {
      HiddenAlike(Protect(WithVisible(h, others[0], false), others[0], Visible, false),
        Protect(WithVisible(g, others[0], false), others[0], Visible, false), others[1..]);
    }
  }

  lemma ElsewhereCore(h: Host, pages: map<nat, Page>, floor: map<Id, nat>, incarnations: nat, leaked: nat)
    requires Core(h)
    ensures Core(h.(pages := pages, floor := floor, incarnations := incarnations, leaked := leaked))
  {
    assert HP.SameGrants(h, h.(pages := pages, floor := floor, incarnations := incarnations, leaked := leaked));
  }

  /** The opening as it would fail if it had made no page. */
  ghost function Undone(h: Host, id: Id, now: int, others: seq<Id>): Host
    requires id in h.calls
  {
    Failed(HideOthers(h.(cap := MarkLive(h.cap, id, now)), others), id)
  }

  lemma UndoneCore(h: Host, id: Id, now: int, others: seq<Id>)
    requires Inv(h.cap) && Core(h) && IsGranted(h, id) && id in h.records && !HoldsUnfrozenVictim(h.cap, id)
    ensures var f := Undone(h, id, now, others); Inv(Less(f.cap, {id})) && Core(f.(cap := Less(f.cap, {id})))
  {
    var m := h.(cap := MarkLive(h.cap, id, now));
    HP.EntryCore(h, m.cap.live, h.runtimes.Keys);
    CP.EntrySlack(h.cap, id, m.cap.live[id]);
    HP.HideOthersLinks(m, others, h.runtimes.Keys);
    var n := HideOthers(m, others);
    assert IsGranted(m, id) && IsGranted(n, id);
    HP.FailedLinks(n, id, h.runtimes.Keys);
    var f := Failed(n, id);
    HP.AdmissionGone(f, id, h.runtimes.Keys);
    HP.FewerAdmissions(f.cap, id);
  }

  /** The page makes no difference but to the tables of pages. */
  lemma ShowFails(h: Host, id: Id, now: int, others: seq<Id>)
    requires id in h.calls && h.calls[id].kind.Opening? && id !in h.runtimes
    ensures var t, f := Failed(HideOthers(MakeRuntime(h, id, now), others), id), Undone(h, id, now, others);
      && t.cap == f.cap && t.calls == f.calls == h.calls - {id} && t.records == f.records == h.records - {id}
      && t.runtimes == h.runtimes[id := h.incarnations] && f.runtimes == h.runtimes
  {
    HiddenAlike(h.(cap := MarkLive(h.cap, id, now)), MakeRuntime(h, id, now), others);
  }

  /** A page call of an opening throws: apart from the page left behind all is in order. */
  lemma ShowLoses(h: Host, id: Id, now: int, others: seq<Id>)
    requires Inv(h.cap) && Core(h) && IsGranted(h, id) && id in h.records && !HoldsUnfrozenVictim(h.cap, id)
    requires h.calls[id].kind.Opening?
    ensures var t := Failed(HideOthers(MakeRuntime(h, id, now), others), id); Limping(t, {id}) && id in t.runtimes
  {
    ShowFails(h, id, now, others);
    UndoneCore(h, id, now, others);
    var t, f := Failed(HideOthers(MakeRuntime(h, id, now), others), id), Undone(h, id, now, others);
    var g := f.(cap := Less(f.cap, {id}));
    NotCalledNotWaiting(g, id);
    ElsewhereCore(g, t.pages, t.floor, t.incarnations, t.leaked);
    LeftBehind(t, g, h.runtimes, id);
  }

  lemma LeftBehind(t: Host, g: Host, runtimes: map<Id, nat>, id: Id)
    requires id !in runtimes && t.runtimes - {id} == runtimes - {id} && g.runtimes == runtimes
    requires g.cap == Less(t.cap, {id}) && g.calls == t.calls && g.records == t.records && id !in t.records
    ensures Rest(t, {id}) == g.(pages := t.pages, floor := t.floor, incarnations := t.incarnations, leaked := t.leaked)
  {
    assert runtimes - {id} == runtimes;
    assert t.records - {id} == t.records;
  }

  lemma NotCalledNotWaiting(f: Host, id: Id)
    requires CallsOk(f.calls, f.cap.queue, f.cap.promises) && id !in f.calls
    ensures NoneWaits(f.cap, {id})
  {
  }

  /** A victim that has meanwhile been granted a place of its own is frozen once more. */
  lemma ResumeLoses(h: Host, id: Id, now: int, loads: bool, others: seq<Id>, fault: Fault) returns (vs: set<Id>, p: Id)
    requires HostInv(h) && IsGranted(h, id) && GrantOf(h, id).Some?
    requires GrantOf(h, id).value in h.records && IsGranted(h, GrantOf(h, id).value)
    ensures var t := Resume(h, id, true, now, loads, others, fault); Limping(t, vs) && Leftover(t, vs, p)
  {
    var v := GrantOf(h, id).value;
    HP.VictimMarked(h, id, v);
    HP.MarkedOwes(h.cap, id);
    var m := h.(cap := MarkAdmissionVictimFrozen(h.cap, id));
    GrantedStranded(m, v);
    LosePlace(m, v);
    var r := Release(m, v);
    assert r == FreezeVictim(h, id, v);
    vs, p := ResumeStranded(r, v, id, now, loads, others, fault);
  }

  lemma StrandedLimps(t: Host, v: Id)
    requires Stranded(t, v) && Inv(Rest(t, {v}).cap) && Core(Rest(t, {v}))
    ensures Limping(t, {v}) && Leftover(t, {v}, v)
  {
  }

  lemma BothLimp(t: Host, v: Id, id: Id)
    requires Stranded(t, v) && Limping(Rest(t, {v}), {id}) && id in Rest(t, {v}).runtimes
    ensures Limping(t, {v, id}) && Leftover(t, {v, id}, id)
  {
    RestTwice(t, t, v, id);
  }

  lemma ResumeStranded(r: Host, v: Id, id: Id, now: int, loads: bool, others: seq<Id>, fault: Fault)
      returns (vs: set<Id>, p: Id)
    requires Limping(r, {v}) && Stranded(r, v) && IsGranted(r, id) && GrantOf(r, id) == Some(v)
    ensures var t := Resumed(r, id, now, loads, others, fault); Limping(t, vs) && Leftover(t, vs, p)
  {
    var s := Rest(r, {v});
    GrantOfAnother(s, id, v);
    ResumedStranded(r, v, id, now, loads, others, fault);
    var t := Resumed(r, id, now, loads, others, fault);
    if id in r.records && fault.CallThrows? && r.calls[id].kind.Opening? {
      ShowFailing(s, id, now, loads, others, fault);
      BothLimp(t, v, id);
      vs, p := {v, id}, id;
    } else {
      GrantedElsewhere(s, id, now, loads, others, fault);
      StrandedLimps(t, v);
      vs, p := {v}, v;
    }
  }

  lemma GrantOfAnother(s: Host, id: Id, v: Id)
    requires Core(s) && IsGranted(s, id) && GrantOf(s, id) == Some(v) && v !in s.runtimes
    ensures id != v && !HoldsUnfrozenVictim(s.cap, id)
  {
  }

  lemma ShowFailing(s: Host, id: Id, now: int, loads: bool, others: seq<Id>, fault: Fault)
    requires Inv(s.cap) && Core(s) && IsGranted(s, id) && id in s.records && !HoldsUnfrozenVictim(s.cap, id)
    requires s.calls[id].kind.Opening? && fault.CallThrows?
    ensures var t := Resumed(s, id, now, loads, others, fault); Limping(t, {id}) && id in t.runtimes
  {
    HP.ResumedForms(s, id, now, loads, others, fault);
    ShowLoses(s, id, now, if s.calls[id].kind.visible then Upto(others, fault.call) else []);
  }

  lemma GrantedElsewhere(s: Host, id: Id, now: int, loads: bool, others: seq<Id>, fault: Fault)
    requires Inv(s.cap) && Core(s) && IsGranted(s, id) && !HoldsUnfrozenVictim(s.cap, id)
    requires id in s.records && s.calls[id].kind.Opening? ==> !fault.CallThrows?
    ensures var t := Resumed(s, id, now, loads, others, fault); Inv(t.cap) && Core(t)
  {
    HP.ResumeGranted(s, id, now, loads, others, fault, s.runtimes.Keys);
  }

  // ---------- A legal run past the bound ----------

  /** From `h` to `g` the leftovers stay as they are. */
  ghost predicate Stays(h: Host, g: Host, vs: set<Id>) {
    && g.runtimes == h.runtimes && g.cap.maxLive == h.cap.maxLive
    && forall v :: v in vs && IsGranted(h, v) && v in h.records ==> IsGranted(g, v) && v in g.records
  }

  lemma StaysTwice(h: Host, g: Host, f: Host, vs: set<Id>)
    requires Stays(h, g, vs) && Stays(g, f, vs)
    ensures Stays(h, f, vs)
  {
  }

  lemma GrantsOfRest(h: Host, vs: set<Id>)
    ensures HP.SameGrants(h, Rest(h, vs))
  {
  }

  lemma CancelLimps(h: Host, vs: set<Id>, w: Waiter)
    requires Limping(h, vs) && w in h.cap.queue
    ensures var g := h.(cap := Remove(h.cap, w, Cancelled));
      Limping(g, vs) && Stays(h, g, vs) && |g.cap.queue| == |h.cap.queue| - 1
  {
    var g, r := h.(cap := Remove(h.cap, w, Cancelled)), Rest(h, vs);
    LimpingLinked(h, vs);
    HP.RemoveLinks(r, w, Cancelled, h.runtimes.Keys);
    CancelRest(h, vs, w);
    GrantsOfRest(h, vs);
    GrantsOfRest(g, vs);
  }

  lemma CancelRest(h: Host, vs: set<Id>, w: Waiter)
    requires QueueOk(h.cap) && w in h.cap.queue && NoneWaits(h.cap, vs)
    ensures var g := h.(cap := Remove(h.cap, w, Cancelled));
      Rest(g, vs) == Rest(h, vs).(cap := Remove(Rest(h, vs).cap, w, Cancelled))
      && NoneWaits(g.cap, vs) && |g.cap.queue| == |h.cap.queue| - 1
  {
    CP.RemoveFromQueue(h.cap, w, Cancelled);
    CP.WithoutElements(h.cap.queue, w);
  }

  /** Every waiter gives up. */
  lemma {:induction false} CancelAll(h: Host, vs: set<Id>) returns (events: seq<H.Event>, g: Host)
    requires Limping(h, vs)
    ensures Runs.Legal(H.Allowed, H.Step, h, events) && g == Runs.After(H.Step, h, events)
    ensures Limping(g, vs) && Stays(h, g, vs) && g.cap.queue == []
    decreases |h.cap.queue|
  {
    if h.cap.queue == [] {
      events, g := [], h;
    } else {
      var w := h.cap.queue[0];
      var m := h.(cap := Remove(h.cap, w, Cancelled));
      CancelLimps(h, vs, w);
      var rest;
      rest, g := CancelAll(m, vs);
      StaysTwice(h, m, g, vs);
      events := Before(h, WaiterE(w, Cancelled), m, rest);
    }
  }

  /** One more event in front of a legal run. */
  lemma Before(h: Host, e: H.Event, m: Host, rest: seq<H.Event>) returns (events: seq<H.Event>)
    requires H.Allowed(h, e) && m == H.Step(h, e) && Runs.Legal(H.Allowed, H.Step, m, rest)
    ensures Runs.Legal(H.Allowed, H.Step, h, events)
    ensures Runs.After(H.Step, h, events) == Runs.After(H.Step, m, rest)
  {
    events := [e] + rest;
    Runs.Prepend(H.Allowed, H.Step, h, e, rest);
  }

  /** With nobody waiting an activation fails without an effect on others. */
  lemma FailedCap(h: Host, id: Id)
    requires h.cap.queue == []
    ensures var d := SettleActivation(RollbackActivation(h.cap, id), id);
      d.queue == [] && d.settled == h.cap.settled && d.promises == h.cap.promises
  {
  }

  lemma FailedQuiet(h: Host, id: Id)
    requires h.cap.queue == [] && id in h.calls
    ensures var g := Failed(h, id);
      && g.cap.queue == [] && g.cap.settled == h.cap.settled && g.cap.promises == h.cap.promises
      && g.runtimes == h.runtimes && g.calls == h.calls - {id} && h.records - {id} <= g.records
  {
    FailedCap(h, id);
  }

  lemma FailedStays(h: Host, vs: set<Id>, a: Id)
    requires h.cap.queue == [] && a in h.calls && a !in vs
    ensures Stays(h, Failed(h, a), vs)
  {
    FailedQuiet(h, a);
  }

  lemma FailLimps(h: Host, vs: set<Id>, a: Id)
    requires Limping(h, vs) && IsGranted(h, a) && a !in vs
    ensures Limping(Failed(h, a), vs)
  {
    FailedRest(h, a, vs);
    LimpingLinked(h, vs);
    GrantsOfRest(h, vs);
    HP.FailedLinks(Rest(h, vs), a, h.runtimes.Keys);
  }

  /** Every other activation that has its grant fails. */
  lemma {:induction false} FailAll(h: Host, vs: set<Id>) returns (events: seq<H.Event>, g: Host)
    requires Limping(h, vs) && h.cap.queue == []
    ensures Runs.Legal(H.Allowed, H.Step, h, events) && g == Runs.After(H.Step, h, events)
    ensures Limping(g, vs) && Stays(h, g, vs) && g.cap.queue == [] && forall a :: IsGranted(g, a) ==> a in vs
    decreases |h.calls|
  {
    if forall a :: IsGranted(h, a) ==> a in vs {
      events, g := [], h;
    } else {
      var a :| IsGranted(h, a) && a !in vs;
      var m := Failed(h, a);
      FailLimps(h, vs, a);
      FailedQuiet(h, a);
      FailedStays(h, vs, a);
      FewerCalls(h.calls, a);
      var rest;
      rest, g := FailAll(m, vs);
      StaysTwice(h, m, g, vs);
      events := Before(h, ResumeE(a, false, 0, true, [], NoFault), m, rest);
    }
  }

  lemma FewerCalls(calls: map<Id, Call>, a: Id)
    requires a in calls
    ensures |calls - {a}| < |calls|
  {
    assert calls == (calls - {a})[a := calls[a]];
  }

  // ---------- Filling up ----------

  /** Nobody waits, and every live browser has its page. */
  ghost predicate Ready(h: Host) {
    && h.cap.queue == [] && |h.cap.live| <= h.cap.maxLive && h.cap.live.Keys <= h.runtimes.Keys
    && (forall p :: p in h.cap.settled ==> p < h.cap.promises)
    && (forall id :: id in h.calls ==> h.calls[id].promise < h.cap.promises)
  }

  ghost predicate Newcomer(h: Host, x: Id) {
    x !in h.records && x !in h.calls && x !in h.runtimes && x !in h.cap.live && x !in h.cap.admissions
  }

  /** Capacity with room grants at once. */
  lemma GrantInRoom(c: Cap, x: Id)
    requires |c.live| < c.maxLive && x !in c.live
    ensures ActivateQueued(c, x, 0, false) == (
      c.(live := c.live[x := LiveEntry(0, {Activation})], admissions := c.admissions[x := Admission(true, None, false)],
         promises := c.promises + 1, settled := c.settled[c.promises := Granted(None)]), c.promises)
  {
    CP.AdmitShape(c, x, 0);
  }

  lemma SettleAlone(c: Cap, x: Id, now: int)
    requires c.queue == [] && x in c.live && c.live[x] == LiveEntry(now, {Activation})
    ensures SettleActivation(c, x) == c.(live := c.live[x := LiveEntry(now, {})], admissions := c.admissions - {x})
  {
    assert {Activation} - {Activation} == {};
  }

  lemma ResumeInRoom(h: Host, x: Id, live: map<Id, LiveEntry>) returns (g: Host)
    requires IsGranted(h, x) && GrantOf(h, x) == None && h.calls[x].kind == Opening(false) && x in h.records
    requires h.cap.queue == [] && x !in live && h.cap.live == live[x := LiveEntry(0, {Activation})]
    ensures g == Resume(h, x, true, 0, true, [], NoFault)
    ensures g.cap == h.cap.(live := live[x := LiveEntry(0, {})], admissions := h.cap.admissions - {x})
    ensures g.runtimes == h.runtimes[x := h.incarnations] && g.records == h.records && g.calls == h.calls - {x}
  {
    var h2 := Left(MakeRuntime(h, x, 0), x);
    assert h2.cap == h.cap.(live := live[x := LiveEntry(0, {Activation})]);
    SettleAlone(h2.cap, x, 0);
    assert h2.cap.live[x := LiveEntry(0, {})] == live[x := LiveEntry(0, {})];
    g := Resume(h, x, true, 0, true, [], NoFault);
  }

  lemma OpenFirst(h: Host, x: Id) returns (h1: Host)
    requires |h.cap.live| < h.cap.maxLive && Newcomer(h, x)
    ensures h1 == Open(h, x, 0, false, false) && IsGranted(h1, x) && GrantOf(h1, x) == None
    ensures h1 == h.(records := h.records + {x}, cap := h1.cap,
      calls := h.calls[x := Call(h.cap.promises, Opening(false), Awaiting)])
    ensures h1.cap == h.cap.(live := h.cap.live[x := LiveEntry(0, {Activation})],
      admissions := h.cap.admissions[x := Admission(true, None, false)],
      promises := h.cap.promises + 1, settled := h.cap.settled[h.cap.promises := Granted(None)])
  {
    GrantInRoom(h.cap, x);
    h1 := Open(h, x, 0, false, false);
  }

  lemma AddedThenRemoved<V>(m: map<Id, V>, x: Id, v: V)
    requires x !in m
    ensures m[x := v] - {x} == m
  {
  }

  /** What is left of an activation that has come and gone. */
  lemma ComeAndGone(h: Host, h1: Host, g: Host, x: Id)
    requires Newcomer(h, x)
    requires h1.cap.admissions == h.cap.admissions[x := Admission(true, None, false)]
    requires h1.calls == h.calls[x := Call(h.cap.promises, Opening(false), Awaiting)]
    requires g.cap == h1.cap.(live := h.cap.live[x := LiveEntry(0, {})], admissions := h1.cap.admissions - {x})
    requires h1.cap == h.cap.(live := h1.cap.live, admissions := h1.cap.admissions,
      promises := h.cap.promises + 1, settled := h.cap.settled[h.cap.promises := Granted(None)])
    requires g.calls == h1.calls - {x}
    ensures g.cap == h.cap.(live := h.cap.live[x := LiveEntry(0, {})], promises := h.cap.promises + 1,
      settled := h.cap.settled[h.cap.promises := Granted(None)])
    ensures |g.cap.live| == |h.cap.live| + 1 && g.calls == h.calls
  {
    AddedThenRemoved(h.cap.admissions, x, Admission(true, None, false));
    AddedThenRemoved(h.calls, x, Call(h.cap.promises, Opening(false), Awaiting));
    CP.MapSizes(h.cap.live, x, LiveEntry(0, {}));
  }

  /** From `h` to `g` browsers outside `ids` may have come, and for those in it nothing has changed. */
  ghost predicate Filled(h: Host, g: Host, ids: set<Id>) {
    && g.cap.maxLive == h.cap.maxLive && h.records <= g.records && g.calls == h.calls
    && h.runtimes.Keys <= g.runtimes.Keys
    && (forall id :: id in ids ==> ((id in g.runtimes <==> id in h.runtimes) && (id in g.cap.live <==> id in h.cap.live)
          && (id in g.records <==> id in h.records)))
    && h.cap.promises <= g.cap.promises
    && (forall p :: p < h.cap.promises ==>
          (p in g.cap.settled <==> p in h.cap.settled) && (p in h.cap.settled ==> g.cap.settled[p] == h.cap.settled[p]))
  }

  /** Opening a new browser while there is room gives it a page and leaves nothing else behind. */
  lemma FillOne(h: Host, ids: set<Id>) returns (x: Id, h1: Host, g: Host)
    requires Ready(h) && |h.cap.live| < h.cap.maxLive
    ensures H.Allowed(h, OpenE(x, 0, false, false)) && h1 == H.Step(h, OpenE(x, 0, false, false))
    ensures H.Allowed(h1, ResumeE(x, true, 0, true, [], NoFault))
    ensures g == H.Step(h1, ResumeE(x, true, 0, true, [], NoFault))
    ensures Ready(g) && Filled(h, g, ids) && |g.cap.live| == |h.cap.live| + 1
  {
    x := Sets.Fresh(h.records + h.calls.Keys + h.runtimes.Keys + h.cap.live.Keys + h.cap.admissions.Keys + ids);
    h1 := OpenFirst(h, x);
    g := ResumeInRoom(h1, x, h.cap.live);
    ComeAndGone(h, h1, g, x);
    ReadyAgain(h, g, x, ids);
  }

  lemma ReadyAgain(h: Host, g: Host, x: Id, ids: set<Id>)
    requires Ready(h) && |h.cap.live| < h.cap.maxLive && x !in ids && |g.cap.live| == |h.cap.live| + 1
    requires g.cap == h.cap.(live := h.cap.live[x := LiveEntry(0, {})], promises := h.cap.promises + 1,
      settled := h.cap.settled[h.cap.promises := Granted(None)])
    requires g.runtimes.Keys == h.runtimes.Keys + {x} && g.records == h.records + {x} && g.calls == h.calls
    ensures Ready(g) && Filled(h, g, ids)
  {
  }

  /** Fresh browsers fill whatever room is left. */
  lemma {:induction false} Fill(h: Host, ids: set<Id>) returns (events: seq<H.Event>, g: Host)
    requires Ready(h)
    ensures Runs.Legal(H.Allowed, H.Step, h, events) && g == Runs.After(H.Step, h, events)
    ensures Ready(g) && Filled(h, g, ids) && |g.cap.live| == g.cap.maxLive
    decreases h.cap.maxLive - |h.cap.live|
  {
    if |h.cap.live| == h.cap.maxLive {
      events, g := [], h;
    } else {
      var x, h1, m := FillOne(h, ids);
      var rest;
      rest, g := Fill(m, ids);
      FilledTwice(h, m, g, ids);
      rest := Before(h1, ResumeE(x, true, 0, true, [], NoFault), m, rest);
      events := Before(h, OpenE(x, 0, false, false), h1, rest);
    }
  }

  lemma FilledTwice(h: Host, m: Host, g: Host, ids: set<Id>)
    requires Filled(h, m, ids) && Filled(m, g, ids)
    ensures Filled(h, g, ids)
  {
  }

  // ---------- The overflow ----------

  lemma ReadyWhenQuiet(h: Host, vs: set<Id>)
    requires Limping(h, vs) && h.cap.queue == [] && forall a :: IsGranted(h, a) ==> a in vs
    ensures Ready(h)
  {
    LimpingLinked(h, vs);
    GrantsOfRest(h, vs);
  }

  /** With a page of a browser that is not live the live ones and it are one too many. */
  lemma OnePageTooMany(h: Host, p: Id)
    requires Ready(h) && |h.cap.live| == h.cap.maxLive && p in h.runtimes && p !in h.cap.live
    ensures |h.runtimes| > h.cap.maxLive
  {
    Sets.SubsetSize(h.cap.live.Keys + {p}, h.runtimes.Keys);
    assert |h.cap.live.Keys + {p}| == |h.cap.live.Keys| + 1;
    assert |h.cap.live| == |h.cap.live.Keys|;
    assert |h.runtimes| == |h.runtimes.Keys|;
  }

  /** The grant that was left gets its page on top of them. */
  lemma ResumeTooMany(h: Host, v: Id) returns (events: seq<H.Event>)
    requires Ready(h) && |h.cap.live| == h.cap.maxLive && IsGranted(h, v) && v in h.records
    requires v !in h.runtimes
    requires GrantOf(h, v).Some? ==>
      GrantOf(h, v).value != v && GrantOf(h, v).value !in h.runtimes && !IsGranted(h, GrantOf(h, v).value)
    ensures Runs.Legal(H.Allowed, H.Step, h, events) && |Runs.After(H.Step, h, events).runtimes| > h.cap.maxLive
  {
    var e := ResumeE(v, true, 0, true, [], NoFault);
    var g := H.Step(h, e);
    VictimAway(h, v);
    var h1 := if GrantOf(h, v).Some? then FreezeVictim(h, v, GrantOf(h, v).value) else h;
    ResumedPages(h1, v, 0);
    Sets.SubsetSize(h.cap.live.Keys + {v}, g.runtimes.Keys);
    assert |h.cap.live.Keys + {v}| == |h.cap.live.Keys| + 1;
    assert |h.cap.live| == |h.cap.live.Keys|;
    assert |g.runtimes| == |g.runtimes.Keys|;
    events := Before(h, e, g, []);
  }

  /** Freezing a victim without a page changes no page. */
  lemma VictimAway(h: Host, v: Id)
    requires IsGranted(h, v) && v in h.records && h.cap.queue == []
    requires GrantOf(h, v).Some? ==> GrantOf(h, v).value !in h.runtimes
    ensures var h1 := if GrantOf(h, v).Some? then FreezeVictim(h, v, GrantOf(h, v).value) else h;
      h1.runtimes == h.runtimes && h1.records == h.records && h1.calls == h.calls
  {
  }

  lemma ResumedPages(h: Host, v: Id, now: int)
    requires v in h.calls && v in h.records
    ensures Resumed(h, v, now, true, [], NoFault).runtimes == h.runtimes[v := h.incarnations]
  {
    HP.ResumedForms(h, v, now, true, [], NoFault);
  }

  /** From a host that limps with something left over, a legal run ends past the bound. */
  lemma Overflows(h: Host, vs: set<Id>, v: Id) returns (events: seq<H.Event>)
    requires Limping(h, vs) && Leftover(h, vs, v)
    ensures Runs.Legal(H.Allowed, H.Step, h, events) && |Runs.After(H.Step, h, events).runtimes| > h.cap.maxLive
  {
    var cancel, h1 := CancelAll(h, vs);
    var fail, h2 := FailAll(h1, vs);
    StaysTwice(h, h1, h2, vs);
    ReadyWhenQuiet(h2, vs);
    var rest;
    if v in h2.runtimes {
      rest := PageOverflows(h2, vs, v);
    } else {
      rest := GrantOverflows(h2, v);
    }
    rest := Joined(h1, fail, h2, rest);
    events := Joined(h, cancel, h1, rest);
  }

  lemma PageOverflows(h: Host, vs: set<Id>, v: Id) returns (events: seq<H.Event>)
    requires Limping(h, vs) && v in vs && v in h.runtimes && Ready(h)
    ensures Runs.Legal(H.Allowed, H.Step, h, events) && |Runs.After(H.Step, h, events).runtimes| > h.cap.maxLive
  {
    LimpingLinked(h, vs);
    var g;
    events, g := Fill(h, {v});
    OnePageTooMany(g, v);
  }

  lemma GrantOverflows(h: Host, v: Id) returns (events: seq<H.Event>)
    requires Limping(h, {v}) && v !in h.runtimes && IsGranted(h, v) && v in h.records && Ready(h)
    requires forall a :: IsGranted(h, a) ==> a == v
    ensures Runs.Legal(H.Allowed, H.Step, h, events) && |Runs.After(H.Step, h, events).runtimes| > h.cap.maxLive
  {
    GrantOfOther(h, v);
    if GrantOf(h, v).Some? {
      var u := GrantOf(h, v).value;
      var m := Freeze(h, u);
      FreezeReady(h, u);
      SameFreeze(h, u, v);
      GrantsBySettled(h, m);
      var rest := FillAndResume(m, v);
      events := Before(h, FreezeE(u), m, rest);
    } else {
      events := FillAndResume(h, v);
    }
  }

  lemma GrantOfOther(h: Host, v: Id)
    requires Limping(h, {v}) && IsGranted(h, v)
    ensures v !in h.cap.live && GrantOf(h, v) != Some(v) && forall u :: u in h.runtimes && u != v ==> u in h.records
  {
    LimpingLinked(h, {v});
    GrantsOfRest(h, {v});
    RestPages(h, {v});
  }

  lemma RestPages(h: Host, vs: set<Id>)
    requires Rest(h, vs).runtimes.Keys <= Rest(h, vs).records
    ensures forall u :: u in h.runtimes && u !in vs ==> u in h.records
  {
    forall u | u in h.runtimes && u !in vs ensures u in h.records {
      assert u in Rest(h, vs).runtimes.Keys;
    }
  }

  lemma FreezeReady(h: Host, u: Id)
    requires Ready(h) && (u in h.runtimes ==> u in h.records)
    ensures Ready(Freeze(h, u)) && u !in Freeze(h, u).runtimes
  {
    if u in h.records {
      var t := if u in h.runtimes then TornDown(h, u, h.runtimes[u]) else h;
      assert t.cap == h.cap && t.calls == h.calls && t.runtimes.Keys == h.runtimes.Keys - {u};
      ReleaseReady(h, t, u);
    }
  }

  lemma ReleaseReady(h: Host, t: Host, u: Id)
    requires Ready(h) && t.cap == h.cap && t.calls == h.calls && t.runtimes.Keys == h.runtimes.Keys - {u}
    ensures Ready(Release(t, u)) && u !in Release(t, u).runtimes
  {
    ReleaseQuiet(t, u);
    CP.MapSizes(h.cap.live, u, LiveEntry(0, {}));
    var live := h.cap.live - {u};
    assert u !in h.cap.live ==> live == h.cap.live;
  }

  lemma SameFreeze(h: Host, u: Id, v: Id)
    requires h.cap.queue == [] && u != v
    ensures var g := Freeze(h, u);
      && g.calls == h.calls && g.cap.settled == h.cap.settled && g.records == h.records
      && (v in g.runtimes <==> v in h.runtimes) && (v in g.cap.live <==> v in h.cap.live)
  {
    var t := if u in h.runtimes then TornDown(h, u, h.runtimes[u]) else h;
    ReleaseQuiet(t, u);
  }

  lemma ReleaseQuiet(h: Host, u: Id)
    requires h.cap.queue == []
    ensures Release(h, u) == h.(cap := h.cap.(live := h.cap.live - {u}, admissions := MarkVictims(h.cap.admissions, u)))
  {
  }

  lemma GrantsBySettled(h: Host, g: Host)
    requires g.calls == h.calls && g.cap.settled == h.cap.settled
    ensures HP.SameGrants(h, g)
  {
  }

  lemma FillAndResume(h: Host, v: Id) returns (events: seq<H.Event>)
    requires Ready(h) && IsGranted(h, v) && v in h.records && v !in h.runtimes && v !in h.cap.live
    requires forall a :: IsGranted(h, a) ==> a == v
    requires GrantOf(h, v).Some? ==> GrantOf(h, v).value != v && GrantOf(h, v).value !in h.runtimes
    ensures Runs.Legal(H.Allowed, H.Step, h, events) && |Runs.After(H.Step, h, events).runtimes| > h.cap.maxLive
  {
    var ids := if GrantOf(h, v).Some? then {v, GrantOf(h, v).value} else {v};
    var fill, g := Fill(h, ids);
    FilledGrants(h, g, ids);
    assert v in ids && v !in g.runtimes && v !in g.cap.live && v in g.records;
    var rest := ResumeTooMany(g, v);
    events := Joined(h, fill, g, rest);
  }

  lemma FilledGrants(h: Host, g: Host, ids: set<Id>)
    requires Filled(h, g, ids) && Ready(h)
    ensures HP.SameGrants(h, g)
  {
  }

  lemma {:induction false} Joined(h: Host, first: seq<H.Event>, m: Host, rest: seq<H.Event>)
      returns (events: seq<H.Event>)
    requires Runs.Legal(H.Allowed, H.Step, h, first) && m == Runs.After(H.Step, h, first)
    requires Runs.Legal(H.Allowed, H.Step, m, rest)
    ensures Runs.Legal(H.Allowed, H.Step, h, events)
    ensures Runs.After(H.Step, h, events) == Runs.After(H.Step, m, rest)
    decreases |first|
  {
    if first == [] {
      events := rest;
    } else {
      var g := H.Step(h, first[0]);
      var later := Joined(g, first[1..], m, rest);
      events := Before(h, first[0], g, later);
    }
  }
}
