/** What protects a browser in the host: its page is protected as visible exactly while it is shown, and
    as being activated only while an activation is under way; at most one page is shown. */
module HostSeen {
  import opened Wrappers
  import opened Capacity
  import opened H = Host
  import opened HostFencing
  import HP = HostProofs
  import CP = CapacityProofs
  import Runs

  // ---------- Who is protected for a reason ----------

  function For(c: Cap, reason: Reason): set<Id> {
    set l | l in c.live && reason in c.live[l].protections
  }

  /** An evicted victim had no protection, and gets none back. */
  ghost predicate Bare(c: Cap) {
    forall a :: a in c.admissions && c.admissions[a].victim.Some?
      ==> c.admissions[a].victim.value.entry.protections == {}
  }

  /** From `c` to `d` nobody gains or loses a reason but, being activated, those in `more`. */
  ghost predicate SameReasons(c: Cap, d: Cap, more: set<Id>) {
    && (Bare(c) ==> Bare(d))
    && (forall reason :: reason != Activation ==> For(d, reason) == For(c, reason))
    && For(c, Activation) <= For(d, Activation) <= For(c, Activation) + more
  }

  lemma AdmitReasons(c: Cap, id: Id, now: int)
    ensures var c1 := Admit(c, id, now).0;
      (Bare(c) ==> Bare(c1)) && forall reason :: For(c1, reason) == For(c, reason)
  {
  }

  lemma ProtectedReasons(c: Cap, id: Id, given: Reason)
    ensures forall reason :: reason != given ==> For(Protected(c, id, given), reason) == For(c, reason)
    ensures For(Protected(c, id, given), given) == For(c, given) + (if id in c.live then {id} else {})
  {
  }

  lemma UnprotectedReasons(c: Cap, id: Id, lifted: Reason)
    ensures forall reason :: reason != lifted ==> For(Unprotected(c, id, lifted), reason) == For(c, reason)
    ensures For(Unprotected(c, id, lifted), lifted) == For(c, lifted) - {id}
  {
  }

  lemma DrainReasons(c: Cap)
    ensures SameReasons(c, Drain(c), CP.Head(c))
  {
    if c.queue != [] {
      var w := c.queue[0];
      AdmitReasons(c, w.id, w.now);
      ProtectedReasons(Admit(c, w.id, w.now).0, w.id, Activation);
    }
  }

  lemma ProtectForReasons(c: Cap, id: Id, given: Reason, on: bool)
    requires given != Activation
    ensures var d := ProtectFor(c, id, given, on);
      && (Bare(c) ==> Bare(d))
      && (forall reason :: reason != Activation && reason != given ==> For(d, reason) == For(c, reason))
      && For(d, given)
        == (if !on then For(c, given) - {id} else if id in c.live then For(c, given) + {id} else For(c, given))
      && For(c, Activation) <= For(d, Activation) <= For(c, Activation) + CP.Head(c)
  {
    ProtectedReasons(c, id, given);
    UnprotectedReasons(c, id, given);
    DrainReasons(Unprotected(c, id, given));
  }

  lemma FrozenReasons(c: Cap, id: Id)
    ensures var d := MarkFrozen(c, id);
      && (Bare(c) ==> Bare(d))
      && (forall reason :: reason != Activation ==> For(d, reason) == For(c, reason) - {id})
      && For(c, Activation) - {id} <= For(d, Activation) <= For(c, Activation) - {id} + CP.Head(c)
  {
    var m := c.(live := c.live - {id}, admissions := MarkVictims(c.admissions, id));
    assert forall reason :: For(m, reason) == For(c, reason) - {id};
    DrainReasons(m);
  }

  lemma SettledReasons(c: Cap, id: Id)
    ensures var d := SettleActivation(c, id);
      && (Bare(c) ==> Bare(d))
      && (forall reason :: reason != Activation ==> For(d, reason) == For(c, reason))
      && For(d, Activation) <= For(c, Activation) - {id} + CP.Head(c)
  {
    var m := c.(admissions := c.admissions - {id});
    assert forall reason :: For(m, reason) == For(c, reason);
    UnprotectedReasons(m, id, Activation);
    DrainReasons(Unprotected(m, id, Activation));
  }

  lemma RolledBackReasons(c: Cap, id: Id)
    requires Bare(c)
    ensures var d := RollbackActivation(c, id);
      && Bare(d)
      && (forall reason :: reason != Activation ==>
            For(d, reason) == For(c, reason) - (if id in c.admissions && c.admissions[id].inserted then {id} else {}))
      && For(d, Activation) <= For(c, Activation) + CP.Head(c)
  {
    if id in c.admissions {
      var a := c.admissions[id];
      var m := c.(live := Capacity.Restored(c.live, id, a), admissions := c.admissions - {id});
      assert forall reason :: For(m, reason) == For(c, reason) - (if a.inserted then {id} else {});
      DrainReasons(m);
    }
  }

  lemma ActivatedReasons(c: Cap, id: Id, now: int, aborted: bool)
    ensures SameReasons(c, ActivateQueued(c, id, now, aborted).0, {id})
  {
    if !aborted {
      AdmitReasons(c, id, now);
      ProtectedReasons(Admit(c, id, now).0, id, Activation);
      AnswerLive(c, id, now);
    }
  }

  lemma AnswerLive(c: Cap, id: Id, now: int)
    ensures var d, c1 := ActivateQueued(c, id, now, false).0, Admit(c, id, now).0;
      || (d.live == c.live && d.admissions == c.admissions)
      || (d.live == Protected(c1, id, Activation).live && d.admissions == c1.admissions)
  {
  }

  // ---------- What is shown ----------

  function Shown(h: Host): set<Id> {
    set y | y in h.runtimes && h.runtimes[y] in h.pages && h.pages[h.runtimes[y]].visible
  }

  /** Whoever is protected as being activated, or waits to be, has an activation under way. */
  ghost predicate Lean(h: Host) {
    && Bare(h.cap) && For(h.cap, Activation) <= h.calls.Keys
    && forall w :: w in h.cap.queue ==> w.id in h.calls
  }

  ghost predicate SeenInv(h: Host) {
    Lean(h) && For(h.cap, Visible) == Shown(h)
  }

  function Ids(others: seq<Id>): set<Id> {
    set o | o in others
  }

  lemma DrainQueue(c: Cap)
    ensures forall w :: w in Drain(c).queue ==> w in c.queue
  {
    if c.queue != [] { forall x | x in Without(c.queue, c.queue[0]) ensures x in c.queue { } }
  }

  lemma ProtectSeen(h: Host, id: Id, reason: Reason, on: bool)
    requires Lean(h) && reason != Activation
    ensures var g := Protect(h, id, reason, on);
      && Lean(g) && Shown(g) == Shown(h)
      && For(g.cap, Visible) == if reason != Visible then For(h.cap, Visible)
           else if !on then For(h.cap, Visible) - {id}
           else if id in h.cap.live then For(h.cap, Visible) + {id} else For(h.cap, Visible)
  {
    ProtectForReasons(h.cap, id, reason, on);
    DrainQueue(Unprotected(h.cap, id, reason));
    assert h.cap.queue != [] ==> h.cap.queue[0] in h.cap.queue;
  }

  /** No two browsers have one page. */
  predicate Distinct(h: Host) {
    forall a, b :: a in h.runtimes && b in h.runtimes && a != b ==> h.runtimes[a] != h.runtimes[b]
  }

  lemma WithVisibleSeen(h: Host, id: Id, visible: bool)
    requires Distinct(h) && (forall y :: y in h.runtimes ==> h.runtimes[y] in h.pages)
    ensures Shown(WithVisible(h, id, visible))
      == if visible && id in h.runtimes then Shown(h) + {id} else Shown(h) - {id}
  {
  }

  /** Each browser's page is there, and its own. */
  predicate Paged(h: Host) {
    Distinct(h) && forall y :: y in h.runtimes ==> h.runtimes[y] in h.pages
  }

  lemma HideOneSeen(h: Host, other: Id)
    requires Lean(h) && Paged(h)
    ensures var g := Protect(WithVisible(h, other, false), other, Visible, false);
      && Lean(g) && Paged(g) && Shown(g) == Shown(h) - {other} && For(g.cap, Visible) == For(h.cap, Visible) - {other}
  {
    var h1 := WithVisible(h, other, false);
    WithVisibleSeen(h, other, false);
    assert Lean(h1) && h1.cap == h.cap;
    ProtectSeen(h1, other, Visible, false);
  }

  /** Hiding takes each of `others` out of what is shown and out of what is protected as visible. */
  lemma {:induction false} HideOthersSeen(h: Host, others: seq<Id>)
    requires Lean(h) && Paged(h)
    ensures var g := HideOthers(h, others);
      && Lean(g) && Paged(g) && g.runtimes == h.runtimes && Shown(g) == Shown(h) - Ids(others)
      && For(g.cap, Visible) == For(h.cap, Visible) - Ids(others)
    decreases |others|
  {
    if others != [] {
      HideOneSeen(h, others[0]);
      HideOthersSeen(Protect(WithVisible(h, others[0], false), others[0], Visible, false), others[1..]);
      assert Ids(others) == {others[0]} + Ids(others[1..]);
    }
  }

  /** A browser that is protected, or has nobody waiting behind it, is not evicted by that. */
  ghost predicate Safe(c: Cap, id: Id) {
    id in c.live && (c.queue == [] || exists reason :: id in For(c, reason))
  }

  lemma {:induction false} HideOthersSafe(h: Host, others: seq<Id>, id: Id)
    requires Safe(h.cap, id) && id !in others
    ensures id in HideOthers(h, others).cap.live
    decreases |others|
  {
    if others != [] {
      var h1 := WithVisible(h, others[0], false);
      var g := Protect(h1, others[0], Visible, false);
      UnprotectedReasons(h.cap, others[0], Visible);
      DrainReasons(Unprotected(h.cap, others[0], Visible));
      DrainQueue(Unprotected(h.cap, others[0], Visible));
      if h.cap.queue != [] {
        var reason :| id in For(h.cap, reason);
        assert id in For(g.cap, reason);
      }
      HideOthersSafe(g, others[1..], id);
    }
  }

  lemma PresentSeen(h: Host, id: Id, others: seq<Id>)
    requires Lean(h) && Paged(h) && id in h.runtimes && id !in others
    ensures var g := Present(h, id, others);
      && Lean(g) && Shown(g) == Shown(h) - Ids(others) + {id}
      && For(g.cap, Visible) == For(h.cap, Visible) - Ids(others)
           + (if id in HideOthers(h, others).cap.live then {id} else {})
  {
    HideOthersSeen(h, others);
    var h1 := HideOthers(h, others);
    WithVisibleSeen(h1, id, true);
    var h2 := WithVisible(h1, id, true);
    assert Lean(h2) && h2.cap == h1.cap;
    ProtectSeen(h2, id, Visible, true);
  }

  // ---------- Ends ----------

  /** `g` is `h` as far as pages go. */
  lemma SameShown(h: Host, g: Host)
    requires g.runtimes == h.runtimes && g.pages == h.pages
    ensures Shown(g) == Shown(h)
  {
  }

  /** The activation of `id` is over: whoever is protected as being activated has another under way. */
  lemma SettleSeen(h: Host, id: Id)
    requires Bare(h.cap) && For(h.cap, Activation) <= h.calls.Keys + {id}
    requires forall w :: w in h.cap.queue ==> w.id in h.calls
    ensures var g := Settle(h, id);
      Lean(g) && Shown(g) == Shown(h) && For(g.cap, Visible) == For(h.cap, Visible)
  {
    SettledLean(h.cap, h.calls.Keys, id);
    WithCapSeen(h, SettleActivation(h.cap, id));
  }

  lemma SettledLean(c: Cap, calls: set<Id>, id: Id)
    requires Bare(c) && For(c, Activation) <= calls + {id} && forall w :: w in c.queue ==> w.id in calls
    ensures var d := SettleActivation(c, id);
      && Bare(d) && For(d, Activation) <= calls && For(d, Visible) == For(c, Visible)
      && forall w :: w in d.queue ==> w.id in calls
  {
    SettledReasons(c, id);
    DrainQueue(Unprotected(c.(admissions := c.admissions - {id}), id, Activation));
    assert c.queue != [] ==> c.queue[0] in c.queue;
  }

  lemma WithCapSeen(h: Host, d: Cap)
    requires Bare(d) && For(d, Activation) <= h.calls.Keys && forall w :: w in d.queue ==> w.id in h.calls
    ensures Lean(h.(cap := d)) && Shown(h.(cap := d)) == Shown(h)
  {
  }

  lemma ReleaseSeen(h: Host, id: Id)
    requires Lean(h)
    ensures var g := Release(h, id);
      && Lean(g) && Shown(g) == Shown(h) && For(g.cap, Visible) == For(h.cap, Visible) - {id}
  {
    FrozenReasons(h.cap, id);
    DrainQueue(h.cap.(live := h.cap.live - {id}, admissions := MarkVictims(h.cap.admissions, id)));
    assert h.cap.queue != [] ==> h.cap.queue[0] in h.cap.queue;
  }

  lemma TornDownShown(h: Host, id: Id, incarnation: nat)
    ensures Shown(TornDown(h, id, incarnation)) == Shown(h) - {id}
  {
  }

  lemma FreezeSeen(h: Host, id: Id)
    requires SeenInv(h) && h.runtimes.Keys <= h.records
    ensures SeenInv(Freeze(h, id)) && Shown(Freeze(h, id)) == Shown(h) - (if id in h.records then {id} else {})
  {
    if id in h.records {
      var t := if id in h.runtimes then TornDown(h, id, h.runtimes[id]) else h;
      if id in h.runtimes { TornDownShown(h, id, h.runtimes[id]); }
      assert Lean(t);
      ReleaseSeen(t, id);
    }
  }

  /** The failure of an activation: its browser has nothing to show. */
  lemma FailedSeen(h: Host, id: Id)
    requires SeenInv(h) && id in h.calls && id !in Shown(h) && forall w :: w in h.cap.queue ==> w.id != id
    ensures SeenInv(Failed(h, id)) && Shown(Failed(h, id)) == Shown(h)
  {
    RolledBackReasons(h.cap, id);
    RollbackQueue(h.cap, id);
    assert h.cap.queue != [] ==> h.cap.queue[0] in h.cap.queue;
    var h1 := Left(h.(cap := RollbackActivation(h.cap, id)), id);
    var h2 := if h.calls[id].kind.Opening? then h1.(records := h1.records - {id}) else h1;
    SettleSeen(h2, id);
    SameShown(h, Failed(h, id));
  }

  lemma RollbackQueue(c: Cap, id: Id)
    ensures forall w :: w in RollbackActivation(c, id).queue ==> w in c.queue
  {
    if id in c.admissions { DrainQueue(HP.RolledBackCap(c, id)); }
  }

  lemma DropSeen(t: Host, id: Id)
    requires Bare(t.cap) && For(t.cap, Activation) <= t.calls.Keys + {id}
    requires forall w :: w in t.cap.queue ==> w.id in t.calls
    ensures var g := Settle(Release(t, id), id);
      Lean(g) && Shown(g) == Shown(t) && For(g.cap, Visible) == For(t.cap, Visible) - {id}
  {
    FrozenReasons(t.cap, id);
    DrainQueue(t.cap.(live := t.cap.live - {id}, admissions := MarkVictims(t.cap.admissions, id)));
    assert t.cap.queue != [] ==> t.cap.queue[0] in t.cap.queue;
    SettleSeen(Release(t, id), id);
  }

  lemma RestoreFailedSeen(h: Host, id: Id, incarnation: nat)
    requires SeenInv(h) && id in h.calls && forall w :: w in h.cap.queue ==> w.id != id
    ensures SeenInv(RestoreFailed(h, id, incarnation))
    ensures Shown(RestoreFailed(h, id, incarnation)) == Shown(h) - {id}
  {
    TornDownShown(Left(h, id), id, incarnation);
    SameShown(h, Left(h, id));
    DropSeen(TornDown(Left(h, id), id, incarnation), id);
  }

  // ---------- Resuming ----------

  lemma MakeRuntimeSeen(h: Host, id: Id, now: int)
    requires SeenInv(h) && Fenced(h) && IsAwaiting(h, id)
    ensures var h2 := MakeRuntime(h, id, now);
      && SeenInv(h2) && Paged(h2) && Shown(h2) == Shown(h) && id in h2.runtimes && id !in Shown(h2)
  {
    MadeLive(h.cap, id, now);
    MadeShown(h, id, now);
  }

  lemma MadeLive(c: Cap, id: Id, now: int)
    ensures forall reason :: For(MarkLive(c, id, now), reason) == For(c, reason)
  {
  }

  lemma MadeShown(h: Host, id: Id, now: int)
    requires Fenced(h) && IsAwaiting(h, id)
    ensures var h2 := MakeRuntime(h, id, now); Paged(h2) && Shown(h2) == Shown(h) && id !in Shown(h2)
  {
  }

  lemma {:induction false} HideOthersQueue(h: Host, others: seq<Id>)
    ensures forall w :: w in HideOthers(h, others).cap.queue ==> w in h.cap.queue
    decreases |others|
  {
    if others != [] {
      DrainQueue(Unprotected(h.cap, others[0], Visible));
      HideOthersQueue(Protect(WithVisible(h, others[0], false), others[0], Visible, false), others[1..]);
    }
  }

  /** Presenting does not depend on the calls under way, and lets nobody queue. */
  lemma PresentAside(h: Host, id: Id, others: seq<Id>)
    ensures Present(Left(h, id), id, others) == Left(Present(h, id, others), id)
    ensures forall w :: w in Present(h, id, others).cap.queue ==> w in h.cap.queue
  {
    HiddenPages(h, id, others);
    HideOthersQueue(h, others);
  }

  lemma OpeningSeen(h2: Host, id: Id, visible: bool, others: seq<Id>)
    requires SeenInv(h2) && Paged(h2) && id in h2.runtimes && id in h2.calls && id !in others
    requires id in For(h2.cap, Activation) && forall w :: w in h2.cap.queue ==> w.id != id
    ensures var l := Left(h2, id); var g := Settle(if visible then Present(l, id, others) else l, id);
      SeenInv(g) && Shown(g) == if visible then Shown(h2) - Ids(others) + {id} else Shown(h2)
  {
    var l := Left(h2, id);
    SameShown(h2, l);
    if visible {
      PresentSeen(h2, id, others);
      HideOthersSafe(h2, others, id);
      PresentAside(h2, id, others);
      SameShown(Present(h2, id, others), Present(l, id, others));
      SettleSeen(Present(l, id, others), id);
    } else {
      SettleSeen(l, id);
    }
  }

  lemma OpeningFailedSeen(h2: Host, id: Id, visible: bool, others: seq<Id>, call: nat)
    requires SeenInv(h2) && Paged(h2) && id in h2.calls && id !in Shown(h2)
    requires forall w :: w in h2.cap.queue ==> w.id != id
    ensures SeenInv(PresentFailed(h2, id, visible, others, call))
    ensures Shown(PresentFailed(h2, id, visible, others, call)) <= Shown(h2)
  {
    var h3 := if visible then HideOthers(h2, Upto(others, call)) else h2;
    HideOthersSeen(h2, Upto(others, call));
    HideOthersQueue(h2, Upto(others, call));
    FailedSeen(h3, id);
  }

  /** The rest of a granted activation. */
  lemma ResumedSeen(h: Host, id: Id, now: int, loads: bool, others: seq<Id>, fault: Fault)
    requires SeenInv(h) && Fenced(h) && IsAwaiting(h, id) && id !in others
    requires forall w :: w in h.cap.queue ==> w.id != id
    requires id in h.records ==> id in For(h.cap, Activation)
    ensures var g := Resumed(h, id, now, loads, others, fault);
      && SeenInv(g)
      && (Shown(g) <= Shown(h) || (h.calls[id].kind == Opening(true) && Shown(g) == Shown(h) - Ids(others) + {id}))
      && (id in h.records && fault.NoFault? && h.calls[id].kind.Opening?
        ==> (id in Shown(g) <==> h.calls[id].kind.visible))
  {
    HP.ResumedForms(h, id, now, loads, others, fault);
    if fault.CreateThrows? {
      FailedSeen(h, id);
    } else if id !in h.records {
      LeakedSeen(h);
      FailedSeen(h.(leaked := h.leaked + 1), id);
    } else {
      MakeRuntimeSeen(h, id, now);
      MadeLive(h.cap, id, now);
      var h2 := MakeRuntime(h, id, now);
      if h.calls[id].kind.Thawing? {
        ThawingSeen(h2, id, h.incarnations);
      } else if fault.CallThrows? {
        OpeningFailedSeen(h2, id, h.calls[id].kind.visible, others, fault.call);
      } else {
        OpeningSeen(h2, id, h.calls[id].kind.visible, others);
      }
    }
  }

  lemma LeakedSeen(h: Host)
    requires SeenInv(h)
    ensures SeenInv(h.(leaked := h.leaked + 1)) && Shown(h.(leaked := h.leaked + 1)) == Shown(h)
  {
  }

  lemma ThawingSeen(h2: Host, id: Id, incarnation: nat)
    requires SeenInv(h2) && id in h2.calls && forall w :: w in h2.cap.queue ==> w.id != id
    ensures var g := h2.(calls := h2.calls[id := h2.calls[id].(phase := Restoring(incarnation))]);
      SeenInv(g) && Shown(g) == Shown(h2)
    ensures SeenInv(RestoreFailed(h2, id, incarnation)) && Shown(RestoreFailed(h2, id, incarnation)) <= Shown(h2)
  {
    RestoreFailedSeen(h2, id, incarnation);
    assert h2.calls[id := h2.calls[id].(phase := Restoring(incarnation))].Keys == h2.calls.Keys;
  }

  // ---------- Every event ----------

  /** What `others` is: the table of pages, in some order, without the browser that is shown. */
  ghost predicate Walks(h: Host, e: H.Event) {
    match e
    case ShowE(id, _, others) => id !in others && h.runtimes.Keys <= Ids(others) + {id}
    case ResumeE(id, _, _, _, others, _) => id !in others && h.runtimes.Keys <= Ids(others) + {id}
    case _ => true
  }

  /** No browser is shown whose place another has been granted, and the visible reason is left to
      showing and hiding. */
  ghost predicate Seeable(h: Host, e: H.Event) {
    match e
    case ShowE(id, _, _) => id in h.records && id in h.runtimes ==> id in h.cap.live
    case ProtectE(id, reason, on) =>
      reason == Visible && id in h.cap.live ==> (on <==> Visible in h.cap.live[id].protections)
    case _ => true
  }

  lemma ResumeSeen(h: Host, id: Id, ok: bool, now: int, loads: bool, others: seq<Id>, fault: Fault)
    requires HostInv(h) && Fenced(h) && SeenInv(h) && id !in others
    ensures var g := Resume(h, id, ok, now, loads, others, fault);
      && SeenInv(g)
      && (Shown(g) <= Shown(h) || (id in h.calls && h.calls[id].kind == Opening(true)
                                   && Shown(g) <= Shown(h) - Ids(others) + {id}))
  {
    if IsAwaiting(h, id) && h.calls[id].promise in h.cap.settled {
      SettledNotWaiting(h, id);
      if !ok || !IsGranted(h, id) {
        FailedSeen(h, id);
      } else {
        GrantedSeen(h, id);
        GrantedResumes(h, id, now, loads, others, fault);
      }
    }
  }

  lemma SettledNotWaiting(h: Host, id: Id)
    requires HostInv(h) && IsAwaiting(h, id) && h.calls[id].promise in h.cap.settled
    ensures id !in Shown(h) && forall w :: w in h.cap.queue ==> w.id != id
  {
  }

  lemma GrantedResumes(h: Host, id: Id, now: int, loads: bool, others: seq<Id>, fault: Fault)
    requires SeenInv(h) && Fenced(h) && h.runtimes.Keys <= h.records && IsGranted(h, id) && id !in others
    requires GrantOf(h, id) != Some(id) && (id in h.records ==> id in For(h.cap, Activation))
    requires forall w :: w in h.cap.queue ==> w.id != id
    ensures var g := Resume(h, id, true, now, loads, others, fault);
      && SeenInv(g)
      && (Shown(g) <= Shown(h) || (h.calls[id].kind == Opening(true) && Shown(g) <= Shown(h) - Ids(others) + {id}))
      && (id in h.records && fault.NoFault? && h.calls[id].kind.Opening?
        ==> (id in Shown(g) <==> h.calls[id].kind.visible))
  {
    if GrantOf(h, id).Some? {
      VictimSeen(h, id, GrantOf(h, id).value);
      ResumedSeen(FreezeVictim(h, id, GrantOf(h, id).value), id, now, loads, others, fault);
    } else {
      ResumedSeen(h, id, now, loads, others, fault);
    }
  }

  lemma GrantedSeen(h: Host, id: Id)
    requires HostInv(h) && IsGranted(h, id)
    ensures GrantOf(h, id) != Some(id) && (id in h.records ==> id in For(h.cap, Activation))
  {
  }

  lemma VictimSeen(h: Host, id: Id, v: Id)
    requires SeenInv(h) && Fenced(h) && h.runtimes.Keys <= h.records && IsAwaiting(h, id) && v != id
    requires (id in h.records ==> id in For(h.cap, Activation)) && forall w :: w in h.cap.queue ==> w.id != id
    ensures var g := FreezeVictim(h, id, v);
      && SeenInv(g) && Fenced(g) && IsAwaiting(g, id) && g.calls == h.calls && g.records == h.records
      && (id in g.records ==> id in For(g.cap, Activation)) && Shown(g) <= Shown(h)
      && forall w :: w in g.cap.queue ==> w.id != id
  {
    var m := h.(cap := MarkAdmissionVictimFrozen(h.cap, id));
    assert forall reason :: For(m.cap, reason) == For(h.cap, reason);
    SameShown(h, m);
    FreezeSeen(m, v);
    FreezeVictimAdvances(h, id, v, 0);
    VictimFrozenSeen(m, v, id);
  }

  lemma VictimFrozenSeen(m: Host, v: Id, id: Id)
    requires id != v && forall w :: w in m.cap.queue ==> w.id != id
    ensures var g := Freeze(m, v);
      && g.calls == m.calls && g.records == m.records && (id in For(m.cap, Activation) ==> id in For(g.cap, Activation))
      && forall w :: w in g.cap.queue ==> w.id != id
  {
    if v in m.records {
      var t := if v in m.runtimes then TornDown(m, v, m.runtimes[v]) else m;
      assert t.cap == m.cap && t.calls == m.calls && t.records == m.records;
      ReleasedOther(m.cap, v, id);
    }
  }

  lemma ReleasedOther(c: Cap, v: Id, id: Id)
    requires id != v && forall w :: w in c.queue ==> w.id != id
    ensures id in For(c, Activation) ==> id in For(MarkFrozen(c, v), Activation)
    ensures forall w :: w in MarkFrozen(c, v).queue ==> w.id != id
  {
    FrozenReasons(c, v);
    DrainQueue(c.(live := c.live - {v}, admissions := MarkVictims(c.admissions, v)));
  }

  // ---------- Each event ----------

  lemma BeginSeen(h: Host, id: Id, now: int, kind: Kind, aborted: bool)
    requires SeenInv(h)
    ensures SeenInv(Begin(h, id, now, kind, aborted)) && Shown(Begin(h, id, now, kind, aborted)) == Shown(h)
  {
    ActivatedReasons(h.cap, id, now, aborted);
    ActivateQueue(h.cap, id, now, aborted);
    SameShown(h, Begin(h, id, now, kind, aborted));
  }

  lemma ActivateQueue(c: Cap, id: Id, now: int, aborted: bool)
    ensures forall w :: w in ActivateQueued(c, id, now, aborted).0.queue ==> w in c.queue || w.id == id
  {
  }

  lemma RestoredSeen(h: Host, id: Id, ok: bool)
    requires SeenInv(h)
    requires id in h.calls && h.calls[id].phase.Restoring? ==> forall w :: w in h.cap.queue ==> w.id != id
    ensures SeenInv(H.Restored(h, id, ok)) && Shown(H.Restored(h, id, ok)) <= Shown(h)
  {
    if id in h.calls && h.calls[id].phase.Restoring? {
      if ok && id in h.records {
        SameShown(h, Left(h, id));
        SettleSeen(Left(h, id), id);
      } else {
        RestoreFailedSeen(h, id, h.calls[id].phase.incarnation);
      }
    }
  }

  lemma RestoringNotWaiting(h: Host, id: Id)
    requires HostInv(h) && id in h.calls && h.calls[id].phase.Restoring?
    ensures forall w :: w in h.cap.queue ==> w.id != id
  {
  }

  lemma CloseSeen(h: Host, id: Id)
    requires SeenInv(h) && h.runtimes.Keys <= h.records
    ensures SeenInv(Close(h, id)) && Shown(Close(h, id)) <= Shown(h)
  {
    if id in h.records {
      var h1 := h.(cap := Cancel(h.cap, id), runtimes := h.runtimes - {id});
      CancelReasons(h.cap, id);
      assert Shown(h1) == Shown(h) - {id};
      assert Lean(h1);
      ReleaseSeen(h1, id);
      SameShown(Release(h1, id), Close(h, id));
    }
  }

  lemma CancelReasons(c: Cap, id: Id)
    ensures var d := Cancel(c, id);
      d.live == c.live && d.admissions == c.admissions && forall w :: w in d.queue ==> w in c.queue
  {
    if id in c.pending { RemoveReasons(c, c.pending[id], Cancelled); }
  }

  lemma RemoveReasons(c: Cap, w: Waiter, how: Settlement)
    ensures forall x :: x in Remove(c, w, how).queue ==> x in c.queue
  {
    forall x | x in Without(c.queue, w) ensures x in c.queue { }
  }

  lemma TearDownSeen(h: Host, id: Id, incarnation: nat)
    requires SeenInv(h)
    ensures var g := Release(TornDown(h, id, incarnation), id); SeenInv(g) && Shown(g) == Shown(h) - {id}
  {
    TornDownShown(h, id, incarnation);
    ReleaseSeen(TornDown(h, id, incarnation), id);
  }

  lemma OnPageSeen(h: Host, id: Id, incarnation: nat, event: PageEvent)
    requires SeenInv(h)
    ensures SeenInv(OnPage(h, id, incarnation, event)) && Shown(OnPage(h, id, incarnation, event)) <= Shown(h)
  {
    TearDownSeen(h, id, incarnation);
  }

  /** Showing keeps reason and page together exactly when the browser has its place. */
  lemma ShowSeen(h: Host, id: Id, now: int, others: seq<Id>)
    requires HostInv(h) && Fenced(h) && SeenInv(h) && id !in others
    ensures SeenInv(Show(h, id, now, others)) <==> (id in h.records && id in h.runtimes ==> id in h.cap.live)
    ensures Shown(Show(h, id, now, others)) == if id in h.records && id in h.runtimes
      then Shown(h) - Ids(others) + {id} else Shown(h)
  {
    if id in h.records && id in h.runtimes {
      PresentSeen(h, id, others);
      var h1 := Present(h, id, others);
      TouchReasons(h1.cap, id, now);
      SameShown(h1, Show(h, id, now, others));
      if id in h.cap.live {
        HasItsPlace(h, id);
        HideOthersSafe(h, others, id);
      } else {
        HideOthersAbsent(h, id, others);
      }
    }
  }

  lemma TouchReasons(c: Cap, id: Id, now: int)
    ensures forall reason :: For(Touch(c, id, now), reason) == For(c, reason)
    ensures Touch(c, id, now) == c.(live := Touch(c, id, now).live)
  {
  }

  /** Nobody waits behind an unprotected browser. */
  lemma HasItsPlace(h: Host, id: Id)
    requires HostInv(h) && id in h.cap.live
    ensures Safe(h.cap, id)
  {
    if h.cap.queue != [] {
      var reason :| reason in h.cap.live[id].protections;
      assert id in For(h.cap, reason);
    }
  }

  /** Who is not live, and does not wait, does not come in. */
  lemma {:induction false} HideOthersAbsent(h: Host, id: Id, others: seq<Id>)
    requires id !in h.cap.live && forall w :: w in h.cap.queue ==> w.id != id
    ensures id !in HideOthers(h, others).cap.live
    decreases |others|
  {
    if others != [] {
      DrainAbsent(Unprotected(h.cap, others[0], Visible), id);
      HideOthersAbsent(Protect(WithVisible(h, others[0], false), others[0], Visible, false), id, others[1..]);
    }
  }

  lemma DrainAbsent(c: Cap, id: Id)
    requires id !in c.live && forall w :: w in c.queue ==> w.id != id
    ensures id !in Drain(c).live && forall w :: w in Drain(c).queue ==> w.id != id
  {
    DrainQueue(c);
    CP.DrainKeys(c);
    assert c.queue != [] ==> c.queue[0] in c.queue;
  }

  lemma ActivationSeen(h: Host, e: H.Event)
    requires HostInv(h) && Fenced(h) && SeenInv(h) && Walks(h, e)
    requires e.OpenE? || e.ThawE? || e.ResumeE? || e.RestoredE?
    ensures SeenInv(H.Step(h, e))
  {
    if e.OpenE? {
      SameShown(h, h.(records := h.records + {e.id}));
      BeginSeen(h.(records := h.records + {e.id}), e.id, e.now, Opening(e.visible), e.aborted);
    } else if e.ThawE? {
      BeginSeen(h, e.id, e.now, Thawing, e.aborted);
    } else if e.ResumeE? {
      ResumeSeen(h, e.id, e.ok, e.now, e.loads, e.others, e.fault);
    } else {
      if e.id in h.calls && h.calls[e.id].phase.Restoring? { RestoringNotWaiting(h, e.id); }
      RestoredSeen(h, e.id, e.ok);
    }
  }

  lemma PageStepSeen(h: Host, e: H.Event)
    requires SeenInv(h) && h.runtimes.Keys <= h.records
    requires e.PageE? || e.ActE? || e.FreezeE? || e.QuarantineE? || e.CloseE?
    ensures SeenInv(H.Step(h, e)) && Shown(H.Step(h, e)) <= Shown(h)
  {
    if e.PageE? {
      OnPageSeen(h, e.id, e.incarnation, e.event);
    } else if e.ActE? {
    } else if e.FreezeE? {
      FreezeSeen(h, e.id);
    } else if e.QuarantineE? {
      TearDownSeen(h, e.id, e.incarnation);
    } else {
      CloseSeen(h, e.id);
    }
  }

  lemma HideSeen(h: Host, id: Id)
    requires SeenInv(h) && Paged(h) && h.runtimes.Keys <= h.records
    ensures SeenInv(Hide(h, id)) && Shown(Hide(h, id)) == Shown(h) - {id}
  {
    if id in h.records { HideOneSeen(h, id); }
  }

  lemma ProtectExactly(h: Host, id: Id, reason: Reason, on: bool)
    requires SeenInv(h) && reason != Activation
    ensures SeenInv(Protect(h, id, reason, on)) <==> Seeable(h, ProtectE(id, reason, on))
    ensures Shown(Protect(h, id, reason, on)) == Shown(h)
  {
    ProtectSeen(h, id, reason, on);
  }

  /** Hiding, and what concerns waiting or other reasons. */
  lemma QuietSeen(h: Host, e: H.Event)
    requires SeenInv(h) && Paged(h) && h.runtimes.Keys <= h.records && Proper(h, e)
    requires e.HideE? || e.ProtectE? || e.WaiterE?
    ensures SeenInv(H.Step(h, e)) <==> Seeable(h, e)
    ensures Shown(H.Step(h, e)) <= Shown(h)
  {
    if e.HideE? {
      HideSeen(h, e.id);
    } else if e.ProtectE? {
      ProtectExactly(h, e.id, e.reason, e.on);
    } else {
      RemoveReasons(h.cap, e.waiter, e.how);
      SameShown(h, H.Step(h, e));
    }
  }

  lemma TablesOk(h: Host)
    requires HostInv(h) && Fenced(h)
    ensures Paged(h) && h.runtimes.Keys <= h.records
  {
  }

  /** Over any step a browser is protected as visible exactly while its page is shown, if and only if
      nobody is shown whose place is gone and no other caller touches the visible reason; and whoever
      is protected as being activated has an activation under way. */
  lemma SeenExactly(h: Host, e: H.Event)
    requires HostInv(h) && Fenced(h) && SeenInv(h) && Proper(h, e) && Walks(h, e)
    ensures SeenInv(H.Step(h, e)) <==> Seeable(h, e)
  {
    TablesOk(h);
    if e.OpenE? || e.ThawE? || e.ResumeE? || e.RestoredE? {
      ActivationSeen(h, e);
    } else if e.PageE? || e.ActE? || e.FreezeE? || e.QuarantineE? || e.CloseE? {
      PageStepSeen(h, e);
    } else if e.ShowE? {
      ShowSeen(h, e.id, e.now, e.others);
    } else {
      QuietSeen(h, e);
    }
  }

  // ---------- One page at a time ----------

  ghost predicate Single(h: Host) {
    forall a, b :: a in Shown(h) && b in Shown(h) ==> a == b
  }

  lemma SingleOf(h: Host, g: Host, id: Id)
    requires Single(h) && (Shown(g) <= Shown(h) || Shown(g) <= {id})
    ensures Single(g)
  {
  }

  lemma SingleActivation(h: Host, e: H.Event)
    requires HostInv(h) && Fenced(h) && SeenInv(h) && Single(h) && Walks(h, e)
    requires e.OpenE? || e.ThawE? || e.ResumeE? || e.RestoredE?
    ensures Single(H.Step(h, e))
  {
    if e.OpenE? || e.ThawE? {
      BeginShown(h, e);
    } else if e.ResumeE? {
      ResumeSeen(h, e.id, e.ok, e.now, e.loads, e.others, e.fault);
      assert Shown(h) - Ids(e.others) + {e.id} <= {e.id};
    } else {
      if e.id in h.calls && h.calls[e.id].phase.Restoring? { RestoringNotWaiting(h, e.id); }
      RestoredSeen(h, e.id, e.ok);
    }
    SingleOf(h, H.Step(h, e), e.id);
  }

  /** What a show leaves is the one page. */
  lemma ShowsOne(h: Host, id: Id, now: int, others: seq<Id>)
    requires HostInv(h) && Fenced(h) && SeenInv(h) && Walks(h, ShowE(id, now, others))
    requires id in h.records && id in h.runtimes
    ensures Shown(Show(h, id, now, others)) == {id}
  {
    ShowSeen(h, id, now, others);
    assert Shown(h) - Ids(others) + {id} == {id};
  }

  lemma SingleStep(h: Host, e: H.Event)
    requires HostInv(h) && Fenced(h) && SeenInv(h) && Single(h) && Proper(h, e) && Walks(h, e)
    ensures Single(H.Step(h, e))
  {
    TablesOk(h);
    if e.OpenE? || e.ThawE? || e.ResumeE? || e.RestoredE? {
      SingleActivation(h, e);
    } else if e.PageE? || e.ActE? || e.FreezeE? || e.QuarantineE? || e.CloseE? {
      PageStepSeen(h, e);
      SingleOf(h, H.Step(h, e), e.id);
    } else if e.ShowE? {
      if e.id in h.records && e.id in h.runtimes { ShowsOne(h, e.id, e.now, e.others); }
      SingleOf(h, H.Step(h, e), e.id);
    } else {
      QuietSeen(h, e);
      SingleOf(h, H.Step(h, e), 0);
    }
  }

  lemma BeginShown(h: Host, e: H.Event)
    requires e.OpenE? || e.ThawE?
    ensures Shown(H.Step(h, e)) == Shown(h)
  {
    SameShown(h, H.Step(h, e));
  }

  /** Over every run from the empty host: at most one page is shown, each shown page is protected, and
      no hidden one and no ended activation keeps a place. */
  lemma ShownOverRuns(maxLive: nat, maxQueue: nat, records: set<Id>, events: seq<H.Event>)
    requires Runs.Legal((h, e) => H.Allowed(h, e) && Walks(h, e) && Seeable(h, e), H.Step,
      H.Empty(maxLive, maxQueue, records), events)
    ensures var h := Runs.After(H.Step, H.Empty(maxLive, maxQueue, records), events); SeenInv(h) && Single(h)
  {
    var allowed := (h: Host, e: H.Event) => H.Allowed(h, e) && Walks(h, e) && Seeable(h, e);
    var start := H.Empty(maxLive, maxQueue, records);
    forall h, e | Presentable(h) && allowed(h, e) ensures Presentable(H.Step(h, e)) {
      StaysPresentable(h, e);
    }
    EmptyIsPresentable(maxLive, maxQueue, records);
    Runs.Invariant(Presentable, allowed, H.Step, start, events);
  }

  ghost predicate Presentable(h: Host) {
    HostInv(h) && Fenced(h) && SeenInv(h) && Single(h)
  }

  lemma EmptyIsPresentable(maxLive: nat, maxQueue: nat, records: set<Id>)
    ensures Presentable(H.Empty(maxLive, maxQueue, records))
  {
    EmptyShowsNothing(maxLive, maxQueue, records);
    EmptyIsLinked(maxLive, maxQueue, records);
  }

  lemma EmptyShowsNothing(maxLive: nat, maxQueue: nat, records: set<Id>)
    ensures var h := H.Empty(maxLive, maxQueue, records); SeenInv(h) && Single(h)
  {
    var h := H.Empty(maxLive, maxQueue, records);
    assert Shown(h) == {} && For(h.cap, Visible) == {} && For(h.cap, Activation) == {};
  }

  lemma EmptyIsLinked(maxLive: nat, maxQueue: nat, records: set<Id>)
    ensures var h := H.Empty(maxLive, maxQueue, records); HostInv(h) && Fenced(h)
  {
  }

  lemma StaysPresentable(h: Host, e: H.Event)
    requires Presentable(h) && H.Allowed(h, e) && Walks(h, e) && Seeable(h, e)
    ensures Presentable(H.Step(h, e))
  {
    HP.StepLinks(h, e);
    StepFenced(h, e);
    SeenExactly(h, e);
    SingleStep(h, e);
  }

  /** An opening that goes well shows its page exactly if it was asked to. */
  lemma OpeningShows(h: Host, id: Id, now: int, loads: bool, others: seq<Id>)
    requires HostInv(h) && Fenced(h) && SeenInv(h) && id !in others
    requires IsGranted(h, id) && id in h.records && h.calls[id].kind.Opening?
    ensures id in Shown(Resume(h, id, true, now, loads, others, NoFault)) <==> h.calls[id].kind.visible
  {
    SettledNotWaiting(h, id);
    GrantedSeen(h, id);
    GrantedResumes(h, id, now, loads, others, NoFault);
  }

  // ---------- The time of the last use ----------

  /** Whoever does not wait has been live all along, and has not been used. */
  ghost predicate Unused(c: Cap, d: Cap, id: Id) {
    && (id in d.live ==> id in c.live && d.live[id].lastUsedAt == c.live[id].lastUsedAt)
    && ((forall w :: w in c.queue ==> w.id != id) ==> forall w :: w in d.queue ==> w.id != id)
  }

  lemma DrainUnused(c: Cap, id: Id)
    requires forall w :: w in c.queue ==> w.id != id
    ensures Unused(c, Drain(c), id)
  {
    DrainQueue(c);
    if c.queue != [] {
      var w := c.queue[0];
      assert w in c.queue;
      AdmitUnused(c, w.id, w.now, id);
      var (c1, verdict) := Admit(c, w.id, w.now);
      assert Drain(c).live == if verdict.Full? then c.live else Protected(c1, w.id, Activation).live;
    }
  }

  lemma AdmitUnused(c: Cap, other: Id, now: int, id: Id)
    requires other != id
    ensures var live := Admit(c, other, now).0.live; id in live ==> id in c.live && live[id] == c.live[id]
  {
  }

  lemma ProtectUnused(c: Cap, other: Id, reason: Reason, on: bool, id: Id)
    requires forall w :: w in c.queue ==> w.id != id
    ensures Unused(c, ProtectFor(c, other, reason, on), id)
  {
    DrainUnused(Unprotected(c, other, reason), id);
  }

  lemma SettleUnused(c: Cap, other: Id, id: Id)
    requires forall w :: w in c.queue ==> w.id != id
    ensures Unused(c, SettleActivation(c, other), id)
  {
    ProtectUnused(c.(admissions := c.admissions - {other}), other, Activation, false, id);
  }

  lemma {:induction false} HideOthersUnused(h: Host, others: seq<Id>, id: Id)
    requires forall w :: w in h.cap.queue ==> w.id != id
    ensures Unused(h.cap, HideOthers(h, others).cap, id)
    decreases |others|
  {
    if others != [] {
      ProtectUnused(h.cap, others[0], Visible, false, id);
      HideOthersUnused(Protect(WithVisible(h, others[0], false), others[0], Visible, false), others[1..], id);
    }
  }

  lemma PresentUnused(h: Host, other: Id, others: seq<Id>, id: Id)
    requires forall w :: w in h.cap.queue ==> w.id != id
    ensures Unused(h.cap, Present(h, other, others).cap, id)
  {
    HideOthersUnused(h, others, id);
    ProtectUnused(HideOthers(h, others).cap, other, Visible, true, id);
  }

  /** Showing a browser is a use of it. */
  lemma ShowIsUse(h: Host, id: Id, now: int, others: seq<Id>)
    requires HostInv(h) && Fenced(h) && SeenInv(h) && id !in others
    requires id in h.records && id in h.runtimes && id in h.cap.live
    ensures var c := Show(h, id, now, others).cap; id in c.live && c.live[id].lastUsedAt == now
  {
    ShowSeen(h, id, now, others);
    assert id in For(Show(h, id, now, others).cap, Visible);
  }

  /** And so is making its page. */
  lemma MakingIsUse(h: Host, id: Id, now: int, loads: bool, others: seq<Id>, fault: Fault)
    requires IsAwaiting(h, id) && (forall w :: w in h.cap.queue ==> w.id != id)
    requires id in h.records && fault.NoFault? && (h.calls[id].kind.Thawing? ==> loads)
    ensures var c := Resumed(h, id, now, loads, others, fault).cap; id in c.live ==> c.live[id].lastUsedAt == now
  {
    HP.ResumedForms(h, id, now, loads, others, fault);
    if h.calls[id].kind.Opening? {
      var l := Left(MakeRuntime(h, id, now), id);
      PresentUnused(l, id, others, id);
      SettleUnused(Present(l, id, others).cap, id, id);
      SettleUnused(l.cap, id, id);
    }
  }
}
