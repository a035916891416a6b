/** Generations over whole runs: what a browser reports never goes back, and every teardown moves it
    on, so a lease taken before a teardown is refused ever after. */
module HostFencing {
  import opened Wrappers
  import opened Capacity
  import opened H = Host
  import HP = HostProofs
  import Runs

  /** Pages are distinct, no page lags behind its browser's tombstone, and a page being restored is
      the only one its browser can have. */
  ghost predicate Fenced(h: Host) {
    && (forall i :: i in h.pages ==> i < h.incarnations)
    && (forall id :: id in h.runtimes ==>
          h.runtimes[id] in h.pages && h.pages[h.runtimes[id]].generation >= FloorOf(h, id))
    && (forall a, b :: a in h.runtimes && b in h.runtimes && a != b ==> h.runtimes[a] != h.runtimes[b])
    && (forall id :: id in h.calls && h.calls[id].phase.Restoring? ==>
          RestoringOk(h, id, h.calls[id].phase.incarnation))
    && (forall id :: IsAwaiting(h, id) ==> id !in h.runtimes)
  }

  ghost predicate RestoringOk(h: Host, id: Id, incarnation: nat) {
    && incarnation in h.pages && h.pages[incarnation].generation >= FloorOf(h, id)
    && (forall other :: other in h.runtimes && h.runtimes[other] == incarnation ==> other == id)
    && (id in h.runtimes ==> h.runtimes[id] == incarnation)
    && (forall other :: other in h.calls && h.calls[other].phase == Restoring(incarnation) ==> other == id)
  }

  /** From `h` to `g` browser `id` never reports less, and reports more once its page is gone. */
  ghost predicate Advances(id: Id, h: Host, g: Host) {
    && Reported(h, id) <= Reported(g, id)
    && (id in h.runtimes && (id !in g.runtimes || g.runtimes[id] != h.runtimes[id]) ==>
          Reported(h, id) < Reported(g, id))
  }

  /** `g` differs from `h` in capacity and records only. */
  ghost predicate SamePages(h: Host, g: Host) {
    && g.runtimes == h.runtimes && g.pages == h.pages && g.floor == h.floor
    && g.incarnations == h.incarnations
  }

  /** The page that may leave for `id`: the one it has, or the one it is restoring. */
  ghost predicate PageOf(h: Host, id: Id, incarnation: nat) {
    && RestoringOk(h, id, incarnation)
    && (id in h.calls && h.calls[id].phase.Restoring? ==> h.calls[id].phase.incarnation == incarnation)
  }

  lemma ServingPage(h: Host, id: Id)
    requires Fenced(h) && id in h.runtimes
    ensures PageOf(h, id, h.runtimes[id])
  {
  }

  /** A page leaves the table with a higher generation and a tombstone to match. */
  lemma TornDownAdvances(h: Host, id: Id, incarnation: nat, x: Id)
    requires Fenced(h) && PageOf(h, id, incarnation)
    ensures var g := TornDown(h, id, incarnation);
      Fenced(g) && Advances(x, h, g) && id !in g.runtimes && g.calls == h.calls
  {
    var g := TornDown(h, id, incarnation);
    forall y | y in g.calls && g.calls[y].phase.Restoring? ensures RestoringOk(g, y, g.calls[y].phase.incarnation) {
      assert RestoringOk(h, y, h.calls[y].phase.incarnation);
    }
  }

  lemma LeftFenced(h: Host, id: Id)
    requires Fenced(h)
    ensures Fenced(Left(h, id))
  {
    forall y | y in h.calls - {id} && h.calls[y].phase.Restoring?
      ensures RestoringOk(Left(h, id), y, h.calls[y].phase.incarnation)
    {
      assert RestoringOk(h, y, h.calls[y].phase.incarnation);
    }
  }

  /** Capacity and records do not matter. */
  lemma Elsewhere(h: Host, g: Host)
    requires Fenced(h) && SamePages(h, g) && g.calls == h.calls
    ensures Fenced(g)
  {
    forall y | y in g.calls && g.calls[y].phase.Restoring? ensures RestoringOk(g, y, g.calls[y].phase.incarnation) {
      assert RestoringOk(h, y, h.calls[y].phase.incarnation);
    }
  }

  /** One page changes without going back. */
  lemma PageAdvances(h: Host, incarnation: nat, page: Page, x: Id)
    requires Fenced(h) && incarnation in h.pages && page.generation >= h.pages[incarnation].generation
    ensures Fenced(WithPage(h, incarnation, page)) && Advances(x, h, WithPage(h, incarnation, page))
  {
    var g := WithPage(h, incarnation, page);
    forall y | y in g.calls && g.calls[y].phase.Restoring? ensures RestoringOk(g, y, g.calls[y].phase.incarnation) {
      assert RestoringOk(h, y, h.calls[y].phase.incarnation);
    }
  }

  lemma {:induction false} HideOthersAdvances(h: Host, others: seq<Id>, x: Id)
    requires Fenced(h)
    ensures var g := HideOthers(h, others); Fenced(g) && Advances(x, h, g) && g.runtimes == h.runtimes
    decreases |others|
  {
    if others != [] {
      var h1 := WithVisible(h, others[0], false);
      if others[0] in h.runtimes {
        PageAdvances(h, h.runtimes[others[0]], h.pages[h.runtimes[others[0]]].(visible := false), x);
      }
      var h2 := Protect(h1, others[0], Visible, false);
      Elsewhere(h1, h2);
      HideOthersAdvances(h2, others[1..], x);
    }
  }

  lemma PresentAdvances(h: Host, id: Id, others: seq<Id>, x: Id)
    requires Fenced(h)
    ensures var g := Present(h, id, others); Fenced(g) && Advances(x, h, g) && g.runtimes == h.runtimes
  {
    HideOthersAdvances(h, others, x);
    var h1 := HideOthers(h, others);
    var h2 := WithVisible(h1, id, true);
    if id in h1.runtimes { PageAdvances(h1, h1.runtimes[id], h1.pages[h1.runtimes[id]].(visible := true), x); }
    Elsewhere(h2, Protect(h2, id, Visible, true));
  }

  lemma FreezeAdvances(h: Host, id: Id, x: Id)
    requires Fenced(h)
    ensures Fenced(Freeze(h, id)) && Advances(x, h, Freeze(h, id))
  {
    if id in h.records {
      if id in h.runtimes { TeardownReleased(h, id, x); } else { Elsewhere(h, Release(h, id)); }
    }
  }

  lemma TeardownReleased(h: Host, id: Id, x: Id)
    requires Fenced(h) && id in h.runtimes
    ensures var g := Release(TornDown(h, id, h.runtimes[id]), id); Fenced(g) && Advances(x, h, g)
  {
    ServingPage(h, id);
    TornDownAdvances(h, id, h.runtimes[id], x);
    var t := TornDown(h, id, h.runtimes[id]);
    Elsewhere(t, Release(t, id));
  }

  lemma RestoreFailedAdvances(h: Host, id: Id, incarnation: nat, x: Id)
    requires Fenced(Left(h, id)) && RestoringOk(Left(h, id), id, incarnation)
    ensures var g := RestoreFailed(h, id, incarnation); Fenced(g) && Advances(x, Left(h, id), g)
  {
    TornDownAdvances(Left(h, id), id, incarnation, x);
    Elsewhere(TornDown(Left(h, id), id, incarnation), RestoreFailed(h, id, incarnation));
  }

  /** A new page starts at its browser's tombstone. */
  lemma MakeRuntimeAdvances(h: Host, id: Id, now: int, calls: map<Id, Call>, x: Id)
    requires Fenced(h) && id in h.calls && h.calls[id].phase.Awaiting?
    requires calls == h.calls - {id} || calls == h.calls[id := h.calls[id].(phase := Restoring(h.incarnations))]
    ensures var g := MakeRuntime(h, id, now).(calls := calls);
      Fenced(g) && Advances(x, h, g) && RestoringOk(g, id, h.incarnations)
  {
    var g := MakeRuntime(h, id, now).(calls := calls);
    NewPageOk(h, id, now, calls);
    NewPageReported(h, id, now, x);
    forall y | y in g.calls && g.calls[y].phase.Restoring? && y != id
      ensures RestoringOk(g, y, g.calls[y].phase.incarnation)
    {
      OldPageOk(h, id, now, calls, y);
    }
  }

  lemma NewPageReported(h: Host, id: Id, now: int, x: Id)
    requires Fenced(h) && id !in h.runtimes
    ensures Advances(x, h, MakeRuntime(h, id, now))
  {
  }

  /** The new page belongs to its browser alone. */
  lemma NewPageOk(h: Host, id: Id, now: int, calls: map<Id, Call>)
    requires Fenced(h) && forall y :: y in calls && y != id ==> y in h.calls && calls[y] == h.calls[y]
    ensures RestoringOk(MakeRuntime(h, id, now).(calls := calls), id, h.incarnations)
  {
    forall y | y in calls && calls[y].phase == Restoring(h.incarnations) ensures y == id {
      assert y != id ==> RestoringOk(h, y, h.incarnations);
    }
  }

  lemma OldPageOk(h: Host, id: Id, now: int, calls: map<Id, Call>, y: Id)
    requires Fenced(h) && id in h.calls && h.calls[id].phase.Awaiting?
    requires calls == h.calls - {id} || calls == h.calls[id := h.calls[id].(phase := Restoring(h.incarnations))]
    requires y != id && y in calls && calls[y].phase.Restoring?
    ensures RestoringOk(MakeRuntime(h, id, now).(calls := calls), y, calls[y].phase.incarnation)
  {
    assert RestoringOk(h, y, h.calls[y].phase.incarnation);
  }

  lemma FailedFenced(h: Host, id: Id, x: Id)
    requires Fenced(h) && id in h.calls
    ensures Fenced(Failed(h, id)) && Advances(x, h, Failed(h, id))
  {
    LeftFenced(h, id);
    Elsewhere(Left(h, id), Failed(h, id));
  }

  /** An opening that makes its page: it ends well, or a page call throws. */
  lemma OpeningAdvances(h: Host, id: Id, now: int, visible: bool, others: seq<Id>, x: Id)
    requires Fenced(h) && IsAwaiting(h, id)
    ensures var l := Left(MakeRuntime(h, id, now), id);
      var p := Settle(if visible then Present(l, id, others) else l, id); Fenced(p) && Advances(x, h, p)
  {
    var l := Left(MakeRuntime(h, id, now), id);
    MakeRuntimeAdvances(h, id, now, h.calls - {id}, x);
    PresentAdvances(l, id, others, x);
    var p := if visible then Present(l, id, others) else l;
    Elsewhere(p, Settle(p, id));
  }

  lemma OpeningFailedAdvances(h: Host, id: Id, now: int, visible: bool, others: seq<Id>, call: nat, x: Id)
    requires Fenced(h) && IsAwaiting(h, id)
    ensures var f := PresentFailed(MakeRuntime(h, id, now), id, visible, others, call); Fenced(f) && Advances(x, h, f)
  {
    var l := Left(MakeRuntime(h, id, now), id);
    MakeRuntimeAdvances(h, id, now, h.calls - {id}, x);
    HideOthersAdvances(l, Upto(others, call), x);
    HiddenPages(MakeRuntime(h, id, now), id, Upto(others, call));
    Elsewhere(if visible then HideOthers(l, Upto(others, call)) else l,
      PresentFailed(MakeRuntime(h, id, now), id, visible, others, call));
  }

  /** Hiding does not depend on the calls under way. */
  lemma {:induction false} HiddenPages(h: Host, id: Id, others: seq<Id>)
    ensures HideOthers(Left(h, id), others) == Left(HideOthers(h, others), id)
    decreases |others|
  {
    if others != [] {
      var h1 := WithVisible(h, others[0], false);
      assert WithVisible(Left(h, id), others[0], false) == Left(h1, id);
      HiddenPages(Protect(h1, others[0], Visible, false), id, others[1..]);
    }
  }

  lemma ThawingAdvances(h: Host, id: Id, now: int, x: Id)
    requires Fenced(h) && IsAwaiting(h, id)
    ensures var g := MakeRuntime(h, id, now).(calls := h.calls[id := h.calls[id].(phase := Restoring(h.incarnations))]);
      Fenced(g) && Advances(x, h, g)
    ensures var g := RestoreFailed(MakeRuntime(h, id, now), id, h.incarnations); Fenced(g) && Advances(x, h, g)
  {
    MakeRuntimeAdvances(h, id, now, h.calls[id := h.calls[id].(phase := Restoring(h.incarnations))], x);
    MakeRuntimeAdvances(h, id, now, h.calls - {id}, x);
    RestoreFailedAdvances(MakeRuntime(h, id, now), id, h.incarnations, x);
  }

  lemma ResumedAdvances(h: Host, id: Id, now: int, loads: bool, others: seq<Id>, fault: Fault, x: Id)
    requires Fenced(h) && IsAwaiting(h, id)
    ensures var g := Resumed(h, id, now, loads, others, fault); Fenced(g) && Advances(x, h, g)
  {
    HP.ResumedForms(h, id, now, loads, others, fault);
    if fault.CreateThrows? {
      FailedFenced(h, id, x);
    } else if id !in h.records {
      Elsewhere(h, h.(leaked := h.leaked + 1));
      FailedFenced(h.(leaked := h.leaked + 1), id, x);
    } else {
      match h.calls[id].kind
      case Opening(visible) =>
        if fault.CallThrows? { OpeningFailedAdvances(h, id, now, visible, others, fault.call, x); }
        else { OpeningAdvances(h, id, now, visible, others, x); }
      case Thawing => ThawingAdvances(h, id, now, x);
    }
  }

  lemma FreezeVictimAdvances(h: Host, id: Id, victim: Id, x: Id)
    requires Fenced(h)
    ensures Fenced(FreezeVictim(h, id, victim)) && Advances(x, h, FreezeVictim(h, id, victim))
  {
    var m := h.(cap := MarkAdmissionVictimFrozen(h.cap, id));
    Elsewhere(h, m);
    FreezeAdvances(m, victim, x);
  }

  lemma ResumedAfter(h: Host, h1: Host, id: Id, now: int, loads: bool, others: seq<Id>, fault: Fault, x: Id)
    requires Fenced(h1) && Advances(x, h, h1) && id in h1.calls && h1.calls[id].phase.Awaiting?
    ensures var g := Resumed(h1, id, now, loads, others, fault); Fenced(g) && Advances(x, h, g)
  {
    ResumedAdvances(h1, id, now, loads, others, fault, x);
    AdvancesTwice(x, h, h1, Resumed(h1, id, now, loads, others, fault));
  }

  lemma AdvancesTwice(x: Id, h: Host, g: Host, f: Host)
    requires Advances(x, h, g) && Advances(x, g, f)
    ensures Advances(x, h, f)
  {
  }

  lemma ResumeAdvances(h: Host, id: Id, ok: bool, now: int, loads: bool, others: seq<Id>, fault: Fault, x: Id)
    requires Fenced(h)
    ensures var g := Resume(h, id, ok, now, loads, others, fault); Fenced(g) && Advances(x, h, g)
  {
    if IsAwaiting(h, id) && h.calls[id].promise in h.cap.settled {
      if !ok || !IsGranted(h, id) {
        FailedFenced(h, id, x);
      } else {
        var grant := GrantOf(h, id);
        if grant.Some? {
          FreezeVictimAdvances(h, id, grant.value, x);
          ResumedAfter(h, FreezeVictim(h, id, grant.value), id, now, loads, others, fault, x);
        } else {
          ResumedAdvances(h, id, now, loads, others, fault, x);
        }
      }
    }
  }

  lemma RestoredAdvances(h: Host, id: Id, ok: bool, x: Id)
    requires Fenced(h)
    ensures var g := H.Restored(h, id, ok); Fenced(g) && Advances(x, h, g)
  {
    if id in h.calls && h.calls[id].phase.Restoring? {
      LeftRestoring(h, id);
      if ok && id in h.records {
        Elsewhere(Left(h, id), Settle(Left(h, id), id));
      } else {
        RestoreFailedAdvances(h, id, h.calls[id].phase.incarnation, x);
      }
    }
  }

  lemma LeftRestoring(h: Host, id: Id)
    requires Fenced(h) && id in h.calls && h.calls[id].phase.Restoring?
    ensures Fenced(Left(h, id)) && RestoringOk(Left(h, id), id, h.calls[id].phase.incarnation)
  {
    LeftFenced(h, id);
    assert RestoringOk(h, id, h.calls[id].phase.incarnation);
  }

  lemma OnPageAdvances(h: Host, id: Id, incarnation: nat, event: PageEvent, x: Id)
    requires Fenced(h)
    ensures var g := OnPage(h, id, incarnation, event); Fenced(g) && Advances(x, h, g)
  {
    if Serves(h, id, incarnation) && (id in h.records || event.UserInput?) {
      var g := OnPage(h, id, incarnation, event);
      if event.Crashed? || (event.NavigationCommitted? && !event.allowed) {
        TeardownReleased(h, id, x);
      } else {
        PageAdvances(h, incarnation, g.pages[incarnation], x);
      }
    }
  }

  lemma CloseFences(h: Host, id: Id, x: Id)
    requires Fenced(h) && x != id
    ensures Fenced(Close(h, id)) && Advances(x, h, Close(h, id))
  {
    if id in h.records {
      WithoutPage(h, id, x);
      Elsewhere(h.(runtimes := h.runtimes - {id}), Close(h, id));
    }
  }

  lemma WithoutPage(h: Host, id: Id, x: Id)
    requires Fenced(h) && x != id
    ensures var t := h.(runtimes := h.runtimes - {id}); Fenced(t) && Advances(x, h, t)
  {
    var t := h.(runtimes := h.runtimes - {id});
    forall y | y in t.calls && t.calls[y].phase.Restoring? ensures RestoringOk(t, y, t.calls[y].phase.incarnation) {
      assert RestoringOk(h, y, h.calls[y].phase.incarnation);
    }
  }

  lemma BeginFences(h: Host, id: Id, now: int, kind: Kind, aborted: bool)
    requires Fenced(h) && id !in h.calls && id !in h.runtimes
    ensures Fenced(Begin(h, id, now, kind, aborted)) && SamePages(h, Begin(h, id, now, kind, aborted))
  {
    var g := Begin(h, id, now, kind, aborted);
    forall y | y in g.calls && g.calls[y].phase.Restoring? ensures RestoringOk(g, y, g.calls[y].phase.incarnation) {
      assert RestoringOk(h, y, h.calls[y].phase.incarnation);
    }
  }

  /** What fencing relies on: the host is called in order, and `x` itself is not closed. */
  ghost predicate Orderly(x: Id, h: Host, e: H.Event) {
    Ordered(h, e) && !(e.CloseE? && e.id == x)
  }

  lemma ShowAdvances(h: Host, id: Id, now: int, others: seq<Id>, x: Id)
    requires Fenced(h)
    ensures Fenced(Show(h, id, now, others)) && Advances(x, h, Show(h, id, now, others))
  {
    if id in h.records && id in h.runtimes {
      PresentAdvances(h, id, others, x);
      Elsewhere(Present(h, id, others), Show(h, id, now, others));
    }
  }

  lemma HideAdvances(h: Host, id: Id, x: Id)
    requires Fenced(h)
    ensures Fenced(Hide(h, id)) && Advances(x, h, Hide(h, id))
  {
    if id in h.records {
      var h1 := WithVisible(h, id, false);
      if id in h.runtimes { PageAdvances(h, h.runtimes[id], h.pages[h.runtimes[id]].(visible := false), x); }
      Elsewhere(h1, Hide(h, id));
    }
  }

  lemma OpenAdvances(h: Host, id: Id, now: int, visible: bool, aborted: bool, x: Id)
    requires Fenced(h) && id !in h.calls && id !in h.runtimes
    ensures var g := Open(h, id, now, visible, aborted); Fenced(g) && Advances(x, h, g)
  {
    var h1 := h.(records := h.records + {id});
    Elsewhere(h, h1);
    BeginFences(h1, id, now, Opening(visible), aborted);
  }

  lemma ThawAdvances(h: Host, id: Id, now: int, aborted: bool, x: Id)
    requires Fenced(h) && id !in h.calls
    ensures var g := Thaw(h, id, now, aborted); Fenced(g) && Advances(x, h, g)
  {
    if id in h.records && id !in h.runtimes { BeginFences(h, id, now, Thawing, aborted); }
  }

  lemma QuarantineAdvances(h: Host, id: Id, incarnation: nat, x: Id)
    requires Fenced(h)
    ensures var g := Quarantine(h, id, incarnation); Fenced(g) && Advances(x, h, g)
  {
    if id in h.records && id in h.runtimes && h.runtimes[id] == incarnation { TeardownReleased(h, id, x); }
  }

  lemma ActAdvances(h: Host, id: Id, incarnation: nat, generation: nat, command: Command, x: Id)
    requires Fenced(h)
    ensures var g := Act(h, id, incarnation, generation, command); Fenced(g) && Advances(x, h, g)
  {
    if Accepts(h, id, incarnation, generation) {
      PageAdvances(h, incarnation, Act(h, id, incarnation, generation, command).pages[incarnation], x);
    }
  }

  lemma ActivationAdvances(h: Host, e: H.Event, x: Id)
    requires Fenced(h) && Ordered(h, e) && (e.OpenE? || e.ThawE? || e.ResumeE? || e.RestoredE?)
    ensures Fenced(H.Step(h, e)) && Advances(x, h, H.Step(h, e))
  {
    if e.OpenE? {
      OpenAdvances(h, e.id, e.now, e.visible, e.aborted, x);
    } else if e.ThawE? {
      ThawAdvances(h, e.id, e.now, e.aborted, x);
    } else if e.ResumeE? {
      ResumeAdvances(h, e.id, e.ok, e.now, e.loads, e.others, e.fault, x);
    } else {
      RestoredAdvances(h, e.id, e.ok, x);
    }
  }

  lemma CommandAdvances(h: Host, e: H.Event, x: Id)
    requires Fenced(h) && (e.PageE? || e.ActE?)
    ensures Fenced(H.Step(h, e)) && Advances(x, h, H.Step(h, e))
  {
    if e.PageE? {
      OnPageAdvances(h, e.id, e.incarnation, e.event, x);
    } else {
      ActAdvances(h, e.id, e.incarnation, e.generation, e.command, x);
    }
  }

  lemma RemovalAdvances(h: Host, e: H.Event, x: Id)
    requires Fenced(h) && (e.FreezeE? || e.QuarantineE? || (e.CloseE? && e.id != x))
    ensures Fenced(H.Step(h, e)) && Advances(x, h, H.Step(h, e))
  {
    if e.FreezeE? {
      FreezeAdvances(h, e.id, x);
    } else if e.QuarantineE? {
      QuarantineAdvances(h, e.id, e.incarnation, x);
    } else {
      CloseFences(h, e.id, x);
    }
  }

  lemma StepAdvances(h: Host, e: H.Event, x: Id)
    requires Fenced(h) && Orderly(x, h, e)
    ensures Fenced(H.Step(h, e)) && Advances(x, h, H.Step(h, e))
  {
    if e.OpenE? || e.ThawE? || e.ResumeE? || e.RestoredE? {
      ActivationAdvances(h, e, x);
    } else if e.PageE? || e.ActE? {
      CommandAdvances(h, e, x);
    } else if e.FreezeE? || e.QuarantineE? || e.CloseE? {
      RemovalAdvances(h, e, x);
    } else if e.ShowE? {
      ShowAdvances(h, e.id, e.now, e.others, x);
    } else if e.HideE? {
      HideAdvances(h, e.id, x);
    } else {
      Elsewhere(h, H.Step(h, e));
    }
  }

  /** Over any run that does not close `x`, its reported generation never decreases, and it has
      strictly increased if the page that served it at the start no longer does. */
  lemma RunAdvances(h: Host, x: Id, events: seq<H.Event>)
    requires Fenced(h) && Runs.Legal((g, e) => Orderly(x, g, e), H.Step, h, events)
    ensures Fenced(Runs.After(H.Step, h, events)) && Advances(x, h, Runs.After(H.Step, h, events))
  {
    var allowed := (g: Host, e: H.Event) => Orderly(x, g, e);
    var rel := (g: Host, f: Host) => Advances(x, g, f);
    forall g, e | Fenced(g) && allowed(g, e) ensures Fenced(H.Step(g, e)) && rel(g, H.Step(g, e)) {
      StepAdvances(g, e, x);
    }
    Runs.Invariant(Fenced, allowed, H.Step, h, events);
    Runs.Relates(Fenced, rel, allowed, H.Step, h, events);
  }

  /** Fencing outlasts every orderly step, a close of any browser included. */
  lemma StepFenced(h: Host, e: H.Event)
    requires Fenced(h) && Ordered(h, e)
    ensures Fenced(H.Step(h, e))
  {
    StepAdvances(h, e, if e.CloseE? then e.id + 1 else 0);
  }

  lemma AlwaysFenced(maxLive: nat, maxQueue: nat, records: set<Id>, events: seq<H.Event>)
    requires Runs.Legal(Ordered, H.Step, H.Empty(maxLive, maxQueue, records), events)
    ensures Fenced(Runs.After(H.Step, H.Empty(maxLive, maxQueue, records), events))
  {
    forall g, e | Fenced(g) && Ordered(g, e) ensures Fenced(H.Step(g, e)) {
      StepFenced(g, e);
    }
    Runs.Invariant(Fenced, Ordered, H.Step, H.Empty(maxLive, maxQueue, records), events);
  }

  /** A lease accepted in any reachable state before a teardown of its page is never accepted again
      while its browser is not closed, whichever page it names. */
  lemma LeaseFenced(maxLive: nat, maxQueue: nat, records: set<Id>, before: seq<H.Event>, after: seq<H.Event>,
                    x: Id, incarnation: nat, generation: nat, other: nat)
    requires Runs.Legal(Ordered, H.Step, H.Empty(maxLive, maxQueue, records), before)
    requires var h := Runs.After(H.Step, H.Empty(maxLive, maxQueue, records), before);
      Accepts(h, x, incarnation, generation) && Runs.Legal((g, e) => Orderly(x, g, e), H.Step, h, after)
    ensures var h := Runs.After(H.Step, H.Empty(maxLive, maxQueue, records), before);
      var g := Runs.After(H.Step, h, after);
      !Serves(g, x, incarnation) ==> Reported(g, x) > generation && !Accepts(g, x, other, generation)
  {
    AlwaysFenced(maxLive, maxQueue, records, before);
    RunAdvances(Runs.After(H.Step, H.Empty(maxLive, maxQueue, records), before), x, after);
  }
}
