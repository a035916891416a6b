/** What each event does to one browser's page: which events advance its generation, so that a lease is
    used up, and which do not. */
module HostLaws {
  import opened Wrappers
  import opened Capacity
  import opened H = Host
  import opened HostFencing
  import HP = HostProofs
  import Runs

  // ---------- Which events advance a generation ----------

  /** What its page reports to browser `x` advances its generation. */
  predicate PageBumps(h: Host, x: Id, incarnation: nat, event: PageEvent) {
    && Serves(h, x, incarnation)
    && (event.UserInput? || (x in h.records &&
         match event
         case UserInput => true
         case Dialog => true
         case Crashed => true
         case LoadingStopped => false
         case NavigationStarted => !h.pages[incarnation].navigationPending && !h.pages[incarnation].loading
         case NavigationCommitted(inPage, allowed) => !allowed || (inPage && !h.pages[incarnation].loading)))
  }

  /** The events after which no earlier lease on `x` is good any more: an accepted command, input of the
      user, a dialog, a navigation that begins on its own, and the end of a page. */
  ghost predicate Bumps(h: Host, e: H.Event, x: Id) {
    match e
    case PageE(id, incarnation, event) => id == x && PageBumps(h, x, incarnation, event)
    case ActE(id, incarnation, generation, _) => id == x && Accepts(h, x, incarnation, generation)
    case FreezeE(id) => id == x && x in h.records && x in h.runtimes
    case QuarantineE(id, incarnation) => id == x && x in h.records && x in h.runtimes && h.runtimes[x] == incarnation
    case ResumeE(id, ok, _, loads, _, fault) =>
      ok && IsGranted(h, id) &&
        ((GrantOf(h, id) == Some(x) && x in h.records && x in h.runtimes)
         || (id == x && x in h.records && h.calls[x].kind.Thawing? && !loads && !fault.CreateThrows?))
    case RestoredE(id, ok) => id == x && x in h.calls && h.calls[x].phase.Restoring? && !(ok && x in h.records)
    case _ => false
  }

  ghost predicate Steady(x: Id, h: Host, g: Host) {
    Reported(g, x) == Reported(h, x)
  }

  // ---------- Nothing else does ----------

  lemma {:induction false} HideOthersSteady(h: Host, others: seq<Id>, x: Id)
    ensures Steady(x, h, HideOthers(h, others))
    decreases |others|
  {
    if others != [] {
      HideOthersSteady(Protect(WithVisible(h, others[0], false), others[0], Visible, false), others[1..], x);
    }
  }

  lemma PresentSteady(h: Host, id: Id, others: seq<Id>, x: Id)
    ensures Steady(x, h, Present(h, id, others))
  {
    HideOthersSteady(h, others, x);
  }

  lemma PresentFailedSteady(h: Host, id: Id, visible: bool, others: seq<Id>, call: nat, x: Id)
    requires id in h.calls
    ensures Steady(x, h, PresentFailed(h, id, visible, others, call))
  {
    HideOthersSteady(h, Upto(others, call), x);
  }

  lemma MakeRuntimeSteady(h: Host, id: Id, now: int, x: Id)
    requires Fenced(h) && id !in h.runtimes
    ensures Steady(x, h, MakeRuntime(h, id, now))
  {
  }

  /** A page that leaves moves its browser's generation on by one, and no other's. */
  lemma TornDownReports(h: Host, id: Id, x: Id)
    requires Fenced(h) && id in h.runtimes
    ensures Reported(TornDown(h, id, h.runtimes[id]), x) == Reported(h, x) + if x == id then 1 else 0
  {
  }

  lemma FreezeReports(h: Host, id: Id, x: Id)
    requires Fenced(h)
    ensures Reported(Freeze(h, id), x)
      == Reported(h, x) + if x == id && id in h.records && id in h.runtimes then 1 else 0
  {
    if id in h.runtimes { TornDownReports(h, id, x); }
  }

  lemma ResumedReports(h: Host, id: Id, now: int, loads: bool, others: seq<Id>, fault: Fault, x: Id)
    requires Fenced(h) && IsAwaiting(h, id)
    ensures Reported(Resumed(h, id, now, loads, others, fault), x) == Reported(h, x)
      + if x == id && id in h.records && h.calls[id].kind.Thawing? && !loads && !fault.CreateThrows? then 1 else 0
  {
    HP.ResumedForms(h, id, now, loads, others, fault);
    if !fault.CreateThrows? && id in h.records {
      var h2 := MakeRuntime(h, id, now);
      MakeRuntimeSteady(h, id, now, x);
      if h.calls[id].kind.Opening? {
        PresentSteady(Left(h2, id), id, others, x);
        if fault.CallThrows? { PresentFailedSteady(h2, id, h.calls[id].kind.visible, others, fault.call, x); }
      } else if !loads {
        MadeAndDropped(h, id, now, x);
      }
    }
  }

  lemma MadeAndDropped(h: Host, id: Id, now: int, x: Id)
    requires Fenced(h) && IsAwaiting(h, id)
    ensures Reported(RestoreFailed(MakeRuntime(h, id, now), id, h.incarnations), x)
      == Reported(h, x) + if x == id then 1 else 0
  {
    MakeRuntimeAdvances(h, id, now, h.calls - {id}, x);
    MakeRuntimeSteady(h, id, now, x);
    TornDownReports(Left(MakeRuntime(h, id, now), id), id, x);
  }

  /** The page whose load failed goes, whether or not it is still in the table. */
  lemma DroppedReports(h: Host, id: Id, incarnation: nat, x: Id)
    requires RestoringOk(h, id, incarnation)
    ensures var g := TornDown(h, id, incarnation);
      if x == id then Reported(g, x) > Reported(h, x) else Steady(x, h, g)
  {
  }

  lemma RestoredReports(h: Host, id: Id, ok: bool, x: Id)
    requires Fenced(h)
    ensures var g := H.Restored(h, id, ok);
      if Bumps(h, RestoredE(id, ok), x) then Reported(g, x) > Reported(h, x) else Steady(x, h, g)
  {
    if id in h.calls && h.calls[id].phase.Restoring? {
      if ok && id in h.records {
        KeptReports(h, id, x);
      } else {
        LeftRestoring(h, id);
        TakenBackReports(h, id, h.calls[id].phase.incarnation, x);
      }
    }
  }

  lemma KeptReports(h: Host, id: Id, x: Id)
    ensures Steady(x, h, Settle(Left(h, id), id))
  {
  }

  /** The end of an activation touches the capacity only. */
  lemma EndedReports(t: Host, id: Id, x: Id)
    ensures Steady(x, t, Settle(Release(t, id), id))
  {
  }

  lemma TakenBackReports(h: Host, id: Id, incarnation: nat, x: Id)
    requires RestoringOk(Left(h, id), id, incarnation)
    ensures var g := RestoreFailed(h, id, incarnation);
      if x == id then Reported(g, x) > Reported(h, x) else Steady(x, h, g)
  {
    var t := TornDown(Left(h, id), id, incarnation);
    DroppedReports(Left(h, id), id, incarnation, x);
    EndedReports(t, id, x);
    LeftReports(h, id, x);
  }

  lemma LeftReports(h: Host, id: Id, x: Id)
    ensures Steady(x, h, Left(h, id))
  {
  }

  lemma ResumeReports(h: Host, e: H.Event, x: Id)
    requires Fenced(h) && e.ResumeE?
    ensures Reported(H.Step(h, e), x) == Reported(h, x) + if Bumps(h, e, x) then 1 else 0
  {
    if e.ok && IsGranted(h, e.id) {
      GrantedReports(h, e, x);
    }
  }

  lemma GrantedReports(h: Host, e: H.Event, x: Id)
    requires Fenced(h) && e.ResumeE? && e.ok && IsGranted(h, e.id)
    ensures Reported(H.Step(h, e), x) == Reported(h, x) + if Bumps(h, e, x) then 1 else 0
  {
    var id := e.id;
    if GrantOf(h, id).Some? {
      var v := GrantOf(h, id).value;
      VictimReports(h, id, v, x);
      ResumedReports(FreezeVictim(h, id, v), id, e.now, e.loads, e.others, e.fault, x);
    } else {
      ResumedReports(h, id, e.now, e.loads, e.others, e.fault, x);
    }
  }

  lemma VictimReports(h: Host, id: Id, v: Id, x: Id)
    requires Fenced(h) && IsAwaiting(h, id)
    ensures var g := FreezeVictim(h, id, v);
      && Fenced(g) && g.calls == h.calls && g.records == h.records
      && Reported(g, x) == Reported(h, x) + if x == v && v in h.records && v in h.runtimes then 1 else 0
  {
    var m := h.(cap := MarkAdmissionVictimFrozen(h.cap, id));
    Elsewhere(h, m);
    FreezeReports(m, v, x);
    FreezeVictimAdvances(h, id, v, x);
    VictimElsewhere(h, id, v);
  }

  lemma VictimElsewhere(h: Host, id: Id, v: Id)
    ensures var g := FreezeVictim(h, id, v); g.calls == h.calls && g.records == h.records
  {
  }

  lemma PageReports(h: Host, id: Id, incarnation: nat, event: PageEvent, x: Id)
    requires Fenced(h)
    ensures Reported(OnPage(h, id, incarnation, event), x)
      == Reported(h, x) + if Bumps(h, PageE(id, incarnation, event), x) then 1 else 0
  {
    if event.Crashed? || (event.NavigationCommitted? && !event.allowed) {
      if Serves(h, id, incarnation) && id in h.records {
        TornDownReports(h, id, x);
        ReleasedReports(TornDown(h, id, incarnation), id, x);
      }
    } else {
      PageBumpReports(h, id, incarnation, event, x);
    }
  }

  lemma ReleasedReports(t: Host, id: Id, x: Id)
    ensures Steady(x, t, Release(t, id))
  {
  }

  lemma PageBumpReports(h: Host, id: Id, incarnation: nat, event: PageEvent, x: Id)
    requires Fenced(h) && !event.Crashed? && (event.NavigationCommitted? ==> event.allowed)
    ensures Reported(OnPage(h, id, incarnation, event), x)
      == Reported(h, x) + if Bumps(h, PageE(id, incarnation, event), x) then 1 else 0
  {
  }

  lemma PlainReports(h: Host, e: H.Event, x: Id)
    requires Fenced(h) && Orderly(x, h, e)
    requires e.OpenE? || e.ThawE? || e.CloseE? || e.ShowE? || e.HideE? || e.ProtectE? || e.WaiterE?
    ensures Steady(x, h, H.Step(h, e))
  {
    if e.ShowE? { PresentSteady(h, e.id, e.others, x); }
  }

  /** What any event does to the generation that `x` reports: it is one higher after those that use up
      a lease, and otherwise the same.  (A page whose load failed may have left the table before.) */
  lemma GenerationLaw(h: Host, e: H.Event, x: Id)
    requires Fenced(h) && Orderly(x, h, e)
    ensures var before, after := Reported(h, x), Reported(H.Step(h, e), x);
      if !Bumps(h, e, x) then after == before else if e.RestoredE? then after > before else after == before + 1
  {
    if e.ResumeE? {
      ResumeReports(h, e, x);
    } else if e.RestoredE? {
      RestoredReports(h, e.id, e.ok, x);
    } else if e.PageE? {
      PageReports(h, e.id, e.incarnation, e.event, x);
    } else if e.ActE? {
    } else if e.FreezeE? {
      FreezeReports(h, e.id, x);
    } else if e.QuarantineE? {
      if e.id in h.runtimes { TornDownReports(h, e.id, x); }
    } else {
      PlainReports(h, e, x);
    }
  }

  // ---------- A lease is good for one command ----------

  /** A lease that was good before such an event is never good again while its browser is not closed,
      whichever page it names. */
  lemma LeaseUsedUp(h: Host, e: H.Event, x: Id, incarnation: nat, generation: nat, events: seq<H.Event>, other: nat)
    requires Fenced(h) && Orderly(x, h, e) && Bumps(h, e, x) && Accepts(h, x, incarnation, generation)
    requires Runs.Legal((g, d) => Orderly(x, g, d), H.Step, H.Step(h, e), events)
    ensures !Accepts(Runs.After(H.Step, H.Step(h, e), events), x, other, generation)
  {
    GenerationLaw(h, e, x);
    StepAdvances(h, e, x);
    RunAdvances(H.Step(h, e), x, events);
  }

  /** Over every run that does not close `x`, a lease is accepted by at most one command. */
  lemma LeaseOnce(h: Host, x: Id, events: seq<H.Event>, i: nat, j: nat)
    requires Fenced(h) && Runs.Legal((g, d) => Orderly(x, g, d), H.Step, h, events) && i < j < |events|
    requires events[i].ActE? && events[j].ActE? && events[i].id == events[j].id == x
    requires var g := Runs.After(H.Step, h, events[..i]); Accepts(g, x, events[i].incarnation, events[i].generation)
    requires var g := Runs.After(H.Step, h, events[..j]); Accepts(g, x, events[j].incarnation, events[j].generation)
    ensures events[i].generation < events[j].generation
  {
    var allowed := (g: Host, d: H.Event) => Orderly(x, g, d);
    Runs.Parts(allowed, H.Step, h, events, i);
    Runs.Parts(allowed, H.Step, h, events, j);
    var g := Runs.After(H.Step, h, events[..i]);
    RunAdvances(h, x, events[..i]);
    Runs.Between(allowed, H.Step, h, events, i, j);
    var between := events[i+1..j];
    GenerationLaw(g, events[i], x);
    StepAdvances(g, events[i], x);
    RunAdvances(H.Step(g, events[i]), x, between);
  }

  /** An accepted command hands out the next lease, and it is good. */
  lemma NextLease(h: Host, x: Id, incarnation: nat, generation: nat, command: Command)
    requires Accepts(h, x, incarnation, generation)
    ensures Accepts(H.Step(h, ActE(x, incarnation, generation, command)), x, incarnation, generation + 1)
  {
  }

  // ---------- A navigation ----------

  /** Whether the page of `x` is loading, and whether a reload is still to be noticed, after an event. */
  ghost predicate LoadingAfter(h: Host, e: H.Event, x: Id)
    requires x in h.runtimes && h.runtimes[x] in h.pages
  {
    var page := h.pages[h.runtimes[x]];
    match e
    case PageE(id, incarnation, event) =>
      if id == x && incarnation == h.runtimes[x] && x in h.records && !event.UserInput? && !event.Dialog?
      then event.NavigationStarted? else page.loading
    case ActE(id, incarnation, generation, command) =>
      page.loading || (id == x && Accepts(h, x, incarnation, generation) && command.Navigate?)
    case _ => page.loading
  }

  ghost predicate PendingAfter(h: Host, e: H.Event, x: Id)
    requires x in h.runtimes && h.runtimes[x] in h.pages
  {
    var page := h.pages[h.runtimes[x]];
    match e
    case PageE(id, incarnation, event) =>
      if id == x && incarnation == h.runtimes[x] && x in h.records && !event.UserInput? && !event.Dialog?
      then false else page.navigationPending
    case ActE(id, incarnation, generation, command) =>
      page.navigationPending || (id == x && Accepts(h, x, incarnation, generation) && command.Reload?)
    case _ => page.navigationPending
  }

  /** `g` has the pages of `h`, as far as their navigation goes. */
  predicate SameNavigation(h: Host, g: Host) {
    forall i :: i in h.pages ==>
      i in g.pages && g.pages[i].loading == h.pages[i].loading
      && g.pages[i].navigationPending == h.pages[i].navigationPending
  }

  lemma {:induction false} HideOthersNavigation(h: Host, others: seq<Id>)
    ensures SameNavigation(h, HideOthers(h, others))
    decreases |others|
  {
    if others != [] {
      HideOthersNavigation(Protect(WithVisible(h, others[0], false), others[0], Visible, false), others[1..]);
    }
  }

  lemma TornDownNavigation(h: Host, id: Id, incarnation: nat)
    ensures var g := TornDown(h, id, incarnation); SameNavigation(h, g) && g.pages.Keys == h.pages.Keys
  {
  }

  lemma ShownNavigation(l: Host, id: Id, others: seq<Id>)
    ensures SameNavigation(l, Settle(l, id)) && SameNavigation(l, Settle(Present(l, id, others), id))
  {
    HideOthersNavigation(l, others);
    assert SameNavigation(HideOthers(l, others), WithVisible(HideOthers(l, others), id, true));
  }

  lemma PresentFailedNavigation(h: Host, id: Id, visible: bool, others: seq<Id>, call: nat)
    requires id in h.calls
    ensures SameNavigation(h, PresentFailed(h, id, visible, others, call))
  {
    HideOthersNavigation(h, Upto(others, call));
  }

  lemma ResumedNavigation(h: Host, id: Id, now: int, loads: bool, others: seq<Id>, fault: Fault)
    requires id in h.calls && h.incarnations !in h.pages
    ensures SameNavigation(h, Resumed(h, id, now, loads, others, fault))
  {
    HP.ResumedForms(h, id, now, loads, others, fault);
    if !fault.CreateThrows? && id in h.records {
      var h2 := MakeRuntime(h, id, now);
      assert SameNavigation(h, h2) && SameNavigation(h2, Left(h2, id));
      if h.calls[id].kind.Opening? {
        ShownNavigation(Left(h2, id), id, others);
        if fault.CallThrows? { PresentFailedNavigation(h2, id, h.calls[id].kind.visible, others, fault.call); }
      } else if !loads {
        TornDownNavigation(Left(h2, id), id, h.incarnations);
      }
    }
  }

  lemma ResumeNavigation(h: Host, e: H.Event)
    requires Fenced(h) && e.ResumeE?
    ensures SameNavigation(h, H.Step(h, e))
  {
    var id := e.id;
    if e.ok && IsGranted(h, id) {
      if GrantOf(h, id).Some? {
        VictimNavigation(h, id, GrantOf(h, id).value);
        ResumedNavigation(FreezeVictim(h, id, GrantOf(h, id).value), id, e.now, e.loads, e.others, e.fault);
      } else {
        ResumedNavigation(h, id, e.now, e.loads, e.others, e.fault);
      }
    }
  }

  lemma VictimNavigation(h: Host, id: Id, v: Id)
    ensures var g := FreezeVictim(h, id, v);
      SameNavigation(h, g) && g.calls == h.calls && g.incarnations == h.incarnations && g.pages.Keys == h.pages.Keys
  {
    if v in h.runtimes { TornDownNavigation(h.(cap := MarkAdmissionVictimFrozen(h.cap, id)), v, h.runtimes[v]); }
  }

  lemma RemovalNavigation(h: Host, e: H.Event)
    requires e.RestoredE? || e.FreezeE? || e.QuarantineE? || e.CloseE?
    ensures SameNavigation(h, H.Step(h, e))
  {
    if e.RestoredE? && e.id in h.calls && h.calls[e.id].phase.Restoring? {
      TornDownNavigation(Left(h, e.id), e.id, h.calls[e.id].phase.incarnation);
    } else if e.FreezeE? && e.id in h.runtimes {
      TornDownNavigation(h, e.id, h.runtimes[e.id]);
    } else if e.QuarantineE? {
      TornDownNavigation(h, e.id, e.incarnation);
    }
  }

  lemma OtherNavigation(h: Host, e: H.Event)
    requires Fenced(h) && !e.PageE? && !e.ActE?
    ensures SameNavigation(h, H.Step(h, e))
  {
    if e.ResumeE? {
      ResumeNavigation(h, e);
    } else if e.RestoredE? || e.FreezeE? || e.QuarantineE? || e.CloseE? {
      RemovalNavigation(h, e);
    } else if e.ShowE? {
      HideOthersNavigation(h, e.others);
    }
  }

  predicate NavigationAfter(h: Host, g: Host, x: Id, loading: bool, pending: bool)
    requires x in h.runtimes
  {
    && h.runtimes[x] in g.pages
    && g.pages[h.runtimes[x]].loading == loading && g.pages[h.runtimes[x]].navigationPending == pending
  }

  /** How the navigation of a page that stays goes on. */
  lemma NavigationLaw(h: Host, e: H.Event, x: Id)
    requires Fenced(h) && x in h.runtimes
    requires x in H.Step(h, e).runtimes && H.Step(h, e).runtimes[x] == h.runtimes[x]
    ensures NavigationAfter(h, H.Step(h, e), x, LoadingAfter(h, e, x), PendingAfter(h, e, x))
  {
    if e.PageE? {
      PageNavigation(h, e.id, e.incarnation, e.event, x);
    } else if !e.ActE? {
      OtherNavigation(h, e);
    }
  }

  lemma PageNavigation(h: Host, id: Id, incarnation: nat, event: PageEvent, x: Id)
    requires Fenced(h) && x in h.runtimes
    requires x in OnPage(h, id, incarnation, event).runtimes
    ensures var e := PageE(id, incarnation, event);
      NavigationAfter(h, OnPage(h, id, incarnation, event), x, LoadingAfter(h, e, x), PendingAfter(h, e, x))
  {
    if event.Crashed? || (event.NavigationCommitted? && !event.allowed) {
      PageGone(h, id, incarnation, event, x);
    } else {
      PageStays(h, id, incarnation, event, x);
    }
  }

  lemma PageGone(h: Host, id: Id, incarnation: nat, event: PageEvent, x: Id)
    requires Fenced(h) && x in h.runtimes && (event.Crashed? || (event.NavigationCommitted? && !event.allowed))
    requires x in OnPage(h, id, incarnation, event).runtimes
    ensures var e := PageE(id, incarnation, event);
      NavigationAfter(h, OnPage(h, id, incarnation, event), x, LoadingAfter(h, e, x), PendingAfter(h, e, x))
  {
    if Serves(h, id, incarnation) && id in h.records {
      assert id != x;
      TornDownNavigation(h, id, incarnation);
    }
  }

  lemma PageStays(h: Host, id: Id, incarnation: nat, event: PageEvent, x: Id)
    requires Fenced(h) && x in h.runtimes && !event.Crashed? && (event.NavigationCommitted? ==> event.allowed)
    ensures var e := PageE(id, incarnation, event);
      NavigationAfter(h, OnPage(h, id, incarnation, event), x, LoadingAfter(h, e, x), PendingAfter(h, e, x))
  {
  }

  /** Nothing happens to `x` but that navigations start on its page. */
  ghost predicate OnlyStarts(x: Id, h: Host, e: H.Event) {
    && Orderly(x, h, e) && !(e.ActE? && e.id == x)
    && (if e.PageE? then e.id == x ==> e.event.NavigationStarted? else !Bumps(h, e, x))
  }

  /** A lease is good, and its page is known to be loading or about to. */
  predicate Expected(h: Host, x: Id, incarnation: nat, generation: nat) {
    && Accepts(h, x, incarnation, generation)
    && (h.pages[incarnation].loading || h.pages[incarnation].navigationPending)
  }

  lemma RecordStays(h: Host, e: H.Event, x: Id)
    requires Fenced(h) && Orderly(x, h, e) && x in h.records && x in h.runtimes
    ensures x in H.Step(h, e).records
  {
    if e.ResumeE? { ResumeRecords(h, e, x); }
  }

  lemma ResumeRecords(h: Host, e: H.Event, x: Id)
    requires e.ResumeE? && x in h.records && (IsAwaiting(h, x) ==> x != e.id)
    ensures x in H.Step(h, e).records
  {
    var id := e.id;
    if e.ok && IsGranted(h, id) {
      if GrantOf(h, id).Some? {
        VictimElsewhere(h, id, GrantOf(h, id).value);
        ResumedRecords(FreezeVictim(h, id, GrantOf(h, id).value), id, e.now, e.loads, e.others, e.fault, x);
      } else {
        ResumedRecords(h, id, e.now, e.loads, e.others, e.fault, x);
      }
    }
  }

  lemma ResumedRecords(h: Host, id: Id, now: int, loads: bool, others: seq<Id>, fault: Fault, x: Id)
    requires id in h.calls && x in h.records && x != id
    ensures x in Resumed(h, id, now, loads, others, fault).records
  {
    HP.ResumedForms(h, id, now, loads, others, fault);
  }

  lemma ExpectedStays(h: Host, e: H.Event, x: Id, incarnation: nat, generation: nat)
    requires Fenced(h) && OnlyStarts(x, h, e) && Expected(h, x, incarnation, generation)
    ensures Fenced(H.Step(h, e)) && Expected(H.Step(h, e), x, incarnation, generation)
  {
    StepAdvances(h, e, x);
    GenerationLaw(h, e, x);
    RecordStays(h, e, x);
    NavigationLaw(h, e, x);
  }

  /** The navigation that a command itself starts, with all its redirects, leaves the lease good that
      the command has handed out. */
  lemma OwnNavigationIsFree(h: Host, x: Id, incarnation: nat, generation: nat, command: Command, events: seq<H.Event>)
    requires Fenced(h) && Accepts(h, x, incarnation, generation) && !command.Other?
    requires Runs.Legal((g, e) => OnlyStarts(x, g, e), H.Step,
        H.Step(h, ActE(x, incarnation, generation, command)), events)
    ensures Accepts(Runs.After(H.Step, H.Step(h, ActE(x, incarnation, generation, command)), events),
      x, incarnation, generation + 1)
  {
    var e := ActE(x, incarnation, generation, command);
    StepAdvances(h, e, x);
    var inv := (g: Host) => Fenced(g) && Expected(g, x, incarnation, generation + 1);
    var allowed := (g: Host, d: H.Event) => OnlyStarts(x, g, d);
    forall g, d | inv(g) && allowed(g, d) ensures inv(H.Step(g, d)) {
      ExpectedStays(g, d, x, incarnation, generation + 1);
    }
    Runs.Invariant(inv, allowed, H.Step, H.Step(h, e), events);
  }
}
