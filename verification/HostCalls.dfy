/** What the host asks of its capacity, call by call, and so whom an activation may cost its page. */
module HostCalls {
  import opened Wrappers
  import opened Capacity
  import opened H = Host
  import opened HostFencing
  import opened HostSeen
  import opened HostTables
  import L = CapacityLaws
  import HP = HostProofs
  import Runs

  // ---------- The calls of an event ----------

  function Hides(others: seq<Id>): seq<Capacity.Event> {
    if others == [] then [] else [ProtectForE(others[0], Visible, false)] + Hides(others[1..])
  }

  function Shows(id: Id, others: seq<Id>): seq<Capacity.Event> {
    Hides(others) + [ProtectForE(id, Visible, true)]
  }

  /** An activation that fails. */
  function Undo(id: Id): seq<Capacity.Event> {
    [RollbackE(id), SettleE(id)]
  }

  /** A page that goes. */
  function Gone(id: Id): seq<Capacity.Event> {
    [MarkFrozenE(id)]
  }

  /** The victim of an activation goes before the new page is made. */
  function Evicts(h: Host, id: Id, victim: Option<Id>): seq<Capacity.Event> {
    if victim.None? then []
    else [VictimFrozenE(id)] + if victim.value in h.records then Gone(victim.value) else []
  }

  /** A granted activation goes on. */
  function Resumes(h: Host, id: Id, now: int, loads: bool, others: seq<Id>, fault: Fault): seq<Capacity.Event>
    requires id in h.calls
  {
    if fault.CreateThrows? || id !in h.records then Undo(id)
    else
      [MarkLiveE(id, now)] +
      match h.calls[id].kind
      case Opening(visible) =>
        if fault.CallThrows? then (if visible then Hides(Upto(others, fault.call)) else []) + Undo(id)
        else (if visible then Shows(id, others) else []) + [SettleE(id)]
      case Thawing => if loads then [] else Gone(id) + [SettleE(id)]
  }

  ghost function Calls(h: Host, e: H.Event): seq<Capacity.Event> {
    match e
    case OpenE(id, now, _, aborted) => [ActivateE(id, now, aborted)]
    case ThawE(id, now, aborted) => if id in h.records && id !in h.runtimes then [ActivateE(id, now, aborted)] else []
    case ResumeE(id, ok, now, loads, others, fault) =>
      if !GoesOn(h, e, id) then []
      else if !ok || !IsGranted(h, id) then Undo(id)
      else Evicts(h, id, GrantOf(h, id)) + Resumes(h, id, now, loads, others, fault)
    case RestoredE(id, ok) =>
      if id !in h.calls || !h.calls[id].phase.Restoring? then []
      else (if ok && id in h.records then [] else Gone(id)) + [SettleE(id)]
    case PageE(id, _, _) => if LosesPage(h, e, id) then Gone(id) else []
    case ActE(_, _, _, _) => []
    case FreezeE(id) => if id in h.records then Gone(id) else []
    case QuarantineE(id, _) => if LosesPage(h, e, id) then Gone(id) else []
    case CloseE(id) => if id in h.records then [CancelE(id)] + Gone(id) else []
    case ShowE(id, now, others) =>
      if id in h.records && id in h.runtimes then Shows(id, others) + [TouchE(id, now)] else []
    case HideE(id) => if id in h.records then [ProtectForE(id, Visible, false)] else []
    case ProtectE(id, reason, on) => [ProtectForE(id, reason, on)]
    case WaiterE(w, how) => [RejectE(w, how)]
  }

  ghost function After(c: Cap, calls: seq<Capacity.Event>): Cap {
    Runs.After(Capacity.Step, c, calls)
  }

  lemma One(c: Cap, e: Capacity.Event)
    ensures After(c, [e]) == Capacity.Step(c, e)
  {
    assert [e][1..] == [];
    var d := Capacity.Step(c, e);
    assert Runs.After(Capacity.Step, d, []) == d;
  }

  lemma Then(c: Cap, a: seq<Capacity.Event>, b: seq<Capacity.Event>)
    ensures After(c, a + b) == After(After(c, a), b)
  {
    Runs.Compose(Capacity.Step, c, a, b);
  }

  lemma {:induction false} HideCalls(h: Host, others: seq<Id>)
    ensures HideOthers(h, others).cap == After(h.cap, Hides(others))
    decreases |others|
  {
    if others != [] {
      var h1 := Protect(WithVisible(h, others[0], false), others[0], Visible, false);
      One(h.cap, ProtectForE(others[0], Visible, false));
      Then(h.cap, [ProtectForE(others[0], Visible, false)], Hides(others[1..]));
      HideCalls(h1, others[1..]);
    }
  }

  lemma ShowCalls(h: Host, id: Id, others: seq<Id>)
    ensures Present(h, id, others).cap == After(h.cap, Shows(id, others))
  {
    HideCalls(h, others);
    var c := HideOthers(h, others).cap;
    One(c, ProtectForE(id, Visible, true));
    Then(h.cap, Hides(others), [ProtectForE(id, Visible, true)]);
  }

  lemma UndoCalls(h: Host, id: Id)
    requires id in h.calls
    ensures Failed(h, id).cap == After(h.cap, Undo(id))
  {
    Runs.Two(Capacity.Step, h.cap, RollbackE(id), SettleE(id));
  }

  lemma GoneCalls(c: Cap, id: Id)
    ensures After(c, Gone(id) + [SettleE(id)]) == SettleActivation(MarkFrozen(c, id), id)
  {
    One(c, MarkFrozenE(id));
    One(MarkFrozen(c, id), SettleE(id));
    Then(c, Gone(id), [SettleE(id)]);
  }

  lemma TornDownCap(h: Host, id: Id, incarnation: nat)
    ensures TornDown(h, id, incarnation).cap == h.cap
  {
  }

  lemma ReleasedCap(h: Host, id: Id, incarnation: nat)
    ensures Release(TornDown(h, id, incarnation), id).cap == After(h.cap, Gone(id))
    ensures Release(h, id).cap == After(h.cap, Gone(id))
  {
    TornDownCap(h, id, incarnation);
    One(h.cap, MarkFrozenE(id));
  }

  lemma FreezeCalls(h: Host, e: H.Event)
    requires e.FreezeE? || e.QuarantineE?
    ensures H.Step(h, e).cap == After(h.cap, Calls(h, e))
  {
    if e.QuarantineE? {
      ReleasedCap(h, e.id, e.incarnation);
    } else if e.id in h.runtimes {
      ReleasedCap(h, e.id, h.runtimes[e.id]);
    } else {
      ReleasedCap(h, e.id, 0);
    }
  }

  lemma ReleaseIs(t: Host, id: Id)
    ensures Release(t, id).cap == MarkFrozen(t.cap, id)
  {
  }

  lemma EvictedCap(h: Host, id: Id, v: Id)
    ensures FreezeVictim(h, id, v).cap ==
      if v in h.records then MarkFrozen(MarkAdmissionVictimFrozen(h.cap, id), v)
      else MarkAdmissionVictimFrozen(h.cap, id)
  {
    var m := h.(cap := MarkAdmissionVictimFrozen(h.cap, id));
    if v in h.runtimes {
      TornDownCap(m, v, h.runtimes[v]);
      ReleaseIs(TornDown(m, v, h.runtimes[v]), v);
    } else {
      ReleaseIs(m, v);
    }
  }

  lemma EvictCalls(h: Host, id: Id, v: Id)
    ensures FreezeVictim(h, id, v).cap == After(h.cap, Evicts(h, id, Some(v)))
  {
    EvictedCap(h, id, v);
    Evicted(h.cap, MarkAdmissionVictimFrozen(h.cap, id), id, v, v in h.records);
  }

  lemma Evicted(c: Cap, m: Cap, id: Id, v: Id, known: bool)
    requires m == MarkAdmissionVictimFrozen(c, id)
    ensures After(c, [VictimFrozenE(id)] + if known then Gone(v) else []) == if known then MarkFrozen(m, v) else m
  {
    One(c, VictimFrozenE(id));
    if known {
      One(m, MarkFrozenE(v));
      Then(c, [VictimFrozenE(id)], Gone(v));
    } else {
      assert [VictimFrozenE(id)] + [] == [VictimFrozenE(id)];
    }
  }

  lemma OpeningCalls(h2: Host, id: Id, visible: bool, others: seq<Id>, fault: Fault)
    requires id in h2.calls && !fault.CreateThrows?
    ensures var g := if fault.CallThrows? then PresentFailed(h2, id, visible, others, fault.call)
        else Settle(if visible then Present(Left(h2, id), id, others) else Left(h2, id), id);
      g.cap == After(h2.cap,
        if fault.CallThrows? then (if visible then Hides(Upto(others, fault.call)) else []) + Undo(id)
        else (if visible then Shows(id, others) else []) + [SettleE(id)])
  {
    if fault.CallThrows? {
      var hides := if visible then Hides(Upto(others, fault.call)) else [];
      var h3 := if visible then HideOthers(h2, Upto(others, fault.call)) else h2;
      if visible { HideCalls(h2, Upto(others, fault.call)); }
      UndoCalls(h3, id);
      Then(h2.cap, hides, Undo(id));
    } else {
      var shows := if visible then Shows(id, others) else [];
      var l := Left(h2, id);
      if visible { ShowCalls(l, id, others); }
      var c := (if visible then Present(l, id, others) else l).cap;
      One(c, SettleE(id));
      Then(h2.cap, shows, [SettleE(id)]);
    }
  }

  lemma ResumedCalls(h: Host, id: Id, now: int, loads: bool, others: seq<Id>, fault: Fault)
    requires id in h.calls
    ensures Resumed(h, id, now, loads, others, fault).cap == After(h.cap, Resumes(h, id, now, loads, others, fault))
  {
    HP.ResumedForms(h, id, now, loads, others, fault);
    if fault.CreateThrows? || id !in h.records {
      UndoCalls(h, id);
      UndoCalls(h.(leaked := h.leaked + 1), id);
    } else {
      MadeCalls(h, id, now, loads, others, fault);
    }
  }

  lemma MadeCalls(h: Host, id: Id, now: int, loads: bool, others: seq<Id>, fault: Fault)
    requires id in h.calls && !fault.CreateThrows? && id in h.records
    ensures Resumed(h, id, now, loads, others, fault).cap == After(h.cap, Resumes(h, id, now, loads, others, fault))
  {
    HP.ResumedForms(h, id, now, loads, others, fault);
    var h2 := MakeRuntime(h, id, now);
    var rest := Resumes(h, id, now, loads, others, fault)[1..];
    One(h.cap, MarkLiveE(id, now));
    Then(h.cap, [MarkLiveE(id, now)], rest);
    assert Resumes(h, id, now, loads, others, fault) == [MarkLiveE(id, now)] + rest;
    if h.calls[id].kind.Opening? {
      OpeningCalls(h2, id, h.calls[id].kind.visible, others, fault);
    } else if !loads {
      GoneCalls(h2.cap, id);
    }
  }

  lemma ResumeCalls(h: Host, e: H.Event)
    requires e.ResumeE? && e.ok && IsGranted(h, e.id)
    ensures H.Step(h, e).cap == After(h.cap, Calls(h, e))
  {
    var id := e.id;
    var evicts := Evicts(h, id, GrantOf(h, id));
    var rest := Resumes(h, id, e.now, e.loads, e.others, e.fault);
    Then(h.cap, evicts, rest);
    if GrantOf(h, id).Some? {
      var v := GrantOf(h, id).value;
      VictimTables(h, id, v);
      EvictCalls(h, id, v);
      ResumedCalls(FreezeVictim(h, id, v), id, e.now, e.loads, e.others, e.fault);
    } else {
      ResumedCalls(h, id, e.now, e.loads, e.others, e.fault);
    }
  }

  lemma ShownCalls(h: Host, e: H.Event)
    requires e.ShowE? && e.id in h.records && e.id in h.runtimes
    ensures H.Step(h, e).cap == After(h.cap, Calls(h, e))
  {
    ShowCalls(h, e.id, e.others);
    var c := Present(h, e.id, e.others).cap;
    One(c, TouchE(e.id, e.now));
    Then(h.cap, Shows(e.id, e.others), [TouchE(e.id, e.now)]);
  }

  lemma CloseCalls(h: Host, id: Id)
    requires id in h.records
    ensures Close(h, id).cap == After(h.cap, [CancelE(id)] + Gone(id))
  {
    ClosedCap(h.cap, id);
  }

  lemma ClosedCap(c: Cap, id: Id)
    ensures After(c, [CancelE(id)] + Gone(id)) == MarkFrozen(Cancel(c, id), id)
  {
    var m := Cancel(c, id);
    One(c, CancelE(id));
    One(m, MarkFrozenE(id));
    Then(c, [CancelE(id)], Gone(id));
  }

  lemma RestoredCalls(h: Host, e: H.Event)
    requires e.RestoredE?
    ensures H.Step(h, e).cap == After(h.cap, Calls(h, e))
  {
    if e.id in h.calls && h.calls[e.id].phase.Restoring? {
      if e.ok && e.id in h.records {
        assert [] + [SettleE(e.id)] == [SettleE(e.id)];
        One(h.cap, SettleE(e.id));
      } else {
        TakenBackCalls(h, e.id, h.calls[e.id].phase.incarnation);
      }
    }
  }

  lemma TakenBackCalls(h: Host, id: Id, incarnation: nat)
    ensures RestoreFailed(h, id, incarnation).cap == After(h.cap, Gone(id) + [SettleE(id)])
  {
    TornDownCap(Left(h, id), id, incarnation);
    GoneCalls(h.cap, id);
  }

  lemma PageCalls(h: Host, e: H.Event)
    requires e.PageE?
    ensures H.Step(h, e).cap == After(h.cap, Calls(h, e))
  {
    if LosesPage(h, e, e.id) {
      ReleasedCap(h, e.id, e.incarnation);
    } else {
      PageKeepsCap(h, e.id, e.incarnation, e.event);
    }
  }

  lemma PageKeepsCap(h: Host, id: Id, incarnation: nat, event: PageEvent)
    requires !LosesPage(h, PageE(id, incarnation, event), id)
    ensures OnPage(h, id, incarnation, event).cap == h.cap
  {
    if Serves(h, id, incarnation) && id in h.records {
      assert !event.Crashed? && (event.NavigationCommitted? ==> event.allowed);
      StayingPageKeepsCap(h, id, incarnation, event);
    }
  }

  lemma StayingPageKeepsCap(h: Host, id: Id, incarnation: nat, event: PageEvent)
    requires !event.Crashed? && (event.NavigationCommitted? ==> event.allowed)
    ensures OnPage(h, id, incarnation, event).cap == h.cap
  {
  }

  lemma BeginCalls(h: Host, e: H.Event)
    requires e.OpenE? || e.ThawE?
    ensures H.Step(h, e).cap == After(h.cap, Calls(h, e))
  {
    One(h.cap, ActivateE(e.id, e.now, e.aborted));
  }

  lemma SingleCalls(h: Host, e: H.Event)
    requires e.HideE? || e.ProtectE? || e.WaiterE? || e.ActE?
    ensures H.Step(h, e).cap == After(h.cap, Calls(h, e))
  {
    match e
    case HideE(id) => One(h.cap, ProtectForE(id, Visible, false));
    case ProtectE(id, reason, on) => One(h.cap, ProtectForE(id, reason, on));
    case WaiterE(w, how) => One(h.cap, RejectE(w, how));
    case ActE(_, _, _, _) =>
  }

  /** Whatever happens, the host makes exactly these calls to its capacity, in this order. */
  lemma CapacityCalls(h: Host, e: H.Event)
    ensures H.Step(h, e).cap == After(h.cap, Calls(h, e))
  {
    if e.ResumeE? {
      if GoesOn(h, e, e.id) {
        if e.ok && IsGranted(h, e.id) { ResumeCalls(h, e); } else { UndoCalls(h, e.id); }
      }
    } else if e.RestoredE? {
      RestoredCalls(h, e);
    } else if e.PageE? {
      PageCalls(h, e);
    } else if e.FreezeE? || e.QuarantineE? {
      FreezeCalls(h, e);
    } else if e.ShowE? {
      if e.id in h.records && e.id in h.runtimes { ShownCalls(h, e); }
    } else if e.CloseE? {
      if e.id in h.records { CloseCalls(h, e.id); }
    } else if e.OpenE? || e.ThawE? {
      BeginCalls(h, e);
    } else {
      SingleCalls(h, e);
    }
  }

  // ---------- Whom an activation may cost its page ----------

  /** The victim of a grant went by itself before the grant was used. */
  ghost predicate Stale(h: Host, a: Id) {
    IsGranted(h, a) && GrantOf(h, a).Some? && !Owes(h.cap.admissions, a, GrantOf(h, a).value)
  }

  lemma VictimHidden(h: Host, a: Id, v: Id)
    requires HostInv(h) && SeenInv(h) && Owes(h.cap.admissions, a, v)
    ensures v !in Shown(h)
  {
    assert v !in h.cap.live;
    assert v !in For(h.cap, Visible);
  }

  /** An event that is not about a shown browser takes its page away exactly if it is the resumption of
      an activation whose victim it was, and then that victim had gone once before. */
  lemma TakesShownExactly(h: Host, e: H.Event, x: Id)
    requires HostInv(h) && Fenced(h) && SeenInv(h) && Proper(h, e) && x in Shown(h)
    requires !e.WaiterE? ==> e.id != x
    ensures x !in H.Step(h, e).runtimes <==> e.ResumeE? && e.ok && IsGranted(h, e.id) && GrantOf(h, e.id) == Some(x)
    ensures x !in H.Step(h, e).runtimes ==> Stale(h, e.id)
  {
    TablesLaw(h, e, x);
    TablesOk(h);
    if x !in H.Step(h, e).runtimes && Owes(h.cap.admissions, e.id, x) {
      VictimHidden(h, e.id, x);
    }
  }

  /** So no event costs a shown browser its page that is not about it, while no stale grant is used. */
  lemma ShownStays(h: Host, e: H.Event, x: Id)
    requires HostInv(h) && Fenced(h) && SeenInv(h) && Proper(h, e) && x in Shown(h)
    requires !e.WaiterE? ==> e.id != x
    requires e.ResumeE? ==> !Stale(h, e.id)
    ensures x in H.Step(h, e).runtimes && H.Step(h, e).runtimes[x] == h.runtimes[x]
  {
    TakesShownExactly(h, e, x);
    TablesLaw(h, e, x);
  }

  // ---------- A stale grant ----------

  /** A grant that is not used stands. */
  lemma GrantStands(h: Host, e: H.Event, a: Id)
    requires HostInv(h) && Fenced(h) && Proper(h, e) && IsGranted(h, a) && !(e.ResumeE? && e.id == a)
    ensures var g := H.Step(h, e); IsGranted(g, a) && GrantOf(g, a) == GrantOf(h, a)
  {
    TablesLaw(h, e, a);
    CapacityCalls(h, e);
    L.AnsweredOnce(h.cap, Calls(h, e));
  }

  /** What is wanted of a state in which the victim of `a`, gone by itself, is asked for again. */
  ghost predicate Reopens(h: Host, a: Id, v: Id) {
    && Presentable(h) && IsGranted(h, a) && GrantOf(h, a) == Some(v)
    && v in h.records && v !in h.runtimes && v !in h.calls && !L.Occupied(h.cap, v)
  }

  /** A crash of the victim, while its evictor still validates, leads there whenever another browser
      could be evicted for it. */
  lemma CrashReopens(h: Host, a: Id, v: Id, u: Id)
    requires Presentable(h) && Owes(h.cap.admissions, a, v) && v in h.records && v !in h.calls
    requires u in h.cap.live && h.cap.live[u].protections == {}
    ensures var e := PageE(v, h.runtimes[v], Crashed); H.Allowed(h, e) && Reopens(H.Step(h, e), a, v)
  {
    var e := PageE(v, h.runtimes[v], Crashed);
    TablesOk(h);
    StaysPresentable(h, e);
    GrantStands(h, e, a);
    TablesLaw(h, e, v);
    CrashLeavesRoom(h, v, u);
  }

  lemma CrashLeavesRoom(h: Host, v: Id, u: Id)
    requires HostInv(h) && v in h.runtimes && Serves(h, v, h.runtimes[v]) && v in h.records && v !in h.cap.live
    requires u in h.cap.live && h.cap.live[u].protections == {}
    ensures !L.Occupied(H.Step(h, PageE(v, h.runtimes[v], Crashed)).cap, v)
  {
    CrashCap(h, v);
    FrozenLeavesRoom(h.cap, v, u);
  }

  lemma CrashCap(h: Host, v: Id)
    requires v in h.runtimes && Serves(h, v, h.runtimes[v]) && v in h.records
    ensures H.Step(h, PageE(v, h.runtimes[v], Crashed)).cap == MarkFrozen(h.cap, v)
  {
    var t := TornDown(h, v, h.runtimes[v]);
    TornDownCap(h, v, h.runtimes[v]);
    ReleaseIs(t, v);
    assert H.Step(h, PageE(v, h.runtimes[v], Crashed)) == Release(t, v);
  }

  lemma FrozenLeavesRoom(c: Cap, v: Id, u: Id)
    requires Inv(c) && v !in c.live && u in c.live && c.live[u].protections == {}
    ensures !L.Occupied(MarkFrozen(c, v), v)
  {
    assert c.queue == [];
    assert c.live - {v} == c.live;
  }

  lemma ReopensStale(h: Host, a: Id, v: Id)
    requires Reopens(h, a, v)
    ensures Stale(h, a) && v != a && v !in h.cap.live && !IsUnfrozenVictim(h.cap, v)
  {
  }

  lemma ThawGranted(h: Host, a: Id, v: Id, now: int)
    requires Reopens(h, a, v)
    ensures var e := ThawE(v, now, false); var h1 := H.Step(h, e);
      && H.Allowed(h, e) && Presentable(h1) && IsGranted(h1, v) && h1.calls[v].kind.Thawing?
      && h1.runtimes == h.runtimes && h1.records == h.records
      && IsGranted(h1, a) && GrantOf(h1, a) == Some(v)
      && (GrantOf(h1, v).Some? && GrantOf(h1, v).value in h1.records ==> !IsGranted(h1, GrantOf(h1, v).value))
  {
    ReopensStale(h, a, v);
    L.TakesFrom(h.cap, v, now);
    StaysPresentable(h, ThawE(v, now, false));
    GrantStands(h, ThawE(v, now, false), a);
  }

  lemma ThawMakes(h: Host, v: Id, now: int, others: seq<Id>)
    requires Presentable(h) && IsGranted(h, v) && h.calls[v].kind.Thawing? && v in h.records
    requires GrantOf(h, v).Some? && GrantOf(h, v).value in h.records ==> !IsGranted(h, GrantOf(h, v).value)
    requires v !in others && h.runtimes.Keys <= Ids(others) + {v}
    ensures var e := ResumeE(v, true, now, true, others, NoFault); var g := H.Step(h, e);
      && H.Allowed(h, e) && Presentable(g) && v in g.runtimes && v in g.cap.live && v in g.records
      && g.runtimes.Keys <= h.runtimes.Keys + {v} && !IsAwaiting(g, v)
  {
    var e := ResumeE(v, true, now, true, others, NoFault);
    StaysPresentable(h, e);
    var h1 := GrantedTables(h, v, now, true, others, NoFault);
    HP.ResumedForms(h1, v, now, true, others, NoFault);
  }

  lemma ShowLegal(h: Host, v: Id, now: int, others: seq<Id>)
    requires Presentable(h) && v in h.runtimes && v in h.cap.live && v in h.records
    requires v !in others && h.runtimes.Keys <= Ids(others) + {v}
    ensures var e := ShowE(v, now, others); var g := H.Step(h, e);
      && H.Allowed(h, e) && Walks(h, e) && Seeable(h, e) && Presentable(g) && Shown(g) == {v}
      && g.runtimes.Keys == h.runtimes.Keys && g.records == h.records && g.calls == h.calls
  {
    StaysPresentable(h, ShowE(v, now, others));
    ShowsOne(h, v, now, others);
  }

  ghost predicate Legal(h: Host, e: H.Event) {
    H.Allowed(h, e) && Walks(h, e) && Seeable(h, e)
  }

  function Reopening(v: Id, now: int, others: seq<Id>): seq<H.Event> {
    [ThawE(v, now, false), ResumeE(v, true, now, true, others, NoFault), ShowE(v, now, others)]
  }

  /** The browser is shown again, and the old grant stands. */
  ghost predicate Reopened(g: Host, a: Id, v: Id, others: seq<Id>) {
    && Presentable(g) && IsGranted(g, a) && GrantOf(g, a) == Some(v) && Shown(g) == {v} && !IsAwaiting(g, v)
    && g.runtimes.Keys <= Ids(others) + {v}
  }

  /** The browser is opened again and shown, and then the old activation goes on and takes its page:
      from every such state, by a legal run. */
  lemma StaleGrantTakesShown(h: Host, a: Id, v: Id, now: int, loads: bool, others: seq<Id>)
    requires Reopens(h, a, v) && v !in others && a !in others && h.runtimes.Keys <= Ids(others)
    ensures Runs.Legal(Legal, H.Step, h, Reopening(v, now, others))
    ensures var g := Runs.After(H.Step, h, Reopening(v, now, others));
      var e := ResumeE(a, true, now, loads, [v] + others, NoFault);
      Legal(g, e) && Shown(g) == {v} && v !in H.Step(g, e).runtimes
  {
    var e1, e2, e3 := ThawE(v, now, false), ResumeE(v, true, now, true, others, NoFault), ShowE(v, now, others);
    ReopensStale(h, a, v);
    ThawGranted(h, a, v, now);
    MadeAndShown(H.Step(h, e1), a, v, now, others);
    ThreeEvents(h, e1, e2, e3);
    LastTakes(Runs.After(H.Step, h, Reopening(v, now, others)), a, v, now, loads, others);
  }

  lemma MadeAndShown(h1: Host, a: Id, v: Id, now: int, others: seq<Id>)
    requires Presentable(h1) && IsGranted(h1, v) && h1.calls[v].kind.Thawing? && v in h1.records
    requires GrantOf(h1, v).Some? && GrantOf(h1, v).value in h1.records ==> !IsGranted(h1, GrantOf(h1, v).value)
    requires IsGranted(h1, a) && GrantOf(h1, a) == Some(v) && v != a
    requires v !in others && h1.runtimes.Keys <= Ids(others)
    ensures var e2, e3 := ResumeE(v, true, now, true, others, NoFault), ShowE(v, now, others);
      && Legal(h1, e2) && Legal(H.Step(h1, e2), e3)
      && Reopened(H.Step(H.Step(h1, e2), e3), a, v, others)
  {
    var e2, e3 := ResumeE(v, true, now, true, others, NoFault), ShowE(v, now, others);
    ThawMakes(h1, v, now, others);
    GrantStands(h1, e2, a);
    ThenShown(H.Step(h1, e2), a, v, now, others);
  }

  lemma ThenShown(h2: Host, a: Id, v: Id, now: int, others: seq<Id>)
    requires Presentable(h2) && v in h2.runtimes && v in h2.cap.live && v in h2.records && !IsAwaiting(h2, v)
    requires IsGranted(h2, a) && GrantOf(h2, a) == Some(v)
    requires v !in others && h2.runtimes.Keys <= Ids(others) + {v}
    ensures Legal(h2, ShowE(v, now, others)) && Reopened(H.Step(h2, ShowE(v, now, others)), a, v, others)
  {
    ShowLegal(h2, v, now, others);
    GrantStands(h2, ShowE(v, now, others), a);
  }

  lemma ThreeEvents(h: Host, e1: H.Event, e2: H.Event, e3: H.Event)
    requires Legal(h, e1) && Legal(H.Step(h, e1), e2) && Legal(H.Step(H.Step(h, e1), e2), e3)
    ensures Runs.Legal(Legal, H.Step, h, [e1, e2, e3])
    ensures Runs.After(H.Step, h, [e1, e2, e3]) == H.Step(H.Step(H.Step(h, e1), e2), e3)
  {
    ThreeLegal(Legal, h, e1, e2, e3);
    Runs.Three(H.Step, h, e1, e2, e3);
  }

  lemma ThreeLegal(allowed: (Host, H.Event) -> bool, h: Host, e1: H.Event, e2: H.Event, e3: H.Event)
    requires allowed(h, e1) && allowed(H.Step(h, e1), e2) && allowed(H.Step(H.Step(h, e1), e2), e3)
    ensures Runs.Legal(allowed, H.Step, h, [e1, e2, e3])
  {
    assert [e1, e2, e3][1..] == [e2, e3] && [e2, e3][1..] == [e3] && [e3][1..] == [];
    var h1 := H.Step(h, e1);
    var h2 := H.Step(h1, e2);
    assert Runs.Legal(allowed, H.Step, H.Step(h2, e3), []);
    assert Runs.Legal(allowed, H.Step, h2, [e3]);
    assert Runs.Legal(allowed, H.Step, h1, [e2, e3]);
  }

  lemma LastTakes(g: Host, a: Id, v: Id, now: int, loads: bool, others: seq<Id>)
    requires Reopened(g, a, v, others) && v != a && v !in others && a !in others
    ensures var e := ResumeE(a, true, now, loads, [v] + others, NoFault);
      Legal(g, e) && v !in H.Step(g, e).runtimes
  {
    LastIsLegal(g, a, v, now, loads, others);
    assert v in Shown(g);
    TakesShownExactly(g, ResumeE(a, true, now, loads, [v] + others, NoFault), v);
  }

  lemma LastIsLegal(g: Host, a: Id, v: Id, now: int, loads: bool, others: seq<Id>)
    requires Reopened(g, a, v, others) && v != a && v !in others && a !in others
    ensures Legal(g, ResumeE(a, true, now, loads, [v] + others, NoFault))
  {
    forall y | y in g.runtimes ensures y in Ids([v] + others) {
      if y == v { assert ([v] + others)[0] == v; } else { assert y in others; }
    }
  }
}
