/** Which browsers have a record, a page and an activation under way after each event. */
module HostTables {
  import opened Wrappers
  import opened Capacity
  import opened H = Host
  import opened HostFencing
  import HP = HostProofs

  // ---------- What an event says of browser `x` ----------

  /** An activation that waited is over, or goes on to load its page. */
  ghost predicate GoesOn(h: Host, e: H.Event, x: Id) {
    e.ResumeE? && e.id == x && IsAwaiting(h, x) && h.calls[x].promise in h.cap.settled
  }

  /** And its page has been made. */
  ghost predicate Made(h: Host, e: H.Event, x: Id) {
    GoesOn(h, e, x) && e.ok && IsGranted(h, x) && !e.fault.CreateThrows? && x in h.records
  }

  /** `x` gets a page, which stays in the table even if an opening fails to show it. */
  ghost predicate GainsPage(h: Host, e: H.Event, x: Id) {
    Made(h, e, x) && (h.calls[x].kind.Opening? || e.loads)
  }

  ghost predicate LosesPage(h: Host, e: H.Event, x: Id) {
    match e
    case FreezeE(id) => id == x && x in h.records
    case QuarantineE(id, incarnation) => id == x && x in h.records && x in h.runtimes && h.runtimes[x] == incarnation
    case CloseE(id) => id == x && x in h.records
    case PageE(id, incarnation, event) =>
      id == x && Serves(h, x, incarnation) && x in h.records
      && (event.Crashed? || (event.NavigationCommitted? && !event.allowed))
    case ResumeE(id, ok, _, _, _, _) => ok && IsGranted(h, id) && GrantOf(h, id) == Some(x) && x in h.records
    case RestoredE(id, ok) => id == x && x in h.calls && h.calls[x].phase.Restoring? && !(ok && x in h.records)
    case _ => false
  }

  /** A browser is forgotten when it is closed, or when its opening does not come to its end. */
  ghost predicate Forgotten(h: Host, e: H.Event, x: Id) {
    || e == CloseE(x)
    || (GoesOn(h, e, x) && h.calls[x].kind.Opening? && (!Made(h, e, x) || e.fault.CallThrows?))
  }

  ghost predicate CallEnds(h: Host, e: H.Event, x: Id) {
    || (GoesOn(h, e, x) && !(Made(h, e, x) && h.calls[x].kind.Thawing? && e.loads))
    || (e.RestoredE? && e.id == x && x in h.calls && h.calls[x].phase.Restoring?)
  }

  predicate CallBegins(h: Host, e: H.Event, x: Id) {
    (e.OpenE? && e.id == x) || (e.ThawE? && e.id == x && x in h.records && x !in h.runtimes)
  }

  // ---------- The tables ----------

  /** Every other entry of the tables is what it was. */
  ghost predicate TablesAfter(h: Host, e: H.Event, g: Host, x: Id) {
    && (x in g.runtimes <==> GainsPage(h, e, x) || (x in h.runtimes && !LosesPage(h, e, x)))
    && (x in g.runtimes ==> g.runtimes[x] == if GainsPage(h, e, x) then h.incarnations else h.runtimes[x])
    && (x in g.records <==> (e.OpenE? && e.id == x) || (x in h.records && !Forgotten(h, e, x)))
    && (x in g.calls <==> CallBegins(h, e, x) || (x in h.calls && !CallEnds(h, e, x)))
    && (CallBegins(h, e, x) ==>
          g.calls[x].phase.Awaiting? && g.calls[x].kind == if e.OpenE? then Opening(e.visible) else Thawing)
    && (x in h.calls && x in g.calls ==>
          g.calls[x] == h.calls[x].(phase := if Made(h, e, x) then Restoring(h.incarnations) else h.calls[x].phase))
  }

  lemma RestoreFailedTables(h: Host, id: Id, incarnation: nat)
    ensures var g := RestoreFailed(h, id, incarnation);
      g.runtimes == h.runtimes - {id} && g.records == h.records && g.calls == h.calls - {id}
  {
    var t := TornDown(Left(h, id), id, incarnation);
    assert t.runtimes == h.runtimes - {id} && t.records == h.records && t.calls == h.calls - {id};
  }

  lemma ThawedTables(h: Host, id: Id, now: int)
    requires id in h.calls && id !in h.runtimes
    ensures var g := RestoreFailed(MakeRuntime(h, id, now), id, h.incarnations);
      g.runtimes == h.runtimes && g.records == h.records && g.calls == h.calls - {id}
  {
    RestoreFailedTables(MakeRuntime(h, id, now), id, h.incarnations);
    assert h.runtimes[id := h.incarnations] - {id} == h.runtimes;
  }

  lemma OpenedTables(l: Host, id: Id, others: seq<Id>)
    ensures var g := Settle(Present(l, id, others), id);
      g.runtimes == l.runtimes && g.records == l.records && g.calls == l.calls
  {
  }

  lemma ShowFailedTables(h2: Host, id: Id, visible: bool, others: seq<Id>, call: nat)
    requires id in h2.calls
    ensures var g := PresentFailed(h2, id, visible, others, call);
      && g.runtimes == h2.runtimes && g.calls == h2.calls - {id}
      && g.records == if h2.calls[id].kind.Opening? then h2.records - {id} else h2.records
  {
  }

  /** The tables once a granted activation has gone as far as it can. */
  predicate ResumedTo(h: Host, id: Id, loads: bool, fault: Fault, g: Host)
    requires id in h.calls
  {
    var made := !fault.CreateThrows? && id in h.records;
    var opening := h.calls[id].kind.Opening?;
    && g.runtimes == (if made && (opening || loads) then h.runtimes[id := h.incarnations] else h.runtimes)
    && g.records == (if opening && (!made || fault.CallThrows?) then h.records - {id} else h.records)
    && g.calls == (if made && !opening && loads then h.calls[id := h.calls[id].(phase := Restoring(h.incarnations))]
                   else h.calls - {id})
  }

  lemma ResumedTables(h: Host, id: Id, now: int, loads: bool, others: seq<Id>, fault: Fault)
    requires id in h.calls && id !in h.runtimes
    ensures ResumedTo(h, id, loads, fault, Resumed(h, id, now, loads, others, fault))
  {
    if fault.CreateThrows? || id !in h.records {
      UnmadeTables(h, id, now, loads, others, fault);
    } else if h.calls[id].kind.Thawing? {
      ThawingTables(h, id, now, loads, others, fault);
    } else {
      OpeningTables(h, id, now, loads, others, fault);
    }
  }

  lemma UnmadeTables(h: Host, id: Id, now: int, loads: bool, others: seq<Id>, fault: Fault)
    requires id in h.calls && (fault.CreateThrows? || id !in h.records)
    ensures ResumedTo(h, id, loads, fault, Resumed(h, id, now, loads, others, fault))
  {
    HP.ResumedForms(h, id, now, loads, others, fault);
    FailedTables(h, id);
    FailedTables(h.(leaked := h.leaked + 1), id);
  }

  lemma ThawingTables(h: Host, id: Id, now: int, loads: bool, others: seq<Id>, fault: Fault)
    requires id in h.calls && id !in h.runtimes
    requires !fault.CreateThrows? && id in h.records && h.calls[id].kind.Thawing?
    ensures ResumedTo(h, id, loads, fault, Resumed(h, id, now, loads, others, fault))
  {
    HP.ResumedForms(h, id, now, loads, others, fault);
    ThawedTables(h, id, now);
  }

  lemma OpeningTables(h: Host, id: Id, now: int, loads: bool, others: seq<Id>, fault: Fault)
    requires id in h.calls && id !in h.runtimes
    requires !fault.CreateThrows? && id in h.records && h.calls[id].kind.Opening?
    ensures ResumedTo(h, id, loads, fault, Resumed(h, id, now, loads, others, fault))
  {
    HP.ResumedForms(h, id, now, loads, others, fault);
    var h2 := MakeRuntime(h, id, now);
    if fault.CallThrows? {
      ShowFailedTables(h2, id, h.calls[id].kind.visible, others, fault.call);
    } else {
      OpenedTables(Left(h2, id), id, others);
    }
  }

  lemma FailedTables(h: Host, id: Id)
    requires id in h.calls
    ensures var g := Failed(h, id);
      && g.runtimes == h.runtimes && g.calls == h.calls - {id}
      && g.records == if h.calls[id].kind.Opening? then h.records - {id} else h.records
  {
  }

  lemma VictimTables(h: Host, id: Id, v: Id)
    ensures var g := FreezeVictim(h, id, v);
      && g.calls == h.calls && g.records == h.records && g.incarnations == h.incarnations
      && g.runtimes == if v in h.records then h.runtimes - {v} else h.runtimes
  {
    assert v !in h.runtimes ==> h.runtimes - {v} == h.runtimes;
  }

  lemma GrantedTables(h: Host, id: Id, now: int, loads: bool, others: seq<Id>, fault: Fault) returns (h1: Host)
    requires IsGranted(h, id) && id !in h.runtimes
    ensures h1.calls == h.calls && h1.records == h.records && h1.incarnations == h.incarnations && id !in h1.runtimes
    ensures h1.runtimes == if GrantOf(h, id).Some? && GrantOf(h, id).value in h.records
      then h.runtimes - {GrantOf(h, id).value} else h.runtimes
    ensures Resume(h, id, true, now, loads, others, fault) == Resumed(h1, id, now, loads, others, fault)
  {
    h1 := h;
    if GrantOf(h, id).Some? {
      h1 := FreezeVictim(h, id, GrantOf(h, id).value);
      VictimTables(h, id, GrantOf(h, id).value);
    }
  }

  lemma GrantedResumeTables(h: Host, e: H.Event, x: Id)
    requires e.ResumeE? && e.ok && IsGranted(h, e.id) && e.id !in h.runtimes
    ensures TablesAfter(h, e, H.Step(h, e), x)
  {
    var h1 := GrantedTables(h, e.id, e.now, e.loads, e.others, e.fault);
    ResumedTables(h1, e.id, e.now, e.loads, e.others, e.fault);
    FromParts(h, e, h1.runtimes, Resumed(h1, e.id, e.now, e.loads, e.others, e.fault), x);
  }

  lemma FromParts(h: Host, e: H.Event, left: map<Id, nat>, g: Host, x: Id)
    requires e.ResumeE? && e.ok && IsGranted(h, e.id) && e.id !in h.runtimes && e.id !in left
    requires left == if GrantOf(h, e.id).Some? && GrantOf(h, e.id).value in h.records
      then h.runtimes - {GrantOf(h, e.id).value} else h.runtimes
    requires var made := !e.fault.CreateThrows? && e.id in h.records;
      var opening := h.calls[e.id].kind.Opening?;
      && g.runtimes == (if made && (opening || e.loads) then left[e.id := h.incarnations] else left)
      && g.records == (if opening && (!made || e.fault.CallThrows?) then h.records - {e.id} else h.records)
      && g.calls == (if made && !opening && e.loads
                     then h.calls[e.id := h.calls[e.id].(phase := Restoring(h.incarnations))] else h.calls - {e.id})
    ensures TablesAfter(h, e, g, x)
  {
  }

  lemma FailedResumeTables(h: Host, e: H.Event, x: Id)
    requires e.ResumeE? && !(e.ok && IsGranted(h, e.id))
    ensures TablesAfter(h, e, H.Step(h, e), x)
  {
    if e.id in h.calls { FailedTables(h, e.id); }
  }

  lemma ResumeTables(h: Host, e: H.Event, x: Id)
    requires e.ResumeE? && (IsAwaiting(h, e.id) ==> e.id !in h.runtimes)
    ensures TablesAfter(h, e, H.Step(h, e), x)
  {
    if e.ok && IsGranted(h, e.id) { GrantedResumeTables(h, e, x); } else { FailedResumeTables(h, e, x); }
  }

  lemma RestoredTables(h: Host, id: Id, ok: bool, x: Id)
    ensures TablesAfter(h, RestoredE(id, ok), H.Restored(h, id, ok), x)
  {
    if id in h.calls && h.calls[id].phase.Restoring? {
      if ok && id in h.records {
        KeptTables(h, id);
      } else {
        RestoreFailedTables(h, id, h.calls[id].phase.incarnation);
      }
      EndedTables(h, id, ok, H.Restored(h, id, ok), x);
    }
  }

  lemma KeptTables(h: Host, id: Id)
    ensures var g := Settle(Left(h, id), id);
      g.runtimes == h.runtimes && g.records == h.records && g.calls == h.calls - {id}
  {
  }

  lemma EndedTables(h: Host, id: Id, ok: bool, g: Host, x: Id)
    requires id in h.calls && h.calls[id].phase.Restoring?
    requires g.runtimes == if ok && id in h.records then h.runtimes else h.runtimes - {id}
    requires g.records == h.records && g.calls == h.calls - {id}
    ensures TablesAfter(h, RestoredE(id, ok), g, x)
  {
  }

  /** Nothing is said of a page that stays. */
  lemma SameTables(h: Host, e: H.Event, g: Host, x: Id)
    requires g.runtimes == h.runtimes && g.records == h.records && g.calls == h.calls
    requires e.PageE? || e.ShowE? || e.HideE? || e.ProtectE? || e.WaiterE? || e.ActE?
    requires e.PageE? ==> !LosesPage(h, e, e.id)
    ensures TablesAfter(h, e, g, x)
  {
  }

  lemma GoneTables(h: Host, e: H.Event, g: Host, x: Id)
    requires (e.PageE? || e.FreezeE?) && LosesPage(h, e, e.id)
    requires g.runtimes == h.runtimes - {e.id} && g.records == h.records && g.calls == h.calls
    ensures TablesAfter(h, e, g, x)
  {
  }

  lemma PageTables(h: Host, e: H.Event, x: Id)
    requires e.PageE?
    ensures TablesAfter(h, e, H.Step(h, e), x)
  {
    if LosesPage(h, e, e.id) {
      TornDownTables(h, e.id, e.incarnation);
      GoneTables(h, e, H.Step(h, e), x);
    } else {
      PageStaysTables(h, e.id, e.incarnation, e.event);
      SameTables(h, e, H.Step(h, e), x);
    }
  }

  lemma PageStaysTables(h: Host, id: Id, incarnation: nat, event: PageEvent)
    requires !LosesPage(h, PageE(id, incarnation, event), id)
    ensures var g := OnPage(h, id, incarnation, event);
      g.runtimes == h.runtimes && g.records == h.records && g.calls == h.calls
  {
    if Serves(h, id, incarnation) && id in h.records {
      assert !event.Crashed? && (event.NavigationCommitted? ==> event.allowed);
      StayingPageTables(h, id, incarnation, event);
    }
  }

  lemma StayingPageTables(h: Host, id: Id, incarnation: nat, event: PageEvent)
    requires !event.Crashed? && (event.NavigationCommitted? ==> event.allowed)
    ensures var g := OnPage(h, id, incarnation, event);
      g.runtimes == h.runtimes && g.records == h.records && g.calls == h.calls
  {
  }

  lemma FreezeTables(h: Host, id: Id, x: Id)
    ensures TablesAfter(h, FreezeE(id), Freeze(h, id), x)
  {
    if id in h.records {
      if id in h.runtimes {
        TornDownTables(h, id, h.runtimes[id]);
      } else {
        ReleasedTables(h, id);
        assert h.runtimes - {id} == h.runtimes;
      }
      GoneTables(h, FreezeE(id), Freeze(h, id), x);
    }
  }

  lemma ReleasedTables(h: Host, id: Id)
    ensures var g := Release(h, id); g.runtimes == h.runtimes && g.records == h.records && g.calls == h.calls
  {
  }

  lemma QuarantineTables(h: Host, id: Id, incarnation: nat, x: Id)
    ensures TablesAfter(h, QuarantineE(id, incarnation), Quarantine(h, id, incarnation), x)
  {
    TornDownTables(h, id, incarnation);
    QuarantinedTables(h, id, incarnation, Quarantine(h, id, incarnation), x);
  }

  lemma QuarantinedTables(h: Host, id: Id, incarnation: nat, g: Host, x: Id)
    requires g.records == h.records && g.calls == h.calls
    requires g.runtimes == if id !in h.records || id !in h.runtimes || h.runtimes[id] != incarnation
      then h.runtimes else h.runtimes - {id}
    ensures TablesAfter(h, QuarantineE(id, incarnation), g, x)
  {
  }

  lemma TornDownTables(h: Host, id: Id, incarnation: nat)
    ensures var g := Release(TornDown(h, id, incarnation), id);
      g.runtimes == h.runtimes - {id} && g.records == h.records && g.calls == h.calls
  {
  }

  lemma RemovalTables(h: Host, e: H.Event, x: Id)
    requires e.FreezeE? || e.QuarantineE? || e.CloseE?
    ensures TablesAfter(h, e, H.Step(h, e), x)
  {
    if e.FreezeE? {
      FreezeTables(h, e.id, x);
    } else if e.QuarantineE? {
      QuarantineTables(h, e.id, e.incarnation, x);
    }
  }

  lemma BeginTables(h: Host, e: H.Event, x: Id)
    requires Ordered(h, e) && (e.OpenE? || e.ThawE?)
    ensures TablesAfter(h, e, H.Step(h, e), x)
  {
  }

  lemma OtherTables(h: Host, e: H.Event, x: Id)
    requires e.ShowE? || e.HideE? || e.ProtectE? || e.WaiterE? || e.ActE?
    ensures TablesAfter(h, e, H.Step(h, e), x)
  {
    OthersAside(h, e);
    SameTables(h, e, H.Step(h, e), x);
  }

  lemma OthersAside(h: Host, e: H.Event)
    requires e.ShowE? || e.HideE? || e.ProtectE? || e.WaiterE? || e.ActE?
    ensures var g := H.Step(h, e); g.runtimes == h.runtimes && g.records == h.records && g.calls == h.calls
  {
    if e.ShowE? { OpenedTables(h, e.id, e.others); }
  }

  /** Of every browser: it has a page, a record, and an activation under way after an event exactly if
      the event says so; and a page that stays is the same page. */
  lemma TablesLaw(h: Host, e: H.Event, x: Id)
    requires Fenced(h) && Ordered(h, e)
    ensures TablesAfter(h, e, H.Step(h, e), x)
  {
    if e.ResumeE? {
      ResumeTables(h, e, x);
    } else if e.RestoredE? {
      RestoredTables(h, e.id, e.ok, x);
    } else if e.PageE? {
      PageTables(h, e, x);
    } else if e.FreezeE? || e.QuarantineE? || e.CloseE? {
      RemovalTables(h, e, x);
    } else if e.OpenE? || e.ThawE? {
      BeginTables(h, e, x);
    } else {
      OtherTables(h, e, x);
    }
  }
}
