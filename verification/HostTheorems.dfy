/** The bound on renderers: kept over every run, and the exact condition for it. */
module HostTheorems {
  import opened Wrappers
  import opened Capacity
  import opened H = Host
  import HP = HostProofs
  import F = HostFencing
  import Overflow = HostOverflow
  import Runs

  // ---------- The renderer bound ----------

  /** Distinct victims are owed by distinct candidates. */
  lemma {:induction false} VictimsInject(admissions: map<Id, Admission>, victims: set<Id>, candidates: set<Id>)
    requires forall v :: v in victims ==> exists a :: a in candidates && Owes(admissions, a, v)
    ensures |victims| <= |candidates|
    decreases |victims|
  {
    if victims != {} {
      var v :| v in victims;
      var a :| a in candidates && Owes(admissions, a, v);
      forall u | u in victims - {v} ensures exists b :: b in candidates - {a} && Owes(admissions, b, u) {
        var b :| b in candidates && Owes(admissions, b, u);
        assert b in candidates - {a};
      }
      VictimsInject(admissions, victims - {v}, candidates - {a});
    }
  }

  /** Pages never outnumber the live entries: every page that is not live is owed by a live
      candidate that has no page yet. */
  lemma PagesWithinLive(h: Host)
    requires HostInv(h)
    ensures |h.runtimes| <= |h.cap.live| <= h.cap.maxLive
  {
    var pages, live := h.runtimes.Keys, h.cap.live.Keys;
    forall v | v in pages - live ensures exists a :: a in live - pages && Owes(h.cap.admissions, a, v) {
      var a :| Owes(h.cap.admissions, a, v);
      assert a in live - pages;
    }
    VictimsInject(h.cap.admissions, pages - live, live - pages);
    Sizes(pages, live);
  }

  lemma Sizes(pages: set<Id>, live: set<Id>)
    requires |pages - live| <= |live - pages|
    ensures |pages| <= |live|
  {
    assert pages == pages * live + (pages - live);
    assert live == pages * live + (live - pages);
  }

  ghost predicate Counted(h: Host) {
    && |h.runtimes| <= h.cap.maxLive
    && (forall id :: id in h.runtimes ==> id in h.cap.live || IsUnfrozenVictim(h.cap, id))
    && (forall a: Id, v: Id :: Owes(h.cap.admissions, a, v) ==> a in h.cap.live && a !in h.runtimes && v in h.runtimes)
    && (forall a: Id, b: Id, v: Id :: Owes(h.cap.admissions, a, v) && Owes(h.cap.admissions, b, v) ==> a == b)
  }

  lemma BoundsKept(h: Host, e: H.Event)
    ensures H.Step(h, e).cap.maxLive == h.cap.maxLive
  {
    match e
    case ResumeE(id, ok, now, loads, others, fault) =>
      assert Resume(h, id, ok, now, loads, others, fault).cap.maxLive == h.cap.maxLive;
    case _ =>
  }

  lemma RunLinks(h: Host, events: seq<H.Event>)
    requires HostInv(h) && Runs.Legal(H.Allowed, H.Step, h, events)
    ensures HostInv(Runs.After(H.Step, h, events)) && Runs.After(H.Step, h, events).cap.maxLive == h.cap.maxLive
  {
    var inv := (g: Host) => HostInv(g) && g.cap.maxLive == h.cap.maxLive;
    forall g, e | inv(g) && H.Allowed(g, e) ensures inv(H.Step(g, e)) {
      HP.StepLinks(g, e);
      BoundsKept(g, e);
    }
    Runs.Invariant(inv, H.Allowed, H.Step, h, events);
  }

  lemma InvCounts(h: Host)
    requires HostInv(h)
    ensures Counted(h)
  {
    PagesWithinLive(h);
  }

  /** In every state reached by allowed stretches there are at most `maxLive` pages (the source
      builds its capacity with four), and each is live or owed by exactly one open admission. */
  lemma AtMostMaxLivePages(maxLive: nat, maxQueue: nat, records: set<Id>, events: seq<H.Event>)
    requires Runs.Legal(H.Allowed, H.Step, H.Empty(maxLive, maxQueue, records), events)
    ensures var h := Runs.After(H.Step, H.Empty(maxLive, maxQueue, records), events);
      Counted(h) && h.cap.maxLive == maxLive
  {
    RunLinks(H.Empty(maxLive, maxQueue, records), events);
    InvCounts(Runs.After(H.Step, H.Empty(maxLive, maxQueue, records), events));
  }

  /** One stretch leads from `h` to `g`: the bound is kept if it was allowed, and leases stay fenced. */
  ghost predicate Keeps(h: Host, e: H.Event, g: Host) {
    && (HostInv(h) && H.Allowed(h, e) ==> HostInv(g) && |g.runtimes| <= g.cap.maxLive)
    && (F.Fenced(h) && H.Ordered(h, e) ==> F.Fenced(g))
  }

  lemma Kept(h: Host, e: H.Event)
    ensures Keeps(h, e, H.Step(h, e))
  {
    if HostInv(h) && H.Allowed(h, e) {
      HP.StepLinks(h, e);
      PagesWithinLive(H.Step(h, e));
    }
    if F.Fenced(h) && H.Ordered(h, e) { F.StepFenced(h, e); }
  }

  // ---------- The exact condition ----------

  /** Every legal way to go on from `h` stays within `maxLive` pages. */
  ghost predicate StaysBounded(h: Host) {
    forall events :: Runs.Legal(H.Allowed, H.Step, h, events) ==>
      |Runs.After(H.Step, h, events).runtimes| <= h.cap.maxLive
  }

  /** A step that is not harmless leaves a page or a grant behind that nothing accounts for. */
  lemma HarmLeaves(h: Host, e: H.Event) returns (vs: set<Id>, v: Id)
    requires HostInv(h) && Proper(h, e) && !Harmless(h, e)
    ensures Overflow.Limping(H.Step(h, e), vs) && Overflow.Leftover(H.Step(h, e), vs, v)
  {
    match e
    case FreezeE(id) =>
      Overflow.FreezeLoses(h, id);
      vs, v := {id}, id;
    case CloseE(id) =>
      var u: Id :| Owes(h.cap.admissions, id, u);
      Overflow.CloseLoses(h, id, u);
      vs, v := {id, u}, u;
    case ResumeE(id, ok, now, loads, others, fault) =>
      vs, v := ResumeLeaves(h, id, now, loads, others, fault);
  }

  lemma ResumeLeaves(h: Host, id: Id, now: int, loads: bool, others: seq<Id>, fault: Fault) returns (vs: set<Id>, v: Id)
    requires HostInv(h) && IsGranted(h, id) && !Harmless(h, ResumeE(id, true, now, loads, others, fault))
    ensures var t := Resume(h, id, true, now, loads, others, fault);
      Overflow.Limping(t, vs) && Overflow.Leftover(t, vs, v)
  {
    var grant := GrantOf(h, id);
    if grant.Some? && grant.value in h.records && IsGranted(h, grant.value) {
      vs, v := Overflow.ResumeLoses(h, id, now, loads, others, fault);
    } else {
      var h1 := HP.VictimFirst(h, id);
      Overflow.ShowFailing(h1, id, now, loads, others, fault);
      vs, v := {id}, id;
    }
  }

  /** From any state of the invariant a step keeps the bound, over all that may legally follow,
      exactly when it is harmless. */
  lemma BoundExact(h: Host, e: H.Event)
    requires HostInv(h) && Proper(h, e)
    ensures StaysBounded(H.Step(h, e)) <==> Harmless(h, e)
  {
    var t := H.Step(h, e);
    if Harmless(h, e) {
      HP.StepLinks(h, e);
      forall events | Runs.Legal(H.Allowed, H.Step, t, events)
        ensures |Runs.After(H.Step, t, events).runtimes| <= t.cap.maxLive
      {
        RunLinks(t, events);
        InvCounts(Runs.After(H.Step, t, events));
      }
    } else {
      var vs, v := HarmLeaves(h, e);
      var events := Overflow.Overflows(t, vs, v);
    }
  }

  // ---------- Pages nobody destroys ----------

  /** A page object leaks exactly when an activation goes on for a browser closed in the meantime:
      it is made before the record is looked up, and is in no table when that fails. */
  lemma LeakExact(h: Host, e: H.Event)
    ensures H.Step(h, e).leaked == h.leaked + if Leaks(h, e) then 1 else 0
  {
    match e
    case ResumeE(id, ok, now, loads, others, fault) => ResumeLeak(h, id, ok, now, loads, others, fault);
    case _ =>
  }

  ghost predicate Leaks(h: Host, e: H.Event) {
    e.ResumeE? && e.ok && IsGranted(h, e.id) && e.id !in h.records && !e.fault.CreateThrows?
  }

  lemma ResumeLeak(h: Host, id: Id, ok: bool, now: int, loads: bool, others: seq<Id>, fault: Fault)
    ensures Resume(h, id, ok, now, loads, others, fault).leaked
      == h.leaked + if Leaks(h, ResumeE(id, ok, now, loads, others, fault)) then 1 else 0
  {
    if ok && IsGranted(h, id) {
      var h1 := if GrantOf(h, id).Some? then FreezeVictim(h, id, GrantOf(h, id).value) else h;
      FreezeLeaksNothing(h, id);
      ResumedLeak(h1, id, now, loads, others, fault);
    }
  }

  lemma FreezeLeaksNothing(h: Host, id: Id)
    ensures forall v :: FreezeVictim(h, id, v).records == h.records && FreezeVictim(h, id, v).leaked == h.leaked
  {
  }

  lemma ResumedLeak(h: Host, id: Id, now: int, loads: bool, others: seq<Id>, fault: Fault)
    requires id in h.calls
    ensures Resumed(h, id, now, loads, others, fault).leaked
      == h.leaked + if id !in h.records && !fault.CreateThrows? then 1 else 0
  {
    HP.ResumedForms(h, id, now, loads, others, fault);
  }
}
