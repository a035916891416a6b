/** The page lifecycle of `TabBrowserHost` as a state machine over its synchronous stretches.

    `open` and `thaw` suspend while capacity is awaited and while a restored page loads; a `Call`
    is such a suspended activation, at most one for each browser.  A page object is known by its
    incarnation, so `pages` keeps the generation of a page that has left the table.
 */
module Host {
  import opened Wrappers
  import opened Capacity

  datatype Page = Page(generation: nat, loading: bool, navigationPending: bool, visible: bool)
  datatype Kind = Opening(visible: bool) | Thawing
  datatype Phase = Awaiting | Restoring(incarnation: nat)
  datatype Call = Call(promise: nat, kind: Kind, phase: Phase)

  datatype Host = Host(
    cap: Cap,
    records: set<Id>,
    runtimes: map<Id, nat>,       // the incarnation of the page that serves a browser
    pages: map<nat, Page>,
    floor: map<Id, nat>,          // tombstones: the generation at which the last page was torn down
    calls: map<Id, Call>,
    incarnations: nat,            // the next incarnation
    leaked: nat)                  // page objects made for a record that was gone; nothing destroys them

  /** What a resumed activation meets: every call goes well, the page cannot be made, or the call with
      this number, counting the hiding of other pages and then the page's own, throws. */
  datatype Fault = NoFault | CreateThrows | CallThrows(call: nat)

  datatype PageEvent =
    | UserInput
    | NavigationStarted
    | NavigationCommitted(inPage: bool, allowed: bool)
    | LoadingStopped
    | Dialog
    | Crashed

  // A leased command: navigate, reload or move in history, or anything else that only advances.
  datatype Command = Navigate | Reload | Other

  datatype Event =
    | OpenE(id: Id, now: int, visible: bool, aborted: bool)
    | ThawE(id: Id, now: int, aborted: bool)
    | ResumeE(id: Id, ok: bool, now: int, loads: bool, others: seq<Id>, fault: Fault)
    | RestoredE(id: Id, ok: bool)
    | PageE(id: Id, incarnation: nat, event: PageEvent)
    | ActE(id: Id, incarnation: nat, generation: nat, command: Command)
    | FreezeE(id: Id)
    | QuarantineE(id: Id, incarnation: nat)
    | CloseE(id: Id)
    | ShowE(id: Id, now: int, others: seq<Id>)
    | HideE(id: Id)
    | ProtectE(id: Id, reason: Reason, on: bool)
    | WaiterE(waiter: Waiter, how: Settlement)

  // ---------- Reading ----------

  function FloorOf(h: Host, id: Id): nat {
    if id in h.floor then h.floor[id] else 0
  }

  /** The generation that `status` reports. */
  function Reported(h: Host, id: Id): nat {
    if id in h.runtimes && h.runtimes[id] in h.pages then h.pages[h.runtimes[id]].generation else FloorOf(h, id)
  }

  /** A lease names a page and its generation; a command runs only while both are current. */
  predicate Accepts(h: Host, id: Id, incarnation: nat, generation: nat) {
    && id in h.records && id in h.runtimes && h.runtimes[id] == incarnation
    && incarnation in h.pages && h.pages[incarnation].generation == generation
  }

  predicate Serves(h: Host, id: Id, incarnation: nat) {
    id in h.runtimes && h.runtimes[id] == incarnation && incarnation in h.pages
  }

  predicate IsAwaiting(h: Host, id: Id) {
    id in h.calls && h.calls[id].phase.Awaiting?
  }

  /** Capacity is granted, but the activation has not yet been resumed. */
  predicate IsGranted(h: Host, id: Id) {
    && IsAwaiting(h, id)
    && h.calls[id].promise in h.cap.settled && h.cap.settled[h.calls[id].promise].Granted?
  }

  function GrantOf(h: Host, id: Id): Option<Id>
    requires IsGranted(h, id)
  {
    h.cap.settled[h.calls[id].promise].freeze
  }

  // ---------- Teardown ----------

  function WithPage(h: Host, incarnation: nat, page: Page): Host {
    h.(pages := h.pages[incarnation := page])
  }

  function Bumped(h: Host, incarnation: nat): Host {
    if incarnation in h.pages
    then WithPage(h, incarnation, h.pages[incarnation].(generation := h.pages[incarnation].generation + 1))
    else h
  }

  /** A page leaves the table before it is destroyed, and its next generation is the tombstone. */
  function TornDown(h: Host, id: Id, incarnation: nat): Host {
    var h1 := Bumped(h.(runtimes := h.runtimes - {id}), incarnation);
    if incarnation in h1.pages then h1.(floor := h1.floor[id := h1.pages[incarnation].generation]) else h1
  }

  ghost function Release(h: Host, id: Id): (g: Host)
    ensures g == h.(cap := g.cap) && g.cap.maxLive == h.cap.maxLive
  {
    h.(cap := MarkFrozen(h.cap, id))
  }

  ghost function Freeze(h: Host, id: Id): (g: Host)
    ensures g.cap.maxLive == h.cap.maxLive && g.calls == h.calls
  {
    if id !in h.records then h
    else Release(if id in h.runtimes then TornDown(h, id, h.runtimes[id]) else h, id)
  }

  ghost function Quarantine(h: Host, id: Id, incarnation: nat): (g: Host)
    ensures g.cap.maxLive == h.cap.maxLive
  {
    if id !in h.records || id !in h.runtimes || h.runtimes[id] != incarnation then h
    else Release(TornDown(h, id, incarnation), id)
  }

  ghost function Close(h: Host, id: Id): (g: Host)
    ensures g.cap.maxLive == h.cap.maxLive
    ensures id in h.records ==> g == h.(cap := g.cap, runtimes := h.runtimes - {id}, records := h.records - {id})
  {
    if id !in h.records then h
    else
      var h1 := h.(cap := Cancel(h.cap, id), runtimes := h.runtimes - {id});
      var h2 := Release(h1, id);
      h2.(records := h2.records - {id})
  }

  // ---------- Activation ----------

  ghost function Begin(h: Host, id: Id, now: int, kind: Kind, aborted: bool): (g: Host)
    ensures g.cap.maxLive == h.cap.maxLive
  {
    var (cap, promise) := ActivateQueued(h.cap, id, now, aborted);
    h.(cap := cap, calls := h.calls[id := Call(promise, kind, Awaiting)])
  }

  ghost function Open(h: Host, id: Id, now: int, visible: bool, aborted: bool): Host {
    Begin(h.(records := h.records + {id}), id, now, Opening(visible), aborted)
  }

  ghost function Thaw(h: Host, id: Id, now: int, aborted: bool): Host {
    if id !in h.records || id in h.runtimes then h else Begin(h, id, now, Thawing, aborted)
  }

  function Left(h: Host, id: Id): Host {
    h.(calls := h.calls - {id})
  }

  ghost function Settle(h: Host, id: Id): (g: Host)
    ensures g.cap.maxLive == h.cap.maxLive
  {
    h.(cap := SettleActivation(h.cap, id))
  }

  /** The activation failed before it had a page of its own. */
  ghost function Failed(h: Host, id: Id): (g: Host)
    requires id in h.calls
    ensures g.cap.maxLive == h.cap.maxLive
    ensures g == h.(cap := g.cap, records := g.records, calls := h.calls - {id})
  {
    var h1 := Left(h.(cap := RollbackActivation(h.cap, id)), id);
    Settle(if h.calls[id].kind.Opening? then h1.(records := h1.records - {id}) else h1, id)
  }

  /** The candidate takes over its victim's slot before the victim is touched. */
  ghost function FreezeVictim(h: Host, id: Id, victim: Id): (g: Host)
    ensures g.calls == h.calls && g.cap.maxLive == h.cap.maxLive
  {
    Freeze(h.(cap := MarkAdmissionVictimFrozen(h.cap, id)), victim)
  }

  function MakeRuntime(h: Host, id: Id, now: int): Host {
    h.(runtimes := h.runtimes[id := h.incarnations],
       pages := h.pages[h.incarnations := Page(FloorOf(h, id), false, false, false)],
       incarnations := h.incarnations + 1,
       cap := MarkLive(h.cap, id, now))
  }

  function WithVisible(h: Host, id: Id, visible: bool): Host {
    if id in h.runtimes && h.runtimes[id] in h.pages
    then WithPage(h, h.runtimes[id], h.pages[h.runtimes[id]].(visible := visible))
    else h
  }

  ghost function Protect(h: Host, id: Id, reason: Reason, on: bool): Host {
    h.(cap := ProtectFor(h.cap, id, reason, on))
  }

  /** Hide the other pages one by one; `others` is the table's iteration order. */
  ghost function HideOthers(h: Host, others: seq<Id>): (g: Host)
    ensures g.cap.maxLive == h.cap.maxLive
    ensures g == h.(cap := g.cap, pages := g.pages)
    decreases |others|
  {
    if others == [] then h
    else HideOthers(Protect(WithVisible(h, others[0], false), others[0], Visible, false), others[1..])
  }

  ghost function Present(h: Host, id: Id, others: seq<Id>): (g: Host)
    ensures g.cap.maxLive == h.cap.maxLive
  {
    Protect(WithVisible(HideOthers(h, others), id, true), id, Visible, true)
  }

  /** A restored page is dropped, wherever its load failed. */
  ghost function RestoreFailed(h: Host, id: Id, incarnation: nat): (g: Host)
    ensures g.cap.maxLive == h.cap.maxLive
  {
    Settle(Release(TornDown(Left(h, id), id, incarnation), id), id)
  }

  function Upto(others: seq<Id>, call: nat): seq<Id> {
    if call < |others| then others[..call] else others
  }

  /** A page call of an opening threw: the activation is undone, but the page stays in the table. */
  ghost function PresentFailed(h: Host, id: Id, visible: bool, others: seq<Id>, call: nat): (g: Host)
    requires id in h.calls
    ensures g.cap.maxLive == h.cap.maxLive
  {
    Failed(if visible then HideOthers(h, Upto(others, call)) else h, id)
  }

  /** The rest of a granted activation, once its victim is frozen. */
  ghost function Resumed(h: Host, id: Id, now: int, loads: bool, others: seq<Id>, fault: Fault): (g: Host)
    requires id in h.calls
    ensures g.cap.maxLive == h.cap.maxLive
  {
    if fault.CreateThrows? then Failed(h, id)
    else if id !in h.records then Failed(h.(leaked := h.leaked + 1), id)
    else
      var h2 := MakeRuntime(h, id, now);
      match h.calls[id].kind
      case Opening(visible) =>
        if fault.CallThrows? then PresentFailed(h2, id, visible, others, fault.call)
        else Settle(if visible then Present(Left(h2, id), id, others) else Left(h2, id), id)
      case Thawing =>
        if loads then h2.(calls := h2.calls[id := h2.calls[id].(phase := Restoring(h.incarnations))])
        else RestoreFailed(h2, id, h.incarnations)
  }

  /** An awaited activation goes on once its promise is settled; `ok` is the outcome of validation
      and of the caller's signal, `loads` whether policy still allows the page to be restored. */
  ghost function Resume(h: Host, id: Id, ok: bool, now: int, loads: bool, others: seq<Id>, fault: Fault): (g: Host)
    ensures g.cap.maxLive == h.cap.maxLive
  {
    if !IsAwaiting(h, id) || h.calls[id].promise !in h.cap.settled then h
    else if !ok || !IsGranted(h, id) then Failed(h, id)
    else
      var grant := GrantOf(h, id);
      Resumed(if grant.Some? then FreezeVictim(h, id, grant.value) else h, id, now, loads, others, fault)
  }

  ghost function Restored(h: Host, id: Id, ok: bool): (g: Host)
    ensures g.cap.maxLive == h.cap.maxLive
  {
    if id !in h.calls || h.calls[id].phase.Awaiting? then h
    else if ok && id in h.records then Settle(Left(h, id), id)
    else RestoreFailed(h, id, h.calls[id].phase.incarnation)
  }

  // ---------- Pages and commands ----------

  ghost function OnPage(h: Host, id: Id, incarnation: nat, event: PageEvent): (g: Host)
    ensures g.cap.maxLive == h.cap.maxLive
  {
    if !Serves(h, id, incarnation) || (id !in h.records && !event.UserInput?) then h
    else
      var page := h.pages[incarnation];
      match event
      case UserInput => Bumped(h, incarnation)
      case Dialog => Bumped(h, incarnation)
      case LoadingStopped => WithPage(h, incarnation, page.(navigationPending := false, loading := false))
      case NavigationStarted =>
        var generation := if page.navigationPending || page.loading then page.generation else page.generation + 1;
        WithPage(h, incarnation, page.(generation := generation, navigationPending := false, loading := true))
      case NavigationCommitted(inPage, allowed) =>
        if !allowed then Release(TornDown(h, id, incarnation), id)
        else
          var generation := if inPage && !page.loading then page.generation + 1 else page.generation;
          WithPage(h, incarnation, page.(generation := generation, navigationPending := false, loading := false))
      case Crashed => Release(TornDown(h, id, incarnation), id)
  }

  /** A leased command advances the generation when its lease is current and is refused otherwise. */
  function Act(h: Host, id: Id, incarnation: nat, generation: nat, command: Command): Host {
    if !Accepts(h, id, incarnation, generation) then h
    else
      var page := h.pages[incarnation];
      WithPage(h, incarnation, page.(
        generation := page.generation + 1,
        loading := page.loading || command.Navigate?,
        navigationPending := page.navigationPending || command.Reload?))
  }

  ghost function Show(h: Host, id: Id, now: int, others: seq<Id>): (g: Host)
    ensures g.cap.maxLive == h.cap.maxLive
  {
    if id !in h.records || id !in h.runtimes then h
    else
      var h1 := Present(h, id, others);
      h1.(cap := Touch(h1.cap, id, now))
  }

  ghost function Hide(h: Host, id: Id): (g: Host)
    ensures g.cap.maxLive == h.cap.maxLive
  {
    if id !in h.records then h else Protect(WithVisible(h, id, false), id, Visible, false)
  }

  ghost function Step(h: Host, e: Event): Host {
    match e
    case OpenE(id, now, visible, aborted) => Open(h, id, now, visible, aborted)
    case ThawE(id, now, aborted) => Thaw(h, id, now, aborted)
    case ResumeE(id, ok, now, loads, others, fault) => Resume(h, id, ok, now, loads, others, fault)
    case RestoredE(id, ok) => Restored(h, id, ok)
    case PageE(id, incarnation, event) => OnPage(h, id, incarnation, event)
    case ActE(id, incarnation, generation, command) => Act(h, id, incarnation, generation, command)
    case FreezeE(id) => Freeze(h, id)
    case QuarantineE(id, incarnation) => Quarantine(h, id, incarnation)
    case CloseE(id) => Close(h, id)
    case ShowE(id, now, others) => Show(h, id, now, others)
    case HideE(id) => Hide(h, id)
    case ProtectE(id, reason, on) => Protect(h, id, reason, on)
    case WaiterE(w, how) => h.(cap := Remove(h.cap, w, how))
  }

  /** An opened id is new, and activations of one browser do not overlap. */
  ghost predicate Ordered(h: Host, e: Event) {
    match e
    case OpenE(id, _, _, _) => id !in h.records && id !in h.calls && id !in h.runtimes
    case ThawE(id, _, _) => id !in h.calls
    case _ => true
  }

  /** How the host is called: in order, and the activation protection and grants belong to capacity. */
  ghost predicate Proper(h: Host, e: Event) {
    && Ordered(h, e)
    && (e.ProtectE? ==> e.reason != Activation)
    && (e.WaiterE? ==> !e.how.Granted?)
  }

  /** What the bound on pages takes: a browser whose grant still owes its place to an unfrozen victim
      is not closed before it is resumed, no browser with an unused grant is frozen, by itself or as
      the victim of another, and no page call of an opening throws. */
  ghost predicate Harmless(h: Host, e: Event) {
    match e
    case FreezeE(id) => id in h.records ==> !IsGranted(h, id)
    case CloseE(id) => id in h.records ==> !HoldsUnfrozenVictim(h.cap, id)
    case ResumeE(id, ok, _, _, _, fault) =>
      ok && IsGranted(h, id) ==>
        && (GrantOf(h, id).Some? && GrantOf(h, id).value in h.records ==> !IsGranted(h, GrantOf(h, id).value))
        && (id in h.records && h.calls[id].kind.Opening? ==> !fault.CallThrows?)
    case _ => true
  }

  ghost predicate Allowed(h: Host, e: Event) {
    Proper(h, e) && Harmless(h, e)
  }

  function Empty(maxLive: nat, maxQueue: nat, records: set<Id>): Host {
    Host(Capacity.Empty(maxLive, maxQueue), records, map[], map[], map[], map[], 0, 0)
  }

  // ---------- Invariant ----------

  /** How activations, pages and capacity hang together: a live browser has a page or a grant it
      has yet to use, a debt belongs to such a grant, and a grant owns a protected place, unless its
      browser has been closed. */
  ghost predicate Core(h: Host) {
    && h.runtimes.Keys <= h.records
    && (forall id :: id in h.cap.live ==> id in h.runtimes || IsGranted(h, id))
    && (forall a: Id, v: Id :: Owes(h.cap.admissions, a, v) ==>
          IsGranted(h, a) && GrantOf(h, a) == Some(v) && v in h.runtimes)
    && (forall id: Id :: IsGranted(h, id) ==> GrantOf(h, id) != Some(id) && (id in h.records ==> id in h.cap.live))
    && (forall id :: IsGranted(h, id) && id in h.cap.live ==>
          && Activation in h.cap.live[id].protections
          && id in h.cap.admissions && h.cap.admissions[id].inserted)
    && CallsOk(h.calls, h.cap.queue, h.cap.promises)
    && (forall id :: IsAwaiting(h, id) ==> id !in h.runtimes)
  }

  ghost predicate CallsOk(calls: map<Id, Call>, queue: seq<Waiter>, promises: nat) {
    && (forall id :: id in calls ==> calls[id].promise < promises)
    && (forall a, b :: a in calls && b in calls && a != b ==> calls[a].promise != calls[b].promise)
    && (forall w :: w in queue ==> w.id in calls && calls[w.id].phase.Awaiting? && calls[w.id].promise == w.promise)
  }

  /** Every page is counted: it is live, or it is a victim not frozen yet. */
  ghost predicate Accounted(h: Host, except: set<Id>) {
    forall id :: id in h.runtimes && id !in except ==> id in h.cap.live || IsUnfrozenVictim(h.cap, id)
  }

  ghost predicate Linked(h: Host, except: set<Id>) {
    Inv(h.cap) && Core(h) && Accounted(h, except)
  }

  ghost predicate HostInv(h: Host) {
    Linked(h, {})
  }
}
