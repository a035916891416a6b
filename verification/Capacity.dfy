/** The bounded set of live renderers (`BrowserCapacity`).

    `Cap` is the abstract state and the functions below are its transitions, one for each
    public operation of the class `TabBrowserPolicy.BrowserCapacity`.  A promise handed to a caller is a
    number; `settled` says how it ended, and a promise absent from `settled` is still waiting.
 */
module Capacity {
  import opened Wrappers

  // Browser ids, numbered in the order in which the source compares them.
  type Id = nat

  datatype Reason = Visible | Operation | Approval | Activation
  datatype LiveEntry = LiveEntry(lastUsedAt: int, protections: set<Reason>)
  datatype Victim = Victim(id: Id, entry: LiveEntry)
  datatype Admission = Admission(inserted: bool, victim: Option<Victim>, victimFrozen: bool)
  datatype Waiter = Waiter(id: Id, now: int, promise: nat)
  datatype Settlement = Granted(freeze: Option<Id>) | Busy | Cancelled
  datatype Verdict = Admitted(freeze: Option<Id>) | Full

  datatype Cap = Cap(
    maxLive: nat,
    maxQueue: nat,
    live: map<Id, LiveEntry>,
    queue: seq<Waiter>,
    pending: map<Id, Waiter>,
    admissions: map<Id, Admission>,
    promises: nat,                  // the next promise number
    settled: map<nat, Settlement>,
    served: seq<nat>)               // promises granted by leaving the queue, oldest first

  // ---------- Victim selection ----------

  predicate Older(live: map<Id, LiveEntry>, a: Id, b: Id)
    requires a in live && b in live
  {
    live[a].lastUsedAt < live[b].lastUsedAt || (live[a].lastUsedAt == live[b].lastUsedAt && a < b)
  }

  predicate Evictable(live: map<Id, LiveEntry>, id: Id) {
    id in live && live[id].protections == {}
  }

  /** The victim is the least unprotected entry by (lastUsedAt, id). */
  ghost predicate IsVictim(live: map<Id, LiveEntry>, id: Id) {
    && Evictable(live, id)
    && forall other :: Evictable(live, other) && other != id ==> Older(live, id, other)
  }

  ghost function VictimOf(live: map<Id, LiveEntry>): (r: Option<Id>)
    ensures r.Some? ==> IsVictim(live, r.value)
    ensures r.None? ==> forall id :: !IsVictim(live, id)
  {
    if exists id :: IsVictim(live, id) then
      var id :| IsVictim(live, id);
      Some(id)
    else
      None
  }

  // ---------- Transitions ----------

  function MarkLive(c: Cap, id: Id, now: int): Cap {
    c.(live := c.live[id := LiveEntry(now, if id in c.live then c.live[id].protections else {})])
  }

  function Touch(c: Cap, id: Id, now: int): Cap {
    if id in c.live then c.(live := c.live[id := c.live[id].(lastUsedAt := now)]) else c
  }

  function Protected(c: Cap, id: Id, reason: Reason): Cap {
    if id in c.live
    then c.(live := c.live[id := c.live[id].(protections := c.live[id].protections + {reason})])
    else c
  }

  function Unprotected(c: Cap, id: Id, reason: Reason): Cap {
    if id in c.live
    then c.(live := c.live[id := c.live[id].(protections := c.live[id].protections - {reason})])
    else c
  }

  ghost function Admit(c: Cap, id: Id, now: int): (r: (Cap, Verdict))
    ensures r.0 == c.(live := r.0.live, admissions := r.0.admissions)
  {
    if id in c.live then
      var c1 := Touch(c, id, now);
      (c1.(admissions := c1.admissions[id := Admission(false, None, false)]), Admitted(None))
    else if |c.live| < c.maxLive then
      var c1 := MarkLive(c, id, now);
      (c1.(admissions := c1.admissions[id := Admission(true, None, false)]), Admitted(None))
    else
      match VictimOf(c.live)
      case None => (c, Full)
      case Some(v) =>
        var c1 := MarkLive(c.(live := c.live - {v}), id, now);
        (c1.(admissions := c1.admissions[id := Admission(true, Some(Victim(v, c.live[v])), false)]),
         Admitted(Some(v)))
  }

  function IndexOf(queue: seq<Waiter>, w: Waiter): (i: nat)
    requires w in queue
    ensures i < |queue| && queue[i] == w && w !in queue[..i]
  {
    if queue[0] == w then 0 else 1 + IndexOf(queue[1..], w)
  }

  function Without(queue: seq<Waiter>, w: Waiter): seq<Waiter> {
    if w in queue then var i := IndexOf(queue, w); queue[..i] + queue[i+1..] else queue
  }

  /** Take a waiter out of the queue and settle its promise; a stale waiter is left alone. */
  function Remove(c: Cap, w: Waiter, how: Settlement): (d: Cap)
    ensures d == c.(pending := d.pending, queue := d.queue, settled := d.settled)
  {
    if w.id !in c.pending || c.pending[w.id] != w then c
    else c.(pending := c.pending - {w.id}, queue := Without(c.queue, w), settled := c.settled[w.promise := how])
  }

  /** One capacity event admits at most the head of the queue. */
  ghost function Drain(c: Cap): (d: Cap)
    ensures d.maxLive == c.maxLive
    ensures d.served == c.served || (c.queue != [] && d.served == c.served + [c.queue[0].promise])
  {
    if c.queue == [] then c
    else
      var w := c.queue[0];
      var (c1, verdict) := Admit(c, w.id, w.now);
      if verdict.Full? then c
      else
        var c2 := Remove(Protected(c1, w.id, Activation), w, Granted(verdict.freeze));
        c2.(served := c2.served + [w.promise])
  }

  function MarkVictims(admissions: map<Id, Admission>, id: Id): map<Id, Admission> {
    map a | a in admissions ::
      if admissions[a].victim.Some? && admissions[a].victim.value.id == id
      then admissions[a].(victimFrozen := true) else admissions[a]
  }

  ghost function MarkFrozen(c: Cap, id: Id): Cap {
    Drain(c.(live := c.live - {id}, admissions := MarkVictims(c.admissions, id)))
  }

  ghost function ProtectFor(c: Cap, id: Id, reason: Reason, on: bool): Cap {
    if id !in c.live then c
    else if on then Protected(c, id, reason)
    else Drain(Unprotected(c, id, reason))
  }

  ghost function ActivateQueued(c: Cap, id: Id, now: int, aborted: bool): (Cap, nat) {
    var p := c.promises;
    if aborted then (c.(promises := p + 1, settled := c.settled[p := Cancelled]), p)
    else
      var (c1, verdict) := Admit(c, id, now);
      if verdict.Admitted? then
        (Protected(c1, id, Activation).(promises := p + 1, settled := c.settled[p := Granted(verdict.freeze)]), p)
      else if id in c.pending then (c, c.pending[id].promise)
      else if |c.queue| >= c.maxQueue then (c.(promises := p + 1, settled := c.settled[p := Busy]), p)
      else
        var w := Waiter(id, now, p);
        (c.(promises := p + 1, queue := c.queue + [w], pending := c.pending[id := w]), p)
  }

  function Cancel(c: Cap, id: Id): Cap {
    if id in c.pending then Remove(c, c.pending[id], Cancelled) else c
  }

  function MarkAdmissionVictimFrozen(c: Cap, id: Id): Cap {
    if id in c.admissions
    then c.(admissions := c.admissions[id := c.admissions[id].(victimFrozen := true)])
    else c
  }

  /** The live map once an admission is undone, before anyone is drained into it. */
  function Restored(live: map<Id, LiveEntry>, id: Id, a: Admission): map<Id, LiveEntry> {
    var kept := if a.inserted then live - {id} else live;
    if a.victim.Some? && !a.victimFrozen && a.victim.value.id !in kept
    then kept[a.victim.value.id := a.victim.value.entry] else kept
  }

  ghost function RollbackActivation(c: Cap, id: Id): Cap {
    if id !in c.admissions then c
    else Drain(c.(live := Restored(c.live, id, c.admissions[id]), admissions := c.admissions - {id}))
  }

  ghost function SettleActivation(c: Cap, id: Id): Cap {
    ProtectFor(c.(admissions := c.admissions - {id}), id, Activation, false)
  }

  // ---------- Invariant ----------

  /** Admission `a` still owes its slot to the page of `v`, which nothing has frozen yet. */
  predicate Owes(admissions: map<Id, Admission>, a: Id, v: Id) {
    a in admissions && admissions[a].victim.Some? && admissions[a].victim.value.id == v && !admissions[a].victimFrozen
  }

  ghost predicate IsUnfrozenVictim(c: Cap, v: Id) {
    exists a :: Owes(c.admissions, a, v)
  }

  ghost predicate HoldsUnfrozenVictim(c: Cap, a: Id) {
    exists v :: Owes(c.admissions, a, v)
  }

  /** `pending` indexes the queue by id, so nobody waits twice. */
  ghost predicate Indexed(queue: seq<Waiter>, pending: map<Id, Waiter>) {
    && (forall i, j :: 0 <= i < j < |queue| ==> queue[i].id != queue[j].id)
    && (forall w :: w in queue ==> w.id in pending && pending[w.id] == w)
    && (forall id :: id in pending ==> pending[id] in queue && pending[id].id == id)
  }

  /** Waiters stand in the order in which they were promised, and none is settled. */
  ghost predicate InOrder(queue: seq<Waiter>, settled: map<nat, Settlement>, promises: nat) {
    && (forall i, j :: 0 <= i < j < |queue| ==> queue[i].promise < queue[j].promise)
    && (forall w :: w in queue ==> w.promise < promises && w.promise !in settled)
    && (forall p :: p in settled ==> p < promises)
  }

  ghost predicate QueueOk(c: Cap) {
    |c.queue| <= c.maxQueue && Indexed(c.queue, c.pending) && InOrder(c.queue, c.settled, c.promises)
  }

  /** Promises are served in the order they were made, and every waiter comes after them. */
  ghost predicate ServedOk(served: seq<nat>, queue: seq<Waiter>, promises: nat) {
    && (forall i, j :: 0 <= i < j < |served| ==> served[i] < served[j])
    && (forall p, w :: p in served && w in queue ==> p < w.promise)
    && (forall p :: p in served ==> p < promises)
  }

  /** Nobody waits while a slot or an unprotected entry is available, and no waiter is live. */
  ghost predicate WorkConserving(c: Cap) {
    && (c.queue != [] ==> |c.live| == c.maxLive && forall id :: id in c.live ==> c.live[id].protections != {})
    && (forall w :: w in c.queue ==> w.id !in c.live)
  }

  /** An admission whose victim is not frozen yet still owns the slot: its candidate is live and
      protected, and the victim is neither live, nor waiting, nor owed to another admission. */
  ghost predicate AdmissionsOk(live: map<Id, LiveEntry>, admissions: map<Id, Admission>, pending: map<Id, Waiter>) {
    && (forall a, v :: Owes(admissions, a, v) ==>
          && admissions[a].inserted && a in live && Activation in live[a].protections
          && v !in live && v !in pending)
    && (forall a, b, v :: Owes(admissions, a, v) && Owes(admissions, b, v) ==> a == b)
  }

  ghost predicate Inv(c: Cap) {
    && |c.live| <= c.maxLive
    && QueueOk(c) && ServedOk(c.served, c.queue, c.promises) && WorkConserving(c)
    && AdmissionsOk(c.live, c.admissions, c.pending)
  }

  // ---------- Events and runs ----------

  datatype Event =
    | MarkLiveE(id: Id, now: int)
    | MarkFrozenE(id: Id)
    | ProtectForE(id: Id, reason: Reason, on: bool)
    | TouchE(id: Id, now: int)
    | ActivateE(id: Id, now: int, aborted: bool)
    | CancelE(id: Id)
    | RejectE(waiter: Waiter, how: Settlement)     // its timer fires, or its signal aborts
    | VictimFrozenE(id: Id)
    | RollbackE(id: Id)
    | SettleE(id: Id)

  ghost function Step(c: Cap, e: Event): Cap {
    match e
    case MarkLiveE(id, now) => MarkLive(c, id, now)
    case MarkFrozenE(id) => MarkFrozen(c, id)
    case ProtectForE(id, reason, on) => ProtectFor(c, id, reason, on)
    case TouchE(id, now) => Touch(c, id, now)
    case ActivateE(id, now, aborted) => ActivateQueued(c, id, now, aborted).0
    case CancelE(id) => Cancel(c, id)
    case RejectE(w, how) => Remove(c, w, how)
    case VictimFrozenE(id) => MarkAdmissionVictimFrozen(c, id)
    case RollbackE(id) => RollbackActivation(c, id)
    case SettleE(id) => SettleActivation(c, id)
  }

  /** The calls a caller may make: it re-marks only live ids, does not freeze a candidate that
      still owes its slot to an unfrozen victim, lifts the activation protection by settling only,
      and does not activate a browser whose page is an unfrozen victim. */
  ghost predicate Allowed(c: Cap, e: Event) {
    match e
    case MarkLiveE(id, _) => id in c.live
    case MarkFrozenE(id) => !HoldsUnfrozenVictim(c, id)
    case ProtectForE(_, reason, on) => reason == Activation ==> on
    case ActivateE(id, _, aborted) => aborted || !IsUnfrozenVictim(c, id)
    case _ => true
  }

  function Empty(maxLive: nat, maxQueue: nat): Cap {
    Cap(maxLive, maxQueue, map[], [], map[], map[], 0, map[], [])
  }
}
