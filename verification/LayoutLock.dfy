/** Any number of processes that save one layout file under one lock file.

    A step is one system call.  The lock names a process life and carries a token of its own; a life
    that crashed never comes back.  The lock of an owner that is judged dead is removed in two steps, a
    check that it is still the lock that was judged and the unlink; the unlink removes whatever stands
    there by then.
 */
module LayoutLock {
  import opened Wrappers

  type Pid = nat
  type Layout = nat       // a content of the layout file; content is the version

  datatype Lock = Lock(owner: Pid, token: nat)
  datatype Save = Save(expected: Layout, text: Layout)

  datatype Phase =
    | Outside
    | Contending(save: Save)
    | Saw(save: Save, lock: Lock)
    | Checking(save: Save, lock: Lock)       // the lock's owner is dead
    | Unlinking(save: Save, lock: Lock)      // and the lock was still the same
    | Holding(save: Save, token: nat)
    | Matched(save: Save, token: nat)        // the layout was the expected one
    | Done(token: nat)
    | Releasing(token: nat)

  datatype Write = Write(replaced: Layout, save: Save)

  datatype System = System(
    layout: Layout,
    lock: Option<Lock>,
    phases: map<Pid, Phase>,
    dead: set<Pid>,
    tokens: nat,
    writes: seq<Write>)

  datatype Event =
    | StartE(p: Pid, save: Save)
    | LinkE(p: Pid)
    | SnapshotE(p: Pid)
    | JudgeE(p: Pid, dead: bool)
    | CheckE(p: Pid)
    | UnlinkE(p: Pid)
    | CompareE(p: Pid)
    | WriteE(p: Pid)
    | CheckOwnE(p: Pid)
    | ReleaseE(p: Pid)
    | GiveUpE(p: Pid)
    | CrashE(p: Pid)

  function At(phases: map<Pid, Phase>, p: Pid): Phase {
    if p in phases then phases[p] else Outside
  }

  function Go(s: System, p: Pid, phase: Phase): (t: System)
    ensures t == s.(phases := t.phases) && At(t.phases, p) == phase
    ensures forall q :: q != p ==> At(t.phases, q) == At(s.phases, q)
  {
    s.(phases := s.phases[p := phase])
  }

  function Step(s: System, e: Event): System {
    if e.p in s.dead then s
    else
      var phase := At(s.phases, e.p);
      match e
      case StartE(p, save) => if phase.Outside? then Go(s, p, Contending(save)) else s
      case LinkE(p) =>
        if !phase.Contending? || s.lock.Some? then s
        else Go(s.(lock := Some(Lock(p, s.tokens)), tokens := s.tokens + 1), p, Holding(phase.save, s.tokens))
      case SnapshotE(p) =>
        if phase.Contending? && s.lock.Some? then Go(s, p, Saw(phase.save, s.lock.value)) else s
      case JudgeE(p, dead) =>
        if phase.Saw? then Go(s, p, if dead then Checking(phase.save, phase.lock) else Contending(phase.save)) else s
      case CheckE(p) =>
        if !phase.Checking? then s
        else Go(s, p, if s.lock == Some(phase.lock) then Unlinking(phase.save, phase.lock) else Contending(phase.save))
      case UnlinkE(p) => if phase.Unlinking? then Go(s.(lock := None), p, Contending(phase.save)) else s
      case CompareE(p) =>
        if !phase.Holding? then s
        else Go(s, p, if s.layout == phase.save.expected then Matched(phase.save, phase.token) else Done(phase.token))
      case WriteE(p) =>
        if !phase.Matched? then s
        else
          Go(s.(layout := phase.save.text, writes := s.writes + [Write(s.layout, phase.save)]), p, Done(phase.token))
      case CheckOwnE(p) =>
        if !phase.Done? then s
        else Go(s, p, if s.lock == Some(Lock(p, phase.token)) then Releasing(phase.token) else Outside)
      case ReleaseE(p) => if phase.Releasing? then Go(s.(lock := None), p, Outside) else s
      case GiveUpE(p) => if phase.Contending? then Go(s, p, Outside) else s
      case CrashE(p) => s.(dead := s.dead + {p})
  }

  // ---------- The conditions ----------

  /** A reclaimer, which looks no more, unlinks the lock of a living process. */
  predicate HitsLiving(s: System, e: Event) {
    && e.UnlinkE? && e.p !in s.dead && At(s.phases, e.p).Unlinking?
    && s.lock.Some? && s.lock.value.owner !in s.dead
  }

  /** What exclusion takes: no unlink hits a living process. */
  predicate SparesOwners(s: System, e: Event) {
    !HitsLiving(s, e)
  }

  /** What the saves take: a living process may be hit once its save is done. */
  predicate SparesSaves(s: System, e: Event) {
    HitsLiving(s, e) ==> At(s.phases, s.lock.value.owner).Done?
  }

  /** A way to meet both: an owner is judged dead only when it is, and nobody passes the check while
      another living process is about to unlink. */
  ghost predicate Careful(s: System, e: Event) {
    match e
    case JudgeE(p, dead) => dead && At(s.phases, p).Saw? ==> At(s.phases, p).lock.owner in s.dead
    case CheckE(p) =>
      At(s.phases, p).Checking? && s.lock == Some(At(s.phases, p).lock) ==>
        forall q :: q !in s.dead && q != p ==> !At(s.phases, q).Unlinking?
    case _ => true
  }

  // ---------- Invariants ----------

  predicate Holds(phase: Phase, token: nat) {
    (phase.Holding? || phase.Matched? || phase.Done? || phase.Releasing?) && phase.token == token
  }

  predicate Owns(s: System, p: Pid) {
    var phase := At(s.phases, p);
    p !in s.dead && (phase.Holding? || phase.Matched? || phase.Done? || phase.Releasing?)
  }

  /** `p` still relies on its lock: it has yet to save, or it is about to unlink. */
  predicate Relies(s: System, p: Pid) {
    Owns(s, p) && !At(s.phases, p).Done?
  }

  /** The lock of a living process is one it holds. */
  ghost predicate Named(s: System) {
    s.lock.Some? && s.lock.value.owner !in s.dead ==> Holds(At(s.phases, s.lock.value.owner), s.lock.value.token)
  }

  /** Whoever is inside is named by the lock, so at most one process is. */
  ghost predicate Exclusive(s: System) {
    Named(s) && forall p :: Owns(s, p) ==> s.lock == Some(Lock(p, At(s.phases, p).token))
  }

  /** At most one living process is between its acquisition and its release. */
  ghost predicate Alone(s: System) {
    forall p, q :: Owns(s, p) && Owns(s, q) ==> p == q
  }

  /** Whoever relies on its lock is named by it, and a layout found as expected stays so. */
  ghost predicate Guarded(s: System) {
    && Named(s)
    && (forall p :: Relies(s, p) ==> s.lock == Some(Lock(p, At(s.phases, p).token)))
    && (forall p :: Relies(s, p) && At(s.phases, p).Matched? ==> s.layout == At(s.phases, p).save.expected)
    && Chained(s)
  }

  /** Each save replaced exactly the content it expected, and the next one started from its text. */
  predicate Chained(s: System) {
    && (forall i :: 0 <= i < |s.writes| ==> s.writes[i].replaced == s.writes[i].save.expected)
    && (forall i :: 0 < i < |s.writes| ==> s.writes[i].replaced == s.writes[i-1].save.text)
    && (s.writes != [] ==> s.layout == s.writes[|s.writes|-1].save.text)
  }

  /** Under care whoever is about to unlink finds the dead owner's lock that it judged. */
  ghost predicate Aimed(s: System) {
    && (forall p :: p !in s.dead && At(s.phases, p).Checking? ==> At(s.phases, p).lock.owner in s.dead)
    && (forall p :: p !in s.dead && At(s.phases, p).Unlinking? ==>
          s.lock == Some(At(s.phases, p).lock) && At(s.phases, p).lock.owner in s.dead)
    && (forall p, q :: p !in s.dead && q !in s.dead ==>
          At(s.phases, p).Unlinking? && At(s.phases, q).Unlinking? ==> p == q)
  }

  function Start(layout: Layout): System {
    System(layout, None, map[], {}, 0, [])
  }
}
