/** What a command is entitled to: a healthy one runs, a refused one was refused for a reason, and a
    barrier ends, or turns on the page, only because of what was seen. */
module QueueLaws {
  import opened Wrappers
  import opened Queue
  import opened QueueProofs
  import Runs

  // ---------- Its turn ----------

  /** Nothing stands against entry `k`. */
  predicate Healthy(q: Queue, k: nat, accepting: bool) {
    k < |q.entries| && accepting && !q.poisoned && !q.entries[k].cancelled
  }

  /** Only entry `k` differs. */
  predicate Elsewhere(q: Queue, r: Queue, k: nat) {
    && |r.entries| == |q.entries| && r.poisoned == q.poisoned
    && forall i :: 0 <= i < |q.entries| && i != k ==> r.entries[i] == q.entries[i]
  }

  /** A command whose turn has come, against which nothing stands, is active and bound to its page; and
      its dispatch, if nothing has come up by then, reaches the host and is reported if it announces. */
  lemma HealthyRuns(q: Queue, k: nat)
    requires QueueInv(q) && Healthy(q, k, true) && Reached(q, k) && q.entries[k].operation.Waiting?
    ensures var r := Step(q, EntryE(k, Head(true)));
      && Elsewhere(q, r, k) && r.entries[k].operation.Active? && r.entries[k].bound && r.entries[k].terminal.None?
      && r.entries[k].incarnation == q.entries[k].incarnation
      && Healthy(r, k, true) && !r.entries[k].dispatched
  {
    EntryKeeps(q.entries[k], Head(true), q.poisoned);
  }

  lemma HealthyDispatches(q: Queue, k: nat)
    requires QueueInv(q) && Healthy(q, k, true) && q.entries[k].operation.Active? && !q.entries[k].dispatched
    ensures var r := Step(q, EntryE(k, Dispatch(true)));
      && Elsewhere(q, r, k) && r.entries[k].operation.Active? && r.entries[k].dispatched
      && (r.entries[k].started <==> r.entries[k].announces) && r.entries[k].announces == q.entries[k].announces
  {
  }

  /** A command is refused at its turn, or at its dispatch. */
  ghost predicate RefusedAt(events: seq<Event>, a: nat, k: nat)
    requires a < |events|
  {
    && events[a].EntryE? && events[a].k == k
    && (events[a].act.Head? || events[a].act.Dispatch?)
    && !Healthy(Reach(events, a), k, events[a].act.accepting)
  }

  /** Its operation ends by itself. */
  predicate CompletedAt(events: seq<Event>, a: nat, k: nat)
    requires a < |events|
  {
    events[a] == EntryE(k, Complete)
  }

  /** Over every run: a command that is over and never reached the host was cancelled, or met a draining
      service or a poisoned browser at its turn or at its dispatch, or its operation ended before. */
  lemma {:induction false} RefusedForAReason(events: seq<Event>, n: nat, k: nat) returns (a: nat)
    requires n <= |events| && k < |Reach(events, n).entries|
    requires var e := Reach(events, n).entries[k]; e.operation.Done? && !e.dispatched
    ensures a < n && (RefusedAt(events, a, k) || CompletedAt(events, a, k))
    decreases n
  {
    Begun(events);
    ReachNext(events, n - 1);
    var q := Reach(events, n - 1);
    if k < |q.entries| && q.entries[k].operation.Done? {
      assert EntryGoesOn(q.entries[k], Reach(events, n).entries[k]);
      a := RefusedForAReason(events, n - 1, k);
    } else {
      a := n - 1;
      DoneNow(q, events[n-1], k);
    }
  }

  lemma DoneNow(q: Queue, e: Event, k: nat)
    requires QueueInv(q) && k < |Step(q, e).entries| && (k < |q.entries| ==> !q.entries[k].operation.Done?)
    requires Step(q, e).entries[k].operation.Done? && !Step(q, e).entries[k].dispatched
    ensures e.EntryE? && e.k == k && k < |q.entries|
    ensures e.act.Complete? || ((e.act.Head? || e.act.Dispatch?) && !Healthy(q, k, e.act.accepting))
  {
  }

  // ---------- Its end ----------

  /** Why a barrier ends: its operation has settled, or it was cancelled and its page found idle; its
      page was detached; or neither could be had. */
  predicate EndsBecause(e: Entry, act: Act, terminal: Terminal) {
    match terminal
    case Cooperative =>
      || (act.Settle? && e.operation.Done? && !e.isolating)
      || ((act.Cancel? || act.Timeout?) && (e.settled || (e.started && Reading(e, act.answer) == Some(false))))
    case Isolated => act == Isolate(true) && e.isolating
    case Poisoned => act == Isolate(false) && e.isolating
  }

  /** A barrier ends, is given its grace, or turns on the page, only for these reasons. */
  lemma EndsOnlyBecause(e: Entry, act: Act, poisoned: bool)
    requires EntryOk(e)
    ensures var f := EntryStep(e, act, poisoned);
      && (e.terminal.None? && f.terminal.Some? ==> EndsBecause(e, act, f.terminal.value))
      && (!e.timer && f.timer ==> act.Cancel? && e.started && act.answer != Some(false))
      && (!e.isolating && f.isolating ==> act.Timeout? && e.timer && act.answer != Some(false))
      && (!e.detached && f.detached ==> act == Isolate(true))
      && (!e.cancelled && f.cancelled ==> act.Cancel?)
  {
  }

  /** And it does so whenever there is such a reason. */
  lemma EndsWhenever(e: Entry, act: Act, poisoned: bool)
    requires EntryOk(e) && e.terminal.None?
    ensures var f := EntryStep(e, act, poisoned);
      match act
      case Settle => e.operation.Done? && !e.settled && !e.isolating ==> f.settled && f.terminal == Some(Cooperative)
      case Cancel(answer) =>
        f.cancelled
        && (!e.cancelled && e.started ==>
              if Reading(e, answer) == Some(false) then f.terminal == Some(Cooperative) else f.timer)
      case Timeout(answer) =>
        e.timer ==>
          if answer == Some(false) then f.terminal == Some(Cooperative) && !f.isolating else f.isolating && !f.timer
      case Isolate(detached) =>
        e.isolating ==> f.terminal == Some(if detached then Isolated else Poisoned) && f.detached == detached
      case Complete => e.operation.Active? ==> f.operation.Done?
      case _ => true
  {
  }

  /** A browser is poisoned only by a page that could not be detached, and healed only by destruction. */
  lemma PoisonedOnlyBecause(q: Queue, e: Event)
    requires QueueInv(q)
    ensures var r := Step(q, e);
      && (!q.poisoned && r.poisoned
        ==> e.EntryE? && e.act == Isolate(false) && e.k < |q.entries| && q.entries[e.k].isolating)
      && (q.poisoned && !r.poisoned ==> e.DestroyE?)
  {
    if e.EntryE? && e.k < |q.entries| { EndsOnlyBecause(q.entries[e.k], e.act, q.poisoned); }
  }

  /** A new command waits at the end, as it was given. */
  lemma EnqueuedAtTheEnd(q: Queue, incarnation: Option<nat>, announces: bool, aborted: bool)
    ensures var r := Step(q, EnqueueE(incarnation, announces, aborted));
      && |r.entries| == |q.entries| + 1 && r.entries[..|q.entries|] == q.entries && r.poisoned == q.poisoned
      && var e := r.entries[|q.entries|];
         e.incarnation == incarnation && e.announces == announces && e.cancelled == aborted
         && e.operation.Waiting? && e.terminal.None? && !e.dispatched
  {
  }

  /** Destroying a browser cancels every command on it and heals it; no command is taken away. */
  lemma DestroyCancelsAll(q: Queue, answers: seq<Answer>)
    ensures var r := Step(q, DestroyE(answers));
      && !r.poisoned && |r.entries| == |q.entries|
      && forall k :: 0 <= k < |r.entries| ==>
           r.entries[k].cancelled && r.entries[k].operation == q.entries[k].operation
           && r.entries[k].dispatched == q.entries[k].dispatched
  {
  }
}
