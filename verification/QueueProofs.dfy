/** No overlap, no stranded queue, and no escape from a poisoned browser. */
module QueueProofs {
  import opened Wrappers
  import opened Queue
  import Runs

  lemma EntryKeeps(e: Entry, act: Act, poisoned: bool)
    requires EntryOk(e)
    ensures EntryOk(EntryStep(e, act, poisoned))
  {
  }

  lemma Replace(q: Queue, k: nat, e: Entry, poisoned: bool)
    requires QueueInv(q) && k < |q.entries| && EntryOk(e)
    requires q.entries[k].terminal.Some? ==> e.terminal.Some?
    requires !q.entries[k].operation.Waiting? || e.operation.Waiting? || Reached(q, k)
    ensures QueueInv(Queue(q.entries[k := e], poisoned))
  {
    var r := q.entries[k := e];
    if k > 0 && q.entries[k-1].terminal.Some? {
      forall i | 0 <= i < k ensures r[i].terminal.Some? {
        assert i < k - 1 ==> !q.entries[k-1].operation.Waiting?;
      }
    }
  }

  lemma StepKeeps(q: Queue, e: Event)
    requires QueueInv(q)
    ensures QueueInv(Step(q, e))
  {
    match e
    case EnqueueE(_, _, _) =>
    case DestroyE(answers) =>
      forall k | 0 <= k < |q.entries| ensures EntryOk(Step(q, e).entries[k]) {
        EntryKeeps(q.entries[k], Cancel(if k < |answers| then answers[k] else None), false);
      }
    case EntryE(k, act) =>
      if k < |q.entries| && (act.Head? ==> Reached(q, k)) {
        EntryKeeps(q.entries[k], act, q.poisoned);
        KeepsEnded(q.entries[k], act, q.poisoned);
        Replace(q, k, EntryStep(q.entries[k], act, q.poisoned), Step(q, e).poisoned);
      }
  }

  lemma KeepsEnded(e: Entry, act: Act, poisoned: bool)
    requires EntryOk(e)
    ensures e.terminal.Some? ==> EntryStep(e, act, poisoned).terminal == e.terminal
    ensures e.operation.Waiting? && !act.Head? ==> EntryStep(e, act, poisoned).operation.Waiting?
  {
  }

  lemma {:induction false} RunKeeps(events: seq<Event>)
    ensures QueueInv(Runs.After(Step, Empty, events))
  {
    forall q, e | QueueInv(q) ensures QueueInv(Step(q, e)) {
      StepKeeps(q, e);
    }
    Runs.Always(QueueInv, Step, Empty, events);
  }

  // ---------- Along a run ----------

  predicate EntryGoesOn(e: Entry, f: Entry) {
    && (e.terminal.Some? ==> f.terminal == e.terminal)
    && (e.cancelled ==> f.cancelled)
    && (e.dispatched ==> f.dispatched)
    && (e.started ==> f.started)
    && (e.operation.Done? ==> f.operation.Done?)
    && (e.cancelled && !e.dispatched ==> !f.dispatched)
    && (e.cancelled && !e.started ==> !f.started && !f.isolating && !f.timer && !f.released
                                      && (f.terminal.Some? ==> f.settled && f.terminal == Some(Cooperative)))
  }

  /** Entries keep their places, end once, and are never started after a cancellation. */
  predicate GoesOn(q: Queue, r: Queue) {
    && |q.entries| <= |r.entries|
    && (forall k :: 0 <= k < |q.entries| ==> EntryOk(q.entries[k]) ==> EntryGoesOn(q.entries[k], r.entries[k]))
    && (QueueInv(q) ==> QueueInv(r))
  }

  lemma {:induction false} RunGoesOn(q: Queue, events: seq<Event>)
    requires QueueInv(q)
    ensures GoesOn(q, Runs.After(Step, q, events))
    decreases |events|
  {
    if events != [] {
      var r := Step(q, events[0]);
      StepKeeps(q, events[0]);
      StepGoesOn(q, events[0]);
      RunGoesOn(r, events[1..]);
      var s := Runs.After(Step, q, events);
      forall k | 0 <= k < |q.entries| ensures EntryGoesOn(q.entries[k], s.entries[k]) {
        assert EntryGoesOn(q.entries[k], r.entries[k]) && EntryGoesOn(r.entries[k], s.entries[k]);
      }
    }
  }

  lemma EntryStepGoesOn(e: Entry, act: Act, poisoned: bool)
    requires EntryOk(e)
    ensures EntryGoesOn(e, EntryStep(e, act, poisoned))
  {
  }

  lemma StepGoesOn(q: Queue, e: Event)
    requires QueueInv(q)
    ensures GoesOn(q, Step(q, e))
  {
    var r := Step(q, e);
    StepKeeps(q, e);
    forall k | 0 <= k < |q.entries| ensures EntryGoesOn(q.entries[k], r.entries[k]) {
      match e
      case EnqueueE(_, _, _) =>
      case DestroyE(answers) =>
        EntryStepGoesOn(q.entries[k], Cancel(if k < |answers| then answers[k] else None), q.poisoned);
      case EntryE(_, act) => EntryStepGoesOn(q.entries[k], act, q.poisoned);
    }
  }

  /** A command cancelled before it started ends only by settling, whatever follows: it neither
      frees the queue early nor isolates the page of the entry before it. */
  lemma CancelledBeforeStart(q: Queue, events: seq<Event>, k: nat)
    requires QueueInv(q) && k < |q.entries| && q.entries[k].cancelled && !q.entries[k].started
    ensures var r := Runs.After(Step, q, events);
      && k < |r.entries| && !r.entries[k].started && !r.entries[k].isolating && !r.entries[k].detached
      && (r.entries[k].terminal.Some? ==> r.entries[k].operation.Done?)
      && (k > 0 && q.entries[k-1].terminal.None? && r.entries[k].terminal.Some? ==> r.entries[k-1].terminal.Some?)
  {
    RunGoesOn(q, events);
    var r := Runs.After(Step, q, events);
    assert EntryGoesOn(q.entries[k], r.entries[k]) && EntryOk(r.entries[k]);
  }

  // ---------- Poison ----------

  ghost predicate NotDestroyed(q: Queue, e: Event) { !e.DestroyE? }

  predicate NoneDispatched(q: Queue, r: Queue) {
    && (q.poisoned ==> r.poisoned)
    && |q.entries| <= |r.entries|
    && (q.poisoned ==> forall k :: 0 <= k < |r.entries| && r.entries[k].dispatched ==>
          k < |q.entries| && q.entries[k].dispatched)
  }

  /** Once a page could not be disposed of, no command on that browser reaches the host until the
      browser is destroyed. */
  lemma PoisonBlocks(q: Queue, events: seq<Event>)
    requires QueueInv(q) && q.poisoned && Runs.Legal(NotDestroyed, Step, q, events)
    ensures Runs.After(Step, q, events).poisoned
    ensures NoneDispatched(q, Runs.After(Step, q, events))
  {
    forall t, e | QueueInv(t) && NotDestroyed(t, e) ensures QueueInv(Step(t, e)) && NoneDispatched(t, Step(t, e)) {
      StepKeeps(t, e);
      NoneDispatchedStep(t, e);
    }
    Runs.Relates(QueueInv, NoneDispatched, NotDestroyed, Step, q, events);
  }

  lemma NoneDispatchedStep(q: Queue, e: Event)
    requires QueueInv(q) && !e.DestroyE?
    ensures NoneDispatched(q, Step(q, e))
  {
    if e.EntryE? && e.k < |q.entries| {
      NotDispatched(q.entries[e.k], e.act);
    }
  }

  lemma NotDispatched(e: Entry, act: Act)
    requires EntryOk(e)
    ensures EntryStep(e, act, true).dispatched == e.dispatched
  {
  }

  /** Destroying a browser cancels what waited on it, so none of that is dispatched afterwards. */
  lemma DestroyDrainsQueue(q: Queue, answers: seq<Answer>, events: seq<Event>, k: nat)
    requires QueueInv(q) && k < |q.entries| && !q.entries[k].dispatched
    ensures var r := Runs.After(Step, Step(q, DestroyE(answers)), events);
      k < |r.entries| && !r.entries[k].dispatched
  {
    var d := Step(q, DestroyE(answers));
    StepKeeps(q, DestroyE(answers));
    RunGoesOn(d, events);
    assert d.entries[k].cancelled && !d.entries[k].dispatched;
    assert EntryGoesOn(d.entries[k], Runs.After(Step, d, events).entries[k]);
  }

  // ---------- What is behind a running command ----------

  /** The queue after the first events of a run. */
  ghost function Reach(events: seq<Event>, n: nat): Queue
    requires n <= |events|
  {
    Runs.After(Step, Empty, events[..n])
  }

  lemma Begun(events: seq<Event>)
    ensures Reach(events, 0) == Empty
  {
    assert events[..0] == [];
  }

  lemma ReachNext(events: seq<Event>, n: nat)
    requires n < |events|
    ensures Reach(events, n + 1) == Step(Reach(events, n), events[n])
    ensures QueueInv(Reach(events, n)) && GoesOn(Reach(events, n), Reach(events, n + 1))
  {
    assert events[..n+1] == events[..n] + [events[n]];
    Runs.Compose(Step, Empty, events[..n], [events[n]]);
    assert [events[n]][1..] == [];
    assert Runs.After(Step, Reach(events, n), [events[n]]) == Step(Reach(events, n), events[n]);
    RunKeeps(events[..n]);
    StepGoesOn(Reach(events, n), events[n]);
  }

  predicate IsPoisoned(q: Queue, i: nat) {
    i < |q.entries| && q.entries[i].terminal == Some(Poisoned)
  }

  /** The browser was destroyed after the poison of entry `i`, and before entry `j` came. */
  ghost predicate DestroyedBetween(events: seq<Event>, n: nat, i: nat, j: nat)
    requires n <= |events|
  {
    exists a :: 0 <= a < n && events[a].DestroyE? && IsPoisoned(Reach(events, a), i) && |Reach(events, a).entries| <= j
  }

  /** Only a destruction lifts the poison. */
  lemma {:induction false} LiftedBy(events: seq<Event>, n: nat, i: nat) returns (a: nat)
    requires n <= |events| && IsPoisoned(Reach(events, n), i) && !Reach(events, n).poisoned
    ensures a < n && events[a].DestroyE? && IsPoisoned(Reach(events, a), i)
  {
    Begun(events);
    ReachNext(events, n - 1);
    var q := Reach(events, n - 1);
    if IsPoisoned(q, i) && !q.poisoned {
      a := LiftedBy(events, n - 1, i);
    } else {
      a := n - 1;
    }
  }

  /** What was cancelled by a destruction is not dispatched any more. */
  lemma {:induction false} NotDispatchedSince(events: seq<Event>, a: nat, n: nat, j: nat)
    requires a < n <= |events| && events[a].DestroyE? && j < |Reach(events, a).entries|
    ensures j < |Reach(events, n).entries| && Reach(events, n).entries[j].cancelled
    decreases n
  {
    ReachNext(events, n - 1);
    if n - 1 > a {
      NotDispatchedSince(events, a, n - 1, j);
      assert EntryGoesOn(Reach(events, n - 1).entries[j], Reach(events, n).entries[j]);
    }
  }

  /** A command behind a poisoned entry was dispatched only if it came after a destruction. */
  lemma {:induction false} DispatchedBehindPoison(events: seq<Event>, n: nat, i: nat, j: nat)
    requires n <= |events| && i < j < |Reach(events, n).entries|
    requires IsPoisoned(Reach(events, n), i) && Reach(events, n).entries[j].dispatched
    ensures DestroyedBetween(events, n, i, j)
    decreases n
  {
    Begun(events);
    ReachNext(events, n - 1);
    var q := Reach(events, n - 1);
    if j < |q.entries| && q.entries[j].dispatched {
      assert EntryGoesOn(q.entries[i], Reach(events, n).entries[i]);
      DispatchedBehindPoison(events, n - 1, i, j);
    } else {
      DispatchedNow(q, events[n-1], i, j);
      var a := LiftedBy(events, n - 1, i);
      if j < |Reach(events, a).entries| { NotDispatchedSince(events, a, n - 1, j); }
    }
  }

  /** A dispatch takes a browser without poison and a command that is not cancelled. */
  lemma DispatchedNow(q: Queue, e: Event, i: nat, j: nat)
    requires QueueInv(q) && i < j < |Step(q, e).entries| && IsPoisoned(Step(q, e), i)
    requires Step(q, e).entries[j].dispatched && (j < |q.entries| ==> !q.entries[j].dispatched)
    ensures j < |q.entries| && !q.poisoned && !q.entries[j].cancelled && IsPoisoned(q, i)
  {
    if j < |q.entries| && e.EntryE? && e.k == j { assert e.act.Dispatch?; }
  }

  /** How an ended barrier knows that its command no longer works on the page. */
  predicate Quiet(e: Entry) {
    match e.terminal
    case Some(Cooperative) => e.operation.Done? || (e.cancelled && e.released)   // settled, or found idle
    case Some(Isolated) => e.detached                                            // the page itself is gone
    case _ => false
  }

  /** In every reachable state a command runs only when every command before it is quiet, so no two
      are in progress on the page at once; and behind one whose page could not be disposed of nothing
      is dispatched but what came after the browser was destroyed. */
  lemma NoOverlap(events: seq<Event>, i: nat, j: nat)
    requires i < j < |Runs.After(Step, Empty, events).entries|
    ensures var q := Runs.After(Step, Empty, events);
      !q.entries[j].operation.Waiting? ==>
        || Quiet(q.entries[i])
        || (IsPoisoned(q, i) && (q.entries[j].dispatched ==> DestroyedBetween(events, |events|, i, j)))
  {
    RunKeeps(events);
    assert events[..|events|] == events;
    var q := Reach(events, |events|);
    if IsPoisoned(q, i) && q.entries[j].dispatched { DispatchedBehindPoison(events, |events|, i, j); }
  }

  // ---------- Progress ----------

  /** A started command that is cancelled frees the queue after its grace, whatever its adapter does. */
  lemma CancelledStartedEnds(q: Queue, k: nat, answer: Answer, detached: bool)
    requires QueueInv(q) && k < |q.entries| && q.entries[k].cancelled && q.entries[k].started
    ensures var r := Step(Step(q, EntryE(k, Timeout(answer))), EntryE(k, Isolate(detached)));
      && r.entries[k].terminal.Some?
      && (r.entries[k].terminal == Some(Poisoned) && q.entries[k].terminal.None? ==> r.poisoned && !detached)
  {
  }

  /** The first entry whose barrier has not ended is running its command, or a step of the service
      itself moves it on. */
  lemma NeverStranded(q: Queue, k: nat, accepting: bool, detached: bool)
    requires QueueInv(q) && k < |q.entries| && q.entries[k].terminal.None?
    requires forall i :: 0 <= i < k ==> q.entries[i].terminal.Some?
    ensures match q.entries[k].operation
      case Waiting => !Step(q, EntryE(k, Head(accepting))).entries[k].operation.Waiting?
      case Active => true
      case Done => Step(Step(q, EntryE(k, Settle)), EntryE(k, Isolate(detached))).entries[k].terminal.Some?
  {
  }
}
