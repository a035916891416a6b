/** The FIFO of commands for one browser, with its bounded barrier.

    An entry's operation runs when the barrier before it has ended; its own barrier ends when the
    operation settles, or, after a cancellation, when the page is found idle or is detached.
 */
module Queue {
  import opened Wrappers

  datatype Terminal = Cooperative | Isolated | Poisoned
  datatype Operation = Waiting | Active | Done

  datatype Entry = Entry(
    incarnation: Option<nat>,     // the page the command addresses, if it addresses one
    announces: bool,              // whether the command reports its dispatch
    cancelled: bool,
    operation: Operation,
    bound: bool,                  // the page identity is known to the barrier
    dispatched: bool,             // past the last fence before the host is called
    started: bool,                // dispatched, and reported
    settled: bool,                // the barrier has seen the operation settle
    timer: bool,
    isolating: bool,
    released: bool,               // the page was found idle after the cancellation
    detached: bool,               // the page was quarantined or frozen
    terminal: Option<Terminal>)

  datatype Queue = Queue(entries: seq<Entry>, poisoned: bool)

  // The adapter's answer to "is an operation pending?"; it may also be unable to say.
  type Answer = Option<bool>

  /** What happens to one entry: its turn comes, its command is dispatched, its operation settles and
      its barrier notices; it is cancelled, its grace ends, the isolation of its page ends. */
  datatype Act =
    | Head(accepting: bool)
    | Dispatch(accepting: bool)
    | Complete
    | Settle
    | Cancel(answer: Answer)
    | Timeout(answer: Answer)
    | Isolate(detached: bool)

  datatype Event =
    | EnqueueE(incarnation: Option<nat>, announces: bool, aborted: bool)
    | EntryE(k: nat, act: Act)
    | DestroyE(answers: seq<Answer>)

  // ---------- One entry ----------

  function NewEntry(incarnation: Option<nat>, announces: bool, aborted: bool): Entry {
    Entry(incarnation, announces, aborted, Waiting, false, false, false, false, false, false, false, false, None)
  }

  function End(e: Entry, terminal: Terminal): (f: Entry)
    ensures f == e.(terminal := f.terminal, timer := f.timer) && (e.terminal.Some? ==> f == e)
  {
    if e.terminal.Some? then e else e.(terminal := Some(terminal), timer := false)
  }

  /** An entry that addresses no page has nothing pending. */
  function Reading(e: Entry, answer: Answer): Answer {
    if !e.bound || e.incarnation.None? then Some(false) else answer
  }

  function Release(e: Entry, answer: Answer): (f: Entry)
    ensures f == e.(terminal := f.terminal, timer := f.timer, released := f.released)
    ensures e.terminal.Some? ==> f == e
  {
    if e.terminal.Some? || e.timer || e.settled || e.isolating then
      if e.settled && !e.isolating then End(e, Cooperative) else e
    else if !e.started then e
    else if Reading(e, answer) == Some(false) then End(e.(released := true), Cooperative)
    else e.(timer := true)
  }

  function Cancelled(e: Entry, answer: Answer): (f: Entry)
    ensures f == e.(cancelled := true, terminal := f.terminal, timer := f.timer, released := f.released)
    ensures e.terminal.Some? ==> f.terminal == e.terminal
  {
    if e.cancelled then e else Release(e.(cancelled := true), answer)
  }

  function TimedOut(e: Entry, answer: Answer): (f: Entry)
    ensures f == e.(terminal := f.terminal, timer := f.timer, released := f.released, isolating := f.isolating)
    ensures e.terminal.Some? ==> f.terminal == e.terminal
  {
    if !e.timer then e
    else if e.settled then End(e.(timer := false), Cooperative)
    else if Reading(e, answer) == Some(false) then End(e.(timer := false, released := true), Cooperative)
    else if e.terminal.Some? || e.isolating then e.(timer := false)
    else e.(timer := false, isolating := true)
  }

  function Isolation(e: Entry, detached: bool): Entry {
    if !e.isolating || e.terminal.Some? then e
    else if !e.started || !e.bound || e.incarnation.None? then End(e, Isolated)
    else if detached then End(e.(detached := true), Isolated)
    else End(e, Poisoned)
  }

  function Observed(e: Entry): Entry {
    if e.operation != Done || e.settled then e
    else if e.isolating then e.(settled := true)
    else End(e.(settled := true), Cooperative)
  }

  function AtHead(e: Entry, accepting: bool, poisoned: bool): Entry {
    if e.operation != Waiting then e
    else if !accepting || e.cancelled || poisoned then e.(operation := Done)
    else e.(operation := Active, bound := true)
  }

  function Dispatched(e: Entry, accepting: bool, poisoned: bool): Entry {
    if e.operation != Active || e.dispatched then e
    else if !accepting || e.cancelled || poisoned then e.(operation := Done)
    else e.(dispatched := true, started := e.announces)
  }

  function Completed(e: Entry): Entry {
    if e.operation == Active then e.(operation := Done) else e
  }

  // ---------- The queue ----------

  predicate Reached(q: Queue, k: nat) {
    k < |q.entries| && (k > 0 ==> q.entries[k-1].terminal.Some?)
  }

  function CancelFrom(entries: seq<Entry>, answers: seq<Answer>): (r: seq<Entry>)
    ensures |r| == |entries|
    ensures forall k :: 0 <= k < |r| ==> r[k] == Cancelled(entries[k], if k < |answers| then answers[k] else None)
  {
    seq(|entries|, k requires 0 <= k < |entries| => Cancelled(entries[k], if k < |answers| then answers[k] else None))
  }

  function EntryStep(e: Entry, act: Act, poisoned: bool): Entry {
    match act
    case Head(accepting) => AtHead(e, accepting, poisoned)
    case Dispatch(accepting) => Dispatched(e, accepting, poisoned)
    case Complete => Completed(e)
    case Settle => Observed(e)
    case Cancel(answer) => Cancelled(e, answer)
    case Timeout(answer) => TimedOut(e, answer)
    case Isolate(detached) => Isolation(e, detached)
  }

  predicate Poisons(e: Entry, f: Entry) {
    e.terminal.None? && f.terminal == Some(Poisoned)
  }

  function Step(q: Queue, e: Event): Queue {
    match e
    case EnqueueE(incarnation, announces, aborted) =>
      q.(entries := q.entries + [NewEntry(incarnation, announces, aborted)])
    case DestroyE(answers) => Queue(CancelFrom(q.entries, answers), false)
    case EntryE(k, act) =>
      if k >= |q.entries| || (act.Head? && !Reached(q, k)) then q
      else
        var f := EntryStep(q.entries[k], act, q.poisoned);
        Queue(q.entries[k := f], q.poisoned || Poisons(q.entries[k], f))
  }

  const Empty := Queue([], false)

  // ---------- Invariant ----------

  predicate EntryOk(e: Entry) {
    && (e.operation.Active? ==> e.bound)
    && (e.operation.Waiting? ==> !e.bound && !e.settled && e.terminal.None?)
    && (e.started ==> e.dispatched && e.announces)
    && (e.dispatched ==> e.bound)
    && (e.timer || e.isolating ==> e.started && e.incarnation.Some? && e.cancelled)
    && (e.timer ==> e.terminal.None? && !e.isolating)
    && (e.settled ==> e.operation.Done? && (e.terminal.Some? || e.isolating))
    && (e.cancelled && e.started ==> e.terminal.Some? || e.timer || e.isolating)
    && (e.released ==> e.cancelled && e.started)
    && (match e.terminal
        case None => true
        case Some(Cooperative) => e.settled || e.released
        case Some(Isolated) => e.detached && e.isolating
        case Some(Poisoned) => e.isolating)
    && (e.detached ==> e.terminal == Some(Isolated))
  }

  /** Nothing but waiting happens behind an entry whose barrier has not ended. */
  predicate QueueInv(q: Queue) {
    && (forall k :: 0 <= k < |q.entries| ==> EntryOk(q.entries[k]))
    && (forall i, j :: 0 <= i < j < |q.entries| && !q.entries[j].operation.Waiting? ==> q.entries[i].terminal.Some?)
  }
}
