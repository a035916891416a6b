/** The two-file commit: a journal entry in the state file, a compare-and-swap of the layout file,
    and the removal of the entry, with replay at startup.

    A `Machine` is the disk plus the operation in flight.  One step is one write; an operation may
    be interrupted after any of them, by a crash or by an exception, and then loses its locals.
 */
module Journal {
  import opened Wrappers
  import opened BrowserState

  datatype Phase =
    | Idle
    | Journaled(before: StateFile, entry: StateFile)   // the entry is saved, the layout is next
    | Refused(before: StateFile, entry: StateFile)     // the layout was not replaced, roll back
    | Swapped(before: StateFile, entry: StateFile)     // the layout is replaced, clear the entry
    | Replaying(entry: StateFile)                      // recovery has read the entry
    | Replayed(entry: StateFile)                       // recovery found or installed the layout

  datatype Machine = Machine(state: StateFile, layout: Option<Text>, phase: Phase)

  // What the host's own save of the layout can meet besides a conflict.
  datatype Save = Clean | FailsBefore | FailsAfter     // fails before, or after, the file is renamed

  /** What startup finds to do when no transaction is pending. */
  datatype Plan =
    | NoPlan
    | DropOrphans(orphans: set<BrowserId>)
    | Migrate(id: string, records: map<BrowserId, Record>, recovery: seq<RecoveryItem>, target: Text)

  datatype Event =
    | BeginE(tx: Transaction, staged: StateFile)
    | RecoverE(plan: Plan)
    | SwapE(save: Save)
    | FinishE
    | InterruptE
    | UpdateE(changed: StateFile)                      // another serialised write of the state file
    | ForeignE(text: Option<Text>)                     // another program replaces the layout

  /** The parts of a state file that a mutation may change. */
  function WithContents(state: StateFile, from: StateFile): StateFile {
    state.(profile := from.profile, records := from.records, recovery := from.recovery)
  }

  function Entry(before: StateFile, staged: StateFile, tx: Transaction): StateFile {
    WithContents(before, staged).(revision := before.revision + 1, pending := Some(tx))
  }

  function Journal(m: Machine, before: StateFile, staged: StateFile, tx: Transaction): Machine {
    var entry := Entry(before, staged, tx);
    m.(state := entry, phase := Journaled(before, entry))
  }

  predicate Accepted(m: Machine, tx: Transaction) {
    m.phase.Idle? && NoFuture(tx.target) && Usable(m.layout) && Loaded(m.state).pending.None?
  }

  function Begin(m: Machine, tx: Transaction, staged: StateFile): Machine {
    if !Accepted(m, tx) then m else Journal(m, Loaded(m.state), staged, tx.(kind := BrowserAssociation))
  }

  function Merged(records: map<BrowserId, Record>, more: map<BrowserId, Record>): map<BrowserId, Record> {
    records + more
  }

  function Recover(m: Machine, plan: Plan): Machine {
    var state := Loaded(m.state);
    if m.phase != Idle then m
    else if state.pending.Some? then
      var tx := state.pending.value;
      if !Writable(tx.target) || !Usable(m.layout) then m
      else m.(phase := if m.layout == Some(tx.target) then Replayed(state) else Replaying(state))
    else if m.layout.None? || m.layout.value.chars == 0 || !Usable(m.layout) then m
    else
      var version := m.layout.value.json.version;
      match plan
      case NoPlan => m
      case DropOrphans(orphans) =>
        if version != Number(2) || orphans == {} then m
        else m.(state := state.(records := state.records - orphans, revision := state.revision + 1))
      case Migrate(id, records, recovery, target) =>
        if version == Number(2) || m.layout.value.json.browsers == 0
          || |state.recovery| + |recovery| > RecoveryMax then m
        else
          var staged := state.(records := Merged(state.records, records), recovery := state.recovery + recovery);
          Journal(m, state, staged, Transaction(id, LegacyLayoutMigration, m.layout, target))
  }

  /** `saveLayoutFile`: replace the layout when it is the expected one; the flag is its `ok`. */
  function CompareAndSwap(layout: Option<Text>, tx: Transaction, save: Save): (Option<Text>, bool) {
    if tx.target.bytes > LayoutMaxBytes || save.FailsBefore? then (layout, false)
    else if layout.Some? && layout.value.bytes > LayoutMaxBytes then (layout, false)
    else if layout != tx.expected then (layout, false)
    else (Some(tx.target), save.Clean?)
  }

  function Swap(m: Machine, save: Save): Machine {
    match m.phase
    case Journaled(before, entry) =>
      if entry.pending.None? then m
      else
        var (layout, ok) := CompareAndSwap(m.layout, entry.pending.value, save);
        var phase := if ok then Swapped(before, entry)
                     else if entry.pending.value.kind.BrowserAssociation? then Refused(before, entry)
                     else Idle;
        m.(layout := layout, phase := phase)
    case Replaying(entry) =>
      if entry.pending.None? then m
      else
        var (layout, ok) := CompareAndSwap(m.layout, entry.pending.value, save);
        m.(layout := layout, phase := if ok then Replayed(entry) else Idle)
    case _ => m
  }

  /** The state as it was, saved over a journal entry. */
  function PutBack(before: StateFile, entry: StateFile): StateFile {
    before.(revision := entry.revision + 1)
  }

  /** The state of the entry, its transaction committed. */
  function Cleared(entry: StateFile, layoutRevision: nat): StateFile {
    entry.(pending := None, revision := entry.revision + 1, layoutRevision := layoutRevision + 1)
  }

  function Finish(m: Machine): Machine {
    match m.phase
    case Refused(before, entry) => m.(state := PutBack(before, entry), phase := Idle)
    case Swapped(before, entry) => m.(state := Cleared(entry, before.layoutRevision), phase := Idle)
    case Replayed(entry) => m.(state := Cleared(entry, entry.layoutRevision), phase := Idle)
    case _ => m
  }

  function Update(m: Machine, changed: StateFile): Machine {
    if m.phase != Idle then m
    else
      var current := Loaded(m.state);
      m.(state := WithContents(current, changed).(revision := current.revision + 1))
  }

  function Step(m: Machine, e: Event): Machine {
    match e
    case BeginE(tx, staged) => Begin(m, tx, staged)
    case RecoverE(plan) => Recover(m, plan)
    case SwapE(save) => Swap(m, save)
    case FinishE => Finish(m)
    case InterruptE => m.(phase := Idle)
    case UpdateE(changed) => Update(m, changed)
    case ForeignE(text) => m.(layout := text)
  }

  // ---------- What the two files mean together ----------

  /** The state file up to its revision and its journal, beside the layout. */
  datatype Pair = Pair(state: StateFile, layout: Option<Text>)

  function Stripped(state: StateFile): StateFile {
    state.(revision := 0, pending := None)
  }

  function PairOf(m: Machine): Pair {
    Pair(Stripped(Loaded(m.state)), m.layout)
  }

  function Committed(pair: Pair, staged: StateFile, target: Text): Pair {
    Pair(WithContents(pair.state, staged).(layoutRevision := pair.state.layoutRevision + 1), Some(target))
  }

  /** A restart at any moment, and one undisturbed recovery. */
  function Recovered(m: Machine): Machine {
    Finish(Swap(Recover(m.(phase := Idle), NoPlan), Clean))
  }
}
