/** Whole histories of the two files: many transactions, crashes, recoveries and updates, and, at
    the end, programs that write the layout on their own. */
module JournalRuns {
  import opened Wrappers
  import opened BrowserState
  import opened Journal
  import Runs

  // ---------- Refinement of atomic commits ----------

  datatype Atom =
    | CommitA(staged: StateFile, target: Text)
    | MigrateA(records: map<BrowserId, Record>, recovery: seq<RecoveryItem>, target: Text)
    | UpdateA(changed: StateFile)
    | DropA(orphans: set<BrowserId>)

  /** What an action means: a commit takes over the contents of the staged state and the target, a
      migration adds to the contents, an update takes over the contents, startup drops orphans. */
  function Apply(pair: Pair, atom: Atom): Pair {
    var state := pair.state;
    match atom
    case CommitA(staged, target) =>
      Pair(state.(profile := staged.profile, records := staged.records, recovery := staged.recovery,
                  layoutRevision := state.layoutRevision + 1), Some(target))
    case MigrateA(records, recovery, target) =>
      Pair(state.(records := state.records + records, recovery := state.recovery + recovery,
                  layoutRevision := state.layoutRevision + 1), Some(target))
    case UpdateA(changed) =>
      Pair(state.(profile := changed.profile, records := changed.records, recovery := changed.recovery), pair.layout)
    case DropA(orphans) =>
      Pair(state.(records := map id | id in state.records && id !in orphans :: state.records[id]), pair.layout)
  }

  predicate IsCommit(atom: Atom) {
    atom.CommitA? || atom.MigrateA?
  }

  ghost function ApplyAll(pair: Pair, atoms: seq<Atom>): Pair
    decreases |atoms|
  {
    if atoms == [] then pair else ApplyAll(Apply(pair, atoms[0]), atoms[1..])
  }

  /** The pair a machine stands for: while a commit is in doubt, the old one; once the layout is
      replaced, the new one; and an entry left on disk is as good as committed. */
  function View(m: Machine): Pair {
    match m.phase
    case Journaled(before, _) => Pair(Stripped(before), m.layout)
    case Refused(before, _) => Pair(Stripped(before), m.layout)
    case Swapped(before, entry) =>
      Pair(WithContents(Stripped(before), entry).(layoutRevision := before.layoutRevision + 1), m.layout)
    case _ =>
      var state := Loaded(m.state);
      if state.pending.Some? then Committed(Pair(Stripped(state), m.layout), state, state.pending.value.target)
      else PairOf(m)
  }

  /** An entry that recovery can finish. */
  predicate Sound(tx: Transaction, layout: Option<Text>) {
    && Retained(tx) && Writable(tx.target)
    && Usable(layout) && (layout == tx.expected || layout == Some(tx.target))
  }

  /** And a state with such an entry, that is read back whole before and after recovery. */
  predicate SoundEntry(state: StateFile, layout: Option<Text>) {
    && state.pending.Some? && Sound(state.pending.value, layout)
    && Intact(state) && Intact(Cleared(state, state.layoutRevision))
  }

  predicate InFlight(m: Machine, before: StateFile, entry: StateFile) {
    && m.state == entry && entry.pending.Some?
    && before.pending.None? && entry.layoutRevision == before.layoutRevision
    && Intact(PutBack(before, entry)) && Intact(Cleared(entry, before.layoutRevision))
  }

  predicate JournalInv(m: Machine) {
    match m.phase
    case Idle => Loaded(m.state).pending.Some? ==> SoundEntry(m.state, m.layout)
    case Journaled(before, entry) =>
      InFlight(m, before, entry) && (entry.pending.value.kind.LegacyLayoutMigration? ==> SoundEntry(entry, m.layout))
    case Refused(before, entry) => InFlight(m, before, entry)
    case Swapped(before, entry) => InFlight(m, before, entry) && m.layout == Some(entry.pending.value.target)
    case Replaying(entry) => m.state == entry && SoundEntry(entry, m.layout)
    case Replayed(entry) =>
      m.state == entry && SoundEntry(entry, m.layout) && m.layout == Some(entry.pending.value.target)
  }

  /** Startup of a current layout with nothing pending. */
  predicate StartsUp(m: Machine) {
    && m.phase.Idle? && Loaded(m.state).pending.None?
    && m.layout.Some? && m.layout.value.chars > 0 && Usable(m.layout) && m.layout.value.json.version == Number(2)
  }

  /** No other program writes the layout, and what is saved can be read back.  A commit may be one
      that the layout refuses, or that recovery could not finish: then nothing interrupts it while
      its entry is on disk. */
  ghost predicate Alone(m: Machine, e: Event) {
    var next := Step(m, e);
    match e
    case BeginE(tx, staged) => next.phase.Journaled? ==> InFlight(next, next.phase.before, next.phase.entry)
    case RecoverE(Migrate(_, _, _, _)) =>
      next.phase.Journaled? ==>
        InFlight(next, next.phase.before, next.phase.entry) && SoundEntry(next.state, next.layout)
    case RecoverE(DropOrphans(orphans)) => StartsUp(m) && orphans != {} ==> Intact(next.state)
    case UpdateE(_) => m.phase.Idle? ==> Intact(next.state) && Intact(Cleared(next.state, next.state.layoutRevision))
    case InterruptE =>
      m.phase.Journaled? || m.phase.Refused? || m.phase.Swapped? ==> SoundEntry(m.state, m.layout)
    case SwapE(save) =>
      save.FailsAfter? && m.phase.Journaled? && m.phase.entry.pending.Some? ==>
        var tx := m.phase.entry.pending.value;
        tx.kind.BrowserAssociation? ==> m.layout != tx.expected || m.layout == Some(tx.target)
    case ForeignE(_) => false
    case _ => true
  }

  /** The action that is under way, as the events asked for it: of a commit what was staged, of a
      migration what was planned. */
  function Intent(m: Machine, intent: Option<Atom>, e: Event): Option<Atom> {
    match e
    case BeginE(tx, staged) => if Accepted(m, tx) then Some(CommitA(staged, tx.target)) else intent
    case RecoverE(Migrate(_, records, recovery, target)) =>
      if m.phase.Idle? && Step(m, e).phase.Journaled? then Some(MigrateA(records, recovery, target)) else intent
    case _ => intent
  }

  /** The layout on disk is replaced, and the save reports it. */
  predicate Replaced(layout: Option<Text>, tx: Transaction, save: Save) {
    && save.Clean? && layout == tx.expected && tx.target.bytes <= LayoutMaxBytes
    && (layout.Some? ==> layout.value.bytes <= LayoutMaxBytes)
  }

  /** A commit in doubt is decided: the layout is replaced, or the operation ends with its entry on disk. */
  predicate Decides(m: Machine, e: Event) {
    && (m.phase.Journaled? || m.phase.Refused?) && m.phase.entry.pending.Some?
    && (|| e.InterruptE?
        || (e.SwapE? && m.phase.Journaled?
            && (m.phase.entry.pending.value.kind.LegacyLayoutMigration?
                || Replaced(m.layout, m.phase.entry.pending.value, e.save))))
  }

  /** The atomic action that a step completes, if any. */
  function AtomOf(m: Machine, intent: Option<Atom>, e: Event): Option<Atom> {
    if Decides(m, e) then intent
    else
      match e
      case UpdateE(changed) => if m.phase.Idle? then Some(UpdateA(changed)) else None
      case RecoverE(DropOrphans(orphans)) => if StartsUp(m) then Some(DropA(orphans)) else None
      case _ => None
  }

  ghost function AtomsOf(m: Machine, intent: Option<Atom>, events: seq<Event>): seq<Atom>
    decreases |events|
  {
    if events == [] then []
    else
      (match AtomOf(m, intent, events[0]) case Some(a) => [a] case None => [])
      + AtomsOf(Step(m, events[0]), Intent(m, intent, events[0]), events[1..])
  }

  /** A commit in doubt has journalled what was asked for. */
  predicate Intended(m: Machine, intent: Option<Atom>) {
    m.phase.Journaled? || m.phase.Refused? ==>
      && intent.Some? && IsCommit(intent.value) && m.phase.entry.pending.Some?
      && Apply(Pair(Stripped(m.phase.before), m.layout), intent.value)
           == Committed(Pair(Stripped(m.phase.before), m.layout), m.phase.entry, m.phase.entry.pending.value.target)
  }

  lemma StepKeepsInv(m: Machine, e: Event)
    requires JournalInv(m) && Alone(m, e)
    ensures JournalInv(Step(m, e))
  {
  }

  lemma StepKeepsIntent(m: Machine, intent: Option<Atom>, e: Event)
    requires JournalInv(m) && Intended(m, intent) && Alone(m, e)
    ensures Intended(Step(m, e), Intent(m, intent, e))
  {
    if e.BeginE? {
      BeginKeepsIntent(m, intent, e);
    } else if e.RecoverE? {
      RecoverKeepsIntent(m, intent, e);
    }
  }

  lemma BeginKeepsIntent(m: Machine, intent: Option<Atom>, e: Event)
    requires JournalInv(m) && Intended(m, intent) && Alone(m, e) && e.BeginE?
    ensures Intended(Step(m, e), Intent(m, intent, e))
  {
  }

  lemma RecoverKeepsIntent(m: Machine, intent: Option<Atom>, e: Event)
    requires JournalInv(m) && Intended(m, intent) && Alone(m, e) && e.RecoverE?
    ensures Intended(Step(m, e), Intent(m, intent, e))
  {
  }

  ghost predicate Refines(m: Machine, intent: Option<Atom>, e: Event) {
    View(Step(m, e)) == (match AtomOf(m, intent, e) case Some(a) => Apply(View(m), a) case None => View(m))
  }

  lemma SwapRefines(m: Machine, intent: Option<Atom>, save: Save)
    requires JournalInv(m) && Intended(m, intent) && Alone(m, SwapE(save))
    ensures Refines(m, intent, SwapE(save))
  {
  }

  lemma DropRefines(m: Machine, intent: Option<Atom>, orphans: set<BrowserId>)
    requires JournalInv(m) && Alone(m, RecoverE(DropOrphans(orphans)))
    ensures Refines(m, intent, RecoverE(DropOrphans(orphans)))
  {
    if StartsUp(m) {
      DropView(m, orphans);
    }
  }

  lemma DropView(m: Machine, orphans: set<BrowserId>)
    requires StartsUp(m) && Alone(m, RecoverE(DropOrphans(orphans)))
    ensures View(Step(m, RecoverE(DropOrphans(orphans)))) == Apply(View(m), DropA(orphans))
  {
    var before := Loaded(m.state);
    DropsAre(before.records, orphans);
    var next := Step(m, RecoverE(DropOrphans(orphans)));
    if orphans == {} {
      assert before.records - orphans == before.records;
    } else {
      ReadWhole(next.state);
    }
  }

  lemma DropsAre(records: map<BrowserId, Record>, orphans: set<BrowserId>)
    ensures (map id | id in records && id !in orphans :: records[id]) == records - orphans
  {
  }

  lemma ReadWhole(state: StateFile)
    requires Intact(state) && state.pending.None?
    ensures Loaded(state) == state
  {
  }

  lemma SaveRefines(m: Machine, intent: Option<Atom>, e: Event)
    requires JournalInv(m) && Alone(m, e) && (e.UpdateE? || (e.RecoverE? && !e.plan.DropOrphans?) || e.BeginE?)
    ensures Refines(m, intent, e)
  {
  }

  /** Every step changes nothing that can be observed, or completes one atomic action, which is what
      the events asked for. */
  lemma StepRefines(m: Machine, intent: Option<Atom>, e: Event)
    requires JournalInv(m) && Intended(m, intent) && Alone(m, e)
    ensures Refines(m, intent, e) && Intended(Step(m, e), Intent(m, intent, e))
  {
    StepKeepsIntent(m, intent, e);
    match e
    case SwapE(save) => SwapRefines(m, intent, save);
    case RecoverE(DropOrphans(orphans)) => DropRefines(m, intent, orphans);
    case FinishE =>
    case InterruptE =>
    case ForeignE(_) =>
    case _ => SaveRefines(m, intent, e);
  }

  /** A whole history is a sequence of atomic actions, one after the other. */
  lemma {:induction false} RunRefines(m: Machine, intent: Option<Atom>, events: seq<Event>)
    requires JournalInv(m) && Intended(m, intent) && Runs.Legal(Alone, Step, m, events)
    ensures JournalInv(Runs.After(Step, m, events))
    ensures View(Runs.After(Step, m, events)) == ApplyAll(View(m), AtomsOf(m, intent, events))
    decreases |events|
  {
    if events != [] {
      var e, next := events[0], Intent(m, intent, events[0]);
      StepKeepsInv(m, e);
      StepRefines(m, intent, e);
      RunRefines(Step(m, e), next, events[1..]);
      var rest := AtomsOf(Step(m, e), next, events[1..]);
      if AtomOf(m, intent, e).Some? {
        assert AtomsOf(m, intent, events)[1..] == rest;
      } else {
        assert AtomsOf(m, intent, events) == rest;
      }
    }
  }

  /** A restart at any moment finds exactly the pair that the machine stands for once interrupted. */
  lemma RestartShowsView(m: Machine)
    requires JournalInv(m)
    requires Alone(m, InterruptE)
    ensures Recovered(m).phase.Idle? && Loaded(Recovered(m).state).pending.None?
    ensures PairOf(Recovered(m)) == View(Step(m, InterruptE))
  {
  }

  // ---------- A commit ----------

  /** An undisturbed commit: refused outright where a transaction is pending, the layout is unusable or
      the target comes from a later version; taken where the layout is as expected and nothing is too
      large; and otherwise without effect. */
  lemma CommitTakes(m: Machine, tx: Transaction, staged: StateFile)
    requires m.phase.Idle?
    ensures var m1, before := Step(m, BeginE(tx, staged)), Loaded(m.state);
      var g := Step(Step(m1, SwapE(Clean)), FinishE);
      if before.pending.Some? || !Usable(m.layout) || !NoFuture(tx.target) then m1 == m
      else
        && g.phase.Idle? && g.state.pending.None?
        && if Replaced(m.layout, tx, Clean) then
             && g.layout == Some(tx.target) && g.state.layoutRevision == before.layoutRevision + 1
             && g.state.profile == staged.profile && g.state.records == staged.records
             && g.state.recovery == staged.recovery
           else
             && g.layout == m.layout && g.state.layoutRevision == before.layoutRevision
             && g.state.profile == before.profile && g.state.records == before.records
             && g.state.recovery == before.recovery
  {
  }

  // ---------- Startup ----------

  /** With nothing pending and a current layout exactly the orphans go; and otherwise nothing does. */
  lemma StartupDropsOrphans(m: Machine, orphans: set<BrowserId>)
    requires m.phase.Idle? && Loaded(m.state).pending.None?
    ensures var g, before := Step(m, RecoverE(DropOrphans(orphans))), Loaded(m.state);
      && g.layout == m.layout && g.phase.Idle?
      && (StartsUp(m) && orphans != {} ==>
            && (forall id :: id in g.state.records <==> id in before.records && id !in orphans)
            && (forall id :: id in g.state.records ==> g.state.records[id] == before.records[id])
            && g.state.profile == before.profile && g.state.recovery == before.recovery
            && g.state.layoutRevision == before.layoutRevision && g.state.pending.None?)
      && (!StartsUp(m) || orphans == {} ==> g == m)
  {
  }

  /** A migration that goes well: the plan's records beside, or instead of, the old ones, its items
      after the old ones, its target as the layout, and one commit more. */
  lemma StartupMigrates(m: Machine, plan: Plan)
    requires m.phase.Idle? && Loaded(m.state).pending.None? && plan.Migrate?
    requires m.layout.Some? && m.layout.value.chars > 0 && Usable(m.layout)
    requires m.layout.value.json.version != Number(2) && m.layout.value.json.browsers > 0
    requires |Loaded(m.state).recovery| + |plan.recovery| <= RecoveryMax && plan.target.bytes <= LayoutMaxBytes
    ensures var g, before := Finish(Swap(Step(m, RecoverE(plan)), Clean)), Loaded(m.state);
      && g.phase.Idle? && g.layout == Some(plan.target) && g.state.pending.None?
      && (forall id :: id in g.state.records <==> id in before.records || id in plan.records)
      && (forall id :: id in plan.records ==> g.state.records[id] == plan.records[id])
      && (forall id :: id in before.records && id !in plan.records ==> g.state.records[id] == before.records[id])
      && g.state.recovery == before.recovery + plan.recovery && g.state.profile == before.profile
      && g.state.layoutRevision == before.layoutRevision + 1
  {
  }

  // ---------- Counting ----------

  function Commits(atoms: seq<Atom>): nat
    decreases |atoms|
  {
    if atoms == [] then 0 else (if IsCommit(atoms[0]) then 1 else 0) + Commits(atoms[1..])
  }

  /** The transactions that a run begins. */
  ghost function Begun(m: Machine, events: seq<Event>): nat
    decreases |events|
  {
    if events == [] then 0
    else
      var next := Step(m, events[0]);
      (if m.phase.Idle? && next.phase.Journaled? then 1 else 0) + Begun(next, events[1..])
  }

  function InDoubt(m: Machine): nat {
    if m.phase.Journaled? || m.phase.Refused? then 1 else 0
  }

  /** `layoutRevision` counts the commits of a run, and no transaction commits twice. */
  lemma {:induction false} LayoutRevisionCountsCommits(m: Machine, intent: Option<Atom>, events: seq<Event>)
    requires JournalInv(m) && Intended(m, intent) && Runs.Legal(Alone, Step, m, events)
    ensures View(Runs.After(Step, m, events)).state.layoutRevision
            == View(m).state.layoutRevision + Commits(AtomsOf(m, intent, events))
    ensures Commits(AtomsOf(m, intent, events)) + InDoubt(Runs.After(Step, m, events)) <= Begun(m, events) + InDoubt(m)
    decreases |events|
  {
    if events != [] {
      var e, next := events[0], Intent(m, intent, events[0]);
      StepKeepsInv(m, e);
      StepRefines(m, intent, e);
      LayoutRevisionCountsCommits(Step(m, e), next, events[1..]);
      var rest := AtomsOf(Step(m, e), next, events[1..]);
      if AtomOf(m, intent, e).Some? {
        assert AtomsOf(m, intent, events)[1..] == rest;
      } else {
        assert AtomsOf(m, intent, events) == rest;
      }
      CountStep(m, intent, e);
    }
  }

  lemma CountStep(m: Machine, intent: Option<Atom>, e: Event)
    requires JournalInv(m) && Intended(m, intent)
    ensures (if AtomOf(m, intent, e).Some? && IsCommit(AtomOf(m, intent, e).value) then 1 else 0) + InDoubt(Step(m, e))
            <= (if m.phase.Idle? && Step(m, e).phase.Journaled? then 1 else 0) + InDoubt(m)
  {
  }

  // ---------- Other writers of the layout ----------

  /** The operation in flight works on the entry that is on disk. */
  predicate Attached(m: Machine) {
    match m.phase
    case Idle => true
    case Journaled(_, entry) => m.state == entry && entry.pending.Some?
    case Refused(_, entry) => m.state == entry && entry.pending.Some?
    case Swapped(_, entry) => m.state == entry && entry.pending.Some?
    case Replaying(entry) => Loaded(m.state) == entry && entry.pending.Some?
    case Replayed(entry) => Loaded(m.state) == entry && entry.pending.Some?
  }

  /** A step of this program replaces the layout only where the journal expects what it finds. */
  predicate Replaces(m: Machine, e: Event) {
    var next := Step(m, e);
    !e.ForeignE? && next.layout != m.layout ==>
      m.state.pending.Some? && m.layout == m.state.pending.value.expected
        && next.layout == Some(m.state.pending.value.target)
  }

  lemma AttachedReplaces(m: Machine, e: Event)
    requires Attached(m)
    ensures Replaces(m, e)
  {
  }

  lemma StaysAttached(m: Machine, e: Event)
    requires Attached(m)
    ensures Attached(Step(m, e))
  {
  }

  /** Whatever other programs write, and wherever operations are cut off, nothing is overwritten
      that the journalled transaction did not expect. */
  lemma NeverOverwrites(m: Machine, events: seq<Event>, e: Event)
    requires m.phase.Idle?
    ensures Replaces(Runs.After(Step, m, events), e)
  {
    forall n, d | Attached(n) ensures Attached(Step(n, d)) {
      StaysAttached(n, d);
    }
    Runs.Always(Attached, Step, m, events);
    AttachedReplaces(Runs.After(Step, m, events), e);
  }

  /** With other writers a recovery ends the transaction exactly when the layout is still the
      expected one or already the target; otherwise it touches neither file. */
  lemma RecoveryResolves(m: Machine)
    requires m.phase.Idle? && Loaded(m.state).pending.Some?
    ensures var read := Loaded(m.state); var tx := read.pending.value;
      && (Loaded(Recovered(m).state).pending.None? <==>
            Usable(m.layout) && Writable(tx.target) && (m.layout == tx.expected || m.layout == Some(tx.target)))
      && (Loaded(Recovered(m).state).pending.Some? ==> Recovered(m) == m)
      && (Loaded(Recovered(m).state).pending.None? ==>
            Recovered(m) == Machine(Cleared(read, read.layoutRevision), Some(tx.target), Idle))
  {
  }
}
