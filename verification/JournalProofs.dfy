/** The two-file commit is atomic under crashes, exactly when its journal entry can be replayed. */
module JournalProofs {
  import opened Wrappers
  import opened BrowserState
  import opened Journal
  import Runs

  // ---------- One transaction, any crashes ----------

  /** What can happen to one transaction when no other program writes the layout: every interruption
      and every failure, where `sync` says whether the commit's own save of the layout can fail after
      the rename. */
  ghost predicate Local(sync: bool, m: Machine, e: Event) {
    match e
    case SwapE(save) => save.FailsAfter? && m.phase.Journaled? ==> sync
    case FinishE => true
    case InterruptE => true
    case RecoverE(plan) => plan.NoPlan?
    case _ => false
  }

  ghost predicate BeforeOrAfter(m: Machine, tx: Transaction, staged: StateFile, r: Machine) {
    && r.phase.Idle? && Loaded(r.state).pending.None?
    && (PairOf(r) == PairOf(m) || PairOf(r) == Committed(PairOf(m), staged, tx.target))
  }

  ghost function LocalTo(sync: bool): (Machine, Event) -> bool {
    (m, e) => Local(sync, m, e)
  }

  /** Wherever the commit and any number of recoveries are cut off, a last recovery leaves the pair
      from before the commit or the pair after it, and no journal entry. */
  ghost predicate Atomic(m: Machine, tx: Transaction, staged: StateFile, sync: bool) {
    forall events :: Runs.Legal(LocalTo(sync), Step, Begin(m, tx, staged), events) ==>
      BeforeOrAfter(m, tx, staged, Recovered(Runs.After(Step, Begin(m, tx, staged), events)))
  }

  /** The state is read back without an entry, and as the other one up to its revision. */
  predicate ReadsAs(state: StateFile, other: StateFile) {
    Loaded(state).pending.None? && Stripped(Loaded(state)) == Stripped(other)
  }

  /** The state of a committed transaction, beside its target: read back whole, or else, when the
      layout was the target already, at least as before. */
  predicate EndsWell(state: StateFile, done: StateFile, before: StateFile, already: bool) {
    ReadsAs(state, done) || (already && ReadsAs(state, before))
  }

  /** What a caller can check before it commits: what the three states that may be saved are read
      back as, whether the target is acceptable to recovery, and whether the layout is as expected. */
  predicate Safe(m: Machine, tx: Transaction, staged: StateFile, sync: bool) {
    var before := Loaded(m.state);
    var entry := Entry(before, staged, tx);
    var done := Cleared(entry, before.layoutRevision);
    var read := Loaded(entry);
    var expected, already := m.layout == tx.expected, m.layout == Some(tx.target);
    && ReadsAs(PutBack(before, entry), before)
    && (sync && expected ==> already)
    && (expected ==> EndsWell(done, done, before, already))
    && if read.pending.None? then ReadsAs(entry, before) && (expected ==> already)
       else Writable(tx.target) && (expected || already)
            && EndsWell(Cleared(read, read.layoutRevision), done, before, already)
  }

  ghost predicate Resolved(m: Machine, pair: Pair, staged: StateFile, target: Text) {
    m.phase.Idle? && Loaded(m.state).pending.None?
      && (PairOf(m) == pair || PairOf(m) == Committed(pair, staged, target))
  }

  /** The states one accepted transaction passes through. */
  ghost predicate OnTrack(m: Machine, before: StateFile, layout: Option<Text>, tx: Transaction, staged: StateFile) {
    var entry := Entry(before, staged, tx);
    var pair := Pair(Stripped(before), layout);
    match m.phase
    case Journaled(b, e) => b == before && e == entry && m.state == entry && m.layout == layout
    case Refused(b, e) => b == before && e == entry && m.state == entry && m.layout == layout
    case Swapped(b, e) =>
      b == before && e == entry && m.state == entry && m.layout == Some(tx.target) && layout == tx.expected
    case Replaying(e) => e == Loaded(entry) && e.pending.Some? && m.state == entry && m.layout == layout
    case Replayed(e) => e == Loaded(entry) && e.pending.Some? && m.state == entry && m.layout == Some(tx.target)
    case Idle =>
      || Resolved(m, pair, staged, tx.target)
      || (m.state == entry && (m.layout == layout || (m.layout == Some(tx.target) && Loaded(entry).pending.Some?)))
  }

  lemma SwapOnTrack(m: Machine, save: Save, m0: Machine, tx: Transaction, staged: StateFile, sync: bool)
    requires tx.kind.BrowserAssociation? && Accepted(m0, tx) && Safe(m0, tx, staged, sync)
    requires OnTrack(m, Loaded(m0.state), m0.layout, tx, staged) && Local(sync, m, SwapE(save))
    ensures OnTrack(Step(m, SwapE(save)), Loaded(m0.state), m0.layout, tx, staged)
  {
  }

  lemma FinishOnTrack(m: Machine, m0: Machine, tx: Transaction, staged: StateFile, sync: bool)
    requires tx.kind.BrowserAssociation? && Accepted(m0, tx) && Safe(m0, tx, staged, sync)
    requires OnTrack(m, Loaded(m0.state), m0.layout, tx, staged) && Local(sync, m, FinishE)
    ensures OnTrack(Step(m, FinishE), Loaded(m0.state), m0.layout, tx, staged)
  {
  }

  lemma RecoverOnTrack(m: Machine, m0: Machine, tx: Transaction, staged: StateFile, sync: bool)
    requires tx.kind.BrowserAssociation? && Accepted(m0, tx) && Safe(m0, tx, staged, sync)
    requires OnTrack(m, Loaded(m0.state), m0.layout, tx, staged) && Local(sync, m, RecoverE(NoPlan))
    ensures OnTrack(Step(m, RecoverE(NoPlan)), Loaded(m0.state), m0.layout, tx, staged)
  {
  }

  lemma StaysOnTrack(m: Machine, e: Event, m0: Machine, tx: Transaction, staged: StateFile, sync: bool)
    requires tx.kind.BrowserAssociation? && Accepted(m0, tx) && Safe(m0, tx, staged, sync)
    requires OnTrack(m, Loaded(m0.state), m0.layout, tx, staged) && Local(sync, m, e)
    ensures OnTrack(Step(m, e), Loaded(m0.state), m0.layout, tx, staged)
  {
    match e
    case RecoverE(_) => RecoverOnTrack(m, m0, tx, staged, sync);
    case SwapE(save) => SwapOnTrack(m, save, m0, tx, staged, sync);
    case FinishE => FinishOnTrack(m, m0, tx, staged, sync);
    case InterruptE =>
  }

  lemma TrackRecovers(m: Machine, m0: Machine, tx: Transaction, staged: StateFile, sync: bool)
    requires tx.kind.BrowserAssociation? && Accepted(m0, tx) && Safe(m0, tx, staged, sync)
    requires OnTrack(m, Loaded(m0.state), m0.layout, tx, staged)
    ensures BeforeOrAfter(m0, tx, staged, Recovered(m))
  {
    var idle := m.(phase := Idle);
    StaysOnTrack(m, InterruptE, m0, tx, staged, sync);
    StaysOnTrack(idle, RecoverE(NoPlan), m0, tx, staged, sync);
    StaysOnTrack(Recover(idle, NoPlan), SwapE(Clean), m0, tx, staged, sync);
    StaysOnTrack(Swap(Recover(idle, NoPlan), Clean), FinishE, m0, tx, staged, sync);
  }

  /** Over every run of interruptions and failures, the commit survives crashes exactly under the
      condition that its caller can check. */
  lemma CrashAtomicExactly(m: Machine, tx: Transaction, staged: StateFile, sync: bool)
    requires tx.kind.BrowserAssociation? && Accepted(m, tx)
    ensures Atomic(m, tx, staged, sync) <==> Safe(m, tx, staged, sync)
  {
    if Safe(m, tx, staged, sync) {
      forall events | Runs.Legal(LocalTo(sync), Step, Begin(m, tx, staged), events)
        ensures BeforeOrAfter(m, tx, staged, Recovered(Runs.After(Step, Begin(m, tx, staged), events)))
      {
        CommitIsAtomic(m, tx, staged, sync, events);
      }
    } else {
      UnsafeCommitBreaks(m, tx, staged, sync);
    }
  }

  lemma CommitIsAtomic(m: Machine, tx: Transaction, staged: StateFile, sync: bool, events: seq<Event>)
    requires tx.kind.BrowserAssociation? && Accepted(m, tx) && Safe(m, tx, staged, sync)
    requires Runs.Legal(LocalTo(sync), Step, Begin(m, tx, staged), events)
    ensures BeforeOrAfter(m, tx, staged, Recovered(Runs.After(Step, Begin(m, tx, staged), events)))
  {
    var onTrack := (n: Machine) => OnTrack(n, Loaded(m.state), m.layout, tx, staged);
    forall n, e | onTrack(n) && LocalTo(sync)(n, e) ensures onTrack(Step(n, e)) {
      StaysOnTrack(n, e, m, tx, staged, sync);
    }
    Runs.Invariant(onTrack, LocalTo(sync), Step, Begin(m, tx, staged), events);
    TrackRecovers(Runs.After(Step, Begin(m, tx, staged), events), m, tx, staged, sync);
  }

  /** The run that breaks an unsafe commit: a crash right after the entry is saved or the layout is
      replaced, or a commit that ends but cannot be read back. */
  function BreakingRun(m: Machine, tx: Transaction, staged: StateFile, sync: bool): seq<Event> {
    var before := Loaded(m.state);
    var entry := Entry(before, staged, tx);
    var done := Cleared(entry, before.layoutRevision);
    var expected, already := m.layout == tx.expected, m.layout == Some(tx.target);
    if !ReadsAs(PutBack(before, entry), before) then [SwapE(FailsBefore), FinishE]
    else if sync && expected && !already then [SwapE(FailsAfter), FinishE]
    else if expected && !EndsWell(done, done, before, already) then [SwapE(Clean), FinishE]
    else if Loaded(entry).pending.None? && expected && !already then [SwapE(Clean)]
    else []
  }

  lemma AfterTwo(m: Machine, events: seq<Event>)
    requires |events| <= 2
    ensures Runs.After(Step, m, events) ==
      if events == [] then m else if |events| == 1 then Step(m, events[0]) else Step(Step(m, events[0]), events[1])
  {
    if |events| == 2 {
      assert events[1..] == [events[1]] && [events[1]][1..] == [];
      assert Runs.After(Step, Step(m, events[0]), [events[1]]) == Step(Step(m, events[0]), events[1]);
    } else if |events| == 1 {
      assert events[1..] == [];
    }
  }

  lemma UnsafeCommitBreaks(m: Machine, tx: Transaction, staged: StateFile, sync: bool)
    requires tx.kind.BrowserAssociation? && Accepted(m, tx) && !Safe(m, tx, staged, sync)
    ensures !Atomic(m, tx, staged, sync)
    ensures !BeforeOrAfter(m, tx, staged,
      Recovered(Runs.After(Step, Begin(m, tx, staged), BreakingRun(m, tx, staged, sync))))
  {
    var begun, events := Begin(m, tx, staged), BreakingRun(m, tx, staged, sync);
    AfterTwo(begun, events);
    BreaksIndeed(m, tx, staged, sync);
    BreakingIsLegal(begun, events, sync);
  }

  lemma BreakingIsLegal(m: Machine, events: seq<Event>, sync: bool)
    requires |events| <= 2 && forall e :: e in events ==> e.FinishE? || (e.SwapE? && (e.save.FailsAfter? ==> sync))
    ensures Runs.Legal(LocalTo(sync), Step, m, events)
  {
    if events != [] {
      assert events[0] in events;
      var rest := events[1..];
      assert rest == [] || (rest == [events[1]] && events[1] in events && rest[1..] == []);
      assert Runs.Legal(LocalTo(sync), Step, Step(m, events[0]), rest);
    }
  }

  lemma BreaksIndeed(m: Machine, tx: Transaction, staged: StateFile, sync: bool)
    requires tx.kind.BrowserAssociation? && Accepted(m, tx) && !Safe(m, tx, staged, sync)
    ensures var events := BreakingRun(m, tx, staged, sync);
      var begun := Begin(m, tx, staged);
      var n := if events == [] then begun
        else if |events| == 1 then Step(begun, events[0])
        else Step(Step(begun, events[0]), events[1]);
      !BeforeOrAfter(m, tx, staged, Recovered(n))
  {
    var before := Loaded(m.state);
    var entry := Entry(before, staged, tx);
    var begun, events := Begin(m, tx, staged), BreakingRun(m, tx, staged, sync);
    if |events| == 2 {
      EndedBreaks(m, tx, staged, sync, events[0].save);
    } else if |events| == 1 {
      assert Step(begun, events[0]) == Machine(entry, Some(tx.target), Swapped(before, entry));
      LostEntryBreaks(m, tx, staged, Step(begun, events[0]));
    } else if Loaded(entry).pending.None? {
      LostEntryBreaks(m, tx, staged, begun);
    } else {
      KeptEntryBreaks(m, tx, staged, sync);
    }
  }

  /** A commit that has ended is at rest, so it is what it is read back as. */
  lemma EndedBreaks(m: Machine, tx: Transaction, staged: StateFile, sync: bool, save: Save)
    requires tx.kind.BrowserAssociation? && Accepted(m, tx)
    requires BreakingRun(m, tx, staged, sync) == [SwapE(save), FinishE]
    ensures !BeforeOrAfter(m, tx, staged, Recovered(Finish(Swap(Begin(m, tx, staged), save))))
  {
    var r := Finish(Swap(Begin(m, tx, staged), save));
    assert r.phase.Idle? && Loaded(r.state).pending.None?;
    assert Recovered(r) == r;
  }

  /** A crash that leaves an entry which is not read back. */
  lemma LostEntryBreaks(m: Machine, tx: Transaction, staged: StateFile, n: Machine)
    requires n.state == Entry(Loaded(m.state), staged, tx) && Loaded(n.state).pending.None?
    requires ReadsAs(n.state, Loaded(m.state)) ==> n.layout == Some(tx.target) && m.layout != Some(tx.target)
    ensures !BeforeOrAfter(m, tx, staged, Recovered(n))
  {
    assert Recovered(n) == n.(phase := Idle);
  }

  lemma KeptEntryBreaks(m: Machine, tx: Transaction, staged: StateFile, sync: bool)
    requires tx.kind.BrowserAssociation? && Accepted(m, tx) && !Safe(m, tx, staged, sync)
    requires BreakingRun(m, tx, staged, sync) == [] && Loaded(Entry(Loaded(m.state), staged, tx)).pending.Some?
    ensures !BeforeOrAfter(m, tx, staged, Recovered(Begin(m, tx, staged)))
  {
  }

  // ---------- The ordinary commit ----------

  /** For a commit that changes the layout from what it expects, in words: the entry with both whole
      layouts, and the states after and before it, fit the state file; the entry is not dropped for
      its length; and recovery accepts the target.  No such commit survives a failure behind the
      rename. */
  lemma OrdinaryCommit(m: Machine, tx: Transaction, staged: StateFile)
    requires tx.kind.BrowserAssociation? && Accepted(m, tx) && m.layout == tx.expected && m.layout != Some(tx.target)
    ensures var before := Loaded(m.state);
      var entry := Entry(before, staged, tx);
      Safe(m, tx, staged, false) <==>
        && Intact(entry) && Retained(tx) && Writable(tx.target)
        && Intact(Cleared(entry, before.layoutRevision))
        && (Intact(PutBack(before, entry)) || Stripped(before) == Stripped(EmptyState))
    ensures !Safe(m, tx, staged, true)
  {
    var before := Loaded(m.state);
    var entry := Entry(before, staged, tx);
    LoadedIsIntact(m.state);
    FirstRecordsFit(entry.records);
  }
}
