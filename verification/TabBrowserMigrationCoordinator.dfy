/** The commit and the startup coordinator as the source writes them: one write after the other,
    each of which may be the last before the process dies. */
module TabBrowserMigrationCoordinator {
  import opened Wrappers
  import opened BrowserState
  import opened Journal
  import JournalProofs

  datatype Outcome = Saved | NotSaved | Thrown | Interrupted | Nothing

  class BrowserFiles {
    var state: StateFile
    var layout: Option<Text>

    function Disk(): Machine
      reads this
    {
      Machine(state, layout, Idle)
    }

    constructor (state: StateFile, layout: Option<Text>)
      ensures Disk() == Machine(state, layout, Idle)
    {
      this.state, this.layout := state, layout;
    }

    method Load() returns (r: StateFile)
      ensures r == Loaded(state)
    {
      if FileBytes(state) > StateMaxBytes { return EmptyState; }
      r := state;
      var records := FirstOf(state.records);
      r := r.(records := records);
      if r.pending.Some? && (|r.pending.value.id| > TransactionIdMax
        || r.pending.value.target.chars > JournalMaxChars) {
        r := r.(pending := None);
      }
    }

    method FirstOf(all: map<BrowserId, Record>) returns (records: map<BrowserId, Record>)
      ensures records == FirstRecords(all)
    {
      records := all;
      while |records| > RecordMax
        invariant FirstRecords(records) == FirstRecords(all)
        decreases |records|
      {
        var last := Greatest(records.Keys);
        OneRecordLess(records, last);
        records := records - {last};
      }
    }

    method SaveLayout(target: Text, expected: Option<Text>, save: Save) returns (ok: bool)
      modifies this`layout
      ensures (layout, ok) == CompareAndSwap(old(layout), Transaction("", BrowserAssociation, expected, target), save)
    {
      if target.bytes > LayoutMaxBytes || save.FailsBefore? { return false; }
      if layout.Some? && layout.value.bytes > LayoutMaxBytes { return false; }
      if layout != expected { return false; }
      layout := Some(target);
      return save.Clean?;
    }

    /** `writes` is the number of steps before the process dies; three is the whole commit. */
    method CommitBrowserLayoutMutation(id: string, target: Text, expected: Option<Text>, staged: StateFile,
                                       save: Save, writes: nat) returns (outcome: Outcome)
      modifies this
      ensures Disk() == CutCommit(old(Disk()),
        Transaction(id, BrowserAssociation, expected, target), staged, save, writes)
      ensures outcome.Thrown? ==> Disk() == old(Disk())
      ensures outcome.Saved? || outcome.NotSaved? ==>
        writes >= 3 && Accepted(old(Disk()), Transaction(id, BrowserAssociation, expected, target))
      ensures outcome.Saved? ==> layout == Some(target) && old(layout) == expected
      ensures outcome.NotSaved? && !save.FailsAfter? ==> layout == old(layout)
    {
      var tx := Transaction(id, BrowserAssociation, expected, target);
      if writes == 0 { return Interrupted; }
      if !NoFuture(target) || !Usable(layout) { return Thrown; }
      var before := Load();
      if before.pending.Some? { return Thrown; }
      var entry := WithContents(before, staged).(revision := before.revision + 1, pending := Some(tx));
      state := entry;
      if writes == 1 { return Interrupted; }
      var ok := SaveLayout(target, expected, save);
      if writes == 2 { return Interrupted; }
      if !ok {
        state := before.(revision := entry.revision + 1);
        return NotSaved;
      }
      state := entry.(pending := None, revision := entry.revision + 1, layoutRevision := before.layoutRevision + 1);
      return Saved;
    }

    /** A transaction that was cut off is carried out again. */
    method Replay(before: StateFile, ghost plan: Plan, save: Save, writes: nat) returns (outcome: Outcome)
      requires before == Loaded(state) && before.pending.Some? && writes >= 1
      modifies this
      ensures Disk() == CutRecovery(old(Disk()), plan, save, writes)
      ensures outcome.Saved? ==> state.pending.None? && state.layoutRevision == before.layoutRevision + 1
      ensures plan.NoPlan? && save.Clean? && writes >= 3 ==> Disk() == Recovered(old(Disk()))
    {
      var tx := before.pending.value;
      if !Writable(tx.target) || !Usable(layout) { return Thrown; }
      if layout != Some(tx.target) {
        if writes == 1 { return Interrupted; }
        var ok := SaveLayout(tx.target, tx.expected, save);
        if !ok { return Thrown; }
      }
      if writes <= 2 { return Interrupted; }
      state := before.(pending := None, layoutRevision := before.layoutRevision + 1, revision := before.revision + 1);
      return Saved;
    }

    /** An old layout is converted, with its records and recovery items written first. */
    method Migrate(before: StateFile, plan: Plan, save: Save, writes: nat) returns (outcome: Outcome)
      requires before == Loaded(state) && before.pending.None? && writes >= 1 && plan.Migrate?
      requires Usable(layout) && layout.Some? && layout.value.chars != 0
      requires layout.value.json.version != Number(2) && layout.value.json.browsers != 0
      modifies this
      ensures Disk() == CutRecovery(old(Disk()), plan, save, writes)
      ensures outcome.Saved? ==> state.pending.None? && state.layoutRevision == before.layoutRevision + 1
    {
      if |before.recovery| + |plan.recovery| > RecoveryMax { return Thrown; }
      var entry := before.(revision := before.revision + 1, records := before.records + plan.records,
                           recovery := before.recovery + plan.recovery,
                           pending := Some(Transaction(plan.id, LegacyLayoutMigration, layout, plan.target)));
      state := entry;
      if writes == 1 { return Interrupted; }
      var ok := SaveLayout(plan.target, layout, save);
      if !ok { return Thrown; }
      if writes == 2 { return Interrupted; }
      state := entry.(pending := None, layoutRevision := before.layoutRevision + 1, revision := entry.revision + 1);
      return Saved;
    }

    method CoordinateTabBrowserMigration(plan: Plan, save: Save, writes: nat) returns (outcome: Outcome)
      modifies this
      ensures Disk() == CutRecovery(old(Disk()), plan, save, writes)
      ensures outcome.Saved? ==> state.pending.None? && state.layoutRevision == Loaded(old(state)).layoutRevision + 1
      ensures plan.NoPlan? && save.Clean? && writes >= 3 ==> Disk() == Recovered(old(Disk()))
    {
      if writes == 0 { return Interrupted; }
      var before := Load();
      if before.pending.Some? {
        outcome := Replay(before, plan, save, writes);
        return;
      }
      if !Usable(layout) { return Thrown; }
      if layout.None? || layout.value.chars == 0 { return Nothing; }
      match plan
      case NoPlan => return Nothing;
      case DropOrphans(orphans) =>
        if layout.value.json.version == Number(2) && orphans != {} {
          state := before.(records := before.records - orphans, revision := before.revision + 1);
        }
        return Nothing;
      case Migrate(_, _, _, _) =>
        if layout.value.json.version == Number(2) || layout.value.json.browsers == 0 { return Nothing; }
        outcome := Migrate(before, plan, save, writes);
    }
  }

  // ---------- The same as steps of the machine ----------

  function CutCommit(m: Machine, tx: Transaction, staged: StateFile, save: Save, writes: nat): Machine {
    var m1 := if writes >= 1 then Begin(m, tx, staged) else m;
    var m2 := if writes >= 2 then Swap(m1, save) else m1;
    (if writes >= 3 then Finish(m2) else m2).(phase := Idle)
  }

  function CutRecovery(m: Machine, plan: Plan, save: Save, writes: nat): Machine {
    var m1 := if writes >= 1 then Recover(m, plan) else m;
    var m2 := if writes >= 2 then Swap(m1, save) else m1;
    (if writes >= 3 then Finish(m2) else m2).(phase := Idle)
  }

  /** What a commit that has ended leaves behind: the committed pair where the layout was replaced,
      else the old one, if the state is read back whole. */
  lemma EndedCommit(m: Machine, tx: Transaction, staged: StateFile, save: Save)
    requires tx.kind.BrowserAssociation? && Accepted(m, tx)
    ensures var r := CutCommit(m, tx, staged, save, 3);
      var ok := CompareAndSwap(m.layout, tx, save).1;
      && r.phase.Idle? && r.state.pending.None?
      && (Intact(r.state) && ok ==> PairOf(r) == Committed(PairOf(m), staged, tx.target))
      && (Intact(r.state) && !ok && !save.FailsAfter? ==> PairOf(r) == PairOf(m))
  {
  }

  ghost function CutRecoveries(m: Machine, cuts: seq<(Save, nat)>): Machine
    decreases |cuts|
  {
    if cuts == [] then m else CutRecoveries(CutRecovery(m, NoPlan, cuts[0].0, cuts[0].1), cuts[1..])
  }

  /** A commit cut off anywhere, then recoveries cut off anywhere, then one that is not. */
  lemma CutCommitRecovers(m: Machine, tx: Transaction, staged: StateFile, save: Save, writes: nat,
      cuts: seq<(Save, nat)>)
    requires tx.kind.BrowserAssociation? && Accepted(m, tx) && JournalProofs.Safe(m, tx, staged, save.FailsAfter?)
    requires writes >= 1
    ensures JournalProofs.BeforeOrAfter(m, tx, staged,
      Recovered(CutRecoveries(CutCommit(m, tx, staged, save, writes), cuts)))
  {
    var start, sync := CutCommit(m, tx, staged, save, writes), save.FailsAfter?;
    var begun := Begin(m, tx, staged);
    JournalProofs.StaysOnTrack(begun, SwapE(save), m, tx, staged, sync);
    JournalProofs.StaysOnTrack(Swap(begun, save), FinishE, m, tx, staged, sync);
    var last := if writes >= 3 then Finish(Swap(begun, save)) else if writes == 2 then Swap(begun, save) else begun;
    JournalProofs.StaysOnTrack(last, InterruptE, m, tx, staged, sync);
    CutRecoveriesStayOnTrack(start, m, tx, staged, sync, cuts);
    JournalProofs.TrackRecovers(CutRecoveries(start, cuts), m, tx, staged, sync);
  }

  lemma {:induction false} CutRecoveriesStayOnTrack(n: Machine, m: Machine, tx: Transaction, staged: StateFile,
                                                    sync: bool, cuts: seq<(Save, nat)>)
    requires tx.kind.BrowserAssociation? && Accepted(m, tx) && JournalProofs.Safe(m, tx, staged, sync)
    requires n.phase.Idle? && JournalProofs.OnTrack(n, Loaded(m.state), m.layout, tx, staged)
    ensures JournalProofs.OnTrack(CutRecoveries(n, cuts), Loaded(m.state), m.layout, tx, staged)
    decreases |cuts|
  {
    if cuts != [] {
      var (save, writes) := cuts[0];
      var n1 := if writes >= 1 then Recover(n, NoPlan) else n;
      var n2 := if writes >= 2 then Swap(n1, save) else n1;
      var n3 := if writes >= 3 then Finish(n2) else n2;
      JournalProofs.StaysOnTrack(n, RecoverE(NoPlan), m, tx, staged, sync);
      JournalProofs.StaysOnTrack(n1, SwapE(save), m, tx, staged, sync);
      JournalProofs.StaysOnTrack(n2, FinishE, m, tx, staged, sync);
      JournalProofs.StaysOnTrack(n3, InterruptE, m, tx, staged, sync);
      CutRecoveriesStayOnTrack(n3.(phase := Idle), m, tx, staged, sync, cuts[1..]);
    }
  }
}
