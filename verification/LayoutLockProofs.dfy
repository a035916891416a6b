/** Mutual exclusion, no lost update, and the unlinks that break them. */
module LayoutLockProofs {
  import opened Wrappers
  import opened LayoutLock
  import Runs
  import Sets

  // ---------- Over every run ----------

  lemma ExclusionStep(s: System, e: Event)
    requires Exclusive(s) && SparesOwners(s, e)
    ensures Exclusive(Step(s, e))
  {
  }

  lemma GuardedStep(s: System, e: Event)
    requires Guarded(s) && SparesSaves(s, e)
    ensures Guarded(Step(s, e))
  {
  }

  lemma ExclusionKept(s: System, events: seq<Event>)
    requires Exclusive(s) && Runs.Legal(SparesOwners, Step, s, events)
    ensures Exclusive(Runs.After(Step, s, events))
  {
    forall t, e | Exclusive(t) && SparesOwners(t, e) ensures Exclusive(Step(t, e)) {
      ExclusionStep(t, e);
    }
    Runs.Invariant(Exclusive, SparesOwners, Step, s, events);
  }

  lemma GuardedKept(s: System, events: seq<Event>)
    requires Guarded(s) && Runs.Legal(SparesSaves, Step, s, events)
    ensures Guarded(Runs.After(Step, s, events))
  {
    forall t, e | Guarded(t) && SparesSaves(t, e) ensures Guarded(Step(t, e)) {
      GuardedStep(t, e);
    }
    Runs.Invariant(Guarded, SparesSaves, Step, s, events);
  }

  /** Any number of processes, any crashes, any judgement: while no unlink hits a living process, at
      most one is between its acquisition and its release. */
  lemma MutualExclusion(layout: Layout, events: seq<Event>)
    requires Runs.Legal(SparesOwners, Step, Start(layout), events)
    ensures Alone(Runs.After(Step, Start(layout), events))
  {
    ExclusionKept(Start(layout), events);
  }

  /** While no unlink hits a process that still relies on its lock, every save that succeeded
      replaced exactly the version it expected. */
  lemma NoLostUpdate(layout: Layout, events: seq<Event>)
    requires Runs.Legal(SparesSaves, Step, Start(layout), events)
    ensures Chained(Runs.After(Step, Start(layout), events))
  {
    GuardedKept(Start(layout), events);
  }

  // ---------- Runs without an unlink ----------

  predicate Free(events: seq<Event>) {
    forall e :: e in events ==> !e.UnlinkE?
  }

  lemma {:induction false} FreeIsLegal(s: System, events: seq<Event>)
    requires Free(events)
    ensures Runs.Legal(SparesOwners, Step, s, events) && Runs.Legal(SparesSaves, Step, s, events)
    decreases |events|
  {
    if events != [] {
      FreeIsLegal(Step(s, events[0]), events[1..]);
    }
  }

  /** `t` can be reached from `s` without any unlink of a reclaimer. */
  ghost predicate LeadsTo(s: System, t: System) {
    exists events :: Free(events) && Runs.After(Step, s, events) == t
  }

  lemma Stays(s: System)
    ensures LeadsTo(s, s)
  {
    assert Runs.After(Step, s, []) == s;
  }

  lemma Goes(s: System, e: Event, t: System)
    requires !e.UnlinkE? && LeadsTo(Step(s, e), t)
    ensures LeadsTo(s, t)
  {
    var events :| Free(events) && Runs.After(Step, Step(s, e), events) == t;
    assert ([e] + events)[1..] == events;
    assert Free([e] + events) && Runs.After(Step, s, [e] + events) == t;
  }

  // ---------- Saves are lost ----------

  /** A process nobody has heard of. */
  lemma Newcomer(s: System) returns (r: Pid)
    ensures r !in s.dead && r !in s.phases
  {
    r := Sets.Fresh(s.dead + s.phases.Keys);
  }

  /** While nobody holds the lock a newcomer saves any text, and leaves no lock behind. */
  lemma SaveBetween(s: System, text: Layout) returns (r: Pid, t: System)
    requires s.lock.None?
    ensures r !in s.phases && t == Go(s, r, Outside).(
      layout := text, tokens := s.tokens + 1, writes := s.writes + [Write(s.layout, Save(s.layout, text))])
    ensures forall u :: LeadsTo(t, u) ==> LeadsTo(s, u)
  {
    r := Newcomer(s);
    var save, token := Save(s.layout, text), s.tokens;
    var s1 := Step(s, StartE(r, save));
    var s2 := Step(s1, LinkE(r));
    assert At(s2.phases, r) == Holding(save, token);
    var s3 := Step(s2, CompareE(r));
    var s4 := Step(s3, WriteE(r));
    assert At(s4.phases, r) == Done(token);
    var s5 := Step(s4, CheckOwnE(r));
    t := Step(s5, ReleaseE(r));
    forall u | LeadsTo(t, u) ensures LeadsTo(s, u) {
      Goes(s5, ReleaseE(r), u);
      Goes(s4, CheckOwnE(r), u);
      Goes(s3, WriteE(r), u);
      Goes(s2, CompareE(r), u);
      Goes(s1, LinkE(r), u);
      Goes(s, StartE(r, save), u);
    }
  }

  /** Its layout was as expected, but it no longer has the lock: another save comes first. */
  lemma MatchedLoses(s: System, q: Pid) returns (t: System)
    requires s.lock.None? && q !in s.dead && At(s.phases, q).Matched?
    ensures LeadsTo(s, t) && !Chained(t)
  {
    var save := At(s.phases, q).save;
    var r, m := SaveBetween(s, save.expected + 1);
    assert At(m.phases, q) == At(s.phases, q);
    t := Step(m, WriteE(q));
    Stays(t);
    Goes(m, WriteE(q), t);
    assert t.writes[|t.writes|-1] == Write(save.expected + 1, save);
  }

  /** Another save lets it find what it expects. */
  lemma HoldingLoses(s: System, q: Pid) returns (t: System)
    requires s.lock.None? && q !in s.dead && At(s.phases, q).Holding?
    ensures LeadsTo(s, t) && !Chained(t)
  {
    var r, m := SaveBetween(s, At(s.phases, q).save.expected);
    assert At(m.phases, q) == At(s.phases, q);
    t := MatchedLoses(Step(m, CompareE(q)), q);
    Goes(m, CompareE(q), t);
  }

  /** Its own unlink takes the lock of the next process. */
  lemma ReleasingLoses(s: System, q: Pid) returns (t: System)
    requires s.lock.None? && q !in s.dead && At(s.phases, q).Releasing?
    ensures LeadsTo(s, t) && !Chained(t)
  {
    var r := Newcomer(s);
    var save := Save(0, 0);
    var s1 := Step(s, StartE(r, save));
    var s2 := Step(s1, LinkE(r));
    assert At(s2.phases, q) == At(s.phases, q);
    var s3 := Step(s2, ReleaseE(q));
    assert At(s3.phases, r) == Holding(save, s.tokens);
    t := HoldingLoses(s3, r);
    Goes(s2, ReleaseE(q), t);
    Goes(s1, LinkE(r), t);
    Goes(s, StartE(r, save), t);
  }

  lemma UnlinkLoses(s: System, e: Event) returns (t: System)
    requires Guarded(s) && !SparesSaves(s, e)
    ensures LeadsTo(Step(s, e), t) && !Chained(t)
  {
    var q, m := s.lock.value.owner, Step(s, e);
    assert At(m.phases, q) == At(s.phases, q);
    match At(s.phases, q)
    case Holding(_, _) => t := HoldingLoses(m, q);
    case Matched(_, _) => t := MatchedLoses(m, q);
    case Releasing(_) => t := ReleasingLoses(m, q);
  }

  // ---------- Both conditions are exact ----------

  /** From every state of every run: a step leaves every save in its place, over all that may follow,
      exactly when it spares the saves. */
  lemma SavesExactly(s: System, e: Event)
    requires Guarded(s)
    ensures SparesSaves(s, e) <==>
      forall events :: Runs.Legal(SparesSaves, Step, Step(s, e), events) ==>
        Chained(Runs.After(Step, Step(s, e), events))
  {
    if SparesSaves(s, e) {
      GuardedStep(s, e);
      forall events | Runs.Legal(SparesSaves, Step, Step(s, e), events)
        ensures Chained(Runs.After(Step, Step(s, e), events))
      {
        GuardedKept(Step(s, e), events);
      }
    } else {
      var t := UnlinkLoses(s, e);
      var events :| Free(events) && Runs.After(Step, Step(s, e), events) == t;
      FreeIsLegal(Step(s, e), events);
      assert !Chained(Runs.After(Step, Step(s, e), events));
    }
  }

  /** A step leaves at most one process inside, over all that may follow, exactly when it spares the
      owners: else the reclaimer goes in beside the owner. */
  lemma ExclusionExactly(s: System, e: Event)
    requires Exclusive(s)
    ensures SparesOwners(s, e) <==>
      forall events :: Runs.Legal(SparesOwners, Step, Step(s, e), events) ==>
        Alone(Runs.After(Step, Step(s, e), events))
  {
    if SparesOwners(s, e) {
      ExclusionStep(s, e);
      forall events | Runs.Legal(SparesOwners, Step, Step(s, e), events)
        ensures Alone(Runs.After(Step, Step(s, e), events))
      {
        ExclusionKept(Step(s, e), events);
      }
    } else {
      var events := GoesInBeside(s, e);
      assert !Alone(Runs.After(Step, Step(s, e), events));
    }
  }

  lemma GoesInBeside(s: System, e: Event) returns (events: seq<Event>)
    requires Exclusive(s) && HitsLiving(s, e)
    ensures Runs.Legal(SparesOwners, Step, Step(s, e), events) && !Alone(Runs.After(Step, Step(s, e), events))
  {
    var p, q, t := e.p, s.lock.value.owner, Step(s, e);
    assert At(t.phases, q) == At(s.phases, q);
    var u := Step(t, LinkE(p));
    assert Owns(u, p) && Owns(u, q) && p != q;
    events := [LinkE(p)];
    assert events[1..] == [];
    FreeIsLegal(t, events);
    assert Runs.After(Step, t, events) == Runs.After(Step, u, []);
  }

  // ---------- One reclaimer at a time ----------

  lemma CarefulStep(s: System, e: Event)
    requires Aimed(s) && Exclusive(s) && Careful(s, e)
    ensures Aimed(Step(s, e)) && SparesOwners(s, e)
  {
  }

  /** Sound judgement and one reclaimer at a time between check and unlink are enough for both, over
      every run. */
  lemma CareSuffices(layout: Layout, events: seq<Event>)
    requires Runs.Legal(Careful, Step, Start(layout), events)
    ensures var s := Runs.After(Step, Start(layout), events); Alone(s) && Chained(s)
  {
    var inv := (s: System) => Aimed(s) && Exclusive(s) && Guarded(s);
    forall s, e | inv(s) && Careful(s, e) ensures inv(Step(s, e)) {
      CarefulStep(s, e);
      ExclusionStep(s, e);
      GuardedStep(s, e);
    }
    Runs.Invariant(inv, Careful, Step, Start(layout), events);
  }

  // ---------- Two reclaimers of one dead lock ----------

  function Judges(p: Pid, save: Save): seq<Event> {
    [StartE(p, save), SnapshotE(p), JudgeE(p, true)] + [CheckE(p)]
  }

  function Takes(p: Pid): seq<Event> {
    [UnlinkE(p), LinkE(p), CompareE(p)]
  }

  function Race(p: Pid, a: Save, q: Pid, b: Save): seq<Event> {
    Judges(p, a) + (Judges(q, b) + (Takes(p) + (Takes(q) + [WriteE(p), WriteE(q)])))
  }

  /** A reclaimer that finds a dead owner's lock gets as far as its unlink. */
  lemma JudgesDead(s: System, p: Pid, save: Save)
    requires p !in s.dead && At(s.phases, p).Outside? && s.lock.Some? && s.lock.value.owner in s.dead
    ensures Runs.After(Step, s, Judges(p, save)) == Go(s, p, Unlinking(save, s.lock.value))
  {
    Runs.Compose(Step, s, [StartE(p, save), SnapshotE(p), JudgeE(p, true)], [CheckE(p)]);
    Runs.Three(Step, s, StartE(p, save), SnapshotE(p), JudgeE(p, true));
    var t := Go(s, p, Checking(save, s.lock.value));
    assert [CheckE(p)][1..] == [];
    assert Runs.After(Step, t, [CheckE(p)]) == Step(t, CheckE(p));
  }

  /** Unlinking whatever stands there, it acquires a lock of its own and finds the layout expected. */
  lemma TakesOver(s: System, p: Pid, save: Save, lock: Lock)
    requires p !in s.dead && At(s.phases, p) == Unlinking(save, lock) && s.layout == save.expected
    ensures Runs.After(Step, s, Takes(p))
            == Go(s.(lock := Some(Lock(p, s.tokens)), tokens := s.tokens + 1), p, Matched(save, s.tokens))
  {
    Runs.Three(Step, s, UnlinkE(p), LinkE(p), CompareE(p));
    var s1 := Step(s, UnlinkE(p));
    assert s1 == Go(s.(lock := None), p, Contending(save));
    var s2 := Step(s1, LinkE(p));
    assert s2 == Go(s1.(lock := Some(Lock(p, s.tokens)), tokens := s.tokens + 1), p, Holding(save, s.tokens));
  }

  lemma BothWrite(s: System, p: Pid, q: Pid)
    requires p != q && p !in s.dead && q !in s.dead && At(s.phases, p).Matched? && At(s.phases, q).Matched?
    ensures var a, b := At(s.phases, p).save, At(s.phases, q).save;
      Runs.After(Step, s, [WriteE(p), WriteE(q)]).writes == s.writes + [Write(s.layout, a)] + [Write(a.text, b)]
  {
    Runs.Two(Step, s, WriteE(p), WriteE(q));
    assert At(Step(s, WriteE(p)).phases, q) == At(s.phases, q);
  }

  /** When two reclaimers have checked before either unlinks, the second unlink removes the first
      one's new lock: both are inside, both saves succeed, and the first one is lost. */
  lemma TwoReclaimersLoseAnUpdate(s: System, p: Pid, a: Save, q: Pid, b: Save)
    requires p != q && p !in s.dead && q !in s.dead && At(s.phases, p).Outside? && At(s.phases, q).Outside?
    requires s.lock.Some? && s.lock.value.owner in s.dead
    requires a.expected == s.layout && b.expected == s.layout
    ensures var r := Runs.After(Step, s, Race(p, a, q, b));
      && r.writes == s.writes + [Write(s.layout, a)] + [Write(a.text, b)]
      && (Chained(r) ==> a.text == s.layout)
  {
    var lock := s.lock.value;
    Runs.Compose(Step, s, Judges(p, a), Judges(q, b) + (Takes(p) + (Takes(q) + [WriteE(p), WriteE(q)])));
    JudgesDead(s, p, a);
    var s1 := Go(s, p, Unlinking(a, lock));
    Runs.Compose(Step, s1, Judges(q, b), Takes(p) + (Takes(q) + [WriteE(p), WriteE(q)]));
    JudgesDead(s1, q, b);
    var s2 := Go(s1, q, Unlinking(b, lock));
    Runs.Compose(Step, s2, Takes(p), Takes(q) + [WriteE(p), WriteE(q)]);
    TakesOver(s2, p, a, lock);
    var s3 := Runs.After(Step, s2, Takes(p));
    Runs.Compose(Step, s3, Takes(q), [WriteE(p), WriteE(q)]);
    TakesOver(s3, q, b, lock);
    var s4 := Runs.After(Step, s3, Takes(q));
    BothWrite(s4, p, q);
    var r := Runs.After(Step, s, Race(p, a, q, b));
    assert r.writes[|r.writes|-1] == Write(a.text, b);
  }
}
