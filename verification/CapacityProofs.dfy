/** What the allowed calls of `Capacity` keep over whole runs, what a rollback undoes, and the
    exact condition under which freezing is safe. */
module CapacityProofs {
  import opened Wrappers
  import opened Capacity
  import Runs
  import Sets

  // ---------- Victims ----------

  lemma VictimUnique(live: map<Id, LiveEntry>, a: Id, b: Id)
    requires IsVictim(live, a) && IsVictim(live, b)
    ensures a == b
  {
  }

  /** Some victim exists as soon as one entry is unprotected. */
  lemma {:induction false} LeastOf(live: map<Id, LiveEntry>, ids: set<Id>) returns (least: Id)
    requires ids != {} && forall id :: id in ids ==> id in live
    ensures least in ids
    ensures forall other :: other in ids && other != least ==> Older(live, least, other)
    decreases |ids|
  {
    var id :| id in ids;
    var rest := ids - {id};
    assert ids == rest + {id};
    if rest == {} {
      least := id;
    } else {
      least := LeastOf(live, rest);
      if Older(live, id, least) { least := id; }
    }
  }

  lemma VictimExists(live: map<Id, LiveEntry>)
    ensures VictimOf(live).None? <==> forall id :: id in live ==> live[id].protections != {}
  {
    var unprotected := set id | id in live && live[id].protections == {};
    if unprotected != {} {
      var least := LeastOf(live, unprotected);
      assert IsVictim(live, least) by {
        forall other | Evictable(live, other) && other != least ensures Older(live, least, other) {
          assert other in unprotected;
        }
      }
      assert least in live && live[least].protections == {};
    } else {
      forall id | id in live ensures live[id].protections != {} {
        assert id !in unprotected;
      }
    }
  }

  // ---------- Preservation ----------

  ghost predicate OneFree(live: map<Id, LiveEntry>, maxLive: nat) {
    || (|live| + 1 == maxLive && forall id :: id in live ==> live[id].protections != {})
    || (|live| == maxLive && forall a, b :: Evictable(live, a) && Evictable(live, b) ==> a == b)
  }

  /** What holds just before a drain: one event has freed at most one place. */
  ghost predicate Slack(c: Cap) {
    && |c.live| <= c.maxLive
    && QueueOk(c) && ServedOk(c.served, c.queue, c.promises) && AdmissionsOk(c.live, c.admissions, c.pending)
    && (forall w :: w in c.queue ==> w.id !in c.live)
    && (c.queue != [] ==> OneFree(c.live, c.maxLive))
  }

  ghost predicate Before(queue: seq<Waiter>, x: Waiter, y: Waiter) {
    exists k, l :: 0 <= k < l < |queue| && queue[k] == x && queue[l] == y
  }

  /** Where the elements that remain stood. */
  lemma WithoutAt(queue: seq<Waiter>, w: Waiter, j: nat)
    requires w in queue && j < |queue| - 1
    ensures var i := IndexOf(queue, w);
      |Without(queue, w)| == |queue| - 1 && Without(queue, w)[j] == queue[if j < i then j else j + 1]
  {
  }

  lemma WithoutElements(queue: seq<Waiter>, w: Waiter)
    requires w in queue && forall i, j :: 0 <= i < j < |queue| ==> queue[i] != queue[j]
    ensures |Without(queue, w)| == |queue| - 1
    ensures forall x :: x in Without(queue, w) <==> x in queue && x != w
    ensures forall i, j :: 0 <= i < j < |Without(queue, w)| ==>
      Before(queue, Without(queue, w)[i], Without(queue, w)[j])
  {
    forall x ensures x in Without(queue, w) <==> x in queue && x != w {
      WithoutMember(queue, w, x);
    }
    forall j, l | 0 <= j < l < |Without(queue, w)|
      ensures Before(queue, Without(queue, w)[j], Without(queue, w)[l])
    {
      WithoutAt(queue, w, j);
      WithoutAt(queue, w, l);
    }
  }

  lemma WithoutMember(queue: seq<Waiter>, w: Waiter, x: Waiter)
    requires w in queue && forall i, j :: 0 <= i < j < |queue| ==> queue[i] != queue[j]
    ensures x in Without(queue, w) <==> x in queue && x != w
  {
    var i, q := IndexOf(queue, w), Without(queue, w);
    if x in q {
      var j :| 0 <= j < |q| && q[j] == x;
      WithoutAt(queue, w, j);
    }
    if x in queue && x != w {
      var j :| 0 <= j < |queue| && queue[j] == x;
      WithoutAt(queue, w, if j < i then j else j - 1);
    }
  }

  lemma IndexedWithout(queue: seq<Waiter>, pending: map<Id, Waiter>, w: Waiter)
    requires Indexed(queue, pending) && w in queue
    ensures Indexed(Without(queue, w), pending - {w.id})
  {
    WithoutElements(queue, w);
  }

  lemma InOrderWithout(queue: seq<Waiter>, settled: map<nat, Settlement>, promises: nat, w: Waiter, how: Settlement)
    requires InOrder(queue, settled, promises) && w in queue
    ensures InOrder(Without(queue, w), settled[w.promise := how], promises)
  {
    WithoutElements(queue, w);
    forall x | x in Without(queue, w) ensures x.promise != w.promise {
      var i, j :| 0 <= i < |queue| && 0 <= j < |queue| && queue[i] == x && queue[j] == w;
      assert i != j;
    }
  }

  lemma RemoveFromQueue(c: Cap, w: Waiter, how: Settlement)
    requires QueueOk(c) && w in c.queue
    ensures QueueOk(Remove(c, w, how))
    ensures Remove(c, w, how) ==
      c.(pending := c.pending - {w.id}, queue := Without(c.queue, w), settled := c.settled[w.promise := how])
  {
    WithoutElements(c.queue, w);
    IndexedWithout(c.queue, c.pending, w);
    InOrderWithout(c.queue, c.settled, c.promises, w, how);
  }

  lemma MapSizes(m: map<Id, LiveEntry>, id: Id, e: LiveEntry)
    ensures id !in m ==> |m[id := e]| == |m| + 1
    ensures id in m ==> |m[id := e]| == |m| && |m - {id}| == |m| - 1
    ensures id !in m ==> m - {id} == m
  {
    assert m[id := e].Keys == m.Keys + {id};
    assert (m - {id}).Keys == m.Keys - {id};
  }

  /** The live map once `id` takes a place: a free one, or the victim's. */
  function Take(live: map<Id, LiveEntry>, id: Id, e: LiveEntry, victim: Option<Id>): map<Id, LiveEntry> {
    (if victim.Some? then live - {victim.value} else live)[id := e]
  }

  function VictimEntry(live: map<Id, LiveEntry>, victim: Option<Id>): Option<Victim>
    requires victim.Some? ==> victim.value in live
  {
    if victim.Some? then Some(Victim(victim.value, live[victim.value])) else None
  }

  /** What a grant to a newcomer does, once the newcomer is protected. */
  lemma AdmitShape(c: Cap, id: Id, now: int)
    requires |c.live| <= c.maxLive && id !in c.live
    ensures var (c1, verdict) := Admit(c, id, now);
      match verdict {
        case Full => c1 == c && |c.live| == c.maxLive && VictimOf(c.live).None?
        case Admitted(victim) =>
          && (victim.None? ==> |c.live| < c.maxLive)
          && (victim.Some? ==> |c.live| == c.maxLive && VictimOf(c.live) == victim)
          && Protected(c1, id, Activation) ==
               c.(live := Take(c.live, id, LiveEntry(now, {Activation}), victim),
                  admissions := c.admissions[id := Admission(true, VictimEntry(c.live, victim), false)])
      }
  {
    var (c1, verdict) := Admit(c, id, now);
    if verdict.Admitted? {
      assert c1.live == Take(c.live, id, LiveEntry(now, {}), verdict.freeze);
      assert {} + {Activation} == {Activation};
      assert c1.live[id := LiveEntry(now, {Activation})] ==
        Take(c.live, id, LiveEntry(now, {Activation}), verdict.freeze);
    }
  }

  lemma TakeSize(live: map<Id, LiveEntry>, id: Id, e: LiveEntry, victim: Option<Id>)
    requires id !in live && (victim.Some? ==> victim.value in live)
    ensures |Take(live, id, e, victim)| == if victim.Some? then |live| else |live| + 1
  {
    MapSizes(live, id, e);
    if victim.Some? {
      MapSizes(live, victim.value, e);
      MapSizes(live - {victim.value}, id, e);
    }
  }

  /** Every open admission stays sound when `id` takes a place, from `victim` if there is one. */
  lemma AdmissionTaken(live: map<Id, LiveEntry>, admissions: map<Id, Admission>, pending: map<Id, Waiter>,
                       id: Id, e: LiveEntry, victim: Option<Id>)
    requires AdmissionsOk(live, admissions, pending)
    requires id !in live && Activation in e.protections && !exists a :: Owes(admissions, a, id)
    requires victim.Some? ==> Evictable(live, victim.value) && victim.value !in pending
    ensures AdmissionsOk(Take(live, id, e, victim),
      admissions[id := Admission(true, VictimEntry(live, victim), false)], pending)
  {
    var admissions' := admissions[id := Admission(true, VictimEntry(live, victim), false)];
    forall a, v | Owes(admissions', a, v) ensures a == id || Owes(admissions, a, v) { }
    forall a, v | Owes(admissions, a, v) ensures victim.Some? ==> a != victim.value && v != victim.value { }
  }

  /** The head of the queue is what `Remove` takes out. */
  lemma RemoveHead(c: Cap, how: Settlement)
    requires QueueOk(c) && c.queue != []
    ensures var w := c.queue[0]; var d := Remove(c, w, how);
      && d == c.(pending := c.pending - {w.id}, queue := c.queue[1..], settled := c.settled[w.promise := how])
      && QueueOk(d)
  {
    var w := c.queue[0];
    assert w in c.queue;
    RemoveFromQueue(c, w, how);
    assert Without(c.queue, w) == c.queue[1..];
  }

  /** After one freed place is taken, everything is protected again. */
  lemma OneFreeTaken(live: map<Id, LiveEntry>, maxLive: nat, id: Id, e: LiveEntry, victim: Option<Id>)
    requires OneFree(live, maxLive) && id !in live && e.protections != {}
    requires victim.None? ==> |live| < maxLive
    requires victim.Some? ==> |live| == maxLive && Evictable(live, victim.value)
    ensures var live' := Take(live, id, e, victim);
      |live'| == maxLive && forall l :: l in live' ==> live'[l].protections != {}
  {
    TakeSize(live, id, e, victim);
    forall l | l in Take(live, id, e, victim) && l != id ensures live[l].protections != {} {
      if victim.Some? && l != victim.value {
        assert !Evictable(live, l);
      }
    }
  }

  /** What a drain does: nothing, or the head waiter takes the place `Admit` found for it. */
  lemma DrainShape(c: Cap)
    requires Slack(c) && c.queue != []
    ensures var w := c.queue[0]; var (c1, verdict) := Admit(c, w.id, w.now);
      if verdict.Full? then Drain(c) == c && |c.live| == c.maxLive && VictimOf(c.live).None?
      else
        && Drain(c) == Protected(c1, w.id, Activation).(
             pending := c.pending - {w.id}, queue := c.queue[1..],
             settled := c.settled[w.promise := Granted(verdict.freeze)], served := c.served + [w.promise])
        && QueueOk(Drain(c))
  {
    var w := c.queue[0];
    var (c1, verdict) := Admit(c, w.id, w.now);
    assert w in c.queue && w.id !in c.live;
    AdmitShape(c, w.id, w.now);
    if verdict.Admitted? {
      RemoveHead(Protected(c1, w.id, Activation), Granted(verdict.freeze));
    }
  }

  lemma ServeHead(served: seq<nat>, queue: seq<Waiter>, promises: nat)
    requires queue != [] && ServedOk(served, queue, promises) && queue[0].promise < promises
    requires forall i, j :: 0 <= i < j < |queue| ==> queue[i].promise < queue[j].promise
    ensures ServedOk(served + [queue[0].promise], queue[1..], promises)
  {
    assert queue[0] in queue;
    forall w | w in queue[1..] ensures w in queue && queue[0].promise < w.promise {
      var i :| 0 <= i < |queue[1..]| && queue[1..][i] == w;
      assert w == queue[i + 1];
    }
    assert forall i :: 0 <= i < |served| ==> served[i] in served;
  }

  /** The head waiter leaves with its slot and its promise is the latest served. */
  lemma TakeHead(c: Cap, d: Cap, how: Settlement)
    requires QueueOk(c) && ServedOk(c.served, c.queue, c.promises) && c.queue != []
    requires forall w :: w in c.queue ==> w.id !in c.live
    requires var w := c.queue[0];
      && d == c.(live := d.live, admissions := d.admissions, pending := c.pending - {w.id}, queue := c.queue[1..],
           settled := c.settled[w.promise := how], served := c.served + [w.promise])
      && d.live.Keys <= c.live.Keys + {w.id}
    requires |d.live| == c.maxLive && forall l :: l in d.live ==> d.live[l].protections != {}
    requires AdmissionsOk(d.live, d.admissions, c.pending) && QueueOk(d)
    ensures Inv(d)
  {
    assert c.queue[0] in c.queue;
    ServeHead(c.served, c.queue, c.promises);
    TailNotLive(c.queue, c.live, d.live);
    FewerPending(d.live, d.admissions, c.pending, {c.queue[0].id});
  }

  lemma TailNotLive(queue: seq<Waiter>, before: map<Id, LiveEntry>, after: map<Id, LiveEntry>)
    requires queue != [] && forall w :: w in queue ==> w.id !in before
    requires after.Keys <= before.Keys + {queue[0].id}
    requires forall i, j :: 0 <= i < j < |queue| ==> queue[i].id != queue[j].id
    ensures forall w :: w in queue[1..] ==> w.id !in after
  {
    forall w | w in queue[1..] ensures w.id !in after {
      var i :| 0 <= i < |queue[1..]| && queue[1..][i] == w;
      assert w == queue[i + 1] && w in queue;
    }
  }

  lemma FewerPending(live: map<Id, LiveEntry>, admissions: map<Id, Admission>, pending: map<Id, Waiter>, gone: set<Id>)
    requires AdmissionsOk(live, admissions, pending)
    ensures AdmissionsOk(live, admissions, pending - gone)
  {
  }

  /** The head waiter leaves with the slot `Admit` found for it. */
  lemma DrainRestores(c: Cap)
    requires Slack(c)
    ensures Inv(Drain(c))
  {
    if c.queue != [] {
      var w := c.queue[0];
      assert w in c.queue;
      DrainShape(c);
      AdmitShape(c, w.id, w.now);
      var (c1, verdict) := Admit(c, w.id, w.now);
      if verdict.Admitted? {
        var e := LiveEntry(w.now, {Activation});
        OneFreeTaken(c.live, c.maxLive, w.id, e, verdict.freeze);
        AdmissionTaken(c.live, c.admissions, c.pending, w.id, e, verdict.freeze);
        TakeHead(c, Drain(c), Granted(verdict.freeze));
      } else {
        VictimExists(c.live);
      }
    }
  }

  lemma FrozenDebts(live: map<Id, LiveEntry>, admissions: map<Id, Admission>, pending: map<Id, Waiter>, id: Id)
    requires AdmissionsOk(live, admissions, pending) && forall v :: !Owes(admissions, id, v)
    ensures AdmissionsOk(live - {id}, MarkVictims(admissions, id), pending)
  {
    forall a, v | Owes(MarkVictims(admissions, id), a, v) ensures Owes(admissions, a, v) && a != id {
      assert Owes(admissions, a, v);
    }
  }

  lemma RolledBackDebts(live: map<Id, LiveEntry>, admissions: map<Id, Admission>, pending: map<Id, Waiter>, id: Id)
    requires AdmissionsOk(live, admissions, pending) && id in admissions
    ensures AdmissionsOk(Restored(live, id, admissions[id]), admissions - {id}, pending)
  {
    var a := admissions[id];
    assert a.victim.Some? && !a.victimFrozen ==> Owes(admissions, id, a.victim.value.id);
    forall b, v | Owes(admissions - {id}, b, v)
      ensures Owes(admissions, b, v) && b != id && !(a.victim.Some? && !a.victimFrozen && v == a.victim.value.id)
    {
      assert Owes(admissions, b, v);
    }
  }

  lemma FreezeSlack(c: Cap, id: Id)
    requires Inv(c) && !HoldsUnfrozenVictim(c, id)
    ensures Slack(c.(live := c.live - {id}, admissions := MarkVictims(c.admissions, id)))
  {
    if id in c.live { MapSizes(c.live, id, c.live[id]); } else { MapSizes(c.live, id, LiveEntry(0, {})); }
    FrozenDebts(c.live, c.admissions, c.pending, id);
  }

  lemma FreezeKeeps(c: Cap, id: Id)
    requires Inv(c) && !HoldsUnfrozenVictim(c, id)
    ensures Inv(MarkFrozen(c, id))
  {
    FreezeSlack(c, id);
    DrainRestores(c.(live := c.live - {id}, admissions := MarkVictims(c.admissions, id)));
  }

  /** Changing how one live entry is protected or dated moves nobody in or out. */
  lemma EntrySlack(c: Cap, id: Id, e: LiveEntry)
    requires Inv(c) && id in c.live && (HoldsUnfrozenVictim(c, id) ==> Activation in e.protections)
    ensures Slack(c.(live := c.live[id := e]))
    ensures c.live[id].protections <= e.protections ==> Inv(c.(live := c.live[id := e]))
  {
    MapSizes(c.live, id, e);
  }

  lemma ProtectKeeps(c: Cap, id: Id, reason: Reason, on: bool)
    requires Inv(c) && (reason == Activation && !on ==> !HoldsUnfrozenVictim(c, id))
    ensures Inv(ProtectFor(c, id, reason, on))
  {
    if id in c.live {
      if on {
        EntrySlack(c, id, Protected(c, id, reason).live[id]);
      } else {
        EntrySlack(c, id, Unprotected(c, id, reason).live[id]);
        DrainRestores(Unprotected(c, id, reason));
      }
    }
  }

  lemma RemoveKeeps(c: Cap, w: Waiter, how: Settlement)
    requires Inv(c)
    ensures Inv(Remove(c, w, how))
  {
    if w.id in c.pending && c.pending[w.id] == w {
      RemoveFromQueue(c, w, how);
      WithoutElements(c.queue, w);
      FewerPending(c.live, c.admissions, c.pending, {w.id});
    }
  }

  lemma RestoredSize(live: map<Id, LiveEntry>, id: Id, a: Admission)
    ensures a.victim.Some? && !a.victimFrozen && a.inserted && id in live && a.victim.value.id !in live ==>
      |Restored(live, id, a)| == |live|
    ensures !(a.victim.Some? && !a.victimFrozen) ==>
      Restored(live, id, a) == live || (Restored(live, id, a) == live - {id} && |live - {id}| + 1 == |live|)
  {
    if id in live { MapSizes(live, id, live[id]); } else { MapSizes(live, id, LiveEntry(0, {})); }
    if a.victim.Some? { MapSizes(live - {id}, a.victim.value.id, a.victim.value.entry); }
  }

  lemma RollbackLive(c: Cap, id: Id)
    requires Inv(c) && id in c.admissions
    ensures var live := Restored(c.live, id, c.admissions[id]);
      && |live| <= c.maxLive && (forall w :: w in c.queue ==> w.id !in live)
      && (c.queue != [] ==> OneFree(live, c.maxLive))
  {
    var a := c.admissions[id];
    RestoredSize(c.live, id, a);
    if a.victim.Some? && !a.victimFrozen {
      assert Owes(c.admissions, id, a.victim.value.id);
    }
  }

  lemma RollbackSlack(c: Cap, id: Id)
    requires Inv(c) && id in c.admissions
    ensures Slack(c.(live := Restored(c.live, id, c.admissions[id]), admissions := c.admissions - {id}))
  {
    RollbackLive(c, id);
    RolledBackDebts(c.live, c.admissions, c.pending, id);
  }

  lemma RollbackKeeps(c: Cap, id: Id)
    requires Inv(c)
    ensures Inv(RollbackActivation(c, id))
  {
    if id in c.admissions {
      RollbackSlack(c, id);
      DrainRestores(c.(live := Restored(c.live, id, c.admissions[id]), admissions := c.admissions - {id}));
    }
  }

  lemma SettleKeeps(c: Cap, id: Id)
    requires Inv(c)
    ensures Inv(SettleActivation(c, id))
  {
    var d := c.(admissions := c.admissions - {id});
    assert forall b, v :: Owes(d.admissions, b, v) ==> Owes(c.admissions, b, v) && b != id;
    ProtectKeeps(d, id, Activation, false);
  }

  lemma VictimFrozenKeeps(c: Cap, id: Id)
    requires Inv(c)
    ensures Inv(MarkAdmissionVictimFrozen(c, id))
  {
    assert forall b, v :: Owes(MarkAdmissionVictimFrozen(c, id).admissions, b, v) ==> Owes(c.admissions, b, v);
  }

  /** A grant on the spot, to an id already live or to a newcomer nobody waits ahead of. */
  lemma GrantKeeps(c: Cap, id: Id, now: int)
    requires Inv(c) && !IsUnfrozenVictim(c, id)
    ensures var (c1, verdict) := Admit(c, id, now);
      && (verdict.Admitted? ==> Inv(Protected(c1, id, Activation)))
      && (verdict.Full? ==> c1 == c && id !in c.live && |c.live| == c.maxLive && VictimOf(c.live).None?)
  {
    if id in c.live {
      var (c1, verdict) := Admit(c, id, now);
      assert forall b, v :: Owes(c1.admissions, b, v) ==> Owes(c.admissions, b, v) && b != id;
      EntrySlack(c.(admissions := c1.admissions), id, Protected(c1, id, Activation).live[id]);
    } else {
      NewcomerKeeps(c, id, now);
    }
  }

  lemma PendingIsWaiting(queue: seq<Waiter>, pending: map<Id, Waiter>)
    requires Indexed(queue, pending)
    ensures pending.Keys != {} ==> queue != []
  {
    if pending.Keys != {} {
      var p :| p in pending.Keys;
      assert pending[p] in queue;
    }
  }

  lemma NewcomerKeeps(c: Cap, id: Id, now: int)
    requires Inv(c) && id !in c.live && !IsUnfrozenVictim(c, id)
    ensures var (c1, verdict) := Admit(c, id, now);
      && (verdict.Admitted? ==> c.queue == [] && Inv(Protected(c1, id, Activation)))
      && (verdict.Full? ==> c1 == c && |c.live| == c.maxLive && VictimOf(c.live).None?)
  {
    AdmitShape(c, id, now);
    VictimExists(c.live);
    var (c1, verdict) := Admit(c, id, now);
    if verdict.Admitted? {
      PendingIsWaiting(c.queue, c.pending);
      assert c.pending == map[];
      TakeSize(c.live, id, LiveEntry(now, {Activation}), verdict.freeze);
      AdmissionTaken(c.live, c.admissions, c.pending, id, LiveEntry(now, {Activation}), verdict.freeze);
    }
  }

  /** A new promise that settles at once disturbs nothing. */
  lemma SettledAtOnce(c: Cap, how: Settlement)
    requires Inv(c)
    ensures Inv(c.(promises := c.promises + 1, settled := c.settled[c.promises := how]))
  {
  }

  lemma EnqueueKeeps(c: Cap, id: Id, now: int)
    requires Inv(c) && id !in c.live && id !in c.pending && !IsUnfrozenVictim(c, id) && |c.queue| < c.maxQueue
    requires |c.live| == c.maxLive && forall l :: l in c.live ==> c.live[l].protections != {}
    ensures var w := Waiter(id, now, c.promises);
      Inv(c.(promises := c.promises + 1, queue := c.queue + [w], pending := c.pending[id := w]))
  {
    var w := Waiter(id, now, c.promises);
    QueueLonger(c.queue, c.pending, c.settled, c.promises, w);
    assert forall x :: x in c.queue + [w] <==> x in c.queue || x == w;
  }

  lemma QueueLonger(queue: seq<Waiter>, pending: map<Id, Waiter>, settled: map<nat, Settlement>, promises: nat,
      w: Waiter)
    requires Indexed(queue, pending) && InOrder(queue, settled, promises) && w.id !in pending && w.promise == promises
    ensures Indexed(queue + [w], pending[w.id := w]) && InOrder(queue + [w], settled, promises + 1)
  {
    assert forall i :: 0 <= i < |queue| ==> queue[i] in queue && queue[i].id != w.id;
    assert forall x :: x in queue + [w] <==> x in queue || x == w;
  }

  lemma ActivateFull(c: Cap, id: Id, now: int)
    requires Inv(c) && id !in c.live && !IsUnfrozenVictim(c, id)
    requires |c.live| == c.maxLive && VictimOf(c.live).None? && Admit(c, id, now) == (c, Full)
    ensures Inv(ActivateQueued(c, id, now, false).0)
  {
    if id !in c.pending {
      if |c.queue| >= c.maxQueue {
        SettledAtOnce(c, Busy);
      } else {
        VictimExists(c.live);
        EnqueueKeeps(c, id, now);
      }
    }
  }

  lemma ActivateKeeps(c: Cap, id: Id, now: int, aborted: bool)
    requires Inv(c) && (aborted || !IsUnfrozenVictim(c, id))
    ensures Inv(ActivateQueued(c, id, now, aborted).0)
  {
    if aborted {
      SettledAtOnce(c, Cancelled);
    } else {
      GrantKeeps(c, id, now);
      var (c1, verdict) := Admit(c, id, now);
      if verdict.Full? {
        ActivateFull(c, id, now);
      } else {
        GrantedAtOnce(c, c1, id, verdict.freeze);
      }
    }
  }

  lemma GrantedAtOnce(c: Cap, c1: Cap, id: Id, freeze: Option<Id>)
    requires c1 == c.(live := c1.live, admissions := c1.admissions) && Inv(Protected(c1, id, Activation))
    ensures Inv(Protected(c1, id, Activation).(
      promises := c.promises + 1, settled := c.settled[c.promises := Granted(freeze)]))
  {
    SettledAtOnce(Protected(c1, id, Activation), Granted(freeze));
  }

  /** Every allowed call keeps the invariant. */
  lemma StepKeeps(c: Cap, e: Event)
    requires Inv(c) && Allowed(c, e)
    ensures Inv(Step(c, e))
  {
    match e
    case MarkLiveE(id, now) => EntrySlack(c, id, MarkLive(c, id, now).live[id]);
    case MarkFrozenE(id) => FreezeKeeps(c, id);
    case ProtectForE(id, reason, on) => ProtectKeeps(c, id, reason, on);
    case TouchE(id, now) => if id in c.live { EntrySlack(c, id, Touch(c, id, now).live[id]); }
    case ActivateE(id, now, aborted) => ActivateKeeps(c, id, now, aborted);
    case CancelE(id) => if id in c.pending { RemoveKeeps(c, c.pending[id], Cancelled); }
    case RejectE(w, how) => RemoveKeeps(c, w, how);
    case VictimFrozenE(id) => VictimFrozenKeeps(c, id);
    case RollbackE(id) => RollbackKeeps(c, id);
    case SettleE(id) => SettleKeeps(c, id);
  }

  /** One call leads from `c` to `d`, and keeps the invariant if it was allowed. */
  ghost predicate Keeps(c: Cap, e: Event, d: Cap) {
    Inv(c) && Allowed(c, e) ==> Inv(d)
  }

  lemma Kept(c: Cap, e: Event)
    ensures Keeps(c, e, Step(c, e))
  {
    if Inv(c) && Allowed(c, e) { StepKeeps(c, e); }
  }

  /** Over every run of allowed calls the live set stays within its bound, nobody waits while a
      place could be had, and promises leave the queue in the order in which they were made. */
  lemma RunKeeps(maxLive: nat, maxQueue: nat, events: seq<Event>)
    requires Runs.Legal(Allowed, Step, Empty(maxLive, maxQueue), events)
    ensures var d := Runs.After(Step, Empty(maxLive, maxQueue), events);
      && |d.live| <= maxLive == d.maxLive
      && (d.queue != [] ==> |d.live| == maxLive && forall id :: id in d.live ==> d.live[id].protections != {})
      && (forall w :: w in d.queue ==> w.id !in d.live)
      && (forall i, j :: 0 <= i < j < |d.served| ==> d.served[i] < d.served[j])
      && Inv(d)
  {
    var inv := (c: Cap) => Inv(c) && c.maxLive == maxLive;
    forall c, e | inv(c) && Allowed(c, e) ensures inv(Step(c, e)) {
      StepKeeps(c, e);
      SameBounds(c, e);
    }
    Runs.Invariant(inv, Allowed, Step, Empty(maxLive, maxQueue), events);
  }

  lemma SameBounds(c: Cap, e: Event)
    ensures Step(c, e).maxLive == c.maxLive
  {
  }

  lemma AdmitKeys(c: Cap, id: Id, now: int)
    ensures Admit(c, id, now).0.live.Keys <= c.live.Keys + {id}
  {
  }

  lemma DrainKeys(c: Cap)
    ensures c.queue == [] ==> Drain(c) == c
    ensures c.queue != [] ==> Drain(c).live.Keys <= c.live.Keys + {c.queue[0].id}
  {
    if c.queue != [] {
      AdmitKeys(c, c.queue[0].id, c.queue[0].now);
    }
  }

  function Head(c: Cap): set<Id> {
    if c.queue == [] then {} else {c.queue[0].id}
  }

  lemma FreezeKeys(c: Cap, id: Id)
    ensures MarkFrozen(c, id).live.Keys <= c.live.Keys + Head(c)
  {
    DrainKeys(c.(live := c.live - {id}, admissions := MarkVictims(c.admissions, id)));
  }

  lemma ProtectKeys(c: Cap, id: Id, reason: Reason, on: bool)
    ensures ProtectFor(c, id, reason, on).live.Keys <= c.live.Keys + Head(c)
  {
    DrainKeys(Unprotected(c, id, reason));
  }

  lemma RollbackKeys(c: Cap, id: Id, l: Id)
    requires l in RollbackActivation(c, id).live
    ensures l in c.live || l in Head(c) || Owes(c.admissions, id, l)
  {
    if id in c.admissions {
      DrainKeys(c.(live := Restored(c.live, id, c.admissions[id]), admissions := c.admissions - {id}));
    }
  }

  lemma ActivateKeys(c: Cap, id: Id, now: int, aborted: bool)
    requires Inv(c) && c.queue != [] && (aborted || !IsUnfrozenVictim(c, id))
    ensures ActivateQueued(c, id, now, aborted).0.live.Keys == c.live.Keys
  {
    if !aborted {
      if id !in c.live { NewcomerKeeps(c, id, now); }
    }
  }

  /** While somebody waits, an event brings in nobody but the head of the queue, apart from a
      victim whose eviction is rolled back; and nothing else is served from the queue. */
  lemma NoOvertaking(c: Cap, e: Event, id: Id)
    requires Inv(c) && Allowed(c, e) && c.queue != []
    ensures id in Step(c, e).live && id !in c.live ==>
      id == c.queue[0].id || (e.RollbackE? && Owes(c.admissions, e.id, id))
  {
    match e
    case ActivateE(a, now, aborted) => ActivateKeys(c, a, now, aborted);
    case MarkFrozenE(f) => FreezeKeys(c, f);
    case ProtectForE(p, reason, on) => ProtectKeys(c, p, reason, on);
    case RollbackE(a) =>
      if id in Step(c, e).live && id !in c.live {
        RollbackKeys(c, a, id);
      }
    case SettleE(a) => ProtectKeys(c.(admissions := c.admissions - {a}), a, Activation, false);
    case _ =>
  }

  /** An event serves nobody, or the one at the head of the queue. */
  lemma HeadIsServed(c: Cap, e: Event)
    ensures Step(c, e).served == c.served || (c.queue != [] && Step(c, e).served == c.served + [c.queue[0].promise])
  {
  }

  /** Over every run promises are served in the order in which they were made, and whoever still
      waits was promised later than all who were served. */
  lemma ServedInOrder(maxLive: nat, maxQueue: nat, events: seq<Event>)
    requires Runs.Legal(Allowed, Step, Empty(maxLive, maxQueue), events)
    ensures var c := Runs.After(Step, Empty(maxLive, maxQueue), events);
      && (forall i, j :: 0 <= i < j < |c.served| ==> c.served[i] < c.served[j])
      && (forall p, w :: p in c.served && w in c.queue ==> p < w.promise)
      && (forall i, j :: 0 <= i < j < |c.queue| ==> c.queue[i].promise < c.queue[j].promise)
  {
    RunKeeps(maxLive, maxQueue, events);
  }

  // ---------- Rollback ----------

  /** Admitting a newcomer and rolling back with nothing in between restores every entry. */
  lemma RollbackUndoes(c: Cap, id: Id, now: int)
    requires Inv(c) && id !in c.live && id !in c.admissions && !IsUnfrozenVictim(c, id)
    ensures var c1 := ActivateQueued(c, id, now, false).0;
      Admit(c, id, now).1.Admitted? ==> RollbackActivation(c1, id) == c.(promises := c1.promises, settled := c1.settled)
  {
    NewcomerKeeps(c, id, now);
    AdmitShape(c, id, now);
    var (c1, verdict) := Admit(c, id, now);
    if verdict.Admitted? {
      var c2 := ActivateQueued(c, id, now, false).0;
      TakenBack(c.live, id, LiveEntry(now, {Activation}), verdict.freeze);
      RollbackIdle(c2, c, id, Admission(true, VictimEntry(c.live, verdict.freeze), false));
    }
  }

  lemma RollbackIdle(c: Cap, before: Cap, id: Id, a: Admission)
    requires c.queue == [] && id !in before.admissions && c.admissions == before.admissions[id := a]
    requires Restored(c.live, id, a) == before.live
    ensures RollbackActivation(c, id) == c.(live := before.live, admissions := before.admissions)
  {
    assert c.admissions - {id} == before.admissions;
  }

  lemma TakenBack(live: map<Id, LiveEntry>, id: Id, e: LiveEntry, victim: Option<Id>)
    requires id !in live && (victim.Some? ==> victim.value in live)
    ensures Restored(Take(live, id, e, victim), id, Admission(true, VictimEntry(live, victim), false)) == live
  {
  }

  /** No admission owes anything to `v`, and `v` neither is live nor waits. */
  ghost predicate Gone(c: Cap, v: Id) {
    v !in c.live && !IsUnfrozenVictim(c, v) && forall w :: w in c.queue ==> w.id != v
  }

  lemma FrozenIsGone(c: Cap, v: Id)
    requires forall w :: w in c.queue ==> w.id != v
    ensures Gone(MarkFrozen(c, v), v)
  {
    var d := c.(live := c.live - {v}, admissions := MarkVictims(c.admissions, v));
    assert forall a :: !Owes(d.admissions, a, v);
    DrainGone(d, v);
  }

  lemma DrainGone(c: Cap, v: Id)
    requires Gone(c, v)
    ensures Gone(Drain(c), v)
  {
    if c.queue != [] {
      var w := c.queue[0];
      assert w in c.queue;
      AdmitGone(c, w.id, w.now, v);
      forall x | x in Without(c.queue, w) ensures x in c.queue { }
    }
  }

  lemma AdmitGone(c: Cap, id: Id, now: int, v: Id)
    requires Gone(c, v) && id != v
    ensures Gone(Admit(c, id, now).0, v)
  {
    var d := Admit(c, id, now).0;
    forall a ensures !Owes(d.admissions, a, v) {
      assert a != id ==> !Owes(c.admissions, a, v);
    }
  }

  /** A browser whose page froze, closed or crashed comes back only by being activated itself:
      no rollback, whenever its admission was made, turns it into a phantom entry. */
  lemma GoneStays(c: Cap, e: Event, v: Id)
    requires Gone(c, v) && !(e.ActivateE? && e.id == v) && !(e.MarkLiveE? && e.id == v)
    ensures Gone(Step(c, e), v)
  {
    assert forall a :: !Owes(c.admissions, a, v);
    match e
    case MarkFrozenE(f) => GoneFreeze(c, f, v);
    case ProtectForE(p, reason, on) => GoneProtect(c, p, reason, on, v);
    case ActivateE(id, now, aborted) => GoneActivate(c, id, now, aborted, v);
    case CancelE(id) => if id in c.pending { GoneRemove(c, c.pending[id], Cancelled, v); }
    case RejectE(w, how) => GoneRemove(c, w, how, v);
    case RollbackE(id) => GoneRollback(c, id, v);
    case SettleE(id) =>
      GoneFewer(c, id, v);
      GoneProtect(c.(admissions := c.admissions - {id}), id, Activation, false, v);
    case VictimFrozenE(id) =>
      forall a ensures !Owes(MarkAdmissionVictimFrozen(c, id).admissions, a, v) {
        assert !Owes(c.admissions, a, v);
      }
    case _ =>
  }

  lemma GoneFewer(c: Cap, id: Id, v: Id)
    requires Gone(c, v)
    ensures Gone(c.(admissions := c.admissions - {id}), v)
  {
    assert forall a :: Owes(c.admissions - {id}, a, v) ==> Owes(c.admissions, a, v);
  }

  lemma GoneFreeze(c: Cap, f: Id, v: Id)
    requires Gone(c, v)
    ensures Gone(MarkFrozen(c, f), v)
  {
    var d := c.(live := c.live - {f}, admissions := MarkVictims(c.admissions, f));
    assert forall a :: Owes(d.admissions, a, v) ==> Owes(c.admissions, a, v);
    DrainGone(d, v);
  }

  lemma GoneProtect(c: Cap, id: Id, reason: Reason, on: bool, v: Id)
    requires Gone(c, v)
    ensures Gone(ProtectFor(c, id, reason, on), v)
  {
    DrainGone(Unprotected(c, id, reason), v);
  }

  lemma GoneRemove(c: Cap, w: Waiter, how: Settlement, v: Id)
    requires Gone(c, v)
    ensures Gone(Remove(c, w, how), v)
  {
    forall x | x in Without(c.queue, w) ensures x in c.queue { }
  }

  lemma GoneActivate(c: Cap, id: Id, now: int, aborted: bool, v: Id)
    requires Gone(c, v) && id != v
    ensures Gone(ActivateQueued(c, id, now, aborted).0, v)
  {
    AdmitGone(c, id, now, v);
  }

  lemma GoneRollback(c: Cap, id: Id, v: Id)
    requires Gone(c, v)
    ensures Gone(RollbackActivation(c, id), v)
  {
    if id in c.admissions {
      var a := c.admissions[id];
      GoneFewer(c, id, v);
      assert a.victim.Some? && !a.victimFrozen ==> Owes(c.admissions, id, a.victim.value.id);
      DrainGone(c.(live := Restored(c.live, id, a), admissions := c.admissions - {id}), v);
    }
  }

  // ---------- The exact condition on freezing ----------

  lemma DrainOthers(c: Cap, a: Id)
    requires c.queue != [] ==> c.queue[0].id != a
    ensures a in Drain(c).admissions <==> a in c.admissions
    ensures a in c.admissions ==> Drain(c).admissions[a] == c.admissions[a]
  {
    if c.queue != [] {
      AdmitOthers(c, c.queue[0].id, c.queue[0].now, a);
    }
  }

  lemma AdmitOthers(c: Cap, id: Id, now: int, a: Id)
    requires a != id
    ensures var admissions := Admit(c, id, now).0.admissions;
      (a in admissions <==> a in c.admissions) && (a in c.admissions ==> admissions[a] == c.admissions[a])
  {
  }

  /** A frozen candidate keeps its admission, and the admission its unfrozen victim. */
  lemma FrozenHolder(c: Cap, id: Id, v: Id)
    requires Inv(c) && Owes(c.admissions, id, v)
    ensures var d := MarkFrozen(c, id);
      && Owes(d.admissions, id, v) && d.admissions[id].inserted && d.maxLive == c.maxLive
      && id !in d.live && v !in d.live && |d.live| <= d.maxLive
  {
    var d := c.(live := c.live - {id}, admissions := MarkVictims(c.admissions, id));
    if c.queue != [] { assert c.queue[0] in c.queue; }
    DrainOthers(d, id);
    DrainKeys(d);
    MapSizes(c.live, id, c.live[id]);
    DrainSize(d);
  }

  lemma DrainSize(c: Cap)
    ensures |c.live| < c.maxLive ==> |Drain(c).live| <= |c.live| + 1
    ensures |c.live| >= c.maxLive ==> |Drain(c).live| == |c.live|
  {
    if c.queue != [] {
      var w := c.queue[0];
      AdmitSize(c, w.id, w.now);
      ProtectedSize(Admit(c, w.id, w.now).0, w.id);
    }
  }

  lemma ProtectedSize(c: Cap, id: Id)
    ensures |Protected(c, id, Activation).live| == |c.live|
  {
    if id in c.live { MapSizes(c.live, id, Protected(c, id, Activation).live[id]); }
  }

  lemma AdmitSize(c: Cap, id: Id, now: int)
    ensures var live := Admit(c, id, now).0.live;
      && (|c.live| < c.maxLive ==> |live| <= |c.live| + 1)
      && (|c.live| >= c.maxLive ==> |live| == |c.live|)
  {
    var e := LiveEntry(now, {});
    MapSizes(c.live, id, if id in c.live then Touch(c, id, now).live[id] else e);
    if VictimOf(c.live).Some? {
      var v := VictimOf(c.live).value;
      MapSizes(c.live, v, e);
      MapSizes(c.live - {v}, id, e);
    }
  }

  /** Freezing keeps the invariant exactly when the id does not hold an unfrozen victim. */
  lemma FreezeExact(c: Cap, id: Id)
    requires Inv(c)
    ensures Inv(MarkFrozen(c, id)) <==> !HoldsUnfrozenVictim(c, id)
  {
    if HoldsUnfrozenVictim(c, id) {
      var v :| Owes(c.admissions, id, v);
      FrozenHolder(c, id, v);
    } else {
      FreezeKeeps(c, id);
    }
  }

  lemma FillOne(c: Cap, id: Id, x: Id) returns (d: Cap)
    requires |c.live| < c.maxLive && x !in c.live && x != id
    ensures d == Step(c, ActivateE(x, 0, false)) && d.maxLive == c.maxLive
    ensures d.live == c.live[x := LiveEntry(0, {Activation})] && |d.live| == |c.live| + 1
    ensures d.admissions == c.admissions[x := Admission(true, None, false)]
  {
    d := Step(c, ActivateE(x, 0, false));
    MapSizes(c.live, x, LiveEntry(0, {Activation}));
    AdmitShape(c, x, 0);
  }

  /** Fresh browsers fill whatever room is left, one allowed activation at a time. */
  lemma {:induction false} Fill(c: Cap, id: Id, v: Id) returns (events: seq<Event>)
    requires Owes(c.admissions, id, v) && c.admissions[id].inserted
    requires id !in c.live && v !in c.live && |c.live| <= c.maxLive
    ensures Runs.Legal(Allowed, Step, c, events)
    ensures var d := Runs.After(Step, c, events);
      && Owes(d.admissions, id, v) && d.admissions[id].inserted
      && id !in d.live && v !in d.live && |d.live| == d.maxLive == c.maxLive
    decreases c.maxLive - |c.live|
  {
    if |c.live| == c.maxLive {
      events := [];
    } else {
      var victims := set a | a in c.admissions && c.admissions[a].victim.Some? :: c.admissions[a].victim.value.id;
      var x := Sets.Fresh(c.live.Keys + c.admissions.Keys + victims + {v});
      assert !IsUnfrozenVictim(c, x) && x !in c.live;
      var d := FillOne(c, id, x);
      var rest := Fill(d, id, v);
      events := [ActivateE(x, 0, false)] + rest;
      assert events[1..] == rest;
    }
  }

  /** Freezing a holder is not merely untidy: some allowed run after it exceeds the bound. */
  lemma FreezeOfHolderOverflows(c: Cap, id: Id) returns (events: seq<Event>)
    requires Inv(c) && HoldsUnfrozenVictim(c, id)
    ensures Runs.Legal(Allowed, Step, MarkFrozen(c, id), events)
    ensures |Runs.After(Step, MarkFrozen(c, id), events).live| > c.maxLive
  {
    var v :| Owes(c.admissions, id, v);
    FrozenHolder(c, id, v);
    events := FillAndRollBack(MarkFrozen(c, id), id, v);
  }

  lemma FillAndRollBack(d: Cap, id: Id, v: Id) returns (events: seq<Event>)
    requires Owes(d.admissions, id, v) && d.admissions[id].inserted
    requires id !in d.live && v !in d.live && |d.live| <= d.maxLive
    ensures Runs.Legal(Allowed, Step, d, events) && |Runs.After(Step, d, events).live| > d.maxLive
  {
    var fill := Fill(d, id, v);
    events := fill + [RollbackE(id)];
    RollbackOverflows(Runs.After(Step, d, fill), id, v);
    Appended(d, fill, RollbackE(id));
  }

  lemma Appended(c: Cap, events: seq<Event>, e: Event)
    requires Runs.Legal(Allowed, Step, c, events) && Allowed(Runs.After(Step, c, events), e)
    ensures Runs.Legal(Allowed, Step, c, events + [e])
    ensures Runs.After(Step, c, events + [e]) == Step(Runs.After(Step, c, events), e)
  {
    Runs.Extend(Allowed, Step, c, events, e);
  }

  lemma RollbackOverflows(c: Cap, id: Id, v: Id)
    requires Owes(c.admissions, id, v) && c.admissions[id].inserted
    requires id !in c.live && v !in c.live && |c.live| == c.maxLive
    ensures |RollbackActivation(c, id).live| == c.maxLive + 1
  {
    MapSizes(c.live, id, c.admissions[id].victim.value.entry);
    MapSizes(c.live, v, c.admissions[id].victim.value.entry);
    DrainSize(c.(live := Restored(c.live, id, c.admissions[id]), admissions := c.admissions - {id}));
  }
}
