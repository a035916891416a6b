/** Listeners hear the sockets one after the other, and a lost one is replaced once. */
module LinkProofs {
  import opened Wrappers
  import opened Link
  import Runs

  lemma PowerIsPositive(n: nat)
    ensures Power(n) >= 1
  {
  }

  lemma {:induction false} FramesAre(epoch: Epoch, n: nat)
    ensures |Frames(epoch, n)| == n && forall i :: 0 <= i < n ==> Frames(epoch, n)[i] == Frame(epoch)
  {
    if n > 0 {
      FramesAre(epoch, n - 1);
    }
  }

  lemma MoreTold(told: seq<Told>, more: seq<Told>, epoch: Epoch)
    requires Ordered(told) && Ordered(more) && forall i :: 0 <= i < |more| ==> more[i].epoch == epoch
    requires forall i :: 0 <= i < |told| ==> told[i].epoch <= epoch && told[i] != Closed(epoch)
    ensures Ordered(told + more)
  {
  }

  lemma TimerKeeps(c: Connection, i: nat)
    requires LinkInv(c)
    ensures LinkInv(Step(c, TimerE(i)))
  {
  }

  lemma StepKeeps(c: Connection, e: Event)
    requires LinkInv(c)
    ensures LinkInv(Step(c, e))
  {
    match e
    case TimerE(i) => TimerKeeps(c, i);
    case SocketOpenE(epoch) => if Current(c, epoch) { MoreTold(c.told, [Opened(epoch)], epoch); }
    case SocketDataE(epoch, n) =>
      if Current(c, epoch) {
        FramesAre(epoch, n);
        MoreTold(c.told, Frames(epoch, n), epoch);
        assert forall i :: 0 <= i < n ==> Frames(epoch, n)[i] != Closed(epoch);
      }
    case SocketCloseE(epoch) =>
      if Current(c, epoch) {
        PowerIsPositive(c.attempt);
        MoreTold(c.told, [Closed(epoch)], epoch);
      }
    case _ =>
  }

  lemma RunKeeps(events: seq<Event>)
    ensures LinkInv(Runs.After(Step, Start, events))
  {
    forall c, e | LinkInv(c) ensures LinkInv(Step(c, e)) {
      StepKeeps(c, e);
    }
    Runs.Always(LinkInv, Step, Start, events);
  }

  /** In every run, however late the events of old sockets come, nothing of a socket is heard after
      news of a newer one, nor after the news of its own end. */
  lemma SocketsHeardInOrder(events: seq<Event>, i: nat, j: nat)
    requires i < j < |Runs.After(Step, Start, events).told|
    ensures var told := Runs.After(Step, Start, events).told;
      told[i].epoch <= told[j].epoch && (told[i].Closed? ==> told[i].epoch < told[j].epoch)
  {
    RunKeeps(events);
  }

  /** After `close` the listeners hear nothing more, and no timer brings a socket back. */
  lemma {:induction false} ClosedIsSilent(c: Connection, events: seq<Event>)
    requires c.closed && c.socket.None?
    ensures var d := Runs.After(Step, c, events); d.closed && d.socket.None? && d.told == c.told && d.epoch == c.epoch
    decreases |events|
  {
    if events != [] {
      ClosedIsSilent(Step(c, events[0]), events[1..]);
    }
  }

  /** A timer replaces the socket whose loss set it, and only while no other has been made since: at
      most one of the timers under way does anything. */
  lemma OneTimerConnects(events: seq<Event>, i: nat, j: nat)
    requires var c := Runs.After(Step, Start, events);
      i < |c.timers| && j < |c.timers| && !c.closed && Step(c, TimerE(i)).epoch > c.epoch
        && Step(c, TimerE(j)).epoch > c.epoch
    ensures i == j && Runs.After(Step, Start, events).socket.None?
  {
    RunKeeps(events);
  }
}
