/** What is heard of a socket, and how a lost one is followed by another. */
module LinkLaws {
  import opened Wrappers
  import opened Link
  import opened LinkProofs

  /** The news that one event brings. */
  predicate News(c: Connection, e: Event, told: seq<Told>) {
    match e
    case SocketOpenE(epoch) => told == if Current(c, epoch) then [Opened(epoch)] else []
    case SocketDataE(epoch, n) =>
      |told| == (if Current(c, epoch) then n else 0) && forall i :: 0 <= i < |told| ==> told[i] == Frame(epoch)
    case SocketCloseE(epoch) => told == if Current(c, epoch) then [Closed(epoch)] else []
    case _ => told == []
  }

  /** Everything that comes from the current socket is heard, each frame once and in order, and nothing
      else is; what has been heard stays heard. */
  lemma HeardExactly(c: Connection, e: Event)
    ensures var d := Step(c, e);
      && |c.told| <= |d.told| && d.told[..|c.told|] == c.told && News(c, e, d.told[|c.told|..])
  {
    if e.SocketDataE? {
      FramesAre(e.epoch, e.frames);
      assert (c.told + Frames(e.epoch, e.frames))[|c.told|..] == Frames(e.epoch, e.frames);
    } else {
      assert Step(c, e).told == c.told || Step(c, e).told == c.told + [Step(c, e).told[|c.told|]];
    }
  }

  /** A lost socket is followed by a timer for it, twice as late as the one before, within limits; an
      opened one makes the next wait short again. */
  lemma LossIsScheduled(c: Connection, epoch: Epoch)
    requires Current(c, epoch)
    ensures var d := Step(c, SocketCloseE(epoch));
      && d.socket.None? && d.attempt == c.attempt + 1 && d.epoch == c.epoch
      && |d.timers| == |c.timers| + 1 && d.timers[..|c.timers|] == c.timers && d.timers[|c.timers|].0 == epoch
      && d.timers[|c.timers|].1 == Delay(c.attempt) && 100 <= Delay(c.attempt) <= 2000
      && (Delay(c.attempt + 1) == 2 * Delay(c.attempt) || Delay(c.attempt + 1) == 2000)
    ensures Step(c, SocketOpenE(epoch)).attempt == 0 && Delay(0) == 100
  {
    DelayBounds(c.attempt);
  }

  lemma {:induction false} DelayBounds(n: nat)
    ensures Power(n) >= 1 && 100 <= Delay(n) <= 2000
    ensures Delay(n + 1) == 2 * Delay(n) || Delay(n + 1) == 2000
  {
    if n > 0 { DelayBounds(n - 1); }
  }

  /** And that timer brings a new socket, unless the connection was closed for good: a new one, of a
      later epoch than any before. */
  lemma TimerReconnects(c: Connection, i: nat)
    requires LinkInv(c) && i < |c.timers| && c.timers[i].0 == c.epoch && !c.closed
    ensures var d := Step(c, TimerE(i));
      && d.socket == Some(d.epoch) && d.epoch > c.epoch && d.timers == c.timers[..i] + c.timers[i+1..] && !d.closed
  {
  }

  /** Closing ends the socket for good. */
  lemma CloseEnds(c: Connection)
    ensures var d := Step(c, CloseE); d.closed && d.socket.None? && d.told == c.told
  {
  }
}
