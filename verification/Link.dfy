/** The client's connection: which socket is the current one, and what its listeners are told.

    A socket is known by the epoch in which it was made.  Events of a superseded socket may still
    arrive; whether they are heard is decided when they do.
 */
module Link {
  import opened Wrappers

  type Epoch = nat

  datatype Told = Opened(epoch: Epoch) | Frame(epoch: Epoch) | Closed(epoch: Epoch)

  datatype Connection = Connection(
    socket: Option<Epoch>,
    epoch: Epoch,                   // the last socket made
    attempt: nat,
    closed: bool,
    timers: seq<(Epoch, nat)>,      // reconnects under way: for which epoch, and after what delay
    told: seq<Told>)

  datatype Event =
    | ConnectE
    | SocketOpenE(epoch: Epoch)
    | SocketDataE(epoch: Epoch, frames: nat)      // how many frames the chunk completes
    | SocketCloseE(epoch: Epoch)
    | TimerE(timer: nat)
    | CloseE

  predicate Current(c: Connection, epoch: Epoch) {
    !c.closed && c.socket == Some(epoch)
  }

  function Connect(c: Connection): Connection {
    if c.closed then c else c.(epoch := c.epoch + 1, socket := Some(c.epoch + 1))
  }

  function Power(n: nat): nat {
    if n == 0 then 1 else 2 * Power(n - 1)
  }

  function Delay(attempt: nat): nat {
    if 100 * Power(attempt) < 2000 then 100 * Power(attempt) else 2000
  }

  function Frames(epoch: Epoch, n: nat): seq<Told> {
    if n == 0 then [] else Frames(epoch, n - 1) + [Frame(epoch)]
  }

  function Step(c: Connection, e: Event): Connection {
    match e
    case ConnectE => Connect(c)
    case SocketOpenE(epoch) => if Current(c, epoch) then c.(attempt := 0, told := c.told + [Opened(epoch)]) else c
    case SocketDataE(epoch, n) => if Current(c, epoch) then c.(told := c.told + Frames(epoch, n)) else c
    case SocketCloseE(epoch) =>
      if !Current(c, epoch) then c
      else c.(socket := None, told := c.told + [Closed(epoch)],
              timers := c.timers + [(epoch, Delay(c.attempt))], attempt := c.attempt + 1)
    case TimerE(i) =>
      if i >= |c.timers| then c
      else
        var rest := c.(timers := c.timers[..i] + c.timers[i+1..]);
        if c.timers[i].0 == c.epoch then Connect(rest) else rest
    case CloseE => c.(closed := true, socket := None)
  }

  const Start := Connection(None, 0, 0, false, [], [])

  // ---------- Invariant ----------

  /** Later news is of the same socket or a newer one, and there is none of a socket after its end. */
  predicate Follows(a: Told, b: Told) {
    a.epoch <= b.epoch && (a.Closed? ==> a.epoch < b.epoch)
  }

  predicate Ordered(told: seq<Told>) {
    forall i, j :: 0 <= i < j < |told| ==> Follows(told[i], told[j])
  }

  ghost predicate LinkInv(c: Connection) {
    && Ordered(c.told)
    && (forall i :: 0 <= i < |c.told| ==> c.told[i].epoch <= c.epoch)
    && (c.socket.Some? ==> c.socket == Some(c.epoch) && !c.closed)
    && (c.socket.Some? ==> forall i :: 0 <= i < |c.told| ==> c.told[i] != Closed(c.epoch))
    && (forall i :: 0 <= i < |c.timers| ==> 100 <= c.timers[i].1 <= 2000 && c.timers[i].0 <= c.epoch)
    && (forall i, j :: 0 <= i < j < |c.timers| ==> c.timers[i].0 < c.timers[j].0)
    && (c.socket.Some? ==> forall i :: 0 <= i < |c.timers| ==> c.timers[i].0 < c.epoch)
  }
}
