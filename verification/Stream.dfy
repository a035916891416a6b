/** The delta-replay protocol for one terminal session: the client's router, the daemon behind it
    as the client describes it, and the connection between them.

    The daemon is an assumed peer.  It keeps every byte of a session at an absolute position, drops
    old bytes from the front, and starts over in a new epoch when it restarts.  To an attach it
    announces and sends one replay: the tail from the client's watermark when it still has it, else
    all it has.  A daemon of the older kind sends its replay without announcing it.
 */
module Stream {
  import opened Wrappers

  type Byte = nat

  datatype Mark = Mark(epoch: nat, offset: nat)
  datatype Pending = AwaitingAck | FullReplay | DeltaReplay

  // `start` says where the bytes stand in the daemon's stream; the client does not see it.
  datatype Frame = Ack(epoch: nat, end: nat, full: bool) | Data(start: nat, bytes: seq<Byte>)

  datatype Request = Attach(resume: Option<Mark>) | Detach

  /** One session in the router: what its terminal shows since it was last reset, the watermark and
      the replay that is expected. */
  datatype Pane = Pane(terminal: Option<seq<Byte>>, watermark: Option<Mark>, pending: Option<Pending>)

  // ---------- The router ----------

  function Write(p: Pane, bytes: seq<Byte>, reset: bool): Pane {
    if p.terminal.None? then p
    else p.(terminal := Some(if reset then bytes else p.terminal.value + bytes))
  }

  function Receive(p: Pane, f: Frame): Pane {
    match f
    case Ack(epoch, end, full) =>
      p.(watermark := Some(Mark(epoch, end)), pending := Some(if full then FullReplay else DeltaReplay))
    case Data(_, bytes) =>
      match p.pending
      case Some(AwaitingAck) => Write(p.(pending := None, watermark := None), bytes, true)
      case Some(FullReplay) => Write(p.(pending := None), bytes, true)
      case Some(DeltaReplay) => Write(p.(pending := None), bytes, false)
      case None =>
        var q := Write(p, bytes, false);
        if q.watermark.Some?
        then q.(watermark := Some(q.watermark.value.(offset := q.watermark.value.offset + |bytes|)))
        else q
  }

  /** A new terminal: empty, and attached without the watermark. */
  function Mounted(p: Pane): (Pane, Request) {
    (p.(terminal := Some([]), pending := Some(AwaitingAck)), Attach(None))
  }

  /** A surviving terminal after a reconnect. */
  function Reattached(p: Pane): (Pane, Request) {
    (p.(pending := Some(AwaitingAck)), Attach(p.watermark))
  }

  function Unmounted(p: Pane): Pane {
    p.(terminal := None, pending := None)
  }

  // ---------- The whole system ----------

  datatype Link = Down | Connecting | Up

  datatype System = System(
    logs: seq<seq<Byte>>,           // one stream for each epoch, the current one last
    evicted: nat,                   // what the current epoch has dropped from the front
    announces: bool,                // whether the daemon is of the newer kind
    subscribed: bool,
    link: Link,
    requests: seq<Request>,         // client to daemon, oldest first
    wire: seq<Frame>,               // daemon to client, oldest first
    pane: Pane,
    // history, for the statements only:
    origin: Option<Mark>,           // where the bytes stand with which the terminal begins
    shown: Mark,                    // and where they end
    position: Option<nat>)          // the end of the last bytes received over this connection

  datatype Event =
    | OutputE(bytes: seq<Byte>)
    | EvictE(upTo: nat)
    | RestartE(announces: bool)
    | ServeE
    | ReceiveE
    | ConnectE
    | OpenE
    | DropE
    | MountE
    | UnmountE

  function Epoch(s: System): nat {
    if s.logs == [] then 0 else |s.logs| - 1
  }

  function Log(s: System): seq<Byte> {
    if s.logs == [] then [] else s.logs[|s.logs| - 1]
  }

  function Sent(s: System, r: Request): System {
    if s.link.Down? then s else s.(requests := s.requests + [r])
  }

  function Stretch(log: seq<Byte>, from: nat): Frame {
    Data(from, if from <= |log| then log[from..] else [])
  }

  /** The daemon answers an attach; a live subscription starts where the replay ends. */
  function Replay(s: System, resume: Option<Mark>): seq<Frame> {
    var log := Log(s);
    if !s.announces then if s.evicted == |log| then [] else [Stretch(log, s.evicted)]
    else if resume.Some? && resume.value.epoch == Epoch(s) && s.evicted <= resume.value.offset <= |log|
    then [Ack(Epoch(s), |log|, false), Stretch(log, resume.value.offset)]
    else [Ack(Epoch(s), |log|, true), Stretch(log, s.evicted)]
  }

  function Output(s: System, bytes: seq<Byte>): System {
    if s.logs == [] then s
    else
      s.(logs := s.logs[Epoch(s) := Log(s) + bytes],
         wire := if s.subscribed then s.wire + [Data(|Log(s)|, bytes)] else s.wire)
  }

  function Serve(s: System): System
  {
    if s.link != Up || s.requests == [] then s
    else
      var rest := s.(requests := s.requests[1..]);
      match s.requests[0]
      case Attach(resume) => rest.(subscribed := true, wire := s.wire + Replay(s, resume))
      case Detach => rest.(subscribed := false)
  }

  /** A reset, or the first bytes, move the beginning of what the terminal shows. */
  function OriginAfter(s: System, start: nat): Option<Mark> {
    if s.pane.terminal.None? then None
    else if s.origin.None? || s.pane.pending == Some(AwaitingAck) || s.pane.pending == Some(FullReplay)
    then Some(Mark(Epoch(s), start))
    else s.origin
  }

  function Take(s: System): System {
    if s.link != Up || s.wire == [] then s
    else
      var f := s.wire[0];
      var rest := s.(wire := s.wire[1..], pane := Receive(s.pane, f));
      match f
      case Ack(_, _, _) => rest.(position := None)
      case Data(start, bytes) =>
        rest.(position := Some(start + |bytes|), origin := OriginAfter(s, start),
          shown := Mark(Epoch(s), start + |bytes|))
  }

  /** The socket closes: what was under way in either direction is gone, and so is the subscription. */
  function Drop(s: System): System {
    s.(link := Down, requests := [], wire := [], subscribed := false, position := None)
  }

  function Open(s: System): System {
    if s.link != Connecting then s
    else if s.pane.terminal.None? then s.(link := Up)
    else
      var (pane, request) := Reattached(s.pane);
      Sent(s.(link := Up, pane := pane), request)
  }

  function Mount(s: System): System {
    var (pane, request) := Mounted(s.pane);
    Sent(s.(pane := pane, origin := None, position := if s.announces then s.position else None), request)
  }

  function Unmount(s: System): System {
    if s.pane.terminal.None? then s else Sent(s.(pane := Unmounted(s.pane), origin := None), Detach)
  }

  function Step(s: System, e: Event): System
  {
    match e
    case OutputE(bytes) => Output(s, bytes)
    case EvictE(upTo) => if s.evicted <= upTo <= |Log(s)| then s.(evicted := upTo) else s
    case RestartE(announces) =>
      if s.link.Down? then s.(logs := s.logs + [[]], evicted := 0, announces := announces) else s
    case ServeE => Serve(s)
    case ReceiveE => Take(s)
    case ConnectE => if s.link.Down? then s.(link := Connecting) else s
    case OpenE => Open(s)
    case DropE => Drop(s)
    case MountE => Mount(s)
    case UnmountE => Unmount(s)
  }

  // ---------- What a terminal ought to show ----------

  /** The bytes are the stretch of one epoch's stream between two positions, without gaps or
      repetitions. */
  predicate IsStretch(logs: seq<seq<Byte>>, bytes: seq<Byte>, from: Mark, to: Mark) {
    && from.epoch == to.epoch < |logs| && from.offset <= to.offset <= |logs[to.epoch]|
    && bytes == logs[to.epoch][from.offset..to.offset]
  }

  /** Nothing is under way between the terminal and a daemon that announces its replays. */
  predicate AtRest(s: System) {
    s.link.Up? && s.pane.terminal.Some? && s.announces && s.requests == [] && s.wire == []
  }

  /** The terminal begins no later than what the daemon still holds. */
  predicate Covers(s: System) {
    s.origin.Some? && s.origin.value.epoch == Epoch(s) && s.origin.value.offset <= s.evicted
  }

  /** A terminal shows one contiguous stretch, and at rest all that the daemon holds, to its end, which
      the watermark remembers, so that a reconnect costs only what comes after it. */
  predicate Right(s: System) {
    s.pane.terminal.Some? ==>
      && (if s.origin.Some? then IsStretch(s.logs, s.pane.terminal.value, s.origin.value, s.shown)
          else s.pane.terminal.value == [])
      && (AtRest(s) ==> Covers(s) && s.pane.watermark == Some(Mark(Epoch(s), |Log(s)|)) && s.shown.offset == |Log(s)|)
  }

  // ---------- The conditions ----------

  /** The daemon can still answer this watermark with a delta, now or once it has more. */
  predicate CanDelta(s: System, m: Option<Mark>) {
    m.Some? && s.announces && m.value.epoch == Epoch(s) && s.evicted <= m.value.offset
  }

  /** A delta from the stored watermark would go on where the terminal ends, and leave nothing out. */
  predicate Resumable(s: System) {
    s.pane.terminal.Some? && CanDelta(s, s.pane.watermark) ==>
      if s.origin.Some? then s.shown == s.pane.watermark.value && s.origin.value.offset <= s.evicted
      else s.pane.watermark.value.offset <= s.evicted
  }

  predicate AllDetach(requests: seq<Request>) {
    forall i :: 0 <= i < |requests| ==> requests[i].Detach?
  }

  /** A new terminal must not meet an old watermark, nor bytes meant for the one before it where the
      daemon does not announce. */
  predicate Mountable(s: System) {
    if s.announces then
      match s.link
      case Up => true
      case Down => CanDelta(s, s.pane.watermark) ==> s.pane.watermark.value.offset <= s.evicted
      case Connecting => !CanDelta(s, s.pane.watermark)
    else s.link.Down? || (s.link.Up? && !s.subscribed && s.wire == [] && AllDetach(s.requests))
  }

  predicate Allowed(s: System, e: Event) {
    match e
    case DropE => Resumable(s)
    case MountE => Mountable(s)
    case _ => true
  }

  // ---------- Invariant ----------

  function End(f: Frame): nat {
    match f
    case Ack(_, end, _) => end
    case Data(start, bytes) => start + |bytes|
  }

  predicate FrameOk(log: seq<Byte>, epoch: nat, f: Frame) {
    && End(f) <= |log|
    && (f.Ack? ==> f.epoch == epoch)
    && (f.Data? ==> f.bytes == log[f.start..f.start + |f.bytes|])
  }

  /** A frame that follows another: live bytes go on where those before end, a replay ends where it
      was announced to and a full one leaves nothing out, and only the first attach of a connection
      is answered with a delta. */
  predicate Follows(f: Frame, g: Frame, evicted: nat) {
    && (f.Ack? ==> g.Data? && End(g) == End(f) && (f.full ==> g.start <= evicted))
    && (f.Data? && g.Data? ==> g.start == End(f))
    && (g.Ack? ==> g.full)
  }

  predicate WireOk(log: seq<Byte>, epoch: nat, evicted: nat, announces: bool, wire: seq<Frame>, position: Option<nat>) {
    && (forall i :: 0 <= i < |wire| ==> FrameOk(log, epoch, wire[i]) && (!announces ==> wire[i].Data?))
    && (forall i :: 0 < i < |wire| ==> Follows(wire[i-1], wire[i], evicted))
    && (wire != [] ==> wire[|wire|-1].Data?)
    && (wire != [] && wire[0].Data? && position.Some? ==> wire[0].start == position.value)
  }

  predicate Quiet(s: System) {
    s.wire == [] && !s.subscribed && s.position.None?
  }

  /** An attach that may be answered with a delta is the first word on a new connection. */
  predicate RequestOk(s: System, i: nat)
    requires i < |s.requests|
  {
    s.requests[i].Attach? && CanDelta(s, s.requests[i].resume) ==>
      && i == 0 && s.link.Up? && Quiet(s)
      && (s.pane.terminal.Some? ==>
            s.pane.pending == Some(AwaitingAck) && (s.origin.Some? ==> s.shown == s.requests[i].resume.value))
  }

  predicate RequestsOk(s: System) {
    && (s.link.Down? ==> s.requests == [])
    && (s.link.Connecting? ==>
          && (forall i :: 0 <= i < |s.requests| && s.requests[i].Attach? ==> s.requests[i].resume.None?)
          && (CanDelta(s, s.pane.watermark) || !s.announces ==>
                if s.pane.terminal.Some? then s.requests == [] else AllDetach(s.requests)))
    && (forall i :: 0 <= i < |s.requests| ==> RequestOk(s, i))
    && (!s.announces ==> forall i :: 0 <= i < |s.requests| && s.requests[i].Attach? ==>
          Quiet(s) && AllDetach(s.requests[..i]) && AllDetach(s.requests[i+1..]))
  }

  /** Where the frames on their way end. */
  function Reach(s: System): Option<nat> {
    if s.wire == [] then s.position else Some(End(s.wire[|s.wire|-1]))
  }

  predicate LinkOk(s: System) {
    && (s.link != Up ==> Quiet(s))
    && (s.subscribed ==> Reach(s) == Some(|Log(s)|) || (Reach(s).None? && !s.announces))
    && (s.link.Up? && s.pane.terminal.Some? ==>
          && (if s.requests == [] then s.subscribed else s.requests[|s.requests|-1].Attach?)
          && (s.announces && s.pane.pending == Some(AwaitingAck) ==>
                && (s.requests == [] ==> s.wire != [])
                && (s.origin.Some? ==> if s.wire == [] then !s.subscribed else s.wire[0].Ack?)))
  }

  /** Before its replay a surviving terminal shows what it showed. */
  predicate PaneOk(s: System) {
    var p := s.pane;
    && s.shown.epoch < |s.logs| && s.shown.offset <= |s.logs[s.shown.epoch]|
    && (p.watermark.Some? ==> p.watermark.value.epoch < |s.logs|)
    && (p.terminal.None? ==> s.origin.None?)
    && (p.terminal.Some? ==>
      && (if s.origin.Some? then IsStretch(s.logs, p.terminal.value, s.origin.value, s.shown)
          else p.terminal.value == [] && p.pending.Some?)
      && (p.pending.None? && p.watermark.Some? ==> p.watermark.value == s.shown)
      && (p.pending.None? && s.link.Up? ==> s.shown.epoch == Epoch(s) && s.position == Some(s.shown.offset)))
  }

  predicate Expects(s: System) {
    s.link.Up? && s.pane.terminal.Some? && s.pane.pending.Some? && !s.pane.pending.value.AwaitingAck?
  }

  /** An announced replay is the next frame. */
  predicate ReplayOk(s: System) {
    && (Expects(s) ==>
      && s.wire != [] && s.wire[0].Data? && s.position.None?
      && s.pane.watermark == Some(Mark(Epoch(s), End(s.wire[0])))
      && (s.pane.pending == Some(FullReplay) ==> s.wire[0].start <= s.evicted)
      && (s.pane.pending == Some(DeltaReplay) && s.origin.Some? ==> s.shown == Mark(Epoch(s), s.wire[0].start)))
    && (s.wire != [] && s.wire[0].Ack? && !s.wire[0].full && s.pane.terminal.Some? ==>
      && |s.wire| > 1 && s.wire[1].Data? && s.pane.pending == Some(AwaitingAck)
      && (s.origin.Some? ==> s.shown == Mark(Epoch(s), s.wire[1].start)))
  }

  predicate FullRequest(s: System, i: nat)
    requires i < |s.requests|
  {
    s.requests[i].Attach? && !CanDelta(s, s.requests[i].resume)
  }

  /** A full replay is on its way, somewhere. */
  predicate FullDue(s: System) {
    || (exists i :: 0 <= i < |s.requests| && FullRequest(s, i))
    || (exists i :: 0 <= i < |s.wire| && s.wire[i].Ack? && s.wire[i].full)
    || (Expects(s) && s.pane.pending == Some(FullReplay))
  }

  /** A delta on its way to an empty terminal leaves nothing out. */
  predicate WholeDelta(s: System) {
    && s.origin.None?
    && (|| (s.requests != [] && s.requests[0].Attach? && CanDelta(s, s.requests[0].resume)
            && s.requests[0].resume.value.offset <= s.evicted)
        || (|s.wire| > 1 && s.wire[0].Ack? && !s.wire[0].full && s.wire[1].Data? && s.wire[1].start <= s.evicted)
        || (Expects(s) && s.pane.pending == Some(DeltaReplay) && s.wire != [] && s.wire[0].Data?
          && s.wire[0].start <= s.evicted))
  }

  predicate PromiseOk(s: System) {
    s.announces && s.pane.terminal.Some? ==>
      if s.link.Up? then (Covers(s) && (s.pane.pending.None? ==> s.pane.watermark.Some?)) || FullDue(s) || WholeDelta(s)
      else Resumable(s)
  }

  predicate StreamInv(s: System) {
    && s.logs != [] && s.evicted <= |Log(s)|
    && WireOk(Log(s), Epoch(s), s.evicted, s.announces, s.wire, s.position)
    && RequestsOk(s) && LinkOk(s) && PaneOk(s) && ReplayOk(s) && PromiseOk(s)
  }

  function Start(announces: bool): System {
    System([[]], 0, announces, false, Down, [], [], Pane(None, None, None), None, Mark(0, 0), None)
  }
}
