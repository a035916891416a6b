/** The terminal always shows a contiguous stretch of the daemon's stream, and catches up. */
module StreamProofs {
  import opened Wrappers
  import opened Stream
  import Runs

  // ---------- Stretches of the stream ----------

  lemma Glue(logs: seq<seq<Byte>>, bytes: seq<Byte>, more: seq<Byte>, from: Mark, to: Mark)
    requires IsStretch(logs, bytes, from, to) && to.offset + |more| <= |logs[to.epoch]|
    requires more == logs[to.epoch][to.offset..to.offset + |more|]
    ensures IsStretch(logs, bytes + more, from, Mark(to.epoch, to.offset + |more|))
  {
    var log := logs[to.epoch];
    assert log[from.offset..to.offset + |more|] == log[from.offset..to.offset] + log[to.offset..to.offset + |more|];
  }

  lemma Grow(s: System, more: seq<Byte>, bytes: seq<Byte>, from: Mark, to: Mark)
    requires s.logs != [] && IsStretch(s.logs, bytes, from, to)
    ensures IsStretch(Output(s, more).logs, bytes, from, to)
  {
    if to.epoch == Epoch(s) {
      assert (Log(s) + more)[from.offset..to.offset] == Log(s)[from.offset..to.offset];
    }
  }

  lemma GrowFrame(log: seq<Byte>, more: seq<Byte>, epoch: nat, f: Frame)
    requires FrameOk(log, epoch, f)
    ensures FrameOk(log + more, epoch, f)
  {
    if f.Data? {
      assert (log + more)[f.start..f.start + |f.bytes|] == log[f.start..f.start + |f.bytes|];
    }
  }

  // ---------- Output ----------

  lemma GrowWire(log: seq<Byte>, more: seq<Byte>, epoch: nat, evicted: nat, announces: bool, wire: seq<Frame>,
                 position: Option<nat>)
    requires WireOk(log, epoch, evicted, announces, wire, position)
    ensures WireOk(log + more, epoch, evicted, announces, wire, position)
  {
    forall i | 0 <= i < |wire| ensures FrameOk(log + more, epoch, wire[i]) {
      GrowFrame(log, more, epoch, wire[i]);
    }
  }

  lemma SentWire(log: seq<Byte>, more: seq<Byte>, epoch: nat, evicted: nat, announces: bool, wire: seq<Frame>,
                 position: Option<nat>)
    requires WireOk(log, epoch, evicted, announces, wire, position)
    requires wire != [] ==> Follows(wire[|wire|-1], Data(|log|, more), evicted)
    requires wire == [] && position.Some? ==> |log| == position.value
    ensures WireOk(log + more, epoch, evicted, announces, wire + [Data(|log|, more)], position)
  {
    GrowWire(log, more, epoch, evicted, announces, wire, position);
    assert (log + more)[|log|..] == more;
    WireLonger(log + more, epoch, evicted, announces, wire, position, [Data(|log|, more)]);
  }

  lemma OutputWire(s: System, bytes: seq<Byte>)
    requires StreamInv(s)
    ensures var t := Output(s, bytes); WireOk(Log(t), Epoch(t), t.evicted, t.announces, t.wire, t.position)
  {
    if s.subscribed {
      SentWire(Log(s), bytes, Epoch(s), s.evicted, s.announces, s.wire, s.position);
    } else {
      GrowWire(Log(s), bytes, Epoch(s), s.evicted, s.announces, s.wire, s.position);
    }
  }

  lemma OutputPane(s: System, bytes: seq<Byte>)
    requires StreamInv(s)
    ensures PaneOk(Output(s, bytes)) && ReplayOk(Output(s, bytes))
  {
    if s.pane.terminal.Some? && s.origin.Some? {
      Grow(s, bytes, s.pane.terminal.value, s.origin.value, s.shown);
    }
  }

  lemma OutputRequests(s: System, bytes: seq<Byte>)
    requires StreamInv(s)
    ensures RequestsOk(Output(s, bytes))
  {
    var t := Output(s, bytes);
    forall i | 0 <= i < |t.requests| ensures RequestOk(t, i) {
      assert RequestOk(s, i);
    }
  }

  lemma OutputLink(s: System, bytes: seq<Byte>)
    requires StreamInv(s)
    ensures LinkOk(Output(s, bytes))
  {
  }

  lemma OutputPromise(s: System, bytes: seq<Byte>)
    requires StreamInv(s)
    ensures PromiseOk(Output(s, bytes))
  {
    var t := Output(s, bytes);
    DueKept(s, t);
  }

  /** What is under way stays so when frames are added behind. */
  lemma DueKept(s: System, t: System)
    requires t.requests == s.requests && |s.wire| <= |t.wire| && t.wire[..|s.wire|] == s.wire
    requires t.link == s.link && t.pane == s.pane && t.announces == s.announces && t.evicted == s.evicted
    requires Epoch(t) == Epoch(s)
    ensures FullDue(s) ==> FullDue(t)
  {
    if i :| 0 <= i < |s.requests| && FullRequest(s, i) {
      assert FullRequest(t, i);
    }
    if i :| 0 <= i < |s.wire| && s.wire[i].Ack? && s.wire[i].full {
      assert t.wire[i] == t.wire[..|s.wire|][i];
    }
  }

  lemma OutputKeeps(s: System, bytes: seq<Byte>)
    requires StreamInv(s)
    ensures StreamInv(Output(s, bytes))
  {
    OutputWire(s, bytes);
    OutputPane(s, bytes);
    OutputRequests(s, bytes);
    OutputLink(s, bytes);
    OutputPromise(s, bytes);
  }

  // ---------- Serving ----------

  lemma ReplayIs(s: System, resume: Option<Mark>)
    requires s.logs != [] && s.evicted <= |Log(s)|
    ensures var r := Replay(s, resume);
      && (forall i :: 0 <= i < |r| ==> FrameOk(Log(s), Epoch(s), r[i]))
      && (s.announces ==> |r| == 2 && r[0].Ack? && r[1].Data? && End(r[0]) == End(r[1]) == |Log(s)|)
      && (!s.announces ==> |r| <= 1 && (r != [] ==> r[0].Data? && End(r[0]) == |Log(s)|))
      && (s.announces ==> if r[0].full then r[1].start == s.evicted
                          else CanDelta(s, resume) && r[1].start == resume.value.offset)
  {
  }

  /** Frames that follow on the last one under way. */
  lemma WireLonger(log: seq<Byte>, epoch: nat, evicted: nat, announces: bool, wire: seq<Frame>, position: Option<nat>,
                   r: seq<Frame>)
    requires WireOk(log, epoch, evicted, announces, wire, position) && r != [] && r[|r|-1].Data?
    requires forall i :: 0 <= i < |r| ==> FrameOk(log, epoch, r[i]) && (!announces ==> r[i].Data?)
    requires forall i :: 0 < i < |r| ==> Follows(r[i-1], r[i], evicted)
    requires wire != [] ==> Follows(wire[|wire|-1], r[0], evicted)
    requires wire == [] && r[0].Data? && position.Some? ==> r[0].start == position.value
    ensures WireOk(log, epoch, evicted, announces, wire + r, position)
  {
  }

  /** A replay goes on behind the frames under way. */
  lemma ReplayFollows(s: System, r: seq<Frame>)
    requires StreamInv(s) && s.link.Up? && s.requests != [] && s.requests[0].Attach?
    requires r == Replay(s, s.requests[0].resume) && r != []
    ensures r[|r|-1].Data?
    ensures forall i :: 0 <= i < |r| ==> FrameOk(Log(s), Epoch(s), r[i]) && (!s.announces ==> r[i].Data?)
    ensures forall i :: 0 < i < |r| ==> Follows(r[i-1], r[i], s.evicted)
    ensures s.wire != [] ==> Follows(s.wire[|s.wire|-1], r[0], s.evicted)
    ensures s.wire == [] && r[0].Data? && s.position.Some? ==> r[0].start == s.position.value
  {
    ReplayIs(s, s.requests[0].resume);
    assert RequestOk(s, 0);
  }

  lemma ServeWire(s: System)
    requires StreamInv(s)
    ensures var t := Serve(s); WireOk(Log(t), Epoch(t), t.evicted, t.announces, t.wire, t.position)
  {
    if s.link.Up? && s.requests != [] && s.requests[0].Attach? {
      var r := Replay(s, s.requests[0].resume);
      if r != [] {
        ReplayFollows(s, r);
        WireLonger(Log(s), Epoch(s), s.evicted, s.announces, s.wire, s.position, r);
      }
    }
  }

  lemma ServeLink(s: System)
    requires StreamInv(s)
    ensures LinkOk(Serve(s))
  {
    if s.requests != [] && s.requests[0].Attach? {
      ReplayIs(s, s.requests[0].resume);
      assert RequestOk(s, 0);
    }
  }

  lemma ServeRequests(s: System)
    requires StreamInv(s)
    ensures RequestsOk(Serve(s))
  {
    var t := Serve(s);
    if s.link.Up? && s.requests != [] {
      forall i | 0 <= i < |t.requests| ensures RequestOk(t, i) {
        assert RequestOk(s, i + 1);
      }
      if !s.announces {
        forall i | 0 <= i < |t.requests| && t.requests[i].Attach?
          ensures Quiet(t) && AllDetach(t.requests[..i]) && AllDetach(t.requests[i+1..])
        {
          assert s.requests[i+1].Attach?;
          assert s.requests[..i+1][0] == s.requests[0];
          assert t.requests[..i] == s.requests[..i+1][1..];
          assert t.requests[i+1..] == s.requests[i+2..];
        }
      }
    }
  }

  lemma ServePane(s: System)
    requires PaneOk(s)
    ensures PaneOk(Serve(s))
  {
  }

  lemma ServeReplay(s: System)
    requires StreamInv(s)
    ensures ReplayOk(Serve(s))
  {
    if s.requests != [] && s.requests[0].Attach? {
      ReplayIs(s, s.requests[0].resume);
      assert RequestOk(s, 0);
    }
  }

  lemma ServeFullDue(s: System)
    requires s.logs != [] && s.evicted <= |Log(s)| && s.link.Up? && s.requests != [] && s.announces && FullDue(s)
    ensures FullDue(Serve(s))
  {
    var t := Serve(s);
    if i :| 0 <= i < |s.requests| && FullRequest(s, i) && i > 0 {
      assert FullRequest(t, i - 1);
    } else if i :| 0 <= i < |s.wire| && s.wire[i].Ack? && s.wire[i].full {
      assert t.wire[i] == s.wire[i];
    } else if s.requests[0].Attach? {
      ReplayIs(s, s.requests[0].resume);
      assert t.wire[|s.wire|] == Replay(s, s.requests[0].resume)[0];
    }
  }

  lemma ServeWholeDelta(s: System)
    requires StreamInv(s) && s.link.Up? && s.requests != [] && s.announces && s.pane.terminal.Some? && WholeDelta(s)
    ensures WholeDelta(Serve(s))
  {
    if s.requests[0].Attach? {
      ReplayIs(s, s.requests[0].resume);
      assert RequestOk(s, 0);
    }
  }

  lemma ServePromise(s: System)
    requires StreamInv(s)
    ensures PromiseOk(Serve(s))
  {
    if s.link.Up? && s.requests != [] && s.announces && s.pane.terminal.Some? {
      if FullDue(s) {
        ServeFullDue(s);
      } else if WholeDelta(s) {
        ServeWholeDelta(s);
      }
    }
  }

  lemma ServeKeeps(s: System)
    requires StreamInv(s)
    ensures StreamInv(Serve(s))
  {
    ServeWire(s);
    ServeLink(s);
    ServeRequests(s);
    ServePane(s);
    ServeReplay(s);
    ServePromise(s);
  }

  // ---------- Receiving ----------

  lemma TakeWire(s: System)
    requires StreamInv(s)
    ensures var t := Take(s); WireOk(Log(t), Epoch(t), t.evicted, t.announces, t.wire, t.position)
  {
  }

  lemma TakeRequests(s: System)
    requires StreamInv(s)
    ensures RequestsOk(Take(s))
  {
    var t := Take(s);
    if s.link.Up? && s.wire != [] {
      forall i | 0 <= i < |t.requests| ensures RequestOk(t, i) {
        assert RequestOk(s, i);
      }
    }
  }

  lemma TakeAck(s: System)
    requires StreamInv(s) && s.link.Up? && s.wire != [] && s.wire[0].Ack?
    ensures PaneOk(Take(s)) && ReplayOk(Take(s))
  {
    assert Follows(s.wire[0], s.wire[1], s.evicted);
  }

  /** A data frame leaves a contiguous stretch that ends where the frame ends. */
  lemma TakeShows(s: System)
    requires StreamInv(s) && s.link.Up? && s.wire != [] && s.wire[0].Data? && s.pane.terminal.Some?
    ensures var t := Take(s);
      && t.pane.terminal.Some? && t.origin.Some? && IsStretch(s.logs, t.pane.terminal.value, t.origin.value, t.shown)
      && (t.pane.watermark.Some? ==> t.pane.watermark.value == t.shown)
      && t.pane.pending.None? && t.shown == Mark(Epoch(s), End(s.wire[0]))
  {
    var f, shown := s.wire[0], s.pane.terminal.value;
    assert FrameOk(Log(s), Epoch(s), f);
    if s.origin.Some? && s.shown == Mark(Epoch(s), f.start) {
      Glue(s.logs, shown, f.bytes, s.origin.value, s.shown);
    }
    assert [] + f.bytes == f.bytes;
    match s.pane.pending
    case Some(AwaitingAck) =>
    case Some(FullReplay) =>
    case Some(DeltaReplay) =>
    case None => assert s.shown == Mark(Epoch(s), f.start);
  }

  lemma TakeData(s: System)
    requires StreamInv(s) && s.link.Up? && s.wire != [] && s.wire[0].Data?
    ensures PaneOk(Take(s)) && ReplayOk(Take(s))
  {
    if s.pane.terminal.Some? {
      TakeShows(s);
    }
    assert FrameOk(Log(s), Epoch(s), s.wire[0]);
    assert |s.wire| > 1 ==> Follows(s.wire[0], s.wire[1], s.evicted);
  }

  lemma TakeLink(s: System)
    requires StreamInv(s)
    ensures LinkOk(Take(s))
  {
  }

  /** What is still due after the first frame, unless that frame was it. */
  lemma DueLeft(s: System, t: System)
    requires t.requests == s.requests && s.wire != [] && t.wire == s.wire[1..]
    requires t.logs == s.logs && t.announces == s.announces && t.evicted == s.evicted
    ensures (exists i :: 0 <= i < |s.requests| && FullRequest(s, i)) ==> FullDue(t)
    ensures (exists i :: 0 < i < |s.wire| && s.wire[i].Ack? && s.wire[i].full) ==> FullDue(t)
  {
    if i :| 0 <= i < |s.requests| && FullRequest(s, i) {
      assert FullRequest(t, i);
    }
    if i :| 0 < i < |s.wire| && s.wire[i].Ack? && s.wire[i].full {
      assert t.wire[i-1] == s.wire[i];
    }
  }

  lemma TakePromise(s: System)
    requires StreamInv(s)
    ensures PromiseOk(Take(s))
  {
    if s.link.Up? && s.wire != [] && s.announces && s.pane.terminal.Some? {
      DueLeft(s, Take(s));
      assert |s.wire| > 1 ==> Follows(s.wire[0], s.wire[1], s.evicted);
      if s.requests != [] { assert RequestOk(s, 0); }
    }
  }

  lemma TakeKeeps(s: System)
    requires StreamInv(s)
    ensures StreamInv(Take(s))
  {
    if s.link.Up? && s.wire != [] {
      TakeWire(s);
      TakeRequests(s);
      TakeLink(s);
      TakePromise(s);
      if s.wire[0].Ack? {
        TakeAck(s);
      } else {
        TakeData(s);
      }
    }
  }

  // ---------- The client's own steps ----------

  lemma DropKeeps(s: System)
    requires StreamInv(s) && Resumable(s)
    ensures StreamInv(Drop(s))
  {
  }

  lemma OpenLink(s: System)
    requires LinkOk(s) && RequestsOk(s) && s.link.Connecting?
    ensures LinkOk(Open(s))
  {
  }

  lemma OpenRequests(s: System)
    requires RequestsOk(s) && LinkOk(s) && PaneOk(s) && PromiseOk(s) && s.link.Connecting?
    ensures RequestsOk(Open(s))
  {
    var t := Open(s);
    forall i | 0 <= i < |t.requests| ensures RequestOk(t, i) {
      if i < |s.requests| {
        assert RequestOk(s, i) && t.requests[i] == s.requests[i];
      }
    }
  }

  lemma OpenPromise(s: System)
    requires PromiseOk(s) && RequestsOk(s) && PaneOk(s) && s.link.Connecting?
    ensures PromiseOk(Open(s))
  {
    var t := Open(s);
    if s.pane.terminal.Some? && s.announces {
      var last := |t.requests| - 1;
      assert t.requests[last] == Attach(s.pane.watermark);
      if CanDelta(t, s.pane.watermark) {
        assert Resumable(s) && CanDelta(s, s.pane.watermark) && s.requests == [];
        assert if s.origin.Some? then Covers(t) else WholeDelta(t);
      } else {
        assert FullRequest(t, last);
      }
    }
  }

  lemma OpenRest(s: System)
    requires StreamInv(s) && s.link.Connecting?
    ensures var t := Open(s); WireOk(Log(t), Epoch(t), t.evicted, t.announces, t.wire, t.position)
    ensures PaneOk(Open(s)) && ReplayOk(Open(s))
  {
    var t := Open(s);
    assert Quiet(s) && t.wire == [];
    assert t.pane.terminal.Some? ==> t.pane.pending == Some(AwaitingAck);
  }

  lemma OpenKeeps(s: System)
    requires StreamInv(s)
    ensures StreamInv(Open(s))
  {
    if s.link.Connecting? {
      OpenRequests(s);
      OpenLink(s);
      OpenPromise(s);
      OpenRest(s);
    }
  }

  lemma MountRequests(s: System)
    requires StreamInv(s) && Mountable(s)
    ensures RequestsOk(Mount(s)) && LinkOk(Mount(s))
  {
    var t := Mount(s);
    forall i | 0 <= i < |t.requests| ensures RequestOk(t, i) {
      if i < |s.requests| {
        assert RequestOk(s, i) && t.requests[i] == s.requests[i];
      }
    }
    if !s.announces && s.link.Up? {
      assert t.requests[..|s.requests|] == s.requests;
    }
  }

  lemma MountKeeps(s: System)
    requires StreamInv(s) && Mountable(s)
    ensures StreamInv(Mount(s))
  {
    MountRequests(s);
    var t := Mount(s);
    if s.link.Up? {
      assert FullRequest(t, |t.requests| - 1);
    }
  }

  lemma UnmountKeeps(s: System)
    requires StreamInv(s)
    ensures StreamInv(Unmount(s))
  {
    UnmountRequests(s);
  }

  lemma UnmountRequests(s: System)
    requires RequestsOk(s)
    ensures RequestsOk(Unmount(s))
  {
    var t := Unmount(s);
    forall i | 0 <= i < |t.requests| ensures RequestOk(t, i) {
      if i < |s.requests| {
        assert RequestOk(s, i) && t.requests[i] == s.requests[i];
      }
    }
    if !s.announces {
      forall i | 0 <= i < |t.requests| && t.requests[i].Attach?
        ensures Quiet(t) && AllDetach(t.requests[..i]) && AllDetach(t.requests[i+1..])
      {
        if i < |s.requests| && t.requests != s.requests {
          assert t.requests[..i] == s.requests[..i];
          assert t.requests[i+1..] == s.requests[i+1..] + [Detach];
        }
      }
    }
  }

  lemma EvictRequests(s: System, upTo: nat)
    requires StreamInv(s)
    ensures RequestsOk(Step(s, EvictE(upTo)))
  {
    var t := Step(s, EvictE(upTo));
    forall i | 0 <= i < |t.requests| ensures RequestOk(t, i) {
      assert RequestOk(s, i);
    }
  }

  lemma EvictWire(s: System, upTo: nat)
    requires StreamInv(s)
    ensures var t := Step(s, EvictE(upTo)); WireOk(Log(t), Epoch(t), t.evicted, t.announces, t.wire, t.position)
  {
  }

  lemma EvictPane(s: System, upTo: nat)
    requires StreamInv(s)
    ensures var t := Step(s, EvictE(upTo)); PaneOk(t) && ReplayOk(t) && LinkOk(t)
  {
  }

  lemma EvictKeeps(s: System, upTo: nat)
    requires StreamInv(s)
    ensures StreamInv(Step(s, EvictE(upTo)))
  {
    EvictWire(s, upTo);
    EvictPane(s, upTo);
    EvictRequests(s, upTo);
    EvictPromise(s, upTo);
  }

  lemma EvictPromise(s: System, upTo: nat)
    requires StreamInv(s)
    ensures PromiseOk(Step(s, EvictE(upTo)))
  {
    var t := Step(s, EvictE(upTo));
    if i :| 0 <= i < |s.requests| && FullRequest(s, i) {
      assert FullRequest(t, i);
    }
    if t.requests != [] && t.requests[0].Attach? && !CanDelta(t, t.requests[0].resume) {
      assert FullRequest(t, 0);
    }
  }

  lemma RestKeeps(s: System, e: Event)
    requires StreamInv(s) && (e.RestartE? || e.ConnectE?)
    ensures StreamInv(Step(s, e))
  {
  }

  lemma StepKeeps(s: System, e: Event)
    requires StreamInv(s) && Allowed(s, e)
    ensures StreamInv(Step(s, e))
  {
    match e
    case OutputE(bytes) => OutputKeeps(s, bytes);
    case EvictE(upTo) => EvictKeeps(s, upTo);
    case ServeE => ServeKeeps(s);
    case ReceiveE => TakeKeeps(s);
    case DropE => DropKeeps(s);
    case OpenE => OpenKeeps(s);
    case MountE => MountKeeps(s);
    case UnmountE => UnmountKeeps(s);
    case _ => RestKeeps(s, e);
  }

  // ---------- Main results ----------

  lemma InvIsRight(s: System)
    requires StreamInv(s)
    ensures Right(s)
    ensures AtRest(s) ==> s.pane.pending.None?
    ensures s.pane.pending.None? && s.pane.terminal.Some? && s.pane.watermark.Some? ==>
      s.pane.watermark.value == s.shown
  {
  }

  lemma RunKeeps(announces: bool, events: seq<Event>)
    requires Runs.Legal(Allowed, Step, Start(announces), events)
    ensures StreamInv(Runs.After(Step, Start(announces), events))
  {
    forall s, e | StreamInv(s) && Allowed(s, e) ensures StreamInv(Step(s, e)) {
      StepKeeps(s, e);
    }
    Runs.Invariant(StreamInv, Allowed, Step, Start(announces), events);
  }

  /** Whatever the daemon prints, and however often the connection drops or a terminal is mounted
      anew, a terminal shows one contiguous stretch of one epoch, without gaps or repetitions, and
      between replays the watermark is the position just past its last byte. */
  lemma ShownIsContiguous(announces: bool, events: seq<Event>)
    requires Runs.Legal(Allowed, Step, Start(announces), events)
    ensures var s := Runs.After(Step, Start(announces), events);
      s.pane.terminal.Some? ==>
        && (if s.origin.Some? then IsStretch(s.logs, s.pane.terminal.value, s.origin.value, s.shown)
            else s.pane.terminal.value == [])
        && (s.pane.pending.None? && s.pane.watermark.Some? ==> s.pane.watermark.value == s.shown)
  {
    RunKeeps(announces, events);
    InvIsRight(Runs.After(Step, Start(announces), events));
  }

  /** Nothing is lost: when nothing is under way, the terminal ends where the stream ends, begins no
      later than what the daemon still holds, and shows every byte between. */
  lemma CatchesUp(announces: bool, events: seq<Event>)
    requires Runs.Legal(Allowed, Step, Start(announces), events)
    requires AtRest(Runs.After(Step, Start(announces), events))
    ensures var s := Runs.After(Step, Start(announces), events);
      && s.origin.Some? && s.origin.value.offset <= s.evicted <= |Log(s)|
      && s.pane.terminal == Some(Log(s)[s.origin.value.offset..])
      && s.pane.pending.None? && s.pane.watermark == Some(Mark(Epoch(s), |Log(s)|))
  {
    RunKeeps(announces, events);
    var s := Runs.After(Step, Start(announces), events);
    InvIsRight(s);
    assert Log(s)[s.origin.value.offset..|Log(s)|] == Log(s)[s.origin.value.offset..];
  }
}
