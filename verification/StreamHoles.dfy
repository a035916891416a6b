/** The two conditions of `Stream.Allowed` are exact: where one fails, some run on which nothing else
    goes wrong ends with a terminal that shows a gap or a repetition, or leaves out bytes for good. */
module StreamHoles {
  import opened Wrappers
  import opened Stream
  import opened StreamProofs
  import Runs

  // ---------- Runs without conditions ----------

  predicate Free(events: seq<Event>) {
    forall e :: e in events ==> !e.DropE? && !e.MountE?
  }

  lemma {:induction false} FreeIsLegal(s: System, events: seq<Event>)
    requires Free(events)
    ensures Runs.Legal(Allowed, Step, s, events)
    decreases |events|
  {
    if events != [] {
      assert events[0] in events;
      FreeIsLegal(Step(s, events[0]), events[1..]);
    }
  }

  /** Some run of such events ends in `t`. */
  ghost predicate LeadsTo(s: System, t: System) {
    exists events :: Free(events) && Runs.After(Step, s, events) == t
  }

  lemma Stays(s: System)
    ensures LeadsTo(s, s)
  {
    assert Free([]) && Runs.After(Step, s, []) == s;
  }

  lemma Goes(s: System, t: System, e: Event)
    requires LeadsTo(s, t) && !e.DropE? && !e.MountE?
    ensures LeadsTo(s, Step(t, e))
  {
    var events :| Free(events) && Runs.After(Step, s, events) == t;
    var more := events + [e];
    Runs.Compose(Step, s, events, [e]);
    assert [e][1..] == [];
    assert Runs.After(Step, t, [e]) == Runs.After(Step, Step(t, e), []);
    assert Free(more);
  }

  lemma Hears(s: System, t: System)
    requires LeadsTo(s, t)
    ensures LeadsTo(s, Take(t))
  {
    Goes(s, t, ReceiveE);
  }

  lemma GoesFar(s: System, t: System, u: System)
    requires LeadsTo(s, t) && LeadsTo(t, u)
    ensures LeadsTo(s, u)
  {
    var a :| Free(a) && Runs.After(Step, s, a) == t;
    var b :| Free(b) && Runs.After(Step, t, b) == u;
    Runs.Compose(Step, s, a, b);
    assert Free(a + b) && Runs.After(Step, s, a + b) == u;
  }

  // ---------- Replays ----------

  /** An announced replay is taken: what the terminal shows then. */
  lemma TakesReplay(s: System, full: bool, data: Frame, rest: seq<Frame>)
    requires s.link.Up? && s.pane.terminal.Some? && data.Data? && data.start + |data.bytes| == |Log(s)|
    requires s.wire == [Ack(Epoch(s), |Log(s)|, full), data] + rest
    ensures var r := Take(Take(s));
      && r.link.Up? && r.requests == s.requests && r.logs == s.logs && r.wire == rest
      && r.evicted == s.evicted && r.announces == s.announces && r.subscribed == s.subscribed
      && r.pane == Pane(Some(if full then data.bytes else s.pane.terminal.value + data.bytes),
                        Some(Mark(Epoch(s), |Log(s)|)), None)
      && r.origin == (if full || s.origin.None? then Some(Mark(Epoch(s), data.start)) else s.origin)
      && r.shown == Mark(Epoch(s), |Log(s)|)
  {
    var t := Take(s);
    assert t.wire == [data] + rest;
  }

  /** A surviving terminal, or an empty one, as it is while the connection is down. */
  predicate Waiting(s: System) {
    && s.logs != [] && s.evicted <= |Log(s)| && s.link.Down? && s.requests == [] && Quiet(s)
    && s.pane.terminal.Some?
    && (if s.origin.Some? then IsStretch(s.logs, s.pane.terminal.value, s.origin.value, s.shown)
        else s.pane.terminal.value == [])
  }

  /** The connection comes up, and the daemon answers the watermark with a delta. */
  lemma DeltaArrives(s: System) returns (t: System)
    requires Waiting(s) && CanDelta(s, s.pane.watermark) && s.pane.watermark.value.offset <= |Log(s)|
    ensures LeadsTo(s, t) && AtRest(t) && t.logs == s.logs && t.evicted == s.evicted
    ensures var offset := s.pane.watermark.value.offset;
      && t.pane.terminal == Some(s.pane.terminal.value + Log(s)[offset..])
      && t.origin == (if s.origin.None? then Some(Mark(Epoch(s), offset)) else s.origin)
      && t.shown == Mark(Epoch(s), |Log(s)|) && t.pane.watermark == Some(t.shown)
  {
    var s3 := DeltaServed(s);
    TakesReplay(s3, false, Stretch(Log(s), s.pane.watermark.value.offset), []);
    var s4 := Step(s3, ReceiveE);
    t := Step(s4, ReceiveE);
    Goes(s, s3, ReceiveE);
    Goes(s, s4, ReceiveE);
  }

  lemma DeltaServed(s: System) returns (t: System)
    requires Waiting(s) && CanDelta(s, s.pane.watermark) && s.pane.watermark.value.offset <= |Log(s)|
    ensures LeadsTo(s, t)
    ensures t == s.(link := Up, requests := [], subscribed := true, pane := s.pane.(pending := Some(AwaitingAck)),
      wire := [Ack(Epoch(s), |Log(s)|, false), Stretch(Log(s), s.pane.watermark.value.offset)] + [])
  {
    var s1 := Step(s, ConnectE);
    var s2 := Step(s1, OpenE);
    assert s2.requests == [Attach(s.pane.watermark)];
    t := Step(s2, ServeE);
    Stays(s);
    Goes(s, s, ConnectE);
    Goes(s, s1, OpenE);
    Goes(s, s2, ServeE);
  }

  /** A watermark that does not describe the terminal is presented for it. */
  lemma ColdDelta(s: System) returns (t: System)
    requires Waiting(s) && !Resumable(s)
    ensures LeadsTo(s, t) && !Right(t)
  {
    var pad := seq(s.pane.watermark.value.offset, _ => 0);
    var s1 := Step(s, OutputE(pad));
    Stays(s);
    Goes(s, s, OutputE(pad));
    if s.origin.Some? {
      Grow(s, pad, s.pane.terminal.value, s.origin.value, s.shown);
    }
    t := DeltaArrives(s1);
    GoesFar(s, s1, t);
    if s.origin.Some? && s.shown != s.pane.watermark.value {
      WrongLength(s1, t);
    }
  }

  lemma WrongLength(s: System, t: System)
    requires Waiting(s) && s.origin.Some? && t.origin == s.origin && t.logs == s.logs
    requires s.pane.watermark.Some? && s.pane.watermark.value.epoch == Epoch(s) && s.shown != s.pane.watermark.value
    requires s.pane.watermark.value.offset <= |Log(s)| && t.shown == Mark(Epoch(s), |Log(s)|)
    requires t.pane.terminal == Some(s.pane.terminal.value + Log(s)[s.pane.watermark.value.offset..])
    ensures !IsStretch(t.logs, t.pane.terminal.value, t.origin.value, t.shown)
  {
    var offset := s.pane.watermark.value.offset;
    assert |s.pane.terminal.value| == s.shown.offset - s.origin.value.offset;
    assert |t.pane.terminal.value| == |s.pane.terminal.value| + |Log(s)| - offset;
  }

  // ---------- Dropping ----------

  lemma DropBreaks(s: System) returns (t: System)
    requires StreamInv(s) && !Resumable(s)
    ensures LeadsTo(Drop(s), t) && !Right(t)
  {
    t := ColdDelta(Drop(s));
  }

  /** What the connection loses between an announcement and its replay, in full: the terminal stays
      what it was, and goes on behind the end that was announced. */
  lemma DropAfterAckLosesReplay(s: System) returns (t: System)
    requires StreamInv(s) && s.announces && Expects(s) && s.evicted <= End(s.wire[0])
    ensures LeadsTo(Drop(s), t) && AtRest(t)
    ensures t.pane.terminal == Some(s.pane.terminal.value + Log(s)[End(s.wire[0])..])
    ensures Right(t) <==> Resumable(s)
  {
    assert FrameOk(Log(s), Epoch(s), s.wire[0]);
    var d := Drop(s);
    t := DeltaArrives(d);
    if s.origin.Some? && s.shown != d.pane.watermark.value {
      WrongLength(d, t);
    }
  }

  // ---------- Serving what stands in line ----------

  /** Unsubscribing where nobody is subscribed changes nothing. */
  lemma {:induction false} ServeDetaches(s: System, before: seq<Request>, rest: seq<Request>)
    requires s.link.Up? && !s.subscribed && s.requests == before + rest && AllDetach(before)
    ensures LeadsTo(s, s.(requests := rest))
    decreases |before|
  {
    if before == [] {
      assert before + rest == rest;
      assert s.(requests := rest) == s;
      Stays(s);
    } else {
      var t := Step(s, ServeE);
      assert s.requests[0] == before[0] && s.requests[1..] == before[1..] + rest;
      Stays(s);
      Goes(s, s, ServeE);
      assert t == s.(requests := before[1..] + rest);
      ServeDetaches(t, before[1..], rest);
      assert t.(requests := rest) == s.(requests := rest);
      GoesFar(s, t, s.(requests := rest));
    }
  }

  /** The next attach in line is served. */
  lemma {:induction false} ServeToAttach(s: System, a: nat) returns (t: System, k: nat)
    requires s.link.Up? && a < |s.requests| && s.requests[a].Attach?
    ensures k <= a && s.requests[k].Attach? && LeadsTo(s, t)
    ensures t == s.(requests := s.requests[k+1..], subscribed := true, wire := s.wire + Replay(s, s.requests[k].resume))
    decreases a
  {
    ServeNext(s);
    var u := Serve(s);
    if s.requests[0].Attach? {
      t, k := u, 0;
    } else {
      var j: nat;
      t, j := ServeToAttach(u, a - 1);
      k := j + 1;
      GoesFar(s, u, t);
      assert s.requests[1..][j+1..] == s.requests[k+1..];
    }
  }

  lemma ServeNext(s: System)
    requires s.link.Up? && s.requests != []
    ensures LeadsTo(s, Serve(s))
    ensures s.requests[0].Detach? ==> Serve(s) == s.(requests := s.requests[1..], subscribed := false)
  {
    Stays(s);
    Goes(s, s, ServeE);
  }

  // ---------- Mounting while connecting ----------

  /** Two replays where the terminal expects one: with a daemon that announces, a full one and a
      delta; else the same twice. */
  lemma MountConnectingBreaks(s: System) returns (t: System)
    requires StreamInv(s) && s.link.Connecting? && !Mountable(s)
    ensures LeadsTo(Mount(s), t) && !Right(t)
  {
    var m := Mount(s);
    var pad := seq((if s.pane.watermark.Some? then s.pane.watermark.value.offset else 0) + 1, _ => 0);
    var s1 := Step(m, OutputE(pad));
    var s2 := Step(s1, OpenE);
    Stays(m);
    Goes(m, m, OutputE(pad));
    Goes(m, s1, OpenE);
    var twice := [Attach(None), Attach(s.pane.watermark)];
    assert s2.requests == s.requests + twice;
    ServeDetaches(s2, s.requests, twice);
    var s3 := s2.(requests := twice);
    GoesFar(m, s2, s3);
    if s.announces {
      t := FullThenDelta(s3);
    } else {
      t := SameTwice(s3);
    }
    GoesFar(m, s3, t);
  }

  predicate TwoAttaches(s: System) {
    && s.logs != [] && s.evicted <= |Log(s)| && s.link.Up? && Quiet(s)
    && s.pane.terminal == Some([]) && s.origin.None? && s.pane.pending == Some(AwaitingAck)
    && s.requests == [Attach(None), Attach(s.pane.watermark)]
  }

  lemma ServeBoth(s: System) returns (t: System)
    requires TwoAttaches(s)
    ensures LeadsTo(s, t)
    ensures t == s.(requests := [], subscribed := true, wire := Replay(s, None) + Replay(s, s.pane.watermark))
  {
    var first := Replay(s, None);
    var u := Step(s, ServeE);
    assert s.requests[1..] == [Attach(s.pane.watermark)] && s.wire + first == first;
    assert u == s.(requests := [Attach(s.pane.watermark)], subscribed := true, wire := first);
    t := Step(u, ServeE);
    assert u.requests[1..] == [];
    assert Replay(u, s.pane.watermark) == Replay(s, s.pane.watermark);
    Stays(s);
    Goes(s, s, ServeE);
    Goes(s, u, ServeE);
  }

  lemma FullThenDelta(s: System) returns (t: System)
    requires TwoAttaches(s) && s.announces && CanDelta(s, s.pane.watermark) && s.pane.watermark.value.offset < |Log(s)|
    ensures LeadsTo(s, t) && !Right(t)
    ensures t.pane.terminal == Some(Log(s)[s.evicted..] + Log(s)[s.pane.watermark.value.offset..])
  {
    var s2 := ServeBoth(s);
    t := TakeBoth(s2, Stretch(Log(s), s.evicted), Stretch(Log(s), s.pane.watermark.value.offset));
    GoesFar(s, s2, t);
    assert |t.pane.terminal.value| == |Log(s)| - s.evicted + |Log(s)| - s.pane.watermark.value.offset;
  }

  lemma TakeBoth(s: System, full: Frame, delta: Frame) returns (t: System)
    requires s.link.Up? && s.pane.terminal.Some? && full.Data? && delta.Data?
    requires full.start + |full.bytes| == delta.start + |delta.bytes| == |Log(s)|
    requires s.wire == [Ack(Epoch(s), |Log(s)|, true), full] + [Ack(Epoch(s), |Log(s)|, false), delta]
    ensures LeadsTo(s, t)
    ensures t.pane.terminal == Some(full.bytes + delta.bytes) && t.logs == s.logs
    ensures t.origin == Some(Mark(Epoch(s), full.start)) && t.shown == Mark(Epoch(s), |Log(s)|)
  {
    var rest := [Ack(Epoch(s), |Log(s)|, false), delta];
    TakesReplay(s, true, full, rest);
    var s1 := Step(s, ReceiveE);
    var s2 := Step(s1, ReceiveE);
    assert rest + [] == rest;
    TakesReplay(s2, false, delta, []);
    var s3 := Step(s2, ReceiveE);
    t := Step(s3, ReceiveE);
    Stays(s);
    Goes(s, s, ReceiveE);
    Goes(s, s1, ReceiveE);
    Goes(s, s2, ReceiveE);
    Goes(s, s3, ReceiveE);
  }

  lemma SameTwice(s: System) returns (t: System)
    requires TwoAttaches(s) && !s.announces && s.evicted < |Log(s)|
    ensures LeadsTo(s, t) && !Right(t)
  {
    var replay := Stretch(Log(s), s.evicted);
    var s2 := ServeBoth(s);
    assert s2.wire == [replay, replay];
    var s3 := Step(s2, ReceiveE);
    assert s3.wire == [replay];
    t := Step(s3, ReceiveE);
    Goes(s, s2, ReceiveE);
    Goes(s, s3, ReceiveE);
    assert |t.pane.terminal.value| == 2 * (|Log(s)| - s.evicted);
  }

  // ---------- Mounting over an old subscription ----------

  /** Live bytes under way, to a daemon that announces nothing: the first frame resets the terminal,
      the others continue it. */
  predicate Flows(s: System) {
    && s.logs != [] && !s.announces && s.link.Up? && s.pane.terminal.Some?
    && (forall i :: 0 <= i < |s.wire| ==> s.wire[i].Data? && FrameOk(Log(s), Epoch(s), s.wire[i]))
    && (forall i :: 0 < i < |s.wire| ==> s.wire[i].start == End(s.wire[i-1]))
    && match s.pane.pending
       case Some(AwaitingAck) => s.wire != []
       case None =>
         && s.origin.Some? && IsStretch(s.logs, s.pane.terminal.value, s.origin.value, s.shown)
         && s.shown.epoch == Epoch(s) && (s.wire != [] ==> s.wire[0].start == s.shown.offset)
       case _ => false
  }

  lemma FlowsOn(s: System)
    requires Flows(s) && s.wire != []
    ensures var t := Take(s);
      Flows(t) && t.pane.pending.None? && t.shown == Mark(Epoch(s), End(s.wire[0]))
      && t.wire == s.wire[1..] && t.requests == s.requests && t.logs == s.logs && t.evicted == s.evicted
      && t.subscribed == s.subscribed
  {
    var f := s.wire[0];
    assert FrameOk(Log(s), Epoch(s), f);
    if s.pane.pending.None? {
      Glue(s.logs, s.pane.terminal.value, f.bytes, s.origin.value, s.shown);
    }
  }

  lemma {:induction false} FlowsDry(s: System) returns (t: System)
    requires Flows(s)
    ensures LeadsTo(s, t) && Flows(t) && t.wire == [] && t.pane.pending.None?
    ensures t.requests == s.requests && t.logs == s.logs && t.evicted == s.evicted && t.subscribed == s.subscribed
    ensures s.wire != [] ==> t.shown == Mark(Epoch(s), End(s.wire[|s.wire|-1]))
    ensures s.wire == [] ==> t == s
    decreases |s.wire|
  {
    if s.wire == [] {
      t := s;
      Stays(s);
    } else {
      FlowsOn(s);
      var u := Step(s, ReceiveE);
      Stays(s);
      Goes(s, s, ReceiveE);
      t := FlowsDry(u);
      GoesFar(s, u, t);
    }
  }

  /** A replay is still to come, and the terminal takes it for live output. */
  lemma ReplayAppended(s: System, a: nat) returns (t: System)
    requires Flows(s) && s.wire == [] && s.pane.pending.None?
    requires a < |s.requests| && s.requests[a].Attach? && s.evicted < |Log(s)| && s.evicted != s.shown.offset
    ensures LeadsTo(s, t) && !Right(t)
  {
    var u, k := ServeToAttach(s, a);
    ReplayWhole(s, s.requests[k].resume);
    Appended(s, u, Stretch(Log(s), s.evicted));
    t := Take(u);
    Hears(s, u);
  }

  /** A daemon that announces nothing replays all it holds. */
  lemma ReplayWhole(s: System, resume: Option<Mark>)
    requires !s.announces && s.evicted < |Log(s)|
    ensures Replay(s, resume) == [Stretch(Log(s), s.evicted)] && [] + Replay(s, resume) == Replay(s, resume)
    ensures Stretch(Log(s), s.evicted).bytes != []
  {
  }

  /** Bytes that do not go on where the terminal ends are appended to it. */
  lemma Appended(s: System, u: System, f: Frame)
    requires Flows(s) && s.pane.pending.None? && f.Data? && f.bytes != []
    requires u == s.(requests := u.requests, subscribed := u.subscribed, wire := [f])
    requires f.start != s.shown.offset && f.start + |f.bytes| == |Log(s)|
    ensures !Right(Take(u))
  {
    var t := Take(u);
    assert |t.pane.terminal.value| == s.shown.offset - s.origin.value.offset + |f.bytes|;
  }

  /** Bytes of the old subscription arrive before the new attach is answered. */
  lemma MountUpBreaks(s: System) returns (t: System)
    requires StreamInv(s) && s.link.Up? && !Mountable(s)
    ensures LeadsTo(Mount(s), t) && !Right(t)
  {
    if s.subscribed {
      t := MountSubscribedBreaks(s);
    } else if s.wire != [] {
      var m := Mount(s);
      assert m.requests[|s.requests|].Attach?;
      DataFlows(s, m);
      var s1 := FlowsDry(m);
      t := OldThenReplay(s1, |s.requests|);
      GoesFar(m, s1, t);
    } else {
      t := MountTwiceBreaks(s);
    }
  }

  lemma MountSubscribedBreaks(s: System) returns (t: System)
    requires StreamInv(s) && s.link.Up? && !s.announces && s.subscribed
    ensures LeadsTo(Mount(s), t) && !Right(t)
  {
    var m := Mount(s);
    assert m.requests[|s.requests|].Attach?;
    var s1 := MountThenOutput(s);
    var s2 := FlowsDry(s1);
    GoesFar(m, s1, s2);
    t := ReplayAppended(s2, |s.requests|);
    GoesFar(m, s2, t);
  }

  lemma OutputEndsAtLog(s: System)
    requires StreamInv(s) && s.subscribed
    ensures var t := Output(s, [0]);
      && StreamInv(t) && s.evicted < |Log(t)| && t.evicted == s.evicted
      && t.wire != [] && End(t.wire[|t.wire|-1]) == |Log(t)|
  {
    OutputKeeps(s, [0]);
  }

  lemma MountThenOutput(s: System) returns (t: System)
    requires StreamInv(s) && s.link.Up? && !s.announces && s.subscribed
    ensures t == Output(Mount(s), [0]) && LeadsTo(Mount(s), t) && Flows(t)
    ensures s.evicted < |Log(t)| && End(t.wire[|t.wire|-1]) == |Log(t)| && t.wire != [] && t.evicted == s.evicted
  {
    var m := Mount(s);
    OutputEndsAtLog(s);
    t := Output(m, [0]);
    Stays(m);
    Goes(m, m, OutputE([0]));
    MountedOutput(s);
    DataFlows(Output(s, [0]), t);
  }

  lemma MountedOutput(s: System)
    requires s.logs != [] && s.link.Up?
    ensures var t, u := Output(Mount(s), [0]), Output(s, [0]);
      && t.wire == u.wire && t.logs == u.logs && t.announces == u.announces && t.link.Up? && t.evicted == u.evicted
      && t.pane.terminal.Some? && t.pane.pending == Some(AwaitingAck)
  {
  }

  /** An earlier attach has not been answered either. */
  lemma MountTwiceBreaks(s: System) returns (t: System)
    requires StreamInv(s) && s.link.Up? && !s.announces && !s.subscribed && s.wire == [] && !AllDetach(s.requests)
    ensures LeadsTo(Mount(s), t) && !Right(t)
  {
    var m, a := Mount(s), |s.requests|;
    var b :| 0 <= b < a && !s.requests[b].Detach?;
    assert m.requests[b] == s.requests[b] && m.requests[a].Attach?;
    var s1 := Step(m, OutputE([0]));
    Stays(m);
    Goes(m, m, OutputE([0]));
    assert s1.requests[a].Attach? && s1.requests[b].Attach?;
    t := AnsweredTwice(s1, b, a);
    GoesFar(m, s1, t);
  }

  lemma AnsweredTwice(s: System, b: nat, a: nat) returns (t: System)
    requires s.logs != [] && !s.announces && s.link.Up? && s.wire == [] && s.evicted < |Log(s)|
    requires s.pane.terminal.Some? && s.pane.pending == Some(AwaitingAck)
    requires b < a < |s.requests| && s.requests[a].Attach? && s.requests[b].Attach?
    ensures LeadsTo(s, t) && !Right(t)
  {
    var u, k := ServeToAttach(s, b);
    assert u.wire == [Stretch(Log(s), s.evicted)];
    assert u.requests[a - k - 1] == s.requests[a];
    t := AnsweredAgain(s, u, a - k - 1);
  }

  lemma AnsweredAgain(s: System, u: System, a: nat) returns (t: System)
    requires LeadsTo(s, u) && u.logs != [] && !u.announces && u.link.Up? && u.evicted < |Log(u)|
    requires u.wire == [Stretch(Log(u), u.evicted)]
    requires u.pane.terminal.Some? && u.pane.pending == Some(AwaitingAck)
    requires a < |u.requests| && u.requests[a].Attach?
    ensures LeadsTo(s, t) && !Right(t)
  {
    FlowsOn(u);
    var v := Step(u, ReceiveE);
    Goes(s, u, ReceiveE);
    t := ReplayAppended(v, a);
    GoesFar(s, v, t);
  }

  lemma DataFlows(s: System, t: System)
    requires StreamInv(s) && !s.announces && s.wire != []
    requires t.wire == s.wire && t.logs == s.logs && !t.announces && t.link.Up?
    requires t.pane.terminal.Some? && t.pane.pending == Some(AwaitingAck)
    ensures Flows(t)
  {
    forall i | 0 < i < |t.wire| ensures t.wire[i].start == End(t.wire[i-1]) {
      assert Follows(s.wire[i-1], s.wire[i], s.evicted);
    }
  }

  /** The old bytes have arrived; whatever the daemon still holds, more output and one eviction set
      its replay apart from them. */
  lemma OldThenReplay(s: System, a: nat) returns (t: System)
    requires Flows(s) && s.wire == [] && s.pane.pending.None? && !s.subscribed && s.evicted <= |Log(s)|
    requires a < |s.requests| && s.requests[a].Attach?
    ensures LeadsTo(s, t) && !Right(t)
  {
    Stays(s);
    var s1 := Step(s, OutputE([0, 0]));
    Goes(s, s, OutputE([0, 0]));
    Grow(s, [0, 0], s.pane.terminal.value, s.origin.value, s.shown);
    if s.evicted == s.shown.offset {
      var s2 := Step(s1, EvictE(s.evicted + 1));
      Goes(s, s1, EvictE(s.evicted + 1));
      t := ReplayAppended(s2, a);
      GoesFar(s, s2, t);
    } else {
      t := ReplayAppended(s1, a);
      GoesFar(s, s1, t);
    }
  }

  // ---------- Both conditions are exact ----------

  /** From every state of every run: an event leaves terminals right over all that may follow exactly
      when it meets its condition. */
  lemma ConditionsExact(s: System, e: Event)
    requires StreamInv(s)
    ensures Allowed(s, e) <==>
      forall events :: Runs.Legal(Allowed, Step, Step(s, e), events) ==> Right(Runs.After(Step, Step(s, e), events))
  {
    if Allowed(s, e) {
      StepKeeps(s, e);
      forall events | Runs.Legal(Allowed, Step, Step(s, e), events)
        ensures Right(Runs.After(Step, Step(s, e), events))
      {
        StaysRight(Step(s, e), events);
      }
    } else {
      var t := Breaks(s, e);
      var events :| Free(events) && Runs.After(Step, Step(s, e), events) == t;
      FreeIsLegal(Step(s, e), events);
      assert !Right(Runs.After(Step, Step(s, e), events));
    }
  }

  lemma StaysRight(s: System, events: seq<Event>)
    requires StreamInv(s) && Runs.Legal(Allowed, Step, s, events)
    ensures Right(Runs.After(Step, s, events))
  {
    forall t, e | StreamInv(t) && Allowed(t, e) ensures StreamInv(Step(t, e)) {
      StepKeeps(t, e);
    }
    Runs.Invariant(StreamInv, Allowed, Step, s, events);
    InvIsRight(Runs.After(Step, s, events));
  }

  lemma Breaks(s: System, e: Event) returns (t: System)
    requires StreamInv(s) && !Allowed(s, e)
    ensures LeadsTo(Step(s, e), t) && !Right(t)
  {
    match e {
      case DropE => t := DropBreaks(s);
      case MountE =>
        match s.link {
          case Down => t := ColdDelta(Mount(s));
          case Connecting => t := MountConnectingBreaks(s);
          case Up => t := MountUpBreaks(s);
        }
    }
  }
}
