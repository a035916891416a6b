/** `Router` as the source writes it: three tables changed in place, proved session by session
    against `Stream`.  A port is known by what its terminal shows since the last reset. */
module Router {
  import opened Wrappers
  import opened Stream

  // Session names are only compared.
  type Session = nat

  class Router {
    var ports: map<Session, seq<Byte>>
    var watermarks: map<Session, Mark>
    var pendingReplay: map<Session, Pending>

    function View(session: Session): Pane
      reads this
    {
      Pane(if session in ports then Some(ports[session]) else None,
           Known(watermarks, session),
           if session in pendingReplay then Some(pendingReplay[session]) else None)
    }

    constructor ()
      ensures forall session :: View(session) == Pane(None, None, None)
    {
      ports, watermarks, pendingReplay := map[], map[], map[];
    }

    method Post(session: Session, bytes: seq<Byte>, backlog: bool)
      modifies this`ports
      ensures View(session) == Write(old(View(session)), bytes, backlog)
      ensures forall other :: other != session ==> View(other) == old(View(other))
    {
      if session in ports {
        ports := ports[session := if backlog then bytes else ports[session] + bytes];
      }
    }

    method OnFrame(session: Session, frame: Frame)
      modifies this
      ensures View(session) == Receive(old(View(session)), frame)
      ensures forall other :: other != session ==> View(other) == old(View(other))
    {
      match frame
      case Ack(epoch, end, full) =>
        watermarks := watermarks[session := Mark(epoch, end)];
        pendingReplay := pendingReplay[session := if full then FullReplay else DeltaReplay];
      case Data(_, bytes) =>
        if session in pendingReplay {
          var pending := pendingReplay[session];
          pendingReplay := pendingReplay - {session};
          if pending == AwaitingAck {
            watermarks := watermarks - {session};
            Post(session, bytes, true);
            return;
          }
          Post(session, bytes, pending == FullReplay);
          return;
        }
        Post(session, bytes, false);
        if session in watermarks {
          var mark := watermarks[session];
          watermarks := watermarks[session := mark.(offset := mark.offset + |bytes|)];
        }
    }

    method SendAttach(session: Session, newTerminal: bool) returns (request: Request)
      modifies this`pendingReplay
      ensures request == Attach(if newTerminal then None else Known(watermarks, session))
      ensures pendingReplay == old(pendingReplay)[session := AwaitingAck]
    {
      pendingReplay := pendingReplay[session := AwaitingAck];
      return Attach(if newTerminal || session !in watermarks then None else Some(watermarks[session]));
    }

    method AttachPort(session: Session) returns (request: Request)
      modifies this
      ensures (View(session), request) == Mounted(old(View(session)))
      ensures forall other :: other != session ==> View(other) == old(View(other))
    {
      ports := ports[session := []];
      request := SendAttach(session, true);
    }

    /** Every session with a port is attached again, each with its own watermark; no other changes. */
    method ReattachAll() returns (sent: map<Session, Request>)
      modifies this`pendingReplay
      ensures sent.Keys == ports.Keys
      ensures forall session :: session in ports ==> (View(session), sent[session]) == Reattached(old(View(session)))
      ensures forall session :: session !in ports ==> View(session) == old(View(session))
    {
      sent := ReattachEach(ports.Keys);
      assert pendingReplay == Armed(old(pendingReplay), ports.Keys);
    }

    method ReattachEach(sessions: set<Session>) returns (sent: map<Session, Request>)
      modifies this`pendingReplay
      ensures sent == Attaches(watermarks, sessions)
      ensures pendingReplay == Armed(old(pendingReplay), sessions)
    {
      sent := map[];
      var todo := sessions;
      ghost var done := {};
      assert sent == Attaches(watermarks, done) && pendingReplay == Armed(pendingReplay, done);
      while todo != {}
        invariant done + todo == sessions
        invariant sent == Attaches(watermarks, done) && pendingReplay == Armed(old(pendingReplay), done)
        decreases |todo|
      {
        var session :| session in todo;
        OneMore(watermarks, old(pendingReplay), done, session);
        todo := todo - {session};
        done := done + {session};
        var request := SendAttach(session, false);
        sent := sent[session := request];
      }
    }

    method DetachPort(session: Session) returns (request: Option<Request>)
      modifies this
      ensures old(View(session)).terminal.None? ==> request == None && View(session) == old(View(session))
      ensures old(View(session)).terminal.Some? ==>
        request == Some(Detach) && View(session) == Unmounted(old(View(session)))
      ensures forall other :: other != session ==> View(other) == old(View(other))
    {
      if session !in ports { return None; }
      ports := ports - {session};
      pendingReplay := pendingReplay - {session};
      return Some(Detach);
    }
  }

  function Known(watermarks: map<Session, Mark>, session: Session): Option<Mark> {
    if session in watermarks then Some(watermarks[session]) else None
  }

  /** The table once the given sessions await an announcement. */
  function Armed(pending: map<Session, Pending>, sent: set<Session>): map<Session, Pending> {
    map session | session in pending.Keys + sent :: if session in sent then AwaitingAck else pending[session]
  }

  function Attaches(watermarks: map<Session, Mark>, sent: set<Session>): map<Session, Request> {
    map session | session in sent :: Attach(Known(watermarks, session))
  }

  lemma OneMore(watermarks: map<Session, Mark>, pending: map<Session, Pending>, done: set<Session>, session: Session)
    ensures Armed(pending, done)[session := AwaitingAck] == Armed(pending, done + {session})
    ensures Attaches(watermarks, done)[session := Attach(Known(watermarks, session))] ==
      Attaches(watermarks, done + {session})
  {
  }
}
