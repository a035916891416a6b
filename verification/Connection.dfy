/** `Connection` as the source writes it: handlers that change the current socket in place. */
module Connection {
  import opened Wrappers
  import L = Link
  import LinkProofs

  class Connection {
    var socket: Option<L.Epoch>
    var epoch: L.Epoch
    var attempt: nat
    var closed: bool
    var timers: seq<(L.Epoch, nat)>
    var told: seq<L.Told>

    function Model(): L.Connection
      reads this
    {
      L.Connection(socket, epoch, attempt, closed, timers, told)
    }

    constructor ()
      ensures Model() == L.Start
    {
      socket, epoch, attempt, closed, timers, told := None, 0, 0, false, [], [];
    }

    method Connect()
      modifies this
      ensures Model() == L.Connect(old(Model()))
      ensures L.LinkInv(old(Model())) ==> L.LinkInv(Model())
    {
      if L.LinkInv(Model()) { LinkProofs.StepKeeps(Model(), L.ConnectE); }
      if closed { return; }
      epoch := epoch + 1;
      socket := Some(epoch);
    }

    method OnSocketOpen(of: L.Epoch)
      modifies this
      ensures Model() == L.Step(old(Model()), L.SocketOpenE(of))
      ensures L.LinkInv(old(Model())) ==> L.LinkInv(Model())
    {
      if L.LinkInv(Model()) { LinkProofs.StepKeeps(Model(), L.SocketOpenE(of)); }
      if closed || socket != Some(of) { return; }
      attempt := 0;
      told := told + [L.Opened(of)];
    }

    method OnSocketData(of: L.Epoch, frames: nat)
      modifies this
      ensures Model() == L.Step(old(Model()), L.SocketDataE(of, frames))
      ensures L.LinkInv(old(Model())) ==> L.LinkInv(Model())
    {
      if L.LinkInv(Model()) { LinkProofs.StepKeeps(Model(), L.SocketDataE(of, frames)); }
      if closed || socket != Some(of) { return; }
      var i := 0;
      while i < frames
        invariant i <= frames && told == old(told) + L.Frames(of, i)
        invariant Model() == old(Model()).(told := told)
      {
        told := told + [L.Frame(of)];
        i := i + 1;
      }
    }

    method OnSocketClose(of: L.Epoch)
      modifies this
      ensures Model() == L.Step(old(Model()), L.SocketCloseE(of))
      ensures L.LinkInv(old(Model())) ==> L.LinkInv(Model())
    {
      if L.LinkInv(Model()) { LinkProofs.StepKeeps(Model(), L.SocketCloseE(of)); }
      if closed || socket != Some(of) { return; }
      socket := None;
      told := told + [L.Closed(of)];
      ScheduleReconnect(of);
    }

    method ScheduleReconnect(of: L.Epoch)
      requires !closed
      modifies this`timers, this`attempt
      ensures timers == old(timers) + [(of, L.Delay(old(attempt)))] && attempt == old(attempt) + 1
    {
      timers := timers + [(of, L.Delay(attempt))];
      attempt := attempt + 1;
    }

    method OnTimer(i: nat)
      requires i < |timers|
      modifies this
      ensures Model() == L.Step(old(Model()), L.TimerE(i))
      ensures L.LinkInv(old(Model())) ==> L.LinkInv(Model())
    {
      if L.LinkInv(Model()) { LinkProofs.StepKeeps(Model(), L.TimerE(i)); }
      var (of, _) := timers[i];
      timers := timers[..i] + timers[i+1..];
      if !closed && epoch == of {
        Connect();
      }
    }

    method Close()
      modifies this
      ensures Model() == L.Step(old(Model()), L.CloseE)
      ensures L.LinkInv(old(Model())) ==> L.LinkInv(Model())
    {
      if L.LinkInv(Model()) { LinkProofs.StepKeeps(Model(), L.CloseE); }
      closed := true;
      socket := None;
    }
  }
}
