/** `executeInteraction` and `dispatchPointer` as the source writes them: calls that change what is
    held, proved against the scripts of `Interaction`.

    `thrown` is an exception on its way to the cleanup; it skips whatever would come before that.
    A call is given what has been scripted so far (`past`, from `origin`) and adds its own part.
 */
module BrowserAutomation {
  import opened Wrappers
  import opened Interaction
  import opened InteractionProofs

  class Automation {
    const oracle: Oracle
    var log: seq<Sent>
    var heldButtons: seq<Device>
    var heldKeys: seq<Device>
    var dispatched: bool
    var clock: nat
    var thrown: bool
    var released: seq<Input>

    function State(): (Gesture, bool)
      reads this
    {
      (Gesture(log, heldButtons, heldKeys, dispatched, clock), !thrown)
    }

    constructor (oracle: Oracle)
      ensures State() == (Fresh, true) && released == [] && this.oracle == oracle
    {
      this.oracle := oracle;
      log, heldButtons, heldKeys, dispatched, clock := [], [], [], false, 0;
      thrown, released := false, [];
    }

    method Throw(ghost origin: (Gesture, bool), ghost past: seq<Action>)
      requires State() == Continue(origin, past, oracle)
      modifies this
      ensures State() == Continue(origin, past + [Fail], oracle) && released == old(released)
    {
      OneMore(origin, past, Fail, oracle);
      if thrown { return; }
      clock := clock + 1;
      thrown := true;
    }

    /** A pause, a verification, or any other look at the page that can end the interaction. */
    method Ensure(ghost origin: (Gesture, bool), ghost past: seq<Action>)
      requires State() == Continue(origin, past, oracle)
      modifies this
      ensures State() == Continue(origin, past + [Check], oracle) && released == old(released)
    {
      OneMore(origin, past, Check, oracle);
      if thrown { return; }
      thrown := oracle(clock).Stopped?;
      clock := clock + 1;
    }

    method SendIrreversible(input: Input, ghost origin: (Gesture, bool), ghost past: seq<Action>)
      requires State() == Continue(origin, past, oracle)
      modifies this
      ensures State() == Continue(origin, past + [Send(input)], oracle) && released == old(released)
    {
      OneMore(origin, past, Send(input), oracle);
      if thrown { return; }
      var fate := oracle(clock);
      clock := clock + 1;
      if fate.Stopped? {
        thrown := true;
        return;
      }
      if input.Down? {
        if input.device.Key? {
          heldKeys := With(heldKeys, input.device);
        } else {
          heldButtons := With(heldButtons, input.device);
        }
      }
      dispatched := true;
      log := log + [Sent(input, fate.Answered?)];
      if fate.Lost? {
        thrown := true;
        return;
      }
      if input.Up? {
        if input.device.Key? {
          heldKeys := Without(heldKeys, input.device);
        } else {
          heldButtons := Without(heldButtons, input.device);
        }
      }
    }

    /** A click, or a key pressed and released. */
    method PressAndRelease(d: Device, ghost origin: (Gesture, bool), ghost past: seq<Action>)
      requires State() == Continue(origin, past, oracle)
      modifies this
      ensures State() == Continue(origin, past + Tap(d), oracle) && released == old(released)
    {
      SendIrreversible(Down(d), origin, past);
      SendIrreversible(Up(d), origin, past + [Send(Down(d))]);
      assert past + [Send(Down(d))] + [Send(Up(d))] == past + Tap(d);
    }

    method MovePath(points: nat, ghost origin: (Gesture, bool), ghost past: seq<Action>)
      requires State() == Continue(origin, past, oracle)
      modifies this
      ensures State() == Continue(origin, past + Path(points), oracle) && released == old(released)
    {
      assert past + [] == past;
      var index := 0;
      ghost var done: seq<Action> := [];
      while index < points
        invariant index <= points && released == old(released)
        invariant done == if 0 < index < points then Path(index) + [Check] else Path(index)
        invariant State() == Continue(origin, past + done, oracle)
      {
        SendIrreversible(Move, origin, past + done);
        assert past + done + [Send(Move)] == past + (done + [Send(Move)]);
        done := done + [Send(Move)];
        assert done == Path(index + 1);
        if index + 1 < points {
          Ensure(origin, past + done);
          assert past + done + [Check] == past + (done + [Check]);
          done := done + [Check];
        }
        index := index + 1;
      }
    }

    method ClickTimes(d: Device, times: nat, ghost origin: (Gesture, bool), ghost past: seq<Action>)
      requires State() == Continue(origin, past, oracle)
      modifies this
      ensures State() == Continue(origin, past + Clicks(d, times), oracle) && released == old(released)
    {
      assert past + [] == past;
      var count := 1;
      ghost var done: seq<Action> := [];
      while count <= times
        invariant 1 <= count <= times + 1 && released == old(released) && done == Clicks(d, count - 1)
        invariant State() == Continue(origin, past + done, oracle)
      {
        ghost var now := past + done;
        if count > 1 {
          Ensure(origin, now);
          now := now + [Check];
        }
        SendIrreversible(Down(d), origin, now);
        Ensure(origin, now + [Send(Down(d))]);
        SendIrreversible(Up(d), origin, now + [Send(Down(d))] + [Check]);
        done := Clicks(d, count);
        assert now + [Send(Down(d))] + [Check] + [Send(Up(d))] == past + done;
        count := count + 1;
      }
    }

    method ClickAt(button: nat, count: nat, points: nat, ghost origin: (Gesture, bool), ghost past: seq<Action>)
      requires State() == Continue(origin, past, oracle)
      modifies this
      ensures State() == Continue(origin, past + PointerScript(MouseClick(button, count), points), oracle)
      ensures released == old(released)
    {
      Ensure(origin, past);
      MovePath(points, origin, past + [Check]);
      Ensure(origin, past + [Check] + Path(points));
      ClickTimes(Button(button), count, origin, past + [Check] + Path(points) + [Check]);
      assert past + [Check] + Path(points) + [Check] + Clicks(Button(button), count)
          == past + PointerScript(MouseClick(button, count), points);
    }

    method Drag(points: nat, ghost origin: (Gesture, bool), ghost past: seq<Action>)
      requires State() == Continue(origin, past, oracle)
      modifies this
      ensures State() == Continue(origin, past + PointerScript(MouseDrag, points), oracle) && released == old(released)
    {
      Ensure(origin, past);
      SendIrreversible(Move, origin, past + [Check]);
      Ensure(origin, past + [Check] + [Send(Move)]);
      ghost var pressed := past + [Check] + [Send(Move)] + [Check];
      SendIrreversible(Down(Left), origin, pressed);
      MovePath(points, origin, pressed + [Send(Down(Left))]);
      Ensure(origin, pressed + [Send(Down(Left))] + Path(points));
      SendIrreversible(Up(Left), origin, pressed + [Send(Down(Left))] + Path(points) + [Check]);
      assert pressed + [Send(Down(Left))] + Path(points) + [Check] + [Send(Up(Left))]
          == past + PointerScript(MouseDrag, points);
    }

    method DispatchPointer(p: Pointer, points: nat, ghost origin: (Gesture, bool), ghost past: seq<Action>)
      requires State() == Continue(origin, past, oracle)
      modifies this
      ensures State() == Continue(origin, past + PointerScript(p, points), oracle) && released == old(released)
    {
      match p
      case TypeFocused =>
        Ensure(origin, past);
        SendIrreversible(Text, origin, past + [Check]);
        assert past + [Check] + [Send(Text)] == past + PointerScript(p, points);
      case MouseMove => MovePath(points, origin, past);
      case MouseScroll =>
        SendIrreversible(Move, origin, past);
        SendIrreversible(Wheel, origin, past + [Send(Move)]);
        assert past + [Send(Move)] + [Send(Wheel)] == past + PointerScript(p, points);
      case MouseClick(button, count) => ClickAt(button, count, points, origin, past);
      case MouseDrag => Drag(points, origin, past);
    }

    method FocusFirst(t: Target, ghost origin: (Gesture, bool), ghost past: seq<Action>)
      requires State() == Continue(origin, past, oracle)
      modifies this
      ensures State() == Continue(origin, past + Focus(t), oracle) && released == old(released)
    {
      assert past + [] == past;
      if !t.focused {
        PressAndRelease(Left, origin, past);
      }
    }

    /** The operations on located targets, from the located target on. */
    method Operate(op: Operation, ghost origin: (Gesture, bool))
      requires State() == origin
      modifies this
      ensures State() == Continue(origin, Script(op), oracle) && released == old(released)
    {
      match op
      case PointerOp(p, points) =>
        Ensure(origin, []);
        DispatchPointer(p, points, origin, [] + [Check]);
        assert [] + [Check] + PointerScript(p, points) == Script(op);
      case Press(target, key) =>
        if target.Some? {
          Ensure(origin, []);
          FocusFirst(target.value, origin, [] + [Check]);
          PressAndRelease(Key(key), origin, [] + [Check] + Focus(target.value));
          assert [] + [Check] + Focus(target.value) + Tap(Key(key)) == Script(op);
        } else {
          PressAndRelease(Key(key), origin, []);
          assert [] + Tap(Key(key)) == Script(op);
        }
      case Scroll(target) =>
        if target.Some? {
          Ensure(origin, []);
          SendIrreversible(Wheel, origin, [] + [Check]);
          assert [] + [Check] + [Send(Wheel)] == Script(op);
        } else {
          SendIrreversible(Wheel, origin, []);
          assert [] + [Send(Wheel)] == Script(op);
        }
      case _ => OperateOnTarget(op, origin);
    }

    method OperateOnTarget(op: Operation, ghost origin: (Gesture, bool))
      requires State() == origin && !op.PointerOp? && !op.Press? && !op.Scroll?
      modifies this
      ensures State() == Continue(origin, Script(op), oracle) && released == old(released)
    {
      if op.target.None? {
        Throw(origin, []);
        assert [] + [Fail] == Script(op);
        return;
      }
      match op
      case Click(_) =>
        Ensure(origin, []);
        PressAndRelease(Left, origin, [] + [Check]);
        assert [] + [Check] + Tap(Left) == Script(op);
      case Hover(_) =>
        Ensure(origin, []);
        SendIrreversible(Move, origin, [] + [Check]);
        assert [] + [Check] + [Send(Move)] == Script(op);
      case Fill(target, replace) =>
        Ensure(origin, []);
        ghost var past := [] + [Check];
        FocusFirst(target.value, origin, past);
        past := past + Focus(target.value);
        assert past + [] == past;
        if replace {
          PressAndRelease(KeyA, origin, past);
        }
        past := past + if replace then Tap(KeyA) else [];
        SendIrreversible(Text, origin, past);
        assert past + [Send(Text)] == Script(op);
      case Select(_, values) =>
        Ensure(origin, []);
        ghost var past := [] + [Check];
        assert past + [] == past;
        if values != 1 {
          Throw(origin, past);
        }
        past := past + if values != 1 then [Fail] else [];
        PressAndRelease(Left, origin, past);
        SendIrreversible(Text, origin, past + Tap(Left));
        PressAndRelease(Enter, origin, past + Tap(Left) + [Send(Text)]);
        assert past + Tap(Left) + [Send(Text)] + Tap(Enter) == Script(op);
      case SetChecked(target, desired) =>
        Ensure(origin, []);
        ghost var past := [] + [Check];
        assert past + [] == past;
        if target.value.isChecked.None? {
          Throw(origin, past);
        } else if target.value.isChecked.value != desired {
          PressAndRelease(Left, origin, past);
        }
      case Drag(_, secondary) =>
        if !secondary {
          Throw(origin, []);
          assert [] + [Fail] == Script(op);
          return;
        }
        Ensure(origin, []);
        SendIrreversible(Move, origin, [] + [Check]);
        ghost var past := [] + [Check] + [Send(Move)];
        SendIrreversible(Down(Left), origin, past);
        Ensure(origin, past + [Send(Down(Left))]);
        past := past + [Send(Down(Left))] + [Check];
        SendIrreversible(Move, origin, past);
        SendIrreversible(Up(Left), origin, past + [Send(Move)]);
        assert past + [Send(Move)] + [Send(Up(Left))] == Script(op);
    }

    /** The interaction and its cleanup, which no exception skips. */
    method ExecuteInteraction(op: Operation, attached: bool) returns (ok: bool)
      requires State() == (Fresh, true) && released == []
      modifies this
      ensures (State().0, ok) == Execute(op, oracle)
      ensures released == Cleanup(State().0, attached)
    {
      Operate(op, (Fresh, true));
      Ensure((Fresh, true), Script(op));
      ok := !thrown;
      if attached {
        ReleaseHeld();
      }
    }

    method ReleaseHeld()
      requires released == []
      modifies this`released
      ensures released == Cleanup(State().0, true)
    {
      var i := 0;
      while i < |heldButtons|
        invariant i <= |heldButtons| && released == Releases(heldButtons)[..i]
      {
        released := released + [Up(heldButtons[i])];
        i := i + 1;
      }
      i := |heldKeys|;
      ReversedIs(heldKeys);
      while i > 0
        invariant 0 <= i <= |heldKeys|
        invariant released == Releases(heldButtons) + Releases(Reversed(heldKeys))[..|heldKeys| - i]
      {
        i := i - 1;
        assert Releases(Reversed(heldKeys))[|heldKeys| - 1 - i] == Up(heldKeys[i]);
        released := released + [Up(heldKeys[i])];
      }
    }
  }

  lemma OneMore(origin: (Gesture, bool), past: seq<Action>, a: Action, oracle: Oracle)
    ensures Continue(origin, past + [a], oracle) ==
      var s := Continue(origin, past, oracle); if s.1 then Act(s.0, a, oracle) else s
  {
    if origin.1 {
      RunConcat(origin.0, past, [a], oracle);
      assert [a][1..] == [];
    }
  }
}
