/** Presses and releases balance, and a failure says honestly whether any input was sent. */
module InteractionProofs {
  import opened Wrappers
  import opened Interaction

  // ---------- What is held ----------

  /** A press was sent at `i` and no answered release of it followed. */
  predicate OwedFrom(log: seq<Sent>, d: Device, i: nat) {
    && i < |log| && log[i].input == Down(d)
    && forall j :: i < j < |log| ==> log[j] != Sent(Up(d), true)
  }

  ghost predicate Owed(log: seq<Sent>, d: Device) {
    exists i: nat :: OwedFrom(log, d, i)
  }

  predicate Distinct(held: seq<Device>) {
    forall i, j :: 0 <= i < j < |held| ==> held[i] != held[j]
  }

  lemma {:induction false} WithoutIs(held: seq<Device>, d: Device)
    requires Distinct(held)
    ensures Distinct(Without(held, d))
    ensures forall x :: x in Without(held, d) <==> x in held && x != d
  {
    if held != [] {
      WithoutIs(held[1..], d);
      assert forall x :: x in held <==> x == held[0] || x in held[1..];
      if held[0] != d {
        var rest := Without(held[1..], d);
        forall i | 0 <= i < |rest| ensures rest[i] != held[0] {
          assert rest[i] in rest;
        }
      }
    }
  }

  /** `held` lists, without repetition, the devices of its kind that still owe a release. */
  ghost predicate Tracks(held: seq<Device>, log: seq<Sent>, keys: bool) {
    Distinct(held) && forall d :: d in held <==> d.Key? == keys && Owed(log, d)
  }

  lemma OwedGrows(log: seq<Sent>, e: Sent, d: Device)
    ensures Owed(log + [e], d) <==> e.input == Down(d) || (Owed(log, d) && e != Sent(Up(d), true))
  {
    var more := log + [e];
    if e.input == Down(d) {
      assert OwedFrom(more, d, |log|);
    } else if Owed(log, d) && e != Sent(Up(d), true) {
      var i: nat :| OwedFrom(log, d, i);
      assert OwedFrom(more, d, i);
    }
    if Owed(more, d) && e.input != Down(d) {
      var i: nat :| OwedFrom(more, d, i);
      assert more[|log|] == e;
      forall j | i < j < |log| ensures log[j] != Sent(Up(d), true) {
        assert more[j] == log[j];
      }
      assert OwedFrom(log, d, i);
    }
  }

  lemma TracksAfter(held: seq<Device>, log: seq<Sent>, e: Sent, keys: bool)
    requires Tracks(held, log, keys)
    ensures Tracks(HeldAfter(held, e, keys), log + [e], keys)
  {
    forall d ensures Owed(log + [e], d) <==> e.input == Down(d) || (Owed(log, d) && e != Sent(Up(d), true)) {
      OwedGrows(log, e, d);
    }
    if e.input.Up? {
      WithoutIs(held, e.input.device);
    }
  }

  ghost predicate GestureInv(g: Gesture) {
    && Tracks(g.heldButtons, g.log, false) && Tracks(g.heldKeys, g.log, true)
    && (g.dispatched <==> g.log != [])
  }

  lemma ActKeeps(g: Gesture, a: Action, oracle: Oracle)
    requires GestureInv(g)
    ensures GestureInv(Act(g, a, oracle).0)
  {
    if a.Send? && !oracle(g.clock).Stopped? {
      var e := Sent(a.input, oracle(g.clock).Answered?);
      TracksAfter(g.heldButtons, g.log, e, false);
      TracksAfter(g.heldKeys, g.log, e, true);
    }
  }

  lemma {:induction false} RunKeeps(g: Gesture, script: seq<Action>, oracle: Oracle)
    requires GestureInv(g)
    ensures GestureInv(Run(g, script, oracle).0)
    decreases |script|
  {
    if script != [] {
      ActKeeps(g, script[0], oracle);
      RunKeeps(Act(g, script[0], oracle).0, script[1..], oracle);
    }
  }

  lemma FreshInv()
    ensures GestureInv(Fresh)
  {
  }

  // ---------- Balance ----------

  lemma {:induction false} ReversedIs(s: seq<Device>)
    ensures |Reversed(s)| == |s|
    ensures forall k :: 0 <= k < |s| ==> Reversed(s)[k] == s[|s| - 1 - k]
  {
    if s != [] {
      ReversedIs(s[1..]);
    }
  }

  lemma CleanupHolds(g: Gesture, d: Device)
    requires d in g.heldButtons || d in g.heldKeys
    ensures Up(d) in Cleanup(g, true)
  {
    var a, b := Releases(g.heldButtons), Releases(Reversed(g.heldKeys));
    if d in g.heldButtons {
      var i :| 0 <= i < |g.heldButtons| && g.heldButtons[i] == d;
      assert (a + b)[i] == Up(d);
    } else {
      ReversedIs(g.heldKeys);
      var i :| 0 <= i < |g.heldKeys| && g.heldKeys[i] == d;
      assert Reversed(g.heldKeys)[|g.heldKeys| - 1 - i] == d;
      assert b[|g.heldKeys| - 1 - i] == Up(d);
      assert (a + b)[|a| + (|g.heldKeys| - 1 - i)] == Up(d);
    }
  }

  /** Whatever is attempted and wherever it fails: every press that was sent is followed by a release
      that was answered, or is released by the cleanup; and the cleanup releases nothing else. */
  lemma PressesAreReleased(script: seq<Action>, oracle: Oracle, i: nat, d: Device)
    requires var g := Run(Fresh, script, oracle).0; i < |g.log| && g.log[i].input == Down(d)
    ensures var g := Run(Fresh, script, oracle).0;
      || (exists j :: i < j < |g.log| && g.log[j] == Sent(Up(d), true))
      || Up(d) in Cleanup(g, true)
  {
    FreshInv();
    RunKeeps(Fresh, script, oracle);
    var g := Run(Fresh, script, oracle).0;
    if forall j :: i < j < |g.log| ==> g.log[j] != Sent(Up(d), true) {
      assert OwedFrom(g.log, d, i);
      assert Owed(g.log, d);
      CleanupHolds(g, d);
    }
  }

  lemma CleanupOnlyReleases(script: seq<Action>, oracle: Oracle, attached: bool, u: Input)
    requires u in Cleanup(Run(Fresh, script, oracle).0, attached)
    ensures u.Up? && Owed(Run(Fresh, script, oracle).0.log, u.device)
  {
    FreshInv();
    RunKeeps(Fresh, script, oracle);
    CleanupHeld(Run(Fresh, script, oracle).0, attached, u);
  }

  lemma CleanupHeld(g: Gesture, attached: bool, u: Input)
    requires u in Cleanup(g, attached)
    ensures u.Up? && (u.device in g.heldButtons || u.device in g.heldKeys)
  {
    var a, b := Releases(g.heldButtons), Releases(Reversed(g.heldKeys));
    assert u in a + b;
    if u in a {
      ReleasesAre(g.heldButtons, u);
    } else {
      ReleasesAre(Reversed(g.heldKeys), u);
      ReversedMembers(g.heldKeys);
    }
  }

  lemma {:induction false} ReversedMembers(held: seq<Device>)
    ensures forall d :: d in Reversed(held) <==> d in held
  {
    if held != [] {
      ReversedMembers(held[1..]);
      assert held == [held[0]] + held[1..];
    }
  }

  lemma ReleasesAre(held: seq<Device>, u: Input)
    requires u in Releases(held)
    ensures u.Up? && u.device in held
  {
    var i :| 0 <= i < |Releases(held)| && Releases(held)[i] == u;
    assert held[i] in held;
  }

  // ---------- Honesty ----------

  /** A rejection that does not say "no rollback" means that no input event was sent at all; and one
      that says so means that some was, or that the gesture was complete. */
  lemma FailuresAreHonest(op: Operation, oracle: Oracle, around: Around)
    ensures var (reply, g) := RunAutomation(op, oracle, around);
      && (reply == Rejected(false) ==> g.log == [])
      && (reply == Rejected(true) ==> g.log != [] || Execute(op, oracle) == (g, true))
  {
    FreshInv();
    RunKeeps(Fresh, Script(op) + [Check], oracle);
  }

  // ---------- Complete gestures ----------

  predicate Clean(g: Gesture) {
    g.heldButtons == [] && g.heldKeys == []
  }

  predicate Only(g: Gesture, d: Device) {
    if d.Key? then g.heldButtons == [] && g.heldKeys == [d] else g.heldButtons == [d] && g.heldKeys == []
  }

  lemma {:induction false} RunConcat(g: Gesture, a: seq<Action>, b: seq<Action>, oracle: Oracle)
    ensures Run(g, a + b, oracle) ==
      var (h, ok) := Run(g, a, oracle); if ok then Run(h, b, oracle) else (h, false)
    decreases |a|
  {
    if a == [] {
      assert a + b == b;
    } else {
      assert (a + b)[0] == a[0] && (a + b)[1..] == a[1..] + b;
      RunConcat(Act(g, a[0], oracle).0, a[1..], b, oracle);
    }
  }

  predicate Neutral(script: seq<Action>) {
    forall i :: 0 <= i < |script| && script[i].Send? ==> !script[i].input.Down? && !script[i].input.Up?
  }

  lemma {:induction false} NeutralHolds(g: Gesture, script: seq<Action>, oracle: Oracle)
    requires Neutral(script)
    ensures Run(g, script, oracle).0.heldButtons == g.heldButtons && Run(g, script, oracle).0.heldKeys == g.heldKeys
    decreases |script|
  {
    if script != [] {
      NeutralHolds(Act(g, script[0], oracle).0, script[1..], oracle);
    }
  }

  lemma {:induction false} PathNeutral(n: nat)
    ensures Neutral(Path(n))
  {
    if n > 1 {
      PathNeutral(n - 1);
    }
  }

  /** A press, anything that touches no other device, and the release. */
  lemma HoldAndRelease(g: Gesture, d: Device, during: seq<Action>, oracle: Oracle)
    requires Clean(g) && Neutral(during)
    ensures var (h, ok) := Run(g, [Send(Down(d))] + during + [Send(Up(d))], oracle); ok ==> Clean(h)
  {
    RunConcat(g, [Send(Down(d))] + during, [Send(Up(d))], oracle);
    RunConcat(g, [Send(Down(d))], during, oracle);
    var (h, ok) := Run(g, [Send(Down(d))], oracle);
    assert [Send(Down(d))][1..] == [] && [Send(Up(d))][1..] == [];
    NeutralHolds(h, during, oracle);
    var (k, ok') := Run(h, during, oracle);
    if ok && ok' {
      assert Only(k, d);
      assert Without([d], d) == [];
    }
  }

  /** A script that, run to its end from nothing held, leaves nothing held. */
  ghost predicate Closed(script: seq<Action>) {
    forall g, oracle :: Clean(g) && Run(g, script, oracle).1 ==> Clean(Run(g, script, oracle).0)
  }

  lemma ClosedConcat(a: seq<Action>, b: seq<Action>)
    requires Closed(a) && Closed(b)
    ensures Closed(a + b)
  {
    forall g, oracle | Clean(g) && Run(g, a + b, oracle).1 ensures Clean(Run(g, a + b, oracle).0) {
      RunConcat(g, a, b, oracle);
    }
  }

  lemma NeutralClosed(a: seq<Action>)
    requires Neutral(a)
    ensures Closed(a)
  {
    forall g, oracle | Clean(g) ensures Clean(Run(g, a, oracle).0) {
      NeutralHolds(g, a, oracle);
    }
  }

  lemma HoldClosed(d: Device, during: seq<Action>)
    requires Neutral(during)
    ensures Closed([Send(Down(d))] + during + [Send(Up(d))])
  {
    forall g, oracle | Clean(g)
      ensures var (h, ok) := Run(g, [Send(Down(d))] + during + [Send(Up(d))], oracle); ok ==> Clean(h)
    {
      HoldAndRelease(g, d, during, oracle);
    }
  }

  lemma TapClosed(d: Device)
    ensures Closed(Tap(d))
  {
    HoldClosed(d, []);
    assert [Send(Down(d))] + [] + [Send(Up(d))] == Tap(d);
  }

  lemma {:induction false} ClicksClosed(d: Device, n: nat)
    ensures Closed(Clicks(d, n))
  {
    if n == 0 {
      NeutralClosed([]);
    } else {
      ClicksClosed(d, n - 1);
      var between := if n > 1 then [Check] else [];
      NeutralClosed(between);
      ClosedConcat(Clicks(d, n - 1), between);
      HoldClosed(d, [Check]);
      assert [Send(Down(d))] + [Check] + [Send(Up(d))] == [Send(Down(d)), Check, Send(Up(d))];
      ClosedConcat(Clicks(d, n - 1) + between, [Send(Down(d)), Check, Send(Up(d))]);
    }
  }

  lemma PointerClosed(p: Pointer, points: nat)
    ensures Closed(PointerScript(p, points))
  {
    PathNeutral(points);
    match p
    case TypeFocused => NeutralClosed(PointerScript(p, points));
    case MouseMove => NeutralClosed(PointerScript(p, points));
    case MouseScroll => NeutralClosed(PointerScript(p, points));
    case MouseClick(button, count) =>
      NeutralClosed([Check] + Path(points) + [Check]);
      ClicksClosed(Button(button), count);
      ClosedConcat([Check] + Path(points) + [Check], Clicks(Button(button), count));
    case MouseDrag =>
      NeutralClosed([Check] + [Send(Move)] + [Check]);
      HoldClosed(Left, Path(points) + [Check]);
      ClosedConcat([Check] + [Send(Move)] + [Check], [Send(Down(Left))] + (Path(points) + [Check]) + [Send(Up(Left))]);
      assert PointerScript(p, points)
        == [Check] + [Send(Move)] + [Check] + ([Send(Down(Left))] + (Path(points) + [Check]) + [Send(Up(Left))]);
  }

  lemma FocusClosed(t: Target)
    ensures Closed([Check] + Focus(t))
  {
    NeutralClosed([Check]);
    NeutralClosed([]);
    TapClosed(Left);
    ClosedConcat([Check], Focus(t));
  }

  lemma ScriptClosed(op: Operation)
    ensures Closed(Script(op))
  {
    NeutralClosed([Check]);
    TapClosed(Left);
    match op
    case PointerOp(p, points) =>
      PointerClosed(p, points);
      ClosedConcat([Check], PointerScript(p, points));
    case Press(target, key) =>
      TapClosed(Key(key));
      if target.Some? {
        FocusClosed(target.value);
        ClosedConcat([Check] + Focus(target.value), Tap(Key(key)));
      }
    case Click(target) => if target.Some? { ClosedConcat([Check], Tap(Left)); } else { NeutralClosed([Fail]); }
    case Fill(target, replace) =>
      if target.Some? {
        var select := if replace then Tap(KeyA) else [];
        FocusClosed(target.value);
        TapClosed(KeyA);
        NeutralClosed([]);
        ClosedConcat([Check] + Focus(target.value), select);
        NeutralClosed([Send(Text)]);
        ClosedConcat([Check] + Focus(target.value) + select, [Send(Text)]);
      } else {
        NeutralClosed([Fail]);
      }
    case Select(target, values) =>
      if target.Some? {
        var start := [Check] + if values != 1 then [Fail] else [];
        NeutralClosed(start);
        ClosedConcat(start, Tap(Left));
        NeutralClosed([Send(Text)]);
        ClosedConcat(start + Tap(Left), [Send(Text)]);
        TapClosed(Enter);
        ClosedConcat(start + Tap(Left) + [Send(Text)], Tap(Enter));
      } else {
        NeutralClosed([Fail]);
      }
    case SetChecked(target, desired) =>
      NeutralClosed([Fail]);
      NeutralClosed([]);
      if target.Some? {
        ClosedConcat([Check], [Fail]);
        ClosedConcat([Check], Tap(Left));
        ClosedConcat([Check], []);
      }
    case Drag(target, secondary) => DragClosed(op);
    case Hover(_) => NeutralClosed(Script(op));
    case Scroll(_) => NeutralClosed(Script(op));
  }

  lemma DragClosed(op: Operation)
    requires op.Drag?
    ensures Closed(Script(op))
  {
    if op.target.Some? && op.secondary {
      NeutralClosed([Check] + [Send(Move)]);
      HoldClosed(Left, [Check] + [Send(Move)]);
      var hold := [Send(Down(Left))] + ([Check] + [Send(Move)]) + [Send(Up(Left))];
      ClosedConcat([Check] + [Send(Move)], hold);
      assert Script(op) == [Check] + [Send(Move)] + hold;
    } else {
      NeutralClosed([Fail]);
    }
  }

  /** Every operation that runs to its end has released what it pressed, so its cleanup is silent. */
  lemma CompleteGestureHoldsNothing(op: Operation, oracle: Oracle)
    ensures Execute(op, oracle).1 ==> Cleanup(Execute(op, oracle).0, true) == []
  {
    ScriptClosed(op);
    NeutralClosed([Check]);
    ClosedConcat(Script(op), [Check]);
    assert Clean(Fresh);
    if Execute(op, oracle).1 {
      assert Clean(Execute(op, oracle).0);
    }
  }
}
