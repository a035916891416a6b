/** The input events of one interaction, under any pattern of failures.

    A gesture is a script of actions.  Before each event and at each check the interaction may be
    stopped (cancelled, out of time, another document); an event that is sent may be answered or its
    answer may be lost, which does not mean that the page has not seen it.
 */
module Interaction {
  import opened Wrappers

  datatype Device = Button(button: nat) | Key(code: nat)
  datatype Input = Down(device: Device) | Up(device: Device) | Move | Wheel | Text
  datatype Action = Send(input: Input) | Check | Fail

  datatype Fate = Stopped | Lost | Answered
  type Oracle = nat -> Fate

  datatype Sent = Sent(input: Input, answered: bool)

  datatype Gesture = Gesture(
    log: seq<Sent>,
    heldButtons: seq<Device>,     // in the order in which they were pressed
    heldKeys: seq<Device>,
    dispatched: bool,
    clock: nat)                   // the next question to the oracle

  const Fresh := Gesture([], [], [], false, 0)

  // ---------- One action ----------

  function Without(held: seq<Device>, d: Device): seq<Device> {
    if held == [] then [] else if held[0] == d then held[1..] else [held[0]] + Without(held[1..], d)
  }

  function With(held: seq<Device>, d: Device): seq<Device> {
    if d in held then held else held + [d]
  }

  /** What is held after an event: a press is held once it is sent, until its release is answered. */
  function HeldAfter(held: seq<Device>, e: Sent, keys: bool): seq<Device> {
    match e.input
    case Down(d) => if d.Key? == keys then With(held, d) else held
    case Up(d) => if d.Key? == keys && e.answered then Without(held, d) else held
    case _ => held
  }

  function Act(g: Gesture, a: Action, oracle: Oracle): (Gesture, bool) {
    var fate, ticked := oracle(g.clock), g.(clock := g.clock + 1);
    match a
    case Fail => (ticked, false)
    case Check => (ticked, !fate.Stopped?)
    case Send(input) =>
      if fate.Stopped? then (ticked, false)
      else
        var e := Sent(input, fate.Answered?);
        (ticked.(log := g.log + [e], dispatched := true,
                 heldButtons := HeldAfter(g.heldButtons, e, false), heldKeys := HeldAfter(g.heldKeys, e, true)),
         fate.Answered?)
  }

  /** A script runs up to its first failure. */
  function Run(g: Gesture, script: seq<Action>, oracle: Oracle): (Gesture, bool)
    decreases |script|
  {
    if script == [] then (g, true)
    else
      var (h, ok) := Act(g, script[0], oracle);
      if ok then Run(h, script[1..], oracle) else (h, false)
  }

  /** The same where a failure may be under way already. */
  function Continue(s: (Gesture, bool), script: seq<Action>, oracle: Oracle): (Gesture, bool) {
    if s.1 then Run(s.0, script, oracle) else s
  }

  function Reversed(s: seq<Device>): seq<Device> {
    if s == [] then [] else Reversed(s[1..]) + [s[0]]
  }

  function Releases(held: seq<Device>): seq<Input> {
    seq(|held|, i requires 0 <= i < |held| => Up(held[i]))
  }

  /** Whatever happened, the buttons still held are released, then the keys, the last one first;
      nothing is sent when the page or the transport is gone. */
  function Cleanup(g: Gesture, attached: bool): seq<Input> {
    if attached then Releases(g.heldButtons) + Releases(Reversed(g.heldKeys)) else []
  }

  // ---------- The gestures ----------

  datatype Pointer =
    | TypeFocused
    | MouseMove
    | MouseScroll
    | MouseClick(button: nat, count: nat)
    | MouseDrag

  /** What the page said about a located target. */
  datatype Target = Target(focused: bool, isChecked: Option<bool>)

  datatype Operation =
    | PointerOp(pointer: Pointer, points: nat)
    | Click(target: Option<Target>)               // single or double: one press with its count
    | Hover(target: Option<Target>)
    | Fill(target: Option<Target>, replace: bool) // fill replaces, type does not
    | Press(target: Option<Target>, key: nat)
    | Select(target: Option<Target>, values: nat)
    | SetChecked(target: Option<Target>, desired: bool)
    | Scroll(target: Option<Target>)
    | Drag(target: Option<Target>, secondary: bool)

  const Left := Button(0)
  const KeyA := Key(65)
  const Enter := Key(13)

  function Tap(d: Device): seq<Action> {
    [Send(Down(d)), Send(Up(d))]
  }

  /** Moves along the points, with a pause between two. */
  function Path(n: nat): seq<Action> {
    if n == 0 then [] else if n == 1 then [Send(Move)] else Path(n - 1) + [Check, Send(Move)]
  }

  function Clicks(d: Device, n: nat): seq<Action> {
    if n == 0 then []
    else Clicks(d, n - 1) + (if n > 1 then [Check] else []) + [Send(Down(d)), Check, Send(Up(d))]
  }

  function PointerScript(p: Pointer, points: nat): seq<Action> {
    match p
    case TypeFocused => [Check, Send(Text)]
    case MouseMove => Path(points)
    case MouseScroll => [Send(Move), Send(Wheel)]
    case MouseClick(button, count) => [Check] + Path(points) + [Check] + Clicks(Button(button), count)
    case MouseDrag =>
      [Check] + [Send(Move)] + [Check] + [Send(Down(Left))] + Path(points) + [Check] + [Send(Up(Left))]
  }

  function Focus(t: Target): seq<Action> {
    if t.focused then [] else Tap(Left)
  }

  function Script(op: Operation): seq<Action> {
    match op
    case PointerOp(p, points) => [Check] + PointerScript(p, points)
    case Press(None, key) => Tap(Key(key))
    case Press(Some(t), key) => [Check] + Focus(t) + Tap(Key(key))
    case Scroll(None) => [Send(Wheel)]
    case Scroll(Some(_)) => [Check] + [Send(Wheel)]
    case Click(Some(_)) => [Check] + Tap(Left)
    case Hover(Some(_)) => [Check] + [Send(Move)]
    case Fill(Some(t), replace) => [Check] + Focus(t) + (if replace then Tap(KeyA) else []) + [Send(Text)]
    case Select(Some(_), values) =>
      [Check] + (if values != 1 then [Fail] else []) + Tap(Left) + [Send(Text)] + Tap(Enter)
    case SetChecked(Some(t), desired) =>
      [Check] + (if t.isChecked.None? then [Fail] else if t.isChecked.value != desired then Tap(Left) else [])
    case Drag(Some(_), true) =>
      [Check] + [Send(Move)] + [Send(Down(Left))] + [Check] + [Send(Move)] + [Send(Up(Left))]
    case _ => [Fail]
  }

  /** The whole of `executeInteraction` before its cleanup. */
  function Execute(op: Operation, oracle: Oracle): (Gesture, bool) {
    Run(Fresh, Script(op) + [Check], oracle)
  }

  // ---------- The host's answer ----------

  /** How the rest of `runAutomation` goes: the steps before the dispatch, and the state after it. */
  datatype Around = Around(prepared: bool, approved: bool, current: bool, aborted: bool, sameRuntime: bool)

  datatype Reply = Accepted | Rejected(noRollback: bool)

  /** The reply, and the gesture if there was one. */
  function RunAutomation(op: Operation, oracle: Oracle, around: Around): (Reply, Gesture) {
    if !around.prepared || !around.approved || !around.current then (Rejected(false), Fresh)
    else
      var (g, ok) := Execute(op, oracle);
      if !ok then (Rejected(g.dispatched), g)
      else if around.aborted || !around.sameRuntime then (Rejected(true), g)
      else (Accepted, g)
  }
}
