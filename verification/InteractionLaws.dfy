/** What an interaction that runs to its end has done to the page, and which interactions are refused
    before anything is sent. */
module InteractionLaws {
  import opened Wrappers
  import opened Interaction

  // ---------- A page that is operated ----------

  /** What a page makes of input at the target: a press and a release of a button is a click, which
      focuses and toggles; the key of select-all selects; text goes where the focus is and takes the
      place of what is selected. */
  datatype Page = Page(
    pressed: set<Device>,
    clicks: seq<nat>,              // the buttons clicked
    keys: seq<nat>,                // the keys struck
    focused: bool,
    toggled: bool,
    selected: bool,
    texts: seq<bool>,              // for each text inserted, whether it replaced a selection
    moves: nat,
    dragged: nat,                  // the moves with a button pressed
    wheels: nat)

  function Buttons(pressed: set<Device>): set<Device> {
    set d | d in pressed && d.Button?
  }

  function See(p: Page, input: Input): Page {
    match input
    case Down(d) => p.(pressed := p.pressed + {d})
    case Up(d) =>
      if d !in p.pressed then p
      else
        var q := p.(pressed := p.pressed - {d});
        (match d
         case Button(b) => q.(clicks := q.clicks + [b], focused := true, toggled := !q.toggled, selected := false)
         case Key(k) => q.(keys := q.keys + [k], selected := q.selected || (k == 65 && q.focused)))
    case Move => p.(moves := p.moves + 1, dragged := p.dragged + if Buttons(p.pressed) != {} then 1 else 0)
    case Wheel => p.(wheels := p.wheels + 1)
    case Text => if p.focused then p.(texts := p.texts + [p.selected], selected := false) else p
  }

  function SeeAll(p: Page, inputs: seq<Input>): Page
    decreases |inputs|
  {
    if inputs == [] then p else SeeAll(See(p, inputs[0]), inputs[1..])
  }

  /** A page that nothing has been done to. */
  function Untouched(focused: bool, checked: bool): Page {
    Page({}, [], [], focused, checked, false, [], 0, 0, 0)
  }

  // ---------- What is sent ----------

  function Sends(script: seq<Action>): seq<Input>
    decreases |script|
  {
    if script == [] then []
    else (if script[0].Send? then [script[0].input] else []) + Sends(script[1..])
  }

  function Inputs(log: seq<Sent>): seq<Input> {
    seq(|log|, i requires 0 <= i < |log| => log[i].input)
  }

  /** A script that runs to its end has sent all its events, in order, and each was answered. */
  lemma {:induction false} RunSends(g: Gesture, script: seq<Action>, oracle: Oracle)
    ensures var (h, ok) := Run(g, script, oracle);
      ok ==> Inputs(h.log) == Inputs(g.log) + Sends(script) && Fail !in script
    decreases |script|
  {
    if script != [] {
      var (h, ok) := Act(g, script[0], oracle);
      if ok {
        assert Inputs(h.log) == Inputs(g.log) + Sends([script[0]]) by { assert [script[0]][1..] == []; }
        RunSends(h, script[1..], oracle);
        assert Sends(script) == Sends([script[0]]) + Sends(script[1..]) by { assert [script[0]][1..] == []; }
      }
    }
  }

  lemma {:induction false} SendsConcat(a: seq<Action>, b: seq<Action>)
    ensures Sends(a + b) == Sends(a) + Sends(b)
    decreases |a|
  {
    if a == [] {
      assert a + b == b;
    } else {
      assert (a + b)[0] == a[0] && (a + b)[1..] == a[1..] + b;
      SendsConcat(a[1..], b);
    }
  }

  lemma {:induction false} SeeConcat(p: Page, a: seq<Input>, b: seq<Input>)
    ensures SeeAll(p, a + b) == SeeAll(SeeAll(p, a), b)
    decreases |a|
  {
    if a == [] {
      assert a + b == b;
    } else {
      assert (a + b)[0] == a[0] && (a + b)[1..] == a[1..] + b;
      SeeConcat(See(p, a[0]), a[1..], b);
    }
  }

  /** The page after the events of a script. */
  function Operated(p: Page, script: seq<Action>): Page {
    SeeAll(p, Sends(script))
  }

  lemma OperatedConcat(p: Page, a: seq<Action>, b: seq<Action>)
    ensures Operated(p, a + b) == Operated(Operated(p, a), b)
  {
    SendsConcat(a, b);
    SeeConcat(p, Sends(a), Sends(b));
  }

  lemma OperatedOne(p: Page, a: Action)
    ensures Operated(p, [a]) == if a.Send? then See(p, a.input) else p
  {
    assert [a][1..] == [];
    assert Sends([a]) == if a.Send? then [a.input] else [];
    if a.Send? {
      assert [a.input][1..] == [];
      assert SeeAll(p, [a.input]) == SeeAll(See(p, a.input), []);
    }
  }

  // ---------- What each operation means ----------

  function FocusOf(op: Operation): bool {
    match op
    case Fill(Some(t), _) => t.focused
    case Press(Some(t), _) => t.focused
    case Press(None, _) => true
    case PointerOp(TypeFocused, _) => true
    case _ => false
  }

  function CheckOf(op: Operation): bool {
    op.SetChecked? && op.target.Some? && op.target.value.isChecked == Some(true)
  }

  /** Operations without their target, a selection of any number of values but one, a box whose state is
      not known, and a drag to nowhere. */
  predicate Refused(op: Operation) {
    match op
    case PointerOp(_, _) => false
    case Press(_, _) => false
    case Scroll(_) => false
    case Select(target, values) => target.None? || values != 1
    case SetChecked(target, _) => target.None? || target.value.isChecked.None?
    case Drag(target, secondary) => target.None? || !secondary
    case Click(target) => target.None?
    case Hover(target) => target.None?
    case Fill(target, _) => target.None?
  }

  /** One click where the target did not have the focus, else none. */
  function FocusClicks(target: Option<Target>): seq<nat> {
    if target.Some? && !target.value.focused then [0] else []
  }

  function Repeat(button: nat, n: nat): seq<nat> {
    seq(n, i => button)
  }

  /** The page as the operation is to leave it; `before` is the page it found. */
  predicate Meant(op: Operation, before: Page, after: Page) {
    && after.pressed == {}
    && match op
       case Click(_) => after == before.(clicks := [0], focused := true, toggled := !before.toggled)
       case Hover(_) => after == before.(moves := 1)
       case Fill(target, replace) =>
         after.focused && after.texts == [replace] && after.clicks == FocusClicks(target)
         && after.keys == (if replace then [65] else []) && after.moves == 0 && after.wheels == 0
       case Press(target, key) =>
         after.focused && after.keys == [key] && after.clicks == FocusClicks(target)
         && after.texts == [] && after.moves == 0 && after.wheels == 0
       case Select(_, _) =>
         after.clicks == [0] && after.texts == [false] && after.keys == [13] && after.moves == 0 && after.wheels == 0
       case SetChecked(_, desired) =>
         after.toggled == desired && (before.toggled == desired ==> after == before)
         && after == before.(clicks := after.clicks, focused := after.focused, toggled := after.toggled)
       case Scroll(_) => after == before.(wheels := 1)
       case Drag(_, _) =>
         after == before.(moves := 2, dragged := 1, clicks := [0], focused := true, toggled := !before.toggled)
       case PointerOp(TypeFocused, _) => after == before.(texts := [false])
       case PointerOp(MouseMove, points) => after == before.(moves := points)
       case PointerOp(MouseScroll, _) => after == before.(moves := 1, wheels := 1)
       case PointerOp(MouseClick(button, count), points) =>
         after.moves == points && after.dragged == 0 && after.clicks == Repeat(button, count)
         && after.texts == [] && after.keys == [] && after.wheels == 0
       case PointerOp(MouseDrag, points) =>
         after.moves == points + 1 && after.dragged == points && after.clicks == [0]
         && after.texts == [] && after.keys == [] && after.wheels == 0
  }

  // ---------- Pieces of scripts ----------

  lemma TapMeans(p: Page, d: Device)
    requires d !in p.pressed
    ensures Operated(p, Tap(d)) == See(See(p, Down(d)), Up(d)) && Fail !in Tap(d)
  {
    OperatedOne(p, Send(Down(d)));
    OperatedOne(See(p, Down(d)), Send(Up(d)));
    assert Tap(d) == [Send(Down(d))] + [Send(Up(d))];
    OperatedConcat(p, [Send(Down(d))], [Send(Up(d))]);
  }

  lemma {:induction false} PathMeans(p: Page, n: nat)
    ensures Operated(p, Path(n))
      == p.(moves := p.moves + n, dragged := p.dragged + if Buttons(p.pressed) != {} then n else 0)
    ensures Fail !in Path(n)
  {
    if n == 1 {
      OperatedOne(p, Send(Move));
    } else if n > 1 {
      PathMeans(p, n - 1);
      var q := Operated(p, Path(n - 1));
      OperatedConcat(p, Path(n - 1), [Check, Send(Move)]);
      OperatedOne(q, Check);
      OperatedOne(q, Send(Move));
      assert [Check, Send(Move)] == [Check] + [Send(Move)];
      OperatedConcat(q, [Check], [Send(Move)]);
    }
  }

  lemma ClickMeans(p: Page, b: nat)
    requires Button(b) !in p.pressed
    ensures var q := Operated(p, [Send(Down(Button(b))), Check, Send(Up(Button(b)))]);
      q == p.(clicks := p.clicks + [b], focused := true, toggled := !p.toggled, selected := false)
  {
    var d := Button(b);
    OperatedOne(p, Send(Down(d)));
    OperatedOne(See(p, Down(d)), Check);
    OperatedOne(See(p, Down(d)), Send(Up(d)));
    OperatedConcat(p, [Send(Down(d))], [Check]);
    OperatedConcat(p, [Send(Down(d))] + [Check], [Send(Up(d))]);
    assert [Send(Down(d)), Check, Send(Up(d))] == [Send(Down(d))] + [Check] + [Send(Up(d))];
    assert p.pressed + {d} - {d} == p.pressed;
  }

  lemma {:induction false} ClicksMean(p: Page, b: nat, n: nat)
    requires p.pressed == {}
    ensures var q := Operated(p, Clicks(Button(b), n));
      q == p.(clicks := p.clicks + Repeat(b, n), focused := q.focused, toggled := q.toggled, selected := q.selected)
    ensures Fail !in Clicks(Button(b), n)
  {
    if n == 0 {
      assert p.clicks + Repeat(b, 0) == p.clicks;
    } else {
      ClicksMean(p, b, n - 1);
      var q := Operated(p, Clicks(Button(b), n - 1));
      var pause := if n > 1 then [Check] else [];
      var last := [Send(Down(Button(b))), Check, Send(Up(Button(b)))];
      OperatedConcat(p, Clicks(Button(b), n - 1), pause);
      OperatedConcat(p, Clicks(Button(b), n - 1) + pause, last);
      OperatedOne(q, Check);
      ClickMeans(q, b);
      assert Repeat(b, n) == Repeat(b, n - 1) + [b];
    }
  }

  // ---------- Each operation ----------

  function Before(op: Operation): Page {
    Untouched(FocusOf(op), CheckOf(op))
  }

  ghost predicate ScriptOk(op: Operation) {
    Fail !in Script(op) && Meant(op, Before(op), Operated(Before(op), Script(op)))
  }

  lemma PointerMeans(op: Operation)
    requires op.PointerOp?
    ensures ScriptOk(op)
  {
    var p, points := Before(op), op.points;
    OperatedOne(p, Check);
    OperatedConcat(p, [Check], PointerScript(op.pointer, points));
    match op.pointer
    case TypeFocused =>
      OperatedOne(p, Send(Text));
      assert PointerScript(op.pointer, points) == [Check] + [Send(Text)];
      OperatedConcat(p, [Check], [Send(Text)]);
    case MouseMove => PathMeans(p, points);
    case MouseScroll =>
      OperatedOne(p, Send(Move));
      OperatedOne(See(p, Move), Send(Wheel));
      assert PointerScript(op.pointer, points) == [Send(Move)] + [Send(Wheel)];
      OperatedConcat(p, [Send(Move)], [Send(Wheel)]);
    case MouseClick(button, count) => MouseClickMeans(p, button, count, points);
    case MouseDrag => MouseDragMeans(p, points);
  }

  lemma MouseClickMeans(p: Page, button: nat, count: nat, points: nat)
    requires p == Untouched(false, false)
    ensures var script := PointerScript(MouseClick(button, count), points);
      Fail !in script && Meant(PointerOp(MouseClick(button, count), points), p, Operated(p, script))
  {
    var q := p.(moves := points);
    OperatedOne(p, Check);
    PathMeans(p, points);
    OperatedConcat(p, [Check], Path(points));
    OperatedOne(q, Check);
    OperatedConcat(p, [Check] + Path(points), [Check]);
    OperatedConcat(p, [Check] + Path(points) + [Check], Clicks(Button(button), count));
    ClicksMean(q, button, count);
    assert [] + Repeat(button, count) == Repeat(button, count);
  }

  lemma MouseDragMeans(p: Page, points: nat)
    requires p == Untouched(false, false)
    ensures var script := PointerScript(MouseDrag, points);
      Fail !in script && Meant(PointerOp(MouseDrag, points), p, Operated(p, script))
  {
    var start := [Check] + [Send(Move)] + [Check] + [Send(Down(Left))];
    var q := p.(moves := 1, pressed := {Left});
    OperatedOne(p, Check);
    OperatedOne(p, Send(Move));
    OperatedOne(p.(moves := 1), Check);
    OperatedOne(p.(moves := 1), Send(Down(Left)));
    OperatedConcat(p, [Check], [Send(Move)]);
    OperatedConcat(p, [Check] + [Send(Move)], [Check]);
    OperatedConcat(p, [Check] + [Send(Move)] + [Check], [Send(Down(Left))]);
    assert {} + {Left} == {Left} && Operated(p, start) == q;
    PathMeans(q, points);
    assert Left in Buttons(q.pressed);
    var r := q.(moves := 1 + points, dragged := points);
    OperatedConcat(p, start, Path(points));
    OperatedOne(r, Check);
    OperatedConcat(p, start + Path(points), [Check]);
    OperatedOne(r, Send(Up(Left)));
    OperatedConcat(p, start + Path(points) + [Check], [Send(Up(Left))]);
    assert {Left} - {Left} == {};
  }

  lemma FocusMeans(p: Page, t: Target)
    requires p.pressed == {} && p.focused == t.focused
    ensures var q := Operated(p, Focus(t));
      && q == p.(focused := true, clicks := p.clicks + FocusClicks(Some(t)),
                 toggled := q.toggled, selected := q.selected)
      && (t.focused ==> q == p) && (!t.focused ==> !q.selected)
    ensures Fail !in Focus(t)
  {
    if !t.focused {
      TapMeans(p, Left);
      assert {} + {Left} - {Left} == {};
    } else {
      assert p.clicks + [] == p.clicks;
    }
  }

  lemma FillMeans(op: Operation)
    requires op.Fill? && op.target.Some?
    ensures ScriptOk(op)
  {
    var p, t := Before(op), op.target.value;
    var more := if op.replace then Tap(KeyA) else [];
    OperatedOne(p, Check);
    FocusMeans(p, t);
    OperatedConcat(p, [Check], Focus(t));
    var q := Operated(p, Focus(t));
    if op.replace { TapMeans(q, KeyA); }
    assert {} + {KeyA} - {KeyA} == {};
    OperatedConcat(p, [Check] + Focus(t), more);
    var r := Operated(q, more);
    OperatedOne(r, Send(Text));
    OperatedConcat(p, [Check] + Focus(t) + more, [Send(Text)]);
  }

  lemma PressMeans(op: Operation)
    requires op.Press?
    ensures ScriptOk(op)
  {
    var p, d := Before(op), Key(op.key);
    assert {} + {d} - {d} == {};
    match op.target
    case None => TapMeans(p, d);
    case Some(t) =>
      OperatedOne(p, Check);
      FocusMeans(p, t);
      OperatedConcat(p, [Check], Focus(t));
      TapMeans(Operated(p, Focus(t)), d);
      OperatedConcat(p, [Check] + Focus(t), Tap(d));
  }

  lemma SelectMeans(op: Operation)
    requires op.Select? && op.target.Some? && op.values == 1
    ensures ScriptOk(op)
  {
    var p := Before(op);
    var script := [Check] + [] + Tap(Left) + [Send(Text)] + Tap(Enter);
    assert Script(op) == script;
    assert {} + {Left} - {Left} == {} && {} + {Enter} - {Enter} == {};
    OperatedOne(p, Check);
    TapMeans(p, Left);
    assert [Check] + [] == [Check];
    OperatedConcat(p, [Check], Tap(Left));
    var q := Operated(p, Tap(Left));
    OperatedOne(q, Send(Text));
    OperatedConcat(p, [Check] + Tap(Left), [Send(Text)]);
    var r := See(q, Text);
    TapMeans(r, Enter);
    OperatedConcat(p, [Check] + Tap(Left) + [Send(Text)], Tap(Enter));
  }

  lemma SetCheckedMeans(op: Operation)
    requires op.SetChecked? && !Refused(op)
    ensures ScriptOk(op)
  {
    var p := Before(op);
    var click := if op.target.value.isChecked.value != op.desired then Tap(Left) else [];
    OperatedOne(p, Check);
    TapMeans(p, Left);
    assert {} + {Left} - {Left} == {};
    OperatedConcat(p, [Check], click);
  }

  lemma DragMeans(op: Operation)
    requires op.Drag? && !Refused(op)
    ensures ScriptOk(op)
  {
    var p := Before(op);
    var q := p.(moves := 1);
    var r := q.(pressed := {Left});
    assert {} + {Left} == {Left} && {Left} - {Left} == {} && Left in Buttons({Left});
    OperatedOne(p, Check);
    OperatedOne(p, Send(Move));
    OperatedConcat(p, [Check], [Send(Move)]);
    OperatedOne(q, Send(Down(Left)));
    OperatedConcat(p, [Check] + [Send(Move)], [Send(Down(Left))]);
    OperatedOne(r, Check);
    OperatedConcat(p, [Check] + [Send(Move)] + [Send(Down(Left))], [Check]);
    OperatedOne(r, Send(Move));
    OperatedConcat(p, [Check] + [Send(Move)] + [Send(Down(Left))] + [Check], [Send(Move)]);
    OperatedOne(r.(moves := 2, dragged := 1), Send(Up(Left)));
    OperatedConcat(p, [Check] + [Send(Move)] + [Send(Down(Left))] + [Check] + [Send(Move)], [Send(Up(Left))]);
  }

  lemma OneInputMeans(op: Operation)
    requires (op.Click? || op.Hover? || op.Scroll?) && !Refused(op)
    ensures ScriptOk(op)
  {
    var p := Before(op);
    OperatedOne(p, Check);
    assert {} + {Left} - {Left} == {};
    if op.Click? {
      TapMeans(p, Left);
      OperatedConcat(p, [Check], Tap(Left));
    } else if op.Hover? {
      OperatedOne(p, Send(Move));
      OperatedConcat(p, [Check], [Send(Move)]);
    } else {
      OperatedOne(p, Send(Wheel));
      OperatedConcat(p, [Check], [Send(Wheel)]);
    }
  }

  lemma ScriptMeans(op: Operation)
    requires !Refused(op)
    ensures ScriptOk(op)
  {
    match op
    case PointerOp(_, _) => PointerMeans(op);
    case Fill(_, _) => FillMeans(op);
    case Press(_, _) => PressMeans(op);
    case Select(_, _) => SelectMeans(op);
    case SetChecked(_, _) => SetCheckedMeans(op);
    case Drag(_, _) => DragMeans(op);
    case _ => OneInputMeans(op);
  }

  // ---------- Whole interactions ----------

  /** An interaction that ends well has done to the page what its operation means, and nothing else. */
  lemma CompletedMeans(op: Operation, oracle: Oracle)
    requires Execute(op, oracle).1
    ensures !Refused(op)
    ensures Meant(op, Before(op), SeeAll(Before(op), Inputs(Execute(op, oracle).0.log)))
  {
    RunSends(Fresh, Script(op) + [Check], oracle);
    assert forall a :: a in Script(op) ==> a in Script(op) + [Check];
    RefusedFails(op);
    ScriptMeans(op);
    SendsConcat(Script(op), [Check]);
    assert [Check][1..] == [] && Sends([Check]) == [];
    assert Inputs(Execute(op, oracle).0.log) == Sends(Script(op)) by {
      assert Inputs(Fresh.log) == [];
    }
  }

  /** A refused operation fails before any event is sent. */
  lemma RefusedFails(op: Operation)
    ensures Refused(op) <==> Fail in Script(op)
    ensures Refused(op) ==> Script(op)[0] == Fail || (Script(op)[0] == Check && Script(op)[1] == Fail)
  {
    if !Refused(op) { ScriptMeans(op); }
  }

  lemma RefusedSendsNothing(op: Operation, oracle: Oracle)
    requires Refused(op)
    ensures !Execute(op, oracle).1 && Execute(op, oracle).0.log == []
  {
    RefusedFails(op);
    var script := Script(op) + [Check];
    assert script[0] == Script(op)[0];
    if script[0] == Check {
      var g := Act(Fresh, Check, oracle).0;
      assert script[1..][0] == Fail && Run(g, script[1..], oracle) == Act(g, Fail, oracle);
    } else {
      assert Run(Fresh, script, oracle) == Act(Fresh, Fail, oracle);
    }
  }

  /** Where nothing stops it, everything else ends well. */
  lemma UndisturbedCompletes(op: Operation, oracle: Oracle)
    requires !Refused(op) && forall n :: oracle(n).Answered?
    ensures Execute(op, oracle).1
  {
    RefusedFails(op);
    UndisturbedRuns(Fresh, Script(op) + [Check], oracle);
  }

  lemma {:induction false} UndisturbedRuns(g: Gesture, script: seq<Action>, oracle: Oracle)
    requires Fail !in script && forall n :: oracle(n).Answered?
    ensures Run(g, script, oracle).1
    decreases |script|
  {
    if script != [] {
      assert script[0] in script;
      UndisturbedRuns(Act(g, script[0], oracle).0, script[1..], oracle);
    }
  }

  /** The host accepts an automation exactly when every step around the interaction and the interaction
      itself went well. */
  lemma AcceptedExactly(op: Operation, oracle: Oracle, around: Around)
    ensures RunAutomation(op, oracle, around).0.Accepted? <==>
      && around.prepared && around.approved && around.current
      && Execute(op, oracle).1 && !around.aborted && around.sameRuntime
  {
  }
}
