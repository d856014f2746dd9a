/**
 * The input dispatcher and its key-binding registry.
 *
 * Once per frame the dispatcher drains the platform's queued device events
 * into a batch of engine events, keeping a table of which keys are held;
 * it then appends one "pressed" event per held key, lets the UI, console
 * and heads-up display claim events in that order, and runs the script
 * command bound to each remaining event.
 *
 * The spec functions below (Step, Drain, PressedEvents, Chain,
 * CommandsFor) describe one frame as values; the class Input does the same
 * work in place and is proved against them.
 */
module InputSystem {
  import opened Outcomes
  import opened LuaValues
  import opened InputEvents

  /** A consumer in the chain; true means it claims (removes) the event. */
  type Consumer = InputEvent -> bool

  /** The dispatcher's state while a frame's device events are drained. */
  datatype Frame = Frame(events: seq<InputEvent>, held: seq<bool>, quit: bool, moved: bool)

  predicate KeyInRange(e: DeviceEvent) {
    match e
    case KeyDownEvent(k) => 0 <= k < SDLK_LAST
    case KeyUpEvent(k) => 0 <= k < SDLK_LAST
    case _ => true
  }

  /** The platform only reports key codes below SDLK_LAST. */
  predicate KeysInRange(polled: seq<DeviceEvent>) {
    forall i | 0 <= i < |polled| :: KeyInRange(polled[i])
  }

  /** Either shift key is held. */
  function Shifted(held: seq<bool>): bool
    requires |held| == SDLK_LAST
  {
    held[SDLK_LSHIFT] || held[SDLK_RSHIFT]
  }

  /** Device events that make the frame report quit: a window close, or Escape going down or up. */
  predicate RequestsQuit(e: DeviceEvent) {
    e.QuitRequest? || e == KeyDownEvent(SDLK_ESCAPE) || e == KeyUpEvent(SDLK_ESCAPE)
  }

  /** The effect of one drained device event on the frame. */
  function Step(f: Frame, e: DeviceEvent): Frame
    requires |f.held| == SDLK_LAST && KeyInRange(e)
  {
    match e
    case QuitRequest => f.(quit := true)
    case KeyDownEvent(k) =>
      if k == SDLK_ESCAPE then f.(quit := true)
      else f.(events := f.events + [Key(KeyDown, k), Key(KeyTyped, TypedLetter(Shifted(f.held), k))],
              held := f.held[k := true])
    case KeyUpEvent(k) =>
      if k == SDLK_ESCAPE then f.(quit := true)
      else f.(events := f.events + [Key(KeyUp, k)], held := f.held[k := false])
    case MotionEvent(x, y) => f.(events := f.events + [Mouse(MouseMotion, x, y)], moved := true)
    case ButtonDownEvent(b, x, y) => f.(events := f.events + ButtonEvents(CheckMouseState(b, false), x, y))
    case ButtonUpEvent(b, x, y) => f.(events := f.events + ButtonEvents(CheckMouseState(b, true), x, y))
    case OtherEvent => f
  }

  /** The events a classified button transition enqueues: none when it is unhandled. */
  function ButtonEvents(m: MouseState, x: int, y: int): seq<InputEvent> {
    if m.Unhandled? then [] else [Mouse(m, x, y)]
  }

  /** A button transition the classification leaves unhandled (a wheel press, an unknown button) enqueues nothing. */
  lemma UnhandledButtonEnqueuesNothing(f: Frame, button: int, up: bool, x: int, y: int)
    requires |f.held| == SDLK_LAST
    requires CheckMouseState(button, up).Unhandled?
    ensures Step(f, if up then ButtonUpEvent(button, x, y) else ButtonDownEvent(button, x, y)) == f
  {
  }

  /** The frame after draining the device events in order. */
  function Drain(f: Frame, polled: seq<DeviceEvent>): (g: Frame)
    requires |f.held| == SDLK_LAST && KeysInRange(polled)
    ensures |g.held| == SDLK_LAST
    ensures |f.events| <= |g.events| && g.events[..|f.events|] == f.events
    decreases |polled|
  {
    if polled == [] then f
    else Step(Drain(f, polled[..|polled| - 1]), polled[|polled| - 1])
  }

  /** One KEYPRESSED event per held key with code below n, in ascending code order. */
  function PressedEvents(held: seq<bool>, n: nat): (ps: seq<InputEvent>)
    requires n <= |held|
    ensures |ps| <= n
    ensures forall i | 0 <= i < |ps| ::
      ps[i].Key? && ps[i].kstate == KeyPressed && 0 <= ps[i].key < n && held[ps[i].key]
    ensures forall i, j | 0 <= i < j < |ps| :: ps[i].key < ps[j].key
    ensures forall k | 0 <= k < n && held[k] :: Key(KeyPressed, k) in ps
  {
    if n == 0 then []
    else PressedEvents(held, n - 1) + (if held[n - 1] then [Key(KeyPressed, n - 1)] else [])
  }

  /** The whole batch of a frame: the drained events, then the pressed events of the keys still held. */
  function Batch(f: Frame, polled: seq<DeviceEvent>): seq<InputEvent>
    requires |f.held| == SDLK_LAST && KeysInRange(polled)
  {
    var g := Drain(f, polled);
    g.events + PressedEvents(g.held, SDLK_LAST)
  }

  /** What a consumer leaves in the batch: every event it does not claim, in order. */
  function Unclaimed(batch: seq<InputEvent>, claims: Consumer): (rest: seq<InputEvent>)
    ensures |rest| <= |batch|
    ensures forall e | e in rest :: e in batch && !claims(e)
  {
    if batch == [] then []
    else Unclaimed(batch[..|batch| - 1], claims)
         + (if claims(batch[|batch| - 1]) then [] else [batch[|batch| - 1]])
  }

  /** No unclaimed event is dropped: every event of the batch the consumer does not claim is left. */
  lemma {:induction false} UnclaimedKeeps(batch: seq<InputEvent>, claims: Consumer, e: InputEvent)
    requires e in batch && !claims(e)
    ensures e in Unclaimed(batch, claims)
  {
    var last := batch[|batch| - 1];
    if last != e {
      UnclaimedKeeps(batch[..|batch| - 1], claims, e);
    }
  }

  /** A single event is left exactly when the consumer does not claim it. */
  lemma UnclaimedSingle(e: InputEvent, claims: Consumer)
    ensures Unclaimed([e], claims) == if claims(e) then [] else [e]
  {
    assert [e][..0] == [];
  }

  /** Adding one event at the end adds it to the result exactly when the consumer does not claim it. */
  lemma UnclaimedSnoc(s: seq<InputEvent>, x: InputEvent, claims: Consumer)
    ensures Unclaimed(s + [x], claims) == Unclaimed(s, claims) + (if claims(x) then [] else [x])
  {
    assert (s + [x])[..|s|] == s;
  }

  /**
   * A consumer keeps the order and the multiplicity of what it leaves: the
   * leftovers of a concatenation are the concatenated leftovers.
   */
  lemma {:induction false} UnclaimedAppend(a: seq<InputEvent>, b: seq<InputEvent>, claims: Consumer)
    ensures Unclaimed(a + b, claims) == Unclaimed(a, claims) + Unclaimed(b, claims)
    decreases |b|
  {
    if b == [] {
      assert a + b == a;
    } else {
      var b' := b[..|b| - 1];
      var last := b[|b| - 1];
      var tail := if claims(last) then [] else [last];
      calc {
        Unclaimed(a + b, claims);
        { assert a + b == (a + b') + [last]; UnclaimedSnoc(a + b', last, claims); }
        Unclaimed(a + b', claims) + tail;
        { UnclaimedAppend(a, b', claims); }
        (Unclaimed(a, claims) + Unclaimed(b', claims)) + tail;
        Unclaimed(a, claims) + (Unclaimed(b', claims) + tail);
        { assert b == b' + [last]; UnclaimedSnoc(b', last, claims); }
        Unclaimed(a, claims) + Unclaimed(b, claims);
      }
    }
  }

  /** The batch after the UI, the console and the heads-up display have claimed their events. */
  function Chain(batch: seq<InputEvent>, ui: Consumer, console: Consumer, hud: Consumer): seq<InputEvent> {
    Unclaimed(Unclaimed(Unclaimed(batch, ui), console), hud)
  }

  /** The commands bound to the events of a batch, one per bound event, in batch order. */
  function CommandsFor(batch: seq<InputEvent>, bindings: map<InputEvent, string>): (cmds: seq<string>)
    ensures |cmds| <= |batch|
    ensures forall c | c in cmds :: c in bindings.Values
  {
    if batch == [] then []
    else CommandsFor(batch[..|batch| - 1], bindings)
         + (if batch[|batch| - 1] in bindings then [bindings[batch[|batch| - 1]]] else [])
  }

  /** Registration keeps an existing binding (an ordered-map insert: the first registration wins). */
  function Insert(bindings: map<InputEvent, string>, e: InputEvent, command: string): (r: map<InputEvent, string>)
    ensures e in r && r[e] == (if e in bindings then bindings[e] else command)
    ensures r.Keys == bindings.Keys + {e}
    ensures forall x | x in bindings :: r[x] == bindings[x]
  {
    if e in bindings then bindings else bindings[e := command]
  }

  /** Registering then unregistering an event leaves no binding for it, and every other binding as it was. */
  lemma RegisterThenUnregister(bindings: map<InputEvent, string>, e: InputEvent, command: string)
    ensures Insert(bindings, e, command) - {e} == bindings - {e}
    ensures e !in bindings ==> Insert(bindings, e, command) - {e} == bindings
  {
  }

  /** The command a batch runs for its events splits at any point of the batch. */
  lemma {:induction false} CommandsForAppend(a: seq<InputEvent>, b: seq<InputEvent>, bindings: map<InputEvent, string>)
    ensures CommandsFor(a + b, bindings) == CommandsFor(a, bindings) + CommandsFor(b, bindings)
    decreases |b|
  {
    if b == [] {
      assert a + b == a;
    } else {
      var b' := b[..|b| - 1];
      assert (a + b)[..|a + b| - 1] == a + b';
      assert (a + b)[|a + b| - 1] == b[|b| - 1];
      CommandsForAppend(a, b', bindings);
    }
  }

  /** Every bound event of the batch runs its command. */
  lemma {:induction false} BoundEventRuns(batch: seq<InputEvent>, bindings: map<InputEvent, string>, e: InputEvent)
    requires e in batch && e in bindings
    ensures bindings[e] in CommandsFor(batch, bindings)
  {
    var last := batch[|batch| - 1];
    if last != e {
      BoundEventRuns(batch[..|batch| - 1], bindings, e);
    }
  }

  /** A binding for an event absent from the batch plays no part in what the batch runs. */
  lemma {:induction false} AbsentBindingIgnored(batch: seq<InputEvent>, bindings: map<InputEvent, string>, e: InputEvent)
    requires e !in batch
    ensures CommandsFor(batch, bindings) == CommandsFor(batch, bindings - {e})
  {
    if batch != [] {
      AbsentBindingIgnored(batch[..|batch| - 1], bindings, e);
    }
  }

  /** First claim: an event any consumer in the chain claims never runs its bound command. */
  lemma ClaimedEventNeverTriggers(batch: seq<InputEvent>, ui: Consumer, console: Consumer, hud: Consumer,
                                  bindings: map<InputEvent, string>, e: InputEvent)
    requires ui(e) || console(e) || hud(e)
    ensures CommandsFor(Chain(batch, ui, console, hud), bindings)
         == CommandsFor(Chain(batch, ui, console, hud), bindings - {e})
  {
    var rest := Chain(batch, ui, console, hud);
    assert e !in rest;
    AbsentBindingIgnored(rest, bindings, e);
  }

  /** The frame's quit flag is set exactly when a window close or an Escape key event was drained. */
  lemma {:induction false} DrainQuit(f: Frame, polled: seq<DeviceEvent>)
    requires |f.held| == SDLK_LAST && KeysInRange(polled)
    ensures Drain(f, polled).quit <==> f.quit || exists i | 0 <= i < |polled| :: RequestsQuit(polled[i])
  {
    if polled != [] {
      var init := polled[..|polled| - 1];
      DrainQuit(f, init);
      if exists i | 0 <= i < |init| :: RequestsQuit(init[i]) {
        var i :| 0 <= i < |init| && RequestsQuit(init[i]);
        assert polled[i] == init[i];
      }
      if exists i | 0 <= i < |polled| :: RequestsQuit(polled[i]) {
        var i :| 0 <= i < |polled| && RequestsQuit(polled[i]);
        if i < |init| {
          assert init[i] == polled[i];
        }
      }
    }
  }

  /** The most recent non-Escape transition of key k among the device events: Some(true) for down, Some(false) for up. */
  function LastTransition(polled: seq<DeviceEvent>, k: int): Option<bool> {
    if polled == [] || k == SDLK_ESCAPE then None
    else if polled[|polled| - 1] == KeyDownEvent(k) then Some(true)
    else if polled[|polled| - 1] == KeyUpEvent(k) then Some(false)
    else LastTransition(polled[..|polled| - 1], k)
  }

  /** Held-key truth: after draining, a key is held iff its last transition was down, or it was held and never moved. */
  lemma {:induction false} DrainHeld(f: Frame, polled: seq<DeviceEvent>, k: int)
    requires |f.held| == SDLK_LAST && KeysInRange(polled) && 0 <= k < SDLK_LAST
    ensures Drain(f, polled).held[k] == match LastTransition(polled, k)
                                         case Some(down) => down
                                         case None => f.held[k]
  {
    if polled != [] {
      var init := polled[..|polled| - 1];
      DrainHeld(f, init, k);
      StepHeld(Drain(f, init), polled[|polled| - 1], k);
    }
  }

  /** One device event changes the held flag of key k only when it is a non-Escape transition of k. */
  lemma StepHeld(f: Frame, e: DeviceEvent, k: int)
    requires |f.held| == SDLK_LAST && KeyInRange(e) && 0 <= k < SDLK_LAST
    ensures Step(f, e).held[k] == if k != SDLK_ESCAPE && e == KeyDownEvent(k) then true
                                  else if k != SDLK_ESCAPE && e == KeyUpEvent(k) then false
                                  else f.held[k]
  {
  }

  /** End to end: a key-down bound to a command, and claimed by no consumer, runs that command in the same frame. */
  lemma BoundKeyDownRunsCommand(held: seq<bool>, k: int, bindings: map<InputEvent, string>,
                                ui: Consumer, console: Consumer, hud: Consumer)
    requires |held| == SDLK_LAST && 0 <= k < SDLK_LAST && k != SDLK_ESCAPE
    requires Key(KeyDown, k) in bindings
    requires !ui(Key(KeyDown, k)) && !console(Key(KeyDown, k)) && !hud(Key(KeyDown, k))
    ensures bindings[Key(KeyDown, k)] in
            CommandsFor(Chain(Batch(Frame([], held, false, false), [KeyDownEvent(k)]), ui, console, hud), bindings)
  {
    var f := Frame([], held, false, false);
    var polled := [KeyDownEvent(k)];
    assert polled[..0] == [];
    assert Drain(f, polled) == Step(f, KeyDownEvent(k));
    var batch := Batch(f, polled);
    var down := Key(KeyDown, k);
    assert batch[0] == down;
    UnclaimedKeeps(batch, ui, down);
    UnclaimedKeeps(Unclaimed(batch, ui), console, down);
    UnclaimedKeeps(Unclaimed(Unclaimed(batch, ui), console), hud, down);
    BoundEventRuns(Chain(batch, ui, console, hud), bindings, down);
  }

  /**
   * The first byte of a character's UTF-8 encoding: the byte a C string
   * holding the text starts with.
   */
  function Utf8LeadByte(c: char): (b: int)
    ensures 0 <= b < 256
    ensures c as int < 0x80 ==> b == c as int
    ensures c as int >= 0x80 ==> 0xC0 <= b
  {
    var u := c as int;
    if u < 0x80 then u
    else if u < 0x800 then 0xC0 + u / 0x40
    else if u < 0x10000 then 0xE0 + u / 0x1000
    else 0xF0 + u / 0x40000
  }

  /** A byte read as a signed char. */
  function SignedChar(b: int): (c: int)
    requires 0 <= b < 256
    ensures -128 <= c < 128
    ensures c == b || c == b - 256
  {
    if b < 128 then b else b - 256
  }

  /**
   * The trigger key a script names: a number, or else the first byte of the
   * string read as a signed char (0 for "", its terminating NUL).
   */
  function TriggerKey(v: LuaValue): (r: Option<int>)
    ensures ToNumber(v).Some? ==> r == ToNumber(v)
    ensures r.None? <==> ToText(v).None?
    ensures ToNumber(v).None? && ToText(v) == Some([]) ==> r == Some(0)
    ensures ToNumber(v).None? && ToText(v).Some? && ToText(v).value != [] ==>
      var c := ToText(v).value[0];
      && (c as int < 0x80 ==> r == Some(c as int))
      && (c as int >= 0x80 ==> r.Some? && -64 <= r.value < 0)
  {
    if ToNumber(v).Some? then ToNumber(v)
    else match ToText(v)
      case Some(s) => Some(if s == [] then 0 else SignedChar(Utf8LeadByte(s[0])))
      case None => None
  }

  /** A key string starting with a non-ASCII character names a negative key: "é" (U+00E9, bytes C3 A9) names -61. */
  lemma NonAsciiKeyIsNegative()
    ensures TriggerKey(LString("\U{e9}")) == Some(-61)
    ensures TriggerKey(LString("q")) == Some('q' as int)
  {
  }

  /** The key event named by the (Key, State) arguments of RegisterKey and UnRegisterKey. */
  function KeyEventArgs(key: LuaValue, state: LuaValue): (r: Result<InputEvent, ScriptError>)
    ensures r.Ok? <==> TriggerKey(key).Some? && ToNumber(state).Some?
    ensures r.Ok? ==> r.value == Key(KeyStateOf(ToNumber(state).value), TriggerKey(key).value)
    ensures r.Ok? ==> KeyStateNumber(r.value.kstate) == ToNumber(state).value
    ensures TriggerKey(key).None? ==> r == Err(BadArgument(1))
    ensures TriggerKey(key).Some? && ToNumber(state).None? ==> r == Err(BadArgument(2))
  {
    match TriggerKey(key)
    case None => Err(BadArgument(1))
    case Some(k) =>
      match ToNumber(state)
      case None => Err(BadArgument(2))
      case Some(s) => Ok(Key(KeyStateOf(s), k))
  }

  /** The binding RegisterKey(Key, State, Command) asks for. */
  function BindingArgs(args: seq<LuaValue>): (r: Result<(InputEvent, string), ScriptError>)
    ensures |args| != 3 ==> r == Err(WrongArity(|args|, 3))
    ensures |args| == 3 ==> (r.Ok? <==> KeyEventArgs(args[0], args[1]).Ok? && ToText(args[2]).Some?)
    ensures r.Ok? ==> r.value == (KeyEventArgs(args[0], args[1]).value, ToText(args[2]).value)
    ensures |args| == 3 && KeyEventArgs(args[0], args[1]).Err? ==> r == Err(KeyEventArgs(args[0], args[1]).error)
  {
    if |args| != 3 then Err(WrongArity(|args|, 3))
    else match KeyEventArgs(args[0], args[1])
      case Err(err) => Err(err)
      case Ok(e) =>
        match ToText(args[2])
        case None => Err(BadArgument(3))
        case Some(command) => Ok((e, command))
  }

  /** The event UnRegisterKey(Key, State) names. */
  function UnbindingArgs(args: seq<LuaValue>): (r: Result<InputEvent, ScriptError>)
    ensures |args| != 2 ==> r == Err(WrongArity(|args|, 2))
    ensures |args| == 2 ==> r == KeyEventArgs(args[0], args[1])
  {
    if |args| != 2 then Err(WrongArity(|args|, 2)) else KeyEventArgs(args[0], args[1])
  }

  /** UnRegisterKey with the Key and State a RegisterKey call used names the event that call bound. */
  lemma UnbindingMatchesBinding(key: LuaValue, state: LuaValue, command: LuaValue)
    requires BindingArgs([key, state, command]).Ok?
    ensures UnbindingArgs([key, state]) == Ok(BindingArgs([key, state, command]).value.0)
  {
  }

  /**
   * End to end: after RegisterKey(k, 1, command) on an unbound key-down, a
   * key-down of k that no consumer claims runs the command in the next frame.
   */
  lemma RegisteredKeyDownRuns(held: seq<bool>, k: int, command: string, bindings: map<InputEvent, string>,
                              ui: Consumer, console: Consumer, hud: Consumer)
    requires |held| == SDLK_LAST && 0 <= k < SDLK_LAST && k != SDLK_ESCAPE
    requires Key(KeyDown, k) !in bindings
    requires !ui(Key(KeyDown, k)) && !console(Key(KeyDown, k)) && !hud(Key(KeyDown, k))
    ensures BindingArgs([LNumber(k), LNumber(1), LString(command)]) == Ok((Key(KeyDown, k), command))
    ensures var after := Insert(bindings, Key(KeyDown, k), command);
      command in CommandsFor(Chain(Batch(Frame([], held, false, false), [KeyDownEvent(k)]), ui, console, hud), after)
  {
    var after := Insert(bindings, Key(KeyDown, k), command);
    BoundKeyDownRunsCommand(held, k, after, ui, console, hud);
  }

  class Input {
    /** heldKeys[k] is true while key k is down. */
    var heldKeys: array<bool>
    /** The batch of the frame being dispatched; empty between frames. */
    var events: seq<InputEvent>
    /** Script commands bound to events. */
    var eventMappings: map<InputEvent, string>
    /** Tick count of the latest mouse motion. */
    var lastMouseMove: int

    ghost predicate Valid()
      reads this
    {
      heldKeys.Length == SDLK_LAST
    }

    constructor ()
      ensures Valid() && fresh(heldKeys)
      ensures forall k | 0 <= k < SDLK_LAST :: !heldKeys[k]
      ensures events == [] && eventMappings == map[] && lastMouseMove == 0
    {
      heldKeys := new bool[SDLK_LAST](_ => false);
      events := [];
      eventMappings := map[];
      lastMouseMove := 0;
    }

    /** Drains one frame of device events, dispatches the batch and reports whether quit was requested. */
    method Update(polled: seq<DeviceEvent>, ticks: int, ui: Consumer, console: Consumer, hud: Consumer)
      returns (quit: bool, ran: seq<string>)
      requires Valid() && KeysInRange(polled)
      modifies this`events, this`lastMouseMove, heldKeys
      ensures Valid() && events == [] && eventMappings == old(eventMappings)
      ensures var g := Drain(Frame(old(events), old(heldKeys[..]), false, false), polled);
        && heldKeys[..] == g.held
        && quit == g.quit
        && lastMouseMove == (if g.moved then ticks else old(lastMouseMove))
        && ran == CommandsFor(Chain(g.events + PressedEvents(g.held, SDLK_LAST), ui, console, hud), eventMappings)
    {
      ghost var g := Drain(Frame(events, heldKeys[..], false, false), polled);
      quit := DrainEvents(polled, ticks);
      ghost var held := heldKeys[..];
      assert events == g.events && held == g.held;
      EmitHeldKeys();
      assert heldKeys[..] == held;
      ran := Dispatch(ui, console, hud);
    }

    /** Passes the batch through the UI, the console and the heads-up display, runs the bound commands and clears the batch. */
    method Dispatch(ui: Consumer, console: Consumer, hud: Consumer) returns (ran: seq<string>)
      modifies this`events
      ensures events == []
      ensures ran == CommandsFor(Chain(old(events), ui, console, hud), eventMappings)
    {
      // The sub-input systems in turn: each leaves what it does not claim for the next.
      events := Unclaimed(events, ui);
      events := Unclaimed(events, console);
      events := Unclaimed(events, hud);
      ran := HandleLuaCallBacks(events);
      events := [];
    }

    /** The polling loop of a frame: folds the device events into the batch and the held-key table. */
    method DrainEvents(polled: seq<DeviceEvent>, ticks: int) returns (quit: bool)
      requires Valid() && KeysInRange(polled)
      modifies this`events, this`lastMouseMove, heldKeys
      ensures Valid()
      ensures var g := Drain(Frame(old(events), old(heldKeys[..]), false, false), polled);
        && events == g.events
        && heldKeys[..] == g.held
        && quit == g.quit
        && lastMouseMove == (if g.moved then ticks else old(lastMouseMove))
    {
      ghost var f0 := Frame(events, heldKeys[..], false, false);
      quit := false;
      ghost var moved := false;
      var i := 0;
      while i < |polled|
        invariant 0 <= i <= |polled| && Valid()
        invariant Drain(f0, polled[..i]) == Frame(events, heldKeys[..], quit, moved)
        invariant lastMouseMove == if moved then ticks else old(lastMouseMove)
      {
        assert polled[..i + 1][..i] == polled[..i];
        assert KeyInRange(polled[i]);
        match polled[i] {
          case QuitRequest =>
            quit := true;
          case KeyDownEvent(k) =>
            var q := HandleKeyDown(k);
            if q { quit := q; }
          case KeyUpEvent(k) =>
            var q := HandleKeyUp(k);
            if q { quit := q; }
          case MotionEvent(x, y) =>
            HandleMouseMotion(x, y, ticks);
            moved := true;
          case ButtonUpEvent(b, x, y) =>
            HandleMouseUp(b, x, y);
          case ButtonDownEvent(b, x, y) =>
            HandleMouseDown(b, x, y);
          case OtherEvent =>
        }
        i := i + 1;
      }
      assert polled[..|polled|] == polled;
    }

    /** Appends one KEYPRESSED event for every held key, in ascending key order. */
    method EmitHeldKeys()
      requires Valid()
      modifies this`events
      ensures events == old(events) + PressedEvents(heldKeys[..], SDLK_LAST)
    {
      var k := 0;
      while k < SDLK_LAST
        invariant 0 <= k <= SDLK_LAST
        invariant events == old(events) + PressedEvents(heldKeys[..], k)
      {
        if heldKeys[k] {
          events := events + [Key(KeyPressed, k)];
        }
        k := k + 1;
      }
    }

    method HandleMouseMotion(x: int, y: int, ticks: int)
      modifies this`events, this`lastMouseMove
      ensures events == old(events) + [Mouse(MouseMotion, x, y)]
      ensures lastMouseMove == ticks
    {
      events := events + [Mouse(MouseMotion, x, y)];
      lastMouseMove := ticks;
    }

    method HandleMouseDown(button: int, x: int, y: int)
      modifies this`events
      ensures events == old(events) + ButtonEvents(CheckMouseState(button, false), x, y)
      ensures CheckMouseState(button, false).Unhandled? ==> events == old(events)
    {
      var state := CheckMouseState(button, false);
      if !state.Unhandled? {
        events := events + [Mouse(state, x, y)];
      }
    }

    method HandleMouseUp(button: int, x: int, y: int)
      modifies this`events
      ensures events == old(events) + ButtonEvents(CheckMouseState(button, true), x, y)
      ensures CheckMouseState(button, true).Unhandled? ==> events == old(events)
    {
      var state := CheckMouseState(button, true);
      if !state.Unhandled? {
        events := events + [Mouse(state, x, y)];
      }
    }

    /** A key-down: Escape asks to quit; any other key enqueues Down then Typed and becomes held. */
    method HandleKeyDown(sym: int) returns (quit: bool)
      requires Valid() && 0 <= sym < SDLK_LAST
      modifies this`events, heldKeys
      ensures quit <==> sym == SDLK_ESCAPE
      ensures quit ==> events == old(events) && heldKeys[..] == old(heldKeys[..])
      ensures !quit ==> events == old(events) + [Key(KeyDown, sym), Key(KeyTyped, TypedLetter(Shifted(old(heldKeys[..])), sym))]
      ensures !quit ==> heldKeys[..] == old(heldKeys[..])[sym := true]
    {
      if sym == SDLK_ESCAPE {
        quit := true;
      } else {
        events := events + [Key(KeyDown, sym)];
        PushTypeEvent(sym);
        heldKeys[sym] := true;
        quit := false;
      }
    }

    /** A key-up: Escape asks to quit; any other key enqueues Up and is no longer held. */
    method HandleKeyUp(sym: int) returns (quit: bool)
      requires Valid() && 0 <= sym < SDLK_LAST
      modifies this`events, heldKeys
      ensures quit <==> sym == SDLK_ESCAPE
      ensures quit ==> events == old(events) && heldKeys[..] == old(heldKeys[..])
      ensures !quit ==> events == old(events) + [Key(KeyUp, sym)]
      ensures !quit ==> heldKeys[..] == old(heldKeys[..])[sym := false]
    {
      if sym == SDLK_ESCAPE {
        quit := true;
      } else {
        events := events + [Key(KeyUp, sym)];
        heldKeys[sym] := false;
        quit := false;
      }
    }

    /** Enqueues the Typed event for a key, using the shift state held at this moment. */
    method PushTypeEvent(key: int)
      requires Valid()
      modifies this`events
      ensures events == old(events) + [Key(KeyTyped, TypedLetter(Shifted(heldKeys[..]), key))]
    {
      var letter := key;
      if heldKeys[SDLK_LSHIFT] || heldKeys[SDLK_RSHIFT] {
        if SDLK_a <= key <= SDLK_z {
          letter := letter - 32;
        } else if SDLK_0 <= key <= SDLK_9 {
          letter := SHIFTED_DIGITS[key - SDLK_0] as int;
        } else if key in SHIFTED_PUNCTUATION {
          letter := SHIFTED_PUNCTUATION[key] as int;
        }
      }
      if key == SDLK_RETURN || key == SDLK_KP_ENTER {
        letter := '\n' as int;
      }
      events := events + [Key(KeyTyped, letter)];
    }

    /** Runs (returns, in order) the command bound to each event of the batch that has one. */
    method HandleLuaCallBacks(batch: seq<InputEvent>) returns (ran: seq<string>)
      ensures ran == CommandsFor(batch, eventMappings)
    {
      ran := [];
      var i := 0;
      while i < |batch|
        invariant 0 <= i <= |batch|
        invariant ran == CommandsFor(batch[..i], eventMappings)
      {
        assert batch[..i + 1][..i] == batch[..i];
        if batch[i] in eventMappings {
          ran := ran + [eventMappings[batch[i]]];
        }
        i := i + 1;
      }
      assert batch[..|batch|] == batch;
    }

    method RegisterCallBack(e: InputEvent, command: string)
      modifies this`eventMappings
      ensures eventMappings == Insert(old(eventMappings), e, command)
    {
      if e !in eventMappings {
        eventMappings := eventMappings[e := command];
      }
    }

    method UnRegisterCallBack(e: InputEvent)
      modifies this`eventMappings
      ensures eventMappings == old(eventMappings) - {e}
    {
      eventMappings := eventMappings - {e};
    }

    /** Host function RegisterKey(Key, State, Command). */
    method RegisterKey(args: seq<LuaValue>) returns (r: HostResult)
      modifies this`eventMappings
      ensures BindingArgs(args).Ok? ==>
        r == Returned([]) && eventMappings == Insert(old(eventMappings), BindingArgs(args).value.0, BindingArgs(args).value.1)
      ensures BindingArgs(args).Err? ==> r == Raised(BindingArgs(args).error) && eventMappings == old(eventMappings)
    {
      match BindingArgs(args)
      case Err(err) =>
        r := Raised(err);
      case Ok((e, command)) =>
        RegisterCallBack(e, command);
        r := Returned([]);
    }

    /** Host function UnRegisterKey(Key, State). */
    method UnRegisterKey(args: seq<LuaValue>) returns (r: HostResult)
      modifies this`eventMappings
      ensures UnbindingArgs(args).Ok? ==>
        r == Returned([]) && eventMappings == old(eventMappings) - {UnbindingArgs(args).value}
      ensures UnbindingArgs(args).Err? ==> r == Raised(UnbindingArgs(args).error) && eventMappings == old(eventMappings)
    {
      match UnbindingArgs(args)
      case Err(err) =>
        r := Raised(err);
      case Ok(e) =>
        UnRegisterCallBack(e);
        r := Returned([]);
    }
  }
}
