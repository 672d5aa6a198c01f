/**
 * The portfolio mini-game as a session: whether it is playing, the held
 * key flags, the player, the open dialog, the joystick and what the
 * dialog's "LEARN MORE" asked the page to do. `GameState` is the
 * specification; class `Game` updates the same fields in place.
 */
module GameSession {
  import opened Wrappers
  import opened Strings
  import opened GameWorld

  // ---------------------------------------------------------------------
  // Events, directions and intents
  // ---------------------------------------------------------------------

  /** A `keydown` or `keyup` carrying the event's `key` as typed. */
  datatype KeyEvent = Pressed(key: string) | Released(key: string)

  /** What confirming a dialog asks of the page: smooth-scroll to a `#…`
      selector (after a short delay), route to a path, or run the room's
      own action. */
  datatype Intent = ScrollTo(selector: string) | Navigate(path: string) | RunAction(action: RoomAction)

  /** The joystick's four directions. */
  datatype Dir = Up | Down | Left | Right

  /** The order in which the joystick adds directions, and so the order in
      which its key set is iterated. */
  const Order: seq<Dir> := [Up, Down, Left, Right]

  const JoystickThreshold: real := 15.0

  /** The `key` of the synthetic event for a direction. */
  function KeyName(d: Dir): string {
    match d
    case Up => "ArrowUp"
    case Down => "ArrowDown"
    case Left => "ArrowLeft"
    case Right => "ArrowRight"
  }

  /** The key flag a direction's event sets. */
  function FlagName(d: Dir): string {
    match d
    case Up => "arrowup"
    case Down => "arrowdown"
    case Left => "arrowleft"
    case Right => "arrowright"
  }

  /** That flag is the lower-cased event key. */
  lemma FlagNameIsLower(d: Dir)
    ensures FlagName(d) == Lower(KeyName(d))
  {
    match d
    case Up => LowerArrowUp();
    case Down => LowerArrowDown();
    case Left => LowerArrowLeft();
    case Right => LowerArrowRight();
  }

  lemma LowerArrowUp()
    ensures Lower("ArrowUp") == "arrowup"
  {
    var r := Lower("ArrowUp");
    assert r[0] == LowerChar('A') == 'a' && r[5] == LowerChar('U') == 'u';
    assert r[1] == 'r' && r[2] == 'r' && r[3] == 'o' && r[4] == 'w';
    assert r[6] == 'p';
  }

  lemma LowerArrowDown()
    ensures Lower("ArrowDown") == "arrowdown"
  {
    var r := Lower("ArrowDown");
    assert r[0] == LowerChar('A') == 'a' && r[5] == LowerChar('D') == 'd';
    assert r[1] == 'r' && r[2] == 'r' && r[3] == 'o' && r[4] == 'w';
    assert r[6] == 'o' && r[7] == 'w' && r[8] == 'n';
  }

  lemma LowerArrowLeft()
    ensures Lower("ArrowLeft") == "arrowleft"
  {
    var r := Lower("ArrowLeft");
    assert r[0] == LowerChar('A') == 'a' && r[5] == LowerChar('L') == 'l';
    assert r[1] == 'r' && r[2] == 'r' && r[3] == 'o' && r[4] == 'w';
    assert r[6] == 'e' && r[7] == 'f' && r[8] == 't';
  }

  lemma LowerArrowRight()
    ensures Lower("ArrowRight") == "arrowright"
  {
    var r := Lower("ArrowRight");
    assert r[0] == LowerChar('A') == 'a' && r[5] == LowerChar('R') == 'r';
    assert r[1] == 'r' && r[2] == 'r' && r[3] == 'o' && r[4] == 'w';
    assert r[6] == 'i' && r[7] == 'g' && r[8] == 'h' && r[9] == 't';
  }

  // ---------------------------------------------------------------------
  // The session
  // ---------------------------------------------------------------------

  /** `keys` holds the flags currently true; `activeKeys` the joystick's
      held directions; `dispatched` every synthetic key event sent to the
      window; `intents` every navigation the dialog asked for. */
  datatype GameState = GameState(
    playing: bool,
    showInstructions: bool,
    maximized: bool,
    dragging: bool,
    x: int, y: int,
    keys: set<string>,
    dialog: Option<Room>,
    activeKeys: set<Dir>,
    dispatched: seq<KeyEvent>,
    intents: seq<Intent>)

  /** The state when the section first renders. */
  function Initial(): GameState {
    GameState(false, true, false, false, StartX, StartY, {}, None, {}, [], [])
  }

  /** What every reachable state satisfies: the player is inside the field
      on even coordinates, a dialog names one of the rooms, and no dialog
      is open while the game is stopped. */
  predicate Valid(g: GameState) {
    && InField(g.x, g.y) && g.x % 2 == 0 && g.y % 2 == 0
    && (g.dialog.Some? ==> g.dialog.value in Rooms)
    && (!g.playing ==> g.dialog.None?)
  }

  /** The joystick's directions and the arrow-key flags agree. */
  predicate Synced(g: GameState) {
    forall d: Dir :: FlagName(d) in g.keys <==> d in g.activeKeys
  }

  // ---------------------------------------------------------------------
  // Buttons
  // ---------------------------------------------------------------------

  /** "Start Game": playing, instructions shown; a game that was stopped
      re-creates the player at the start and forgets every key flag. */
  function Start(g: GameState): (r: GameState)
    ensures r.playing && r.showInstructions
    ensures !g.playing ==> (r.x, r.y) == (StartX, StartY) && r.keys == {}
    ensures g.playing ==> r == g.(showInstructions := true)
    ensures r.dialog == g.dialog && r.intents == g.intents
  {
    if g.playing then g.(showInstructions := true)
    else g.(playing := true, showInstructions := true, x := StartX, y := StartY, keys := {})
  }

  /** The close button: stop, drop the dialog, leave full screen. */
  function Close(g: GameState): (r: GameState)
    ensures !r.playing && r.dialog.None? && !r.maximized
    ensures r.(playing := g.playing, dialog := g.dialog, maximized := g.maximized) == g
  {
    g.(playing := false, dialog := None, maximized := false)
  }

  /** "CANCEL" in the dialog. */
  function Cancel(g: GameState): (r: GameState)
    ensures r.dialog.None? && r.(dialog := g.dialog) == g
  {
    g.(dialog := None)
  }

  function ToggleMaximize(g: GameState): GameState {
    g.(maximized := !g.maximized)
  }

  function DismissInstructions(g: GameState): GameState {
    g.(showInstructions := false)
  }

  /** What "LEARN MORE" does for a room: a non-empty link wins over an
      action; a link starting with '#' scrolls, any other routes. */
  function DialogIntents(r: Room): seq<Intent> {
    if r.link.Some? && r.link.value != "" then
      if StartsWith(r.link.value, "#") then [ScrollTo(r.link.value)] else [Navigate(r.link.value)]
    else if r.action.Some? then [RunAction(r.action.value)]
    else []
  }

  /** `handleDialogAction`: nothing without a dialog; otherwise close it,
      stop the game and record the room's intent. */
  function Confirm(g: GameState): (r: GameState)
    ensures g.dialog.None? ==> r == g
    ensures g.dialog.Some? ==>
      && r.dialog.None? && !r.playing
      && r.intents == g.intents + DialogIntents(g.dialog.value)
      && (r.x, r.y, r.keys) == (g.x, g.y, g.keys)
  {
    if g.dialog.None? then g
    else g.(dialog := None, playing := false, intents := g.intents + DialogIntents(g.dialog.value))
  }

  // ---------------------------------------------------------------------
  // Keys
  // ---------------------------------------------------------------------

  /** The window's key listeners, attached only while playing: keydown sets
      the lower-cased key's flag, keyup clears it. */
  function HandleKey(g: GameState, e: KeyEvent): (r: GameState)
    ensures !g.playing ==> r == g
    ensures r.(keys := g.keys) == g
    ensures g.playing && e.Pressed? ==> r.keys == g.keys + {Lower(e.key)}
    ensures g.playing && e.Released? ==> r.keys == g.keys - {Lower(e.key)}
  {
    if !g.playing then g
    else match e
      case Pressed(k) => g.(keys := g.keys + {Lower(k)})
      case Released(k) => g.(keys := g.keys - {Lower(k)})
  }

  /** A synthetic event dispatched to the window. */
  function Send(g: GameState, e: KeyEvent): GameState {
    HandleKey(g, e).(dispatched := g.dispatched + [e])
  }

  /** Several synthetic events, in order. */
  function SendAll(g: GameState, es: seq<KeyEvent>): GameState
    decreases |es|
  {
    if es == [] then g else Send(SendAll(g, es[..|es| - 1]), es[|es| - 1])
  }

  /** The mobile ACTION button: a keydown of space, never a keyup. */
  function ActionButton(g: GameState): (r: GameState)
    ensures r.dispatched == g.dispatched + [Pressed(" ")]
    ensures g.playing ==> " " in r.keys
    ensures r.(keys := g.keys, dispatched := g.dispatched) == g
  {
    LowerFixesLowerCase(" ");
    Send(g, Pressed(" "))
  }

  // ---------------------------------------------------------------------
  // The frame
  // ---------------------------------------------------------------------

  /** The movement and interaction part of one `gameLoop` frame: move, then
      open the dialog of the room whose door is near if the space flag is
      set, clearing that flag. The frame does not look at the dialog. */
  function Frame(g: GameState): (r: GameState)
    ensures !g.playing ==> r == g
    ensures g.playing ==> (r.x, r.y) == Move(Rooms, g.keys, g.x, g.y)
    ensures r.dialog == g.dialog || (" " in g.keys && r.dialog.Some? && r.dialog.value in Rooms)
    ensures r.keys == g.keys || r.keys == g.keys - {" "}
    ensures r.(x := g.x, y := g.y, keys := g.keys, dialog := g.dialog) == g
  {
    if !g.playing then g
    else
      var p := Move(Rooms, g.keys, g.x, g.y);
      var near := DoorRoom(Rooms, p.0, p.1);
      if near.Some? && " " in g.keys then g.(x := p.0, y := p.1, keys := g.keys - {" "}, dialog := near)
      else g.(x := p.0, y := p.1)
  }

  // ---------------------------------------------------------------------
  // The joystick
  // ---------------------------------------------------------------------

  /** The directions a (clamped) stick offset holds: strictly beyond the
      threshold on each axis. */
  function Held(dx: real, dy: real): set<Dir> {
    (if dy < -JoystickThreshold then {Up} else {})
    + (if dy > JoystickThreshold then {Down} else {})
    + (if dx < -JoystickThreshold then {Left} else {})
    + (if dx > JoystickThreshold then {Right} else {})
  }

  /** The directions of `order` that are in `a` but not in `b`. */
  function Leaving(order: seq<Dir>, a: set<Dir>, b: set<Dir>): seq<Dir>
    decreases |order|
  {
    if order == [] then []
    else
      var d := order[|order| - 1];
      Leaving(order[..|order| - 1], a, b) + (if d in a && d !in b then [d] else [])
  }

  function Releases(ds: seq<Dir>): seq<KeyEvent>
    decreases |ds|
  {
    if ds == [] then [] else Releases(ds[..|ds| - 1]) + [Released(KeyName(ds[|ds| - 1]))]
  }

  function Presses(ds: seq<Dir>): seq<KeyEvent>
    decreases |ds|
  {
    if ds == [] then [] else Presses(ds[..|ds| - 1]) + [Pressed(KeyName(ds[|ds| - 1]))]
  }

  /** The events moving the stick from `from` to `to` sends: keyups for the
      directions let go, then keydowns for the new ones. */
  function Transition(from: set<Dir>, to: set<Dir>): seq<KeyEvent> {
    Releases(Leaving(Order, from, to)) + Presses(Leaving(Order, to, from))
  }

  /** `handleJoystickMove` with the offset already clamped to the base. */
  function JoystickMove(g: GameState, dx: real, dy: real): (r: GameState)
    ensures r.activeKeys == Held(dx, dy)
    ensures r.(keys := g.keys, dispatched := g.dispatched, activeKeys := g.activeKeys) == g
  {
    var to := Held(dx, dy);
    SendAllKeepsRest(g, Transition(g.activeKeys, to));
    SendAll(g, Transition(g.activeKeys, to)).(activeKeys := to)
  }

  /** `handleJoystickStart` */
  function JoystickStart(g: GameState): GameState {
    g.(dragging := true)
  }

  /** `handleJoystickEnd`: stop dragging and release every held direction. */
  function JoystickEnd(g: GameState): (r: GameState)
    ensures !r.dragging && r.activeKeys == {}
    ensures r.(keys := g.keys, dispatched := g.dispatched, activeKeys := g.activeKeys, dragging := g.dragging) == g
  {
    SendAllKeepsRest(g.(dragging := false), Releases(Leaving(Order, g.activeKeys, {})));
    SendAll(g.(dragging := false), Releases(Leaving(Order, g.activeKeys, {}))).(activeKeys := {})
  }

  /** The stick follows the mouse only while dragging. */
  function MouseMove(g: GameState, dx: real, dy: real): GameState {
    if g.dragging then JoystickMove(g, dx, dy) else g
  }

  /** A mouseup anywhere ends a drag in progress. */
  function MouseUp(g: GameState): (r: GameState)
    ensures !r.dragging
    ensures g.dragging ==> r.activeKeys == {}
    ensures !g.dragging ==> r == g
  {
    if g.dragging then JoystickEnd(g) else g
  }

  // ---------------------------------------------------------------------
  // Lemmas: the frame
  // ---------------------------------------------------------------------

  lemma InitialValid()
    ensures Valid(Initial()) && Synced(Initial())
  {
    StartIsFree();
  }

  /** A frame keeps the session valid. */
  lemma FrameValid(g: GameState)
    requires Valid(g)
    ensures Valid(Frame(g))
  {
    if g.playing {
      MoveStaysInField(Rooms, g.keys, g.x, g.y);
      MoveKeepsEven(Rooms, g.keys, g.x, g.y);
    }
  }

  /** A frame opens a dialog exactly when the player ends near a door with
      the space flag set; it then opens the first such room and clears the
      flag, and otherwise leaves the dialog and the flags alone. */
  lemma FrameOpensDialog(g: GameState)
    requires g.playing
    ensures var p := Move(Rooms, g.keys, g.x, g.y);
      var near := DoorRoom(Rooms, p.0, p.1);
      && (Frame(g).x, Frame(g).y) == p
      && (near.Some? && " " in g.keys ==> Frame(g).dialog == near && Frame(g).keys == g.keys - {" "})
      && (near.None? || " " !in g.keys ==> Frame(g).dialog == g.dialog && Frame(g).keys == g.keys)
  {
  }

  /** One press opens one dialog: after a frame that opened a dialog, the
      next frame cannot open one again until space is pressed anew. */
  lemma OnePressOneDialog(g: GameState)
    requires g.playing && " " in g.keys
    requires DoorRoom(Rooms, Frame(g).x, Frame(g).y).Some?
    ensures " " !in Frame(g).keys
    ensures Frame(Frame(g)).dialog == Frame(g).dialog
    ensures Frame(Frame(g)).keys == Frame(g).keys
  {
    FrameOpensDialog(g);
    FrameOpensDialog(Frame(g));
  }

  /** A space press away from every door stays latched: the flag is still
      set after the frame. */
  lemma SpaceLatchedAwayFromDoors(g: GameState)
    requires g.playing && " " in g.keys
    requires DoorRoom(Rooms, Frame(g).x, Frame(g).y).None?
    ensures " " in Frame(g).keys && Frame(g).dialog == g.dialog
  {
    FrameOpensDialog(g);
  }

  /** The frame does not consult the dialog: with or without one open the
      player moves the same. */
  lemma MovesUnderDialog(g: GameState, d: Option<Room>)
    ensures Frame(g.(dialog := d)).x == Frame(g).x && Frame(g.(dialog := d)).y == Frame(g).y
  {
  }

  // ---------------------------------------------------------------------
  // Lemmas: buttons and the dialog
  // ---------------------------------------------------------------------

  /** The button transitions keep the session valid. */
  lemma ButtonsValid(g: GameState)
    requires Valid(g)
    ensures Valid(Start(g)) && Valid(Close(g)) && Valid(Cancel(g)) && Valid(Confirm(g))
    ensures Valid(ToggleMaximize(g)) && Valid(DismissInstructions(g))
  {
    StartIsFree();
  }

  /** A room with a non-empty link or an action yields exactly one intent;
      a non-empty link always wins over the action. */
  lemma OneIntent(r: Room)
    ensures (r.link.Some? && r.link.value != "") || r.action.Some? ==> |DialogIntents(r)| == 1
    ensures r.link.Some? && r.link.value != "" ==>
      DialogIntents(r) == [if r.link.value[0] == '#' then ScrollTo(r.link.value) else Navigate(r.link.value)]
    ensures (r.link.None? || r.link.value == "") && r.action.Some? ==> DialogIntents(r) == [RunAction(r.action.value)]
  {
  }

  /** The five rooms: three `#…` links scroll, the experience link routes,
      the terminal room runs its scroll action. */
  lemma RoomIntents()
    ensures DialogIntents(Rooms[0]) == [ScrollTo("#projects")]
    ensures DialogIntents(Rooms[1]) == [Navigate("/work-experience")]
    ensures DialogIntents(Rooms[2]) == [ScrollTo("#about")]
    ensures DialogIntents(Rooms[3]) == [ScrollTo("#contact")]
    ensures DialogIntents(Rooms[4]) == [RunAction(ScrollIntoView("terminal-section"))]
  {
    assert StartsWith("#projects", "#") && StartsWith("#about", "#") && StartsWith("#contact", "#");
    assert "/work-experience"[0] != '#';
  }

  // ---------------------------------------------------------------------
  // Lemmas: keys and the joystick
  // ---------------------------------------------------------------------

  /** The flag names of some directions. */
  function Flags(ds: seq<Dir>): set<string>
    decreases |ds|
  {
    if ds == [] then {} else Flags(ds[..|ds| - 1]) + {FlagName(ds[|ds| - 1])}
  }

  lemma {:induction false} FlagsMember(ds: seq<Dir>, d: Dir)
    ensures FlagName(d) in Flags(ds) <==> d in ds
    decreases |ds|
  {
    if ds != [] {
      FlagsMember(ds[..|ds| - 1], d);
      FlagNameInjective(d, ds[|ds| - 1]);
      assert ds == ds[..|ds| - 1] + [ds[|ds| - 1]];
    }
  }

  /** The stick never holds opposite directions. */
  lemma HeldExclusive(dx: real, dy: real)
    ensures !(Up in Held(dx, dy) && Down in Held(dx, dy))
    ensures !(Left in Held(dx, dy) && Right in Held(dx, dy))
  {
  }

  lemma {:induction false} LeavingMember(order: seq<Dir>, a: set<Dir>, b: set<Dir>, d: Dir)
    ensures d in Leaving(order, a, b) <==> d in order && d in a && d !in b
    decreases |order|
  {
    if order != [] {
      var init := order[..|order| - 1];
      LeavingMember(init, a, b, d);
      assert order == init + [order[|order| - 1]];
    }
  }

  lemma {:induction false} SendAllAppend(g: GameState, es: seq<KeyEvent>, fs: seq<KeyEvent>)
    ensures SendAll(g, es + fs) == SendAll(SendAll(g, es), fs)
    decreases |fs|
  {
    if fs == [] {
      assert es + fs == es;
    } else {
      var init := fs[..|fs| - 1];
      SendAllAppend(g, es, init);
      assert (es + fs)[..|es + fs| - 1] == es + init;
      assert (es + fs)[|es + fs| - 1] == fs[|fs| - 1];
    }
  }

  /** While stopped, synthetic events are only logged. */
  lemma {:induction false} SendAllStopped(g: GameState, es: seq<KeyEvent>)
    requires !g.playing
    ensures SendAll(g, es) == g.(dispatched := g.dispatched + es)
    decreases |es|
  {
    if es != [] {
      var init := es[..|es| - 1];
      SendAllStopped(g, init);
      assert init + [es[|es| - 1]] == es;
    }
  }

  /** While playing, releasing directions clears exactly their flags. */
  lemma {:induction false} SendReleases(g: GameState, ds: seq<Dir>)
    requires g.playing
    ensures SendAll(g, Releases(ds)).keys == g.keys - Flags(ds)
    ensures SendAll(g, Releases(ds)).dispatched == g.dispatched + Releases(ds)
    decreases |ds|
  {
    if ds != [] {
      var init := ds[..|ds| - 1];
      var es := Releases(ds);
      assert es[..|es| - 1] == Releases(init);
      SendReleases(g, init);
      SendAllKeepsRest(g, Releases(init));
      FlagNameIsLower(ds[|ds| - 1]);
    }
  }

  lemma {:induction false} SendPresses(g: GameState, ds: seq<Dir>)
    requires g.playing
    ensures SendAll(g, Presses(ds)).keys == g.keys + Flags(ds)
    ensures SendAll(g, Presses(ds)).dispatched == g.dispatched + Presses(ds)
    decreases |ds|
  {
    if ds != [] {
      var init := ds[..|ds| - 1];
      var es := Presses(ds);
      assert es[..|es| - 1] == Presses(init);
      SendPresses(g, init);
      SendAllKeepsRest(g, Presses(init));
      FlagNameIsLower(ds[|ds| - 1]);
    }
  }

  /** A direction's key name has its own length and sixth character. */
  function Signature(d: Dir): (int, char) {
    match d
    case Up => (7, 'U')
    case Down => (9, 'D')
    case Left => (9, 'L')
    case Right => (10, 'R')
  }

  lemma KeyNameInjective(a: Dir, b: Dir)
    ensures KeyName(a) == KeyName(b) ==> a == b
  {
    assert (|KeyName(a)|, KeyName(a)[5]) == Signature(a);
    assert (|KeyName(b)|, KeyName(b)[5]) == Signature(b);
  }

  lemma FlagNameInjective(a: Dir, b: Dir)
    ensures FlagName(a) == FlagName(b) ==> a == b
  {
    assert (|FlagName(a)|, FlagName(a)[5]) == (Signature(a).0, LowerChar(Signature(a).1));
    assert (|FlagName(b)|, FlagName(b)[5]) == (Signature(b).0, LowerChar(Signature(b).1));
  }

  lemma {:induction false} ReleasesMember(ds: seq<Dir>, d: Dir)
    ensures Released(KeyName(d)) in Releases(ds) <==> d in ds
    ensures forall e :: e in Releases(ds) ==> e.Released?
    decreases |ds|
  {
    if ds != [] {
      var init := ds[..|ds| - 1];
      ReleasesMember(init, d);
      KeyNameInjective(d, ds[|ds| - 1]);
      assert ds == init + [ds[|ds| - 1]];
    }
  }

  lemma {:induction false} PressesMember(ds: seq<Dir>, d: Dir)
    ensures Pressed(KeyName(d)) in Presses(ds) <==> d in ds
    ensures forall e :: e in Presses(ds) ==> e.Pressed?
    decreases |ds|
  {
    if ds != [] {
      var init := ds[..|ds| - 1];
      PressesMember(init, d);
      KeyNameInjective(d, ds[|ds| - 1]);
      assert ds == init + [ds[|ds| - 1]];
    }
  }

  lemma InOrder(d: Dir)
    ensures d in Order
  {
    assert Order[0] == Up && Order[1] == Down && Order[2] == Left && Order[3] == Right;
  }

  /** Moving the stick sends a keyup exactly for each direction let go and
      a keydown exactly for each direction newly held, keyups first. */
  lemma TransitionEvents(from: set<Dir>, to: set<Dir>, d: Dir)
    ensures Released(KeyName(d)) in Transition(from, to) <==> d in from && d !in to
    ensures Pressed(KeyName(d)) in Transition(from, to) <==> d in to && d !in from
    ensures forall i, j :: (0 <= i < j < |Transition(from, to)| && Transition(from, to)[j].Released?
      ==> Transition(from, to)[i].Released?)
  {
    var off := Leaving(Order, from, to);
    var on := Leaving(Order, to, from);
    ReleasesMember(off, d);
    PressesMember(on, d);
    InOrder(d);
    LeavingMember(Order, from, to, d);
    LeavingMember(Order, to, from, d);
    var t := Transition(from, to);
    assert t == Releases(off) + Presses(on);
    forall i | 0 <= i < |t| && i >= |Releases(off)| ensures t[i].Pressed? {
      assert t[i] == Presses(on)[i - |Releases(off)|];
    }
    forall i | 0 <= i < |Releases(off)| ensures t[i].Released? {
      assert t[i] == Releases(off)[i];
    }
  }

  /** Every flag in `Flags(ds)` is an arrow flag. */
  lemma {:induction false} FlagsAreArrows(ds: seq<Dir>, k: string)
    requires k in Flags(ds)
    ensures exists d: Dir :: k == FlagName(d)
    decreases |ds|
  {
    if k != FlagName(ds[|ds| - 1]) {
      FlagsAreArrows(ds[..|ds| - 1], k);
    }
  }

  /** The flags after moving the stick: those let go cleared, the new ones
      set. */
  lemma JoystickFlags(g: GameState, dx: real, dy: real)
    requires g.playing
    ensures var to := Held(dx, dy);
      JoystickMove(g, dx, dy).keys
        == g.keys - Flags(Leaving(Order, g.activeKeys, to)) + Flags(Leaving(Order, to, g.activeKeys))
  {
    var to := Held(dx, dy);
    var off := Leaving(Order, g.activeKeys, to);
    var on := Leaving(Order, to, g.activeKeys);
    SendAllAppend(g, Releases(off), Presses(on));
    SendReleases(g, off);
    var g1 := SendAll(g, Releases(off));
    SendAllKeepsRest(g, Releases(off));
    SendPresses(g1, on);
  }

  /** While playing, moving the stick keeps the arrow flags in step with
      the held directions and touches no other flag. */
  lemma JoystickKeepsSync(g: GameState, dx: real, dy: real)
    requires g.playing && Synced(g)
    ensures JoystickMove(g, dx, dy).activeKeys == Held(dx, dy)
    ensures Synced(JoystickMove(g, dx, dy))
    ensures forall k :: (forall d: Dir :: k != FlagName(d)) ==> (k in JoystickMove(g, dx, dy).keys <==> k in g.keys)
  {
    var to := Held(dx, dy);
    var off := Leaving(Order, g.activeKeys, to);
    var on := Leaving(Order, to, g.activeKeys);
    var h := JoystickMove(g, dx, dy);
    JoystickFlags(g, dx, dy);
    forall d: Dir ensures FlagName(d) in h.keys <==> d in to {
      FlagsMember(off, d);
      FlagsMember(on, d);
      InOrder(d);
      LeavingMember(Order, g.activeKeys, to, d);
      LeavingMember(Order, to, g.activeKeys, d);
    }
    forall k | forall d: Dir :: k != FlagName(d)
      ensures k in h.keys <==> k in g.keys
    {
      if k in Flags(off) { FlagsAreArrows(off, k); }
      if k in Flags(on) { FlagsAreArrows(on, k); }
    }
  }

  /** What ending a drag dispatches: a keyup per held direction. */
  lemma JoystickEndSends(g: GameState)
    ensures var off := Leaving(Order, g.activeKeys, {});
      && JoystickEnd(g).dispatched == g.dispatched + Releases(off)
      && (g.playing ==> JoystickEnd(g).keys == g.keys - Flags(off))
  {
    var g0 := g.(dragging := false);
    var off := Leaving(Order, g.activeKeys, {});
    if g.playing {
      SendReleases(g0, off);
    } else {
      SendAllStopped(g0, Releases(off));
    }
  }

  /** Ending a drag releases every held direction and empties the held
      set; while playing, no arrow flag is left set. */
  lemma JoystickEndReleasesAll(g: GameState, d: Dir)
    ensures var h := JoystickEnd(g);
      && h.activeKeys == {} && !h.dragging
      && |h.dispatched| >= |g.dispatched| && h.dispatched[..|g.dispatched|] == g.dispatched
      && (Released(KeyName(d)) in h.dispatched[|g.dispatched|..] <==> d in g.activeKeys)
      && (forall e :: e in h.dispatched[|g.dispatched|..] ==> e.Released?)
    ensures g.playing && Synced(g) ==> FlagName(d) !in JoystickEnd(g).keys
  {
    var off := Leaving(Order, g.activeKeys, {});
    var h := JoystickEnd(g);
    JoystickEndSends(g);
    SendAllKeepsRest(g.(dragging := false), Releases(off));
    assert h.dispatched[|g.dispatched|..] == Releases(off);
    ReleasesMember(off, d);
    InOrder(d);
    LeavingMember(Order, g.activeKeys, {}, d);
    FlagsMember(off, d);
  }

  /** Key events change only the flags and the event log. */
  lemma {:induction false} SendAllKeepsRest(g: GameState, es: seq<KeyEvent>)
    ensures SendAll(g, es).(keys := g.keys, dispatched := g.dispatched) == g
    decreases |es|
  {
    if es != [] {
      SendAllKeepsRest(g, es[..|es| - 1]);
    }
  }

  /** The joystick and the keys keep the session valid. */
  lemma InputsValid(g: GameState, e: KeyEvent, dx: real, dy: real)
    requires Valid(g)
    ensures Valid(HandleKey(g, e)) && Valid(ActionButton(g))
    ensures Valid(JoystickMove(g, dx, dy)) && Valid(JoystickEnd(g)) && Valid(JoystickStart(g))
    ensures Valid(MouseMove(g, dx, dy)) && Valid(MouseUp(g))
  {
    SendAllKeepsRest(g, Transition(g.activeKeys, Held(dx, dy)));
    SendAllKeepsRest(g.(dragging := false), Releases(Leaving(Order, g.activeKeys, {})));
  }

  /** The stick follows the mouse only while dragging; a mouseup with no
      drag in progress does nothing. */
  lemma MouseNeedsDrag(g: GameState, dx: real, dy: real)
    requires !g.dragging
    ensures MouseMove(g, dx, dy) == g && MouseUp(g) == g
  {
  }

  // ---------------------------------------------------------------------
  // Stepping the joystick's event loops
  // ---------------------------------------------------------------------

  lemma SendAllSnoc(g: GameState, es: seq<KeyEvent>, e: KeyEvent)
    ensures SendAll(g, es + [e]) == Send(SendAll(g, es), e)
  {
    assert (es + [e])[..|es|] == es;
  }

  /** Scanning one more direction of `order` adds at most its keyup. */
  lemma ReleasesStep(order: seq<Dir>, i: nat, a: set<Dir>, b: set<Dir>)
    requires i < |order|
    ensures order[i] in a && order[i] !in b ==>
      Releases(Leaving(order[..i + 1], a, b)) == Releases(Leaving(order[..i], a, b)) + [Released(KeyName(order[i]))]
    ensures !(order[i] in a && order[i] !in b) ==>
      Releases(Leaving(order[..i + 1], a, b)) == Releases(Leaving(order[..i], a, b))
  {
    assert order[..i + 1][..i] == order[..i];
    assert order[..i + 1][i] == order[i];
    var ds := Leaving(order[..i], a, b);
    if order[i] in a && order[i] !in b {
      assert Leaving(order[..i + 1], a, b) == ds + [order[i]];
      assert (ds + [order[i]])[..|ds|] == ds;
    } else {
      assert Leaving(order[..i + 1], a, b) == ds + [];
      assert ds + [] == ds;
    }
  }

  /** Scanning one more direction of `order` adds at most its keydown. */
  lemma PressesStep(order: seq<Dir>, i: nat, a: set<Dir>, b: set<Dir>)
    requires i < |order|
    ensures order[i] in a && order[i] !in b ==>
      Presses(Leaving(order[..i + 1], a, b)) == Presses(Leaving(order[..i], a, b)) + [Pressed(KeyName(order[i]))]
    ensures !(order[i] in a && order[i] !in b) ==>
      Presses(Leaving(order[..i + 1], a, b)) == Presses(Leaving(order[..i], a, b))
  {
    assert order[..i + 1][..i] == order[..i];
    assert order[..i + 1][i] == order[i];
    var ds := Leaving(order[..i], a, b);
    if order[i] in a && order[i] !in b {
      assert Leaving(order[..i + 1], a, b) == ds + [order[i]];
      assert (ds + [order[i]])[..|ds|] == ds;
    } else {
      assert Leaving(order[..i + 1], a, b) == ds + [];
      assert ds + [] == ds;
    }
  }

  /** The directions of the stick offset, decided axis by axis. */
  method KeysFor(dx: real, dy: real) returns (newKeys: set<Dir>)
    ensures newKeys == Held(dx, dy)
  {
    newKeys := {};
    if dy < -JoystickThreshold { newKeys := newKeys + {Up}; }
    if dy > JoystickThreshold { newKeys := newKeys + {Down}; }
    if dx < -JoystickThreshold { newKeys := newKeys + {Left}; }
    if dx > JoystickThreshold { newKeys := newKeys + {Right}; }
  }

  // ---------------------------------------------------------------------
  // The component
  // ---------------------------------------------------------------------

  /** The mini-game component: React state, the effect's player and key
      map, and the joystick's active-key ref, as fields updated in place. */
  class Game {
    var playing: bool
    var showInstructions: bool
    var maximized: bool
    var dragging: bool
    var x: int
    var y: int
    var keys: set<string>
    var dialog: Option<Room>
    var activeKeys: set<Dir>
    var dispatched: seq<KeyEvent>
    var intents: seq<Intent>

    function State(): GameState
      reads this
    {
      GameState(playing, showInstructions, maximized, dragging, x, y, keys, dialog, activeKeys, dispatched, intents)
    }

    constructor()
      ensures State() == Initial()
    {
      playing, showInstructions, maximized, dragging := false, true, false, false;
      x, y := StartX, StartY;
      keys, dialog, activeKeys := {}, None, {};
      dispatched, intents := [], [];
    }

    /** "Start Game"; the effect that runs when play begins re-creates the
        player and an empty key map. */
    method ClickStart()
      modifies this
      ensures State() == Start(old(State()))
    {
      if !playing {
        x, y := StartX, StartY;
        keys := {};
      }
      playing := true;
      showInstructions := true;
    }

    method ClickClose()
      modifies this
      ensures State() == Close(old(State()))
    {
      playing := false;
      dialog := None;
      maximized := false;
    }

    method ClickCancel()
      modifies this
      ensures State() == Cancel(old(State()))
    {
      dialog := None;
    }

    method ClickMaximize()
      modifies this
      ensures State() == ToggleMaximize(old(State()))
    {
      maximized := !maximized;
    }

    method ClickDismiss()
      modifies this
      ensures State() == DismissInstructions(old(State()))
    {
      showInstructions := false;
    }

    /** `handleDialogAction` */
    method HandleDialogAction()
      modifies this
      ensures State() == Confirm(old(State()))
    {
      if dialog.None? {
        return;
      }
      var room := dialog.value;
      dialog := None;
      playing := false;
      if room.link.Some? && room.link.value != "" {
        if StartsWith(room.link.value, "#") {
          intents := intents + [ScrollTo(room.link.value)];
        } else {
          intents := intents + [Navigate(room.link.value)];
        }
      } else if room.action.Some? {
        intents := intents + [RunAction(room.action.value)];
      }
    }

    /** The window's keydown listener. */
    method HandleKeyDown(key: string)
      modifies this
      ensures State() == HandleKey(old(State()), Pressed(key))
    {
      if playing {
        keys := keys + {Lower(key)};
      }
    }

    /** The window's keyup listener. */
    method HandleKeyUp(key: string)
      modifies this
      ensures State() == HandleKey(old(State()), Released(key))
    {
      if playing {
        keys := keys - {Lower(key)};
      }
    }

    /** `window.dispatchEvent` of a synthetic key event. */
    method DispatchEvent(e: KeyEvent)
      modifies this
      ensures State() == Send(old(State()), e)
    {
      dispatched := dispatched + [e];
      if playing {
        match e
        case Pressed(k) => keys := keys + {Lower(k)};
        case Released(k) => keys := keys - {Lower(k)};
      }
    }

    /** The ACTION button's touchstart and mousedown. */
    method ClickAction()
      modifies this
      ensures State() == ActionButton(old(State()))
    {
      DispatchEvent(Pressed(" "));
    }

    /** One frame of `gameLoop`: movement and interaction. */
    method GameLoop()
      modifies this
      ensures State() == Frame(old(State()))
    {
      if !playing {
        return;
      }
      x, y := NextPosition(Rooms, keys, x, y);
      var nearRoom := CheckNearDoor(Rooms, x, y);
      if nearRoom.Some? && " " in keys {
        keys := keys - {" "};
        dialog := nearRoom;
      }
    }

    /** `handleJoystickStart` */
    method HandleJoystickStart()
      modifies this
      ensures State() == JoystickStart(old(State()))
    {
      dragging := true;
    }

    /** Keyups, in iteration order, for the held directions not in `keep`. */
    method ReleaseAllBut(keep: set<Dir>)
      modifies this
      ensures State() == SendAll(old(State()), Releases(Leaving(Order, old(activeKeys), keep)))
    {
      ghost var g0 := State();
      var i := 0;
      while i < |Order|
        invariant 0 <= i <= |Order|
        invariant activeKeys == g0.activeKeys
        invariant State() == SendAll(g0, Releases(Leaving(Order[..i], g0.activeKeys, keep)))
      {
        var key := Order[i];
        ReleasesStep(Order, i, g0.activeKeys, keep);
        if key in activeKeys && key !in keep {
          SendAllSnoc(g0, Releases(Leaving(Order[..i], g0.activeKeys, keep)), Released(KeyName(key)));
          DispatchEvent(Released(KeyName(key)));
        }
        i := i + 1;
      }
      assert Order[..|Order|] == Order;
    }

    /** Keydowns, in iteration order, for the directions of `next` not yet
        held. */
    method PressNew(next: set<Dir>)
      modifies this
      ensures State() == SendAll(old(State()), Presses(Leaving(Order, next, old(activeKeys))))
    {
      ghost var g0 := State();
      var i := 0;
      while i < |Order|
        invariant 0 <= i <= |Order|
        invariant activeKeys == g0.activeKeys
        invariant State() == SendAll(g0, Presses(Leaving(Order[..i], next, g0.activeKeys)))
      {
        var key := Order[i];
        PressesStep(Order, i, next, g0.activeKeys);
        if key in next && key !in activeKeys {
          SendAllSnoc(g0, Presses(Leaving(Order[..i], next, g0.activeKeys)), Pressed(KeyName(key)));
          DispatchEvent(Pressed(KeyName(key)));
        }
        i := i + 1;
      }
      assert Order[..|Order|] == Order;
    }

    /** `handleJoystickMove` with the clamped offset: keyups for the
        directions let go, keydowns for the new ones, then the new set. */
    method HandleJoystickMove(dx: real, dy: real)
      modifies this
      ensures State() == JoystickMove(old(State()), dx, dy)
    {
      var newKeys := KeysFor(dx, dy);
      ghost var g0 := State();
      ghost var off := Releases(Leaving(Order, g0.activeKeys, newKeys));
      ghost var on := Presses(Leaving(Order, newKeys, g0.activeKeys));
      ReleaseAllBut(newKeys);
      SendAllKeepsRest(g0, off);
      PressNew(newKeys);
      SendAllAppend(g0, off, on);
      assert Transition(g0.activeKeys, newKeys) == off + on;
      activeKeys := newKeys;
    }

    /** `handleJoystickEnd`: stop dragging, a keyup per held direction,
        then an empty set. */
    method HandleJoystickEnd()
      modifies this
      ensures State() == JoystickEnd(old(State()))
    {
      dragging := false;
      ReleaseAllBut({});
      activeKeys := {};
    }

    /** `onTouchMove`: the stick follows the touch. */
    method OnTouchMove(dx: real, dy: real)
      modifies this
      ensures State() == JoystickMove(old(State()), dx, dy)
    {
      HandleJoystickMove(dx, dy);
    }

    /** `onMouseMove`: the stick follows the mouse only while dragging. */
    method OnMouseMove(dx: real, dy: real)
      modifies this
      ensures State() == MouseMove(old(State()), dx, dy)
    {
      if dragging {
        HandleJoystickMove(dx, dy);
      }
    }

    /** The global mouseup listener. */
    method OnGlobalMouseUp()
      modifies this
      ensures State() == MouseUp(old(State()))
    {
      if dragging {
        HandleJoystickEnd();
      }
    }
  }
}
