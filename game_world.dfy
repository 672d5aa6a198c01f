/**
 * The world of the portfolio mini-game: the five rooms, the canvas
 * boundary, the player's movement rule and the door test. Positions are
 * integers: the player starts at (320, 240) and moves 2 pixels per frame,
 * so no fractional coordinate ever arises.
 */
module GameWorld {
  import opened Wrappers

  // ---------------------------------------------------------------------
  // Rooms
  // ---------------------------------------------------------------------

  datatype RoomId = ProjectsRoom | ExperienceRoom | AboutRoom | ContactRoom | TerminalRoom

  /** What a room's own action does: the terminal room smooth-scrolls the
      element with the given id into view. */
  datatype RoomAction = ScrollIntoView(elementId: string)

  /** A room: its rectangle, and where "LEARN MORE" leads (a link, else an
      action). The name, colour and description are display-only and are
      functions of the id. */
  datatype Room = Room(
    id: RoomId,
    x: int, y: int, width: int, height: int,
    link: Option<string>,
    action: Option<RoomAction>)

  function Key(id: RoomId): string {
    match id
    case ProjectsRoom => "projects"
    case ExperienceRoom => "experience"
    case AboutRoom => "about"
    case ContactRoom => "contact"
    case TerminalRoom => "terminal"
  }

  function Title(id: RoomId): string {
    match id
    case ProjectsRoom => "PROJECTS"
    case ExperienceRoom => "EXPERIENCE"
    case AboutRoom => "ABOUT ME"
    case ContactRoom => "CONTACT"
    case TerminalRoom => "TERMINAL"
  }

  function Color(id: RoomId): string {
    match id
    case ProjectsRoom => "#22c55e"
    case ExperienceRoom => "#f59e0b"
    case AboutRoom => "#3b82f6"
    case ContactRoom => "#ec4899"
    case TerminalRoom => "#14b8a6"
  }

  function Description(id: RoomId): string {
    match id
    case ProjectsRoom => "Explore my game projects from Master Cat Games including Oliver the Octopus and more!"
    case ExperienceRoom => "10+ years in software development and game creation. See my professional journey."
    case AboutRoom => "Learn about my transition from software engineering to game development."
    case ContactRoom => "Connect with me on LinkedIn, Twitter, or other social platforms!"
    case TerminalRoom => "Navigate my portfolio using a retro terminal interface. Type commands!"
  }

  /** The rooms in the order every scan visits them. */
  const Rooms: seq<Room> := [
    Room(ProjectsRoom, 80, 40, 130, 85, Some("#projects"), None),
    Room(ExperienceRoom, 430, 40, 130, 85, Some("/work-experience"), None),
    Room(AboutRoom, 80, 180, 130, 85, Some("#about"), None),
    Room(ContactRoom, 430, 180, 130, 85, Some("#contact"), None),
    Room(TerminalRoom, 255, 335, 130, 75, None, Some(ScrollIntoView("terminal-section")))
  ]

  // ---------------------------------------------------------------------
  // Constants of the canvas and the player
  // ---------------------------------------------------------------------

  const CanvasWidth: int := 640
  const CanvasHeight: int := 580
  const Margin: int := 10
  const PlayerSize: int := 24
  const Speed: int := 2
  const StartX: int := 320
  const StartY: int := 240
  const DoorRadius: int := 50

  // ---------------------------------------------------------------------
  // Collision with rooms
  // ---------------------------------------------------------------------

  /** The player's box at (x, y) of size w by h strictly overlaps the room. */
  predicate Overlaps(r: Room, x: int, y: int, w: int, h: int) {
    x < r.x + r.width && x + w > r.x && y < r.y + r.height && y + h > r.y
  }

  /** The first room of `rooms` the box overlaps. */
  function RoomAt(rooms: seq<Room>, x: int, y: int, w: int, h: int): (r: Option<Room>)
    ensures r.None? <==> forall k :: 0 <= k < |rooms| ==> !Overlaps(rooms[k], x, y, w, h)
    ensures r.Some? ==> r.value in rooms && Overlaps(r.value, x, y, w, h)
  {
    if |rooms| == 0 then None
    else if Overlaps(rooms[0], x, y, w, h) then Some(rooms[0])
    else RoomAt(rooms[1..], x, y, w, h)
  }

  /** The scan stops at the first overlapping room: when room k overlaps
      and no earlier one does, room k is the one returned. */
  lemma {:induction false} RoomAtFirst(rooms: seq<Room>, k: nat, x: int, y: int, w: int, h: int)
    requires k < |rooms| && Overlaps(rooms[k], x, y, w, h)
    requires forall j :: 0 <= j < k ==> !Overlaps(rooms[j], x, y, w, h)
    ensures RoomAt(rooms, x, y, w, h) == Some(rooms[k])
  {
    if k > 0 {
      assert rooms[1..][k - 1] == rooms[k];
      forall j | 0 <= j < k - 1 ensures !Overlaps(rooms[1..][j], x, y, w, h) {
        assert rooms[1..][j] == rooms[j + 1];
      }
      RoomAtFirst(rooms[1..], k - 1, x, y, w, h);
    }
  }

  /** `checkRoomCollision(x, y, width, height)` */
  method CheckRoomCollision(rooms: seq<Room>, x: int, y: int, w: int, h: int) returns (hit: Option<Room>)
    ensures hit == RoomAt(rooms, x, y, w, h)
  {
    var i := 0;
    while i < |rooms|
      invariant 0 <= i <= |rooms|
      invariant forall j :: 0 <= j < i ==> !Overlaps(rooms[j], x, y, w, h)
    {
      if x < rooms[i].x + rooms[i].width && x + w > rooms[i].x
        && y < rooms[i].y + rooms[i].height && y + h > rooms[i].y
      {
        RoomAtFirst(rooms, i, x, y, w, h);
        return Some(rooms[i]);
      }
      i := i + 1;
    }
    return None;
  }

  // ---------------------------------------------------------------------
  // Collision with the canvas edge
  // ---------------------------------------------------------------------

  /** `checkBoundaryCollision`: the box leaves the 10-pixel margin inside
      the canvas. */
  predicate HitsBoundary(x: int, y: int, w: int, h: int) {
    x < Margin || x + w > CanvasWidth - Margin || y < Margin || y + h > CanvasHeight - Margin
  }

  /** The player at (x, y) is inside the margin. */
  predicate InField(x: int, y: int) {
    !HitsBoundary(x, y, PlayerSize, PlayerSize)
  }

  /** On the 640 by 580 canvas the player's top-left corner is in the field
      exactly when it lies in [10, 606] horizontally and [10, 546]
      vertically. */
  lemma FieldBounds(x: int, y: int)
    ensures InField(x, y) <==> 10 <= x <= 606 && 10 <= y <= 546
  {
  }

  // ---------------------------------------------------------------------
  // Doors
  // ---------------------------------------------------------------------

  /** The player's centre lies closer than 50 pixels to the middle of the
      room's bottom edge. Comparing squares is the same as comparing the
      square root; doubling the horizontal offset keeps a half-pixel room
      centre exact. */
  predicate NearDoor(r: Room, px: int, py: int) {
    var dx2 := 2 * (px + PlayerSize / 2) - (2 * r.x + r.width);
    var dy := py + PlayerSize / 2 - (r.y + r.height);
    dx2 * dx2 + 4 * dy * dy < 4 * DoorRadius * DoorRadius
  }

  function Square(a: real): real {
    a * a
  }

  /** The integer test is the Euclidean one: the squared distance from the
      player's centre to the middle of the room's bottom edge, computed
      over the reals, is below 50 squared. */
  lemma NearDoorDistance(r: Room, px: int, py: int)
    ensures NearDoor(r, px, py) <==>
      Square((px + PlayerSize / 2) as real - (r.x as real + r.width as real / 2.0))
        + Square((py + PlayerSize / 2 - (r.y + r.height)) as real)
        < Square(DoorRadius as real)
  {
    var a := (px + PlayerSize / 2) as real - (r.x as real + r.width as real / 2.0);
    var dx2 := 2 * (px + PlayerSize / 2) - (2 * r.x + r.width);
    var dy := py + PlayerSize / 2 - (r.y + r.height);
    assert dx2 as real == 2.0 * a;
    assert (dx2 * dx2) as real == 4.0 * Square(a);
    assert (4 * dy * dy) as real == 4.0 * Square(dy as real);
  }

  /** The first room whose door the player at (px, py) is near. */
  function DoorRoom(rooms: seq<Room>, px: int, py: int): (r: Option<Room>)
    ensures r.None? <==> forall k :: 0 <= k < |rooms| ==> !NearDoor(rooms[k], px, py)
    ensures r.Some? ==> r.value in rooms && NearDoor(r.value, px, py)
  {
    if |rooms| == 0 then None
    else if NearDoor(rooms[0], px, py) then Some(rooms[0])
    else DoorRoom(rooms[1..], px, py)
  }

  /** The door scan stops at the first room whose door is near. */
  lemma {:induction false} DoorRoomFirst(rooms: seq<Room>, k: nat, px: int, py: int)
    requires k < |rooms| && NearDoor(rooms[k], px, py)
    requires forall j :: 0 <= j < k ==> !NearDoor(rooms[j], px, py)
    ensures DoorRoom(rooms, px, py) == Some(rooms[k])
  {
    if k > 0 {
      assert rooms[1..][k - 1] == rooms[k];
      forall j | 0 <= j < k - 1 ensures !NearDoor(rooms[1..][j], px, py) {
        assert rooms[1..][j] == rooms[j + 1];
      }
      DoorRoomFirst(rooms[1..], k - 1, px, py);
    }
  }

  /** `checkNearDoor()` */
  method CheckNearDoor(rooms: seq<Room>, px: int, py: int) returns (near: Option<Room>)
    ensures near == DoorRoom(rooms, px, py)
  {
    var i := 0;
    while i < |rooms|
      invariant 0 <= i <= |rooms|
      invariant forall j :: 0 <= j < i ==> !NearDoor(rooms[j], px, py)
    {
      var room := rooms[i];
      var dx2 := 2 * (px + PlayerSize / 2) - (2 * room.x + room.width);
      var dy := py + PlayerSize / 2 - (room.y + room.height);
      if dx2 * dx2 + 4 * dy * dy < 4 * DoorRadius * DoorRadius {
        DoorRoomFirst(rooms, i, px, py);
        return Some(room);
      }
      i := i + 1;
    }
    return None;
  }

  // ---------------------------------------------------------------------
  // Movement
  // ---------------------------------------------------------------------

  predicate UpHeld(keys: set<string>) { "arrowup" in keys || "w" in keys }
  predicate DownHeld(keys: set<string>) { "arrowdown" in keys || "s" in keys }
  predicate LeftHeld(keys: set<string>) { "arrowleft" in keys || "a" in keys }
  predicate RightHeld(keys: set<string>) { "arrowright" in keys || "d" in keys }

  /** Where the held keys would take the player horizontally. */
  function TargetX(keys: set<string>, x: int): int {
    x - (if LeftHeld(keys) then Speed else 0) + (if RightHeld(keys) then Speed else 0)
  }

  /** Where the held keys would take the player vertically. */
  function TargetY(keys: set<string>, y: int): int {
    y - (if UpHeld(keys) then Speed else 0) + (if DownHeld(keys) then Speed else 0)
  }

  /** The player's box at (x, y) hits the canvas edge or a room. */
  predicate Blocked(rooms: seq<Room>, x: int, y: int) {
    HitsBoundary(x, y, PlayerSize, PlayerSize) || RoomAt(rooms, x, y, PlayerSize, PlayerSize).Some?
  }

  /** One frame of movement: each axis moves when the box moved along that
      axis alone is free; the two tests are made independently. */
  function Move(rooms: seq<Room>, keys: set<string>, x: int, y: int): (r: (int, int))
    ensures r.0 == x || (r.0 == TargetX(keys, x) && !Blocked(rooms, r.0, y))
    ensures r.1 == y || (r.1 == TargetY(keys, y) && !Blocked(rooms, x, r.1))
    ensures !Blocked(rooms, TargetX(keys, x), y) ==> r.0 == TargetX(keys, x)
    ensures !Blocked(rooms, x, TargetY(keys, y)) ==> r.1 == TargetY(keys, y)
  {
    var nx := TargetX(keys, x);
    var ny := TargetY(keys, y);
    (if Blocked(rooms, nx, y) then x else nx, if Blocked(rooms, x, ny) then y else ny)
  }

  /** The movement part of a `gameLoop` frame: the keys' target on each
      axis, accepted when the edge and the rooms let it through. */
  method NextPosition(rooms: seq<Room>, keys: set<string>, px: int, py: int) returns (nx: int, ny: int)
    ensures (nx, ny) == Move(rooms, keys, px, py)
  {
    var newX := px;
    var newY := py;
    if "arrowup" in keys || "w" in keys { newY := newY - Speed; }
    if "arrowdown" in keys || "s" in keys { newY := newY + Speed; }
    if "arrowleft" in keys || "a" in keys { newX := newX - Speed; }
    if "arrowright" in keys || "d" in keys { newX := newX + Speed; }
    assert newX == TargetX(keys, px) && newY == TargetY(keys, py);

    var canMoveX := true;
    var canMoveY := true;
    if HitsBoundary(newX, py, PlayerSize, PlayerSize) { canMoveX := false; }
    var hit := CheckRoomCollision(rooms, newX, py, PlayerSize, PlayerSize);
    if hit.Some? { canMoveX := false; }
    if HitsBoundary(px, newY, PlayerSize, PlayerSize) { canMoveY := false; }
    hit := CheckRoomCollision(rooms, px, newY, PlayerSize, PlayerSize);
    if hit.Some? { canMoveY := false; }
    assert canMoveX == !Blocked(rooms, newX, py) && canMoveY == !Blocked(rooms, px, newY);
    nx := if canMoveX then newX else px;
    ny := if canMoveY then newY else py;
  }

  /** Each axis moves by one step at most: back, not at all, or forward. */
  lemma MoveStep(rooms: seq<Room>, keys: set<string>, x: int, y: int)
    ensures var p := Move(rooms, keys, x, y);
      && (p.0 == x - Speed || p.0 == x || p.0 == x + Speed)
      && (p.1 == y - Speed || p.1 == y || p.1 == y + Speed)
  {
  }

  /** Coordinates stay even: the start is even and every step is 2. */
  lemma MoveKeepsEven(rooms: seq<Room>, keys: set<string>, x: int, y: int)
    requires x % 2 == 0 && y % 2 == 0
    ensures Move(rooms, keys, x, y).0 % 2 == 0 && Move(rooms, keys, x, y).1 % 2 == 0
  {
    MoveStep(rooms, keys, x, y);
  }

  /** Opposite keys cancel: holding left and right does not move sideways. */
  lemma OppositeKeysCancel(keys: set<string>, x: int, y: int)
    requires LeftHeld(keys) && RightHeld(keys)
    ensures TargetX(keys, x) == x
    ensures UpHeld(keys) && DownHeld(keys) ==> TargetY(keys, y) == y
  {
  }

  /** Movement never leaves the field: the edge test on each axis alone
      keeps that axis inside the margin. */
  lemma MoveStaysInField(rooms: seq<Room>, keys: set<string>, x: int, y: int)
    requires InField(x, y)
    ensures InField(Move(rooms, keys, x, y).0, Move(rooms, keys, x, y).1)
  {
  }

  /** Moving along one axis never enters a room or the margin from a free
      position. */
  lemma StraightMoveStaysFree(rooms: seq<Room>, keys: set<string>, x: int, y: int)
    requires !Blocked(rooms, x, y)
    requires TargetX(keys, x) == x || TargetY(keys, y) == y
    ensures !Blocked(rooms, Move(rooms, keys, x, y).0, Move(rooms, keys, x, y).1)
  {
  }

  /** Moving diagonally can clip into a room: each axis is tested with the
      other axis's old coordinate, so from (56, 16) right and down together
      reach (58, 18), which overlaps PROJECTS, although both single-axis
      targets are free; (56, 18) merely touches PROJECTS' left edge, which
      is no collision. */
  lemma DiagonalClip()
    ensures !Blocked(Rooms, 56, 16)
    ensures Move(Rooms, {"arrowright", "arrowdown"}, 56, 16) == (58, 18)
    ensures RoomAt(Rooms, 58, 18, PlayerSize, PlayerSize) == Some(Rooms[0])
  {
    RoomAtFirst(Rooms, 0, 58, 18, PlayerSize, PlayerSize);
    assert !Blocked(Rooms, 58, 16);
    assert !Blocked(Rooms, 56, 18);
  }

  /** The start position is free and near no door. */
  lemma StartIsFree()
    ensures !Blocked(Rooms, StartX, StartY)
    ensures DoorRoom(Rooms, StartX, StartY).None?
  {
    forall k | 0 <= k < |Rooms|
      ensures !Overlaps(Rooms[k], StartX, StartY, PlayerSize, PlayerSize)
      ensures !NearDoor(Rooms[k], StartX, StartY)
    {
      if k == 0 {} else if k == 1 {} else if k == 2 {} else if k == 3 {} else {}
    }
  }
}
