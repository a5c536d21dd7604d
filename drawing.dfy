/** `drawFloorPlan` as a list of 2D-context instructions instead of pixels.
    The context's current styles (`fillStyle`, `strokeStyle`, `lineWidth`,
    `font`) are carried by each instruction that uses them; a
    `beginPath`/`moveTo`/`lineTo`/`stroke` group is one `StrokeLine`. */
module Drawing {
  import opened Rooms
  import opened Text

  datatype Point = Point(x: real, y: real)
  datatype Rect = Rect(x: real, y: real, width: real, height: real)

  datatype Instr =
    | ClearRect(area: Rect)
    | Save
    | Scale(factor: real)
    | FillRect(fill: string, area: Rect)
    | StrokeRect(stroke: string, lineWidth: real, area: Rect)
    | StrokeLine(stroke: string, lineWidth: real, origin: Point, dest: Point)
    | FillText(fill: string, font: string, text: string, at: Point)
    | Restore

  /** What `canvasRef.current` and `getContext('2d')` give the routine. */
  datatype Surface = NoCanvas | NoContext | Ready(width: nat, height: nat)

  const Background := "#fafafa"
  const GridColor := "#e5e7eb"
  const GridLineWidth := 0.5
  const GridSpacing := 20
  const RoomLineWidth := 2.0
  const LabelColor := "#374151"
  const LabelFont := "14px Inter, sans-serif"
  const DimensionColor := "#6b7280"
  const DimensionFont := "10px Inter, sans-serif"
  const DoorColor := "#374151"
  const DoorLineWidth := 3.0

  // ---------------------------------------------------------------- grid

  datatype Axis = Vertical | Horizontal

  /** A grid line at `pos` along `axis`, spanning `across` in the other direction. */
  function GridLine(axis: Axis, pos: int, across: real): Instr {
    match axis
    case Vertical => StrokeLine(GridColor, GridLineWidth, Point(pos as real, 0.0), Point(pos as real, across))
    case Horizontal => StrokeLine(GridColor, GridLineWidth, Point(0.0, pos as real), Point(across, pos as real))
  }

  /** The lines the grid loop draws from position `pos` on, while `pos < along`. */
  function GridFrom(axis: Axis, pos: int, along: real, across: real): seq<Instr>
    decreases along.Floor + 1 - pos
  {
    if (pos as real) < along then [GridLine(axis, pos, across)] + GridFrom(axis, pos + GridSpacing, along, across)
    else []
  }

  /** The grid loop draws exactly the lines at pos, pos + 20, pos + 40, ... that
      lie below `along`, in increasing order, each over the full `across`. */
  lemma {:induction false} GridFromExact(axis: Axis, pos: int, along: real, across: real)
    ensures var lines := GridFrom(axis, pos, along, across);
      && (forall i :: 0 <= i < |lines| ==> lines[i] == GridLine(axis, pos + GridSpacing * i, across))
      && (forall i :: 0 <= i < |lines| ==> ((pos + GridSpacing * i) as real) < along)
      && ((pos + GridSpacing * |lines|) as real) >= along
    decreases along.Floor + 1 - pos
  {
    if (pos as real) < along {
      var rest := GridFrom(axis, pos + GridSpacing, along, across);
      GridFromExact(axis, pos + GridSpacing, along, across);
      var lines := GridFrom(axis, pos, along, across);
      assert lines == [GridLine(axis, pos, across)] + rest;
      forall i | 0 <= i < |lines|
        ensures lines[i] == GridLine(axis, pos + GridSpacing * i, across)
        ensures ((pos + GridSpacing * i) as real) < along
      {
        if i > 0 {
          assert lines[i] == rest[i - 1];
          assert pos + GridSpacing * i == pos + GridSpacing + GridSpacing * (i - 1);
        }
      }
      assert pos + GridSpacing * |lines| == pos + GridSpacing + GridSpacing * |rest|;
    }
  }

  // ---------------------------------------------------------------- rooms

  /** `Math.round(q)`: the nearest integer, halves rounded up. */
  function MathRound(q: real): int {
    (q + 0.5).Floor
  }

  /** Plan units to the approximate display unit: `Math.round(n / 10)`. */
  function DisplayUnits(n: int): (r: int)
    ensures r == MathRound(n as real / 10.0)
  {
    var r := (n + 5) / 10;
    assert r as real <= n as real / 10.0 + 0.5 < r as real + 1.0 by {
      assert 10 * r <= n + 5 < 10 * r + 10;
    }
    r
  }

  /** The dimension text, `${widthFt}' × ${heightFt}'`. */
  function DimensionsLabel(width: int, height: int): string {
    IntToString(DisplayUnits(width)) + "' × " + IntToString(DisplayUnits(height)) + "'"
  }

  lemma DimensionsLabelExample()
    ensures DimensionsLabel(40, 35) == "4' × 4'"
    ensures DimensionsLabel(140, 120) == "14' × 12'"
  {
    assert DisplayUnits(40) == 4 && DisplayUnits(35) == 4;
    assert DisplayUnits(140) == 14 && DisplayUnits(120) == 12;
    assert IntToString(4) == "4";
    assert IntToString(14) == NatToString(1) + [DigitChar(4)] == "14";
    assert IntToString(12) == NatToString(1) + [DigitChar(2)] == "12";
  }

  function RoomRect(r: Room): Rect {
    Rect(r.x as real, r.y as real, r.width as real, r.height as real)
  }

  function Center(r: Room): Point {
    Point(r.x as real + r.width as real / 2.0, r.y as real + r.height as real / 2.0)
  }

  /** The four instructions one room contributes, in the order they are drawn. */
  function RoomInstrs(r: Room): seq<Instr> {
    var c := Center(r);
    [ FillRect(FillColor(r.kind), RoomRect(r)),
      StrokeRect(BorderColor(r.kind), RoomLineWidth, RoomRect(r)),
      FillText(LabelColor, LabelFont, r.name, Point(c.x, c.y - 8.0)),
      FillText(DimensionColor, DimensionFont, DimensionsLabel(r.width, r.height), Point(c.x, c.y + 8.0)) ]
  }

  function RoomsInstrs(rooms: seq<Room>): seq<Instr> {
    if rooms == [] then [] else RoomInstrs(rooms[0]) + RoomsInstrs(rooms[1..])
  }

  /** Rooms are drawn in list order, four instructions each. */
  lemma {:induction false} RoomsInstrsAt(rooms: seq<Room>)
    ensures |RoomsInstrs(rooms)| == 4 * |rooms|
    ensures forall i :: 0 <= i < |rooms| ==> RoomsInstrs(rooms)[4 * i..4 * i + 4] == RoomInstrs(rooms[i])
  {
    if rooms != [] {
      var rest := RoomsInstrs(rooms[1..]);
      RoomsInstrsAt(rooms[1..]);
      var all := RoomsInstrs(rooms);
      assert all == RoomInstrs(rooms[0]) + rest;
      forall i | 0 <= i < |rooms| ensures all[4 * i..4 * i + 4] == RoomInstrs(rooms[i]) {
        GroupOfConcat(RoomInstrs(rooms[0]), rest, i);
        if i > 0 {
          assert rooms[i] == rooms[1..][i - 1];
        }
      }
    }
  }

  /** Group i of four in `head + rest`, with `head` one group long, is `head`
      for i = 0 and group i - 1 of `rest` after that. */
  lemma GroupOfConcat(head: seq<Instr>, rest: seq<Instr>, i: nat)
    requires |head| == 4 && 4 * i + 4 <= |head| + |rest|
    ensures i == 0 ==> (head + rest)[4 * i..4 * i + 4] == head
    ensures i > 0 ==> (head + rest)[4 * i..4 * i + 4] == rest[4 * (i - 1)..4 * (i - 1) + 4]
  {
    var all := head + rest;
    if i == 0 {
      assert all[..4] == head;
    } else {
      assert all[4 * i..4 * i + 4] == rest[4 * (i - 1)..4 * (i - 1) + 4];
    }
  }

  // ---------------------------------------------------------------- doors

  datatype Door = Door(x: int, y: int, width: int, vertical: bool)

  /** The three internal doors, at fixed positions. */
  const InternalDoors: seq<Door> := [Door(250, 100, 20, false), Door(190, 200, 20, false), Door(350, 200, 20, false)]

  function DoorStroke(d: Door): Instr {
    if d.vertical then
      StrokeLine(DoorColor, DoorLineWidth, Point(d.x as real, d.y as real), Point(d.x as real, (d.y + d.width) as real))
    else
      StrokeLine(DoorColor, DoorLineWidth, Point(d.x as real, d.y as real), Point((d.x + d.width) as real, d.y as real))
  }

  function DoorStrokes(doors: seq<Door>): seq<Instr> {
    if doors == [] then [] else [DoorStroke(doors[0])] + DoorStrokes(doors[1..])
  }

  const Entrance: Instr := StrokeLine(DoorColor, DoorLineWidth, Point(150.0, 50.0), Point(150.0, 35.0))

  // ---------------------------------------------------------------- whole routine

  function Prologue(width: nat, height: nat, zoom: real): seq<Instr>
    requires zoom > 0.0
  {
    [ ClearRect(Rect(0.0, 0.0, width as real, height as real)),
      Save,
      Scale(zoom),
      FillRect(Background, Rect(0.0, 0.0, width as real / zoom, height as real / zoom)) ]
  }

  /** Everything drawn before the rooms: clear, scale, background and grid. */
  function Backdrop(width: nat, height: nat, zoom: real): seq<Instr>
    requires zoom > 0.0
  {
    var ew := width as real / zoom;
    var eh := height as real / zoom;
    Prologue(width, height, zoom) + GridFrom(Vertical, 0, ew, eh) + GridFrom(Horizontal, 0, eh, ew)
  }

  /** Everything drawn after the rooms: the entrance, the doors and the restore. */
  function Epilogue(): seq<Instr> {
    [Entrance] + DoorStrokes(InternalDoors) + [Restore]
  }

  /** What `drawFloorPlan` does to the context, for the given rooms and zoom. */
  function FloorPlanInstructions(surface: Surface, rooms: seq<Room>, zoom: real): (r: seq<Instr>)
    requires zoom > 0.0
    ensures r == [] <==> !surface.Ready?
  {
    match surface
    case NoCanvas => []
    case NoContext => []
    case Ready(w, h) => Backdrop(w, h, zoom) + RoomsInstrs(rooms) + Epilogue()
  }

  /** One grid loop: `for (pos = 0; pos < along; pos += 20)` stroking a line
      across the other extent with the grid style. */
  method DrawGridLines(axis: Axis, along: real, across: real) returns (lines: seq<Instr>)
    ensures lines == GridFrom(axis, 0, along, across)
  {
    var strokeStyle := GridColor;
    var lineWidth := GridLineWidth;
    lines := [];
    var pos := 0;
    while (pos as real) < along
      invariant lines + GridFrom(axis, pos, along, across) == GridFrom(axis, 0, along, across)
      decreases along.Floor + 1 - pos
    {
      var line := match axis
        case Vertical => StrokeLine(strokeStyle, lineWidth, Point(pos as real, 0.0), Point(pos as real, across))
        case Horizontal => StrokeLine(strokeStyle, lineWidth, Point(0.0, pos as real), Point(across, pos as real));
      lines := lines + [line];
      pos := pos + GridSpacing;
    }
  }

  /** The body of the `rooms.forEach` callback, setting the context styles
      before each draw. */
  method DrawRoom(room: Room) returns (step: seq<Instr>)
    ensures step == RoomInstrs(room)
  {
    var fillStyle := FillColor(room.kind);
    var rect := Rect(room.x as real, room.y as real, room.width as real, room.height as real);
    var fill := FillRect(fillStyle, rect);
    var strokeStyle := BorderColor(room.kind);
    var lineWidth := RoomLineWidth;
    var border := StrokeRect(strokeStyle, lineWidth, rect);
    fillStyle := LabelColor;
    var font := LabelFont;
    var centerX := room.x as real + room.width as real / 2.0;
    var centerY := room.y as real + room.height as real / 2.0;
    var name := FillText(fillStyle, font, room.name, Point(centerX, centerY - 8.0));
    var widthFt := DisplayUnits(room.width);
    var heightFt := DisplayUnits(room.height);
    font := DimensionFont;
    fillStyle := DimensionColor;
    var dims := FillText(fillStyle, font, IntToString(widthFt) + "' × " + IntToString(heightFt) + "'", Point(centerX, centerY + 8.0));
    step := [fill, border, name, dims];
  }

  /** The `rooms.forEach` pass. */
  method DrawRooms(rooms: seq<Room>) returns (instrs: seq<Instr>)
    ensures instrs == RoomsInstrs(rooms)
  {
    instrs := [];
    for i := 0 to |rooms|
      invariant instrs == RoomsInstrs(rooms[..i])
    {
      var step := DrawRoom(rooms[i]);
      RoomsInstrsPrefix(rooms, i);
      instrs := instrs + step;
    }
    assert rooms[..|rooms|] == rooms;
  }

  lemma RoomsInstrsPrefix(rooms: seq<Room>, i: nat)
    requires i < |rooms|
    ensures RoomsInstrs(rooms[..i + 1]) == RoomsInstrs(rooms[..i]) + RoomInstrs(rooms[i])
  {
    assert rooms[..i + 1] == rooms[..i] + [rooms[i]];
    RoomsInstrsSnoc(rooms[..i], rooms[i]);
  }

  /** Drawing one more room appends its four instructions. */
  lemma {:induction false} RoomsInstrsSnoc(rooms: seq<Room>, room: Room)
    ensures RoomsInstrs(rooms + [room]) == RoomsInstrs(rooms) + RoomInstrs(room)
  {
    if rooms == [] {
      assert [room][1..] == [];
    } else {
      assert (rooms + [room])[1..] == rooms[1..] + [room];
      RoomsInstrsSnoc(rooms[1..], room);
    }
  }

  /** The entrance stroke and the `doors.forEach` pass, with the door style. */
  method DrawDoors() returns (instrs: seq<Instr>)
    ensures instrs == [Entrance] + DoorStrokes(InternalDoors)
  {
    var strokeStyle := DoorColor;
    var lineWidth := DoorLineWidth;
    instrs := [StrokeLine(strokeStyle, lineWidth, Point(150.0, 50.0), Point(150.0, 35.0))];
    for i := 0 to |InternalDoors|
      invariant instrs + DoorStrokes(InternalDoors[i..]) == [Entrance] + DoorStrokes(InternalDoors)
    {
      var door := InternalDoors[i];
      if door.vertical {
        instrs := instrs + [StrokeLine(strokeStyle, lineWidth, Point(door.x as real, door.y as real), Point(door.x as real, (door.y + door.width) as real))];
      } else {
        instrs := instrs + [StrokeLine(strokeStyle, lineWidth, Point(door.x as real, door.y as real), Point((door.x + door.width) as real, door.y as real))];
      }
      assert InternalDoors[i..] == [door] + InternalDoors[i + 1..];
    }
    assert InternalDoors[|InternalDoors|..] == [];
  }

  /** `drawFloorPlan`: returns early without a canvas or context; otherwise
      clears, scales, paints the background, the two grid loops, the rooms and
      the doors, and restores. */
  method DrawFloorPlan(surface: Surface, rooms: seq<Room>, zoom: real) returns (out: seq<Instr>)
    requires zoom > 0.0
    ensures out == FloorPlanInstructions(surface, rooms, zoom)
  {
    out := [];
    if !surface.Ready? {
      return;
    }
    var w, h := surface.width, surface.height;
    var ew, eh := w as real / zoom, h as real / zoom;
    var fillStyle := Background;
    out := [ClearRect(Rect(0.0, 0.0, w as real, h as real)), Save, Scale(zoom), FillRect(fillStyle, Rect(0.0, 0.0, ew, eh))];
    var vertical := DrawGridLines(Vertical, ew, eh);
    var horizontal := DrawGridLines(Horizontal, eh, ew);
    out := out + vertical + horizontal;
    assert out == Backdrop(w, h, zoom);
    var roomInstrs := DrawRooms(rooms);
    var doorInstrs := DrawDoors();
    out := out + roomInstrs + (doorInstrs + [Restore]);
  }

  // ---------------------------------------------------------------- properties

  /** Nothing is drawn when the canvas or its 2D context is missing. */
  lemma NoSurfaceNoDrawing(rooms: seq<Room>, zoom: real)
    requires zoom > 0.0
    ensures FloorPlanInstructions(NoCanvas, rooms, zoom) == []
    ensures FloorPlanInstructions(NoContext, rooms, zoom) == []
  {
  }

  /** What precedes the rooms: the clear/save/scale/background prologue, then
      the vertical grid lines at the multiples of 20 below width/zoom, each
      over the full height/zoom, then the horizontal ones below height/zoom,
      each over the full width/zoom, both in increasing order. */
  lemma {:induction false} BackdropLayout(w: nat, h: nat, zoom: real)
    requires zoom > 0.0
    ensures var ew := w as real / zoom;
      var eh := h as real / zoom;
      var vs := GridFrom(Vertical, 0, ew, eh);
      var hs := GridFrom(Horizontal, 0, eh, ew);
      && Backdrop(w, h, zoom) == Prologue(w, h, zoom) + vs + hs
      && (forall i :: 0 <= i < |vs| ==>
            (vs[i] == GridLine(Vertical, GridSpacing * i, eh) && ((GridSpacing * i) as real) < ew))
      && ((GridSpacing * |vs|) as real) >= ew
      && (forall i :: 0 <= i < |hs| ==>
            (hs[i] == GridLine(Horizontal, GridSpacing * i, ew) && ((GridSpacing * i) as real) < eh))
      && ((GridSpacing * |hs|) as real) >= eh
  {
    var ew := w as real / zoom;
    var eh := h as real / zoom;
    GridFromExact(Vertical, 0, ew, eh);
    GridFromExact(Horizontal, 0, eh, ew);
  }

  /** The grid loop draws exactly as many lines as there are multiples of 20
      below `along`. */
  lemma GridLineCount(axis: Axis, along: real, across: real, n: nat)
    requires ((GridSpacing * (n - 1)) as real) < along <= ((GridSpacing * n) as real)
    ensures |GridFrom(axis, 0, along, across)| == n
  {
    GridFromExact(axis, 0, along, across);
  }

  /** On the 600 by 500 canvas the default zoom gives a 30 by 25 grid, and the
      largest zoom, 2.0, a 15 by 13 grid of the same spacing. */
  lemma CanvasGridCounts()
    ensures |GridFrom(Vertical, 0, 600.0 / 1.0, 500.0 / 1.0)| == 30
    ensures |GridFrom(Horizontal, 0, 500.0 / 1.0, 600.0 / 1.0)| == 25
    ensures |GridFrom(Vertical, 0, 600.0 / 2.0, 500.0 / 2.0)| == 15
    ensures |GridFrom(Horizontal, 0, 500.0 / 2.0, 600.0 / 2.0)| == 13
  {
    GridLineCount(Vertical, 600.0 / 1.0, 500.0 / 1.0, 30);
    GridLineCount(Horizontal, 500.0 / 1.0, 600.0 / 1.0, 25);
    GridLineCount(Vertical, 600.0 / 2.0, 500.0 / 2.0, 15);
    GridLineCount(Horizontal, 500.0 / 2.0, 600.0 / 2.0, 13);
  }

  /** On a ready surface the list is the backdrop, then four instructions per
      room, then the fixed epilogue. */
  lemma FloorPlanFrame(w: nat, h: nat, rooms: seq<Room>, zoom: real)
    requires zoom > 0.0
    ensures var r := FloorPlanInstructions(Ready(w, h), rooms, zoom);
      var at := |Backdrop(w, h, zoom)|;
      && |r| == at + 4 * |rooms| + |Epilogue()|
      && r[..at] == Backdrop(w, h, zoom)
      && r[at + 4 * |rooms|..] == Epilogue()
  {
    var b := Backdrop(w, h, zoom);
    var rs := RoomsInstrs(rooms);
    var r := FloorPlanInstructions(Ready(w, h), rooms, zoom);
    RoomsInstrsAt(rooms);
    assert r == b + rs + Epilogue();
    assert r[..|b|] == b;
    assert r[|b| + |rs|..] == Epilogue();
  }

  /** A slice inside the middle part of `front + middle + back`. */
  lemma MiddleSlice(front: seq<Instr>, middle: seq<Instr>, back: seq<Instr>, lo: nat, hi: nat)
    requires lo <= hi <= |middle|
    ensures (front + middle + back)[|front| + lo..|front| + hi] == middle[lo..hi]
  {
    var all := front + middle + back;
    assert forall k :: 0 <= k < hi - lo ==> all[|front| + lo..|front| + hi][k] == middle[lo..hi][k];
  }

  /** The room groups of `middle` keep their places, shifted by `|front|`, in
      `front + middle + back`. */
  lemma GroupsInMiddle(front: seq<Instr>, middle: seq<Instr>, back: seq<Instr>, rooms: seq<Room>)
    requires |middle| == 4 * |rooms|
    requires forall i :: 0 <= i < |rooms| ==> middle[4 * i..4 * i + 4] == RoomInstrs(rooms[i])
    ensures forall i :: 0 <= i < |rooms| ==>
      (front + middle + back)[|front| + 4 * i..|front| + 4 * i + 4] == RoomInstrs(rooms[i])
  {
    forall i | 0 <= i < |rooms|
      ensures (front + middle + back)[|front| + 4 * i..|front| + 4 * i + 4] == RoomInstrs(rooms[i])
    {
      MiddleSlice(front, middle, back, 4 * i, 4 * i + 4);
    }
  }

  /** On a ready surface the rooms are drawn in list order, four instructions
      each, right after the backdrop. */
  lemma {:induction false} RoomsDrawnInOrder(w: nat, h: nat, rooms: seq<Room>, zoom: real)
    requires zoom > 0.0
    ensures var r := FloorPlanInstructions(Ready(w, h), rooms, zoom);
      var at := |Backdrop(w, h, zoom)|;
      && |r| == at + 4 * |rooms| + |Epilogue()|
      && (forall i :: 0 <= i < |rooms| ==> r[at + 4 * i..at + 4 * i + 4] == RoomInstrs(rooms[i]))
  {
    var b := Backdrop(w, h, zoom);
    var rs := RoomsInstrs(rooms);
    var r := FloorPlanInstructions(Ready(w, h), rooms, zoom);
    RoomsInstrsAt(rooms);
    assert r == b + rs + Epilogue();
    GroupsInMiddle(b, rs, Epilogue(), rooms);
  }

  /** The epilogue is fixed: the entrance (150,50) to (150,35), three
      horizontal door strokes 20 long at (250,100), (190,200), (350,200), then
      the restore. */
  lemma EpilogueFixed()
    ensures Epilogue() ==
      [ StrokeLine(DoorColor, 3.0, Point(150.0, 50.0), Point(150.0, 35.0)),
        StrokeLine(DoorColor, 3.0, Point(250.0, 100.0), Point(270.0, 100.0)),
        StrokeLine(DoorColor, 3.0, Point(190.0, 200.0), Point(210.0, 200.0)),
        StrokeLine(DoorColor, 3.0, Point(350.0, 200.0), Point(370.0, 200.0)),
        Restore ]
  {
    assert InternalDoors[1..][1..][1..] == [];
  }

  /** Only the room section depends on the rooms: two drawings of the same
      surface and zoom agree on everything drawn before the rooms and on
      everything drawn after them. */
  lemma {:induction false} DoorsIndependentOfRooms(w: nat, h: nat, a: seq<Room>, b: seq<Room>, zoom: real)
    requires zoom > 0.0
    ensures var ra := FloorPlanInstructions(Ready(w, h), a, zoom);
      var rb := FloorPlanInstructions(Ready(w, h), b, zoom);
      var at := |Backdrop(w, h, zoom)|;
      && |ra| == at + 4 * |a| + |Epilogue()|
      && |rb| == at + 4 * |b| + |Epilogue()|
      && ra[..at] == rb[..at]
      && ra[at + 4 * |a|..] == rb[at + 4 * |b|..]
  {
    var ra := FloorPlanInstructions(Ready(w, h), a, zoom);
    var rb := FloorPlanInstructions(Ready(w, h), b, zoom);
    var at := |Backdrop(w, h, zoom)|;
    FloorPlanFrame(w, h, a, zoom);
    assert ra[..at] == Backdrop(w, h, zoom) && ra[at + 4 * |a|..] == Epilogue();
    FloorPlanFrame(w, h, b, zoom);
    assert rb[..at] == Backdrop(w, h, zoom) && rb[at + 4 * |b|..] == Epilogue();
  }
}
