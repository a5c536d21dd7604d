/** The room record of the floor-plan canvas, its two style tables and the
    placeholder layout generator. */
module Rooms {

  /** The closed union of room types a room may carry. */
  datatype RoomType = Bedroom | Living | Kitchen | Bathroom | Garden | Dining

  /** A rectangular room in plan units; `kind` is the source's `type` field. */
  datatype Room = Room(id: string, name: string, x: int, y: int, width: int, height: int, kind: RoomType)

  /** Fill colour table (`roomColors`). */
  function FillColor(t: RoomType): string {
    match t
    case Bedroom => "#e0e7ff"
    case Living => "#fef3c7"
    case Kitchen => "#dcfce7"
    case Bathroom => "#fce7f3"
    case Garden => "#d1fae5"
    case Dining => "#fed7d7"
  }

  /** Border colour table (`roomBorders`). */
  function BorderColor(t: RoomType): string {
    match t
    case Bedroom => "#6366f1"
    case Living => "#f59e0b"
    case Kitchen => "#10b981"
    case Bathroom => "#ec4899"
    case Garden => "#059669"
    case Dining => "#ef4444"
  }

  /** Each table gives every room type its own colour, so a colour identifies the type. */
  lemma StyleTablesInjective(t1: RoomType, t2: RoomType)
    requires t1 != t2
    ensures FillColor(t1) != FillColor(t2)
    ensures BorderColor(t1) != BorderColor(t2)
  {
  }

  predicate DistinctIds(rooms: seq<Room>) {
    forall i, j :: 0 <= i < j < |rooms| ==> rooms[i].id != rooms[j].id
  }

  predicate PositiveSize(r: Room) {
    r.width > 0 && r.height > 0
  }

  predicate InsideCanvas(r: Room, width: int, height: int) {
    0 <= r.x && 0 <= r.y && r.x + r.width <= width && r.y + r.height <= height
  }

  /** The two rectangles share interior area. */
  predicate Overlap(a: Room, b: Room) {
    a.x < b.x + b.width && b.x < a.x + a.width && a.y < b.y + b.height && b.y < a.y + a.height
  }

  const CanvasWidth: nat := 600
  const CanvasHeight: nat := 500

  /** `generateFloorPlan`: the transcription is not consulted; the result is
      always the same eight-room layout. */
  function GenerateFloorPlan(transcription: string): (rooms: seq<Room>)
    ensures |rooms| == 8
    ensures forall i :: 0 <= i < |rooms| ==> rooms[i].id == [(49 + i) as char]
    ensures forall i :: 0 <= i < |rooms| ==> PositiveSize(rooms[i])
    ensures forall i :: 0 <= i < |rooms| ==> InsideCanvas(rooms[i], CanvasWidth, CanvasHeight)
  {
    [ Room("1", "Living Room", 50, 50, 200, 150, Living),
      Room("2", "Kitchen", 270, 50, 120, 100, Kitchen),
      Room("3", "Bedroom 1", 50, 220, 140, 120, Bedroom),
      Room("4", "Bedroom 2", 210, 220, 140, 120, Bedroom),
      Room("5", "Bedroom 3", 370, 220, 140, 120, Bedroom),
      Room("6", "Bathroom 1", 270, 170, 80, 80, Bathroom),
      Room("7", "Bathroom 2", 370, 170, 80, 80, Bathroom),
      Room("8", "Garden", 50, 360, 460, 80, Garden) ]
  }

  /** The generated ids '1'..'8' are pairwise distinct. */
  lemma GeneratedIdsDistinct(transcription: string)
    ensures DistinctIds(GenerateFloorPlan(transcription))
  {
    var rooms := GenerateFloorPlan(transcription);
    forall i, j | 0 <= i < j < |rooms|
      ensures rooms[i].id != rooms[j].id
    {
      assert rooms[i].id[0] != rooms[j].id[0];
    }
  }

  lemma GenerationIgnoresTranscription(a: string, b: string)
    ensures GenerateFloorPlan(a) == GenerateFloorPlan(b)
  {
  }

  /** Overlapping rooms are produced and kept: Bathroom 1 overlaps Bedroom 2,
      and Bathroom 2 overlaps Bedroom 3. */
  lemma GeneratedLayoutOverlaps(transcription: string)
    ensures var rooms := GenerateFloorPlan(transcription);
      Overlap(rooms[5], rooms[3]) && Overlap(rooms[6], rooms[4])
  {
  }

  /** The effect on the transcription prop: a non-empty transcription replaces
      the rooms in one step with the one fixed eight-room layout, whatever the
      text says; an empty one leaves them. */
  function RoomsAfterTranscription(current: seq<Room>, transcription: string): (rooms: seq<Room>)
    ensures transcription == "" ==> rooms == current
    ensures transcription != "" ==> |rooms| == 8 && rooms == GenerateFloorPlan("")
  {
    if transcription != "" then
      GenerationIgnoresTranscription(transcription, "");
      GenerateFloorPlan(transcription)
    else current
  }

  /** Once a layout has been generated, later descriptions leave it as it is. */
  lemma LaterTranscriptionsKeepLayout(current: seq<Room>, first: string, later: string)
    requires first != ""
    ensures var rooms := RoomsAfterTranscription(current, first);
      RoomsAfterTranscription(rooms, later) == rooms
  {
    GenerationIgnoresTranscription(first, later);
  }
}
