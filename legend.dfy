/** The legend under the canvas: four `rooms.filter(...)` expressions, one
    per column. */
module Legend {
  import opened Rooms

  datatype Bucket = Bedrooms | KitchenDining | Bathrooms | Others

  /** The filter predicate of each column, as the four expressions test `type`. */
  predicate InBucket(b: Bucket, t: RoomType) {
    match b
    case Bedrooms => t == Bedroom
    case KitchenDining => t == Kitchen || t == Dining
    case Bathrooms => t == Bathroom
    case Others => t == Living || t == Garden
  }

  /** `rooms.filter(r => InBucket(b, r.type))`. */
  function Select(rooms: seq<Room>, b: Bucket): (r: seq<Room>)
    ensures |r| <= |rooms|
    ensures forall i :: 0 <= i < |r| ==> InBucket(b, r[i].kind)
  {
    if rooms == [] then []
    else if InBucket(b, rooms[0].kind) then [rooms[0]] + Select(rooms[1..], b)
    else Select(rooms[1..], b)
  }

  datatype Legend = Legend(bedrooms: seq<Room>, kitchenDining: seq<Room>, bathrooms: seq<Room>, others: seq<Room>)

  /** The four legend columns. The component renders the legend only when
      there is at least one room; for no rooms every column here is empty. */
  function BuildLegend(rooms: seq<Room>): Legend {
    Legend(Select(rooms, Bedrooms), Select(rooms, KitchenDining), Select(rooms, Bathrooms), Select(rooms, Others))
  }

  /** Every one of the six room types is shown in exactly one column. */
  lemma ExactlyOneBucket(t: RoomType)
    ensures exists b :: InBucket(b, t)
    ensures forall b1, b2 :: InBucket(b1, t) && InBucket(b2, t) ==> b1 == b2
  {
    match t
    case Bedroom => assert InBucket(Bedrooms, t);
    case Kitchen => assert InBucket(KitchenDining, t);
    case Dining => assert InBucket(KitchenDining, t);
    case Bathroom => assert InBucket(Bathrooms, t);
    case Living => assert InBucket(Others, t);
    case Garden => assert InBucket(Others, t);
  }

  /** `a` is `b` with some elements removed, order kept. */
  predicate IsSubsequence(a: seq<Room>, b: seq<Room>)
    decreases |b|
  {
    if a == [] then true
    else if b == [] then false
    else if a[0] == b[0] then IsSubsequence(a[1..], b[1..])
    else IsSubsequence(a, b[1..])
  }

  /** A column is an order-preserving filter of the rooms. */
  lemma {:induction false} SelectIsSubsequence(rooms: seq<Room>, b: Bucket)
    ensures IsSubsequence(Select(rooms, b), rooms)
  {
    if rooms != [] {
      SelectIsSubsequence(rooms[1..], b);
    }
  }

  /** A room is in a column exactly when it is one of the rooms and its type
      belongs to the column. */
  lemma {:induction false} SelectMembership(rooms: seq<Room>, b: Bucket, x: Room)
    ensures x in Select(rooms, b) <==> x in rooms && InBucket(b, x.kind)
  {
    if rooms != [] {
      SelectMembership(rooms[1..], b, x);
      assert rooms == [rooms[0]] + rooms[1..];
    }
  }

  /** A column holds each room as often as the list does when the room's type
      belongs to the column, and not at all otherwise. */
  lemma {:induction false} SelectCount(rooms: seq<Room>, b: Bucket, y: Room)
    ensures multiset(Select(rooms, b))[y] == if InBucket(b, y.kind) then multiset(rooms)[y] else 0
  {
    if rooms != [] {
      SelectCount(rooms[1..], b, y);
      assert rooms == [rooms[0]] + rooms[1..];
      if InBucket(b, rooms[0].kind) {
        assert Select(rooms, b) == [rooms[0]] + Select(rooms[1..], b);
      }
    }
  }

  /** The columns partition the rooms: together they hold every room exactly
      as often as the list does. */
  lemma LegendPartitions(rooms: seq<Room>)
    ensures var l := BuildLegend(rooms);
      multiset(l.bedrooms) + multiset(l.kitchenDining) + multiset(l.bathrooms) + multiset(l.others) == multiset(rooms)
  {
    var l := BuildLegend(rooms);
    var all := multiset(l.bedrooms) + multiset(l.kitchenDining) + multiset(l.bathrooms) + multiset(l.others);
    forall y | true
      ensures all[y] == multiset(rooms)[y]
    {
      SelectCount(rooms, Bedrooms, y);
      SelectCount(rooms, KitchenDining, y);
      SelectCount(rooms, Bathrooms, y);
      SelectCount(rooms, Others, y);
      ExactlyOneBucket(y.kind);
    }
    assert all == multiset(rooms);
  }

  /** The column lengths add up to the room count. */
  lemma LegendCounts(rooms: seq<Room>)
    ensures var l := BuildLegend(rooms);
      |l.bedrooms| + |l.kitchenDining| + |l.bathrooms| + |l.others| == |rooms|
  {
    var l := BuildLegend(rooms);
    LegendPartitions(rooms);
    assert |multiset(rooms)| == |multiset(l.bedrooms) + multiset(l.kitchenDining) + multiset(l.bathrooms) + multiset(l.others)|;
  }

  /** The grouping of bedroom, bedroom, kitchen, garden. */
  lemma LegendExample(a: Room, b: Room, c: Room, d: Room)
    requires a.kind == Bedroom && b.kind == Bedroom && c.kind == Kitchen && d.kind == Garden
    ensures BuildLegend([a, b, c, d]) == Legend([a, b], [c], [], [d])
  {
    assert [a, b, c, d][1..] == [b, c, d];
    assert [b, c, d][1..] == [c, d];
    assert [c, d][1..] == [d];
    assert [d][1..] == [];
    assert Select([d], Bedrooms) == [] && Select([c, d], Bedrooms) == [];
    assert Select([a, b, c, d], Bedrooms) == [a, b];
    assert Select([d], KitchenDining) == [] && Select([c, d], KitchenDining) == [c];
    assert Select([a, b, c, d], KitchenDining) == [c];
    assert Select([c, d], Bathrooms) == [];
    assert Select([a, b, c, d], Bathrooms) == [];
    assert Select([d], Others) == [d] && Select([c, d], Others) == [d];
    assert Select([a, b, c, d], Others) == [d];
  }
}
