/** The zoom controller of the floor-plan canvas. Zoom is kept exactly, in
    tenths: 10 is the default 1.0, the step 0.2 is 2, the bounds 0.5 and 2.0
    are 5 and 20. */
module Zoom {

  const DefaultTenths: int := 10
  const StepTenths: int := 2
  const MinTenths: int := 5
  const MaxTenths: int := 20

  predicate InRange(z: int) {
    MinTenths <= z <= MaxTenths
  }

  /** The updater of `handleZoomIn`: one step up, saturating at the maximum. */
  function ZoomedIn(prev: int): (next: int)
    ensures next <= MaxTenths
    ensures next == MaxTenths <==> prev + StepTenths >= MaxTenths
    ensures next < MaxTenths ==> next == prev + StepTenths
  {
    if prev + StepTenths < MaxTenths then prev + StepTenths else MaxTenths
  }

  /** The updater of `handleZoomOut`: one step down, saturating at the minimum. */
  function ZoomedOut(prev: int): (next: int)
    ensures next >= MinTenths
    ensures next == MinTenths <==> prev - StepTenths <= MinTenths
    ensures next > MinTenths ==> next == prev - StepTenths
  {
    if prev - StepTenths > MinTenths then prev - StepTenths else MinTenths
  }

  /** The zoom factor as the canvas transform uses it. */
  function Factor(z: int): (f: real)
    requires InRange(z)
    ensures 0.5 <= f <= 2.0
    ensures f * 10.0 == z as real
  {
    z as real / 10.0
  }

  datatype ZoomOp = In | Out | Reset

  function Apply(z: int, op: ZoomOp): int {
    match op
    case In => ZoomedIn(z)
    case Out => ZoomedOut(z)
    case Reset => DefaultTenths
  }

  /** The zoom after pressing the buttons `ops` in order, starting from `z`. */
  function ApplyAll(z: int, ops: seq<ZoomOp>): int
    decreases ops
  {
    if ops == [] then z else ApplyAll(Apply(z, ops[0]), ops[1..])
  }

  /** Every button press keeps a zoom inside [0.5, 2.0]. */
  lemma ApplyKeepsRange(z: int, op: ZoomOp)
    requires InRange(z)
    ensures InRange(Apply(z, op))
  {
  }

  /** From any zoom inside [0.5, 2.0], no sequence of presses leaves it. */
  lemma {:induction false} ApplyAllKeepsRange(z: int, ops: seq<ZoomOp>)
    requires InRange(z)
    ensures InRange(ApplyAll(z, ops))
    decreases ops
  {
    if ops != [] {
      ApplyKeepsRange(z, ops[0]);
      ApplyAllKeepsRange(Apply(z, ops[0]), ops[1..]);
    }
  }

  /** 2.0 is a fixed point of zoom in, 0.5 of zoom out: repeated presses at a
      bound stay there. */
  lemma {:induction false} BoundsAreFixedPoints(n: nat)
    ensures ApplyAll(MaxTenths, seq(n, _ => In)) == MaxTenths
    ensures ApplyAll(MinTenths, seq(n, _ => Out)) == MinTenths
  {
    if n > 0 {
      assert seq(n, _ => In)[1..] == seq(n - 1, _ => In);
      assert seq(n, _ => Out)[1..] == seq(n - 1, _ => Out);
      BoundsAreFixedPoints(n - 1);
    }
  }

  /** Zoom out undoes zoom in whenever zoom in did not saturate, and the
      other way round. */
  lemma InOutInverse(z: int)
    ensures MinTenths <= z <= MaxTenths - StepTenths ==> ZoomedOut(ZoomedIn(z)) == z
    ensures MinTenths + StepTenths <= z <= MaxTenths ==> ZoomedIn(ZoomedOut(z)) == z
  {
  }

  /** Near the upper bound the round trip is not exact: 1.9 goes to 2.0, then
      back to 1.8. */
  lemma InOutNearBound()
    ensures ZoomedIn(19) == 20 && ZoomedOut(ZoomedIn(19)) == 18
  {
  }

  /** The `zoom` state of the canvas component with its three button handlers. */
  class ZoomController {
    var tenths: int

    ghost predicate Valid()
      reads this
    {
      InRange(tenths)
    }

    /** `useState(1)`. */
    constructor ()
      ensures Valid() && tenths == DefaultTenths
    {
      tenths := DefaultTenths;
    }

    function Zoom(): (f: real)
      reads this
      requires Valid()
      ensures 0.5 <= f <= 2.0
    {
      Factor(tenths)
    }

    method ZoomIn()
      requires Valid()
      modifies this
      ensures Valid() && tenths == ZoomedIn(old(tenths))
      ensures old(tenths) <= tenths
    {
      tenths := ZoomedIn(tenths);
    }

    method ZoomOut()
      requires Valid()
      modifies this
      ensures Valid() && tenths == ZoomedOut(old(tenths))
      ensures tenths <= old(tenths)
    {
      tenths := ZoomedOut(tenths);
    }

    method ResetView()
      requires Valid()
      modifies this
      ensures Valid() && tenths == DefaultTenths
    {
      tenths := DefaultTenths;
    }
  }
}
