/**
 * The interactive polygon-drawing state machine: a list of vertices whose last entry
 * is a temporary "live" vertex that follows the map centre, and a completion flag
 * that is set when the live vertex comes within a pixel threshold of the first one.
 */
module PolygonDrawing {
  import opened Common
  import opened Model

  /** The polygon the view model publishes: its vertices (the live one included) and whether it is closed. */
  datatype DrawnPolygon = DrawnPolygon(vertices: seq<Coordinates>, isComplete: bool)
  {
    function Size(): nat
    {
      |vertices|
    }
  }

  /** A complete polygon has at least three committed vertices and its last vertex repeats the first. */
  predicate WellFormed(p: DrawnPolygon)
  {
    p.isComplete ==> |p.vertices| >= 4 && p.vertices[0] == p.vertices[|p.vertices| - 1]
  }

  /** The vertices before the live one. */
  function Committed(p: DrawnPolygon): seq<Coordinates>
  {
    if p.vertices == [] then [] else p.vertices[..|p.vertices| - 1]
  }

  /**
   * `updateLastVertexAndMaybeCompletePolygon`: the live vertex moves to `target`
   * (on an empty polygon, `target` becomes the first vertex). With three or more
   * committed vertices and a pixel distance to the first vertex of at most the
   * threshold, the live vertex snaps onto the first vertex and the polygon is complete.
   */
  function Updated(p: DrawnPolygon, target: Coordinates, distanceInPixels: (Coordinates, Coordinates) -> real, threshold: real)
    : (q: DrawnPolygon)
    ensures Committed(q) == Committed(p) && |q.vertices| == |Committed(p)| + 1
    ensures q.isComplete <==> |Committed(p)| >= 3 && distanceInPixels(p.vertices[0], target) <= threshold
    ensures !q.isComplete ==> q.vertices[|q.vertices| - 1] == target
    ensures WellFormed(q)
  {
    var committed := Committed(p);
    var near := |committed| >= 3 && distanceInPixels(p.vertices[0], target) <= threshold;
    DrawnPolygon(committed + [if near then p.vertices[0] else target], near)
  }

  /** `addLastVertex`: the live vertex is committed and a copy of it becomes the new live vertex. */
  function WithLastVertexAdded(p: DrawnPolygon): (q: DrawnPolygon)
    ensures p.vertices == [] ==> q == p
    ensures p.vertices != [] ==> Committed(q) == p.vertices && q.vertices[|q.vertices| - 1] == p.vertices[|p.vertices| - 1]
    ensures p.vertices != [] ==> !q.isComplete
  {
    if p.vertices == [] then p else DrawnPolygon(p.vertices + [p.vertices[|p.vertices| - 1]], false)
  }

  /** `removeLastVertex`: drops the last vertex and re-opens the polygon; nothing happens when it is empty. */
  function WithLastVertexRemoved(p: DrawnPolygon): (q: DrawnPolygon)
    ensures p.vertices == [] ==> q == p
    ensures p.vertices != [] ==> q.Size() == p.Size() - 1 && q.vertices == Committed(p) && !q.isComplete
  {
    if p.vertices == [] then p else DrawnPolygon(p.vertices[..|p.vertices| - 1], false)
  }

  /** Removing the vertex that adding opened restores the committed state. */
  lemma RemoveUndoesAdd(p: DrawnPolygon)
    requires p.vertices != []
    ensures WithLastVertexRemoved(WithLastVertexAdded(p)) == p.(isComplete := false)
  {
    assert (p.vertices + [p.vertices[|p.vertices| - 1]])[..|p.vertices|] == p.vertices;
  }

  /** Moving the live vertex to the same place twice is moving it once. */
  lemma UpdateIsIdempotent(p: DrawnPolygon, target: Coordinates, distanceInPixels: (Coordinates, Coordinates) -> real, threshold: real)
    ensures Updated(Updated(p, target, distanceInPixels, threshold), target, distanceInPixels, threshold)
      == Updated(p, target, distanceInPixels, threshold)
  {
    var q := Updated(p, target, distanceInPixels, threshold);
    if |Committed(p)| > 0 {
      assert q.vertices[0] == Committed(q)[0] == Committed(p)[0] == p.vertices[0];
    }
  }

  /** `removeLastVertex` applied `n` times. */
  function RemoveTimes(p: DrawnPolygon, n: nat): DrawnPolygon
    decreases n
  {
    if n == 0 then p else RemoveTimes(WithLastVertexRemoved(p), n - 1)
  }

  /** Whatever drawing is under way, any number of removals never goes below empty, and empty stays empty. */
  lemma {:induction false} RemovalsBottomOut(p: DrawnPolygon, n: nat)
    ensures RemoveTimes(p, n).Size() == if n <= p.Size() then p.Size() - n else 0
    decreases n
  {
    if n > 0 {
      RemovalsBottomOut(WithLastVertexRemoved(p), n - 1);
    }
  }

  datatype FeatureGeometry = PolygonShape(vertices: seq<Coordinates>)

  /** A shape on the map. */
  datatype Feature = Feature(geometry: FeatureGeometry)

  /** The drawn `features`: one polygon feature while there is a vertex, none otherwise. */
  function DrawnFeatures(p: DrawnPolygon): (fs: set<Feature>)
    ensures |fs| == if p.vertices == [] then 0 else 1
    ensures forall f :: f in fs ==> f.geometry.vertices == p.vertices
  {
    if p.vertices == [] then {} else {Feature(PolygonShape(p.vertices))}
  }

  datatype IllegalStateException = IllegalStateException(message: string)

  /** The view model behind the area-drawing task. */
  class PolygonDrawingViewModel {
    var vertices: seq<Coordinates>
    var isComplete: bool
    /** The closing threshold in pixels (the `DISTANCE_THRESHOLD_DP` constant). */
    const distanceThresholdDp: real

    /** The value published on `polygonLiveData`. */
    function DrawnState(): DrawnPolygon
      reads this
    {
      DrawnPolygon(vertices, isComplete)
    }

    ghost predicate Valid()
      reads this
    {
      WellFormed(DrawnState())
    }

    constructor (threshold: real)
      ensures Valid() && vertices == [] && !isComplete && distanceThresholdDp == threshold
    {
      vertices := [];
      isComplete := false;
      distanceThresholdDp := threshold;
    }

    /** The value published on `features`. */
    function Features(): (fs: set<Feature>)
      reads this
      ensures |fs| == if vertices == [] then 0 else 1
      ensures forall f :: f in fs ==> f.geometry.vertices == vertices
    {
      DrawnFeatures(DrawnState())
    }

    method UpdateLastVertexAndMaybeCompletePolygon(target: Coordinates, distanceInPixels: (Coordinates, Coordinates) -> real)
      requires Valid()
      modifies this
      ensures Valid()
      ensures DrawnState() == Updated(old(DrawnState()), target, distanceInPixels, distanceThresholdDp)
    {
      var committed := if vertices == [] then [] else vertices[..|vertices| - 1];
      if |committed| >= 3 && distanceInPixels(vertices[0], target) <= distanceThresholdDp {
        vertices := committed + [vertices[0]];
        isComplete := true;
      } else {
        vertices := committed + [target];
        isComplete := false;
      }
    }

    method AddLastVertex()
      requires Valid()
      modifies this
      ensures Valid()
      ensures DrawnState() == WithLastVertexAdded(old(DrawnState()))
    {
      if vertices != [] {
        vertices := vertices + [vertices[|vertices| - 1]];
        isComplete := false;
      }
    }

    method RemoveLastVertex()
      requires Valid()
      modifies this
      ensures Valid()
      ensures DrawnState() == WithLastVertexRemoved(old(DrawnState()))
    {
      if vertices != [] {
        vertices := vertices[..|vertices| - 1];
        isComplete := false;
      }
    }

    /** Throws unless the polygon is already complete; a complete polygon is left as it is. */
    method OnCompletePolygonButtonClick() returns (outcome: Outcome<IllegalStateException>)
      ensures outcome.Pass? <==> isComplete
      ensures outcome.Fail? ==> outcome.error == IllegalStateException("Polygon is not complete")
    {
      if !isComplete {
        return Fail(IllegalStateException("Polygon is not complete"));
      }
      outcome := Pass;
    }
  }

  // ---- The view-model tests, as verified scenarios ------------------------------------------
  // Each scenario holds for every value of the threshold.

  /** The tests' `updateLastVertex`: the injected distance is the threshold itself when near, one more otherwise. */
  method UpdateLastVertex(vm: PolygonDrawingViewModel, c: Coordinates, isNearFirstVertex: bool)
    requires vm.Valid()
    modifies vm
    ensures vm.Valid()
    ensures vm.DrawnState() ==
      Updated(old(vm.DrawnState()), c, (_, _) => if isNearFirstVertex then vm.distanceThresholdDp else vm.distanceThresholdDp + 1.0,
              vm.distanceThresholdDp)
  {
    var d := if isNearFirstVertex then vm.distanceThresholdDp else vm.distanceThresholdDp + 1.0;
    vm.UpdateLastVertexAndMaybeCompletePolygon(c, (_, _) => d);
  }

  /** The tests' `updateLastVertexAndAdd`. */
  method UpdateLastVertexAndAdd(vm: PolygonDrawingViewModel, c: Coordinates)
    requires vm.Valid()
    modifies vm
    ensures vm.Valid()
    ensures vm.DrawnState() == WithLastVertexAdded(Updated(old(vm.DrawnState()), c, (_, _) => vm.distanceThresholdDp + 1.0, vm.distanceThresholdDp))
  {
    UpdateLastVertex(vm, c, false);
    vm.AddLastVertex();
  }

  /** Three committed vertices (0,0), (10,10), (20,20) and a live copy of the last. */
  method ThreeCommitted(threshold: real) returns (vm: PolygonDrawingViewModel)
    ensures fresh(vm) && vm.Valid() && vm.distanceThresholdDp == threshold
    ensures vm.vertices == [Coordinates(0.0, 0.0), Coordinates(10.0, 10.0), Coordinates(20.0, 20.0), Coordinates(20.0, 20.0)]
    ensures !vm.isComplete
  {
    vm := new PolygonDrawingViewModel(threshold);
    UpdateLastVertexAndAdd(vm, Coordinates(0.0, 0.0));
    UpdateLastVertexAndAdd(vm, Coordinates(10.0, 10.0));
    UpdateLastVertexAndAdd(vm, Coordinates(20.0, 20.0));
  }

  method TestAddVertex(threshold: real) returns (size: nat, complete: bool, drawn: nat)
    ensures size == 2 && !complete && drawn == 1
  {
    var vm := new PolygonDrawingViewModel(threshold);
    UpdateLastVertexAndAdd(vm, Coordinates(0.0, 0.0));
    size, complete, drawn := vm.DrawnState().Size(), vm.DrawnState().isComplete, |vm.Features()|;
  }

  method TestAddVertexMultiplePoints(threshold: real) returns (size: nat, complete: bool, drawn: nat)
    ensures size == 4 && !complete && drawn == 1
  {
    var vm := ThreeCommitted(threshold);
    size, complete, drawn := vm.DrawnState().Size(), vm.DrawnState().isComplete, |vm.Features()|;
  }

  method TestUpdateLastVertexCloseToFirstVertexWithTwoCommitted(threshold: real) returns (size: nat, complete: bool, drawn: nat)
    ensures size == 3 && !complete && drawn == 1
  {
    var vm := new PolygonDrawingViewModel(threshold);
    UpdateLastVertexAndAdd(vm, Coordinates(0.0, 0.0));
    UpdateLastVertexAndAdd(vm, Coordinates(10.0, 10.0));
    UpdateLastVertex(vm, Coordinates(20.0, 20.0), true);
    size, complete, drawn := vm.DrawnState().Size(), vm.DrawnState().isComplete, |vm.Features()|;
  }

  method TestUpdateLastVertexCloseToFirstVertexWithThreeCommitted(threshold: real) returns (size: nat, complete: bool, drawn: nat)
    ensures size == 4 && complete && drawn == 1
  {
    var vm := ThreeCommitted(threshold);
    UpdateLastVertex(vm, Coordinates(30.0, 30.0), true);
    size, complete, drawn := vm.DrawnState().Size(), vm.DrawnState().isComplete, |vm.Features()|;
  }

  method TestRemoveLastVertexTwoVertices(threshold: real) returns (size: nat, complete: bool, drawn: nat)
    ensures size == 1 && !complete && drawn == 1
  {
    var vm := new PolygonDrawingViewModel(threshold);
    UpdateLastVertexAndAdd(vm, Coordinates(0.0, 0.0));
    vm.RemoveLastVertex();
    size, complete, drawn := vm.DrawnState().Size(), vm.DrawnState().isComplete, |vm.Features()|;
  }

  method TestRemoveLastVertexOneVertex(threshold: real) returns (size: nat, complete: bool, drawn: nat)
    ensures size == 0 && !complete && drawn == 0
  {
    var vm := new PolygonDrawingViewModel(threshold);
    UpdateLastVertex(vm, Coordinates(0.0, 0.0), false);
    vm.RemoveLastVertex();
    size, complete, drawn := vm.DrawnState().Size(), vm.DrawnState().isComplete, |vm.Features()|;
  }

  method TestRemoveLastVertexWhenEmptyDoesNothing(threshold: real) returns (size: nat, complete: bool, drawn: nat)
    ensures size == 0 && !complete && drawn == 0
  {
    var vm := new PolygonDrawingViewModel(threshold);
    UpdateLastVertex(vm, Coordinates(0.0, 0.0), false);
    vm.RemoveLastVertex();
    vm.RemoveLastVertex();
    size, complete, drawn := vm.DrawnState().Size(), vm.DrawnState().isComplete, |vm.Features()|;
  }

  method TestRemoveLastVertexWhenPolygonIsComplete(threshold: real) returns (size: nat, complete: bool, drawn: nat)
    ensures size == 3 && !complete && drawn == 1
  {
    var vm := ThreeCommitted(threshold);
    UpdateLastVertex(vm, Coordinates(30.0, 30.0), true);
    vm.RemoveLastVertex();
    size, complete, drawn := vm.DrawnState().Size(), vm.DrawnState().isComplete, |vm.Features()|;
  }

  method TestOnCompletePolygonButtonClickWhenPolygonIsIncomplete(threshold: real) returns (outcome: Outcome<IllegalStateException>)
    ensures outcome == Fail(IllegalStateException("Polygon is not complete"))
  {
    var vm := new PolygonDrawingViewModel(threshold);
    UpdateLastVertexAndAdd(vm, Coordinates(0.0, 0.0));
    UpdateLastVertexAndAdd(vm, Coordinates(10.0, 10.0));
    UpdateLastVertex(vm, Coordinates(20.0, 20.0), false);
    outcome := vm.OnCompletePolygonButtonClick();
  }

  method TestOnCompletePolygonButtonClickWhenPolygonIsComplete(threshold: real)
    returns (outcome: Outcome<IllegalStateException>, size: nat, complete: bool, drawn: nat)
    ensures outcome == Pass && size == 4 && complete && drawn == 1
  {
    var vm := ThreeCommitted(threshold);
    UpdateLastVertex(vm, Coordinates(30.0, 30.0), true);
    outcome := vm.OnCompletePolygonButtonClick();
    size, complete, drawn := vm.DrawnState().Size(), vm.DrawnState().isComplete, |vm.Features()|;
  }
}
