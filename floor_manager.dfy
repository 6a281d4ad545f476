/** Per-floor visibility bookkeeping: one ground and one objects container per floor,
    each with a visibility flag and an opacity, plus the index of the current floor. */
module FloorManagement {

  /** The two properties of a display container that floor switching writes. */
  datatype Layer = Layer(visible: bool, alpha: real)

  datatype FloorContainers = FloorContainers(ground: Layer, objects: Layer)

  /** A freshly created container is visible and fully opaque. */
  const NewLayer: Layer := Layer(true, 1.0)

  const NewContainers: FloorContainers := FloorContainers(NewLayer, NewLayer)

  /** Opacity of floors below the active one. */
  const DimmedAlpha: real := 0.5

  /** Floor f, of both containers, is visible exactly when f <= active, and is
      dimmed exactly when it lies strictly below active. */
  ghost predicate Shows(containers: seq<FloorContainers>, active: int) {
    forall f :: 0 <= f < |containers| ==>
      && containers[f].ground.visible == (f <= active)
      && containers[f].objects.visible == (f <= active)
      && containers[f].ground.alpha == (if f < active then DimmedAlpha else 1.0)
      && containers[f].objects.alpha == (if f < active then DimmedAlpha else 1.0)
  }

  /** The visibility layout for a given active floor is unique, so showing the same
      floor twice leaves the state that showing it once does. */
  lemma ShowsIsDeterministic(a: seq<FloorContainers>, b: seq<FloorContainers>, active: int)
    requires |a| == |b| && Shows(a, active) && Shows(b, active)
    ensures a == b
  {
    forall f | 0 <= f < |a|
      ensures a[f] == b[f]
    {
      assert a[f].ground == b[f].ground && a[f].objects == b[f].objects;
    }
  }

  class FloorManager {
    /** The container record, keyed by floor index 0 .. n-1. */
    var floorContainers: seq<FloorContainers>
    var currentFloor: int

    /** One container pair per world floor, starting on floor 0. */
    constructor (floorCount: nat)
      ensures |floorContainers| == floorCount
      ensures forall f :: 0 <= f < floorCount ==> floorContainers[f] == NewContainers
      ensures currentFloor == 0
    {
      var containers: seq<FloorContainers> := [];
      for floor := 0 to floorCount
        invariant |containers| == floor
        invariant forall f :: 0 <= f < floor ==> containers[f] == NewContainers
      {
        containers := containers + [NewContainers];
      }
      floorContainers := containers;
      currentFloor := 0;
    }

    /** Shows floors 0 .. activeFloor, dims those below it, hides those above, and
        records activeFloor as current. activeFloor is not range-checked. */
    method SetFloorVisibility(activeFloor: int)
      modifies this
      ensures |floorContainers| == |old(floorContainers)|
      ensures Shows(floorContainers, activeFloor)
      ensures currentFloor == activeFloor
    {
      for floor := 0 to |floorContainers|
        invariant |floorContainers| == |old(floorContainers)|
        invariant Shows(floorContainers[..floor], activeFloor)
      {
        var isVisible := floor <= activeFloor;
        var alpha := if floor < activeFloor then DimmedAlpha else 1.0;
        var pair := floorContainers[floor];
        floorContainers := floorContainers[floor := FloorContainers(
          pair.ground.(visible := isVisible, alpha := alpha),
          pair.objects.(visible := isVisible, alpha := alpha))];
      }
      assert floorContainers[..|floorContainers|] == floorContainers;
      currentFloor := activeFloor;
    }

    function GetCurrentFloor(): int
      reads this
    {
      currentFloor
    }

    /** Appends a fresh container pair and returns its index, the previous count;
        existing entries and the current floor are untouched. */
    method AddNewFloor() returns (newFloorIndex: int)
      modifies this
      ensures newFloorIndex == |old(floorContainers)|
      ensures floorContainers == old(floorContainers) + [NewContainers]
      ensures currentFloor == old(currentFloor)
    {
      newFloorIndex := |floorContainers|;
      floorContainers := floorContainers + [NewContainers];
    }
  }
}
