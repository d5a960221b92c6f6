/**
 * SplineInstantiate (Unity Splines): the validation of the component's
 * settings, the random offset ranges, weighted prefab choice and the cache
 * of spawned instances. Placement of instances along the spline is not
 * modelled; random draws are supplied by the caller.
 */
module SplineInstantiateModel {
  import opened Engine
  import Sequences

  /** Setup flags of a Vector3Offset (a flags enum; only these two low bits are ever used, so eight bits hold it). */
  const HasOffset: bv8 := 1
  const HasCustomSpace: bv8 := 2

  /** SplineInstantiate.Space: Spline = 0, Local = 1, World = 2. */
  datatype Space = SplineSpace | LocalSpace | WorldSpace

  /** SplineInstantiate.OffsetSpace: the three Space values plus Object = 3. */
  datatype OffsetSpace = OffsetSpline | OffsetLocal | OffsetWorld | OffsetObject

  datatype Method = InstanceCount | SpacingDistance | LinearDistance

  function SpaceValue(s: Space): int
  {
    match s
    case SplineSpace => 0
    case LocalSpace => 1
    case WorldSpace => 2
  }

  /**
   * The integer an offset space casts to. It equals an instance space's
   * integer exactly when the two are the same named space; Object matches none.
   */
  function OffsetSpaceValue(s: OffsetSpace): (r: int)
    ensures forall t: Space :: r == SpaceValue(t) <==>
      (s, t) == (OffsetSpline, SplineSpace) || (s, t) == (OffsetLocal, LocalSpace) || (s, t) == (OffsetWorld, WorldSpace)
  {
    match s
    case OffsetSpline => 0
    case OffsetLocal => 1
    case OffsetWorld => 2
    case OffsetObject => 3
  }

  /** UnityEngine.Splines.AlignAxis: X, Y, Z, -X, -Y, -Z numbered 0 to 5. */
  type AlignAxis = a: int | 0 <= a < 6

  const XAxis: AlignAxis := 0
  const YAxis: AlignAxis := 1
  const ZAxis: AlignAxis := 2

  /** The axis pointing the other way. */
  function Opposite(a: AlignAxis): AlignAxis { (a + 3) % 6 }

  /** v is a value Random.Range(a, b) can return (the range is inclusive and may be given reversed). */
  predicate InRange(v: real, a: real, b: real)
  {
    MinReal(a, b) <= v <= MaxReal(a, b)
  }

  /** The Vector3Offset struct: a min/max range for a random position, rotation or scale offset. */
  class Vector3Offset {
    var setup: bv8
    var min: Vec3
    var max: Vec3
    var randomX: bool
    var randomY: bool
    var randomZ: bool
    var space: OffsetSpace

    constructor ()
      ensures setup == 0 && min == Zero3 && max == Zero3
      ensures !randomX && !randomY && !randomZ && space == OffsetSpline
    {
      setup := 0;
      min := Zero3;
      max := Zero3;
      randomX, randomY, randomZ := false, false, false;
      space := OffsetSpline;
    }

    predicate HasOffsetFlag()
      reads this
    {
      setup & HasOffset != 0
    }

    predicate HasCustomSpaceFlag()
      reads this
    {
      setup & HasCustomSpace != 0
    }

    /**
     * GetNextOffset: zero unless the offset is enabled; otherwise each
     * component is min, or the random draw within [min, max] when that axis
     * is randomised. rx, ry, rz are the Random.Range draws.
     */
    function GetNextOffset(rx: real, ry: real, rz: real): (r: Vec3)
      reads this
      requires randomX ==> InRange(rx, min.x, max.x)
      requires randomY ==> InRange(ry, min.y, max.y)
      requires randomZ ==> InRange(rz, min.z, max.z)
      ensures !HasOffsetFlag() ==> r == Zero3
      ensures HasOffsetFlag() ==>
        && InRange(r.x, min.x, max.x) && InRange(r.y, min.y, max.y) && InRange(r.z, min.z, max.z)
        && (!randomX ==> r.x == min.x) && (!randomY ==> r.y == min.y) && (!randomZ ==> r.z == min.z)
    {
      if HasOffsetFlag() then
        Vec3(if randomX then rx else min.x, if randomY then ry else min.y, if randomZ then rz else min.z)
      else
        Zero3
    }

    /** CheckMinMaxValidity: raises each max component to at least min; nothing else changes. */
    method CheckMinMaxValidity()
      modifies this
      ensures min.x <= max.x && min.y <= max.y && min.z <= max.z
      ensures max == Max3(min, old(max))
      ensures old(max).x >= min.x ==> max.x == old(max).x
      ensures old(max).y >= min.y ==> max.y == old(max).y
      ensures old(max).z >= min.z ==> max.z == old(max).z
      ensures setup == old(setup) && min == old(min) && space == old(space)
      ensures randomX == old(randomX) && randomY == old(randomY) && randomZ == old(randomZ)
    {
      max := Vec3(MaxReal(min.x, max.x), MaxReal(min.y, max.y), MaxReal(min.z, max.z));
    }

    /**
     * CheckMinMax: validates the range, then the offset is enabled exactly
     * when max is not the zero vector; the other setup bits are kept.
     */
    method CheckMinMax()
      modifies this
      ensures max == Max3(min, old(max))
      ensures HasOffsetFlag() <==> max != Zero3
      ensures setup & !HasOffset == old(setup) & !HasOffset
      ensures min == old(min) && space == old(space)
      ensures randomX == old(randomX) && randomY == old(randomY) && randomZ == old(randomZ)
    {
      CheckMinMaxValidity();
      // max.magnitude > 0 holds exactly for a non-zero vector
      if max != Zero3 {
        setup := setup | HasOffset;
      } else {
        setup := setup & !HasOffset;
      }
    }

    /** CheckCustomSpace: the custom-space bit is set exactly when the offset space differs from the instance space. */
    method CheckCustomSpace(instanceSpace: Space)
      modifies this
      ensures HasCustomSpaceFlag() <==> OffsetSpaceValue(space) != SpaceValue(instanceSpace)
      ensures setup & !HasCustomSpace == old(setup) & !HasCustomSpace
      ensures min == old(min) && max == old(max) && space == old(space)
      ensures randomX == old(randomX) && randomY == old(randomY) && randomZ == old(randomZ)
    {
      if OffsetSpaceValue(space) == SpaceValue(instanceSpace) {
        setup := setup & !HasCustomSpace;
      } else {
        setup := setup | HasCustomSpace;
      }
    }

    /** The Min...Offset property setters. */
    method SetMin(value: Vec3)
      modifies this
      ensures min == value && max == Max3(value, old(max))
      ensures HasOffsetFlag() <==> max != Zero3
      ensures setup & !HasOffset == old(setup) & !HasOffset
      ensures space == old(space) && randomX == old(randomX) && randomY == old(randomY) && randomZ == old(randomZ)
    {
      min := value;
      CheckMinMax();
    }

    /** The Max...Offset property setters. */
    method SetMax(value: Vec3)
      modifies this
      ensures min == old(min) && max == Max3(old(min), value)
      ensures HasOffsetFlag() <==> max != Zero3
      ensures setup & !HasOffset == old(setup) & !HasOffset
      ensures space == old(space) && randomX == old(randomX) && randomY == old(randomY) && randomZ == old(randomZ)
    {
      max := value;
      CheckMinMax();
    }

    /** The ...Space property setters. */
    method SetSpace(value: OffsetSpace, instanceSpace: Space)
      modifies this
      ensures space == value
      ensures HasCustomSpaceFlag() <==> OffsetSpaceValue(value) != SpaceValue(instanceSpace)
      ensures setup & !HasCustomSpace == old(setup) & !HasCustomSpace
      ensures min == old(min) && max == old(max)
      ensures randomX == old(randomX) && randomY == old(randomY) && randomZ == old(randomZ)
    {
      space := value;
      CheckCustomSpace(instanceSpace);
    }
  }

  /** An InstantiableItem: a prefab (possibly missing) with its weight. */
  datatype InstantiableItem = InstantiableItem(prefab: GameObject?, probability: real)

  /** The summed weight of the items that have a prefab. */
  function TotalProbability(items: seq<InstantiableItem>): real
  {
    if items == [] then 0.0
    else TotalProbability(items[..|items| - 1]) + (if items[|items| - 1].prefab != null then items[|items| - 1].probability else 0.0)
  }

  /** Item i is picked by the draw `choice` if it has a prefab and the draw falls below its cumulative weight. */
  predicate Picks(items: seq<InstantiableItem>, choice: real, i: int)
  {
    0 <= i < |items| && items[i].prefab != null && choice < TotalProbability(items[..i]) + items[i].probability
  }

  /**
   * The weighted choice is total: with non-negative weights, a draw in
   * [0, total) always picks some item (a draw equal to the total does not,
   * and GetPrefabIndex then falls back to index 0).
   */
  lemma {:induction false} DrawBelowTotalPicksAnItem(items: seq<InstantiableItem>, choice: real)
    requires forall k :: 0 <= k < |items| ==> items[k].probability >= 0.0
    requires 0.0 <= choice < TotalProbability(items)
    ensures exists i :: Picks(items, choice, i)
  {
    var n := |items|;
    var init := items[..n - 1];
    assert items[..n - 1] == init;
    if choice < TotalProbability(init) {
      DrawBelowTotalPicksAnItem(init, choice);
      var i :| Picks(init, choice, i);
      assert init[..i] == items[..i];
      assert Picks(items, choice, i);
    } else {
      assert items[n - 1].prefab != null;
      assert Picks(items, choice, n - 1);
    }
  }

  class SplineInstantiate {
    var items: seq<InstantiableItem>
    var instantiateMethod: Method
    var coordinateSpace: Space
    var spacing: Vec2
    var up: AlignAxis
    var forward: AlignAxis
    const positionOffset: Vector3Offset
    const rotationOffset: Vector3Offset
    const scaleOffset: Vector3Offset
    /** m_Instances; a destroyed instance reads as null. */
    var instances: seq<GameObject?>
    var instancesCacheDirty: bool
    var autoRefresh: bool
    var splineDirty: bool
    var maxProbability: real
    var seed: int
    /** Every instance passed to Destroy / DestroyImmediate, in order. */
    var destroyed: seq<GameObject?>
    var container: SplineContainer?

    /** The three offsets are separate struct fields, never the same object. */
    ghost predicate Valid()
      reads this
    {
      positionOffset != rotationOffset && rotationOffset != scaleOffset && positionOffset != scaleOffset
    }

    constructor ()
      ensures Valid()
      ensures items == [] && instantiateMethod == SpacingDistance && coordinateSpace == SplineSpace
      ensures spacing == Vec2(1.0, 1.0) && up == YAxis && forward == ZAxis
      ensures fresh(positionOffset) && fresh(rotationOffset) && fresh(scaleOffset)
      ensures instances == [] && !instancesCacheDirty && autoRefresh && !splineDirty
      ensures maxProbability == 1.0 && seed == 0 && destroyed == [] && container == null
    {
      items := [];
      instantiateMethod := SpacingDistance;
      coordinateSpace := SplineSpace;
      spacing := Vec2(1.0, 1.0);
      up := YAxis;
      forward := ZAxis;
      positionOffset := new Vector3Offset();
      rotationOffset := new Vector3Offset();
      scaleOffset := new Vector3Offset();
      instances := [];
      instancesCacheDirty := false;
      autoRefresh := true;
      splineDirty := false;
      maxProbability := 1.0;
      seed := 0;
      destroyed := [];
      container := null;
    }

    /**
     * ValidateSpacing: the minimum spacing is at least 0.1; with a
     * spline-distance or count method the maximum is at least 0.1 and at least
     * the minimum, with linear distance it equals the minimum.
     */
    method ValidateSpacing()
      modifies this
      ensures spacing.x == MaxReal(0.1, old(spacing).x)
      ensures instantiateMethod != LinearDistance ==> spacing.y == MaxReal(spacing.x, MaxReal(0.1, old(spacing).y))
      ensures instantiateMethod == LinearDistance ==> spacing.y == spacing.x
      ensures 0.1 <= spacing.x <= spacing.y
      ensures old(spacing).x >= 0.1 && old(spacing).y >= old(spacing).x && instantiateMethod != LinearDistance ==> spacing == old(spacing)
      ensures items == old(items) && instantiateMethod == old(instantiateMethod) && coordinateSpace == old(coordinateSpace)
      ensures up == old(up) && forward == old(forward) && instances == old(instances)
      ensures instancesCacheDirty == old(instancesCacheDirty) && autoRefresh == old(autoRefresh)
      ensures splineDirty == old(splineDirty) && maxProbability == old(maxProbability)
      ensures seed == old(seed) && destroyed == old(destroyed) && container == old(container)
    {
      var xSpacing := MaxReal(0.1, spacing.x);
      if instantiateMethod != LinearDistance {
        var ySpacing := MaxReal(0.1, spacing.y);
        spacing := Vec2(xSpacing, MaxReal(xSpacing, ySpacing));
      } else {
        var ySpacing := xSpacing;
        spacing := Vec2(xSpacing, ySpacing);
      }
    }

    /** The MinSpacing setter. */
    method SetMinSpacing(value: real)
      modifies this
      ensures spacing.x == MaxReal(0.1, value)
      ensures instantiateMethod != LinearDistance ==> spacing.y == MaxReal(spacing.x, MaxReal(0.1, old(spacing).y))
      ensures instantiateMethod == LinearDistance ==> spacing.y == spacing.x
      ensures 0.1 <= spacing.x <= spacing.y
      ensures items == old(items) && instantiateMethod == old(instantiateMethod) && coordinateSpace == old(coordinateSpace)
      ensures up == old(up) && forward == old(forward) && instances == old(instances)
      ensures instancesCacheDirty == old(instancesCacheDirty) && autoRefresh == old(autoRefresh)
      ensures splineDirty == old(splineDirty) && maxProbability == old(maxProbability)
      ensures seed == old(seed) && destroyed == old(destroyed) && container == old(container)
    {
      spacing := Vec2(value, spacing.y);
      ValidateSpacing();
    }

    /** The MaxSpacing setter. */
    method SetMaxSpacing(value: real)
      modifies this
      ensures spacing.x == MaxReal(0.1, old(spacing).x)
      ensures instantiateMethod != LinearDistance ==> spacing.y == MaxReal(spacing.x, MaxReal(0.1, value))
      ensures instantiateMethod == LinearDistance ==> spacing.y == spacing.x
      ensures 0.1 <= spacing.x <= spacing.y
      ensures items == old(items) && instantiateMethod == old(instantiateMethod) && coordinateSpace == old(coordinateSpace)
      ensures up == old(up) && forward == old(forward) && instances == old(instances)
      ensures instancesCacheDirty == old(instancesCacheDirty) && autoRefresh == old(autoRefresh)
      ensures splineDirty == old(splineDirty) && maxProbability == old(maxProbability)
      ensures seed == old(seed) && destroyed == old(destroyed) && container == old(container)
    {
      spacing := Vec2(spacing.x, value);
      ValidateSpacing();
    }

    /**
     * ValidateAxis: a forward axis along or against the up axis moves to the
     * next axis, which is then neither; an acceptable forward axis is kept.
     */
    method ValidateAxis()
      modifies this
      ensures forward != up && forward != Opposite(up)
      ensures old(forward) != up && old(forward) != Opposite(up) ==> forward == old(forward)
      ensures old(forward) == up || old(forward) == Opposite(up) ==> forward == (old(forward) + 1) % 6
      ensures up == old(up) && spacing == old(spacing) && items == old(items)
      ensures instantiateMethod == old(instantiateMethod) && coordinateSpace == old(coordinateSpace)
      ensures instances == old(instances) && instancesCacheDirty == old(instancesCacheDirty)
      ensures autoRefresh == old(autoRefresh) && splineDirty == old(splineDirty)
      ensures maxProbability == old(maxProbability) && seed == old(seed) && destroyed == old(destroyed)
      ensures container == old(container)
    {
      if forward == up || forward == (up + 3) % 6 {
        forward := (forward + 1) % 6;
      }
    }

    /** The ForwardAxis setter. */
    method SetForwardAxis(value: AlignAxis)
      modifies this
      ensures forward != up && forward != Opposite(up)
      ensures value != up && value != Opposite(up) ==> forward == value
      ensures value == up || value == Opposite(up) ==> forward == (value + 1) % 6
      ensures up == old(up) && spacing == old(spacing) && items == old(items)
      ensures instantiateMethod == old(instantiateMethod) && coordinateSpace == old(coordinateSpace)
      ensures instances == old(instances) && instancesCacheDirty == old(instancesCacheDirty)
      ensures autoRefresh == old(autoRefresh) && splineDirty == old(splineDirty)
      ensures maxProbability == old(maxProbability) && seed == old(seed) && destroyed == old(destroyed)
      ensures container == old(container)
    {
      forward := value;
      ValidateAxis();
    }

    /** The maxProbability setter: the instance cache goes dirty only when the value changes. */
    method SetMaxProbability(value: real)
      modifies this
      ensures maxProbability == value
      ensures instancesCacheDirty == (old(instancesCacheDirty) || old(maxProbability) != value)
      ensures items == old(items) && spacing == old(spacing) && instances == old(instances)
      ensures instantiateMethod == old(instantiateMethod) && coordinateSpace == old(coordinateSpace)
      ensures up == old(up) && forward == old(forward) && autoRefresh == old(autoRefresh)
      ensures splineDirty == old(splineDirty) && seed == old(seed) && destroyed == old(destroyed)
      ensures container == old(container)
    {
      if maxProbability != value {
        maxProbability := value;
        instancesCacheDirty := true;
      }
    }

    /** The seed setter: always marks the instance cache dirty. */
    method SetSeed(value: int)
      modifies this
      ensures seed == value && instancesCacheDirty
      ensures items == old(items) && spacing == old(spacing) && instances == old(instances)
      ensures instantiateMethod == old(instantiateMethod) && coordinateSpace == old(coordinateSpace)
      ensures up == old(up) && forward == old(forward) && autoRefresh == old(autoRefresh)
      ensures splineDirty == old(splineDirty) && maxProbability == old(maxProbability) && destroyed == old(destroyed)
      ensures container == old(container)
    {
      seed := value;
      instancesCacheDirty := true;
    }

    /** Randomize: a new seed (the caller's draw) and the spline is marked for regeneration. */
    method Randomize(draw: int)
      modifies this
      ensures seed == draw && instancesCacheDirty && splineDirty
      ensures items == old(items) && spacing == old(spacing) && instances == old(instances)
      ensures instantiateMethod == old(instantiateMethod) && coordinateSpace == old(coordinateSpace)
      ensures up == old(up) && forward == old(forward) && autoRefresh == old(autoRefresh)
      ensures maxProbability == old(maxProbability) && destroyed == old(destroyed)
      ensures container == old(container)
    {
      SetSeed(draw);
      splineDirty := true;
    }

    /** UndoRedoPerformed: both the instance cache and the spline are marked dirty. */
    method UndoRedoPerformed()
      modifies this
      ensures instancesCacheDirty && splineDirty
      ensures items == old(items) && spacing == old(spacing) && instances == old(instances)
      ensures instantiateMethod == old(instantiateMethod) && coordinateSpace == old(coordinateSpace)
      ensures up == old(up) && forward == old(forward) && autoRefresh == old(autoRefresh)
      ensures maxProbability == old(maxProbability) && seed == old(seed) && destroyed == old(destroyed)
      ensures container == old(container)
    {
      instancesCacheDirty := true;
      splineDirty := true;
    }

    /**
     * OnEnable: a zero seed is replaced by the component's instance id, any
     * other seed is kept. The undo and spline-change subscriptions are not
     * modelled.
     */
    method OnEnable(instanceId: int)
      modifies this`seed
      ensures old(seed) == 0 ==> seed == instanceId
      ensures old(seed) != 0 ==> seed == old(seed)
    {
      if seed == 0 {
        seed := instanceId;
      }
    }

    /**
     * OnValidate: validates the spacing, follows the auto-refresh setting,
     * repairs the three offset ranges and sets maxProbability to the summed
     * weight of the items that have a prefab.
     */
    method OnValidate()
      requires Valid()
      modifies this, positionOffset, rotationOffset, scaleOffset
      ensures Valid()
      ensures maxProbability == TotalProbability(items)
      ensures instancesCacheDirty == (old(instancesCacheDirty) || old(maxProbability) != TotalProbability(items))
      ensures splineDirty == autoRefresh
      ensures 0.1 <= spacing.x <= spacing.y
      ensures spacing.x == MaxReal(0.1, old(spacing).x)
      ensures instantiateMethod != LinearDistance ==> spacing.y == MaxReal(spacing.x, MaxReal(0.1, old(spacing).y))
      ensures instantiateMethod == LinearDistance ==> spacing.y == spacing.x
      ensures positionOffset.max == Max3(old(positionOffset.min), old(positionOffset.max))
      ensures rotationOffset.max == Max3(old(rotationOffset.min), old(rotationOffset.max))
      ensures scaleOffset.max == Max3(old(scaleOffset.min), old(scaleOffset.max))
      ensures positionOffset.min == old(positionOffset.min) && positionOffset.setup == old(positionOffset.setup)
      ensures rotationOffset.min == old(rotationOffset.min) && rotationOffset.setup == old(rotationOffset.setup)
      ensures scaleOffset.min == old(scaleOffset.min) && scaleOffset.setup == old(scaleOffset.setup)
      ensures positionOffset.space == old(positionOffset.space) && rotationOffset.space == old(rotationOffset.space)
      ensures scaleOffset.space == old(scaleOffset.space)
      ensures positionOffset.randomX == old(positionOffset.randomX) && positionOffset.randomY == old(positionOffset.randomY)
      ensures positionOffset.randomZ == old(positionOffset.randomZ) && rotationOffset.randomX == old(rotationOffset.randomX)
      ensures rotationOffset.randomY == old(rotationOffset.randomY) && rotationOffset.randomZ == old(rotationOffset.randomZ)
      ensures scaleOffset.randomX == old(scaleOffset.randomX) && scaleOffset.randomY == old(scaleOffset.randomY)
      ensures scaleOffset.randomZ == old(scaleOffset.randomZ)
      ensures items == old(items) && instances == old(instances) && autoRefresh == old(autoRefresh)
      ensures instantiateMethod == old(instantiateMethod) && coordinateSpace == old(coordinateSpace)
      ensures up == old(up) && forward == old(forward) && seed == old(seed)
      ensures destroyed == old(destroyed) && container == old(container)
    {
      ValidateSpacing();
      splineDirty := autoRefresh;
      var probability := 0.0;
      var i := 0;
      while i < |items|
        invariant 0 <= i <= |items|
        invariant probability == TotalProbability(items[..i])
      {
        var item := items[i];
        assert items[..i + 1][..i] == items[..i];
        if item.prefab != null {
          probability := probability + item.probability;
        }
        i := i + 1;
      }
      assert items[..|items|] == items;
      positionOffset.CheckMinMaxValidity();
      rotationOffset.CheckMinMaxValidity();
      scaleOffset.CheckMinMaxValidity();
      SetMaxProbability(probability);
    }

    /**
     * GetPrefabIndex: the first item with a prefab whose cumulative weight
     * exceeds the draw, or 0 when there is none. `choice` is the draw
     * Random.Range(0, maxProbability).
     */
    method GetPrefabIndex(choice: real) returns (index: int)
      ensures (exists i :: Picks(items, choice, i)) ==>
        Picks(items, choice, index) && forall j :: 0 <= j < index ==> !Picks(items, choice, j)
      ensures (forall i :: !Picks(items, choice, i)) ==> index == 0
    {
      var currentProbability := 0.0;
      var i := 0;
      while i < |items|
        invariant 0 <= i <= |items|
        invariant currentProbability == TotalProbability(items[..i])
        invariant forall j :: 0 <= j < i ==> !Picks(items, choice, j)
      {
        assert items[..i + 1][..i] == items[..i];
        if items[i].prefab == null {
          i := i + 1;
          continue;
        }
        var itemProbability := items[i].probability;
        if choice < currentProbability + itemProbability {
          assert Picks(items, choice, i);
          return i;
        }
        currentProbability := currentProbability + itemProbability;
        i := i + 1;
      }
      assert forall j :: !Picks(items, choice, j);
      return 0;
    }

    /** SpawnPrefab's choice of item: the only item when there is one, the weighted choice otherwise. */
    method ChooseItem(choice: real) returns (index: int)
      ensures |items| == 1 ==> index == 0
      ensures |items| != 1 && (exists i :: Picks(items, choice, i)) ==> Picks(items, choice, index)
      ensures |items| != 1 && (forall i :: !Picks(items, choice, i)) ==> index == 0
    {
      if |items| == 1 {
        index := 0;
      } else {
        index := GetPrefabIndex(choice);
      }
    }

    method SetDirty()
      modifies this`instancesCacheDirty
      ensures instancesCacheDirty
    {
      instancesCacheDirty := true;
    }

    /**
     * TryClearCache: a cache holding a destroyed (null) instance is dirty;
     * a dirty cache has all its instances destroyed, last first, and is
     * emptied and marked clean. A clean cache of live instances is left alone.
     */
    method TryClearCache()
      modifies this`instancesCacheDirty, this`instances, this`destroyed
      ensures !instancesCacheDirty
      ensures old(instancesCacheDirty) || null in old(instances) ==>
        instances == [] && destroyed == old(destroyed) + Sequences.Reverse(old(instances))
      ensures !old(instancesCacheDirty) && null !in old(instances) ==>
        instances == old(instances) && destroyed == old(destroyed)
    {
      if !instancesCacheDirty {
        var hasDestroyed := HoldsDestroyedInstance();
        if hasDestroyed {
          instancesCacheDirty := true;
        }
      }
      if instancesCacheDirty {
        DestroyInstances();
        instances := [];
        instancesCacheDirty := false;
      }
    }

    /** The scan of TryClearCache for an instance that was destroyed behind the cache's back. */
    method HoldsDestroyedInstance() returns (r: bool)
      ensures r <==> null in instances
    {
      var i := 0;
      while i < |instances|
        invariant 0 <= i <= |instances|
        invariant null !in instances[..i]
      {
        if instances[i] == null {
          return true;
        }
        assert instances[..i + 1] == instances[..i] + [instances[i]];
        i := i + 1;
      }
      assert instances[..|instances|] == instances;
      return false;
    }

    /** The destroy loop of TryClearCache: every cached instance, last first. */
    method DestroyInstances()
      modifies this`destroyed
      ensures destroyed == old(destroyed) + Sequences.Reverse(instances)
    {
      var i := |instances| - 1;
      while i >= 0
        invariant -1 <= i < |instances|
        invariant destroyed == old(destroyed) + Sequences.Reverse(instances[i + 1..])
      {
        assert instances[i..] == [instances[i]] + instances[i + 1..];
        destroyed := destroyed + [instances[i]];
        i := i - 1;
      }
      assert instances[0..] == instances;
    }

    /** Clear: every instance is destroyed and the cache is empty and clean. */
    method Clear()
      modifies this`instancesCacheDirty, this`instances, this`destroyed
      ensures instances == [] && !instancesCacheDirty
      ensures destroyed == old(destroyed) + Sequences.Reverse(old(instances))
    {
      SetDirty();
      TryClearCache();
    }

    /** OnSplineChanged: a change to the container's main spline requests regeneration when auto-refresh is on. */
    method OnSplineChanged(spline: Spline)
      modifies this`splineDirty
      ensures container != null && container.mainSpline == spline ==> splineDirty == autoRefresh
      ensures !(container != null && container.mainSpline == spline) ==> splineDirty == old(splineDirty)
    {
      if container != null && container.mainSpline == spline {
        splineDirty := autoRefresh;
      }
    }
  }
}
