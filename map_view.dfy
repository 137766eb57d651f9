/**
 * The map component: its waypoint feature collection, its depot markers,
 * its route layers, the click handler, the prop-sync effect and
 * `drawOptimizedRoutes`. Everything the map library itself does (tiles,
 * sources, the DOM of a marker) is abstracted to these fields.
 */
module MapComponent {
  import opened Json
  import opened Waypoints
  import opened Routes

  /** The inner `forEach` over one segment's legs: pushes, onto the line
      collected so far, the spread `LineString` of each qualifying leg.
      `None` means a spread threw. */
  method PushLegs(legs: seq<Value>, acc: seq<Value>) returns (line: Option<seq<Value>>)
    ensures line == Then(Some(acc), Collect(legs, LegContribution))
  {
    var pushed := acc;
    var j := 0;
    assert acc + [] == acc;
    while j < |legs|
      invariant 0 <= j <= |legs|
      invariant Then(Some(acc), Collect(legs[..j], LegContribution)) == Some(pushed)
    {
      var w := legs[j];
      assert legs[..j + 1][..j] == legs[..j];
      ThenAssociative(Some(acc), Collect(legs[..j], LegContribution), LegContribution(w));
      if Qualifies(w) {
        var spread := Spread(LineStringOf(w));
        if spread.None? {
          CollectThrowIsFinal(legs, j + 1, LegContribution);
          return None;
        }
        pushed := pushed + spread.value;
      } else {
        assert pushed + [] == pushed;
      }
      j := j + 1;
    }
    assert legs[..j] == legs;
    line := Some(pushed);
  }

  /** The nested `forEach` loops that collect one vehicle's line: every
      array segment, in order, pushes its legs' lines. */
  method CollectVehicle(routes: Value) returns (line: Option<seq<Value>>)
    ensures line == VehicleLine(routes)
  {
    var acc: seq<Value> := [];
    if routes.Arr? {
      var segments := routes.items;
      var s := 0;
      while s < |segments|
        invariant 0 <= s <= |segments|
        invariant Collect(segments[..s], SegmentContribution) == Some(acc)
      {
        var segment := segments[s];
        assert segments[..s + 1][..s] == segments[..s];
        if segment.Arr? {
          var pushed := PushLegs(segment.items, acc);
          if pushed.None? {
            CollectThrowIsFinal(segments, s + 1, SegmentContribution);
            return None;
          }
          acc := pushed.value;
        } else {
          assert acc + [] == acc;
        }
        s := s + 1;
      }
      assert segments[..s] == segments;
    }
    line := Some(acc);
  }

  class MapView {
    /** `isMapLoaded`: the map fired its `load` event. */
    var loaded: bool
    /** `waypoints.current.features`, as positions. */
    var waypoints: seq<Position>
    /** `markers.current`: the depot marker the prop-sync effect placed. */
    var markers: seq<Position>
    /** Depot markers the click handler placed; they are never recorded in
        `markers.current` and so never removed. */
    var clickDepots: seq<Position>
    /** The route layers `route-i` on the map. */
    var layers: map<nat, Layer>

    ghost predicate Valid()
      reads this
    {
      && Coloured(layers)
      && |markers| <= 1
      && (!loaded ==> waypoints == [] && markers == [] && clickDepots == [] && layers == map[])
    }

    constructor ()
      ensures Valid()
      ensures !loaded && waypoints == [] && markers == [] && clickDepots == [] && layers == map[]
    {
      loaded := false;
      waypoints := [];
      markers := [];
      clickDepots := [];
      layers := map[];
    }

    /** The map's `load` event: from here on clicks are handled and the
        prop-sync effect acts. */
    method Load()
      requires Valid()
      modifies this`loaded
      ensures Valid() && loaded
    {
      loaded := true;
    }

    /** The click handler. Before `load` no handler is attached and the click
        is lost. Otherwise the point is pushed, a depot marker is placed if
        it is the only point, a copy of element 0 is pushed, the list is
        emitted to the parent and, when the parent supplied `onOptimize`,
        passed to it as well. */
    method Click(p: Position, hasOnOptimize: bool) returns (emitted: Option<seq<Position>>, optimize: bool)
      requires Valid()
      modifies this`waypoints, this`clickDepots
      ensures Valid()
      ensures !loaded ==> (emitted == None && !optimize
        && waypoints == old(waypoints) && clickDepots == old(clickDepots))
      ensures loaded ==> (waypoints == ClickStep(old(waypoints), p) && emitted == Some(waypoints)
        && optimize == hasOnOptimize
        && clickDepots == old(clickDepots) + (if old(waypoints) == [] then [p] else []))
    {
      if !loaded {
        return None, false;
      }
      waypoints := waypoints + [p];
      if |waypoints| == 1 {
        clickDepots := clickDepots + [p];
      }
      if |waypoints| >= 1 {
        waypoints := waypoints + [waypoints[0]];
      }
      var newCoordinates := waypoints;
      emitted := Some(newCoordinates);
      optimize := |waypoints| >= 2 && hasOnOptimize;
    }

    /** The effect that runs when the parent's coordinates or result change:
        the tracked markers are replaced by one depot marker for element 0,
        the feature collection is rebuilt from the coordinates, and routes
        are drawn when there is a result with `waypoints`. `threw` says that
        drawing threw (the effect catches and logs it). */
    method Sync(coordinates: seq<Position>, result: Value) returns (threw: bool)
      requires Valid()
      modifies this`waypoints, this`markers, this`layers
      ensures Valid()
      ensures !loaded ==> !threw && waypoints == old(waypoints) && markers == old(markers) && layers == old(layers)
      ensures loaded ==> (waypoints == coordinates
        && markers == (if |coordinates| > 0 then [coordinates[0]] else [])
        && Render(old(layers), result) == Canvas(layers, threw))
    {
      threw := false;
      if !loaded {
        return;
      }
      markers := [];
      waypoints := coordinates;
      if |coordinates| > 0 {
        markers := markers + [coordinates[0]];
      }
      if Truthy(result) && Truthy(Field(result, "waypoints")) {
        threw := DrawOptimizedRoutes(result);
      }
    }

    /** `drawOptimizedRoutes`: returns at once without a result with
        `waypoints`; otherwise removes `route-0` … `route-9`, then draws one
        layer per key when `waypoints` has more than one key, or `route-0`
        from a `waypoints` array otherwise. */
    method DrawOptimizedRoutes(result: Value) returns (threw: bool)
      requires Valid() && loaded
      modifies this`layers
      ensures Valid()
      ensures Render(old(layers), result) == Canvas(layers, threw)
    {
      RenderKeepsColours(layers, result);
      threw := false;
      var waypointsField := Field(result, "waypoints");
      if !Truthy(result) || !Truthy(waypointsField) {
        return;
      }
      RemoveRouteLayers();
      var keys := Entries(waypointsField);
      if |keys| > 1 {
        threw := DrawVehicleLayers(keys);
      } else {
        var a: seq<Value> := [];
        if waypointsField.Arr? {
          var line := CollectVehicle(waypointsField);
          if line.None? {
            return true;
          }
          a := line.value;
        }
        if |a| > 0 {
          layers := layers[0 := Layer(a, Palette[0])];
        }
      }
    }

    /** The loop removing the layers `route-0` … `route-9` that exist. */
    method RemoveRouteLayers()
      modifies this`layers
      ensures layers == ClearRouteLayers(old(layers))
    {
      var i := 0;
      while i < RemovedLayers
        invariant 0 <= i <= RemovedLayers
        invariant forall k :: k in layers <==> k in old(layers) && k >= i
        invariant forall k :: k in layers ==> layers[k] == old(layers)[k]
      {
        if i in layers {
          layers := layers - {i};
        }
        i := i + 1;
      }
    }

    /** The keyed branch's `forEach` over the keys: vehicle `index` collects
        its line and, if that is non-empty, adds `route-index` holding the
        line flattened once, in colour `index mod 10`. Collecting or adding
        may throw, which ends the loop. */
    method DrawVehicleLayers(keys: seq<Value>) returns (threw: bool)
      modifies this`layers
      ensures DrawVehicles(Canvas(old(layers), false), keys) == Canvas(layers, threw)
    {
      ghost var start := Canvas(layers, false);
      var index := 0;
      while index < |keys|
        invariant 0 <= index <= |keys|
        invariant DrawVehicles(start, keys[..index]) == Canvas(layers, false)
      {
        assert keys[..index + 1][..index] == keys[..index];
        var line := CollectVehicle(keys[index]);
        if line.None? {
          DrawVehiclesThrowIsFinal(start, keys, index + 1);
          return true;
        }
        if |line.value| > 0 {
          if index in layers {
            DrawVehiclesThrowIsFinal(start, keys, index + 1);
            return true;
          }
          layers := layers[index := Layer(FlatOnce(line.value), Palette[index % |Palette|])];
        }
        index := index + 1;
      }
      assert keys[..index] == keys;
      threw := false;
    }
  }
}
