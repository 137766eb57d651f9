/**
 * What the map's route renderer draws for an optimisation result: the line
 * of each vehicle (the `LineString`s of its qualifying legs, in order), the
 * shape dispatch on `Object.keys(result.waypoints).length`, the palette, and
 * the removal of the layers `route-0` … `route-9` before a draw.
 */
module Routes {
  import opened Json

  /** The ten line colours, assigned by vehicle index modulo ten. */
  const Palette: seq<string> := ["#ffc214", "#9900aa", "#ff7321", "#13c3f6", "#8ed813",
                                 "#e96463", "#005270", "#8D60A3", "#6FD9A7", "#48496B"]

  /** The layers `route-0` … `route-(RemovedLayers - 1)` are removed before a draw. */
  const RemovedLayers: nat := 10

  /** A drawn `route-i` line layer (its GeoJSON source and its layer, which
      are always added and removed together). */
  datatype Layer = Layer(coordinates: seq<Value>, color: string)

  /** The route layers on the map, by index, and whether the draw in progress
      was stopped by an exception. */
  datatype Canvas = Canvas(layers: map<nat, Layer>, failed: bool)

  /** `w.Geometry?.LineString` */
  function LineStringOf(w: Value): Value
  {
    Field(Field(w, "Geometry"), "LineString")
  }

  /** `w && w.Distance > 0 && w.Geometry?.LineString`: only a leg object
      whose `Geometry` is an object can qualify. */
  predicate Qualifies(w: Value)
    ensures Qualifies(w) ==> w.Obj? && Field(w, "Geometry").Obj?
  {
    Truthy(w) && Positive(Field(w, "Distance")) && Truthy(LineStringOf(w))
  }

  /** What one element of a segment pushes onto the vehicle's line: the
      spread `LineString` of a qualifying leg, nothing for any other element,
      and `None` when the spread throws. */
  function LegContribution(w: Value): Option<seq<Value>>
  {
    if Qualifies(w) then Spread(LineStringOf(w)) else Some([])
  }

  /** Sequencing of two pushes: the second runs only if the first did not
      throw. */
  function Then(a: Option<seq<Value>>, b: Option<seq<Value>>): (r: Option<seq<Value>>)
    ensures r.Some? <==> a.Some? && b.Some?
    ensures r.Some? ==> r.value == a.value + b.value
  {
    if a.None? || b.None? then None else Some(a.value + b.value)
  }

  /** The pushes of a `forEach` over `xs`, in order, stopping at the first
      that throws. */
  function Collect(xs: seq<Value>, f: Value -> Option<seq<Value>>): Option<seq<Value>>
  {
    if |xs| == 0 then Some([])
    else Then(Collect(xs[..|xs| - 1], f), f(xs[|xs| - 1]))
  }

  /** A segment contributes the lines of its legs if it is an array, and
      nothing otherwise. */
  function SegmentContribution(segment: Value): Option<seq<Value>>
  {
    if segment.Arr? then Collect(segment.items, LegContribution) else Some([])
  }

  /** The collected line of one vehicle's routes (an array of segments);
      a value that is not an array contributes nothing. Segment boundaries
      do not matter: the line is that of all legs of the array segments. */
  function VehicleLine(routes: Value): (r: Option<seq<Value>>)
    ensures routes.Arr? ==> r == Collect(AllLegs(routes.items), LegContribution)
    ensures !routes.Arr? ==> r == Some([])
  {
    if routes.Arr? then
      CollectSegmentsIsCollectLegs(routes.items);
      Collect(routes.items, SegmentContribution)
    else Some([])
  }

  /** The layers left after the removal loop: every index below ten is gone,
      every other layer is kept. */
  function ClearRouteLayers(layers: map<nat, Layer>): (r: map<nat, Layer>)
    ensures forall k :: k in r <==> k in layers && k >= RemovedLayers
    ensures forall k :: k in r ==> r[k] == layers[k]
  {
    map k | k in layers && k >= RemovedLayers :: layers[k]
  }

  /** Adding the layer `route-index` for a collected line: nothing once the
      draw has failed, a failure if collecting threw or if a layer with that
      id already exists (the map refuses a duplicate source id), nothing for
      an empty line, and otherwise the layer in colour `index mod 10`. */
  function AddRoute(c: Canvas, index: nat, line: Option<seq<Value>>, flatten: bool): (r: Canvas)
    ensures c.layers.Keys <= r.layers.Keys
    ensures forall k :: k in c.layers ==> r.layers[k] == c.layers[k]
    ensures c.failed ==> r == c
  {
    if c.failed then c
    else if line.None? then c.(failed := true)
    else if |line.value| == 0 then c
    else if index in c.layers then c.(failed := true)
    else
      var coordinates := if flatten then FlatOnce(line.value) else line.value;
      c.(layers := c.layers[index := Layer(coordinates, Palette[index % |Palette|])])
  }

  /** The keyed branch: vehicle `i` (the i-th key) draws `route-i`, its line
      flattened one extra level. A draw that has failed stays as it was; a
      draw that ends without failing collected every vehicle's line without
      a throw. */
  function DrawVehicles(c: Canvas, vehicles: seq<Value>): (r: Canvas)
    ensures c.failed ==> r == c
    ensures !r.failed ==> !c.failed && forall i :: 0 <= i < |vehicles| ==> VehicleLine(vehicles[i]).Some?
  {
    if |vehicles| == 0 then c
    else
      var n := |vehicles| - 1;
      AddRoute(DrawVehicles(c, vehicles[..n]), n, VehicleLine(vehicles[n]), true)
  }

  /** The prop-sync effect draws only for a truthy result with truthy
      `waypoints`; `drawOptimizedRoutes` repeats the same test. */
  predicate Draws(result: Value)
  {
    Truthy(result) && Truthy(Field(result, "waypoints"))
  }

  /** The route layers after `drawOptimizedRoutes(result)`, and whether it
      threw. */
  function Render(layers: map<nat, Layer>, result: Value): (r: Canvas)
    ensures !Draws(result) ==> r == Canvas(layers, false)
  {
    if !Draws(result) then Canvas(layers, false)
    else
      var waypoints := Field(result, "waypoints");
      var cleared := Canvas(ClearRouteLayers(layers), false);
      var vehicles := Entries(waypoints);
      if |vehicles| > 1 then DrawVehicles(cleared, vehicles)
      // the single branch collects only when `waypoints` is an array, which
      // VehicleLine tests
      else AddRoute(cleared, 0, VehicleLine(waypoints), false)
  }

  /** Every drawn layer carries its palette colour. */
  ghost predicate Coloured(layers: map<nat, Layer>)
  {
    forall i :: i in layers ==> layers[i].color == Palette[i % |Palette|]
  }

  // ---------------------------------------------------------------------
  // Collecting lines

  lemma ThenAssociative(a: Option<seq<Value>>, b: Option<seq<Value>>, c: Option<seq<Value>>)
    ensures Then(Then(a, b), c) == Then(a, Then(b, c))
  {
    if a.Some? && b.Some? && c.Some? {
      assert (a.value + b.value) + c.value == a.value + (b.value + c.value);
    }
  }

  /** Pushing over `a + b` is pushing over `a`, then over `b`. */
  lemma {:induction false} CollectAppend(a: seq<Value>, b: seq<Value>, f: Value -> Option<seq<Value>>)
    ensures Collect(a + b, f) == Then(Collect(a, f), Collect(b, f))
  {
    if |b| == 0 {
      assert a + b == a;
      if Collect(a, f).Some? {
        assert Collect(a, f).value + [] == Collect(a, f).value;
      }
    } else {
      var b' := b[..|b| - 1];
      assert (a + b)[..|a + b| - 1] == a + b';
      assert (a + b)[|a + b| - 1] == b[|b| - 1];
      CollectAppend(a, b', f);
      ThenAssociative(Collect(a, f), Collect(b', f), f(b[|b| - 1]));
    }
  }

  /** Once a push has thrown, the whole `forEach` has thrown. */
  lemma CollectThrowIsFinal(xs: seq<Value>, k: nat, f: Value -> Option<seq<Value>>)
    requires k <= |xs| && Collect(xs[..k], f).None?
    ensures Collect(xs, f).None?
  {
    assert xs == xs[..k] + xs[k..];
    CollectAppend(xs[..k], xs[k..], f);
  }

  /** A leg whose `Distance` is not positive contributes nothing, even when
      it carries a geometry. */
  lemma LegWithoutDistanceContributesNothing(a: seq<Value>, w: Value, b: seq<Value>)
    requires !Positive(Field(w, "Distance"))
    ensures Collect(a + [w] + b, LegContribution) == Collect(a + b, LegContribution)
  {
    CollectAppend(a + [w], b, LegContribution);
    CollectAppend(a, [w], LegContribution);
    CollectAppend(a, b, LegContribution);
    assert Collect([w], LegContribution) == Then(Collect([], LegContribution), LegContribution(w));
    if Collect(a, LegContribution).Some? {
      assert Collect(a, LegContribution).value + [] == Collect(a, LegContribution).value;
    }
  }

  /** The legs of a vehicle's array segments, in order, ignoring segments
      that are not arrays. */
  function AllLegs(segments: seq<Value>): (r: seq<Value>)
    ensures (forall i :: 0 <= i < |segments| ==> !segments[i].Arr?) ==> r == []
  {
    if |segments| == 0 then []
    else
      var last := segments[|segments| - 1];
      AllLegs(segments[..|segments| - 1]) + (if last.Arr? then last.items else [])
  }

  /** Segment boundaries do not matter: a vehicle's line is the in-order
      concatenation of the contributions of all legs of its array segments. */
  lemma {:induction false} CollectSegmentsIsCollectLegs(segments: seq<Value>)
    ensures Collect(segments, SegmentContribution) == Collect(AllLegs(segments), LegContribution)
  {
    if |segments| > 0 {
      var prefix := segments[..|segments| - 1];
      var last := segments[|segments| - 1];
      CollectSegmentsIsCollectLegs(prefix);
      var tail := if last.Arr? then last.items else [];
      CollectAppend(AllLegs(prefix), tail, LegContribution);
      if !last.Arr? {
        assert Collect(tail, LegContribution) == Some([]);
      }
    }
  }

  /** The reference reading of a vehicle's line when no `LineString` makes
      the spread throw: the concatenation of the `LineString`s of the
      qualifying legs, in order. */
  function QualifyingLines(legs: seq<Value>): seq<Value>
  {
    if |legs| == 0 then []
    else
      var w := legs[|legs| - 1];
      QualifyingLines(legs[..|legs| - 1]) + (if Qualifies(w) && LineStringOf(w).Arr? then LineStringOf(w).items else [])
  }

  lemma {:induction false} CollectLegsIsQualifyingLines(legs: seq<Value>)
    requires forall i :: 0 <= i < |legs| && Qualifies(legs[i]) ==> LineStringOf(legs[i]).Arr?
    ensures Collect(legs, LegContribution) == Some(QualifyingLines(legs))
  {
    if |legs| > 0 {
      CollectLegsIsQualifyingLines(legs[..|legs| - 1]);
    }
  }

  /** With array `LineString`s throughout, a vehicle's line is exactly the
      concatenation of its qualifying legs' lines. */
  lemma VehicleLineIsQualifyingLines(routes: Value)
    requires routes.Arr?
    requires forall i :: 0 <= i < |AllLegs(routes.items)| && Qualifies(AllLegs(routes.items)[i]) ==>
      LineStringOf(AllLegs(routes.items)[i]).Arr?
    ensures VehicleLine(routes) == Some(QualifyingLines(AllLegs(routes.items)))
  {
    CollectSegmentsIsCollectLegs(routes.items);
    CollectLegsIsQualifyingLines(AllLegs(routes.items));
  }

  /** Pushes that each contribute nothing collect nothing. */
  lemma {:induction false} CollectNothing(xs: seq<Value>, f: Value -> Option<seq<Value>>)
    requires forall i :: 0 <= i < |xs| ==> f(xs[i]) == Some([])
    ensures Collect(xs, f) == Some([])
  {
    if |xs| > 0 {
      var prefix := xs[..|xs| - 1];
      assert forall i :: 0 <= i < |prefix| ==> prefix[i] == xs[i];
      CollectNothing(prefix, f);
      assert Collect(xs, f) == Then(Some([]), Some([]));
    }
  }

  // ---------------------------------------------------------------------
  // Drawing

  /** Drawing never alters or removes a layer it started with. */
  lemma {:induction false} DrawVehiclesKeepsLayers(c: Canvas, vehicles: seq<Value>)
    ensures c.layers.Keys <= DrawVehicles(c, vehicles).layers.Keys
    ensures forall k :: k in c.layers ==> DrawVehicles(c, vehicles).layers[k] == c.layers[k]
    ensures c.failed ==> DrawVehicles(c, vehicles) == c
  {
    if |vehicles| > 0 {
      DrawVehiclesKeepsLayers(c, vehicles[..|vehicles| - 1]);
    }
  }

  /** Once a vehicle has thrown, the later vehicles draw nothing. */
  lemma {:induction false} DrawVehiclesThrowIsFinal(c: Canvas, vehicles: seq<Value>, k: nat)
    requires k <= |vehicles| && DrawVehicles(c, vehicles[..k]).failed
    ensures DrawVehicles(c, vehicles) == DrawVehicles(c, vehicles[..k])
  {
    if k < |vehicles| {
      var prefix := vehicles[..|vehicles| - 1];
      assert prefix[..k] == vehicles[..k];
      DrawVehiclesThrowIsFinal(c, prefix, k);
    } else {
      assert vehicles[..k] == vehicles;
    }
  }

  /** What the keyed branch draws when it does not throw: vehicle i's line
      is collected without error; if it is non-empty the layer `route-i` is
      new and holds it flattened, in colour `i mod 10`; if it is empty,
      `route-i` is left as it was. No other layer is added. */
  lemma {:induction false} DrawVehiclesDraws(c: Canvas, vehicles: seq<Value>)
    requires !c.failed
    ensures var d := DrawVehicles(c, vehicles);
      !d.failed ==>
        (forall i :: 0 <= i < |vehicles| ==>
          VehicleLine(vehicles[i]).Some? &&
          (|VehicleLine(vehicles[i]).value| > 0 ==>
             i !in c.layers && i in d.layers &&
             d.layers[i] == Layer(FlatOnce(VehicleLine(vehicles[i]).value), Palette[i % 10])) &&
          (|VehicleLine(vehicles[i]).value| == 0 ==> (i in d.layers <==> i in c.layers))) &&
        (forall k :: k in d.layers ==> k in c.layers || k < |vehicles|)
  {
    if |vehicles| > 0 {
      var n := |vehicles| - 1;
      var prefix := vehicles[..n];
      DrawVehiclesDraws(c, prefix);
      var before := DrawVehicles(c, prefix);
      var d := DrawVehicles(c, vehicles);
      assert d == AddRoute(before, n, VehicleLine(vehicles[n]), true);
      if !d.failed {
        assert !before.failed;
        var line := VehicleLine(vehicles[n]);
        assert line.Some?;
        forall i | 0 <= i < |vehicles|
          ensures VehicleLine(vehicles[i]).Some?
          ensures |VehicleLine(vehicles[i]).value| > 0 ==>
             i !in c.layers && i in d.layers &&
             d.layers[i] == Layer(FlatOnce(VehicleLine(vehicles[i]).value), Palette[i % 10])
          ensures |VehicleLine(vehicles[i]).value| == 0 ==> (i in d.layers <==> i in c.layers)
        {
          if i < n {
            assert vehicles[i] == prefix[i];
          } else {
            DrawVehiclesKeepsLayers(c, prefix);
          }
        }
      }
    }
  }

  /** Every drawn layer keeps its palette colour across a render. */
  lemma RenderKeepsColours(layers: map<nat, Layer>, result: Value)
    requires Coloured(layers)
    ensures Coloured(Render(layers, result).layers)
  {
    if Draws(result) {
      var vehicles := Entries(Field(result, "waypoints"));
      var cleared := Canvas(ClearRouteLayers(layers), false);
      if |vehicles| > 1 {
        DrawVehiclesColoured(cleared, vehicles);
      }
    }
  }

  lemma {:induction false} DrawVehiclesColoured(c: Canvas, vehicles: seq<Value>)
    requires Coloured(c.layers)
    ensures Coloured(DrawVehicles(c, vehicles).layers)
  {
    if |vehicles| > 0 {
      DrawVehiclesColoured(c, vehicles[..|vehicles| - 1]);
    }
  }

  /** A render removes `route-0` … `route-9` and keeps every higher layer it
      found; a layer below ten afterwards was drawn by this render: the
      render gives the same canvas as one starting with those ten removed. */
  lemma RenderClearsLowLayers(layers: map<nat, Layer>, result: Value)
    requires Draws(result)
    ensures var r := Render(layers, result);
      (forall k :: k in layers && k >= RemovedLayers ==> k in r.layers && r.layers[k] == layers[k]) &&
      (forall k :: k in r.layers && k < RemovedLayers ==> k < |Entries(Field(result, "waypoints"))| || k == 0)
    ensures Render(layers, result) == Render(ClearRouteLayers(layers), result)
  {
    ClearRouteLayersIdempotent(layers);
    var vehicles := Entries(Field(result, "waypoints"));
    var cleared := Canvas(ClearRouteLayers(layers), false);
    if |vehicles| > 1 {
      DrawVehiclesKeepsLayers(cleared, vehicles);
      DrawVehiclesDraws(cleared, vehicles);
      DrawVehiclesBound(cleared, vehicles);
    }
  }

  /** Removing `route-0` … `route-9` twice is removing them once. */
  lemma ClearRouteLayersIdempotent(layers: map<nat, Layer>)
    ensures ClearRouteLayers(ClearRouteLayers(layers)) == ClearRouteLayers(layers)
  {
  }

  lemma {:induction false} DrawVehiclesBound(c: Canvas, vehicles: seq<Value>)
    ensures forall k :: k in DrawVehicles(c, vehicles).layers ==> k in c.layers || k < |vehicles|
  {
    if |vehicles| > 0 {
      DrawVehiclesBound(c, vehicles[..|vehicles| - 1]);
    }
  }

  /** A keyed `waypoints` object with exactly one key draws nothing: it
      takes the single-vehicle branch, which collects only from an array. */
  lemma SingleKeyObjectDrawsNothing(layers: map<nat, Layer>, result: Value)
    requires Draws(result)
    requires Field(result, "waypoints").Obj? && |Field(result, "waypoints").fields| == 1
    ensures Render(layers, result) == Canvas(ClearRouteLayers(layers), false)
  {
  }

  /** The single-vehicle branch (`waypoints` with at most one key): a
      `waypoints` that is not an array draws nothing; an array whose line
      throws makes the draw throw; otherwise `route-0` is drawn exactly when
      the line is non-empty, holding the line as collected (not flattened),
      in the first palette colour, and no other layer is added. */
  lemma RenderSingleVehicle(layers: map<nat, Layer>, result: Value)
    requires Draws(result) && |Entries(Field(result, "waypoints"))| <= 1
    ensures var w := Field(result, "waypoints");
      var cleared := ClearRouteLayers(layers);
      var r := Render(layers, result);
      && (!w.Arr? ==> r == Canvas(cleared, false))
      && (w.Arr? && VehicleLine(w).None? ==> r.failed)
      && (w.Arr? && VehicleLine(w) == Some([]) ==> r == Canvas(cleared, false))
      && (w.Arr? && VehicleLine(w).Some? && |VehicleLine(w).value| > 0 ==>
            r == Canvas(cleared[0 := Layer(VehicleLine(w).value, Palette[0])], false))
  {
  }

  /** With array `LineString`s throughout, the single vehicle's `route-0`
      holds exactly the `LineString`s of its qualifying legs, in order. */
  lemma RenderSingleVehicleLine(layers: map<nat, Layer>, result: Value)
    requires Draws(result)
    requires var w := Field(result, "waypoints");
      w.Arr? && |w.items| <= 1 &&
      forall i :: 0 <= i < |AllLegs(w.items)| && Qualifies(AllLegs(w.items)[i]) ==>
        LineStringOf(AllLegs(w.items)[i]).Arr?
    ensures var w := Field(result, "waypoints");
      var line := QualifyingLines(AllLegs(w.items));
      var r := Render(layers, result);
      && !r.failed
      && (|line| > 0 ==> 0 in r.layers && r.layers[0] == Layer(line, Palette[0]))
      && (forall k :: k in r.layers ==> k == 0 || (k in layers && k >= RemovedLayers))
  {
    var w := Field(result, "waypoints");
    VehicleLineIsQualifyingLines(w);
    RenderSingleVehicle(layers, result);
  }

  /** A flat `waypoints` array of two or more segments, each an array of
      leg objects, draws nothing: its keys are "0", "1", …, so it takes the
      keyed branch, which reads each segment as a vehicle and each leg as a
      segment that is not an array. */
  lemma FlatArrayOfSegmentsDrawsNothing(layers: map<nat, Layer>, result: Value)
    requires Draws(result)
    requires var w := Field(result, "waypoints");
      w.Arr? && |w.items| >= 2 &&
      forall i :: 0 <= i < |w.items| ==> (w.items[i].Arr? &&
        forall j :: 0 <= j < |w.items[i].items| ==> !w.items[i].items[j].Arr?)
    ensures Render(layers, result) == Canvas(ClearRouteLayers(layers), false)
  {
    var vehicles := Field(result, "waypoints").items;
    forall i | 0 <= i < |vehicles|
      ensures VehicleLine(vehicles[i]) == Some([])
    {
      CollectNothing(vehicles[i].items, SegmentContribution);
    }
    DrawNothing(Canvas(ClearRouteLayers(layers), false), vehicles);
  }

  lemma {:induction false} DrawNothing(c: Canvas, vehicles: seq<Value>)
    requires forall i :: 0 <= i < |vehicles| ==> VehicleLine(vehicles[i]) == Some([])
    ensures DrawVehicles(c, vehicles) == c
  {
    if |vehicles| > 0 {
      DrawNothing(c, vehicles[..|vehicles| - 1]);
    }
  }

  /** Only `route-0` … `route-9` are removed, so a result that drew a line
      for an eleventh vehicle cannot be drawn again: `route-10` is still
      there and adding it a second time throws. */
  lemma RedrawOfElevenVehiclesFails(layers: map<nat, Layer>, result: Value)
    requires Draws(result)
    requires |Entries(Field(result, "waypoints"))| > RemovedLayers
    requires !Render(layers, result).failed
    requires VehicleLine(Entries(Field(result, "waypoints"))[RemovedLayers]).Some?
    requires |VehicleLine(Entries(Field(result, "waypoints"))[RemovedLayers]).value| > 0
    ensures Render(Render(layers, result).layers, result).failed
  {
    var vehicles := Entries(Field(result, "waypoints"));
    var first := Render(layers, result);
    DrawVehiclesDraws(Canvas(ClearRouteLayers(layers), false), vehicles);
    assert RemovedLayers in first.layers;
    var cleared := Canvas(ClearRouteLayers(first.layers), false);
    assert RemovedLayers in cleared.layers;
    var upTo := vehicles[..RemovedLayers + 1];
    assert upTo[..RemovedLayers] == vehicles[..RemovedLayers];
    var before := DrawVehicles(cleared, vehicles[..RemovedLayers]);
    DrawVehiclesKeepsLayers(cleared, vehicles[..RemovedLayers]);
    assert DrawVehicles(cleared, upTo) == AddRoute(before, RemovedLayers, VehicleLine(vehicles[RemovedLayers]), true);
    assert DrawVehicles(cleared, upTo).failed;
    DrawVehiclesThrowIsFinal(cleared, vehicles, RemovedLayers + 1);
  }
}
