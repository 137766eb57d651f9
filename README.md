# Route-optimisation dashboard: waypoint store and route renderer

This project models, in Dafny, the client-side logic of a last-mile delivery
dashboard. The user clicks points on a map, sets fleet parameters and sends
the list to an external route-optimisation service. The returned routes are
drawn on the map as one coloured line per vehicle.

The model covers two source files:

- `frontend/src/components/Map.tsx`, modelled imperatively as the class
  `MapComponent.MapView`. It covers:
  - the click handler, which pushes the clicked point and then a copy of the
    depot (element 0);
  - the prop-sync effect, which rebuilds the waypoint list and the depot
    marker from the parent's coordinates and redraws routes;
  - `drawOptimizedRoutes`: its removal loop over `route-0` … `route-9`, its
    dispatch on `Object.keys(result.waypoints).length`, and its nested
    `forEach` loops that collect each vehicle's line.

  Each method is proved against specification functions in module `Routes`
  (what gets drawn) and module `Waypoints` (the duplication rule). The lemmas
  about those functions state the properties.
- `frontend/src/pages/Dashboard.tsx`, modelled as the class
  `DashboardPage.Dashboard`. It holds the coordinates, the result, the
  `isOptimizing` flag and the configuration. It covers:
  - the sample-data and clear handlers;
  - `handleOptimize`, split at its `await`. `BeginOptimize` holds the guard,
    the request body and raising the flag. `CompleteOptimize` takes the
    response as a parameter, replaces the result only on success and
    lowers the flag in the `finally`;
  - the Optimize button's enabled condition.

Module `Json` models the JavaScript values of a parsed response. It also
models the language operations the renderer relies on: truthiness, property
access, `Object.keys`, spread and `flat()`. Because of this, the renderer's
shape quirks follow from the language's rules and are not special-cased:
- a keyed object with one key draws nothing;
- a flat array with two or more elements takes the keyed branch.

Module `Session` wires the two components together as the page does. A map
click calls `setCoordinates`, then calls the `handleOptimize` captured at
the first render, then re-runs the map's prop-sync effect.

Behaviour the code has, which the model keeps:

- The list after clicks `p0, p1, p2` is `[p0, p0, p1, p0, p2, p0]`. Index 2k
  holds the k-th click and every odd index holds the depot; after two clicks
  the list is `[p0, p0, p1, p0]`.
- Clearing the locations sets the result to `null`. The prop-sync effect only
  draws for a truthy result with `waypoints`, so the routes already on the
  map stay there.
- The keyed branch passes `routeCoordinates.flat()` to the layer. This
  flattens the collected positions into bare numbers (`Json.FlatOnceOfPositions`).
  The single-vehicle branch passes the positions unflattened.
- Only `route-0` … `route-9` are removed before a draw, but the keyed branch
  can add `route-10` and higher. Adding a source id that already exists
  throws in the map library. So a result with an eleventh non-empty vehicle
  cannot be drawn a second time (`Routes.RedrawOfElevenVehiclesFails`).
- The click handler's depot marker is not recorded in `markers.current`, so
  the prop-sync effect never removes it (`MapView.clickDepots`).
- The click handler was attached in the first render. Its `handleOptimize`
  therefore uses the initial configuration (`Session.ClickOnMap`).

## Model

| member | source | states |
|---|---|---|
| `Waypoints.ClickStep` | frontend/src/components/Map.tsx:76-102 | a click grows the list by exactly two; the old list is a prefix; the second-to-last entry is the clicked point and the last equals element 0; from an empty list the result is `[p, p]` |
| `Waypoints.ClicksShape` | frontend/src/components/Map.tsx:76-102 | after n clicks from empty the list has length 2n, index 2k holds the k-th click, index 0 and every odd index hold the first click |
| `Waypoints.ClicksExtend` | frontend/src/components/Map.tsx:77-101 | clicks never alter existing entries: the list before further clicks is a prefix of the list after them, which is longer by two per click |
| `Waypoints.DepotOccurrences` | frontend/src/components/Map.tsx:99-102 | after n clicks from empty the depot occurs at least n + 1 times in the list |
| `MapComponent.MapView.constructor` | frontend/src/components/Map.tsx:15-20 | a new map is not loaded and has no waypoints, markers or route layers |
| `MapComponent.MapView.Load` | frontend/src/components/Map.tsx:52-53 | the `load` event marks the map loaded and keeps the invariant |
| `MapComponent.MapView.Click` | frontend/src/components/Map.tsx:72-112 | before `load` a click changes nothing and emits nothing; after it the list becomes `ClickStep(old, p)`, that exact list is emitted and passed to `onOptimize` whenever one is supplied (every click, the first included), and a depot marker is added exactly when the list was empty |
| `MapComponent.MapView.Sync` | frontend/src/components/Map.tsx:128-169 | on a loaded map the waypoints become the parent's coordinates, the tracked markers become one depot marker at element 0 (none for an empty list), and the layers become what `Render` gives for the result; a result without `waypoints` leaves the layers unchanged |
| `MapComponent.MapView.DrawOptimizedRoutes` | frontend/src/components/Map.tsx:171-296 | the layers after the call, and whether it threw, are exactly `Render(old layers, result)`; every layer keeps its palette colour |
| `MapComponent.MapView.RemoveRouteLayers` | frontend/src/components/Map.tsx:184-192 | the removal loop leaves exactly the layers with index 10 or more, unchanged |
| `MapComponent.MapView.DrawVehicleLayers` | frontend/src/components/Map.tsx:201-250 | the keyed branch's loop over the keys produces exactly `DrawVehicles(old layers, entries)` |
| `MapComponent.PushLegs` | frontend/src/components/Map.tsx:211-218 | the inner `forEach` appends to the line collected so far exactly the contributions of the segment's legs, or reports the throw |
| `MapComponent.CollectVehicle` | frontend/src/components/Map.tsx:209-220 | the nested loops compute exactly `VehicleLine(routes)`: the in-order pushes of all array segments, `None` if a spread threw |
| `Routes.Render` | frontend/src/components/Map.tsx:177-180 | without a truthy result with truthy `waypoints`, nothing is drawn and the layers are unchanged |
| `Routes.RenderSingleVehicle` | frontend/src/components/Map.tsx:251-295 | with at most one key, `route-0` is drawn only from a `waypoints` array: a non-array draws nothing, a line that throws makes the draw throw, an empty line draws nothing, and a non-empty line gives `route-0` holding the collected line unflattened in `palette[0]`, with no other layer added |
| `Routes.RenderSingleVehicleLine` | frontend/src/components/Map.tsx:251-295 | with array `LineString`s, the single vehicle's draw does not throw, `route-0` holds exactly the qualifying legs' `LineString`s in order, and every other layer left is one with index 10 or more that was already there |
| `Routes.Qualifies` | frontend/src/components/Map.tsx:214 | only a leg object whose `Geometry` is an object can qualify |
| `Routes.VehicleLine` | frontend/src/components/Map.tsx:209-220 | a vehicle's line depends only on the in-order legs of its array segments (segment boundaries do not matter); a vehicle that is not an array contributes nothing |
| `Routes.DrawVehicles` | frontend/src/components/Map.tsx:201-250 | a failed draw stays as it was; a draw that ends without failing collected every vehicle's line without a throw |
| `Json.FlatOnce` | frontend/src/components/Map.tsx:230 | `flat()` leaves a list without nested arrays unchanged |
| `DashboardPage.ChosenCoordinates` | frontend/src/pages/Dashboard.tsx:77 | `coords \|\| coordinates`: an explicit list, even an empty one (an array is truthy), wins over the stored list |
| `Routes.AddRoute` | frontend/src/components/Map.tsx:222-249 | adding a route never alters or removes an existing layer, and does nothing once the draw has thrown |
| `Routes.ClearRouteLayers` | frontend/src/components/Map.tsx:185-192 | exactly the layers with index 10 or more survive, unchanged |
| `Routes.CollectAppend` | frontend/src/components/Map.tsx:211-218 | pushing over `a + b` is pushing over `a` and then over `b` (in order, stopping at a throw) |
| `Routes.CollectThrowIsFinal` | frontend/src/components/Map.tsx:213-216 | once a spread has thrown, the whole loop has thrown |
| `Routes.LegWithoutDistanceContributesNothing` | frontend/src/components/Map.tsx:214 | a leg whose `Distance` is not positive contributes nothing, even with a geometry |
| `Routes.CollectSegmentsIsCollectLegs` | frontend/src/components/Map.tsx:209-220 | a vehicle's line depends only on the in-order list of legs of its array segments; segments that are not arrays contribute nothing |
| `Routes.CollectLegsIsQualifyingLines` | frontend/src/components/Map.tsx:213-217 | when every qualifying leg's `LineString` is an array, the collected line is the concatenation of the `LineString`s of the legs with `Distance > 0` and a present `LineString`, in order |
| `Routes.VehicleLineIsQualifyingLines` | frontend/src/components/Map.tsx:209-220 | when every qualifying leg's `LineString` is an array, a vehicle's line is the in-order concatenation of the qualifying legs' `LineString`s over all its array segments |
| `Routes.DrawVehiclesKeepsLayers` | frontend/src/components/Map.tsx:203-250 | the keyed branch never alters or removes a layer it found, and draws nothing more after a throw |
| `Routes.DrawVehiclesThrowIsFinal` | frontend/src/components/Map.tsx:203-250 | once a vehicle has thrown, the later vehicles draw nothing |
| `Routes.DrawVehiclesDraws` | frontend/src/components/Map.tsx:201-250 | when the keyed branch does not throw, key i draws at most the one layer `route-i`; it draws it exactly when its line is non-empty, and then it holds the line flattened once, in `palette[i mod 10]`; no other layer is added |
| `Routes.RenderKeepsColours` | frontend/src/components/Map.tsx:244 | every drawn layer has colour `palette[index mod 10]`, before and after a render |
| `Routes.RenderClearsLowLayers` | frontend/src/components/Map.tsx:185-192 | a render keeps every layer with index 10 or more that it found; a layer below 10 after a render was drawn by it, for a key index or as `route-0`: the render gives the same canvas as one from the layers with `route-0` … `route-9` already removed |
| `Routes.SingleKeyObjectDrawsNothing` | frontend/src/components/Map.tsx:251-265 | a keyed `waypoints` object with exactly one key draws nothing (only the removal happens) |
| `Routes.FlatArrayOfSegmentsDrawsNothing` | frontend/src/components/Map.tsx:195-220 | a flat `waypoints` array of two or more arrays of legs takes the keyed branch and draws nothing |
| `Routes.RedrawOfElevenVehiclesFails` | frontend/src/components/Map.tsx:185-192 | a result that drew `route-10` throws when drawn again, since that layer is never removed |
| `Json.Entries` | frontend/src/components/Map.tsx:195-204 | `Object.keys` enumeration yields an array's elements, an object's field values in key order, a string's one-character strings in order, and nothing for a number or boolean |
| `Json.Spread` | frontend/src/components/Map.tsx:215 | spreading an array yields its elements; spreading a number, boolean, object, `null` or `undefined` throws |
| `Json.FlatOnceAppend` | frontend/src/components/Map.tsx:230 | `flat()` distributes over concatenation |
| `Json.FlatOnceOfPositions` | frontend/src/components/Map.tsx:230 | flattening n `[lng, lat]` positions gives the 2n bare numbers `lng0, lat0, lng1, …` and no position |
| `DashboardPage.InitialConfig` | frontend/src/pages/Dashboard.tsx:20-24 | the initial configuration is within the slider ranges and has no departure time |
| `DashboardPage.SampleCoordinates` | frontend/src/pages/Dashboard.tsx:31-37 | five sample locations, the depot first |
| `DashboardPage.BuildRequest` | frontend/src/pages/Dashboard.tsx:87-94 | the body carries the chosen coordinates verbatim and the configured mode, fleet size, maximum length and balance; the departure time is the configured one if non-empty, else the current time |
| `DashboardPage.ResultAfter` | frontend/src/pages/Dashboard.tsx:115-123 | the result changes only to the parsed body of an ok (200–299) response; any other outcome keeps the previous result |
| `DashboardPage.ErrorOf` | frontend/src/pages/Dashboard.tsx:115-134 | an alert is raised exactly when the response is not ok, its body does not parse, or the fetch rejected; a non-ok status reports that status and body text |
| `DashboardPage.Dashboard.constructor` | frontend/src/pages/Dashboard.tsx:20-27 | initial state: initial configuration, no coordinates, not optimising, `null` result |
| `DashboardPage.Dashboard.OptimizeEnabled` | frontend/src/pages/Dashboard.tsx:290 | the button is enabled exactly when no request is running and the stored list, which a call without an argument uses, passes the two-location guard |
| `DashboardPage.Dashboard.AddSampleLocations` | frontend/src/pages/Dashboard.tsx:29-39 | the coordinates become the five sample locations; the result is not touched |
| `DashboardPage.Dashboard.ClearLocations` | frontend/src/pages/Dashboard.tsx:41-44 | no coordinates and a `null` result |
| `DashboardPage.Dashboard.SetCoordinates` | frontend/src/pages/Dashboard.tsx:332-336 | the map's `onCoordinatesChange` replaces the stored coordinates |
| `DashboardPage.Dashboard.SetConfig` | frontend/src/pages/Dashboard.tsx:178-247 | a panel edit replaces the configuration |
| `DashboardPage.Dashboard.BeginOptimize` | frontend/src/pages/Dashboard.tsx:76-94 | the explicit list is used if given, else the stored one; with fewer than two locations it alerts and sends nothing, and `isOptimizing` and the result are unchanged; otherwise it sends `BuildRequest(cfg, chosen, now)`, where `cfg` is the configuration of the render whose handler runs, and `isOptimizing` is true while the request is outstanding |
| `DashboardPage.Dashboard.CompleteOptimize` | frontend/src/pages/Dashboard.tsx:99-137 | whatever the outcome, `isOptimizing` ends false; the result is `ResultAfter(previous, outcome)` and the alert is `ErrorOf(outcome)` |
| `Session.ClickOnMap` | frontend/src/components/Map.tsx:104-111 | on a loaded map every click, the first included, sends a request whose coordinates are exactly the emitted list and whose configuration is the initial one, whatever the stored configuration (which stays unchanged); the dashboard stores that list, the map re-syncs to it, and a click-depot marker is added only for the first point |

## Left out

- Network I/O: the `fetch` call, the endpoint URL choice, `response.text()` and `response.json()` are an outcome passed to `CompleteOptimize`. `testApiConnection` is not modelled; it is a diagnostic button that changes no state.
- Alert texts: the messages chosen by matching the error's name and message (`Dashboard.tsx:128-134`) are abstracted to the `OptimizeError` kinds.
- Map library internals: map creation, tiles, the `waypoints` circle layer and its `setData` calls, marker DOM elements and the unmount cleanup. Layers are a map from index to (coordinates, colour); markers are the positions they stand at.
- Styling: the zoom-interpolated line width and the 0.5 opacity.
- The configuration sliders and radio buttons are reduced to `SetConfig`. `SliderRange` states the input bounds, but `SetConfig` does not require them.
- `BuildRequest`: `parseInt(x.toString())` is the identity on the integers the sliders produce and is modelled as such.
- The Optimize button passes its click event as `coords`. Only calls with an explicit list or with no argument are modelled.
- Overlapping optimise calls: `inFlight` counts the requests still outstanding. The flag drops when any of them ends. Which response is shown last depends on arrival order, which the model does not fix.
- `Json.Positive`: JavaScript's numeric conversion of a string-, array- or object-valued `Distance` is not modelled; such legs count as not qualifying. NaN is not modelled.
- `Json.Entries`: a string is enumerated by Unicode scalar value (one Dafny `char` each). JavaScript's `Object.keys` and indexing (`result.waypoints[vehicleId]`) walk it by UTF-16 code unit, while spread walks it by code point as the model does; characters outside the Basic Multilingual Plane are therefore not split into surrogate halves here. For the same reason `Json.Spread`'s `v.Str? ==> r == Some(Entries(v))` holds in the model only: in JavaScript the two differ on characters outside the Basic Multilingual Plane.
- `Json.Entries`: an object's fields are given in `Object.keys` order, which puts integer-like keys first. The model takes that order as given, and assumes that field names are distinct.
- The map's `error` handler and console logging.
