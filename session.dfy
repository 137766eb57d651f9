/**
 * How the map and the dashboard are wired together: the map's click
 * handler calls the dashboard's `setCoordinates` and the `handleOptimize`
 * of the dashboard's first render, and every change of the dashboard's
 * coordinates or result re-runs the map's prop-sync effect.
 */
module Session {
  import opened Json
  import opened Waypoints
  import opened Routes
  import opened MapComponent
  import opened DashboardPage

  /** One click on a loaded map. The handler was attached in the first
      render, so the `handleOptimize` it calls sees the initial
      configuration, whatever the panel shows now. The request goes out on
      every click, the first included, and carries exactly the list the map
      emitted; the map then re-syncs with that same list. */
  method ClickOnMap(m: MapView, d: Dashboard, p: Position, now: string)
    returns (request: Option<Request>, threw: bool)
    requires m.Valid() && d.Valid() && m.loaded
    modifies m`waypoints, m`clickDepots, m`markers, m`layers
    modifies d`coordinates, d`isOptimizing, d`inFlight
    ensures m.Valid() && d.Valid()
    ensures m.waypoints == ClickStep(old(m.waypoints), p)
    ensures d.coordinates == m.waypoints
    ensures request == Some(BuildRequest(InitialConfig(), m.waypoints, now))
    ensures d.isOptimizing && d.inFlight == old(d.inFlight) + 1
    ensures d.result == old(d.result) && d.config == old(d.config)
    ensures m.clickDepots == old(m.clickDepots) + (if old(m.waypoints) == [] then [p] else [])
    ensures m.markers == [m.waypoints[0]]
    ensures Render(old(m.layers), old(d.result)) == Canvas(m.layers, threw)
  {
    var emitted, optimize := m.Click(p, true);
    d.SetCoordinates(emitted.value);
    var error;
    request, error := d.BeginOptimize(emitted, InitialConfig(), now);
    threw := m.Sync(d.coordinates, d.result);
  }
}
