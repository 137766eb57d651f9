/**
 * The dashboard page's state and handlers: loading the sample locations,
 * clearing, and `handleOptimize` with its guard, its request body, the
 * `isOptimizing` flag kept by try/finally, and the result replaced only on
 * success. The network call is an outcome handed in by the caller.
 */
module DashboardPage {
  import opened Json
  import opened Waypoints

  /** The radio buttons' travel modes. */
  datatype TravelMode = Car | Truck | Walking

  /** The configuration panel's state. */
  datatype Config = Config(
    travelMode: TravelMode,
    numVehicles: int,
    maxRouteLength: int,
    balanceRoutes: int,
    departureTime: string)

  /** The state's initial values (`useState(...)`). */
  function InitialConfig(): (c: Config)
    ensures SliderRange(c) && c.departureTime == ""
  {
    Config(Car, 1, 50, 100, "")
  }

  /** The values the range inputs can produce: fleet size 1–10, maximum
      route length 1–100, balance 0–100 in steps of 25. */
  predicate SliderRange(c: Config)
  {
    && 1 <= c.numVehicles <= 10
    && 1 <= c.maxRouteLength <= 100
    && 0 <= c.balanceRoutes <= 100 && c.balanceRoutes % 25 == 0
  }

  /** The JSON body posted to the optimisation service. */
  datatype Request = Request(
    coordinates: seq<Position>,
    travelMode: TravelMode,
    numVehicles: int,
    maxRouteLength: int,
    balanceRouteLength: int,
    departureTime: string)

  /** The request body for `coords` under `c`; `now` is the current time in
      ISO-8601, used when no departure time was entered. */
  function BuildRequest(c: Config, coords: seq<Position>, now: string): (r: Request)
    ensures r.coordinates == coords
    ensures r.travelMode == c.travelMode && r.numVehicles == c.numVehicles
    ensures r.maxRouteLength == c.maxRouteLength && r.balanceRouteLength == c.balanceRoutes
    ensures c.departureTime != "" ==> r.departureTime == c.departureTime
    ensures c.departureTime == "" ==> r.departureTime == now
  {
    Request(coords, c.travelMode, c.numVehicles, c.maxRouteLength, c.balanceRoutes,
            if c.departureTime != "" then c.departureTime else now)
  }

  /** `coords || coordinates`: an explicit list is used even when it is
      empty (an array is truthy); without one the stored list is used. */
  function ChosenCoordinates(coords: Option<seq<Position>>, stored: seq<Position>): (r: seq<Position>)
    ensures coords.Some? ==> r == coords.value
    ensures coords.None? ==> r == stored
  {
    if coords.Some? then coords.value else stored
  }

  /** The five sample locations, depot first. */
  function SampleCoordinates(): (r: seq<Position>)
    ensures |r| == 5 && r[0] == Position(-122.339850, 47.615868)
  {
    [ Position(-122.339850, 47.615868),
      Position(-122.335167, 47.608013),
      Position(-122.347658, 47.620182),
      Position(-122.332071, 47.606209),
      Position(-122.352214, 47.608013) ]
  }

  /** How the request ended: a response with its status, its body text and
      the body parsed as JSON if it parses, or a rejected `fetch`. */
  datatype FetchOutcome =
    | Responded(status: int, text: string, json: Option<Value>)
    | NetworkFailure

  /** What `handleOptimize` alerts the user about. */
  datatype OptimizeError =
    | TooFewLocations
    | HttpError(status: int, text: string)
    | UnparsableResponse
    | Unreachable

  /** `response.ok`: a status in the range 200–299. */
  predicate Ok(status: int)
  {
    200 <= status <= 299
  }

  /** The result after a request ends: the parsed body of a successful
      response, otherwise the previous result. */
  function ResultAfter(previous: Value, outcome: FetchOutcome): (r: Value)
    ensures r != previous ==> outcome.Responded? && Ok(outcome.status) && outcome.json == Some(r)
    ensures outcome.Responded? && Ok(outcome.status) && outcome.json.Some? ==> r == outcome.json.value
  {
    if outcome.Responded? && Ok(outcome.status) && outcome.json.Some? then outcome.json.value
    else previous
  }

  /** The alert a request ends with, if any. */
  function ErrorOf(outcome: FetchOutcome): (e: Option<OptimizeError>)
    ensures e.None? <==> outcome.Responded? && Ok(outcome.status) && outcome.json.Some?
    ensures outcome.Responded? && !Ok(outcome.status) ==> e == Some(HttpError(outcome.status, outcome.text))
  {
    match outcome
    case NetworkFailure => Some(Unreachable)
    case Responded(status, text, json) =>
      if !Ok(status) then Some(HttpError(status, text))
      else if json.None? then Some(UnparsableResponse)
      else None
  }

  class Dashboard {
    var config: Config
    var coordinates: seq<Position>
    var isOptimizing: bool
    /** `optimizationResult`; `null` until a request succeeds. */
    var result: Value
    /** Requests sent and not yet ended. */
    ghost var inFlight: nat

    /** The flag is only ever set while a request is outstanding. */
    ghost predicate Valid()
      reads this
    {
      isOptimizing ==> inFlight > 0
    }

    constructor ()
      ensures Valid()
      ensures config == InitialConfig() && coordinates == [] && !isOptimizing
      ensures result == Null && inFlight == 0
    {
      config := InitialConfig();
      coordinates := [];
      isOptimizing := false;
      result := Null;
      inFlight := 0;
    }

    /** The Optimize button is enabled when no request is running and at
        least two locations are stored. */
    function OptimizeEnabled(): (enabled: bool)
      reads this
      ensures enabled <==> !isOptimizing && |ChosenCoordinates(None, coordinates)| >= 2
    {
      !isOptimizing && |coordinates| >= 2
    }

    /** `handleAddLocation`: the five sample locations replace the list; the
        result is kept. */
    method AddSampleLocations()
      requires Valid()
      modifies this`coordinates
      ensures Valid()
      ensures coordinates == SampleCoordinates()
    {
      coordinates := SampleCoordinates();
    }

    /** `handleClearLocations`: no locations and no result. */
    method ClearLocations()
      requires Valid()
      modifies this`coordinates, this`result
      ensures Valid()
      ensures coordinates == [] && result == Null
    {
      coordinates := [];
      result := Null;
    }

    /** `onCoordinatesChange` from the map. */
    method SetCoordinates(c: seq<Position>)
      requires Valid()
      modifies this`coordinates
      ensures Valid()
      ensures coordinates == c
    {
      coordinates := c;
    }

    /** An edit in the configuration panel. */
    method SetConfig(c: Config)
      requires Valid()
      modifies this`config
      ensures Valid()
      ensures config == c
    {
      config := c;
    }

    /** `handleOptimize` up to its `await fetch`: with fewer than two chosen
        locations it alerts and returns with nothing changed; otherwise it
        sets `isOptimizing` and sends the request built from `cfg` (the
        config the calling render saw). */
    method BeginOptimize(coords: Option<seq<Position>>, cfg: Config, now: string)
      returns (request: Option<Request>, error: Option<OptimizeError>)
      requires Valid()
      modifies this`isOptimizing, this`inFlight
      ensures Valid()
      ensures var chosen := ChosenCoordinates(coords, coordinates);
        if |chosen| < 2 then
          request == None && error == Some(TooFewLocations)
          && isOptimizing == old(isOptimizing) && inFlight == old(inFlight)
        else
          request == Some(BuildRequest(cfg, chosen, now)) && error == None
          && isOptimizing && inFlight == old(inFlight) + 1
    {
      var coordinatesToUse := if coords.Some? then coords.value else coordinates;
      if |coordinatesToUse| < 2 {
        return None, Some(TooFewLocations);
      }
      isOptimizing := true;
      inFlight := inFlight + 1;
      var body := Request(coordinatesToUse, cfg.travelMode, cfg.numVehicles, cfg.maxRouteLength,
                          cfg.balanceRoutes, if cfg.departureTime != "" then cfg.departureTime else now);
      request := Some(body);
      error := None;
    }

    /** `handleOptimize` after its `await fetch`: the result is replaced
        only by the parsed body of an ok response, every failure is
        alerted, and the `finally` clears `isOptimizing` whatever happened. */
    method CompleteOptimize(outcome: FetchOutcome) returns (error: Option<OptimizeError>)
      requires Valid() && inFlight > 0
      modifies this`isOptimizing, this`inFlight, this`result
      ensures Valid()
      ensures !isOptimizing && inFlight == old(inFlight) - 1
      ensures result == ResultAfter(old(result), outcome)
      ensures error == ErrorOf(outcome)
    {
      match outcome {
        case NetworkFailure =>
          error := Some(Unreachable);
        case Responded(status, text, json) =>
          if !Ok(status) {
            error := Some(HttpError(status, text));
          } else if json.None? {
            error := Some(UnparsableResponse);
          } else {
            result := json.value;
            error := None;
          }
      }
      isOptimizing := false;
      inFlight := inFlight - 1;
    }
  }
}
