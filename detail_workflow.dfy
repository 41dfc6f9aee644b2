/** The Details screen's workflow: a three-state machine (Initialise, then
    Success or Fail) whose state is projected to a rendering, and which asks
    the runtime for one repository lookup of the city while it is still
    initialising. */
module DetailWorkflow {
  import opened CraneData

  datatype DetailStatus = Success | Fail | Initialise

  /** The props: the name of the city to show. */
  datatype DetailProp = DetailProp(cityName: string)

  datatype DetailState = DetailState(city: Option<City>, throwError: bool, status: DetailStatus)

  /** The view-model handed to the UI layer. The source's `zoomIn` and
      `zoomOut` callbacks do nothing and are not represented. */
  datatype DetailRendering = DetailRendering(
    cityName: string,
    isLoading: bool,
    throwError: bool,
    city: Option<City>)

  /** What one `render` pass produces: the rendering, and the city name of the
      repository lookup it asks the runtime to run (`None` when it runs no
      worker). */
  datatype RenderOutput = RenderOutput(rendering: DetailRendering, lookup: Option<string>)

  /** The state invariant: a city is present exactly in `Success`, and the
      initial state carries none. */
  predicate Valid(s: DetailState) {
    && (s.status == Success <==> s.city.Some?)
    && (s.status == Initialise ==> s.city.None?)
  }

  /** `initialState`: no city, no error, `Initialise`, whatever the props. */
  function InitialState(props: DetailProp): (s: DetailState)
    ensures s.city.None? && !s.throwError && s.status == Initialise
    ensures Valid(s)
  {
    DetailState(None, false, Initialise)
  }

  /** `changeTheStateWith`: the action run on the lookup's result. It replaces
      the whole state; `throwError` takes its declared default. */
  function ChangeTheStateWith(s: DetailState, destination: Option<City>): (t: DetailState)
    ensures t.city == destination
    ensures t.status == Success <==> destination.Some?
    ensures t.status == Fail <==> destination.None?
    ensures !t.throwError
    ensures Valid(t)
  {
    DetailState(destination, false, if destination.Some? then Success else Fail)
  }

  /** `toRendering`: the pure projection of a state to its rendering. */
  function ToRendering(s: DetailState, cityName: string): (r: DetailRendering)
    ensures r.city == s.city
    ensures s.city.Some? ==> r.cityName == s.city.value.name
    ensures s.city.None? ==> r.cityName == cityName
    ensures r.isLoading <==> s.status == Initialise
    ensures r.throwError <==> s.status == Fail
    ensures !(r.isLoading && r.throwError)
  {
    DetailRendering(
      cityName := match s.city
                  case Some(c) => c.name
                  case None => cityName,
      isLoading := s.status !in [Success, Fail],
      throwError := s.status == Fail,
      city := s.city)
  }

  /** `render`: asks for a lookup of the prop's city name exactly while the
      state is `Initialise`, and returns the state's projection. */
  function Render(props: DetailProp, s: DetailState): (out: RenderOutput)
    ensures out.lookup.Some? <==> s.status == Initialise
    ensures out.lookup.Some? ==> out.lookup.value == props.cityName
    ensures out.rendering == ToRendering(s, props.cityName)
  {
    RenderOutput(
      ToRendering(s, props.cityName),
      if s.status == Initialise then Some(props.cityName) else None)
  }

  // ---------------------------------------------------------------------------
  // States reachable through transitions

  /** The state after the lookup results `results` were handed, in order, to
      `changeTheStateWith`. */
  function Apply(s: DetailState, results: seq<Option<City>>): DetailState
    decreases results
  {
    if results == [] then s else Apply(ChangeTheStateWith(s, results[0]), results[1..])
  }

  /** A transition preserves the invariant, so any number of them does. */
  lemma {:induction false} ApplyPreservesValid(s: DetailState, results: seq<Option<City>>)
    requires Valid(s)
    ensures Valid(Apply(s, results))
    ensures !s.throwError ==> !Apply(s, results).throwError
    decreases results
  {
    if results != [] {
      ApplyPreservesValid(ChangeTheStateWith(s, results[0]), results[1..]);
    }
  }

  /** After at least one transition, only the last lookup result matters. */
  lemma {:induction false} ApplyLast(s: DetailState, results: seq<Option<City>>)
    requires results != []
    ensures Apply(s, results) == ChangeTheStateWith(s, results[|results| - 1])
    decreases results
  {
    if |results| > 1 {
      ApplyLast(ChangeTheStateWith(s, results[0]), results[1..]);
    }
  }

  ghost predicate Reachable(props: DetailProp, s: DetailState) {
    exists results: seq<Option<City>> :: Apply(InitialState(props), results) == s
  }

  /** The reachable states are exactly the valid ones without an error flag. */
  lemma ReachableIffValid(props: DetailProp, s: DetailState)
    ensures Reachable(props, s) <==> Valid(s) && !s.throwError
  {
    if Reachable(props, s) {
      var results: seq<Option<City>> :| Apply(InitialState(props), results) == s;
      ApplyPreservesValid(InitialState(props), results);
    }
    if Valid(s) && !s.throwError {
      var trace: seq<Option<City>> := if s.status == Initialise then [] else [s.city];
      assert Apply(InitialState(props), trace) == s;
    }
  }

  // ---------------------------------------------------------------------------
  // The render loop: the runtime renders, runs the requested lookup against the
  // repository and hands its result to `changeTheStateWith`.

  /** One render pass followed by the requested lookup, if any, against the
      repository function `getDestination` (the source's `retrieveCity`),
      whose result goes to `changeTheStateWith`. */
  function Step(props: DetailProp, getDestination: string -> Option<City>, s: DetailState): (t: DetailState)
    ensures s.status == Initialise ==> t == ChangeTheStateWith(s, getDestination(props.cityName))
    ensures s.status != Initialise ==> t == s
  {
    match Render(props, s).lookup
    case Some(name) => ChangeTheStateWith(s, getDestination(name))
    case None => s
  }

  /** The state after `n` render passes. */
  function Run(props: DetailProp, getDestination: string -> Option<City>, s: DetailState, n: nat): DetailState
    decreases n
  {
    if n == 0 then s else Run(props, getDestination, Step(props, getDestination, s), n - 1)
  }

  /** How many of those `n` render passes asked for a lookup. */
  function Lookups(props: DetailProp, getDestination: string -> Option<City>, s: DetailState, n: nat): nat
    decreases n
  {
    if n == 0 then 0
    else (if Render(props, s).lookup.Some? then 1 else 0)
         + Lookups(props, getDestination, Step(props, getDestination, s), n - 1)
  }

  /** Once settled in `Success` or `Fail`, rendering changes nothing and asks
      for no further lookup. */
  lemma {:induction false} SettledIsFixed(props: DetailProp, getDestination: string -> Option<City>, s: DetailState, n: nat)
    requires s.status != Initialise
    ensures Run(props, getDestination, s, n) == s
    ensures Lookups(props, getDestination, s, n) == 0
    decreases n
  {
    if n > 0 {
      SettledIsFixed(props, getDestination, Step(props, getDestination, s), n - 1);
    }
  }

  /** From the initial state, the screen shows the city the repository returns
      for the prop's name (Success), or fails when it returns none, and it
      asks the repository exactly once however often it renders. */
  lemma RunFromInitialState(props: DetailProp, getDestination: string -> Option<City>, n: nat)
    requires n >= 1
    ensures var s := Run(props, getDestination, InitialState(props), n);
            && s.city == getDestination(props.cityName)
            && (s.status == Success <==> getDestination(props.cityName).Some?)
            && (s.status == Fail <==> getDestination(props.cityName).None?)
            && !s.throwError
    ensures Lookups(props, getDestination, InitialState(props), n) == 1
  {
    var s0 := InitialState(props);
    var s1 := Step(props, getDestination, s0);
    SettledIsFixed(props, getDestination, s1, n - 1);
  }
}
