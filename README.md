# Crane Details screen — workflow model

This project models the controller behind the Crane sample's Details screen.
The screen shows one city on a map. A small state machine drives it.

The `DetailWorkflow` state machine starts in `Initialise` with no city. While
it is initialising, every render pass asks the runtime to look the city up by
name in the destinations repository. The lookup's result replaces the whole
state: `Success` holding the city when one was found, `Fail` when none was.
Each state is projected to a `DetailRendering` view-model:

- `isLoading` is true while initialising.
- `throwError` is true after a failed lookup.
- `cityName` is the found city's name, or the requested name when there is no city.

`DetailsScreen` turns a rendering into one of three outcomes: the content
(city present), the spinner (no city, loading), or the error callback (no
city, not loading). The activity receives the city name through an intent
extra written by `createDetailsActivityIntent`. `onCreate` reads it back, with
`""` when the extra is missing.

Files and modules:

- `crane_data.dfy`, module `CraneData`: `Option` (Kotlin's nullable `T?`), `City`, `ExploreModel`.
- `detail_workflow.dfy`, module `DetailWorkflow`: the states, the transition, the projection, `render`, and the render loop used for end-to-end facts.
- `details_activity.dfy`, module `DetailsActivity`: the intent hand-off and `DetailsScreen`'s view selection.

The repository lookup `getDestination` is a function parameter
`string -> Option<City>`, so every fact about it holds for any repository. A
render pass is `Render`. It returns the rendering and the name of the lookup
it requests, `None` when it starts no worker. `Step` models the runtime: one
render pass, then the requested lookup's result handed to
`ChangeTheStateWith`. `Run` is `n` such passes and `Lookups` counts the
requests among them.

## Model

| member | source | states |
|---|---|---|
| `DetailWorkflow.InitialState` | app/src/main/java/androidx/compose/samples/crane/details/workflow/DetailWorkflow.kt:26-35 | the initial state has no city, no error flag and status `Initialise`, whatever the props, and satisfies the state invariant |
| `DetailWorkflow.ChangeTheStateWith` | app/src/main/java/androidx/compose/samples/crane/details/workflow/DetailWorkflow.kt:75-80 | after a lookup result the state holds exactly that result as its city; status is `Success` iff a city was found and `Fail` iff none was; the error flag is false; the invariant holds |
| `DetailWorkflow.ToRendering` | app/src/main/java/androidx/compose/samples/crane/details/workflow/DetailWorkflow.kt:82-98 | the rendering carries the state's city; its name is the city's name when present, else the requested name; `isLoading` iff `Initialise`; `throwError` iff `Fail`, ignoring the state's own flag; never both loading and error |
| `DetailWorkflow.Render` | app/src/main/java/androidx/compose/samples/crane/details/workflow/DetailWorkflow.kt:37-53 | a lookup is requested iff the status is `Initialise`, and it is for the prop's city name; the rendering is the state's projection under the prop's name |
| `DetailWorkflow.ApplyPreservesValid` | app/src/main/java/androidx/compose/samples/crane/details/workflow/DetailWorkflow.kt:75-80 | any sequence of transitions from a valid state ends in a valid state (`Success` iff a city is present, `Initialise` only without one) and never raises the error flag |
| `DetailWorkflow.ApplyLast` | app/src/main/java/androidx/compose/samples/crane/details/workflow/DetailWorkflow.kt:75-80 | a transition discards the old state: after one or more transitions, only the last lookup result decides the state |
| `DetailWorkflow.ReachableIffValid` | app/src/main/java/androidx/compose/samples/crane/details/workflow/DetailWorkflow.kt:26-80 | a state is reachable from the initial state by transitions iff it satisfies the invariant and has no error flag |
| `DetailWorkflow.Step` | app/src/main/java/androidx/compose/samples/crane/details/workflow/DetailWorkflow.kt:42-49 | a render pass in `Initialise` runs the worker, which looks up the prop's city name in the repository (`retrieveCity`, lines 71-73) and hands the result to `changeTheStateWith`; in `Success` or `Fail` it leaves the state as it is |
| `DetailWorkflow.SettledIsFixed` | app/src/main/java/androidx/compose/samples/crane/details/workflow/DetailWorkflow.kt:42-52 | once in `Success` or `Fail`, any number of render passes leaves the state unchanged and requests no lookup |
| `DetailWorkflow.RunFromInitialState` | app/src/main/java/androidx/compose/samples/crane/details/workflow/DetailWorkflow.kt:26-80 | after one or more render passes from the initial state, the state holds the repository's answer for the prop's name, `Success` when a city was found and `Fail` otherwise; exactly one lookup was requested |
| `DetailsActivity.PutExtra` | app/src/main/java/androidx/compose/samples/crane/details/DetailsActivity.kt:83 | storing an extra makes its key map to the new value and leaves every other extra as it was |
| `DetailsActivity.GetStringExtra` | app/src/main/java/androidx/compose/samples/crane/details/DetailsActivity.kt:102 | reading an extra gives the stored string when the key is present and null otherwise |
| `DetailsActivity.CreateDetailsActivityIntent` | app/src/main/java/androidx/compose/samples/crane/details/DetailsActivity.kt:81-85 | the new intent carries exactly one extra, the item's city name under `KEY_ARG_DETAILS_CITY_NAME` |
| `DetailsActivity.CityNameFromIntent` | app/src/main/java/androidx/compose/samples/crane/details/DetailsActivity.kt:102 | the name read is the extra stored under the key when present, or `""` when missing |
| `DetailsActivity.PropsOnCreate` | app/src/main/java/androidx/compose/samples/crane/details/DetailsActivity.kt:102-108 | the props handed to the workflow carry the name stored under `KEY_ARG_DETAILS_CITY_NAME`, or the empty name when that extra is missing |
| `DetailsActivity.IntentRoundTrip` | app/src/main/java/androidx/compose/samples/crane/details/DetailsActivity.kt:81-108 | the name written into the intent is the name `onCreate` passes to the workflow as its props |
| `DetailsActivity.MissingExtraGivesEmptyName` | app/src/main/java/androidx/compose/samples/crane/details/DetailsActivity.kt:102-108 | an intent without the extra yields props with the empty city name |
| `DetailsActivity.DetailsScreen` | app/src/main/java/androidx/compose/samples/crane/details/DetailsActivity.kt:127-142 | content (with the rendering's city) iff a city is present, whatever `isLoading` says; spinner iff there is no city and it is loading; error callback iff there is no city and it is not loading; exactly one of the three |
| `DetailsActivity.ViewFollowsStatus` | app/src/main/java/androidx/compose/samples/crane/details/DetailsActivity.kt:127-142 | for every valid state: `Initialise` shows the spinner, `Success` shows the state's city, `Fail` invokes the error callback |
| `DetailsActivity.LaunchedRenderingSelectsView` | app/src/main/java/androidx/compose/samples/crane/details/DetailsActivity.kt:81-142 | if the view binding passes the workflow's rendering to `DetailsScreen`, then for an activity launched for an Explore item `DetailsScreen` selects the spinner before any render pass; after one or more it selects the repository's city for the item's name, or the error callback when the repository has none |

## Left out

- The Compose layout and visuals (`Crossfade`, `DetailsContent`, `ZoomControls`, `ZoomButton`, theming): they produce UI, not decisions. `DetailsScreen` is modelled only by which of its three branches it takes.
- The Google Maps views `CityMapView` and `MapViewContainer`, with their coroutine camera animation: a foreign library.
- The floating-point parts: the `toDouble` parsing of the coordinates and the zoom constants `InitialZoom`, `MinZoom` and `MaxZoom`. `City` keeps its coordinates as the source's strings.
- The `zoomIn` and `zoomOut` callbacks of the rendering: they have no body and no effect, so `DetailRendering` does not carry them.
- The workflow runtime: its asynchronous worker, `renderAsState` and `snapshotState`, which always returns null. `Step` models the runtime as completing a requested lookup before the next render pass. A render pass that happens while a lookup is still in flight is not modelled here; the runtime's worker deduplication would make such a pass start no second lookup.
- `DestinationsRepository` and the `City` and `ExploreModel` classes are not part of this model. The lookup is an arbitrary function parameter. `City` carries only the fields the Details screen reads, and `ExploreModel` only its city.
- Intents are reduced to their string extras. The target activity class, `startActivity` and `launchDetailsActivity` are not modelled. Neither is `getStringExtra` returning null for a value of another type.
- Hilt injection and the activity lifecycle.
- `DetailBinding.kt`: the view factory that `onCreate` registers (DetailsActivity.kt:94) and through which `WorkflowRendering` shows each rendering (DetailsActivity.kt:112-115). It is not modelled. Its call to `DetailsScreen` (DetailBinding.kt:16-23) ignores the rendering it receives and does not pass the required `detailRendering` argument, and its error callback does nothing.
- `LaunchedRenderingSelectsView`: it assumes the link from the workflow's rendering to `DetailsScreen` that DetailBinding.kt:16-23 should provide and, as written, lacks. The lemma applies `DetailsScreen` to the rendering directly, so it does not state what the shipped binding displays.
- `render` leaves the state unchanged by construction: `Render` returns no state, and only `ChangeTheStateWith` produces one.
