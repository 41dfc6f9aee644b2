/** The Details activity: how the city name travels from the Explore screen to
    the workflow's props through an intent extra, and which of three views
    `DetailsScreen` shows for a rendering. */
module DetailsActivity {
  import opened CraneData
  import opened DetailWorkflow

  /** The extra key under which the city name is passed. */
  const KEY_ARG_DETAILS_CITY_NAME: string := "KEY_ARG_DETAILS_CITY_NAME"

  /** An intent, reduced to its string extras. */
  datatype Intent = Intent(extras: map<string, string>)

  /** `Intent.putExtra`: stores `value` under `key`, replacing any earlier one. */
  function PutExtra(intent: Intent, key: string, value: string): (r: Intent)
    ensures key in r.extras && r.extras[key] == value
    ensures r.extras.Keys == intent.extras.Keys + {key}
    ensures forall k :: k in intent.extras && k != key ==> r.extras[k] == intent.extras[k]
  {
    Intent(intent.extras[key := value])
  }

  /** `Intent.getStringExtra`: the string stored under `key`, or `null`. */
  function GetStringExtra(intent: Intent, key: string): (r: Option<string>)
    ensures r.Some? <==> key in intent.extras
    ensures r.Some? ==> r.value == intent.extras[key]
  {
    if key in intent.extras then Some(intent.extras[key]) else None
  }

  /** `createDetailsActivityIntent`: a new intent carrying the item's city name. */
  function CreateDetailsActivityIntent(item: ExploreModel): (r: Intent)
    ensures r.extras == map[KEY_ARG_DETAILS_CITY_NAME := item.city.name]
  {
    PutExtra(Intent(map[]), KEY_ARG_DETAILS_CITY_NAME, item.city.name)
  }

  /** The city name `onCreate` reads from its intent, `""` when it is missing. */
  function CityNameFromIntent(intent: Intent): (name: string)
    ensures KEY_ARG_DETAILS_CITY_NAME in intent.extras ==> name == intent.extras[KEY_ARG_DETAILS_CITY_NAME]
    ensures KEY_ARG_DETAILS_CITY_NAME !in intent.extras ==> name == ""
  {
    match GetStringExtra(intent, KEY_ARG_DETAILS_CITY_NAME)
    case Some(n) => n
    case None => ""
  }

  /** The props `onCreate` hands to the workflow: the name stored under the
      key, or the empty name when the extra is missing. */
  function PropsOnCreate(intent: Intent): (props: DetailProp)
    ensures KEY_ARG_DETAILS_CITY_NAME in intent.extras ==> props.cityName == intent.extras[KEY_ARG_DETAILS_CITY_NAME]
    ensures KEY_ARG_DETAILS_CITY_NAME !in intent.extras ==> props == DetailProp("")
  {
    DetailProp(CityNameFromIntent(intent))
  }

  /** The name written by `createDetailsActivityIntent` is the name `onCreate`
      reads back into the props. */
  lemma IntentRoundTrip(item: ExploreModel)
    ensures PropsOnCreate(CreateDetailsActivityIntent(item)).cityName == item.city.name
  {
  }

  /** An intent without the extra gives an empty city name. */
  lemma MissingExtraGivesEmptyName(intent: Intent)
    requires KEY_ARG_DETAILS_CITY_NAME !in intent.extras
    ensures PropsOnCreate(intent) == DetailProp("")
  {
  }

  // ---------------------------------------------------------------------------
  // View selection

  /** The three outcomes of `DetailsScreen`. */
  datatype DetailsView = ShowContent(city: City) | ShowSpinner | InvokeErrorLoading

  /** `DetailsScreen`: content when there is a city, whatever `isLoading` says;
      otherwise the spinner while loading; otherwise the error callback. */
  function DetailsScreen(rendering: DetailRendering): (v: DetailsView)
    ensures rendering.city.Some? <==> v.ShowContent?
    ensures rendering.city.Some? ==> v == ShowContent(rendering.city.value)
    ensures v == ShowSpinner <==> rendering.city.None? && rendering.isLoading
    ensures v == InvokeErrorLoading <==> rendering.city.None? && !rendering.isLoading
  {
    if rendering.city.Some? then ShowContent(rendering.city.value)
    else if rendering.isLoading then ShowSpinner
    else InvokeErrorLoading
  }

  /** The view of a valid state's rendering is fixed by its status alone:
      Initialise shows the spinner, Success the content, Fail the error. */
  lemma ViewFollowsStatus(s: DetailState, cityName: string)
    requires Valid(s)
    ensures s.status == Initialise ==> DetailsScreen(ToRendering(s, cityName)) == ShowSpinner
    ensures s.status == Success ==> DetailsScreen(ToRendering(s, cityName)) == ShowContent(s.city.value)
    ensures s.status == Fail ==> DetailsScreen(ToRendering(s, cityName)) == InvokeErrorLoading
  {
  }

  /** The view `DetailsScreen` selects for the rendering of a Details screen
      launched for an Explore item, if the view binding passes the workflow's
      rendering to `DetailsScreen`: before any render pass the spinner; after
      one or more the city the repository returns for the item's name, or the
      error callback if there is none. */
  lemma LaunchedRenderingSelectsView(item: ExploreModel, getDestination: string -> Option<City>, n: nat)
    ensures var props := PropsOnCreate(CreateDetailsActivityIntent(item));
            var view := DetailsScreen(Render(props, Run(props, getDestination, InitialState(props), n)).rendering);
            && (n == 0 ==> view == ShowSpinner)
            && (n >= 1 && getDestination(item.city.name).Some? ==> view == ShowContent(getDestination(item.city.name).value))
            && (n >= 1 && getDestination(item.city.name).None? ==> view == InvokeErrorLoading)
  {
    var props := PropsOnCreate(CreateDetailsActivityIntent(item));
    IntentRoundTrip(item);
    if n >= 1 {
      RunFromInitialState(props, getDestination, n);
    }
  }
}
