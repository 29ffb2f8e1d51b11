/** The map page (pages/MapPlanner.tsx): a geolocation reading, prompts for
    nearby places and for routes, and the single result slot. The page's
    `language` property is passed to each handler that reads it; the
    geolocation reading and the reply arrive as parameters. */
module MapPlanner {
  import opened Types
  import opened Text
  import Catalog
  import GeminiService

  /** The origin text that stands for the stored position. */
  const MyLocation := "My Location"

  /** The two tabs of the page. */
  datatype Tab = Nearby | Route

  /** The single result slot's content. */
  datatype QueryResult = QueryResult(text: string, links: seq<GroundingLink>)

  /** `userLocation && userLocation !== t.unknown`: a real position is stored. */
  predicate HasFix(userLocation: Option<string>, unknown: string)
  {
    userLocation.Some? && userLocation.value != "" && userLocation.value != unknown
  }

  const NearbyFixPrefix := "I am at coordinates "
  const NearbyFixMiddle := ". List 3-4 best "
  const NearbyFixSuffix := " spots strictly near me. Include walking distance estimates."
  const NearbyDefaultPrefix := "I am in Tokyo (default). List 3-4 best "
  const NearbyDefaultSuffix := " spots."

  /** The nearby prompt for a stored position: it names the coordinates and
      the category. */
  function NearbyFixPrompt(coordinates: string, category: string): (prompt: string)
    ensures Contains(prompt, coordinates) && Contains(prompt, category)
  {
    ContainsBothHoles(NearbyFixPrefix, coordinates, NearbyFixMiddle, category, NearbyFixSuffix);
    NearbyFixPrefix + coordinates + NearbyFixMiddle + category + NearbyFixSuffix
  }

  /** The nearby prompt without a position: Tokyo is assumed, and the
      category is named. */
  function NearbyDefaultPrompt(category: string): (prompt: string)
    ensures Contains(prompt, category)
    ensures |prompt| >= |NearbyDefaultPrefix| && prompt[..|NearbyDefaultPrefix|] == NearbyDefaultPrefix
  {
    ContainsInfix(NearbyDefaultPrefix, category, NearbyDefaultSuffix);
    NearbyDefaultPrefix + category + NearbyDefaultSuffix
  }

  /** The prompt of a nearby query: with a real position it asks for places
      of the category near those coordinates, otherwise for places of the
      category in Tokyo. */
  function NearbyPrompt(category: string, userLocation: Option<string>, unknown: string): (prompt: string)
    ensures Contains(prompt, category)
    ensures HasFix(userLocation, unknown) ==> Contains(prompt, userLocation.value)
    ensures !HasFix(userLocation, unknown) ==>
      |prompt| >= |NearbyDefaultPrefix| && prompt[..|NearbyDefaultPrefix|] == NearbyDefaultPrefix
  {
    if HasFix(userLocation, unknown) then NearbyFixPrompt(userLocation.value, category)
    else NearbyDefaultPrompt(category)
  }

  /** Without a real position the nearby prompt does not depend on what is
      stored: a missing reading, an empty one and the unknown sentinel all
      give the Tokyo prompt. */
  lemma NearbyPromptWithoutFix(category: string, userLocation: Option<string>, unknown: string)
    requires !HasFix(userLocation, unknown)
    ensures NearbyPrompt(category, userLocation, unknown) == NearbyPrompt(category, None, unknown)
    ensures NearbyPrompt(category, Some(unknown), unknown) == NearbyPrompt(category, None, unknown)
  {
  }

  const RoutePrefix := "Plan a detailed route from "
  const RouteMiddle := " to "
  const RouteSuffix := " using public transport in Japan." + " Include train lines, costs, and time."

  /** The prompt of a route query. The origin goes right after the fixed
      opening, except that the text "My Location" is replaced by the stored
      reading whenever a non-empty reading is stored, even when that reading
      is the unknown sentinel; the destination follows. */
  function RoutePrompt(origin: string, destination: string, userLocation: Option<string>): (prompt: string)
    ensures |prompt| >= |RoutePrefix| && prompt[..|RoutePrefix|] == RoutePrefix
    ensures origin == MyLocation && userLocation.Some? && userLocation.value != "" ==>
      |prompt| >= |RoutePrefix| + |userLocation.value|
      && prompt[|RoutePrefix|..|RoutePrefix| + |userLocation.value|] == userLocation.value
    ensures !(origin == MyLocation && userLocation.Some? && userLocation.value != "") ==>
      |prompt| >= |RoutePrefix| + |origin|
      && prompt[|RoutePrefix|..|RoutePrefix| + |origin|] == origin
    ensures Contains(prompt, destination)
  {
    var from := if origin == MyLocation && userLocation.Some? && userLocation.value != "" then userLocation.value else origin;
    ContainsInfix(RoutePrefix + from + RouteMiddle, destination, RouteSuffix);
    RoutePrefix + from + RouteMiddle + destination + RouteSuffix
  }

  /** The stored reading matters to the route prompt only through the
      "My Location" substitution: any other origin gives the prompt of a
      page with nothing stored, and "My Location" with a non-empty reading
      gives the prompt of a page where that reading was typed as the origin. */
  lemma RoutePromptUsesReadingOnlyForMyLocation(origin: string, destination: string, userLocation: Option<string>)
    ensures origin != MyLocation ==>
      RoutePrompt(origin, destination, userLocation) == RoutePrompt(origin, destination, None)
    ensures origin == MyLocation && userLocation.Some? && userLocation.value != "" ==>
      RoutePrompt(origin, destination, userLocation) == RoutePrompt(userLocation.value, destination, None)
  {
  }

  /** A worked example: from "My Location" with the position
      "35.6812, 139.7671" stored, to "Kyoto Station", the prompt names the
      coordinates and the destination, and the words "My Location" are gone
      from it. */
  lemma RouteFromMyLocation()
    ensures var p := RoutePrompt(MyLocation, "Kyoto Station", Some("35.6812, 139.7671"));
      Contains(p, "35.6812, 139.7671") && Contains(p, "Kyoto Station") && !Contains(p, MyLocation)
  {
    var coordinates := "35.6812, 139.7671";
    var p := RoutePrompt(MyLocation, "Kyoto Station", Some(coordinates));
    assert OccursAt(p, coordinates, |RoutePrefix|);
    assert p == RoutePrefix + coordinates + RouteMiddle + "Kyoto Station" + RouteSuffix;
    RouteTemplateLacksCapitalM();
    assert 'M' !in coordinates && 'M' !in "Kyoto Station";
    AbsentCharNotContained(p, MyLocation, 0);
  }

  /** The fixed words of the route prompt contain no capital M, so the
      words "My Location" can only reach the prompt through its holes. */
  lemma RouteTemplateLacksCapitalM()
    ensures 'M' !in RoutePrefix && 'M' !in RouteMiddle && 'M' !in RouteSuffix
  {
    RoutePrefixLacksCapitalM();
    RouteSuffixLacksCapitalM();
  }

  lemma RoutePrefixLacksCapitalM()
    ensures 'M' !in RoutePrefix
  {
  }

  lemma RouteSuffixLacksCapitalM()
    ensures 'M' !in RouteSuffix
  {
    TransportWordsLackCapitalM();
    DetailWordsLackCapitalM();
  }

  lemma TransportWordsLackCapitalM()
    ensures 'M' !in " using public transport in Japan."
  {
  }

  lemma DetailWordsLackCapitalM()
    ensures 'M' !in " Include train lines, costs, and time."
  {
  }

  /** After a failed re-locate the origin may still read "My Location" while
      the stored reading is the unknown sentinel; the route prompt then names
      the sentinel where the origin goes. */
  lemma RoutePromptKeepsSentinel(destination: string, l: LanguageCode)
    ensures var sentinel := Catalog.UnknownLabel(l);
      var p := RoutePrompt(MyLocation, destination, Some(sentinel));
      |p| >= |RoutePrefix| + |sentinel| && p[|RoutePrefix|..|RoutePrefix| + |sentinel|] == sentinel
  {
  }

  class Planner {
    var activeTab: Tab
    var userLocation: Option<string>
    var isLocating: bool
    var isLoading: bool
    var origin: string
    var destination: string
    var result: Option<QueryResult>

    /** While a query is loading no result is shown. */
    ghost predicate Valid()
      reads this
    {
      isLoading ==> result.None?
    }

    /** The page mounts on the nearby tab with nothing stored. */
    constructor ()
      ensures Valid()
      ensures activeTab == Nearby && userLocation.None? && !isLocating && !isLoading
      ensures origin == "" && destination == "" && result.None?
    {
      activeTab := Nearby;
      userLocation := None;
      isLocating := false;
      isLoading := false;
      origin := "";
      destination := "";
      result := None;
    }

    /** Typing into the origin box. */
    method SetOrigin(text: string)
      requires Valid()
      modifies this`origin
      ensures Valid() && origin == text
    {
      origin := text;
    }

    /** Typing into the destination box. */
    method SetDestination(text: string)
      requires Valid()
      modifies this`destination
      ensures Valid() && destination == text
    {
      destination := text;
    }

    /** `handleLocate` up to the platform call: the page turns to locating;
        without a geolocation capability it stores the unknown sentinel at
        once and stops locating. */
    method Locate(hasGeolocation: bool, language: LanguageCode)
      requires Valid()
      modifies this`isLocating, this`userLocation
      ensures Valid()
      ensures hasGeolocation ==> isLocating && userLocation == old(userLocation)
      ensures !hasGeolocation ==> !isLocating && userLocation == Some(Catalog.UnknownLabel(language))
    {
      isLocating := true;
      if !hasGeolocation {
        userLocation := Some(Catalog.UnknownLabel(language));
        isLocating := false;
      }
    }

    /** The success callback: the coordinates are stored, the route origin
        becomes "My Location" and locating stops. */
    method OnPosition(coordinates: string)
      requires Valid()
      modifies this`userLocation, this`origin, this`isLocating
      ensures Valid()
      ensures userLocation == Some(coordinates) && origin == MyLocation && !isLocating
    {
      userLocation := Some(coordinates);
      origin := MyLocation;
      isLocating := false;
    }

    /** The error callback: the unknown sentinel is stored, the origin is left
        as it was and locating stops. */
    method OnPositionError(language: LanguageCode)
      requires Valid()
      modifies this`userLocation, this`isLocating
      ensures Valid()
      ensures userLocation == Some(Catalog.UnknownLabel(language)) && !isLocating
    {
      userLocation := Some(Catalog.UnknownLabel(language));
      isLocating := false;
    }

    /** Choosing a tab shows it and clears the result slot. */
    method SelectTab(tab: Tab)
      requires Valid()
      modifies this`activeTab, this`result
      ensures Valid()
      ensures activeTab == tab && result.None?
    {
      activeTab := tab;
      result := None;
    }

    /** `handleExplore` up to its `await`. There is no busy guard: the page
        turns busy, the result slot is cleared, and the client is called with
        no history, the nearby prompt and the page's language. */
    method BeginExplore(category: string, language: LanguageCode) returns (call: GeminiService.ClientCall)
      requires Valid()
      modifies this`isLoading, this`result
      ensures Valid()
      ensures isLoading && result.None?
      ensures call == GeminiService.ClientCall([], NearbyPrompt(category, userLocation, Catalog.UnknownLabel(language)), LanguageTag(language))
    {
      isLoading := true;
      result := None;
      var prompt := NearbyPrompt(category, userLocation, Catalog.UnknownLabel(language));
      call := GeminiService.ClientCall([], prompt, LanguageTag(language));
    }

    /** `handleRoute` up to its `await`. With an empty origin or destination
        nothing changes and nothing is sent; otherwise the page turns busy,
        the result slot is cleared, and the client is called with no history,
        the route prompt and the page's language. */
    method BeginRoute(language: LanguageCode) returns (call: Option<GeminiService.ClientCall>)
      requires Valid()
      modifies this`isLoading, this`result
      ensures Valid()
      ensures (origin == "" || destination == "") ==>
        call.None? && isLoading == old(isLoading) && result == old(result)
      ensures (origin != "" && destination != "") ==>
        isLoading && result.None?
        && call == Some(GeminiService.ClientCall([], RoutePrompt(origin, destination, userLocation), LanguageTag(language)))
    {
      if origin == "" || destination == "" {
        return None;
      }
      isLoading := true;
      result := None;
      var prompt := RoutePrompt(origin, destination, userLocation);
      call := Some(GeminiService.ClientCall([], prompt, LanguageTag(language)));
    }

    /** Either handler after its `await`: the reply overwrites the result slot
        and the page is no longer busy. */
    method CompleteQuery(reply: GeminiService.Reply)
      requires Valid()
      modifies this`isLoading, this`result
      ensures Valid()
      ensures result == Some(QueryResult(reply.text, reply.groundingLinks)) && !isLoading
    {
      result := Some(QueryResult(reply.text, reply.groundingLinks));
      isLoading := false;
    }
  }
}
