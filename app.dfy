/** The browser side of a search (`App.handleSearch`): validate, reset the
    view, post the search, narrow the answer by rating and opening hours, and
    store it, through React's state setters in a fixed order. */
module App {
  import opened Wrappers
  import opened Seqs
  import opened Text
  import opened Places

  /** The search bar's filters: `minRating` is `parseFloat(filters.minRating)`
      when the field is a non-empty string, None when it is absent, empty or
      not a number. */
  datatype Filters = Filters(minRating: Option<real>, openNow: bool)

  /** `filters.minRating && parseFloat(filters.minRating) > 0` */
  predicate RatingFilterActive(minRating: Option<real>) {
    minRating.Some? && minRating.value > 0.0
  }

  /** `b.rating && b.rating >= min`: a missing rating and a rating of 0 are falsy. */
  predicate MeetsRating(b: Place, min: real) {
    b.rating.Some? && b.rating.value != 0.0 && b.rating.value >= min
  }

  /** `b.opening_hours && b.opening_hours.open_now` */
  predicate IsOpenNow(b: Place) {
    b.openingHours.Some? && b.openingHours.value.openNow == Some(true)
  }

  /** What a place must satisfy to survive the rating filter. */
  predicate PassesRating(b: Place, minRating: Option<real>) {
    RatingFilterActive(minRating) ==> MeetsRating(b, minRating.value)
  }

  /** What a place must satisfy to survive the open-now filter. */
  predicate PassesOpenNow(b: Place, openNow: bool) {
    openNow ==> IsOpenNow(b)
  }

  /** What a place must satisfy to be shown under `filters`. */
  predicate PassesFilters(b: Place, filters: Filters) {
    PassesRating(b, filters.minRating) && PassesOpenNow(b, filters.openNow)
  }

  /** The rating filter: applied only when the threshold is active, and then
      keeping each place with a truthy rating at or above it. */
  function RatingPass(places: seq<Place>, minRating: Option<real>): (r: seq<Place>)
    ensures IsSubsequence(r, places)
    ensures forall b {:trigger multiset(r)[b]} :: multiset(r)[b] == if PassesRating(b, minRating) then multiset(places)[b] else 0
  {
    if RatingFilterActive(minRating) then Keep(places, b => MeetsRating(b, minRating.value))
    else
      SubsequenceReflexive(places);
      places
  }

  /** The open-now filter: applied only when the box is ticked. */
  function OpenNowPass(places: seq<Place>, openNow: bool): (r: seq<Place>)
    ensures IsSubsequence(r, places)
    ensures forall b {:trigger multiset(r)[b]} :: multiset(r)[b] == if PassesOpenNow(b, openNow) then multiset(places)[b] else 0
  {
    if openNow then Keep(places, IsOpenNow)
    else
      SubsequenceReflexive(places);
      places
  }

  /** The two client-side filters in the order they run. They only remove
      places: the result is an order-preserving subsequence of the input,
      holding every place that passes, as often as it occurs there, and
      nothing else. */
  function ApplyFilters(places: seq<Place>, filters: Filters): (r: seq<Place>)
    ensures IsSubsequence(r, places)
    ensures forall k :: 0 <= k < |r| ==> PassesFilters(r[k], filters)
    ensures forall i :: 0 <= i < |places| && PassesFilters(places[i], filters) ==> places[i] in r
    ensures forall b {:trigger multiset(r)[b]} :: multiset(r)[b] == if PassesFilters(b, filters) then multiset(places)[b] else 0
  {
    var rated := RatingPass(places, filters.minRating);
    var r := OpenNowPass(rated, filters.openNow);
    SubsequenceTransitive(r, rated, places);
    CountsGiveMembers(r, places, b => PassesFilters(b, filters));
    r
  }

  /** The filtering statements of `handleSearch`: `filteredBusinesses` is
      reassigned by each filter that is switched on. */
  method FilterPlaces(places: seq<Place>, filters: Filters) returns (filteredBusinesses: seq<Place>)
    ensures filteredBusinesses == ApplyFilters(places, filters)
  {
    filteredBusinesses := places;
    if RatingFilterActive(filters.minRating) {
      filteredBusinesses := Keep(filteredBusinesses, b => MeetsRating(b, filters.minRating.value));
    }
    if filters.openNow {
      filteredBusinesses := Keep(filteredBusinesses, IsOpenNow);
    }
  }

  /** A missing or zero rating never passes an active rating filter. */
  lemma UnratedDropped(b: Place, filters: Filters)
    requires RatingFilterActive(filters.minRating)
    requires b.rating.None? || b.rating == Some(0.0)
    ensures !PassesFilters(b, filters)
  {
  }

  /** With a threshold of 0 (the search bar's default) and open-now off,
      nothing is removed. */
  lemma InactiveFiltersKeepAll(places: seq<Place>, minRating: Option<real>)
    requires !RatingFilterActive(minRating)
    ensures ApplyFilters(places, Filters(minRating, false)) == places
  {
  }

  /** Ratings 3.0, 4.2 and 4.8 with a minimum of 4: the last two remain. */
  lemma RatingThresholdExample(a: Place, b: Place, c: Place)
    requires a.rating == Some(3.0) && b.rating == Some(4.2) && c.rating == Some(4.8)
    ensures ApplyFilters([a, b, c], Filters(Some(4.0), false)) == [b, c]
  {
    var keep := (p: Place) => MeetsRating(p, 4.0);
    assert [a, b, c][1..] == [b, c] && [b, c][1..] == [c] && [c][1..] == [];
    assert Keep([c], keep) == [c];
    assert Keep([b, c], keep) == [b, c];
  }

  // ---- handleSearch ------------------------------------------------------

  /** One call of a state setter, or the POST itself, in the order made. */
  datatype Effect =
    | LoadingSet(on: bool)
    | ErrorSet(message: string)
    | BusinessesSet(list: seq<Place>)
    | SelectionSet(choice: Option<Place>)
    | SearchPosted(query: string, location: Location, filters: Filters)

  /** What `axios.post('/api/search', ...)` gives: a thrown error (network
      failure, or any 4xx/5xx reply) or the response data. */
  datatype SearchReply = Thrown | Replied(success: bool, places: seq<Place>)

  type SearchApi = (string, Location, Filters) -> SearchReply

  const QUERY_REQUIRED := "Please enter a search query"
  const NO_MATCHES := "No small businesses found matching your filters. Try adjusting them."
  const SEARCH_FAILED := "Search failed. Please try again."
  const CONNECTION_FAILED := "Failed to search. Please check your connection and try again."

  /** The component's state. `effects` records every setter call and the
      request, so that their order can be stated. */
  class App {
    var location: Option<Location>
    var businesses: seq<Place>
    var loading: bool
    var error: string
    var selectedBusiness: Option<Place>
    ghost var effects: seq<Effect>

    constructor (location: Option<Location>)
      ensures this.location == location
      ensures businesses == [] && !loading && error == "" && selectedBusiness == None
      ensures effects == []
    {
      this.location := location;
      businesses, loading, error, selectedBusiness := [], false, "", None;
      effects := [];
    }

    method SetLoading(on: bool)
      modifies this
      ensures loading == on && effects == old(effects) + [LoadingSet(on)]
      ensures businesses == old(businesses) && error == old(error)
      ensures selectedBusiness == old(selectedBusiness) && location == old(location)
    {
      loading := on;
      effects := effects + [LoadingSet(on)];
    }

    method SetError(message: string)
      modifies this
      ensures error == message && effects == old(effects) + [ErrorSet(message)]
      ensures businesses == old(businesses) && loading == old(loading)
      ensures selectedBusiness == old(selectedBusiness) && location == old(location)
    {
      error := message;
      effects := effects + [ErrorSet(message)];
    }

    method SetBusinesses(list: seq<Place>)
      modifies this
      ensures businesses == list && effects == old(effects) + [BusinessesSet(list)]
      ensures error == old(error) && loading == old(loading)
      ensures selectedBusiness == old(selectedBusiness) && location == old(location)
    {
      businesses := list;
      effects := effects + [BusinessesSet(list)];
    }

    method SetSelectedBusiness(choice: Option<Place>)
      modifies this
      ensures selectedBusiness == choice && effects == old(effects) + [SelectionSet(choice)]
      ensures businesses == old(businesses) && error == old(error)
      ensures loading == old(loading) && location == old(location)
    {
      selectedBusiness := choice;
      effects := effects + [SelectionSet(choice)];
    }

    /** `handleSearch(searchQuery, filters)`. A blank query or no location only
        sets the error, and nothing is posted. Otherwise the view is reset,
        the search is posted, the reply is shown, and `loading` ends false. */
    method HandleSearch(searchQuery: string, filters: Filters, api: SearchApi)
      modifies this
      ensures location == old(location)
      ensures IsBlank(searchQuery) || location.None? ==>
                && error == QUERY_REQUIRED
                && effects == old(effects) + [ErrorSet(QUERY_REQUIRED)]
                && loading == old(loading) && businesses == old(businesses)
                && selectedBusiness == old(selectedBusiness)
      ensures !IsBlank(searchQuery) && location.Some? ==>
                var reply := api(searchQuery, location.value, filters);
                && !loading && selectedBusiness == None
                && businesses == Shown(reply, filters)
                && error == Message(reply, filters)
                && effects == old(effects) + Reset(searchQuery, location.value, filters) + Trailer(reply, filters)
    {
      if Strip(searchQuery) == [] || location.None? {
        SetError(QUERY_REQUIRED);
        return;
      }
      var loc := location.value;
      ResetView(searchQuery, loc, filters);
      var reply := api(searchQuery, loc, filters);
      ShowReply(reply, filters);
    }

    /** The four setter calls that clear the view, then the request. */
    method ResetView(searchQuery: string, loc: Location, filters: Filters)
      modifies this
      ensures location == old(location) && loading && error == "" && businesses == [] && selectedBusiness == None
      ensures effects == old(effects) + Reset(searchQuery, loc, filters)
    {
      SetLoading(true);
      SetError("");
      SetBusinesses([]);
      SetSelectedBusiness(None);
      effects := effects + [SearchPosted(searchQuery, loc, filters)];
    }

    /** The `try`/`catch`/`finally` of `handleSearch` once the request is made;
        the banner was cleared before the request. */
    method ShowReply(reply: SearchReply, filters: Filters)
      requires error == ""
      modifies this
      ensures location == old(location) && selectedBusiness == old(selectedBusiness) && !loading
      ensures businesses == (if reply.Replied? && reply.success then Shown(reply, filters) else old(businesses))
      ensures error == Message(reply, filters)
      ensures effects == old(effects) + Trailer(reply, filters)
    {
      match reply {
        case Thrown =>
          SetError(CONNECTION_FAILED);
        case Replied(success, places) =>
          if success {
            var filteredBusinesses := FilterPlaces(places, filters);
            SetBusinesses(filteredBusinesses);
            if filteredBusinesses == [] {
              SetError(NO_MATCHES);
            }
          } else {
            SetError(SEARCH_FAILED);
          }
      }
      SetLoading(false);
    }
  }

  /** The setter calls and the request made before the reply arrives. */
  function Reset(searchQuery: string, location: Location, filters: Filters): seq<Effect> {
    [LoadingSet(true), ErrorSet(""), BusinessesSet([]), SelectionSet(None), SearchPosted(searchQuery, location, filters)]
  }

  /** The list shown once the reply is in: the filtered places of a successful
      reply, and the cleared list otherwise. */
  function Shown(reply: SearchReply, filters: Filters): seq<Place> {
    if reply.Replied? && reply.success then ApplyFilters(reply.places, filters) else []
  }

  /** The error banner once the reply is in. */
  function Message(reply: SearchReply, filters: Filters): string {
    match reply
    case Thrown => CONNECTION_FAILED
    case Replied(success, _) =>
      if !success then SEARCH_FAILED
      else if Shown(reply, filters) == [] then NO_MATCHES
      else ""
  }

  /** The setter calls made once the reply is in, ending with loading off. */
  function Trailer(reply: SearchReply, filters: Filters): seq<Effect> {
    if reply.Replied? && reply.success then
      [BusinessesSet(Shown(reply, filters))]
      + (if Shown(reply, filters) == [] then [ErrorSet(NO_MATCHES)] else [])
      + [LoadingSet(false)]
    else
      [ErrorSet(Message(reply, filters)), LoadingSet(false)]
  }

  /** Only a successful reply puts places on the screen, and then exactly
      those that pass the filters, in the server's order; the banner says
      "no matches" exactly when that list is empty. */
  lemma ShownAreFilteredReply(reply: SearchReply, filters: Filters)
    ensures Shown(reply, filters) != [] ==> reply.Replied? && reply.success
    ensures reply.Replied? && reply.success ==>
              && IsSubsequence(Shown(reply, filters), reply.places)
              && (forall i :: 0 <= i < |reply.places| && PassesFilters(reply.places[i], filters) ==>
                    reply.places[i] in Shown(reply, filters))
              && (Message(reply, filters) == NO_MATCHES <==> Shown(reply, filters) == [])
    ensures Message(reply, filters) == "" <==> Shown(reply, filters) != []
  {
  }

  /** Every search that gets past validation ends with loading off: the last
      setter call is `setLoading(false)`. */
  lemma LoadingEndsOff(reply: SearchReply, filters: Filters)
    ensures |Trailer(reply, filters)| >= 2
    ensures Trailer(reply, filters)[|Trailer(reply, filters)| - 1] == LoadingSet(false)
  {
  }
}
