/** The Python `POST /search` route (`search_businesses`): validate, search,
    short-circuit on no places, classify, and report the count. */
module SearchRoute {
  import opened Wrappers
  import opened Text
  import opened Places
  import opened GoogleMapsService
  import opened GeminiService

  datatype SearchRequest = SearchRequest(query: string, location: Location)

  datatype SearchResponse = SearchResponse(success: bool, places: seq<Place>, total: int)

  /** A response, or the HTTPException the route raises. */
  datatype HttpOutcome<T> = Ok(body: T) | HttpError(status: int, detail: string)

  function SearchBusinesses(request: SearchRequest, provider: PlacesProvider, classifier: Classifier): (r: HttpOutcome<SearchResponse>)
    ensures r == HttpError(400, "Query cannot be empty") <==> IsBlank(request.query)
    ensures r.HttpError? ==> r.status == 400 || r.status == 500
    ensures r.Ok? ==> r.body.success && r.body.total == |r.body.places|
  {
    if Strip(request.query) == [] then HttpError(400, "Query cannot be empty")
    else
      match SearchPlaces(request.query, request.location.lat, request.location.lng, provider)
      case Failure(message) => HttpError(500, "Failed to search for places: " + message)
      case Success(places) =>
        if places == [] then Ok(SearchResponse(true, [], 0))
        else
          var filtered := FilterSmallBusinesses(places, request.query, classifier);
          Ok(SearchResponse(true, filtered, |filtered|))
  }

  /** A blank query is refused before any upstream call: the outcome depends
      on neither the provider nor the classifier. */
  lemma BlankQueryCallsNothing(request: SearchRequest, p1: PlacesProvider, p2: PlacesProvider, c1: Classifier, c2: Classifier)
    requires IsBlank(request.query)
    ensures SearchBusinesses(request, p1, c1) == SearchBusinesses(request, p2, c2)
  {
  }

  /** No places: an empty success, and the classifier is not consulted. */
  lemma NoPlacesSkipsClassifier(request: SearchRequest, provider: PlacesProvider, c1: Classifier, c2: Classifier)
    requires !IsBlank(request.query)
    requires SearchPlaces(request.query, request.location.lat, request.location.lng, provider) == Success([])
    ensures SearchBusinesses(request, provider, c1) == Ok(SearchResponse(true, [], 0))
    ensures SearchBusinesses(request, provider, c1) == SearchBusinesses(request, provider, c2)
  {
  }

  /** Otherwise the places returned are exactly the classifier pass's output,
      never empty, drawn from the search results. */
  lemma ResponseIsClassifierOutput(request: SearchRequest, provider: PlacesProvider, classifier: Classifier, places: seq<Place>)
    requires !IsBlank(request.query)
    requires SearchPlaces(request.query, request.location.lat, request.location.lng, provider) == Success(places)
    requires places != []
    ensures var r := SearchBusinesses(request, provider, classifier);
            && r.Ok?
            && r.body.places == FilterSmallBusinesses(places, request.query, classifier)
            && r.body.places != []
            && forall p :: p in r.body.places ==> p in places
  {
  }

  /** A search failure becomes a 500 whose detail carries the error message. */
  lemma SearchFailureIs500(request: SearchRequest, provider: PlacesProvider, classifier: Classifier, message: string)
    requires !IsBlank(request.query)
    requires SearchPlaces(request.query, request.location.lat, request.location.lng, provider) == Failure(message)
    ensures SearchBusinesses(request, provider, classifier) == HttpError(500, "Failed to search for places: " + message)
  {
  }
}
