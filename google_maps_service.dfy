/** The places text search (`GoogleMapsService.search_places`): one request
    built from the query and the coordinates, a status check, and the
    results. The provider is a parameter: any function from the request
    parameters to the reply. */
module GoogleMapsService {
  import opened Wrappers
  import opened Text
  import opened Places

  /** `settings.SEARCH_RADIUS`, in metres. */
  const SEARCH_RADIUS: int := 5000

  /** The parameters sent (the API key aside). */
  datatype TextSearchParams = TextSearchParams(query: string, radius: int)

  /** The provider's reply: a failed call (transport error, timeout, non-2xx
      status) or the decoded body, whose `status` and `results` may be absent. */
  datatype TextSearchReply =
    | TextSearchFailed(message: string)
    | TextSearchBody(status: Option<string>, results: Option<seq<Place>>)

  type PlacesProvider = TextSearchParams -> TextSearchReply

  /** `f"{query} near {lat},{lng}"`. */
  function TextQuery(query: string, lat: string, lng: string): (q: string)
    ensures |q| == |query| + |lat| + |lng| + 7
    ensures q[..|query|] == query && q[|query|..|query| + 6] == " near "
    ensures q[|q| - |lng| - 1 - |lat|..] == lat + "," + lng
  {
    query + " near " + lat + "," + lng
  }

  function SearchParams(query: string, lat: string, lng: string): (p: TextSearchParams)
    ensures p.radius == SEARCH_RADIUS
  {
    TextSearchParams(TextQuery(query, lat, lng), SEARCH_RADIUS)
  }

  /** The two statuses that are not errors. */
  predicate IsAcceptedStatus(status: Option<string>) {
    status == Some("OK") || status == Some("ZERO_RESULTS")
  }

  /** `str(data.get('status'))`: an absent status prints as `None`. */
  function StatusText(status: Option<string>): string {
    match status
    case Some(s) => s
    case None => "None"
  }

  /** `search_places`: an accepted status gives the results (none when the
      key is absent); any other status, and any failed call, is an error
      that is re-raised to the caller. */
  function SearchPlaces(query: string, lat: string, lng: string, provider: PlacesProvider): (r: Result<seq<Place>, string>)
    ensures match provider(SearchParams(query, lat, lng))
            case TextSearchFailed(message) => r == Failure(message)
            case TextSearchBody(status, results) =>
              && (r.Success? <==> IsAcceptedStatus(status))
              && (r.Success? ==> r.value == results.GetOr([]))
  {
    match provider(SearchParams(query, lat, lng))
    case TextSearchFailed(message) => Failure(message)
    case TextSearchBody(status, results) =>
      if !IsAcceptedStatus(status) then Failure("Google Maps API error: " + StatusText(status))
      else Success(results.GetOr([]))
  }

  /** A rejected status is reported with the status at the end of the message. */
  lemma RejectedStatusIsNamed(query: string, lat: string, lng: string, provider: PlacesProvider, status: string)
    requires provider(SearchParams(query, lat, lng)).TextSearchBody?
    requires provider(SearchParams(query, lat, lng)).status == Some(status)
    requires status != "OK" && status != "ZERO_RESULTS"
    ensures var r := SearchPlaces(query, lat, lng, provider);
            r.Failure? && |r.error| >= |status| && r.error[|r.error| - |status|..] == status
  {
  }
}
