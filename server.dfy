/** The Express server: `filterSmallBusinesses` (the same classifier pass as
    the Python service, with JavaScript's fallbacks) and the `/api/search`
    handler, which writes its reply step by step onto the response object. */
module Server {
  import opened Wrappers
  import opened Seqs
  import opened Places
  import opened IdArray
  import Text
  import Maps = GoogleMapsService
  import Py = GeminiService

  /** The literal radius of the text search, in metres. */
  const RADIUS: int := 5000

  /** `geminiResponse.data?.candidates?.[0]?.content?.parts?.[0]?.text || '[]'`:
      optional chaining never throws, and a missing or empty text reads as `[]`. */
  function ReplyText(body: Py.ClassifierBody): (t: string)
    ensures t != ""
  {
    if body.candidates.None? || body.candidates.value == [] then "[]"
    else
      var content := body.candidates.value[0].content;
      if content.None? || content.value.parts.None? || content.value.parts.value == [] then "[]"
      else
        var text := content.value.parts.value[0].text;
        if text.None? || text.value == "" then "[]" else text.value
  }

  /** `filterSmallBusinesses`: a failed call and a matched array that
      `JSON.parse` rejects both return every place; no array, `[]` or ids all
      out of range return the first five. */
  function FilterSmallBusinesses(places: seq<Place>, searchQuery: string, classifier: Py.Classifier): (r: seq<Place>)
    ensures places == [] <==> r == []
    ensures forall p :: p in r ==> p in places
  {
    if places == [] then []
    else
      match classifier(Py.ClassifierRequest(searchQuery, Py.Descriptors(places)))
      case CallFailed => places
      case Answered(body) =>
        match ExtractIds(ReplyText(body))
        case Malformed => places
        case NoArray => places[..Min(5, |places|)]
        case Ids(ids) =>
          var selected := Py.Select(places, ids);
          Py.SelectedAreCandidates(places, ids);
          if selected != [] then selected else places[..Min(5, |places|)]
  }

  /** Where the two back ends part: on an array the regex finds but JSON
      refuses, Python falls back to the first five and JavaScript to all. */
  lemma MalformedArrayDiverges(places: seq<Place>, searchQuery: string, classifier: Py.Classifier)
    requires |places| == 7
    requires classifier(Py.ClassifierRequest(searchQuery, Py.Descriptors(places)))
             == Py.Answered(Py.ClassifierBody(Some([Py.Candidate(Some(Py.Content(Some([Py.Part(Some("[01]"))]))))])))
    ensures Py.FilterSmallBusinesses(places, searchQuery, classifier) == places[..5]
    ensures FilterSmallBusinesses(places, searchQuery, classifier) == places
  {
    LeadingZeroIsMalformed();
    assert IsMatch("[01]", 0, 4);
    assert FindArray("[01]") == Some((0, 4));
    assert "[01]"[0..4] == "[01]";
  }

  /** A failed classifier call returns every place. */
  lemma FailedCallKeepsAll(places: seq<Place>, searchQuery: string, classifier: Py.Classifier)
    requires classifier(Py.ClassifierRequest(searchQuery, Py.Descriptors(places))).CallFailed?
    ensures FilterSmallBusinesses(places, searchQuery, classifier) == places
  {
  }

  /** A matched array that `JSON.parse` rejects returns every place. */
  lemma MalformedArrayKeepsAll(places: seq<Place>, searchQuery: string, classifier: Py.Classifier)
    requires var call := classifier(Py.ClassifierRequest(searchQuery, Py.Descriptors(places)));
             call.Answered? && ExtractIds(ReplyText(call.body)).Malformed?
    ensures FilterSmallBusinesses(places, searchQuery, classifier) == places
  {
  }

  /** And where Python's navigation raises on an empty `candidates` or
      `parts` list (all places), JavaScript's `?.[0]` reads `[]` (the first
      five). */
  lemma EmptyCandidateListDiverges(places: seq<Place>, searchQuery: string, classifier: Py.Classifier)
    requires places != []
    requires var call := classifier(Py.ClassifierRequest(searchQuery, Py.Descriptors(places)));
             call.Answered? && Py.ReplyText(call.body).None?
    ensures Py.FilterSmallBusinesses(places, searchQuery, classifier) == places
    ensures FilterSmallBusinesses(places, searchQuery, classifier) == places[..Min(5, |places|)]
  {
    var call := classifier(Py.ClassifierRequest(searchQuery, Py.Descriptors(places)));
    assert ReplyText(call.body) == "[]";
    EmptyArrayFound();
  }

  lemma EmptyArrayFound()
    ensures ExtractIds("[]") == Ids([])
  {
    assert "[]" == "" + Render([], ", ") + "";
    ExtractFromProse("", [], ", ", "");
  }

  /** Everywhere else they agree: whenever Python's navigation reaches a
      text and that text does not hold a malformed array. */
  lemma BackendsAgreeOtherwise(places: seq<Place>, searchQuery: string, classifier: Py.Classifier, text: string)
    requires var call := classifier(Py.ClassifierRequest(searchQuery, Py.Descriptors(places)));
             call.Answered? && Py.ReplyText(call.body) == Some(text)
    requires !ExtractIds(text).Malformed?
    ensures Py.FilterSmallBusinesses(places, searchQuery, classifier) == FilterSmallBusinesses(places, searchQuery, classifier)
  {
    var call := classifier(Py.ClassifierRequest(searchQuery, Py.Descriptors(places)));
    if places != [] {
      if text == "" {
        assert ReplyText(call.body) == "[]";
        EmptyArrayFound();
      } else {
        assert ReplyText(call.body) == text;
      }
    }
  }

  // ---- the /api/search handler -------------------------------------------

  /** The JSON bodies the handler sends. */
  datatype JsonBody =
    | ErrorJson(error: string, details: Option<string>)
    | SearchJson(success: bool, places: seq<Place>, total: int)

  /** Express's `res`: a status code (200 until set) and the body sent. */
  class ResponseWriter {
    var statusCode: int
    var sent: Option<JsonBody>

    constructor ()
      ensures statusCode == 200 && sent == None
    {
      statusCode := 200;
      sent := None;
    }

    /** `res.status(code)` */
    method Status(code: int)
      modifies this
      ensures statusCode == code && sent == old(sent)
    {
      statusCode := code;
    }

    /** `res.json(body)` */
    method Json(body: JsonBody)
      modifies this
      ensures sent == Some(body) && statusCode == old(statusCode)
    {
      sent := Some(body);
    }
  }

  /** `req.body`: both fields may be missing. */
  datatype SearchBody = SearchBody(query: Option<string>, location: Option<Location>)

  /** `!query || !location` fails: the empty string is falsy, but a query of
      spaces is not. */
  function HasQueryAndLocation(body: SearchBody): (ok: bool)
    ensures ok <==> body.query.Some? && body.query.value != "" && body.location.Some?
    // every query the Python route accepts passes here too
    ensures body.query.Some? && body.location.Some? && Text.Strip(body.query.value) != [] ==> ok
  {
    body.query.Some? && body.query.value != "" && body.location.Some?
  }

  /** Unlike the Python route, this one accepts a whitespace-only query. */
  lemma WhitespaceQueryAccepted(location: Location)
    ensures HasQueryAndLocation(SearchBody(Some(" "), Some(location)))
  {
  }

  /** `${placesResponse.data.status}`: an absent status prints as `undefined`. */
  function StatusText(status: Option<string>): string {
    match status
    case Some(s) => s
    case None => "undefined"
  }

  function SearchParams(query: string, location: Location): Maps.TextSearchParams {
    Maps.TextSearchParams(Maps.TextQuery(query, location.lat, location.lng), RADIUS)
  }

  method HandleSearch(body: SearchBody, provider: Maps.PlacesProvider, classifier: Py.Classifier, res: ResponseWriter)
    requires res.statusCode == 200 && res.sent == None
    modifies res
    ensures !HasQueryAndLocation(body) ==>
              res.statusCode == 400 && res.sent == Some(ErrorJson("Query and location are required", None))
    ensures HasQueryAndLocation(body) ==>
              var query := body.query.value;
              match provider(SearchParams(query, body.location.value))
              case TextSearchFailed(message) =>
                res.statusCode == 500 && res.sent == Some(ErrorJson("Failed to search for places", Some(message)))
              case TextSearchBody(status, results) =>
                if !Maps.IsAcceptedStatus(status) then
                  res.statusCode == 500 &&
                  res.sent == Some(ErrorJson("Failed to search for places", Some("Google Maps API error: " + StatusText(status))))
                else
                  var filtered := FilterSmallBusinesses(results.GetOr([]), query, classifier);
                  res.statusCode == 200 && res.sent == Some(SearchJson(true, filtered, |filtered|))
  {
    if !HasQueryAndLocation(body) {
      res.Status(400);
      res.Json(ErrorJson("Query and location are required", None));
      return;
    }
    var query, location := body.query.value, body.location.value;
    var placesResponse := provider(SearchParams(query, location));
    var error: Option<string> := None;
    match placesResponse {
      case TextSearchFailed(message) =>
        error := Some(message);
      case TextSearchBody(status, results) =>
        if !Maps.IsAcceptedStatus(status) {
          error := Some("Google Maps API error: " + StatusText(status));
        } else {
          var places := results.GetOr([]);
          var filteredPlaces := FilterSmallBusinesses(places, query, classifier);
          res.Json(SearchJson(true, filteredPlaces, |filteredPlaces|));
        }
    }
    if error.Some? {
      res.Status(500);
      res.Json(ErrorJson("Failed to search for places", error));
    }
  }
}
