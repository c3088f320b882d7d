/** The Python classifier pass (`GeminiService.filter_small_businesses` and
    `_parse_gemini_response`): number the candidates 0..n-1, ask the
    classifier which ids are small businesses, and map the ids it answers
    back to places, with two fallbacks. The HTTP call is a parameter: the
    classifier is any function from the request it is sent to its outcome. */
module GeminiService {
  import opened Wrappers
  import opened Seqs
  import opened Places
  import opened IdArray
  import opened Text

  /** The minimal view of a candidate sent to the classifier. `id` is the
      only correlation key back to the place. */
  datatype Descriptor = Descriptor(
    id: nat,
    name: Option<string>,
    address: Option<string>,
    types: seq<string>,
    rating: Option<real>,
    userRatingsTotal: Option<int>)

  /** What is sent: the search text and the numbered candidates (the prompt
      wording around them is fixed text). */
  datatype ClassifierRequest = ClassifierRequest(query: string, places: seq<Descriptor>)

  // The JSON body of a generateContent reply, as far as it is navigated.
  datatype Part = Part(text: Option<string>)
  datatype Content = Content(parts: Option<seq<Part>>)
  datatype Candidate = Candidate(content: Option<Content>)
  datatype ClassifierBody = ClassifierBody(candidates: Option<seq<Candidate>>)

  /** Outcome of the POST: a failed call (transport error, timeout, non-2xx
      status, a body that is not JSON) or the decoded body. */
  datatype ClassifierCall = CallFailed | Answered(body: ClassifierBody)

  type Classifier = ClassifierRequest -> ClassifierCall

  function Describe(id: nat, place: Place): Descriptor {
    Descriptor(id, place.name, place.formattedAddress, place.types.GetOr([]),
               place.rating, place.userRatingsTotal)
  }

  /** `[{ "id": idx, ... } for idx, place in enumerate(places)]`. */
  function Descriptors(places: seq<Place>): (ds: seq<Descriptor>)
    ensures |ds| == |places|
  {
    seq(|places|, i requires 0 <= i < |places| => Describe(i, places[i]))
  }

  /** The ids issued are exactly 0..n-1 in place order, and each id leads
      back to the place it describes. */
  lemma DescriptorIdsAreIndices(places: seq<Place>)
    ensures forall i :: 0 <= i < |places| ==> Descriptors(places)[i].id == i
    ensures forall d :: d in Descriptors(places) ==>
              d.id < |places| && Describe(d.id, places[d.id]) == d
  {
  }

  /** The text of the first part of the first candidate, navigated as
      `data.get("candidates", [{}])[0].get("content", {}).get("parts", [{}])[0].get("text", "[]")`.
      None stands for the IndexError an empty list raises. */
  function ReplyText(body: ClassifierBody): (r: Option<string>)
    ensures body.candidates == Some([]) ==> r.None?
    ensures body.candidates.None? ==> r == Some("[]")
  {
    var candidates := body.candidates.GetOr([Candidate(None)]);
    if candidates == [] then None
    else
      var parts := candidates[0].content.GetOr(Content(None)).parts.GetOr([Part(None)]);
      if parts == [] then None
      else Some(parts[0].text.GetOr("[]"))
  }

  /** `_parse_gemini_response`: never fails; no array and an array that is
      not valid JSON both give no ids. */
  function ParseReply(text: string): (ids: seq<nat>)
    ensures ExtractIds(text).Ids? ==> ids == ExtractIds(text).ids
    ensures !ExtractIds(text).Ids? ==> ids == []
    ensures (forall i, j :: !IsMatch(text, i, j)) ==> ids == []
    ensures forall i, j :: IsLeftmostMatch(text, i, j) ==> ids == ParseIdArray(text[i..j]).GetOr([])
  {
    match ExtractIds(text)
    case Ids(ids) => ids
    case _ => []
  }

  /** The ids below `n`, in order, duplicates kept. */
  function InRange(ids: seq<nat>, n: nat): (r: seq<nat>)
    ensures forall k :: 0 <= k < |r| ==> r[k] < n
    ensures IsSubsequence(r, ids)
    ensures forall k :: 0 <= k < |ids| && ids[k] < n ==> ids[k] in r
    ensures forall id {:trigger multiset(r)[id]} :: multiset(r)[id] == if id < n then multiset(ids)[id] else 0
  {
    Keep(ids, (id: nat) => id < n)
  }

  /** `[places[idx] for idx in ids if idx < len(places)]`. */
  function Select(places: seq<Place>, ids: seq<nat>): (r: seq<Place>)
    ensures r == [] <==> forall k :: 0 <= k < |ids| ==> ids[k] >= |places|
  {
    if ids == [] then []
    else if ids[0] < |places| then [places[ids[0]]] + Select(places, ids[1..])
    else Select(places, ids[1..])
  }

  /** Item k of the selection is the place named by the k-th in-range id. */
  lemma {:induction false} SelectLooksUpInRangeIds(places: seq<Place>, ids: seq<nat>)
    ensures |Select(places, ids)| == |InRange(ids, |places|)|
    ensures forall k :: 0 <= k < |Select(places, ids)| ==> Select(places, ids)[k] == places[InRange(ids, |places|)[k]]
    decreases |ids|
  {
    if ids != [] {
      var n, t := |places|, ids[1..];
      SelectLooksUpInRangeIds(places, t);
      if ids[0] < n {
        assert InRange(ids, n) == [ids[0]] + InRange(t, n);
        assert Select(places, ids) == [places[ids[0]]] + Select(places, t);
      } else {
        assert InRange(ids, n) == InRange(t, n);
        assert Select(places, ids) == Select(places, t);
      }
    }
  }

  /** Every selected item is one of the candidates. */
  lemma SelectedAreCandidates(places: seq<Place>, ids: seq<nat>)
    ensures forall p :: p in Select(places, ids) ==> p in places
  {
    var r := Select(places, ids);
    SelectLooksUpInRangeIds(places, ids);
    forall p | p in r ensures p in places {
      var k :| 0 <= k < |r| && r[k] == p;
      assert InRange(ids, |places|)[k] < |places|;
    }
  }

  /** Selection follows the id list, not the candidates' order, and keeps
      repeated ids. */
  lemma SelectFollowsIdOrder(a: Place, b: Place, c: Place)
    ensures Select([a, b, c], [0, 2]) == [a, c]
    ensures Select([a, b, c], [2, 0]) == [c, a]
    ensures Select([a, b, c], [1, 1, 7]) == [b, b]
  {
  }

  /** The working result: `filtered_places if filtered_places else places[:5]`,
      and `places` itself when anything raises. */
  function FilterSmallBusinesses(places: seq<Place>, searchQuery: string, classifier: Classifier): (r: seq<Place>)
    ensures places == [] <==> r == []
    ensures forall p :: p in r ==> p in places
  {
    if places == [] then []
    else
      match classifier(ClassifierRequest(searchQuery, Descriptors(places)))
      case CallFailed => places
      case Answered(body) =>
        match ReplyText(body)
        case None => places
        case Some(text) =>
          var selected := Select(places, ParseReply(text));
          SelectedAreCandidates(places, ParseReply(text));
          if selected != [] then selected else places[..Min(5, |places|)]
  }

  /** With no candidates the classifier is never asked: the result does not
      depend on it. */
  lemma NoCandidatesNoClassifier(searchQuery: string, c1: Classifier, c2: Classifier)
    ensures FilterSmallBusinesses([], searchQuery, c1) == []
    ensures FilterSmallBusinesses([], searchQuery, c1) == FilterSmallBusinesses([], searchQuery, c2)
  {
  }

  /** A failed call, or a reply whose navigation raises, returns every
      candidate unchanged. */
  lemma FailureKeepsAllCandidates(places: seq<Place>, searchQuery: string, classifier: Classifier)
    requires places != []
    requires var call := classifier(ClassifierRequest(searchQuery, Descriptors(places)));
             call.CallFailed? || ReplyText(call.body).None?
    ensures FilterSmallBusinesses(places, searchQuery, classifier) == places
  {
  }

  /** A reply whose text yields at least one id in range returns exactly
      those places; otherwise (no array, `[]`, malformed JSON, every id out
      of range) the first min(5, n) candidates. */
  lemma ReplyDecidesSelection(places: seq<Place>, searchQuery: string, classifier: Classifier, text: string)
    requires places != []
    requires var call := classifier(ClassifierRequest(searchQuery, Descriptors(places)));
             call.Answered? && ReplyText(call.body) == Some(text)
    ensures var r := FilterSmallBusinesses(places, searchQuery, classifier);
            var ids := ParseReply(text);
            && ((exists k :: 0 <= k < |ids| && ids[k] < |places|) ==> r == Select(places, ids))
            && ((forall k :: 0 <= k < |ids| ==> ids[k] >= |places|) ==>
                  |r| == Min(5, |places|) && r == places[..|r|])
  {
  }

  /** The worked scenario: five candidates and a reply with prose around
      `[1, 3]` select the second and the fourth. */
  lemma ProseAroundIds(places: seq<Place>, searchQuery: string, classifier: Classifier)
    requires |places| == 5
    requires classifier(ClassifierRequest(searchQuery, Descriptors(places)))
             == Answered(ClassifierBody(Some([Candidate(Some(Content(Some([Part(Some("some text [1, 3] more text"))]))))])))
    ensures FilterSmallBusinesses(places, searchQuery, classifier) == [places[1], places[3]]
  {
    var text := "some text [1, 3] more text";
    var call := classifier(ClassifierRequest(searchQuery, Descriptors(places)));
    assert ReplyText(call.body) == Some(text);
    IdsInsideProse();
    assert ParseReply(text) == [1, 3];
    ReplyDecidesSelection(places, searchQuery, classifier, text);
    assert [1, 3][0] < |places|;
    SelectTwo(places, 1, 3);
  }

  lemma SelectTwo(places: seq<Place>, i: nat, j: nat)
    requires i < |places| && j < |places|
    ensures Select(places, [i, j]) == [places[i], places[j]]
  {
    assert [i, j][0] == i && [i, j][1..] == [j];
    SelectFirst(places, [i, j]);
    assert [j][0] == j && [j][1..] == [];
    SelectFirst(places, [j]);
  }

  lemma SelectFirst(places: seq<Place>, ids: seq<nat>)
    requires ids != [] && ids[0] < |places|
    ensures Select(places, ids) == [places[ids[0]]] + Select(places, ids[1..])
  {
  }
}
