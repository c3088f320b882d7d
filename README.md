# Small-business search: a Dafny model

The modelled system finds small, independent businesses near the user. It works in five stages:

1. A search query goes to the places text-search provider.
2. The provider's results are numbered 0..n-1 and sent to a language-model classifier, which is asked to name the small businesses.
3. The classifier's free-text answer is searched for the first bracketed list of numbers. The ids in that list are mapped back to places.
4. The browser narrows the list further by rating and by "open now".
5. Signed-in users keep favorites. The store behind them holds users, favorites and sessions, and the auth routes guard it with bearer tokens.

There are two back ends:

- **The Python one:** FastAPI routes, a classifier service and a Maps service.
- **The Express one:** a single `server.js`. It repeats the classifier pass, but with different fallbacks.

The model covers both back ends, the React search handler, the SQLite store and the auth routes.

Modules, one per source file, plus shared helpers:

| module | models |
|---|---|
| `Wrappers`, `Seqs`, `Text`, `Places` | Option/Result, order-preserving selection (`Keep`, subsequences, UNIQUE-style distinctness), regex character classes, `strip`/`trim`, `str.replace`, and the place record |
| `IdArray` | the regex `\[[\d,\s]*\]` (leftmost match) and the JSON grammar of an array of naturals |
| `GeminiService` | `filter_small_businesses` and `_parse_gemini_response` (Python) |
| `GoogleMapsService` | `search_places` (Python) |
| `SearchRoute` | the Python `POST /search` route |
| `Server` | the Express `filterSmallBusinesses` and the `/api/search` handler, which writes the response step by step |
| `App` | the browser's `handleSearch`: the client filters and the ordered state-setter calls |
| `Db` | the three tables as a `Database` class with its UNIQUE constraints as an invariant |
| `AuthRoutes` | the register, login, logout, me and favorites endpoints |

The upstream services are modelled as function-typed parameters:

- `PlacesProvider` maps the request parameters to a failed call or a reply body.
- `Classifier` does the same for the classifier.

"No upstream call is made" is then stated as "the result is the same for every provider or classifier".

Time is an integer clock in seconds. The password hash is an uninterpreted function, held as a `const` of the database. The random session token is a parameter.

Three behaviours of the code are worth stating up front:

- An empty selection from the classifier does not yield an empty list. Both back ends fall back to the first five places.
- The selected places follow the order of the classifier's id list, not the order of the places. Duplicated ids are kept.
- The Express route accepts a query made only of whitespace. Only the Python route and the browser reject it (`Server.WhitespaceQueryAccepted`).

## Model

| member | source | states |
|---|---|---|
| `IdArray.FindArray` | backend/services/gemini_service.py:117 | finds the leftmost `[` whose run of digits, commas and whitespace is closed by `]`; returns None exactly when the text has no such match |
| `IdArray.ExtractIds` | backend/services/gemini_service.py:117-123 | no array exactly when the regex does not match; otherwise only the leftmost match is read: it gives ids exactly when it is valid JSON, and then its parse, whatever arrays follow |
| `IdArray.ParseIdArray` | backend/services/gemini_service.py:119 | `json.loads` on the match: a text it accepts is bracketed and holds only digits, commas and JSON whitespace (so a vertical tab or form feed is refused); `ParseRenderRoundTrip` gives the converse for serializer renderings, and the `…IsMalformed` lemmas the refused shapes |
| `IdArray.ParseRenderRoundTrip` | backend/services/gemini_service.py:119 | JSON-parsing any rendering `[a, b, ...]` of a list of naturals (any JSON whitespace after the commas) gives back that list |
| `IdArray.ExtractFromProse` | backend/services/gemini_service.py:117-119 | prose around a rendered id list is ignored when no `[` precedes it; the rendered list's ids are extracted |
| `IdArray.FirstArrayWins` | backend/services/gemini_service.py:117-119 | in `"x [1, 3] y [2]"` only the first array counts, giving `[1, 3]` |
| `IdArray.IdsInsideProse` | backend/services/gemini_service.py:117-119 | `"some text [1, 3] more text"` gives `[1, 3]` |
| `IdArray.EmptyElementIsMalformed` | backend/services/gemini_service.py:119-123 | `[1,,2]` matches the regex but is not JSON |
| `IdArray.LeadingZeroIsMalformed` | backend/services/gemini_service.py:119-123 | `[01]` is not JSON |
| `IdArray.MissingCommaIsMalformed` | backend/services/gemini_service.py:119-123 | `[1 2]` is not JSON |
| `IdArray.TrailingCommaIsMalformed` | backend/services/gemini_service.py:119-123 | `[1,]` is not JSON |
| `IdArray.VerticalTabMatches` | backend/services/gemini_service.py:117 | a vertical tab is regex whitespace, so `[1,<VT>2]` matches |
| `IdArray.VerticalTabIsMalformed` | backend/services/gemini_service.py:119-123 | a vertical tab is not JSON whitespace, so the same text fails to parse |
| `IdArray.EmptyArrays` | backend/services/gemini_service.py:119 | `[]` and `[ \n ]` parse as the empty list |
| `IdArray.NoValueNoElements` | backend/services/gemini_service.py:119 | an element list that does not start with a digit is not JSON |
| `IdArray.SearchFrom` | backend/services/gemini_service.py:117 | the first match at or after a position, and no match before it |
| `Text.Strip` | backend/api/routes/search.py:31 | the stripped text is empty exactly when the text is all whitespace |
| `Text.RemoveAll` | backend/api/routes/auth.py:61 | `str.replace(p, "")` never lengthens the text and leaves it unchanged when `p` does not occur |
| `Text.RemoveAllShortens` | backend/api/routes/auth.py:61 | when `p` occurs the result is at least one occurrence shorter |
| `Text.RemoveAllDeletesOccurrence` | backend/api/routes/auth.py:61 | an occurrence of `p` after a text that cannot start `p` is deleted, and the scan goes on after it |
| `Text.DigitsValueOfShowNat` | backend/services/gemini_service.py:119 | the decimal rendering of a natural reads back as that natural |
| `Seqs.Keep` | frontend/src/App.js:62-71 | `filter`: the kept items are an order-preserving subsequence; each item that passes is kept as often as it occurs, and no other item is kept |
| `GeminiService.Descriptors` | backend/services/gemini_service.py:39-49 | one descriptor per place |
| `GeminiService.DescriptorIdsAreIndices` | backend/services/gemini_service.py:39-49 | descriptor `i` has id `i`, so the ids are exactly 0..n-1 in place order, and every id indexes a place |
| `GeminiService.ReplyText` | backend/services/gemini_service.py:73 | an empty `candidates` list raises (None); an absent one defaults to the text `"[]"` |
| `GeminiService.ParseReply` | backend/services/gemini_service.py:111-123 | never fails: the JSON parse of the leftmost match, or `[]` when nothing matches or that match is not JSON |
| `GeminiService.InRange` | backend/services/gemini_service.py:79-83 | the ids below n, in order; each such id as often as it occurs in the list (duplicates kept), and no other id |
| `GeminiService.Select` | backend/services/gemini_service.py:79-83 | the selection is empty exactly when every id is out of range |
| `GeminiService.SelectLooksUpInRangeIds` | backend/services/gemini_service.py:79-83 | element k is `places[id_k]` for the k-th in-range id, and there is one element per in-range id |
| `GeminiService.SelectedAreCandidates` | backend/services/gemini_service.py:79-83 | every selected item is one of the places |
| `GeminiService.SelectFollowsIdOrder` | backend/services/gemini_service.py:79-83 | `[0,2]` gives `[a,c]`, `[2,0]` gives `[c,a]`, and `[1,1,7]` gives `[b,b]`: id order, duplicates kept, out of range dropped |
| `GeminiService.SelectTwo` | backend/services/gemini_service.py:79-83 | two in-range ids select those two places in that order |
| `GeminiService.FilterSmallBusinesses` | backend/services/gemini_service.py:34-91 | the result is empty exactly when there are no places, and every result is one of the places |
| `GeminiService.NoCandidatesNoClassifier` | backend/services/gemini_service.py:34-35 | no places gives `[]` whatever the classifier would answer |
| `GeminiService.FailureKeepsAllCandidates` | backend/services/gemini_service.py:63-91 | a failed call, or a reply whose navigation raises, returns all places |
| `GeminiService.ReplyDecidesSelection` | backend/services/gemini_service.py:73-86 | a reply text whose ids select something returns exactly that selection; otherwise the first `min(5, n)` places |
| `GeminiService.ProseAroundIds` | backend/services/gemini_service.py:73-86 | five places and the reply "some text [1, 3] more text" give places 1 and 3 |
| `GoogleMapsService.TextQuery` | backend/services/google_maps_service.py:33 | the query is the search text, then `" near "`, then `lat,lng` |
| `GoogleMapsService.SearchParams` | backend/services/google_maps_service.py:16-36 | the radius is the configured search radius |
| `GoogleMapsService.SearchPlaces` | backend/services/google_maps_service.py:38-50 | succeeds exactly on status OK or ZERO_RESULTS, with the results or `[]` when absent; a failed call is passed on as an error |
| `GoogleMapsService.RejectedStatusIsNamed` | backend/services/google_maps_service.py:44-45 | a rejected status fails with a message that ends in the status |
| `SearchRoute.SearchBusinesses` | backend/api/routes/search.py:18-67 | 400 "Query cannot be empty" exactly for a blank query; any error is 400 or 500; a success has `total` equal to its number of places |
| `SearchRoute.BlankQueryCallsNothing` | backend/api/routes/search.py:31-32 | a blank query's answer does not depend on either upstream service |
| `SearchRoute.NoPlacesSkipsClassifier` | backend/api/routes/search.py:41-46 | no places gives success, `[]`, total 0, whatever the classifier would answer |
| `SearchRoute.ResponseIsClassifierOutput` | backend/api/routes/search.py:49-58 | otherwise the places are exactly the classifier pass's output and `total` is its length |
| `SearchRoute.SearchFailureIs500` | backend/api/routes/search.py:60-67 | a search failure is a 500 whose detail is "Failed to search for places: " followed by the message |
| `Server.ReplyText` | server/server.js:102 | optional chaining with `\|\| '[]'` never yields empty text |
| `Server.FilterSmallBusinesses` | server/server.js:59-129 | the result is empty exactly when there are no places, and every result is one of the places |
| `Server.FailedCallKeepsAll` | server/server.js:124-128 | a failed classifier call returns every place |
| `Server.MalformedArrayKeepsAll` | server/server.js:106-115 | a matched array that `JSON.parse` rejects returns every place |
| `Server.MalformedArrayDiverges` | server/server.js:106-115 | on a reply `[01]` the Express pass returns all seven places where the Python pass returns the first five |
| `Server.EmptyCandidateListDiverges` | server/server.js:102-122 | for every reply where Python's navigation raises (an empty `candidates` or `parts` list), the Express pass falls back to the first five where the Python pass returns all places |
| `Server.EmptyArrayFound` | server/server.js:107-110 | `[]` is a match that parses to no ids |
| `Server.BackendsAgreeOtherwise` | server/server.js:102-122 | for a well-typed reply body (every navigated field absent or of its JSON type), whenever Python's navigation reaches a text whose array is not malformed, both passes return the same list |
| `Server.WhitespaceQueryAccepted` | server/server.js:17-19 | a query of one space passes the `!query \|\| !location` check |
| `Server.HasQueryAndLocation` | server/server.js:17-19 | `!query || !location` passes exactly when the query is present and not the empty string and a location is present; every query the Python route accepts (non-blank after `strip`) passes |
| `Server.HandleSearch` | server/server.js:13-56 | 400 "Query and location are required" without a query or location; 500 with the failure or `Google Maps API error: <status>` as details; otherwise 200 with the filtered places and their count |
| `Server.ResponseWriter.Status` | server/server.js:18 | sets the status code only |
| `Server.ResponseWriter.Json` | server/server.js:43-47 | records the body sent only |
| `App.ApplyFilters` | frontend/src/App.js:58-72 | the shown list is an order-preserving subsequence of the response's places; each place that passes both filters appears as often as in the response, and no other place |
| `App.RatingPass` | frontend/src/App.js:61-65 | only when the threshold is active: keeps, in order and with their multiplicity, exactly the places with a truthy rating at or above it |
| `App.OpenNowPass` | frontend/src/App.js:67-71 | only when the box is ticked: keeps, in order and with their multiplicity, exactly the places open now |
| `App.FilterPlaces` | frontend/src/App.js:58-71 | the statements that reassign `filteredBusinesses` compute `ApplyFilters` of the reply's places |
| `App.UnratedDropped` | frontend/src/App.js:62-64 | under an active rating filter a missing or zero rating is dropped |
| `App.InactiveFiltersKeepAll` | frontend/src/App.js:61-67 | a threshold that is not positive, with open-now off, removes nothing |
| `App.RatingThresholdExample` | frontend/src/App.js:61-64 | ratings 3.0, 4.2 and 4.8 with a minimum of 4 keep the last two |
| `App.App.HandleSearch` | frontend/src/App.js:39-86 | a blank query or missing location only sets "Please enter a search query"; otherwise loading, error, list and selection are reset and the search is posted, then the reply is shown; loading ends false; the exact setter sequence is given |
| `App.App.ResetView` | frontend/src/App.js:45-55 | loading on, error cleared, list emptied, selection cleared, then the POST, in that order |
| `App.App.ShowReply` | frontend/src/App.js:57-85 | a success shows the filtered places and, when none remain, "No small businesses found…"; `success: false` gives "Search failed…"; a thrown error gives "Failed to search…"; loading is set false last |
| `App.ShownAreFilteredReply` | frontend/src/App.js:57-82 | only a successful reply puts places on screen, exactly those that pass the filters, in order; the banner is empty exactly when the list is not |
| `App.LoadingEndsOff` | frontend/src/App.js:83-85 | after the request, the last setter call is always `setLoading(false)` |
| `Db.FindCredentials` | backend/database/db.py:96-111 | a user is found exactly when some row has that username and that password hash, and it is such a row |
| `Db.CredentialsOfRow` | backend/database/db.py:101-111 | with usernames unique, a row with the right hash is the user found |
| `Db.UserById` | backend/api/routes/auth.py:78-83 | a user is found exactly when some row has that id, and it is that row |
| `Db.LiveSession` | backend/database/db.py:128-142 | a user id is found exactly when the token has a session that has not expired, and it is that session's user |
| `Db.SessionLifetime` | backend/database/db.py:118-142 | a new session's token verifies for its user before seven days have passed, and never after |
| `Db.DropToken` | backend/database/db.py:144-150 | no session with the token remains; every other session stays, in order |
| `Db.DroppedTokenNeverVerifies` | backend/database/db.py:144-150 | after logout the token verifies at no time |
| `Db.WithoutFavorite` | backend/database/db.py:179-190 | the pair is no longer a favorite; every other row stays, in order |
| `Db.HasFavorite` | backend/database/db.py:212-222 | `SELECT 1 … WHERE user_id = ? AND place_id = ?` then `fetchone() is not None`: the row-by-row scan answers yes exactly when some row has that user and that place id |
| `Db.AddThenRemove` | backend/database/db.py:152-190 | a new pair is a favorite right after its insert, and deleting it restores the table |
| `Db.RowsOf` | backend/database/db.py:196-199 | exactly the user's rows, in table order |
| `Db.InsertKeepsOrder` | backend/database/db.py:198 | inserting a row into a newest-first list keeps it newest first |
| `Db.InsertAddsRow` | backend/database/db.py:198 | inserting adds exactly that row, as a multiset |
| `Db.FavoritesListing` | backend/database/db.py:192-210 | the listing is newest first and holds exactly that user's favorites |
| `Db.NewestFirst` | backend/database/db.py:198 | `ORDER BY created_at DESC`: the rows come out newest first and are a permutation of those given |
| `Db.Database.constructor` | backend/database/db.py:23-70 | an empty store, not yet initialised, whose invariant holds |
| `Db.Database.Connect` | backend/database/db.py:12-21 | the flag is set and the tables are untouched |
| `Db.Database.CreateUser` | backend/database/db.py:77-94 | a taken username or email gives None and adds nothing; otherwise one row with the next id and the password's hash is appended and its id returned; the UNIQUE invariant is kept |
| `Db.Database.VerifyUser` | backend/database/db.py:96-111 | answers `FindCredentials` on the hashed password and changes no table |
| `Db.Database.CreateSession` | backend/database/db.py:113-126 | appends a session expiring seven days after now, unless the token is already stored |
| `Db.Database.VerifySession` | backend/database/db.py:128-142 | answers `LiveSession` and changes no table |
| `Db.Database.DeleteSession` | backend/database/db.py:144-150 | the sessions become `DropToken` of the old ones; the invariant is kept |
| `Db.Database.AddFavorite` | backend/database/db.py:152-177 | fails and changes nothing on a missing place id or name or a stored (user, place) pair; otherwise appends one row whose address is `formatted_address` when present, else `vicinity` |
| `Db.StoredAddress` | backend/database/db.py:167 | `place_data.get('formatted_address', place_data.get('vicinity'))`: an address is stored exactly when one of the two keys is present; the formatted address wins, else the vicinity |
| `Db.Database.RemoveFavorite` | backend/database/db.py:179-190 | answers whether the pair was stored; the favorites become `WithoutFavorite` of the old ones |
| `Db.Database.GetFavorites` | backend/database/db.py:192-210 | the user's rows, newest first; no table changes |
| `Db.Database.IsFavorite` | backend/database/db.py:212-222 | true exactly when the pair is stored; no table changes |
| `AuthRoutes.BearerToken` | backend/api/routes/auth.py:58-61 | a token exists exactly when the header starts with "Bearer "; it is at least the prefix shorter than the header, and another occurrence after the prefix is removed as well |
| `AuthRoutes.PrefixStripped` | backend/api/routes/auth.py:61 | a token without "Bearer " inside comes back as sent |
| `AuthRoutes.InnerBearerRemoved` | backend/api/routes/auth.py:61 | every occurrence is removed: "Bearer abcBearer def" gives "abcdef" |
| `AuthRoutes.EveryBearerRemoved` | backend/api/routes/auth.py:61 | for every `a` without a `B` and every `b`, the header "Bearer " + a + "Bearer " + b gives a followed by b with its own occurrences removed |
| `AuthRoutes.Authentication` | backend/api/routes/auth.py:96-103 | 401 "Not authenticated" exactly without a bearer header; every failure is a 401; a success is a non-zero user with a live session for the token |
| `AuthRoutes.FreshSessionAuthenticates` | backend/api/routes/auth.py:96-103 | a new session's header is let in for seven days, and refused after |
| `AuthRoutes.LoggedOutTokenRejected` | backend/api/routes/auth.py:96-103 | after logout the same header gets 401 "Invalid or expired token" |
| `AuthRoutes.Authenticate` | backend/api/routes/auth.py:96-103 | answers `Authentication` and changes no table |
| `AuthRoutes.Register` | backend/api/routes/auth.py:19-37 | a taken username or email is a 400 that changes nothing; otherwise the user is stored and signed in with the new session's token and its id, username and email |
| `AuthRoutes.Login` | backend/api/routes/auth.py:39-53 | wrong credentials are a 401 with no session; otherwise a new session for the found user |
| `AuthRoutes.Logout` | backend/api/routes/auth.py:55-64 | 401 without a bearer header; otherwise the token's sessions are deleted, whether or not they were live |
| `AuthRoutes.Me` | backend/api/routes/auth.py:66-88 | authentication errors as above; 404 "User not found" when the session's user row is gone; otherwise that user |
| `AuthRoutes.AddToFavorites` | backend/api/routes/auth.py:90-110 | authentication errors as above; 400 "Place already in favorites" when the insert fails; otherwise "Added to favorites" and exactly one row appended: the next id, the user, the place id and name, the `formatted_address`-else-`vicinity` address, the rating, the place data and the current time |
| `AuthRoutes.RemoveFromFavorites` | backend/api/routes/auth.py:112-132 | authentication errors as above; the pair is deleted; 404 "Favorite not found" exactly when it was not stored |
| `AuthRoutes.GetUserFavorites` | backend/api/routes/auth.py:134-148 | authentication errors as above; otherwise the user's favorites, newest first |
| `AuthRoutes.CheckFavorite` | backend/api/routes/auth.py:150-165 | never an error: true exactly when authentication succeeds and the pair is stored |

## Left out

- HTTP transport (httpx, axios, Express and FastAPI wiring, CORS, timeouts, API keys): each upstream call is an abstract outcome value.
- The classifier prompt wording and the pretty-printing of descriptors: only the id numbering matters.
- Python `re` and JSON work on Unicode: `\d` and `\s` are modelled as ASCII digits and as space, tab, newline, carriage return, vertical tab and form feed. Python's `\s` and `str.strip` also cover `\x1c`-`\x1f` and Unicode spaces. JavaScript's `\s` (in the Express regex) and `trim` also cover no-break space, the byte order mark, the other Unicode space separators and the line and paragraph separators, but not `\x1c`-`\x1f`. None of these extra characters is modelled.
- Numbers in the classifier's array are unbounded naturals. JavaScript's loss of precision above 2^53 is not modelled.
- `IdArray.ParseIdArray`: CPython's `json.loads` refuses an integer of more than 4300 digits (the default limit on integer-string conversion) with a `ValueError`, which `_parse_gemini_response` turns into `[]`; the model parses such a number like any other.
- `GeminiService.ReplyText`, `Server.ReplyText`: every navigated field of the classifier's reply (`candidates`, a candidate, `content`, `parts`, a part, `text`, and the body itself) is either absent or of its JSON type. A JSON `null` or a value of another type cannot be written, and on such bodies the two back ends differ from the model and from each other. For example, `"candidates": null` makes Python's `[0]` raise (all places) while Express reads `'[]'` (the first five), and `"text": 7` makes Python's `re.search` raise inside the parser (`[]`, then the first five) while Express's `.match` throws inside its inner `try` (all places).
- `Server.FilterSmallBusinesses`: the Express descriptors leave an absent `types` undefined where Python uses `[]`. Only the ids reach the model, so this difference is not represented.
- `parseFloat(filters.minRating)` is taken as already parsed (`Filters.minRating`, None when absent, empty or not a number).
- `Db.Database.GetFavorites`: `place_data` is stored as `json.dumps` text and decoded with `json.loads` on listing. The model keeps the decoded value, so the decoding loop is the identity and is not modelled.
- `Db.Database.AddFavorite`: a `formatted_address` key that is present with a null value is not distinguished from an absent one.
- SHA-256, `secrets.token_urlsafe` and `datetime('now')`: the hash is an uninterpreted function, the token is a parameter and time is an integer clock. Timestamps compare as numbers; SQLite compares them as text in the same order.
- Foreign keys and `ON DELETE CASCADE`: SQLite leaves them unenforced unless a pragma enables them, and no code here deletes users.
- Ties in `ORDER BY created_at DESC` are left in whatever order the insertion sort gives. SQLite does not fix an order for them either.
- The request and response record classes the auth routes import (`RegisterRequest`, `FavoriteRequest`, `AuthResponse`, …) are not in `backend/models/schemas.py`. So, as the sources read, `from api.routes import auth` raises an `ImportError` that `backend/main.py` (lines 38-44) catches, and the auth router is never mounted. The model describes the routes as written, with record shapes taken from how the routes use them.
- `get_place_details` in both back ends: a pass-through to the provider.
- The React components, the older `src/App.js`, `AuthContext` and the browser APIs: UI and client plumbing.
- Concurrency between requests.
