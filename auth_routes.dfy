/** The account and favorites endpoints: each reads the bearer token from
    the Authorization header, checks the session, calls into the store and
    maps its answer to a status code. */
module AuthRoutes {
  import opened Wrappers
  import opened Text
  import opened Places
  import opened Db

  const BEARER := "Bearer "
  const NOT_AUTHENTICATED := "Not authenticated"
  const INVALID_TOKEN := "Invalid or expired token"
  const USER_EXISTS := "Username or email already exists"
  const BAD_CREDENTIALS := "Invalid username or password"
  const USER_NOT_FOUND := "User not found"
  const ALREADY_FAVORITE := "Place already in favorites"
  const FAVORITE_NOT_FOUND := "Favorite not found"

  /** What an endpoint answers. `ServerError` is an exception no handler
      catches (a UNIQUE violation on a session token), which the framework
      turns into a 500. */
  datatype Reply =
    | HttpError(status: nat, detail: string)
    | ServerError
    | SignedIn(token: string, user: UserInfo)
    | Message(message: string)
    | CurrentUser(user: UserInfo)
    | FavoriteList(favorites: seq<FavoriteRow>)
    | FavoriteCheck(isFavorite: bool)

  /** The token of an `Authorization: Bearer …` header: absent unless the
      header starts with "Bearer ", and then the header with every
      occurrence of "Bearer " removed, so at least the prefix goes. */
  function BearerToken(authorization: Option<string>): (r: Option<string>)
    ensures r.Some? <==> authorization.Some? && StartsWith(authorization.value, BEARER)
    ensures r.Some? ==> |r.value| <= |authorization.value| - |BEARER|
    ensures r.Some? && Contains(authorization.value[|BEARER|..], BEARER) ==>
              |r.value| <= |authorization.value| - 2 * |BEARER|
  {
    if authorization.None? || !StartsWith(authorization.value, BEARER) then None
    else
      var h := authorization.value;
      assert Contains(h[|BEARER|..], BEARER) ==> |RemoveAll(h, BEARER)| <= |h| - 2 * |BEARER| by {
        if Contains(h[|BEARER|..], BEARER) {
          RemoveAllShortens(h[|BEARER|..], BEARER);
        }
      }
      Some(RemoveAll(h, BEARER))
  }

  /** A token without "Bearer " inside comes back as sent. */
  lemma PrefixStripped(token: string)
    requires !Contains(token, BEARER)
    ensures BearerToken(Some(BEARER + token)) == Some(token)
  {
    var h := BEARER + token;
    assert h[..|BEARER|] == BEARER;
    assert h[|BEARER|..] == token;
  }

  /** Every "Bearer " goes, not only the prefix: a header "Bearer " + a +
      "Bearer " + b, where a has no 'B', gives a followed by b with its own
      occurrences removed. */
  lemma EveryBearerRemoved(a: string, b: string)
    requires forall i :: 0 <= i < |a| ==> a[i] != 'B'
    ensures BearerToken(Some(BEARER + a + BEARER + b)) == Some(a + RemoveAll(b, BEARER))
  {
    var h := BEARER + a + BEARER + b;
    assert h == BEARER + (a + BEARER + b);
    assert h[..|BEARER|] == BEARER && h[|BEARER|..] == a + BEARER + b;
    RemoveAllDeletesOccurrence(a, b, BEARER);
  }

  /** `str.replace` removes inner occurrences too: the token sent as
      "abcBearer def" is read as "abcdef". */
  lemma InnerBearerRemoved()
    ensures BearerToken(Some("Bearer abcBearer def")) == Some("abcdef")
  {
    var s := "Bearer abcBearer def";
    assert s[..|BEARER|] == BEARER && s[|BEARER|..] == "abcBearer def";
    RemovedInside();
  }

  lemma RemovedInside()
    ensures RemoveAll("abcBearer def", BEARER) == "abcdef"
  {
    assert "abcBearer def" == "abc" + BEARER + "def";
    RemoveAllDeletesOccurrence("abc", "def", BEARER);
    assert !Contains("def", BEARER);
    assert "abc" + "def" == "abcdef";
  }

  /** `if not user_id`: a missing id and the id 0 are both rejected. */
  predicate Truthy(userId: Option<nat>) {
    userId.Some? && userId.value != 0
  }

  /** The check every protected endpoint opens with: 401 "Not authenticated"
      without a bearer header, 401 "Invalid or expired token" when the
      session does not verify, and otherwise the session's user. */
  function Authentication(sessions: seq<SessionRow>, authorization: Option<string>, now: int): (r: Result<nat, Reply>)
    ensures r == Failure(HttpError(401, NOT_AUTHENTICATED)) <==> BearerToken(authorization).None?
    ensures r.Failure? ==> r.error.HttpError? && r.error.status == 401
    ensures r.Success? ==>
              && r.value != 0
              && exists i :: 0 <= i < |sessions|
                               && sessions[i].token == BearerToken(authorization).value
                               && sessions[i].expiresAt > now && sessions[i].userId == r.value
    ensures r.Success? <==> BearerToken(authorization).Some? && Truthy(LiveSession(sessions, BearerToken(authorization).value, now))
  {
    match BearerToken(authorization)
    case None => Failure(HttpError(401, NOT_AUTHENTICATED))
    case Some(token) =>
      var userId := LiveSession(sessions, token, now);
      if !Truthy(userId) then Failure(HttpError(401, INVALID_TOKEN)) else Success(userId.value)
  }

  /** A session made at `createdAt` lets its token in for seven days. */
  lemma FreshSessionAuthenticates(sessions: seq<SessionRow>, userId: nat, token: string, createdAt: int, now: int)
    requires userId != 0 && !TokenTaken(sessions, token) && !Contains(token, BEARER)
    ensures Authentication(sessions + [SessionRow(userId, token, createdAt, createdAt + SESSION_LIFETIME)], Some(BEARER + token), now)
            == if now < createdAt + SESSION_LIFETIME then Success(userId) else Failure(HttpError(401, INVALID_TOKEN))
  {
    PrefixStripped(token);
    SessionLifetime(sessions, userId, token, createdAt, now);
  }

  /** After logout the same header is refused as an invalid token. */
  lemma LoggedOutTokenRejected(sessions: seq<SessionRow>, token: string, now: int)
    requires !Contains(token, BEARER)
    ensures Authentication(DropToken(sessions, token), Some(BEARER + token), now) == Failure(HttpError(401, INVALID_TOKEN))
  {
    PrefixStripped(token);
    DroppedTokenNeverVerifies(sessions, token, now);
  }

  method Authenticate(db: Database, authorization: Option<string>, now: int) returns (r: Result<nat, Reply>)
    requires db.Valid()
    modifies db
    ensures db.Valid() && db.TablesKept()
    ensures r == Authentication(db.sessions, authorization, now)
  {
    var token := BearerToken(authorization);
    if token.None? {
      return Failure(HttpError(401, NOT_AUTHENTICATED));
    }
    var userId := db.VerifySession(token.value, now);
    if !Truthy(userId) {
      return Failure(HttpError(401, INVALID_TOKEN));
    }
    r := Success(userId.value);
  }

  /** `POST /register`: a taken username or email is a 400 and changes
      nothing; otherwise the user is stored and signed in with `token`. */
  method Register(db: Database, username: string, email: string, password: string, token: string, now: int)
    returns (r: Reply)
    requires db.Valid()
    modifies db
    ensures db.Valid() && db.favorites == old(db.favorites)
    ensures UsernameTaken(old(db.users), username) || EmailTaken(old(db.users), email) ==>
              r == HttpError(400, USER_EXISTS) && db.users == old(db.users) && db.sessions == old(db.sessions)
    ensures !UsernameTaken(old(db.users), username) && !EmailTaken(old(db.users), email) ==>
              var id := old(db.nextUserId);
              && db.users == old(db.users) + [UserRow(id, username, email, db.hash(password))]
              && if TokenTaken(old(db.sessions), token) then r == ServerError && db.sessions == old(db.sessions)
                 else && r == SignedIn(token, UserInfo(id, username, email))
                      && db.sessions == old(db.sessions) + [SessionRow(id, token, now, now + SESSION_LIFETIME)]
  {
    var userId := db.CreateUser(username, email, password);
    if !Truthy(userId) {
      return HttpError(400, USER_EXISTS);
    }
    var ok := db.CreateSession(userId.value, token, now);
    if !ok {
      return ServerError;
    }
    r := SignedIn(token, UserInfo(userId.value, username, email));
  }

  /** `POST /login`: wrong credentials are a 401; otherwise a new session. */
  method Login(db: Database, username: string, password: string, token: string, now: int) returns (r: Reply)
    requires db.Valid()
    modifies db
    ensures db.Valid() && db.users == old(db.users) && db.favorites == old(db.favorites)
    ensures FindCredentials(db.users, username, db.hash(password)) == None ==>
              r == HttpError(401, BAD_CREDENTIALS) && db.sessions == old(db.sessions)
    ensures FindCredentials(db.users, username, db.hash(password)).Some? ==>
              var user := FindCredentials(db.users, username, db.hash(password)).value;
              if TokenTaken(old(db.sessions), token) then r == ServerError && db.sessions == old(db.sessions)
              else && r == SignedIn(token, user)
                   && db.sessions == old(db.sessions) + [SessionRow(user.id, token, now, now + SESSION_LIFETIME)]
  {
    var user := db.VerifyUser(username, password);
    if user.None? {
      return HttpError(401, BAD_CREDENTIALS);
    }
    var ok := db.CreateSession(user.value.id, token, now);
    if !ok {
      return ServerError;
    }
    r := SignedIn(token, user.value);
  }

  /** `POST /logout`: needs a bearer header but not a live session. */
  method Logout(db: Database, authorization: Option<string>) returns (r: Reply)
    requires db.Valid()
    modifies db
    ensures db.Valid() && db.users == old(db.users) && db.favorites == old(db.favorites)
    ensures BearerToken(authorization).None? ==> r == HttpError(401, NOT_AUTHENTICATED) && db.sessions == old(db.sessions)
    ensures BearerToken(authorization).Some? ==>
              r == Message("Logged out successfully") && db.sessions == DropToken(old(db.sessions), BearerToken(authorization).value)
  {
    var token := BearerToken(authorization);
    if token.None? {
      return HttpError(401, NOT_AUTHENTICATED);
    }
    db.DeleteSession(token.value);
    r := Message("Logged out successfully");
  }

  /** `GET /me`: a 404 when the session outlives its user's row. */
  method Me(db: Database, authorization: Option<string>, now: int) returns (r: Reply)
    requires db.Valid()
    modifies db
    ensures db.Valid() && db.TablesKept()
    ensures match Authentication(db.sessions, authorization, now)
            case Failure(e) => r == e
            case Success(u) =>
              if UserById(db.users, u).None? then r == HttpError(404, USER_NOT_FOUND)
              else r.CurrentUser? && r.user.id == u && exists i :: 0 <= i < |db.users| && r.user == Info(db.users[i])
  {
    var auth := Authenticate(db, authorization, now);
    if auth.Failure? {
      return auth.error;
    }
    db.Connect();
    var user := UserById(db.users, auth.value);
    if user.None? {
      return HttpError(404, USER_NOT_FOUND);
    }
    r := CurrentUser(user.value);
  }

  /** `POST /favorites`: a duplicate (or a place without id or name) is a 400. */
  method AddToFavorites(db: Database, authorization: Option<string>, place: Place, now: int) returns (r: Reply)
    requires db.Valid()
    modifies db
    ensures db.Valid() && db.users == old(db.users) && db.sessions == old(db.sessions)
    ensures match Authentication(old(db.sessions), authorization, now)
            case Failure(e) => r == e && db.favorites == old(db.favorites)
            case Success(u) =>
              if place.placeId.Some? && place.name.Some? && !HasFavorite(old(db.favorites), u, place.placeId.value) then
                && r == Message("Added to favorites")
                && HasFavorite(db.favorites, u, place.placeId.value)
                && db.favorites == old(db.favorites) + [FavoriteRow(old(db.nextFavoriteId), u, place.placeId.value,
                                                                    place.name.value, StoredAddress(place),
                                                                    place.rating, place, now)]
              else r == HttpError(400, ALREADY_FAVORITE) && db.favorites == old(db.favorites)
  {
    var auth := Authenticate(db, authorization, now);
    if auth.Failure? {
      return auth.error;
    }
    var ok := db.AddFavorite(auth.value, place, now);
    if !ok {
      return HttpError(400, ALREADY_FAVORITE);
    }
    assert db.favorites[|db.favorites| - 1].userId == auth.value;
    r := Message("Added to favorites");
  }

  /** `DELETE /favorites/{place_id}`: a pair that is not stored is a 404. */
  method RemoveFromFavorites(db: Database, authorization: Option<string>, placeId: string, now: int) returns (r: Reply)
    requires db.Valid()
    modifies db
    ensures db.Valid() && db.users == old(db.users) && db.sessions == old(db.sessions)
    ensures match Authentication(old(db.sessions), authorization, now)
            case Failure(e) => r == e && db.favorites == old(db.favorites)
            case Success(u) =>
              && db.favorites == WithoutFavorite(old(db.favorites), u, placeId)
              && r == if HasFavorite(old(db.favorites), u, placeId) then Message("Removed from favorites")
                      else HttpError(404, FAVORITE_NOT_FOUND)
  {
    var auth := Authenticate(db, authorization, now);
    if auth.Failure? {
      return auth.error;
    }
    var deleted := db.RemoveFavorite(auth.value, placeId);
    if !deleted {
      return HttpError(404, FAVORITE_NOT_FOUND);
    }
    r := Message("Removed from favorites");
  }

  /** `GET /favorites`: the user's rows, newest first. */
  method GetUserFavorites(db: Database, authorization: Option<string>, now: int) returns (r: Reply)
    requires db.Valid()
    modifies db
    ensures db.Valid() && db.TablesKept()
    ensures match Authentication(db.sessions, authorization, now)
            case Failure(e) => r == e
            case Success(u) => r == FavoriteList(NewestFirst(RowsOf(db.favorites, u)))
  {
    var auth := Authenticate(db, authorization, now);
    if auth.Failure? {
      return auth.error;
    }
    var favorites := db.GetFavorites(auth.value);
    r := FavoriteList(favorites);
  }

  /** `GET /favorites/check/{place_id}`: never an error; signed out or
      expired reads as "not a favorite". */
  method CheckFavorite(db: Database, authorization: Option<string>, placeId: string, now: int) returns (r: Reply)
    requires db.Valid()
    modifies db
    ensures db.Valid() && db.TablesKept()
    ensures r.FavoriteCheck?
    ensures r.isFavorite <==> match Authentication(db.sessions, authorization, now)
                              case Failure(_) => false
                              case Success(u) => HasFavorite(db.favorites, u, placeId)
  {
    var token := BearerToken(authorization);
    if token.None? {
      return FavoriteCheck(false);
    }
    var userId := db.VerifySession(token.value, now);
    if !Truthy(userId) {
      return FavoriteCheck(false);
    }
    var found := db.IsFavorite(userId.value, placeId);
    r := FavoriteCheck(found);
  }
}
