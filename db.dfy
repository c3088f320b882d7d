/** The users/favorites/sessions store: three tables with their UNIQUE
    constraints, held as sequences of rows in insertion (rowid) order. Every
    operation opens a connection first, which creates the tables on first use. */
module Db {
  import opened Wrappers
  import opened Seqs
  import opened Places

  /** `datetime('now', '+7 days')`, on a clock counting seconds. */
  const SESSION_LIFETIME := 7 * 24 * 60 * 60

  datatype UserRow = UserRow(id: nat, username: string, email: string, passwordHash: string)

  /** The `id, username, email` columns the queries select. */
  datatype UserInfo = UserInfo(id: nat, username: string, email: string)

  /** `place_data` is stored as JSON text and decoded on listing; the model
      keeps the decoded value. `created_at` is the clock at insertion. */
  datatype FavoriteRow = FavoriteRow(
    id: nat,
    userId: nat,
    placeId: string,
    placeName: string,
    placeAddress: Option<string>,
    placeRating: Option<real>,
    placeData: Place,
    createdAt: int)

  datatype SessionRow = SessionRow(userId: nat, token: string, createdAt: int, expiresAt: int)

  function Info(u: UserRow): UserInfo {
    UserInfo(u.id, u.username, u.email)
  }

  // Keys of the UNIQUE constraints.
  function UserIdOf(u: UserRow): nat { u.id }
  function UsernameOf(u: UserRow): string { u.username }
  function EmailOf(u: UserRow): string { u.email }
  function FavoriteIdOf(f: FavoriteRow): nat { f.id }
  function FavoriteKey(f: FavoriteRow): (nat, string) { (f.userId, f.placeId) }
  function TokenOf(s: SessionRow): string { s.token }

  predicate UsernameTaken(users: seq<UserRow>, username: string) {
    exists i :: 0 <= i < |users| && users[i].username == username
  }

  predicate EmailTaken(users: seq<UserRow>, email: string) {
    exists i :: 0 <= i < |users| && users[i].email == email
  }

  predicate TokenTaken(sessions: seq<SessionRow>, token: string) {
    exists i :: 0 <= i < |sessions| && sessions[i].token == token
  }

  /** `SELECT id, username, email FROM users WHERE username = ? AND
      password_hash = ?`, first row: found exactly when such a row exists. */
  function FindCredentials(users: seq<UserRow>, username: string, passwordHash: string): (r: Option<UserInfo>)
    ensures r.Some? <==> exists i :: 0 <= i < |users| && users[i].username == username && users[i].passwordHash == passwordHash
    ensures r.Some? ==> exists i :: 0 <= i < |users| && users[i].username == username
                                    && users[i].passwordHash == passwordHash && r.value == Info(users[i])
    decreases |users|
  {
    if users == [] then None
    else if users[0].username == username && users[0].passwordHash == passwordHash then Some(Info(users[0]))
    else
      var r := FindCredentials(users[1..], username, passwordHash);
      assert forall i :: 0 <= i < |users| - 1 ==> users[1..][i] == users[i + 1];
      r
  }

  /** `SELECT id, username, email FROM users WHERE id = ?`, first row. */
  function UserById(users: seq<UserRow>, id: nat): (r: Option<UserInfo>)
    ensures r.Some? <==> exists i :: 0 <= i < |users| && users[i].id == id
    ensures r.Some? ==> r.value.id == id && exists i :: 0 <= i < |users| && r.value == Info(users[i])
    decreases |users|
  {
    if users == [] then None
    else if users[0].id == id then Some(Info(users[0]))
    else
      var r := UserById(users[1..], id);
      assert forall i :: 0 <= i < |users| - 1 ==> users[1..][i] == users[i + 1];
      r
  }

  /** With usernames unique, a matching row is the one found. */
  lemma {:induction false} CredentialsOfRow(users: seq<UserRow>, i: nat, password: string, hash: string -> string)
    requires DistinctBy(users, UsernameOf) && i < |users|
    requires users[i].passwordHash == hash(password)
    ensures FindCredentials(users, users[i].username, hash(password)) == Some(Info(users[i]))
  {
    var r := FindCredentials(users, users[i].username, hash(password));
    var j :| 0 <= j < |users| && users[j].username == users[i].username
             && users[j].passwordHash == hash(password) && r.value == Info(users[j]);
  }

  /** `SELECT 1 FROM favorites WHERE user_id = ? AND place_id = ?` followed
      by `fetchone() is not None`: the scan finds a row exactly when some row
      has that user and that place id. */
  function HasFavorite(favorites: seq<FavoriteRow>, userId: nat, placeId: string): (found: bool)
    ensures found <==> exists i :: 0 <= i < |favorites| && favorites[i].userId == userId && favorites[i].placeId == placeId
    decreases |favorites|
  {
    if favorites == [] then false
    else if favorites[0].userId == userId && favorites[0].placeId == placeId then true
    else
      var found := HasFavorite(favorites[1..], userId, placeId);
      assert forall i :: 0 <= i < |favorites| - 1 ==> favorites[1..][i] == favorites[i + 1];
      found
  }

  /** `DELETE FROM favorites WHERE user_id = ? AND place_id = ?`: the pair is
      gone afterwards and every other row stays, in order. */
  function WithoutFavorite(favorites: seq<FavoriteRow>, userId: nat, placeId: string): (r: seq<FavoriteRow>)
    ensures IsSubsequence(r, favorites)
    ensures !HasFavorite(r, userId, placeId)
    ensures forall i :: 0 <= i < |favorites| && FavoriteKey(favorites[i]) != (userId, placeId) ==> favorites[i] in r
  {
    Keep(favorites, (f: FavoriteRow) => FavoriteKey(f) != (userId, placeId))
  }

  /** `SELECT user_id FROM sessions WHERE token = ? AND expires_at >
      datetime('now')`, first row: found exactly when the token has a
      session that has not expired, and then it is that session's user. */
  function LiveSession(sessions: seq<SessionRow>, token: string, now: int): (r: Option<nat>)
    ensures r.Some? <==> exists i :: 0 <= i < |sessions| && sessions[i].token == token && sessions[i].expiresAt > now
    ensures r.Some? ==> exists i :: 0 <= i < |sessions| && sessions[i].token == token
                                    && sessions[i].expiresAt > now && sessions[i].userId == r.value
    decreases |sessions|
  {
    if sessions == [] then None
    else if sessions[0].token == token && sessions[0].expiresAt > now then Some(sessions[0].userId)
    else
      var r := LiveSession(sessions[1..], token, now);
      assert forall i :: 0 <= i < |sessions| - 1 ==> sessions[1..][i] == sessions[i + 1];
      r
  }

  /** `DELETE FROM sessions WHERE token = ?`: no session with the token is
      left, and every other session stays. */
  function DropToken(sessions: seq<SessionRow>, token: string): (r: seq<SessionRow>)
    ensures IsSubsequence(r, sessions)
    ensures !TokenTaken(r, token)
    ensures forall i :: 0 <= i < |sessions| && sessions[i].token != token ==> sessions[i] in r
  {
    Keep(sessions, (s: SessionRow) => s.token != token)
  }

  /** A new session verifies for its user until seven days have passed, and
      never after. */
  lemma SessionLifetime(sessions: seq<SessionRow>, userId: nat, token: string, createdAt: int, now: int)
    requires !TokenTaken(sessions, token)
    ensures LiveSession(sessions + [SessionRow(userId, token, createdAt, createdAt + SESSION_LIFETIME)], token, now)
            == if now < createdAt + SESSION_LIFETIME then Some(userId) else None
  {
    var t := sessions + [SessionRow(userId, token, createdAt, createdAt + SESSION_LIFETIME)];
    var r := LiveSession(t, token, now);
    if now < createdAt + SESSION_LIFETIME {
      assert t[|sessions|].token == token;
    }
    if r.Some? {
      var i :| 0 <= i < |t| && t[i].token == token && t[i].expiresAt > now && t[i].userId == r.value;
      if i < |sessions| {
        assert false;
      }
    }
  }

  /** After logout the token verifies at no time. */
  lemma DroppedTokenNeverVerifies(sessions: seq<SessionRow>, token: string, now: int)
    ensures LiveSession(DropToken(sessions, token), token, now) == None
  {
  }

  /** `WHERE user_id = ?`: that user's rows, in table order. */
  function RowsOf(favorites: seq<FavoriteRow>, userId: nat): (r: seq<FavoriteRow>)
    ensures IsSubsequence(r, favorites)
    ensures forall i :: 0 <= i < |r| ==> r[i].userId == userId
    ensures forall i :: 0 <= i < |favorites| && favorites[i].userId == userId ==> favorites[i] in r
  {
    Keep(favorites, (f: FavoriteRow) => f.userId == userId)
  }

  /** `ORDER BY created_at DESC` */
  predicate NewestFirstOrder(s: seq<FavoriteRow>) {
    forall i, j :: 0 <= i < j < |s| ==> s[i].createdAt >= s[j].createdAt
  }

  /** One step of the sort: `row` placed before the first row not newer than it. */
  function Insert(row: FavoriteRow, sorted: seq<FavoriteRow>): seq<FavoriteRow>
    decreases |sorted|
  {
    if sorted == [] || row.createdAt >= sorted[0].createdAt then [row] + sorted
    else [sorted[0]] + Insert(row, sorted[1..])
  }

  /** Inserting a row no newer than `t` into rows no newer than `t` gives
      rows no newer than `t`. */
  lemma {:induction false} InsertBounded(row: FavoriteRow, sorted: seq<FavoriteRow>, t: int)
    requires row.createdAt <= t
    requires forall k :: 0 <= k < |sorted| ==> sorted[k].createdAt <= t
    ensures forall k :: 0 <= k < |Insert(row, sorted)| ==> Insert(row, sorted)[k].createdAt <= t
    decreases |sorted|
  {
    if sorted != [] && row.createdAt < sorted[0].createdAt {
      InsertBounded(row, sorted[1..], t);
    }
  }

  /** Inserting into a newest-first list keeps it newest first. */
  lemma {:induction false} InsertKeepsOrder(row: FavoriteRow, sorted: seq<FavoriteRow>)
    requires NewestFirstOrder(sorted)
    ensures NewestFirstOrder(Insert(row, sorted))
    decreases |sorted|
  {
    if sorted != [] && row.createdAt < sorted[0].createdAt {
      var tail := sorted[1..];
      InsertKeepsOrder(row, tail);
      InsertBounded(row, tail, sorted[0].createdAt);
      var rest := Insert(row, tail);
      var r := [sorted[0]] + rest;
      forall i, j | 0 <= i < j < |r| ensures r[i].createdAt >= r[j].createdAt {
        assert r[j] == rest[j - 1];
        if i > 0 {
          assert r[i] == rest[i - 1];
        }
      }
    }
  }

  /** Inserting adds exactly that row. */
  lemma {:induction false} InsertAddsRow(row: FavoriteRow, sorted: seq<FavoriteRow>)
    ensures multiset(Insert(row, sorted)) == multiset(sorted) + multiset{row}
    decreases |sorted|
  {
    if sorted != [] && row.createdAt < sorted[0].createdAt {
      InsertAddsRow(row, sorted[1..]);
      assert sorted == [sorted[0]] + sorted[1..];
    }
  }

  /** `ORDER BY created_at DESC`, as an insertion sort: the rows come out
      newest first, and none is added or dropped. */
  function NewestFirst(rows: seq<FavoriteRow>): (r: seq<FavoriteRow>)
    ensures NewestFirstOrder(r)
    ensures multiset(r) == multiset(rows)
    decreases |rows|
  {
    if rows == [] then []
    else
      var sortedTail := NewestFirst(rows[1..]);
      InsertHead(rows, sortedTail);
      Insert(rows[0], sortedTail)
  }

  /** Inserting the first row into the sorted rest sorts all the rows. */
  lemma InsertHead(rows: seq<FavoriteRow>, sortedTail: seq<FavoriteRow>)
    requires rows != []
    requires NewestFirstOrder(sortedTail) && multiset(sortedTail) == multiset(rows[1..])
    ensures NewestFirstOrder(Insert(rows[0], sortedTail))
    ensures multiset(Insert(rows[0], sortedTail)) == multiset(rows)
  {
    InsertKeepsOrder(rows[0], sortedTail);
    InsertAddsRow(rows[0], sortedTail);
    assert rows == [rows[0]] + rows[1..];
  }

  /** `get_favorites(user_id)`: exactly that user's rows, each once, newest first. */
  lemma {:induction false} FavoritesListing(favorites: seq<FavoriteRow>, userId: nat)
    requires DistinctBy(favorites, FavoriteIdOf)
    ensures NewestFirstOrder(NewestFirst(RowsOf(favorites, userId)))
    ensures forall x :: x in NewestFirst(RowsOf(favorites, userId)) <==> x in favorites && x.userId == userId
  {
    var rows := RowsOf(favorites, userId);
    var r := NewestFirst(rows);
    assert forall x :: x in r <==> x in multiset(rows);
    forall x | x in rows ensures x in favorites && x.userId == userId {
      var k :| 0 <= k < |rows| && rows[k] == x;
      SubsequenceMembers(rows, favorites, k);
    }
  }

  /** Where `place_address` comes from: `formatted_address` when the key is
      present, else `vicinity`. */
  function StoredAddress(place: Place): (address: Option<string>)
    ensures address.Some? <==> place.formattedAddress.Some? || place.vicinity.Some?
    ensures place.formattedAddress.Some? ==> address == place.formattedAddress
    ensures address.Some? && address != place.formattedAddress ==> address == place.vicinity
  {
    if place.formattedAddress.Some? then place.formattedAddress else place.vicinity
  }

  /** The database: the module-global "initialised" flag and the three
      tables, with the AUTOINCREMENT counters of the two whose ids are read. */
  class Database {
    /** `hash_password`: SHA-256 as an uninterpreted function. */
    const hash: string -> string
    var initialized: bool
    var users: seq<UserRow>
    var favorites: seq<FavoriteRow>
    var sessions: seq<SessionRow>
    var nextUserId: nat
    var nextFavoriteId: nat

    /** The declared UNIQUE and PRIMARY KEY constraints, and ids below their
        AUTOINCREMENT counters. */
    ghost predicate Valid()
      reads this
    {
      && DistinctBy(users, UserIdOf) && DistinctBy(users, UsernameOf) && DistinctBy(users, EmailOf)
      && (forall i :: 0 <= i < |users| ==> 1 <= users[i].id < nextUserId)
      && DistinctBy(favorites, FavoriteIdOf) && DistinctBy(favorites, FavoriteKey)
      && (forall i :: 0 <= i < |favorites| ==> 1 <= favorites[i].id < nextFavoriteId)
      && DistinctBy(sessions, TokenOf)
      && 1 <= nextUserId && 1 <= nextFavoriteId
    }

    /** Nothing in the three tables or their counters changed. */
    twostate predicate TablesKept()
      reads this
    {
      && users == old(users) && favorites == old(favorites) && sessions == old(sessions)
      && nextUserId == old(nextUserId) && nextFavoriteId == old(nextFavoriteId)
    }

    constructor (hash: string -> string)
      ensures this.hash == hash && !initialized && Valid()
      ensures users == [] && favorites == [] && sessions == []
    {
      this.hash := hash;
      initialized := false;
      users, favorites, sessions := [], [], [];
      nextUserId, nextFavoriteId := 1, 1;
    }

    /** `get_db_connection`: the first call creates the tables if they do not
        exist, which leaves existing rows as they are. */
    method Connect()
      modifies this
      ensures initialized && TablesKept()
    {
      if !initialized {
        initialized := true;
      }
    }

    /** `create_user`: the insert fails on a taken username or email and adds
        nothing; otherwise the row gets the next id, which is returned. */
    method CreateUser(username: string, email: string, password: string) returns (id: Option<nat>)
      requires Valid()
      modifies this
      ensures Valid() && initialized
      ensures favorites == old(favorites) && sessions == old(sessions) && nextFavoriteId == old(nextFavoriteId)
      ensures UsernameTaken(old(users), username) || EmailTaken(old(users), email) ==>
                id == None && users == old(users) && nextUserId == old(nextUserId)
      ensures !UsernameTaken(old(users), username) && !EmailTaken(old(users), email) ==>
                && id == Some(old(nextUserId)) && nextUserId == old(nextUserId) + 1
                && users == old(users) + [UserRow(old(nextUserId), username, email, hash(password))]
    {
      Connect();
      if UsernameTaken(users, username) || EmailTaken(users, email) {
        return None;
      }
      var row := UserRow(nextUserId, username, email, hash(password));
      DistinctAppend(users, row, UserIdOf);
      DistinctAppend(users, row, UsernameOf);
      DistinctAppend(users, row, EmailOf);
      users := users + [row];
      id := Some(nextUserId);
      nextUserId := nextUserId + 1;
    }

    /** `verify_user` */
    method VerifyUser(username: string, password: string) returns (user: Option<UserInfo>)
      requires Valid()
      modifies this
      ensures Valid() && initialized && TablesKept()
      ensures user == FindCredentials(users, username, hash(password))
    {
      Connect();
      user := FindCredentials(users, username, hash(password));
    }

    /** `create_session`: `token` stands for the fresh random token. An
        insert whose token is already stored violates UNIQUE and fails. */
    method CreateSession(userId: nat, token: string, now: int) returns (ok: bool)
      requires Valid()
      modifies this
      ensures Valid() && initialized
      ensures users == old(users) && favorites == old(favorites)
      ensures nextUserId == old(nextUserId) && nextFavoriteId == old(nextFavoriteId)
      ensures ok <==> !TokenTaken(old(sessions), token)
      ensures sessions == if ok then old(sessions) + [SessionRow(userId, token, now, now + SESSION_LIFETIME)] else old(sessions)
    {
      Connect();
      if TokenTaken(sessions, token) {
        return false;
      }
      var row := SessionRow(userId, token, now, now + SESSION_LIFETIME);
      DistinctAppend(sessions, row, TokenOf);
      sessions := sessions + [row];
      ok := true;
    }

    /** `verify_session` */
    method VerifySession(token: string, now: int) returns (userId: Option<nat>)
      requires Valid()
      modifies this
      ensures Valid() && initialized && TablesKept()
      ensures userId == LiveSession(sessions, token, now)
    {
      Connect();
      userId := LiveSession(sessions, token, now);
    }

    /** `delete_session` */
    method DeleteSession(token: string)
      requires Valid()
      modifies this
      ensures Valid() && initialized
      ensures users == old(users) && favorites == old(favorites)
      ensures nextUserId == old(nextUserId) && nextFavoriteId == old(nextFavoriteId)
      ensures sessions == DropToken(old(sessions), token)
    {
      Connect();
      var kept := DropToken(sessions, token);
      SubsequenceDistinct(kept, sessions, TokenOf);
      sessions := kept;
    }

    /** `add_favorite`: a missing `place_id` or `name` violates NOT NULL and a
        stored (user, place) pair violates UNIQUE; both add nothing and
        answer false. Otherwise one row is appended. */
    method AddFavorite(userId: nat, place: Place, now: int) returns (ok: bool)
      requires Valid()
      modifies this
      ensures Valid() && initialized
      ensures users == old(users) && sessions == old(sessions) && nextUserId == old(nextUserId)
      ensures ok <==> place.placeId.Some? && place.name.Some? && !HasFavorite(old(favorites), userId, place.placeId.value)
      ensures !ok ==> favorites == old(favorites) && nextFavoriteId == old(nextFavoriteId)
      ensures ok ==> && nextFavoriteId == old(nextFavoriteId) + 1
                     && favorites == old(favorites) + [FavoriteRow(old(nextFavoriteId), userId, place.placeId.value,
                                                                   place.name.value, StoredAddress(place),
                                                                   place.rating, place, now)]
    {
      Connect();
      if place.placeId.None? || place.name.None? || HasFavorite(favorites, userId, place.placeId.value) {
        return false;
      }
      var row := FavoriteRow(nextFavoriteId, userId, place.placeId.value, place.name.value,
                             StoredAddress(place), place.rating, place, now);
      DistinctAppend(favorites, row, FavoriteIdOf);
      DistinctAppend(favorites, row, FavoriteKey);
      favorites := favorites + [row];
      nextFavoriteId := nextFavoriteId + 1;
      ok := true;
    }

    /** `remove_favorite`: answers whether a row was deleted. */
    method RemoveFavorite(userId: nat, placeId: string) returns (deleted: bool)
      requires Valid()
      modifies this
      ensures Valid() && initialized
      ensures users == old(users) && sessions == old(sessions)
      ensures nextUserId == old(nextUserId) && nextFavoriteId == old(nextFavoriteId)
      ensures deleted == HasFavorite(old(favorites), userId, placeId)
      ensures favorites == WithoutFavorite(old(favorites), userId, placeId)
    {
      Connect();
      deleted := HasFavorite(favorites, userId, placeId);
      var kept := WithoutFavorite(favorites, userId, placeId);
      SubsequenceDistinct(kept, favorites, FavoriteIdOf);
      SubsequenceDistinct(kept, favorites, FavoriteKey);
      forall k | 0 <= k < |kept| ensures 1 <= kept[k].id < nextFavoriteId {
        SubsequenceMembers(kept, favorites, k);
      }
      favorites := kept;
    }

    /** `get_favorites` */
    method GetFavorites(userId: nat) returns (rows: seq<FavoriteRow>)
      requires Valid()
      modifies this
      ensures Valid() && initialized && TablesKept()
      ensures rows == NewestFirst(RowsOf(favorites, userId))
    {
      Connect();
      rows := NewestFirst(RowsOf(favorites, userId));
    }

    /** `is_favorite` */
    method IsFavorite(userId: nat, placeId: string) returns (found: bool)
      requires Valid()
      modifies this
      ensures Valid() && initialized && TablesKept()
      ensures found == HasFavorite(favorites, userId, placeId)
    {
      Connect();
      found := HasFavorite(favorites, userId, placeId);
    }
  }

  /** Adding then asking: the pair is a favorite right after a successful
      insert, and removing it makes it not one, leaving the rest. */
  lemma AddThenRemove(favorites: seq<FavoriteRow>, row: FavoriteRow)
    requires !HasFavorite(favorites, row.userId, row.placeId)
    ensures HasFavorite(favorites + [row], row.userId, row.placeId)
    ensures WithoutFavorite(favorites + [row], row.userId, row.placeId) == favorites
  {
    assert (favorites + [row])[|favorites|] == row;
    KeepAllBut(favorites, row);
  }

  lemma KeepAllBut(favorites: seq<FavoriteRow>, row: FavoriteRow)
    requires !HasFavorite(favorites, row.userId, row.placeId)
    ensures WithoutFavorite(favorites + [row], row.userId, row.placeId) == favorites
  {
    var keep := (f: FavoriteRow) => FavoriteKey(f) != (row.userId, row.placeId);
    assert forall i :: 0 <= i < |favorites| ==> keep(favorites[i]);
    KeepDropsAppended(favorites, row, keep);
  }
}
