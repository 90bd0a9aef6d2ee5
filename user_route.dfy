/** The profile route of app/api/user/route.ts: `GET` returns the signed-in
    user's row, creating it on first use; `PATCH` changes the name and the
    avatar where the body gives a non-empty value. */
module UserRoute {
  import opened Base
  import opened Text
  import opened Records

  /** The signed-in user as the authentication service reports it. */
  datatype AuthUser = AuthUser(id: UserId, email: Option<string>, fullName: Option<string>, avatarUrl: Option<string>)

  datatype UserResponse = Unauthorized | Found(user: User) | ServerError

  function HttpStatus(r: UserResponse): nat
  {
    match r
    case Unauthorized => 401
    case Found(_) => 200
    case ServerError => 500
  }

  /** `full_name || email.split('@')[0]`. */
  function DisplayName(fullName: Option<string>, email: string): (name: string)
    ensures Truthy(fullName) ==> name == fullName.value
    ensures !Truthy(fullName) ==> name <= email && '@' !in name
  {
    if Truthy(fullName) then fullName.value
    else
      var prefix := BeforeFirst(email, "@");
      assert '@' !in prefix by {
        if '@' in prefix {
          var k :| 0 <= k < |prefix| && prefix[k] == '@';
          assert OccursAt(email, "@", k);
        }
      }
      prefix
  }

  /** The row created for a first-time user; the other columns take the
      table's defaults (free plan, zero counters, daily window from now). */
  function NewUser(auth: AuthUser, email: string, now: int): (u: User)
    ensures u.id == auth.id && u.email == email && u.name == Some(DisplayName(auth.fullName, email))
    ensures u.image == auth.avatarUrl
    ensures u.plan == FREE && !u.isPremium && !u.isBanned && u.freeUsed == 0 && u.dailyUsed == 0
  {
    User(auth.id, email, Some(DisplayName(auth.fullName, email)), auth.avatarUrl, FREE, false, false, None,
         0, 0, now, None, None, None, None, None)
  }

  /** What `GET` answers and the user table it leaves. A missing email makes
      the create fail, which the route answers with 500. */
  function Get(users: map<UserId, User>, auth: Option<AuthUser>, now: int): (r: (UserResponse, map<UserId, User>))
    ensures auth.None? ==> r == (Unauthorized, users)
    ensures auth.Some? && auth.value.id in users ==> r == (Found(users[auth.value.id]), users)
    ensures auth.Some? && auth.value.id !in users && auth.value.email.None? ==> r == (ServerError, users)
    ensures r.0.Found? ==> auth.Some? && auth.value.id in r.1 && r.1[auth.value.id] == r.0.user
    ensures r.1 == users || (r.0.Found? && auth.Some? && auth.value.id !in users && r.1 == users[auth.value.id := r.0.user])
  {
    match auth
    case None => (Unauthorized, users)
    case Some(a) =>
      if a.id in users then (Found(users[a.id]), users)
      else if a.email.None? then (ServerError, users)
      else
        var u := NewUser(a, a.email.value, now);
        (Found(u), users[a.id := u])
  }

  /** `GET /api/user`. */
  method GetUser(db: Database, auth: Option<AuthUser>, now: int) returns (resp: UserResponse)
    requires db.Valid()
    modifies db`users
    ensures db.Valid()
    ensures (resp, db.users) == Get(old(db.users), auth, now)
  {
    if auth.None? {
      return Unauthorized;
    }
    var a := auth.value;
    if a.id in db.users {
      return Found(db.users[a.id]);
    }
    if a.email.None? {
      return ServerError;
    }
    var created := User(a.id, a.email.value, Some(DisplayName(a.fullName, a.email.value)), a.avatarUrl, FREE, false, false,
                        None, 0, 0, now, None, None, None, None, None);
    db.CreateUser(created);
    resp := Found(created);
  }

  /** A second `GET` creates nothing and returns the row the first one returned. */
  lemma SecondGetCreatesNothing(users: map<UserId, User>, auth: Option<AuthUser>, now: int, later: int)
    requires Get(users, auth, now).0.Found?
    ensures Get(Get(users, auth, now).1, auth, later) == (Get(users, auth, now).0, Get(users, auth, now).1)
  {
  }

  /** An existing row is returned as stored and nothing is written. */
  lemma ExistingUserUntouched(users: map<UserId, User>, a: AuthUser, now: int)
    requires a.id in users
    ensures Get(users, Some(a), now) == (Found(users[a.id]), users)
  {
  }

  /** The update object: `...(name && { name }), ...(image && { image })`. */
  function Patch(u: User, name: Option<string>, image: Option<string>): (r: User)
    ensures Truthy(name) ==> r.name == name
    ensures !Truthy(name) ==> r.name == u.name
    ensures Truthy(image) ==> r.image == image
    ensures !Truthy(image) ==> r.image == u.image
    ensures r.(name := u.name, image := u.image) == u
  {
    var withName := if Truthy(name) then u.(name := name) else u;
    if Truthy(image) then withName.(image := image) else withName
  }

  /** Applying the same patch twice is applying it once; an empty patch changes nothing. */
  lemma PatchIdempotent(u: User, name: Option<string>, image: Option<string>)
    ensures Patch(Patch(u, name, image), name, image) == Patch(u, name, image)
    ensures !Truthy(name) && !Truthy(image) ==> Patch(u, name, image) == u
  {
  }

  /** `PATCH /api/user`. `body` is None when the request body is not JSON;
      updating a missing row throws, which the route answers with 500. */
  method PatchUser(db: Database, auth: Option<AuthUser>, body: Option<(Option<string>, Option<string>)>)
    returns (resp: UserResponse)
    requires db.Valid()
    modifies db`users
    ensures db.Valid()
    ensures auth.None? ==> resp == Unauthorized && db.users == old(db.users)
    ensures auth.Some? && (body.None? || auth.value.id !in old(db.users)) ==>
      resp == ServerError && db.users == old(db.users)
    ensures auth.Some? && body.Some? && auth.value.id in old(db.users) ==>
      && resp == Found(Patch(old(db.users)[auth.value.id], body.value.0, body.value.1))
      && db.users == old(db.users)[auth.value.id := resp.user]
  {
    if auth.None? {
      return Unauthorized;
    }
    var id := auth.value.id;
    if body.None? || id !in db.users {
      return ServerError;
    }
    var (name, image) := body.value;
    var u := db.users[id];
    if Truthy(name) {
      u := u.(name := name);
    }
    if Truthy(image) {
      u := u.(image := image);
    }
    db.UpdateUser(u);
    resp := Found(u);
  }
}
