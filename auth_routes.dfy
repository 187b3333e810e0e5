/** The `/auth` routes: `/login` and `/me`. bcrypt and the token library are
    passed in as functions: `compare` is `bcrypt.compare`, `sign` is `jwt.sign`
    with the server's secret, `verify` is `jwt.verify` (the `userId` claim, or
    None when verification throws). */
module AuthRoutes {
  import opened Common
  import opened Store
  import opened Records
  import Middleware

  const InvalidCredentials := "Invalid credentials"
  /** The `expiresIn` option given to `jwt.sign`. */
  const TokenLifetime := "24h"

  /** A successful login's body: the token and the user without its password. */
  datatype Session = Session(token: string, user: Fields)

  /** `{ id: userDoc.id, ...userWithoutPassword }` where
      `{ password: _, ...userWithoutPassword } = userData`. */
  function PublicUser(id: string, data: Fields): (u: Fields)
    ensures "password" !in u
    ensures u.Keys == (data.Keys - {"password"}) + {"id"}
    ensures forall k :: k in data && k != "password" ==> u[k] == data[k]
    ensures "id" !in data ==> u["id"] == id
  {
    map["id" := id] + (data - {"password"})
  }

  predicate HasEmail(email: string, data: Fields) {
    Lookup(data, "email") == Some(email)
  }

  /** `POST /login`. A user without a stored hash makes `bcrypt.compare` throw, which is a 500. */
  function Login(email: string, password: string, users: Collection<Fields>,
                 compare: (string, string) -> bool, sign: (string, string) -> string): (r: Reply<Session>)
    ensures r.Err? ==> r == Err(StatusUnauthorized, InvalidCredentials) || r == Err(StatusInternalError, InternalServerError)
    ensures r.Ok? ==> r.status == StatusOk && "password" !in r.body.user
  {
    var matches := Where(users, (data: Fields) => HasEmail(email, data));
    if matches == [] then Err(StatusUnauthorized, InvalidCredentials)
    else
      var userDoc := matches[0];
      match Lookup(userDoc.data, "password")
      case None => Err(StatusInternalError, InternalServerError)
      case Some(hash) =>
        if !compare(password, hash) then Err(StatusUnauthorized, InvalidCredentials)
        else Ok(StatusOk, Session(sign(userDoc.id, TokenLifetime), PublicUser(userDoc.id, userDoc.data)))
  }

  /** An unknown email and a wrong password for the first user with that email
      give the same response, so a caller cannot tell which one happened. */
  lemma LoginFailuresIndistinguishable(email: string, password: string, users: Collection<Fields>,
                                       compare: (string, string) -> bool, sign: (string, string) -> string)
    ensures (forall i :: 0 <= i < |users| ==> !HasEmail(email, users[i].data)) ==>
              Login(email, password, users, compare, sign) == Err(StatusUnauthorized, InvalidCredentials)
    ensures forall i ::
              (0 <= i < |users| && HasEmail(email, users[i].data)
               && (forall j :: 0 <= j < i ==> !HasEmail(email, users[j].data))
               && "password" in users[i].data && !compare(password, users[i].data["password"]))
              ==> Login(email, password, users, compare, sign) == Err(StatusUnauthorized, InvalidCredentials)
  {
    var p := (data: Fields) => HasEmail(email, data);
    WhereFirst(users, p);
    forall i | 0 <= i < |users| && HasEmail(email, users[i].data)
              && (forall j :: 0 <= j < i ==> !HasEmail(email, users[j].data))
      ensures Where(users, p)[0] == users[i]
    {
      var k :| 0 <= k < |users| && Where(users, p)[0] == users[k] && p(users[k].data)
               && (forall j :: 0 <= j < k ==> !p(users[j].data));
      assert k == i;
    }
  }

  /** A successful login belongs to the first stored user with that email whose
      hash matches: the token is signed for that document's id with a 24h lifetime,
      and the returned user is that document without its password. */
  lemma LoginSucceedsForFirstMatch(email: string, password: string, users: Collection<Fields>,
                                   compare: (string, string) -> bool, sign: (string, string) -> string)
    requires Login(email, password, users, compare, sign).Ok?
    ensures exists i :: 0 <= i < |users| && HasEmail(email, users[i].data)
              && (forall j :: 0 <= j < i ==> !HasEmail(email, users[j].data))
              && "password" in users[i].data && compare(password, users[i].data["password"])
              && Login(email, password, users, compare, sign).body
                 == Session(sign(users[i].id, TokenLifetime), PublicUser(users[i].id, users[i].data))
  {
    var p := (data: Fields) => HasEmail(email, data);
    WhereFirst(users, p);
  }

  /** Conversely, the first stored user with that email decides the login: a
      password its hash accepts logs in as that user, with a 24h token signed for
      its id; a user without a stored hash gives the 500. */
  lemma LoginByFirstMatch(email: string, password: string, users: Collection<Fields>,
                          compare: (string, string) -> bool, sign: (string, string) -> string, i: nat)
    requires i < |users| && HasEmail(email, users[i].data)
    requires forall j :: 0 <= j < i ==> !HasEmail(email, users[j].data)
    ensures "password" in users[i].data && compare(password, users[i].data["password"]) ==>
              Login(email, password, users, compare, sign)
              == Ok(StatusOk, Session(sign(users[i].id, TokenLifetime), PublicUser(users[i].id, users[i].data)))
    ensures "password" !in users[i].data ==>
              Login(email, password, users, compare, sign) == Err(StatusInternalError, InternalServerError)
  {
    var p := (data: Fields) => HasEmail(email, data);
    WhereFirst(users, p);
    var k :| 0 <= k < |users| && Where(users, p)[0] == users[k] && p(users[k].data)
             && (forall j :: 0 <= j < k ==> !p(users[j].data));
    assert k == i;
  }

  /** `GET /me`: its own token check, where every failure is a 401. */
  function Me(header: Option<string>, verify: string -> Option<string>, users: Collection<Fields>): (r: Reply<Fields>)
    ensures r.Err? ==> r.status == StatusUnauthorized
    ensures r.Ok? ==> "password" !in r.body && "id" in r.body
  {
    match Middleware.BearerToken(header)
    case None => Err(StatusUnauthorized, Middleware.AccessTokenRequired)
    case Some(token) =>
      match verify(token)
      case None => Err(StatusUnauthorized, Middleware.InvalidToken)
      case Some(userId) =>
        match Get(users, userId)
        case None => Err(StatusUnauthorized, Middleware.UserNotFound)
        case Some(data) => Ok(StatusOk, PublicUser(userId, data))
  }

  /** `/me` accepts exactly the requests `authenticateToken` accepts and returns
      the same user minus the password; where the middleware answers 403 to a
      token that does not verify, `/me` answers 401. */
  lemma MeAgreesWithMiddleware(header: Option<string>, verify: string -> Option<string>, users: Collection<Fields>)
    ensures Me(header, verify, users).Ok? <==> Middleware.Authenticate(header, verify, users).Authenticated?
    ensures Me(header, verify, users).Ok? ==>
              Me(header, verify, users).body == Middleware.Authenticate(header, verify, users).user - {"password"}
    ensures Middleware.Authenticate(header, verify, users) == Middleware.Denied(StatusForbidden, Middleware.InvalidToken) ==>
              Me(header, verify, users) == Err(StatusUnauthorized, Middleware.InvalidToken)
  {
    if Me(header, verify, users).Ok? {
      var token := Middleware.BearerToken(header).value;
      var userId := verify(token).value;
      var data := Get(users, userId).value;
      var u := Middleware.SessionUser(userId, data);
      assert Me(header, verify, users).body == PublicUser(userId, data);
      assert PublicUser(userId, data) == u - {"password"};
    }
  }
}
