/** The Express middleware of the server: bearer-token authentication and the
    role and country guards mounted in front of the route handlers. */
module Middleware {
  import opened Common
  import opened Store
  import opened Records

  const AccessTokenRequired := "Access token required"
  const InvalidToken := "Invalid token"
  const UserNotFound := "User not found"

  /** `s.split(' ')`: the fields between single spaces; empty fields are kept. */
  function Split(s: string): (r: seq<string>)
    ensures |r| >= 1
    ensures forall i :: 0 <= i < |r| ==> ' ' !in r[i]
  {
    if s == [] then [""]
    else
      var rest := Split(s[1..]);
      if s[0] == ' ' then [""] + rest
      else
        assert forall i :: 1 <= i < |rest| ==> rest[1..][i - 1] == rest[i];
        [[s[0]] + rest[0]] + rest[1..]
  }

  /** `fields.join(' ')`. */
  function Join(fields: seq<string>): string
    requires |fields| >= 1
  {
    if |fields| == 1 then fields[0] else fields[0] + " " + Join(fields[1..])
  }

  /** Splitting loses nothing: joining the fields with single spaces gives the header back. */
  lemma {:induction false} JoinSplit(s: string)
    ensures Join(Split(s)) == s
  {
    if s != [] {
      var rest := Split(s[1..]);
      JoinSplit(s[1..]);
      if s[0] == ' ' {
        assert Split(s) == [""] + rest;
        assert ([""] + rest)[1..] == rest;
        assert Join(Split(s)) == "" + " " + Join(rest);
      } else if |rest| == 1 {
        assert Split(s) == [[s[0]] + rest[0]];
        assert Join(rest) == rest[0];
        assert s == [s[0]] + s[1..];
      } else {
        var f := Split(s);
        assert f == [[s[0]] + rest[0]] + rest[1..];
        assert f[1..] == rest[1..];
        calc {
          Join(f);
          ([s[0]] + rest[0]) + " " + Join(rest[1..]);
          [s[0]] + (rest[0] + " " + Join(rest[1..]));
          [s[0]] + Join(rest);
          s;
        }
      }
    }
  }

  /** A text without spaces is a single field. */
  lemma {:induction false} SplitSpaceFree(s: string)
    requires ' ' !in s
    ensures Split(s) == [s]
  {
    if s != [] {
      assert s[0] in s;
      assert forall c :: c in s[1..] ==> c in s;
      SplitSpaceFree(s[1..]);
      assert [s[0]] + s[1..] == s;
    }
  }

  /** A space-free field followed by a space is split off whole. */
  lemma {:induction false} SplitField(a: string, b: string)
    requires ' ' !in a
    ensures Split(a + " " + b) == [a] + Split(b)
  {
    if a == [] {
      assert a + " " + b == [' '] + b;
      assert ([' '] + b)[1..] == b;
    } else {
      assert a[0] in a;
      assert forall c :: c in a[1..] ==> c in a;
      var s := a + " " + b;
      assert s[0] == a[0] && s[1..] == a[1..] + " " + b;
      SplitField(a[1..], b);
      var rest := Split(s[1..]);
      assert rest == [a[1..]] + Split(b);
      assert [a[0]] + a[1..] == a;
      assert rest[1..] == Split(b);
    }
  }

  /** `authHeader && authHeader.split(' ')[1]`, then `if (!token)`: the second field
      of the header, when the header is present and that field is non-empty. */
  function BearerToken(header: Option<string>): (token: Option<string>)
    ensures header.None? || header == Some("") ==> token.None?
    ensures token.Some? ==> token.value != "" && ' ' !in token.value
  {
    if !Truthy(header) then None
    else
      var fields := Split(header.value);
      if |fields| < 2 || fields[1] == "" then None else Some(fields[1])
  }

  /** Whatever the first field (the scheme) says, the token is the text between
      the first space and the next one. */
  lemma TokenAfterFirstSpace(scheme: string, token: string, rest: string)
    requires ' ' !in scheme && ' ' !in token && token != ""
    requires rest == "" || rest[0] == ' '
    ensures BearerToken(Some(scheme + " " + token + rest)) == Some(token)
  {
    var h := scheme + " " + token + rest;
    assert h == scheme + " " + (token + rest);
    SplitField(scheme, token + rest);
    if rest == "" {
      assert token + rest == token;
      SplitSpaceFree(token);
    } else {
      assert token + rest == token + " " + rest[1..];
      SplitField(token, rest[1..]);
    }
  }

  /** Conversely, an extracted token always sits right after the first space of the header. */
  lemma TokenShape(header: string, token: string) returns (scheme: string, rest: string)
    requires BearerToken(Some(header)) == Some(token)
    ensures header == scheme + " " + token + rest
    ensures ' ' !in scheme
    ensures rest == "" || rest[0] == ' '
  {
    var f := Split(header);
    JoinSplit(header);
    assert f[1..][0] == token;
    assert header == Join(f) == f[0] + " " + Join(f[1..]);
    scheme := f[0];
    if |f| == 2 {
      rest := "";
      assert Join(f[1..]) == token;
      assert scheme + " " + token + rest == scheme + " " + token;
    } else {
      rest := " " + Join(f[2..]);
      assert f[1..][1..] == f[2..];
      assert Join(f[1..]) == token + " " + Join(f[2..]);
    }
  }

  /** A missing header, or one without a non-empty second field, has no token. */
  lemma NoSpaceNoToken(header: string)
    requires ' ' !in header
    ensures BearerToken(Some(header)) == None
  {
    SplitSpaceFree(header);
  }

  /** How `authenticateToken` ends: with `req.user` set and `next` called, or with an error response. */
  datatype AuthOutcome = Authenticated(user: Fields) | Denied(status: int, error: string)

  /** `req.user = { id: decoded.userId, ...userDoc.data() }`: the stored fields win over `id`. */
  function SessionUser(userId: string, data: Fields): (u: Fields)
    ensures u.Keys == data.Keys + {"id"}
    ensures forall k :: k in data ==> u[k] == data[k]
    ensures "id" !in data ==> u["id"] == userId
  {
    map["id" := userId] + data
  }

  /** The decision of `authenticateToken`; `verify` stands for `jwt.verify` with the
      server's secret and gives the token's `userId` claim, or None when it throws. */
  function Authenticate(header: Option<string>, verify: string -> Option<string>, users: Collection<Fields>): (r: AuthOutcome)
    ensures r.Denied? ==> r.status == StatusUnauthorized || (r.status == StatusForbidden && r.error == InvalidToken)
    ensures r.Authenticated? <==>
              BearerToken(header).Some? && verify(BearerToken(header).value).Some?
              && verify(BearerToken(header).value).value in Ids(users)
  {
    match BearerToken(header)
    case None => Denied(StatusUnauthorized, AccessTokenRequired)
    case Some(token) =>
      match verify(token)
      case None => Denied(StatusForbidden, InvalidToken)
      case Some(userId) =>
        match Get(users, userId)
        case None => Denied(StatusUnauthorized, UserNotFound)
        case Some(data) => Authenticated(SessionUser(userId, data))
  }

  /** The three failures in order: no token is 401, a token that does not verify
      is 403, a verified token naming no stored user is 401 `User not found`; a
      success carries the stored user's fields. */
  lemma AuthenticateCases(header: Option<string>, verify: string -> Option<string>, users: Collection<Fields>)
    ensures BearerToken(header).None? ==>
              Authenticate(header, verify, users) == Denied(StatusUnauthorized, AccessTokenRequired)
    ensures BearerToken(header).Some? && verify(BearerToken(header).value).None? ==>
              Authenticate(header, verify, users) == Denied(StatusForbidden, InvalidToken)
    ensures BearerToken(header).Some? && verify(BearerToken(header).value).Some? ==>
              var id := verify(BearerToken(header).value).value;
              (id !in Ids(users) ==> Authenticate(header, verify, users) == Denied(StatusUnauthorized, UserNotFound))
              && (id in Ids(users) ==>
                    Authenticate(header, verify, users) == Authenticated(SessionUser(id, users[IndexOf(users, id)].data)))
  {
  }

  /** `authorizeRole(roles)` lets the request through iff the user's role is listed. */
  predicate RoleAllowed(roles: seq<string>, user: Fields) {
    Includes(roles, Role(user))
  }

  /** `authorizeCountry` only objects when the body names a country, and that country is not the user's. */
  predicate CountryAllowed(bodyCountry: Option<string>, user: Fields) {
    !Truthy(bodyCountry) || bodyCountry == Country(user)
  }

  /** One request passing through the middleware chain: what `req.user` holds,
      the error response sent (if any), and how often `next` was called. */
  class Exchange {
    var user: Option<Fields>
    var sent: Option<(int, string)>
    var nextCalls: nat

    constructor ()
      ensures user == None && sent == None && nextCalls == 0
    {
      user, sent, nextCalls := None, None, 0;
    }

    method AuthenticateToken(header: Option<string>, verify: string -> Option<string>, users: Collection<Fields>)
      modifies this
      ensures Authenticate(header, verify, users).Authenticated? ==>
                user == Some(Authenticate(header, verify, users).user)
                && sent == old(sent) && nextCalls == old(nextCalls) + 1
      ensures Authenticate(header, verify, users).Denied? ==>
                var d := Authenticate(header, verify, users);
                user == old(user) && sent == Some((d.status, d.error)) && nextCalls == old(nextCalls)
    {
      var token := BearerToken(header);
      if token.None? {
        sent := Some((StatusUnauthorized, AccessTokenRequired));
        return;
      }
      var decoded := verify(token.value);
      if decoded.None? {
        sent := Some((StatusForbidden, InvalidToken));
        return;
      }
      var userDoc := Get(users, decoded.value);
      if userDoc.None? {
        sent := Some((StatusUnauthorized, UserNotFound));
        return;
      }
      user := Some(SessionUser(decoded.value, userDoc.value));
      nextCalls := nextCalls + 1;
    }

    method AuthorizeRole(roles: seq<string>)
      requires user.Some?
      modifies this`sent, this`nextCalls
      ensures RoleAllowed(roles, user.value) ==> sent == old(sent) && nextCalls == old(nextCalls) + 1
      ensures !RoleAllowed(roles, user.value) ==>
                sent == Some((StatusForbidden, InsufficientPermissions)) && nextCalls == old(nextCalls)
    {
      if !Includes(roles, Role(user.value)) {
        sent := Some((StatusForbidden, InsufficientPermissions));
        return;
      }
      nextCalls := nextCalls + 1;
    }

    method AuthorizeCountry(bodyCountry: Option<string>)
      requires user.Some?
      modifies this`sent, this`nextCalls
      ensures CountryAllowed(bodyCountry, user.value) ==> sent == old(sent) && nextCalls == old(nextCalls) + 1
      ensures !CountryAllowed(bodyCountry, user.value) ==>
                sent == Some((StatusForbidden, CountryRestricted)) && nextCalls == old(nextCalls)
    {
      if Truthy(bodyCountry) && bodyCountry != Country(user.value) {
        sent := Some((StatusForbidden, CountryRestricted));
        return;
      }
      nextCalls := nextCalls + 1;
    }

    /** `authenticateToken, authorizeRole(roles)` as mounted in front of a handler:
        the handler runs iff the token resolves to a stored user whose role is listed. */
    method Guard(header: Option<string>, verify: string -> Option<string>, users: Collection<Fields>, roles: seq<string>)
      returns (admitted: bool)
      requires user == None && sent == None && nextCalls == 0
      modifies this
      ensures admitted <==> Authenticate(header, verify, users).Authenticated?
                            && RoleAllowed(roles, Authenticate(header, verify, users).user)
      ensures admitted ==> nextCalls == 2 && sent == None && user == Some(Authenticate(header, verify, users).user)
      ensures Authenticate(header, verify, users).Denied? ==>
                var d := Authenticate(header, verify, users);
                !admitted && sent == Some((d.status, d.error)) && user == None && nextCalls == 0
      ensures Authenticate(header, verify, users).Authenticated? && !admitted ==>
                sent == Some((StatusForbidden, InsufficientPermissions)) && user == Some(Authenticate(header, verify, users).user)
                && nextCalls == 1
    {
      AuthenticateToken(header, verify, users);
      admitted := false;
      if nextCalls == 1 {
        AuthorizeRole(roles);
        admitted := nextCalls == 2;
      }
    }
  }
}
