/** The OAuth2 mock: credential check against the user fixture, bearer tokens
    issued into a registry that only grows, token introspection, user views
    without passwords, and the `Authorization: Bearer <token>` lookup. */
module Auth {
  import opened Common

  /** A user record as the fixture holds it: text username and password, an id
      and a role, and any further keys. */
  predicate UserRecord(u: Object) {
    && "id" in u && "role" in u
    && "username" in u && u["username"].JStr?
    && "password" in u && u["password"].JStr?
  }

  predicate UserRecords(users: seq<Object>) {
    forall i :: 0 <= i < |users| ==> UserRecord(users[i])
  }

  /** What the registry remembers about a token. */
  datatype TokenInfo = TokenInfo(userId: Json, username: Json, role: Json)

  function InfoOf(u: Object): TokenInfo
    requires UserRecord(u)
  {
    TokenInfo(u["id"], u["username"], u["role"])
  }

  /** An OAuth2 error body `{error, error_description?}` with its HTTP status. */
  datatype AuthError = AuthError(status: int, error: string, description: Option<string>)

  /** Section 5.2 of RFC 6749: a failed password grant. */
  const BadCredentials := AuthError(401, "invalid_grant", Some("Bad credentials"))

  const InvalidToken := AuthError(401, "invalid_token", None)

  /** Section 5.1 of RFC 6749, plus the OpenLMIS user id. */
  datatype TokenResponse = TokenResponse(
    accessToken: string,
    tokenType: string,
    expiresIn: int,
    refreshToken: string,
    referenceDataUserId: Json)

  // ---------------------------------------------------------------------
  // Login
  // ---------------------------------------------------------------------

  function Credentials(username: Option<string>, password: Option<string>): Object -> bool {
    (u: Object) => FieldIs(u, "username", username) && FieldIs(u, "password", password)
  }

  /** The first user whose username and password both equal the supplied ones; a
      missing username or password matches no user. */
  function Login(users: seq<Object>, username: Option<string>, password: Option<string>): (r: Option<nat>)
    ensures r.Some? ==> r.value < |users|
                        && FieldIs(users[r.value], "username", username)
                        && FieldIs(users[r.value], "password", password)
    ensures r.Some? ==> forall i :: 0 <= i < r.value ==>
      !(FieldIs(users[i], "username", username) && FieldIs(users[i], "password", password))
    ensures r.None? <==> forall i :: 0 <= i < |users| ==>
      !(FieldIs(users[i], "username", username) && FieldIs(users[i], "password", password))
  {
    FindFirst(users, Credentials(username, password))
  }

  /** The response to a successful login. */
  function Granted(u: Object, accessToken: string, refreshToken: string): TokenResponse
    requires UserRecord(u)
  {
    TokenResponse(accessToken, "bearer", 3600, refreshToken, u["id"])
  }

  // ---------------------------------------------------------------------
  // Token introspection
  // ---------------------------------------------------------------------

  /** `{user_name, referenceDataUserId, authorities}`. */
  datatype TokenCheck = TokenCheck(userName: Json, referenceDataUserId: Json, authorities: seq<Json>)

  /** POST /api/oauth/check_token: the registered token's user, or 401. */
  function CheckToken(tokens: map<string, TokenInfo>, token: Option<string>): (r: Result<TokenCheck, AuthError>)
    ensures r.Ok? <==> token.Some? && token.value in tokens
    ensures r.Ok? ==> var info := tokens[token.value];
      r.value.userName == info.username && r.value.referenceDataUserId == info.userId
      && r.value.authorities == [info.role]
    ensures r.Err? ==> r.error == InvalidToken
  {
    if token.Some? && token.value in tokens then
      var info := tokens[token.value];
      Ok(TokenCheck(info.username, info.userId, [info.role]))
    else Err(InvalidToken)
  }

  class TokenRegistry {
    const users: seq<Object>
    var tokens: map<string, TokenInfo>

    /** The registry starts empty. */
    constructor (fixture: seq<Object>)
      requires UserRecords(fixture)
      ensures users == fixture && tokens == map[]
    {
      users := fixture;
      tokens := map[];
    }

    predicate Valid()
      reads this
    {
      UserRecords(users)
    }

    /** POST /api/oauth/token. A match registers exactly one token for that user;
        no match leaves the registry as it was. No entry is ever removed. */
    method GetToken(username: Option<string>, password: Option<string>, accessToken: string, refreshToken: string)
      returns (r: Result<TokenResponse, AuthError>)
      requires Valid()
      modifies this
      ensures Valid()
      ensures Login(users, username, password).None? ==> r == Err(BadCredentials) && tokens == old(tokens)
      ensures Login(users, username, password).Some? ==>
        var u := users[Login(users, username, password).value];
        && r == Ok(Granted(u, accessToken, refreshToken))
        && tokens == old(tokens)[accessToken := InfoOf(u)]
      ensures old(tokens).Keys <= tokens.Keys
    {
      var found := Login(users, username, password);
      if found.None? {
        return Err(BadCredentials);
      }
      var u := users[found.value];
      tokens := tokens[accessToken := InfoOf(u)];
      r := Ok(Granted(u, accessToken, refreshToken));
    }
  }

  /** A token just issued checks out as the user who logged in. */
  lemma IssuedTokenChecks(tokens: map<string, TokenInfo>, users: seq<Object>, username: Option<string>, password: Option<string>, accessToken: string)
    requires UserRecords(users) && Login(users, username, password).Some?
    ensures var u := users[Login(users, username, password).value];
      CheckToken(tokens[accessToken := InfoOf(u)], Some(accessToken))
        == Ok(TokenCheck(JStr(username.value), u["id"], [u["role"]]))
  {
  }

  // ---------------------------------------------------------------------
  // Users without passwords
  // ---------------------------------------------------------------------

  /** `{k: v for k, v in u.items() if k != 'password'}`. */
  function StripPassword(u: Object): (r: Object)
    ensures r.Keys == u.Keys - {"password"}
    ensures forall k :: k in r ==> r[k] == u[k]
  {
    map k | k in u && k != "password" :: u[k]
  }

  /** GET /api/users: every user, in order, without the password key. */
  function ListUsers(users: seq<Object>): (r: seq<Object>)
    ensures |r| == |users|
    ensures forall i :: 0 <= i < |r| ==> r[i].Keys == users[i].Keys - {"password"}
    ensures forall i, k :: 0 <= i < |r| && k in r[i] ==> r[i][k] == users[i][k]
  {
    seq(|users|, i requires 0 <= i < |users| => StripPassword(users[i]))
  }

  const UserNotFound := HttpError(404, "User not found")

  /** GET /api/users/<id>: the first user with that id, without the password, or 404. */
  function GetUser(users: seq<Object>, id: string): (r: Result<Object, HttpError>)
    ensures r.Ok? <==> exists j :: 0 <= j < |users| && Get(users[j], "id") == Some(JStr(id))
    ensures r.Ok? ==> exists j :: 0 <= j < |users| && Get(users[j], "id") == Some(JStr(id))
                        && (forall k :: 0 <= k < j ==> Get(users[k], "id") != Some(JStr(id)))
                        && r.value == StripPassword(users[j])
    ensures r.Ok? ==> "password" !in r.value
    ensures r.Err? ==> r.error == UserNotFound
  {
    match FindFirst(users, (u: Object) => Get(u, "id") == Some(JStr(id)))
    case None => Err(UserNotFound)
    case Some(i) => Ok(StripPassword(users[i]))
  }

  // ---------------------------------------------------------------------
  // Bearer header
  // ---------------------------------------------------------------------

  /** Python's `s.split(' ')`: the fields between single spaces, empty ones kept. */
  function SplitSpaces(s: string): (r: seq<string>)
    ensures r != []
    ensures forall i :: 0 <= i < |r| ==> ' ' !in r[i]
    decreases |s|
  {
    if ' ' !in s then [s]
    else
      var i := FirstSpace(s);
      [s[..i]] + SplitSpaces(s[i + 1..])
  }

  /** The index of the first space of s. */
  function FirstSpace(s: string): (i: nat)
    requires ' ' in s
    ensures i < |s| && s[i] == ' ' && ' ' !in s[..i]
  {
    if s[0] == ' ' then 0 else FirstSpace(s[1..]) + 1
  }

  /** `' '.join(fields)`. */
  function JoinSpaces(fields: seq<string>): string
    requires fields != []
    decreases |fields|
  {
    if |fields| == 1 then fields[0] else fields[0] + " " + JoinSpaces(fields[1..])
  }

  /** Splitting on single spaces loses nothing: joining the fields gives the text back. */
  lemma {:induction false} SplitJoinRoundTrip(s: string)
    ensures JoinSpaces(SplitSpaces(s)) == s
    decreases |s|
  {
    if ' ' in s {
      var i := FirstSpace(s);
      SplitJoinRoundTrip(s[i + 1..]);
      assert s == s[..i] + " " + s[i + 1..];
    }
  }

  /** The text before the first space (all of it when there is none). */
  function FirstWord(s: string): string {
    if ' ' in s then s[..FirstSpace(s)] else s
  }

  /** The second field of a header `"Bearer " + rest` is the first word of `rest`. */
  lemma SecondFieldAfterBearer(rest: string)
    ensures |SplitSpaces("Bearer " + rest)| >= 2
    ensures SplitSpaces("Bearer " + rest)[1] == FirstWord(rest)
  {
    var h := "Bearer " + rest;
    assert h[6] == ' ';
    assert ' ' !in h[..6];
    assert ' ' in h;
    assert FirstSpace(h) == 6 by {
      FirstSpaceUnique(h, 6);
    }
    assert h[7..] == rest;
  }

  /** Any space with no space before it is the first one. */
  lemma {:induction false} FirstSpaceUnique(s: string, i: nat)
    requires i < |s| && s[i] == ' ' && ' ' !in s[..i]
    ensures FirstSpace(s) == i
  {
    if i > 0 {
      assert s[0] == s[..i][0];
      assert s[1..][..i - 1] == s[..i][1..];
      FirstSpaceUnique(s[1..], i - 1);
    }
  }

  const BearerPrefix := "Bearer "

  /** `get_token_user`: the registry entry for the token after `"Bearer "`, or None
      when the header is absent, empty, not a bearer header, or names no token. */
  function GetTokenUser(tokens: map<string, TokenInfo>, header: Option<string>): (r: Option<TokenInfo>)
    ensures r.Some? <==> header.Some? && BearerPrefix <= header.value
                         && FirstWord(header.value[|BearerPrefix|..]) in tokens
    ensures r.Some? ==> r.value == tokens[FirstWord(header.value[|BearerPrefix|..])]
  {
    if header.None? || header.value == "" || !(BearerPrefix <= header.value) then None
    else
      SecondFieldAfterBearer(header.value[|BearerPrefix|..]);
      assert header.value == BearerPrefix + header.value[|BearerPrefix|..];
      var token := SplitSpaces(header.value)[1];
      if token in tokens then Some(tokens[token]) else None
  }

  /** A registered token without spaces, sent as `Bearer <token>`, finds its user. */
  lemma BearerFindsToken(tokens: map<string, TokenInfo>, token: string)
    requires token in tokens && ' ' !in token
    ensures GetTokenUser(tokens, Some(BearerPrefix + token)) == Some(tokens[token])
  {
    assert (BearerPrefix + token)[|BearerPrefix|..] == token;
  }
}
