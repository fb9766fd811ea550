/**
 * Bearer-token authentication (Backend/middleware/authMiddleware.js): the header is
 * parsed, the token verified, the user looked up and attached to the request.
 * Verifying a JSON Web Token is an oracle.
 */
module Auth {
  import opened Wrappers
  import opened Text
  import opened Accounts

  /** What `jwt.verify` does with a token: a payload with an optional id, or one of its two error kinds. */
  datatype Verified = Decoded(id: Option<string>) | Expired | Invalid

  /** `process.env.JWT_SECRET || "secret"`. */
  function JwtSecret(env: Option<string>): (s: string)
    ensures s != ""
    ensures TruthyString(env) ==> s == env.value
  {
    OrString(env, "secret")
  }

  const Bearer: string := "Bearer "

  /** `authHeader.split(" ")[1]`, `None` when there is no second part. */
  function TokenOf(header: string): (t: Option<string>)
    ensures t.Some? ==> ' ' !in t.value
  {
    var parts := Split(header, ' ');
    if |parts| > 1 then Some(parts[1]) else None
  }

  /** After "Bearer " the token is always defined: it is the text up to the next space. */
  lemma {:induction false} TokenAfterBearer(rest: string)
    ensures TokenOf(Bearer + rest) == Some(Split(rest, ' ')[0])
  {
    assert Bearer + rest == "Bearer" + (" " + rest);
    SplitPrefix("Bearer", " " + rest, ' ');
    assert (" " + rest)[1..] == rest;
    assert Split(" " + rest, ' ') == [[]] + Split(rest, ' ');
  }

  /** A header holding one token and nothing after it yields exactly that token. */
  lemma BearerTokenRoundTrip(token: string)
    requires ' ' !in token
    ensures TokenOf(Bearer + token) == Some(token)
  {
    TokenAfterBearer(token);
    SplitPrefix(token, [], ' ');
    assert token + [] == token;
  }

  /** The middleware's decision: the id of the user to attach, or the 401 it answers. */
  function AuthDecision(header: Option<string>, users: map<string, User>, verify: string -> Verified): (r: Reply<string>)
    ensures header.None? || !StartsWith(header.value, Bearer) ==> r == Err(401, "Unauthorized: No token provided")
    ensures r.Ok? ==> r.value in users && header.Some? && StartsWith(header.value, Bearer)
                      && TokenOf(header.value).Some? && verify(TokenOf(header.value).value) == Decoded(Some(r.value))
    ensures r.Err? ==> r.code == 401
    ensures (header.Some? && StartsWith(header.value, Bearer) && TokenOf(header.value).Some?
             && verify(TokenOf(header.value).value).Decoded? && verify(TokenOf(header.value).value).id.Some?
             && verify(TokenOf(header.value).value).id.value in users)
            ==> r == Ok(verify(TokenOf(header.value).value).id.value)
  {
    if header.None? || !StartsWith(header.value, Bearer) then Err(401, "Unauthorized: No token provided")
    else
      var h := header.value;
      assert h == Bearer + h[|Bearer|..];
      TokenAfterBearer(h[|Bearer|..]);
      match verify(TokenOf(h).value)
      case Expired => Err(401, "Unauthorized: Token expired")
      case Invalid => Err(401, "Unauthorized: Invalid token")
      case Decoded(id) =>
        if id.None? || id.value !in users then Err(401, "Unauthorized: User not found")
        else Ok(id.value)
  }

  /** Expiry is reported as such; every other verification failure as an invalid token. */
  lemma ErrorClassification(token: string, users: map<string, User>, verify: string -> Verified)
    requires ' ' !in token
    ensures verify(token) == Expired ==> AuthDecision(Some(Bearer + token), users, verify) == Err(401, "Unauthorized: Token expired")
    ensures verify(token) == Invalid ==> AuthDecision(Some(Bearer + token), users, verify) == Err(401, "Unauthorized: Invalid token")
    ensures (verify(token).Decoded? && (verify(token).id.None? || verify(token).id.value !in users)) ==>
              AuthDecision(Some(Bearer + token), users, verify) == Err(401, "Unauthorized: User not found")
  {
    BearerTokenRoundTrip(token);
    assert StartsWith(Bearer + token, Bearer);
  }

  /** A Bearer header whose token decodes to the id of a stored user is admitted as that user. */
  lemma KnownUserAdmitted(token: string, id: string, users: map<string, User>, verify: string -> Verified)
    requires ' ' !in token
    ensures verify(token) == Decoded(Some(id)) && id in users ==> AuthDecision(Some(Bearer + token), users, verify) == Ok(id)
  {
    BearerTokenRoundTrip(token);
    assert StartsWith(Bearer + token, Bearer);
  }

  /** A user as the middleware selects it: `_id name email isAdmin phone address`, and nothing else. */
  datatype AuthUser = AuthUser(id: string, name: string, email: string, isAdmin: Option<bool>, phone: string, address: Address)

  function Selected(id: string, u: User): AuthUser
  {
    AuthUser(id, u.name, u.email, u.isAdmin, u.phone, u.address)
  }

  /** The request object the middleware decorates; `nextCalls` counts calls of `next()`. */
  class Request {
    var user: Option<AuthUser>
    var userId: Option<string>
    var nextCalls: nat

    constructor()
      ensures user.None? && userId.None? && nextCalls == 0
    {
      user := None;
      userId := None;
      nextCalls := 0;
    }
  }

  /** Runs the middleware: on success the user and id are attached and `next` runs once; otherwise the request is untouched. */
  method Authenticate(req: Request, header: Option<string>, users: map<string, User>, verify: string -> Verified)
    returns (r: Reply<string>)
    modifies req
    ensures r == AuthDecision(header, users, verify)
    ensures r.Ok? ==> req.user == Some(AuthUser(r.value, users[r.value].name, users[r.value].email, users[r.value].isAdmin,
                                                 users[r.value].phone, users[r.value].address))
                      && req.userId == Some(r.value)
                      && req.nextCalls == old(req.nextCalls) + 1
    ensures r.Err? ==> req.user == old(req.user) && req.userId == old(req.userId) && req.nextCalls == old(req.nextCalls)
  {
    r := AuthDecision(header, users, verify);
    if r.Ok? {
      req.user := Some(Selected(r.value, users[r.value]));
      req.userId := Some(r.value);
      req.nextCalls := req.nextCalls + 1;
    }
  }
}
