/** The authentication middleware: parsing a `Bearer` Authorization header,
    the signing-key lookup, and the request user it leaves behind together
    with whether it continues to the next handler. Token decoding, the key
    set and signature checking are parameters. */
module AuthMiddleware {
  import opened Wrappers
  import opened Js
  import Strings

  /** The claims of a verified token. */
  type Claims = map<string, Value>

  /** The header of a token, of which only the key id is read. */
  datatype JwtHeader = JwtHeader(kid: Value)

  /** A key object from the key set; `publicKey` is `None` when the object has
      no `getPublicKey` function. */
  datatype SigningKey = SigningKey(publicKey: Option<string>)

  /** The key set's answer for a key id: an error, or a key object that may be
      missing. */
  datatype KeyFetch = FetchFailed(message: string) | Fetched(key: Option<SigningKey>)

  const NoKidMessage: string := "No KID specified in JWT header"
  const InvalidKeyMessage: string := "Invalid key object"

  /** `getKey`: the public key for a token header, or the error handed to the
      callback. */
  function GetKey(header: JwtHeader, fetchSigningKey: Value -> KeyFetch): (r: Result<string, string>)
    ensures !Truthy(header.kid) ==> r == Err(NoKidMessage)
    ensures r.Ok? ==> Truthy(header.kid) && fetchSigningKey(header.kid) == Fetched(Some(SigningKey(Some(r.value))))
    ensures Truthy(header.kid) && fetchSigningKey(header.kid).FetchFailed? ==>
      r == Err(fetchSigningKey(header.kid).message)
    ensures Truthy(header.kid) && fetchSigningKey(header.kid).Fetched?
            && fetchSigningKey(header.kid).key.Some? && fetchSigningKey(header.kid).key.value.publicKey.Some? ==>
      r == Ok(fetchSigningKey(header.kid).key.value.publicKey.value)
  {
    if !Truthy(header.kid) then Err(NoKidMessage)
    else
      match fetchSigningKey(header.kid)
      case FetchFailed(message) => Err(message)
      case Fetched(key) =>
        if key.None? || key.value.publicKey.None? then Err(InvalidKeyMessage)
        else Ok(key.value.publicKey.value)
  }

  /** A missing key object, or one without `getPublicKey`, is an invalid key. */
  lemma GetKeyRejectsUnusableKey(header: JwtHeader, fetchSigningKey: Value -> KeyFetch)
    requires Truthy(header.kid)
    requires fetchSigningKey(header.kid) in {Fetched(None), Fetched(Some(SigningKey(None)))}
    ensures GetKey(header, fetchSigningKey) == Err(InvalidKeyMessage)
  {
  }

  /** What decoding a token gives: its header, a malformed-token error handed
      to the verification callback, or an exception thrown synchronously. */
  datatype Decoded = Token(header: JwtHeader) | Malformed(message: string) | Throws(message: string)

  /** The token library: decoding, the key set, and the check of a token's
      signature, audience, issuer and algorithm against a public key. */
  datatype JwtLibrary = JwtLibrary(
    decode: string -> Decoded,
    fetchSigningKey: Value -> KeyFetch,
    checkSignature: (string, string) -> Result<Claims, string>)

  /** The result of verifying a token: its claims, an error passed to the
      callback, or an exception. */
  datatype Verification = Verified(claims: Claims) | Failed(message: string) | Thrown(message: string)

  /** The token library's wrapping of an error from the key source. */
  const KeyCallbackPrefix: string := "error in secret or public key callback: "

  /** Verifying a token with `getKey` as the key source: it verifies exactly
      when it decodes, its key is found and the signature check against that
      key succeeds, and then the claims are the signature check's. */
  function Verify(token: string, lib: JwtLibrary): (v: Verification)
    ensures v.Verified? ==>
      && lib.decode(token).Token?
      && GetKey(lib.decode(token).header, lib.fetchSigningKey).Ok?
      && lib.checkSignature(token, GetKey(lib.decode(token).header, lib.fetchSigningKey).value) == Ok(v.claims)
    ensures lib.decode(token).Token?
            && GetKey(lib.decode(token).header, lib.fetchSigningKey).Ok?
            && lib.checkSignature(token, GetKey(lib.decode(token).header, lib.fetchSigningKey).value).Ok? ==>
      v == Verified(lib.checkSignature(token, GetKey(lib.decode(token).header, lib.fetchSigningKey).value).value)
    ensures lib.decode(token).Token? && GetKey(lib.decode(token).header, lib.fetchSigningKey).Err? ==>
      v == Failed(KeyCallbackPrefix + GetKey(lib.decode(token).header, lib.fetchSigningKey).error)
  {
    match lib.decode(token)
    case Throws(message) => Thrown(message)
    case Malformed(message) => Failed(message)
    case Token(header) =>
      match GetKey(header, lib.fetchSigningKey)
      case Err(message) => Failed(KeyCallbackPrefix + message)
      case Ok(key) =>
        match lib.checkSignature(token, key)
        case Err(message) => Failed(message)
        case Ok(claims) => Verified(claims)
  }

  /** A token whose header has no key id never verifies. */
  lemma NoKidNeverVerifies(token: string, lib: JwtLibrary)
    requires lib.decode(token).Token? && !Truthy(lib.decode(token).header.kid)
    ensures Verify(token, lib) == Failed(KeyCallbackPrefix + NoKidMessage)
  {
  }

  const BearerPrefix: string := "Bearer "

  /** `authorization.split(" ")[1]` for a header that starts with "Bearer ":
      the text after "Bearer " up to the next space. */
  function BearerToken(authorization: string): (r: Option<string>)
    ensures r.Some? <==> Strings.StartsWith(authorization, BearerPrefix)
    ensures r.Some? ==> ' ' !in r.value && Strings.StartsWith(authorization, BearerPrefix + r.value)
    ensures r.Some? ==>
      |authorization| == |BearerPrefix| + |r.value| || authorization[|BearerPrefix| + |r.value|] == ' '
  {
    if Strings.StartsWith(authorization, BearerPrefix) then
      var rest := authorization[|BearerPrefix|..];
      assert authorization == "Bearer" + [' '] + rest;
      Strings.SecondSegment("Bearer", ' ', rest);
      Strings.SegmentAt(authorization, ' ', 1)
    else None
  }

  /** Token values that stand for "no token". */
  predicate IsPlaceholder(token: string): (r: bool)
    ensures r <==> !Truthy(Str(token)) || token == "null" || token == "undefined"
  {
    token == "" || token == "null" || token == "undefined"
  }

  /** What the middleware leaves behind: the request user (`None` for null)
      and whether it calls the next handler. */
  datatype AuthDecision = AuthDecision(user: Option<Claims>, callsNext: bool)

  /** The middleware's decision for an Authorization header: a user is only
      ever set together with a call of the next handler, and a request
      without a header continues anonymously. */
  function Authenticate(authorization: Option<string>, lib: JwtLibrary): (d: AuthDecision)
    ensures d.user.Some? ==> d.callsNext
    ensures authorization.None? ==> d == AuthDecision(None, true)
  {
    if authorization.None? || authorization.value == "" || BearerToken(authorization.value).None? then
      AuthDecision(None, true)
    else
      var token := BearerToken(authorization.value).value;
      if IsPlaceholder(token) then AuthDecision(None, false)
      else
        match Verify(token, lib)
        case Verified(claims) => AuthDecision(Some(claims), true)
        case _ => AuthDecision(None, true)
  }

  /** A request as the middleware sees it. */
  class Request {
    const authorization: Option<string>
    var user: Option<Claims>
    var nextCalls: nat

    constructor (authorization: Option<string>)
      ensures this.authorization == authorization && user == None && nextCalls == 0
    {
      this.authorization := authorization;
      user := None;
      nextCalls := 0;
    }
  }

  /** `authMiddleware`: sets the request user on every path and calls the next
      handler at most once, as `Authenticate` decides. */
  method Run(req: Request, lib: JwtLibrary)
    modifies req
    ensures req.user == Authenticate(req.authorization, lib).user
    ensures req.nextCalls == old(req.nextCalls) + (if Authenticate(req.authorization, lib).callsNext then 1 else 0)
  {
    if req.authorization.None? || req.authorization.value == ""
       || !Strings.StartsWith(req.authorization.value, BearerPrefix) {
      req.user := None;
      req.nextCalls := req.nextCalls + 1;
      return;
    }
    var token := BearerToken(req.authorization.value).value;
    if IsPlaceholder(token) {
      req.user := None;
      return;
    }
    var verification := Verify(token, lib);
    if verification.Verified? {
      req.user := Some(verification.claims);
    } else {
      req.user := None;
    }
    req.nextCalls := req.nextCalls + 1;
  }

  /** No header, or one that does not start with "Bearer ", leaves no user and
      continues. */
  lemma NoBearerHeaderContinuesAnonymously(authorization: Option<string>, lib: JwtLibrary)
    requires authorization.None? || !Strings.StartsWith(authorization.value, BearerPrefix)
    ensures Authenticate(authorization, lib) == AuthDecision(None, true)
  {
  }

  /** A header "Bearer " followed by text without spaces carries that text as
      its token. */
  lemma {:induction false} BearerTokenOfSpaceFreeRest(rest: string)
    requires ' ' !in rest
    ensures BearerToken(BearerPrefix + rest) == Some(rest)
  {
    var auth := BearerPrefix + rest;
    assert auth[..|BearerPrefix|] == BearerPrefix;
    var token := BearerToken(auth).value;
    assert auth[..|BearerPrefix| + |token|] == BearerPrefix + token;
    assert token == auth[|BearerPrefix|..|BearerPrefix| + |token|];
    assert auth[|BearerPrefix|..] == rest;
    assert token == rest[..|token|];
    assert rest[..|rest|] == rest;
  }

  /** An empty, "null" or "undefined" token leaves no user and does not
      continue: the request is left without a response. */
  lemma PlaceholderTokenStops(rest: string, lib: JwtLibrary)
    requires rest == "" || rest == "null" || rest == "undefined"
    ensures Authenticate(Some(BearerPrefix + rest), lib) == AuthDecision(None, false)
  {
    assert ' ' !in rest;
    BearerTokenOfSpaceFreeRest(rest);
  }

  /** The middleware stops without calling the next handler exactly for a
      Bearer header whose token is a placeholder. */
  lemma StopsExactlyOnPlaceholder(authorization: Option<string>, lib: JwtLibrary)
    ensures !Authenticate(authorization, lib).callsNext <==>
      authorization.Some? && BearerToken(authorization.value).Some?
      && IsPlaceholder(BearerToken(authorization.value).value)
  {
  }

  /** A token that fails verification, by a callback error or an exception,
      leaves no user and continues. */
  lemma FailedVerificationContinuesAnonymously(authorization: string, lib: JwtLibrary)
    requires BearerToken(authorization).Some? && !IsPlaceholder(BearerToken(authorization).value)
    requires !Verify(BearerToken(authorization).value, lib).Verified?
    ensures Authenticate(Some(authorization), lib) == AuthDecision(None, true)
  {
  }

  /** A header carrying a token that verifies sets the request user to the
      token's claims and continues. */
  lemma VerifiedTokenSetsUser(authorization: string, lib: JwtLibrary)
    requires BearerToken(authorization).Some? && !IsPlaceholder(BearerToken(authorization).value)
    requires Verify(BearerToken(authorization).value, lib).Verified?
    ensures Authenticate(Some(authorization), lib)
         == AuthDecision(Some(Verify(BearerToken(authorization).value, lib).claims), true)
  {
  }

  /** A well-formed token whose key is found and whose signature, audience,
      issuer and algorithm check out verifies to the checked claims. */
  lemma UsableKeyVerifies(token: string, lib: JwtLibrary, key: string)
    requires lib.decode(token).Token? && Truthy(lib.decode(token).header.kid)
    requires lib.fetchSigningKey(lib.decode(token).header.kid) == Fetched(Some(SigningKey(Some(key))))
    requires lib.checkSignature(token, key).Ok?
    ensures Verify(token, lib) == Verified(lib.checkSignature(token, key).value)
  {
  }

  /** The request user is set only from the claims of the header's own token,
      after verification succeeded, and then the next handler is called. */
  lemma UserComesFromVerifiedToken(authorization: Option<string>, lib: JwtLibrary)
    requires Authenticate(authorization, lib).user.Some?
    ensures authorization.Some? && BearerToken(authorization.value).Some?
    ensures Verify(BearerToken(authorization.value).value, lib) == Verified(Authenticate(authorization, lib).user.value)
    ensures Authenticate(authorization, lib).callsNext
  {
  }
}
