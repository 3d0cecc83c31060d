/** The guard on admin routes (src/modules/iam/auth/strategies/jwt.strategy.ts):
    the strategy cannot be built without an access secret; a request's
    bearer token must carry a valid signature under that secret and must
    not have expired (expiration is not ignored); and the payload it
    carries must have a truthy `sub`. The payload is then passed on
    unchanged. */
module JwtStrategy {
  import opened Wrappers
  import opened Json
  import opened Errors
  import opened Jwt

  /** The options handed to passport-jwt. */
  datatype StrategyOptions = StrategyOptions(secretOrKey: string, ignoreExpiration: bool)

  /** The constructor: fails fast when JWT_ACCESS_SECRET is unset or
      empty. */
  function Construct(secret: Option<string>): (r: Result<StrategyOptions, Failure>)
    ensures r.Err? <==> secret.None? || secret.value == ""
    ensures r.Err? ==> r.error == Internal("JWT_ACCESS_SECRET is not defined in .env")
    ensures r.Ok? ==> r.value == StrategyOptions(secret.value, false)
  {
    if secret.None? || secret.value == "" then Err(Internal("JWT_ACCESS_SECRET is not defined in .env"))
    else Ok(StrategyOptions(secret.value, false))
  }

  /** `payload.sub` is truthy. */
  predicate HasSubject(payload: Json) {
    match Get(payload, "sub")
    case Some(v) => Truthy(v)
    case None => false
  }

  /** `validate(payload)`. */
  function Validate(payload: Json): (r: Result<Json, Failure>)
    ensures r.Ok? <==> Truthy(payload) && HasSubject(payload)
    ensures r.Ok? ==> r.value == payload
    ensures r.Err? ==> r.error == Unauthorized("Invalid token payload")
  {
    if !Truthy(payload) || !HasSubject(payload) then Err(Unauthorized("Invalid token payload"))
    else Ok(payload)
  }

  /** A request through the guard: the token checked by passport-jwt, then
      its payload by `validate`. */
  function Authenticate(options: StrategyOptions, token: string, now: nat): (r: Result<Json, Failure>)
    ensures r.Ok? ==> Verify(token, options.secretOrKey, now, options.ignoreExpiration) == Some(r.value)
    ensures r.Ok? ==> Truthy(r.value) && HasSubject(r.value)
    ensures var v := Verify(token, options.secretOrKey, now, options.ignoreExpiration);
            v.Some? && Truthy(v.value) && HasSubject(v.value) ==> r == Ok(v.value)
    ensures Verify(token, options.secretOrKey, now, options.ignoreExpiration).None? ==>
            r == Err(Unauthorized("Unauthorized"))
  {
    match Verify(token, options.secretOrKey, now, options.ignoreExpiration)
    case None => Err(Unauthorized("Unauthorized"))
    case Some(payload) => Validate(payload)
  }

  /** With the strategy built from the access secret, a token signed under
      that secret passes while it is live and its subject is not empty,
      and yields the signed payload; once it has expired it is refused;
      an empty subject is refused even on a live token. */
  lemma SignedTokenPasses(secret: string, c: Claims, expiresIn: nat, iat: nat, now: nat)
    requires secret != ""
    ensures var options := Construct(Some(secret)).value;
            var token := Sign(c, secret, expiresIn, iat);
            && (iat <= now < iat + expiresIn && c.sub != "" ==>
                  Authenticate(options, token, now) == Ok(Payload(c, iat, iat + expiresIn)))
            && (iat + expiresIn <= now ==> Authenticate(options, token, now).Err?)
            && (iat <= now < iat + expiresIn && c.sub == "" ==>
                  Authenticate(options, token, now) == Err(Unauthorized("Invalid token payload")))
  {
    var options := Construct(Some(secret)).value;
    assert options == StrategyOptions(secret, false);
    var p := Payload(c, iat, iat + expiresIn);
    PayloadExp(c, iat, iat + expiresIn);
    assert HasSubject(p) <==> c.sub != "";
    if iat <= now < iat + expiresIn {
      VerifySigned(c, secret, expiresIn, iat, now);
      assert Authenticate(options, Sign(c, secret, expiresIn, iat), now) == Validate(p);
    }
    if iat + expiresIn <= now {
      VerifyRejectsExpired(c, secret, expiresIn, iat, now);
    }
  }
}
