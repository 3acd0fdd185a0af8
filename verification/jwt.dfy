/** Identity claims, the call context slot that carries them, and the
    decoding of a signed token (RFC 7519 claims, HS256 signing as in
    section 3.2 of RFC 7518). Signature computation and verification are
    abstract: a token is described by what its header and payload say and by
    the key its signature was computed with. */
module Jwt {
  import opened Options
  import opened Grpc
  import Response

  /** The registered claims the code base uses (subject, issued-at,
      expires-at, in seconds) plus its three custom fields. */
  datatype Claims = Claims(
    subject: string,
    fullName: string,
    email: string,
    roleCode: string,
    issuedAt: int,
    expiresAt: int)

  /** Incoming call metadata: each key maps to the list of its values. */
  type Metadata = map<string, seq<string>>

  /** The per-call context, reduced to what the core reads and writes: the
      incoming metadata (absent when the call carried none) and the values
      stored under context keys. */
  datatype Context = Context(incoming: Option<Metadata>, values: map<string, Claims>)

  /** The fixed context key the decoded claims are stored under. */
  const JwtEntityContextValue: string := "JwtEntity"

  /** Store the claims under the identity key; nothing else changes. */
  function SetToContext(claims: Claims, ctx: Context): (r: Context)
    ensures JwtEntityContextValue in r.values && r.values[JwtEntityContextValue] == claims
    ensures r.incoming == ctx.incoming
    ensures forall k :: k != JwtEntityContextValue ==>
              (k in r.values <==> k in ctx.values) && (k in ctx.values ==> r.values[k] == ctx.values[k])
  {
    ctx.(values := ctx.values[JwtEntityContextValue := claims])
  }

  /** The identity downstream code reads back; absence means the call is
      unauthenticated, never a default identity. */
  function GetClaimsFromContext(ctx: Context): (r: Option<Claims>)
    ensures r.Some? <==> JwtEntityContextValue in ctx.values
    ensures r.Some? ==> r.value == ctx.values[JwtEntityContextValue]
  {
    if JwtEntityContextValue in ctx.values then Some(ctx.values[JwtEntityContextValue]) else None
  }

  /** Reading the slot after storing into it yields exactly the stored claims. */
  lemma ContextRoundTrip(claims: Claims, ctx: Context)
    ensures GetClaimsFromContext(SetToContext(claims, ctx)) == Some(claims)
  {
  }

  /** Signing algorithms a token header can name ("alg", section 3.1 of RFC 7518). */
  datatype Alg = HS256 | HS384 | HS512 | RS256 | RS512 | ES256 | PS256 | NoneAlg

  /** The HMAC family, the only one the server accepts. */
  predicate IsHmac(alg: Alg)
  {
    alg == HS256 || alg == HS384 || alg == HS512
  }

  /** A payload either decodes into the server's claims type or into some
      other claims value. */
  datatype Payload = JwtClaims(claims: Claims) | OtherClaims

  /** What a token string is: not a token at all, or a header algorithm, the
      key its signature was computed with, and its payload. A forged or
      altered token is one whose signing key is not the server's secret. */
  datatype TokenView = Malformed | Signed(alg: Alg, key: string, payload: Payload)

  /** The process-wide token codec: the shared secret, how a token string
      reads, and HS256 signing (which may fail). */
  datatype Codec = Codec(secret: string, view: string -> TokenView, sign: Claims -> Option<string>)

  /** Signing is sound when every token it produces reads back as an HS256
      token over the same claims, signed with the secret. */
  ghost predicate SoundSigner(codec: Codec)
  {
    forall c :: codec.sign(c).Some? ==>
      codec.view(codec.sign(c).value) == Signed(HS256, codec.secret, JwtClaims(c))
  }

  /** What the token library hands back: an error, or a token with its
      validity flag and its claims. */
  datatype Parsed = ParseFailed(reason: Error) | Token(valid: bool, payload: Payload)

  /** The key callback: only HMAC tokens get the secret; any other algorithm
      is refused, which closes the algorithm-substitution forgery. */
  function KeyFunc(alg: Alg, secret: string): (r: Result<string, Error>)
    ensures r.Success? <==> IsHmac(alg)
    ensures r.Success? ==> r.value == secret
  {
    if IsHmac(alg) then Success(secret)
    else Failure(Plain("unexpected token signing method"))
  }

  /** Stand-in for the library's `ParseWithClaims`: structure, then the key
      callback, then the signature, then expiry (valid while `now` is before
      expires-at). */
  function ParseWithClaims(v: TokenView, secret: string, now: int): (p: Parsed)
    ensures p.Token? <==>
              v.Signed? && IsHmac(v.alg) && v.key == secret &&
              (v.payload.JwtClaims? ==> now < v.payload.claims.expiresAt)
    ensures p.Token? ==> p.valid && p.payload == v.payload
  {
    match v
    case Malformed => ParseFailed(Plain("token is malformed"))
    case Signed(alg, key, payload) =>
      match KeyFunc(alg, secret)
      case Failure(e) => ParseFailed(e)
      case Success(k) =>
        if key != k then ParseFailed(Plain("token signature is invalid"))
        else if payload.JwtClaims? && !(now < payload.claims.expiresAt) then
          ParseFailed(Plain("token is expired"))
        else Token(true, payload)
  }

  /** Map the library's answer to claims or to the single Unauthenticated
      error: a parse error, an invalid token and a foreign claims type all
      look the same to the caller. */
  function GetClaimsFromToken(p: Parsed): (r: Result<Claims, Error>)
    ensures r.Failure? ==> r.error == Response.UnauthenticatedResponse()
    ensures r.Success? <==> p.Token? && p.valid && p.payload.JwtClaims?
    ensures r.Success? ==> r.value == p.payload.claims
  {
    match p
    case ParseFailed(_) => Failure(Response.UnauthenticatedResponse())
    case Token(valid, payload) =>
      if !valid then Failure(Response.UnauthenticatedResponse())
      else match payload
        case JwtClaims(c) => Success(c)
        case OtherClaims => Failure(Response.UnauthenticatedResponse())
  }

  /** Decoding a token string at time `now` with the process codec. */
  function DecodeToken(codec: Codec, token: string, now: int): (r: Result<Claims, Error>)
    ensures r.Failure? ==> r.error == Response.UnauthenticatedResponse()
    ensures r.Success? <==>
              codec.view(token).Signed? && IsHmac(codec.view(token).alg) &&
              codec.view(token).key == codec.secret && codec.view(token).payload.JwtClaims? &&
              now < codec.view(token).payload.claims.expiresAt
    ensures r.Success? ==> r.value == codec.view(token).payload.claims
  {
    GetClaimsFromToken(ParseWithClaims(codec.view(token), codec.secret, now))
  }

  /** A token naming a non-HMAC algorithm never decodes, whatever key signed
      it and whatever it claims. */
  lemma NonHmacRejected(codec: Codec, token: string, now: int)
    requires codec.view(token).Signed? && !IsHmac(codec.view(token).alg)
    ensures DecodeToken(codec, token, now) == Failure(Response.UnauthenticatedResponse())
  {
  }

  /** A token signed with any key but the secret never decodes, whatever
      its expiry. */
  lemma ForeignKeyRejected(codec: Codec, token: string, now: int)
    requires codec.view(token).Signed? && codec.view(token).key != codec.secret
    ensures DecodeToken(codec, token, now) == Failure(Response.UnauthenticatedResponse())
  {
  }
}
