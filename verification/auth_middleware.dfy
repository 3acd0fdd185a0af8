/** The authentication stage: a fixed-order decision per call (public
    method?, bearer token present?, token revoked?, token decodes?) that
    either forwards the call, with the claims stored in its context, or
    rejects it with the single Unauthenticated error. */
module AuthStage {
  import opened Options
  import opened Grpc
  import opened Jwt
  import opened JwtParse
  import opened Cache
  import Response

  /** A unary handler: the next stage, or the service method itself. */
  type Handler = (Context, Request) -> Outcome

  /** What the stage decides before the handler runs. */
  datatype Decision = Proceed(ctx: Context) | Deny(err: Error)

  /** The whitelist built from the configured public names: a set, so
      duplicates collapse. */
  method BuildWhitelist(publicEndpoints: seq<string>) returns (whitelist: set<string>)
    ensures forall e :: e in whitelist <==> e in publicEndpoints
    ensures |whitelist| <= |publicEndpoints|
  {
    whitelist := {};
    for i := 0 to |publicEndpoints|
      invariant forall e :: e in whitelist <==> e in publicEndpoints[..i]
      invariant |whitelist| <= i
    {
      whitelist := whitelist + {publicEndpoints[i]};
    }
    assert publicEndpoints[..|publicEndpoints|] == publicEndpoints;
  }

  /** The per-call decision, over a snapshot of the revocation cache. */
  function Authorize(whitelist: set<string>, revoked: map<string, int>, codec: Codec,
                     now: int, fullMethod: string, ctx: Context): (d: Decision)
    ensures d.Deny? ==> d.err == Response.UnauthenticatedResponse()
    ensures fullMethod in whitelist ==> d == Proceed(ctx)
    ensures fullMethod !in whitelist ==>
              (d.Proceed? <==>
                 && ParseTokenFromContext(ctx).Success?
                 && !Found(revoked, ParseTokenFromContext(ctx).value, now)
                 && DecodeToken(codec, ParseTokenFromContext(ctx).value, now).Success?)
    ensures fullMethod !in whitelist && d.Proceed? ==>
              d.ctx == SetToContext(DecodeToken(codec, ParseTokenFromContext(ctx).value, now).value, ctx)
  {
    if fullMethod in whitelist then Proceed(ctx)
    else match ParseTokenFromContext(ctx)
      case Failure(_) => Deny(Response.UnauthenticatedResponse())
      case Success(token) =>
        if Found(revoked, token, now) then Deny(Response.UnauthenticatedResponse())
        else match DecodeToken(codec, token, now)
          case Failure(_) => Deny(Response.UnauthenticatedResponse())
          case Success(claims) => Proceed(SetToContext(claims, ctx))
  }

  /** Carry a decision out: run the handler on the forwarded context, or
      answer with the rejection without running it. */
  function Intercept(d: Decision, req: Request, handler: Handler): Outcome
  {
    match d
    case Proceed(ctx) => handler(ctx, req)
    case Deny(e) => Returned(Nil, Some(e))
  }

  class AuthMiddleware {
    const cache: RevocationCache
    const whitelist: set<string>
    const codec: Codec

    /** `NewAuthMiddleware`: share the cache, build the whitelist. */
    constructor(cache: RevocationCache, publicEndpoints: seq<string>, codec: Codec)
      ensures this.cache == cache && this.codec == codec
      ensures forall e :: e in whitelist <==> e in publicEndpoints
    {
      var w := BuildWhitelist(publicEndpoints);
      this.cache := cache;
      this.whitelist := w;
      this.codec := codec;
    }

    /** The interceptor itself; the clock reading is a parameter. */
    method Middleware(ctx: Context, req: Request, fullMethod: string, handler: Handler, now: int)
      returns (res: Outcome)
      ensures res == Intercept(Authorize(whitelist, cache.entries, codec, now, fullMethod, ctx), req, handler)
    {
      if fullMethod in whitelist {
        return handler(ctx, req);
      }
      var token := ParseTokenFromContext(ctx);
      if token.Failure? {
        return Returned(Nil, Some(Response.UnauthenticatedResponse()));
      }
      var found := cache.Get(token.value, now);
      if found {
        return Returned(Nil, Some(Response.UnauthenticatedResponse()));
      }
      var claims := DecodeToken(codec, token.value, now);
      if claims.Failure? {
        return Returned(Nil, Some(Response.UnauthenticatedResponse()));
      }
      var authed := SetToContext(claims.value, ctx);
      res := handler(authed, req);
    }
  }

  /** A public method reaches the handler with the original context and
      request, whatever the metadata and the cache hold. */
  lemma PublicMethodPassesThrough(whitelist: set<string>, revoked: map<string, int>, codec: Codec,
                                  now: int, fullMethod: string, ctx: Context, req: Request, handler: Handler)
    requires fullMethod in whitelist
    ensures Intercept(Authorize(whitelist, revoked, codec, now, fullMethod, ctx), req, handler) == handler(ctx, req)
  {
  }

  /** A rejected call never reaches the handler: any two handlers give the
      same answer, the Unauthenticated error with a nil response. */
  lemma RejectionSkipsHandler(d: Decision, req: Request, h1: Handler, h2: Handler)
    requires d.Deny?
    ensures Intercept(d, req, h1) == Intercept(d, req, h2) == Returned(Nil, Some(d.err))
  {
  }

  /** A revoked token is refused even when it would decode: the cache is
      consulted first. */
  lemma {:induction false} RevokedTokenRejected(whitelist: set<string>, revoked: map<string, int>, codec: Codec,
                             now: int, fullMethod: string, ctx: Context, token: string)
    requires fullMethod !in whitelist
    requires ParseTokenFromContext(ctx) == Success(token)
    requires Found(revoked, token, now)
    ensures Authorize(whitelist, revoked, codec, now, fullMethod, ctx) == Deny(Response.UnauthenticatedResponse())
  {
  }

  /** On success the handler's context carries exactly the decoded claims. */
  lemma {:induction false} ForwardedContextCarriesClaims(whitelist: set<string>, revoked: map<string, int>,
                                       codec: Codec, now: int, fullMethod: string, ctx: Context)
    requires fullMethod !in whitelist
    requires Authorize(whitelist, revoked, codec, now, fullMethod, ctx).Proceed?
    ensures GetClaimsFromContext(Authorize(whitelist, revoked, codec, now, fullMethod, ctx).ctx) ==
            Some(DecodeToken(codec, ParseTokenFromContext(ctx).value, now).value)
  {
  }
}
