/** The server's fixed configuration: the public method names and the
    interceptor chain, error stage outermost and authentication stage
    inside it, with the revocation cache shared between the logout
    operation and the authentication stage. */
module Server {
  import opened Options
  import opened Grpc
  import opened Jwt
  import opened JwtParse
  import opened Cache
  import opened AuthStage
  import opened ErrorStage
  import AuthService
  import Response

  /** The methods reachable without a token. */
  const PublicEndpoints: seq<string> := [
    "/auth.AuthService/Login",
    "/auth.AuthService/Register",
    "/product.ProductService/DetailProduct",
    "/product.ProductService/ListProducts",
    "/product.ProductService/HighlightProducts"
  ]

  /** One unary call through the chain: the error stage wraps the
      authentication stage, which wraps the service handler. */
  function Serve(whitelist: set<string>, revoked: map<string, int>, codec: Codec, now: int,
                 fullMethod: string, ctx: Context, req: Request, handler: Handler): (o: Outcome)
    ensures OnWire(o)
  {
    ErrorMiddleware(ctx, req, (c: Context, r: Request) => Intercept(Authorize(whitelist, revoked, codec, now, fullMethod, c), r, handler))
  }

  /** The configured public names are whitelisted; logout and the cart
      methods are not. */
  lemma {:induction false} PublicEndpointsWhitelisted(whitelist: set<string>)
    requires forall e :: e in whitelist <==> e in PublicEndpoints
    ensures "/auth.AuthService/Login" in whitelist && "/auth.AuthService/Register" in whitelist
    ensures "/product.ProductService/ListProducts" in whitelist
    ensures "/auth.AuthService/Logout" !in whitelist && "/cart.CartService/AddProductToCart" !in whitelist
  {
    assert PublicEndpoints[0] == "/auth.AuthService/Login" && PublicEndpoints[1] == "/auth.AuthService/Register";
    assert PublicEndpoints[3] == "/product.ProductService/ListProducts";
  }

  /** A public method reaches its handler with the caller's own context;
      only the error stage acts on the outcome. */
  lemma PublicCallReachesHandler(whitelist: set<string>, revoked: map<string, int>, codec: Codec, now: int,
                                 fullMethod: string, ctx: Context, req: Request, handler: Handler)
    requires fullMethod in whitelist
    ensures Serve(whitelist, revoked, codec, now, fullMethod, ctx, req, handler) == Normalize(handler(ctx, req))
  {
  }

  /** A call to any other method without metadata never reaches its
      handler and is answered with the Unauthenticated status. */
  lemma AnonymousCallRejected(whitelist: set<string>, revoked: map<string, int>, codec: Codec, now: int,
                              fullMethod: string, ctx: Context, req: Request, handler: Handler)
    requires fullMethod !in whitelist && ctx.incoming.None?
    ensures Serve(whitelist, revoked, codec, now, fullMethod, ctx, req, handler) ==
            Returned(Nil, Some(Response.UnauthenticatedResponse()))
  {
  }

  /** A token whose cache entry is the one logout wrote is refused from the
      logout on, for ever: by the cache until the token's own expiry, by
      the expiry check after it. */
  lemma LoggedOutTokenNeverAccepted(whitelist: set<string>, revoked: map<string, int>, codec: Codec,
                                    loggedOutAt: int, later: int, fullMethod: string, ctx: Context, token: string)
    requires fullMethod !in whitelist && loggedOutAt <= later
    requires ParseTokenFromContext(ctx) == Success(token)
    requires DecodeToken(codec, token, loggedOutAt).Success?
    requires token in revoked && revoked[token] == DecodeToken(codec, token, loggedOutAt).value.expiresAt
    ensures Authorize(whitelist, revoked, codec, later, fullMethod, ctx) == Deny(Response.UnauthenticatedResponse())
  {
    var expiry := DecodeToken(codec, token, loggedOutAt).value.expiresAt;
    if later <= expiry {
      assert Found(revoked, token, later);
    } else {
      assert DecodeToken(codec, token, later).Failure?;
    }
  }

  /** Logout followed by a call presenting the same token, through the
      shared cache: once logout succeeds the call is refused without
      reaching its handler. */
  method LogoutThenCall(auth: AuthService.AuthService, stage: AuthMiddleware, ctx: Context, req: Request,
                        fullMethod: string, handler: Handler, now: int, later: int)
    returns (loggedOut: Result<Response.BaseResponse, Error>, res: Outcome)
    requires auth.cache == stage.cache && auth.codec == stage.codec
    requires fullMethod !in stage.whitelist && now <= later
    modifies auth.cache
    ensures loggedOut.Success? ==> res == Returned(Nil, Some(Response.UnauthenticatedResponse()))
  {
    loggedOut := auth.Logout(ctx, now);
    res := stage.Middleware(ctx, req, fullMethod, handler, later);
    if loggedOut.Success? {
      LoggedOutTokenNeverAccepted(stage.whitelist, stage.cache.entries, stage.codec, now, later, fullMethod, ctx,
                                  ParseTokenFromContext(ctx).value);
    }
  }
}
