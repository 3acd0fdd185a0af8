# grpc-ecom-be, modelled in Dafny

A model of the request path of a small e-commerce gRPC backend (accounts,
catalogue, carts). Each unary call passes two interceptors in a fixed order.
The outer one is the error stage: it recovers panics, lets gRPC status errors
through and turns any other error into one `Internal` status. The inner one
is the authentication stage. It lets five public methods straight through.
Every other call must carry `authorization: Bearer <jwt>` in its metadata.
The token must not be in the logout revocation cache, and it must verify
with the process secret under an HMAC algorithm before expiry. The decoded
claims are then put in the call context for the services.

The services are modelled over abstract tables:

- The product, cart and user tables are classes whose `rows` field the
  operations reassign.
- Object storage is a set of keys.
- The revocation cache is a map from token to expiry second, read against
  an explicit clock.

Password hashing and token signing are uninterpreted parameters (`Hasher`,
`Codec`). Fresh ids and clock readings are parameters as well.

Module layout, one per source file (`.dfy` file in brackets):

- `Options` [options]
- `Grpc` [grpc]: status codes, errors and handler outcomes
- `Text` [text]: ASCII case mapping and `strings.Join`
- `Response` [response]
- `Jwt` [jwt]
- `JwtParse` [parse]
- `Cache` [cache]
- `AuthStage` [auth_middleware]
- `ErrorStage` [error_middleware]
- `QueryBuilder` [query_builder]
- `Validator` [validator]
- `Entity` [entity]
- `Repository` [repository]
- `Uuid` [uuid]
- `ProductService` [product_service]
- `CartService` [cart_service]
- `AuthService` [auth_service]
- `Server` [server]: the configured public names and the interceptor chain

Some code the model relies on is not part of this model. These are modelled
by their evident meaning:

- `GetClaimsFromContext`: the claims stored under the context key, if any.
- `NotFoundResponse`: status 404 with the error flag set.
- `SafeDerefString`: the empty string for a missing value.
- The role codes `UserRoleAdmin` and `UserRoleCustomer`: two distinct strings.
- The `Product`, `User` and `JWTClaims` entity definitions.
- The UUID parser of `github.com/google/uuid`.
- The JWT library's expiry check: a token is valid while the clock is before `exp`.
- go-cache's lookup: an entry is found until its expiry instant, inclusive.

## Model

| member | source | states |
|---|---|---|
| Text.Lower | internal/utils/query_builder.go:19 | same length; each character is its ASCII lower-case form |
| Text.Upper | internal/utils/query_builder.go:25 | same length; each character is its ASCII upper-case form |
| Text.LowerIdempotent | internal/utils/validator.go:44 | lower-casing twice equals lower-casing once |
| Text.Join | internal/utils/query_builder.go:34 | no parts give ""; one part gives that part |
| Response.SuccessResponse | internal/utils/response.go:9-14 | status 200, the given message, error flag clear, no validation errors |
| Response.BadRequestResponse | internal/utils/response.go:16-22 | status 400, the given message, error flag set |
| Response.ValidationErrorResponse | internal/utils/response.go:24-31 | status 400, message "Validation Error", error flag set, the given errors unchanged |
| Response.NotFoundResponse | internal/service/product_service.go:86-90 | status 404, the given message, error flag set |
| Response.UnauthenticatedResponse | internal/utils/response.go:32-34 | always the status error with code Unauthenticated and message "Unauthenticated" |
| Response.EnvelopesDistinct | internal/utils/response.go:9-31 | only the success envelope has the error flag clear; the envelope kinds never coincide; a bad-request envelope determines its message |
| Jwt.SetToContext | internal/entity/jwt/jwt.go:21-24 | the claims are stored under the "JwtEntity" key; metadata and every other value are kept |
| Jwt.GetClaimsFromContext | internal/service/product_service.go:38-41 | some claims exactly when the "JwtEntity" slot is filled, and then the stored claims |
| Jwt.ContextRoundTrip | internal/entity/jwt/jwt.go:21-24 | reading the slot after `SetToContext` yields exactly the stored claims |
| Jwt.KeyFunc | internal/entity/jwt/jwt.go:28-33 | gives the secret exactly for HMAC algorithms and refuses every other algorithm |
| Jwt.ParseWithClaims | internal/entity/jwt/jwt.go:28-36 | a token results iff the view is well formed, HMAC, signed with the secret and (for own claims) unexpired; the result carries the payload |
| Jwt.GetClaimsFromToken | internal/entity/jwt/jwt.go:34-45 | every failure is the one Unauthenticated error; claims result iff the token is valid and of the server's claims type, and they are the token's own |
| Jwt.DecodeToken | internal/entity/jwt/jwt.go:26-46 | decodes iff HMAC, signed with the secret, of the server's claims type and `now < exp`; otherwise Unauthenticated |
| Jwt.NonHmacRejected | internal/entity/jwt/jwt.go:29-31 | a token naming a non-HMAC algorithm never decodes, whatever key and claims it has |
| Jwt.ForeignKeyRejected | internal/entity/jwt/jwt.go:28-36 | a token signed with any key but the secret never decodes |
| JwtParse.IndexOfSpace | internal/entity/jwt/parse.go:21 | the position of the first space (no space before it), or -1 when there is none |
| JwtParse.SplitFirstSpace | internal/entity/jwt/parse.go:21 | `SplitN(s, " ", 2)`: one part (the whole string) iff no space; otherwise head + " " + tail == s with a space-free head |
| JwtParse.ParseBearer | internal/entity/jwt/parse.go:21-27 | every failure is the Unauthenticated error |
| JwtParse.ParseTokenFromContext | internal/entity/jwt/parse.go:11-28 | no metadata, or no or empty authorization entry, fails with Unauthenticated; success is the verdict on the first entry |
| JwtParse.BearerRoundTrip | internal/entity/jwt/parse.go:21-27 | "Bearer " + t yields t for every t, empty or containing spaces |
| JwtParse.BearerAcceptedShape | internal/entity/jwt/parse.go:21-27 | on success "Bearer" + " " + result equals the examined entry |
| JwtParse.BearerAcceptedIff | internal/entity/jwt/parse.go:23-25 | an entry is accepted iff it starts with exactly "Bearer " (case-sensitive) |
| JwtParse.BearerAcceptedPrefix | internal/entity/jwt/parse.go:23-25 | accepted entries start with "Bearer " |
| JwtParse.BearerPrefixAccepted | internal/entity/jwt/parse.go:23-27 | entries starting with "Bearer " are accepted |
| JwtParse.OnlyFirstEntryCounts | internal/entity/jwt/parse.go:21 | authorization entries after the first never change the outcome |
| JwtParse.ExtractsPresentedToken | internal/entity/jwt/parse.go:16-27 | a first entry "Bearer t" yields t |
| Cache.RevocationCache.constructor | cmd/grpc/main.go:51 | the cache starts empty |
| Cache.RevocationCache.Set | internal/service/auth_service.go:149 | the key expires `ttl` seconds from now; other entries are untouched |
| Cache.RevocationCache.Get | internal/middleware/auth_middleware.go:33-37 | found iff the key is present and not yet past its expiry |
| Cache.StoredKeyLifetime | internal/service/auth_service.go:149 | a stored key is found from the moment of storing until its expiry, and never after |
| AuthStage.BuildWhitelist | internal/middleware/auth_middleware.go:54-59 | the set holds exactly the configured names; duplicates collapse |
| AuthStage.Authorize | internal/middleware/auth_middleware.go:22-46 | public names proceed with the caller's context; otherwise proceed iff a token is extracted, not found in the cache and decodes; the context then carries the decoded claims; every refusal is the one Unauthenticated error |
| AuthStage.AuthMiddleware.constructor | internal/middleware/auth_middleware.go:54-64 | shares the given cache; the whitelist holds exactly the configured names |
| AuthStage.AuthMiddleware.Middleware | internal/middleware/auth_middleware.go:18-52 | the outcome is the handler's outcome on the forwarded context when `Authorize` proceeds, else a nil response with the refusal |
| AuthStage.PublicMethodPassesThrough | internal/middleware/auth_middleware.go:22-25 | a public method reaches the handler with the original context and request, whatever the metadata and the cache hold |
| AuthStage.RejectionSkipsHandler | internal/middleware/auth_middleware.go:27-43 | a refused call gives the same answer for every handler: a nil response and the refusal |
| AuthStage.RevokedTokenRejected | internal/middleware/auth_middleware.go:33-40 | a token found in the cache is refused even when it would decode |
| AuthStage.ForwardedContextCarriesClaims | internal/middleware/auth_middleware.go:40-49 | the handler's context yields exactly the claims decoded from the presented token |
| ErrorStage.Normalize | internal/middleware/error_middleware.go:14-43 | no error gives the reply unchanged; a status error passes with a nil reply; a plain error or a panic becomes Internal "Internal server error"; every output is in wire shape |
| ErrorStage.OnWireIsFixed | internal/middleware/error_middleware.go:33-35 | an outcome already in wire shape passes unchanged |
| ErrorStage.NormalizeIdempotent | internal/middleware/error_middleware.go:14-43 | applying the stage to its own output changes nothing |
| ErrorStage.CodesPreservedOrInternal | internal/middleware/error_middleware.go:33-39 | a status error keeps its code and message; any other error becomes Internal |
| QueryBuilder.Direction | internal/utils/query_builder.go:25-29 | ASC or DESC; DESC iff the upper-cased order is DESC |
| QueryBuilder.Terms | internal/utils/query_builder.go:31 | one term per request, in request order |
| QueryBuilder.FirstDisallowed | internal/utils/query_builder.go:18-23 | the first request whose lower-cased field is not allowed (all before it allowed), or none when all are |
| QueryBuilder.OrderByClause | internal/utils/query_builder.go:12-35 | no requests give the default; failure iff some field is refused, naming the first refused field as spelled; else "ORDER BY " + the terms joined by ", " |
| QueryBuilder.BuildOrderByClause | internal/utils/query_builder.go:12-35 | the loop's result equals `OrderByClause` |
| QueryBuilder.CaseOfFieldsIrrelevant | internal/utils/query_builder.go:19-21 | requests differing only in field case are accepted alike and give the same clause |
| Validator.ImageValidator.Validate | internal/utils/validator.go:37-52 | the size error iff size > max; the type error iff within size and the lower-cased type is not allowed; no error iff within size and allowed |
| Validator.UpperCaseTypeAtLimitAccepted | internal/utils/validator.go:39-45 | "IMAGE/PNG" of exactly the maximum size passes when "image/png" is allowed |
| Validator.OversizeWinsOverType | internal/utils/validator.go:39-48 | a file failing both checks gets the size error |
| Entity.Wrap32 | internal/service/cart_service.go:141 | in-range values are kept; the result is congruent to the input modulo 2^32 |
| Repository.GetProductById | internal/repository/product_repository.go:38-48 | some product iff the id is stored and not soft-deleted, and then the stored row |
| Repository.FindById | internal/repository/cart_repository.go:126-148 | found iff some row has the id, and then it is such a row |
| Repository.FindByUserAndProduct | internal/repository/cart_repository.go:39-61 | none iff no row is this user's for this product; otherwise such a row |
| Repository.FindByUser | internal/repository/cart_repository.go:90-123 | only this user's rows, each from the table |
| Repository.FindByUserAppend | internal/repository/cart_repository.go:90-123 | the rows found in a concatenation are those found in each part, in table order |
| Repository.FindByUserSingle | internal/repository/cart_repository.go:90-123 | a single row is returned iff it belongs to the user |
| Repository.ApplyUpdate | internal/repository/cart_repository.go:64-70 | the table keeps its length |
| Repository.DeleteById | internal/repository/cart_repository.go:151-155 | no row with the id remains and every remaining row was in the table |
| Repository.UpdateWritesOnlyQuantityAndStamps | internal/repository/cart_repository.go:65-67 | an update keeps id, user, product and creation stamps of every row, changes no other row, and sets the quantity of the matching row |
| Repository.DeleteRemovesExactlyOne | internal/repository/cart_repository.go:151-155 | with distinct ids, deleting a row's id removes exactly that row and keeps the others in order |
| Repository.DeleteAbsent | internal/repository/cart_repository.go:151-155 | deleting an id no row carries changes nothing |
| Repository.GetUserByEmail | internal/repository/auth_repository.go:22-33 | none iff no live row has the email; otherwise a live row with it |
| Repository.SetPassword | internal/repository/auth_repository.go:44-70 | the table keeps its length |
| Repository.SetPasswordWritesOnlyHashAndStamps | internal/repository/auth_repository.go:44-70 | every row keeps id, email, name, role, creation stamps and deletion flag; a row with another id is unchanged; the account's row gets the hash and the update stamps |
| Repository.Window | internal/repository/product_repository.go:97-106 | at most `limit` rows; exactly `min(limit, remaining)` when the offset is inside; row k is row offset + k |
| Repository.Arranged | internal/repository/product_repository.go:97-104 | the rows in the order the database arranges the keys |
| Repository.Live | internal/repository/product_repository.go:74 | only rows not soft-deleted, each from the input |
| Repository.LiveAppend | internal/repository/product_repository.go:101 | the live rows of a concatenation are the live rows of each part, in order |
| Repository.LiveSingle | internal/repository/product_repository.go:101 | a single row is kept iff it is not soft-deleted |
| Repository.LiveArrangedCount | internal/repository/product_repository.go:74 | an arrangement without repeated keys has as many live rows as it names live keys |
| Repository.LiveListingCount | internal/repository/product_repository.go:74 | listing every key once, the live rows number exactly the keys `COUNT(id) ... WHERE is_deleted = FALSE` counts |
| Repository.ArrangedCount | internal/repository/product_repository.go:138 | listing every key once, the rows number exactly the keys `COUNT(id)` counts |
| Repository.ListQuery | internal/repository/product_repository.go:68-130 | an empty table gives no rows and total 0; otherwise success iff the sort is allowed and limit and offset are not negative, giving the window and the total |
| ProductService.AdminGate | internal/service/product_service.go:38-45 | passes iff claims are present with the admin role; no claims gives Unauthenticated, another role PermissionDenied |
| ProductService.Normalized | internal/service/product_service.go:213-224 | page 0 becomes 1, limit 0 becomes 10, no sort becomes created_at DESC; other values are kept |
| ProductService.CeilingBounds | internal/service/product_service.go:232 | integer ceiling division characterised by its bounds |
| ProductService.TotalPages | internal/service/product_service.go:232-235 | 0 for no items; otherwise the least page count whose capacity reaches the total |
| ProductService.ProductService.constructor | internal/service/product_service.go:339-344 | holds the given table and storage |
| ProductService.ProductService.CreateProduct | internal/service/product_service.go:36-79 | the gate's error; a missing image gives BadRequest and no insert; an id conflict gives the database error; else the new row with the creator stamp and "Product created successfully" |
| ProductService.ProductService.DetailProduct | internal/service/product_service.go:81-100 | a not-found envelope for a missing or deleted product; else its fields and image URL |
| ProductService.ProductService.UpdateProduct | internal/service/product_service.go:102-160 | keeps every row stored under its own id; gate, then NotFound without writes; storage is consulted only on a changed image, which must exist; the old non-empty image is removed; the row takes the request's fields and update stamps |
| ProductService.ProductService.DeleteProduct | internal/service/product_service.go:162-201 | gate, then NotFound without writes; else the row is soft-deleted with the stamps and its non-empty image removed |
| ProductService.ProductViews | internal/service/product_service.go:238-248 | one public view per fetched row, in order, nothing more |
| ProductService.AdminProductViews | internal/service/product_service.go:307-324 | one audit view per fetched row, in order, nothing more |
| ProductService.PublicListing | internal/service/product_service.go:231-260 | the success envelope, the given page and limit, the page count of the total, and the views of the rows |
| ProductService.AdminListing | internal/service/product_service.go:300-336 | the same for the admin listing |
| ProductService.ProductService.ListProducts | internal/service/product_service.go:203-261 | as written, with the allow-list lacking created_at: a query failure is returned; else the normalised page and limit, the page count, the total and one view per fetched live row in order; the total is the number of live products; a request without a sort fails with "invalid sort parameter" whenever a product is live |
| ProductService.ProductService.ListPublic | internal/service/product_service.go:203-261 | the normalised request run against the live rows under a given allow-list: its failure, or the page of views of its window |
| ProductService.ProductService.ListProductsCorrected | internal/service/product_service.go:203-261 | the same with created_at allowed; the total is the number of live products; a request without a sort succeeds whenever limit and offset are not negative |
| ProductService.ProductService.ListAll | internal/service/product_service.go:273-336 | the normalised request run against every row under the admin allow-list: its failure, or the page of audit views of its window |
| ProductService.ProductService.ListProductsAdmin | internal/service/product_service.go:263-337 | the gate's error; else the same over all rows, with the audit views; the total is the number of rows in the table |
| ProductService.SoftDeleteHides | internal/service/product_service.go:172-186 | after a soft delete the row stays but lookups no longer find it |
| ProductService.ListingWithoutSortFailsAsWritten | internal/service/product_service.go:220-226 | as written, a listing without a sort fails whenever a live product exists |
| ProductService.ListingWithoutSortSucceeds | internal/service/product_service.go:220-226 | with created_at allowed, a listing without a sort succeeds whenever limit and offset are not negative |
| Uuid.Parse | internal/service/cart_service.go:160-167 | a result is always the canonical lower-case 8-4-4-4-12 form; a 36-character input parses iff it has that layout (giving it lower-cased); 32 characters parse iff all hex; other lengths than 32, 36, 38, 45 fail |
| Uuid.ParsePrintRoundTrip | internal/service/cart_service.go:160-167 | the printed id parses back to itself |
| Uuid.CanonicalParsesToItself | internal/service/cart_service.go:160-167 | a canonical id parses to itself |
| Uuid.CaseOfDigitsIrrelevant | internal/service/cart_service.go:160-167 | in each accepted form (36, 45, 38 or 32 characters), lower-casing the input does not change the parsed id, so ids differing only in letter case name the same row |
| CartService.CartLines | internal/service/cart_service.go:125-141 | at most one line per row |
| CartService.CartLinesFromLiveRows | internal/service/cart_service.go:125-141 | every line is the line of some row whose product is live |
| CartService.CartLinesAllLive | internal/service/cart_service.go:125-141 | when every product is live there is exactly one line per row, in row order, carrying the row's id |
| CartService.CartLinesAppend | internal/service/cart_service.go:125-141 | the lines of a concatenation are the lines of each part, in order |
| CartService.CartLinesSingle | internal/service/cart_service.go:125-141 | a row gives its line when its product is live, and nothing when it is missing or deleted |
| CartService.CallerRowListed | internal/service/cart_service.go:117-141 | every caller row with a live product is listed, after the lines of the caller's earlier rows and before those of the later ones |
| CartService.StoredCartIdFound | internal/service/cart_service.go:160-167 | a stored id, presented as printed, parses to itself and the lookup finds a row |
| CartService.UpdateKeepsIds | internal/repository/cart_repository.go:64-70 | an update keeps the primary key and keeps every id in canonical form |
| CartService.UpdateKeepsFirstMatch | internal/service/cart_service.go:71-83 | after updating the row the lookup found, the lookup finds the rewritten row |
| CartService.InsertBecomesMatch | internal/service/cart_service.go:84-101 | after inserting into a cart without the product, the lookup finds the inserted row |
| CartService.CartService.constructor | internal/service/cart_service.go:37-42 | holds the given tables |
| CartService.CartService.AddProductToCart | internal/service/cart_service.go:45-108 | with a canonical fresh id, keeps the cart ids distinct and canonical; unknown product: NotFound, nothing written (before the identity check); no claims: Unauthenticated; an existing row gains exactly one with update stamps and its id is returned; else a row of one for the caller, or BadRequest with empty id on an id conflict; the key stays distinct |
| CartService.CartService.ListCart | internal/service/cart_service.go:111-151 | Unauthenticated without claims; else the lines of the caller's rows, skipping missing products, and the summed price |
| CartService.CartService.UpdateCartItem | internal/service/cart_service.go:154-195 | in order: Unauthenticated, BadRequest on a malformed id, NotFound, Unauthenticated on another owner's row, all without writes; else exactly that row takes the new quantity and stamps |
| CartService.CartService.DeleteCartItem | internal/service/cart_service.go:198-233 | the same checks in the same order; else exactly the rows with that id are removed |
| CartService.DeleteKeepsDistinct | internal/repository/cart_repository.go:151-155 | a delete keeps the primary key |
| CartService.DeleteKeepsCanonical | internal/repository/cart_repository.go:151-155 | a delete keeps every remaining id canonical |
| CartService.AddedProductIsInCart | internal/service/cart_service.go:63-101 | after adding, the caller's lookup for the product finds the incremented row or the new row of one |
| AuthService.NewUser | internal/service/auth_service.go:64-72 | a live customer with the request's email and name, the given id and hash |
| AuthService.IssueClaims | internal/service/auth_service.go:110-119 | subject, name, email and role from the user; issued now; expires 24 hours later |
| AuthService.AuthService.constructor | internal/service/auth_service.go:264-270 | holds the given table, cache and crypto |
| AuthService.AuthService.Register | internal/service/auth_service.go:34-82 | a live email, then a password mismatch, then a hash failure each give BadRequest with no insert; an id conflict gives the database error; else the new customer row is appended |
| AuthService.AuthService.Login | internal/service/auth_service.go:84-132 | unknown email, wrong password and signing failure give their BadRequest with no token; else the signed issued claims |
| AuthService.AuthService.Logout | internal/service/auth_service.go:134-154 | extraction or decoding failure: Unauthenticated, cache untouched; else the exact token is stored with TTL exp - now, which is positive when the call reads the clock once |
| AuthService.AuthService.ChangePassword | internal/service/auth_service.go:156-230 | a confirmation mismatch gives BadRequest before any token or table access; token, decoding and account failures give Unauthenticated; a wrong old password or hash failure gives BadRequest; else the account's hash and update stamps are set |
| AuthService.AuthService.GetProfile | internal/service/auth_service.go:232-262 | Unauthenticated without a decodable token or a live account for its email; else that account's fields |
| AuthService.IssuedTokenLifetime | internal/service/auth_service.go:110-121 | with a sound signer an issued token decodes to the issued claims iff less than 24 hours have passed |
| AuthService.InsertedUserFound | internal/service/auth_service.go:74 | once registered, the email resolves to the new account |
| AuthService.RegisteredUserCanLogIn | internal/service/auth_service.go:56-74 | with a sound hasher, registration then login with the same password finds the account and accepts the password |
| AuthService.PasswordChangeTakesEffect | internal/service/auth_service.go:213 | after a change the email resolves to the same account with the new hash and stamps |
| Server.Serve | cmd/grpc/main.go:69-73 | every outcome of the chain is in wire shape |
| Server.PublicEndpointsWhitelisted | cmd/grpc/main.go:43-52 | login, register and the public listing are whitelisted; logout and the cart methods are not |
| Server.PublicCallReachesHandler | cmd/grpc/main.go:69-73 | a public call reaches its handler with the caller's context; only the error stage acts |
| Server.AnonymousCallRejected | cmd/grpc/main.go:69-73 | any other call without metadata gets Unauthenticated with a nil reply |
| Server.LoggedOutTokenNeverAccepted | internal/service/auth_service.go:149 | a token whose cache entry is the one logout wrote is refused from then on: by the cache until its expiry, by the expiry check after |
| Server.LogoutThenCall | cmd/grpc/main.go:51-60 | through the shared cache, a call after a successful logout is refused with the same token |

## Left out

- Database, storage and network failures are not modelled. The only database error modelled is a primary-key conflict on insert. The effects of the rest: "Storage service check failed" (internal/service/product_service.go:51,126), the repositories' connection errors, and "Failed to update password" (internal/service/auth_service.go:215) never occur in the model.
- An update of a product or cart row that the database no longer holds is not modelled. Lookup and write happen in one step here, so there are no races between them.
- Concurrency is not modelled: calls are sequential, and the go-cache janitor and its eviction are left out.
- Logging and `debug.PrintStack` are left out.
- Cryptography is left out: HMAC signing and verification, and bcrypt. They are the parameters `Codec` and `Hasher`. `SoundSigner` and `SoundHasher` state the one property the lemmas need from them.
- Base64 and JSON token encoding are left out. `Codec.view` reads a token string directly as algorithm, signing key and payload.
- Time is whole seconds. Sub-second clock readings and the JWT library's leeway are not modelled.
- A `JWTClaims` without an `exp` claim is not modelled, because `Claims.expiresAt` is always present.
- ListCart: floating-point prices are real numbers, so the rounding of `totalPrice` is not modelled.
- Product prices are real numbers throughout. The conversion of the request's float32 price to float64 (internal/service/product_service.go:64) is not modelled.
- AddProductToCart: the Go `int` quantity increment (internal/service/cart_service.go:73) is unbounded in the model, so its overflow is not modelled.
- The JWT `nbf` (not-before) claim is not modelled. The server never sets it (internal/service/auth_service.go:110-118).
- Text.Lower and Text.Upper map ASCII letters only. Unicode case mapping is not modelled.
- The model works on characters, not the UTF-8 bytes Go uses for lengths.
- Uuid.Parse: the URN prefix is compared by ASCII lower-casing rather than Unicode case folding.
- CreateProduct, UpdateProduct and DeleteProduct: an image key equal to "" is looked up in the key set like any other key.
- ListProducts and ListProductsAdmin: the database's ORDER BY arrangement is an input (`ordered`). It must list the table's keys, and it is not derived from the clause.
- ListCart, FindByUser and FindByUserAndProduct: the cart queries have no ORDER BY (internal/repository/cart_repository.go:41-42, 92-93). The model returns rows in the table's sequence order, with updates in place. The order claims of `CartService.CallerRowListed` and `CartService.CartLinesAllLive` hold for that one choice among the orders the database may return.
- ListProducts: the SQL COUNT is taken as the number of live rows. Its int32 overflow is not modelled.
- ListProductsCorrected: it is not called by the rest of the model. It states what a request without a sort would do with created_at allowed.
- Product ids are not checked for the UUID layout. The product table only keeps every row under its own id.
- The repository's "invalid sort parameter" and "failed to fetch products" errors are modelled without the wrapped inner message.
- Postgres refuses a negative LIMIT or OFFSET with an error, and that error is modelled. The exact error text is not.
- Product timestamps the source stores as a zero `time.Time` (never updated, never deleted) are `None`.
- HighlightProducts is named as a public method (cmd/grpc/main.go:48), but its implementation is not part of this model.
- ChangePassword's second comparison of the new password with its confirmation (internal/service/auth_service.go:197-201) can never fail, because the same comparison already returned earlier (:158-162). The model leaves this dead branch out.
- The commented-out revocation of the token after a password change (internal/service/auth_service.go:223-224) is not modelled.
- `CheckValidation` and the gRPC handlers are not part of this model. Neither are the REST server, object upload or database connection code.
- `cmd/grpc/main.go` is modelled only through its configuration: the five public names, the stage order and the cache shared by the logout operation and the authentication stage.
- The revocation cache's default expiry (24 hours) is not modelled. The cache's handling of zero or negative durations is not modelled either. In the model a call reads the clock once, and Logout then stores a positive duration, as `AuthService.AuthService.Logout` proves.
- AuthService.AuthService.Logout: the source reads the clock twice. The JWT library checks `exp` against its own reading (internal/entity/jwt/jwt.go:28), and Logout reads the clock again for the duration (internal/service/auth_service.go:149). A token that expires between the two readings gets a duration of zero or less. go-cache then keeps the already-expired token for its 24-hour default (zero) or for ever (negative). The model does not capture this.

## Findings

| source | as written | input that shows it | evidently intended | confidence | as-written member | corrected member |
|---|---|---|---|---|---|---|
| internal/service/product_service.go:220-226 | ListProducts puts the sort `created_at DESC` in place of an empty one. The public repository accepts only `id`, `name` and `price` (internal/repository/product_repository.go:85-89), so `BuildOrderByClause` refuses the sort. The call ends in "invalid sort parameter", which the error stage turns into Internal. | a public ListProducts request with no sort, while at least one live product exists | a listing without a sort returns the newest products first | not executed | ProductService.ProductService.ListProducts | ProductService.ProductService.ListProductsCorrected |
