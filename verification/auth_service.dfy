/** The account service: registration, login (token issue), logout (token
    revocation), password change and profile. Password hashing and token
    signing are uninterpreted parameters; ids and clock readings are
    parameters. */
module AuthService {
  import opened Options
  import opened Grpc
  import opened Jwt
  import opened JwtParse
  import opened Entity
  import opened Repository
  import Cache
  import Response

  /** The one-way password hash: hashing may fail, and a stored hash either
      matches a candidate password or not. */
  datatype Hasher = Hasher(hash: string -> Option<string>, matches: (string, string) -> bool)

  /** Hashing is sound when a produced hash matches the password it came
      from. */
  ghost predicate SoundHasher(hasher: Hasher)
  {
    forall p :: hasher.hash(p).Some? ==> hasher.matches(hasher.hash(p).value, p)
  }

  /** How long an issued token is valid, in seconds (24 hours). */
  const TokenLifetime: int := 24 * 60 * 60

  datatype RegisterRequest = RegisterRequest(fullName: string, email: string, password: string, confirmPassword: string)
  datatype LoginResponse = LoginResponse(base: Response.BaseResponse, accessToken: string)
  datatype ChangePasswordRequest = ChangePasswordRequest(oldPassword: string, newPassword: string, newConfirmPassword: string)
  datatype ProfileResponse = ProfileResponse(
    base: Response.BaseResponse, userId: string, fullName: string, email: string, roleCode: string, memberSince: int)

  /** The row registration inserts: a live customer, created by itself. */
  function NewUser(req: RegisterRequest, id: string, hash: string, now: int): (u: User)
    ensures u.roleCode == UserRoleCustomer && !u.isDeleted
    ensures u.email == req.email && u.fullName == req.fullName && u.id == id && u.password == hash
  {
    User(id, req.email, hash, req.fullName, UserRoleCustomer, now, Some(req.fullName), None, None, false)
  }

  /** The claims a login issues for `user` at `now`. */
  function IssueClaims(user: User, now: int): (c: Claims)
    ensures c.subject == user.id && c.fullName == user.fullName && c.email == user.email && c.roleCode == user.roleCode
    ensures c.issuedAt == now && c.expiresAt - c.issuedAt == TokenLifetime
  {
    Claims(user.id, user.fullName, user.email, user.roleCode, now, now + TokenLifetime)
  }

  /** Is some row keyed by `id`? */
  predicate HasUserId(rows: seq<User>, id: string)
  {
    exists i :: 0 <= i < |rows| && rows[i].id == id
  }

  const EmailTakenMessage: string := "Email is already registered"
  const PasswordMismatchMessage: string := "Password and confirm password do not match"
  const HashFailedMessage: string := "Failed to hash password"

  class AuthService {
    const users: UserTable
    const cache: Cache.RevocationCache
    const codec: Codec
    const hasher: Hasher

    constructor(users: UserTable, cache: Cache.RevocationCache, codec: Codec, hasher: Hasher)
      ensures this.users == users && this.cache == cache && this.codec == codec && this.hasher == hasher
    {
      this.users := users;
      this.cache := cache;
      this.codec := codec;
      this.hasher := hasher;
    }

    /** A new customer account, unless the email is live already or the
        two passwords differ; nothing is written on any refusal. */
    method Register(req: RegisterRequest, newId: string, now: int) returns (r: Result<Response.BaseResponse, Error>)
      modifies users
      ensures GetUserByEmail(old(users.rows), req.email).Some? ==>
                r == Success(Response.BadRequestResponse(EmailTakenMessage)) && users.rows == old(users.rows)
      ensures GetUserByEmail(old(users.rows), req.email).None? && req.password != req.confirmPassword ==>
                r == Success(Response.BadRequestResponse(PasswordMismatchMessage)) && users.rows == old(users.rows)
      ensures GetUserByEmail(old(users.rows), req.email).None? && req.password == req.confirmPassword ==>
                && (hasher.hash(req.password).None? ==>
                     r == Success(Response.BadRequestResponse(HashFailedMessage)) && users.rows == old(users.rows))
                && (hasher.hash(req.password).Some? && HasUserId(old(users.rows), newId) ==>
                     r == Failure(DuplicateKeyError) && users.rows == old(users.rows))
                && (hasher.hash(req.password).Some? && !HasUserId(old(users.rows), newId) ==>
                     && r == Success(Response.SuccessResponse("User registered successfully"))
                     && users.rows == old(users.rows) + [NewUser(req, newId, hasher.hash(req.password).value, now)])
    {
      var user := GetUserByEmail(users.rows, req.email);
      if user.Some? {
        return Success(Response.BadRequestResponse(EmailTakenMessage));
      }
      if req.password != req.confirmPassword {
        return Success(Response.BadRequestResponse(PasswordMismatchMessage));
      }
      var hashedPassword := hasher.hash(req.password);
      if hashedPassword.None? {
        return Success(Response.BadRequestResponse(HashFailedMessage));
      }
      var newUser := NewUser(req, newId, hashedPassword.value, now);
      if HasUserId(users.rows, newId) {
        return Failure(DuplicateKeyError);
      }
      users.rows := users.rows + [newUser];
      r := Success(Response.SuccessResponse("User registered successfully"));
    }

    /** A signed token for a live account whose stored hash matches the
        password; refusals carry no token. */
    method Login(email: string, password: string, now: int) returns (r: Result<LoginResponse, Error>)
      ensures GetUserByEmail(users.rows, email).None? ==>
                r == Success(LoginResponse(Response.BadRequestResponse("Email is not registered"), ""))
      ensures GetUserByEmail(users.rows, email).Some? ==>
                var user := GetUserByEmail(users.rows, email).value;
                && (!hasher.matches(user.password, password) ==>
                     r == Success(LoginResponse(Response.BadRequestResponse("Invalid email or password"), "")))
                && (hasher.matches(user.password, password) && codec.sign(IssueClaims(user, now)).None? ==>
                     r == Success(LoginResponse(Response.BadRequestResponse("Failed to generate access token"), "")))
                && (hasher.matches(user.password, password) && codec.sign(IssueClaims(user, now)).Some? ==>
                     r == Success(LoginResponse(Response.SuccessResponse("Login successful"),
                                                codec.sign(IssueClaims(user, now)).value)))
    {
      var user := GetUserByEmail(users.rows, email);
      if user.None? {
        return Success(LoginResponse(Response.BadRequestResponse("Email is not registered"), ""));
      }
      if !hasher.matches(user.value.password, password) {
        return Success(LoginResponse(Response.BadRequestResponse("Invalid email or password"), ""));
      }
      var tokenString := codec.sign(IssueClaims(user.value, now));
      if tokenString.None? {
        return Success(LoginResponse(Response.BadRequestResponse("Failed to generate access token"), ""));
      }
      r := Success(LoginResponse(Response.SuccessResponse("Login successful"), tokenString.value));
    }

    /** Revokes the presented token until its own expiry; an absent or
        undecodable token is refused and nothing is written. */
    method Logout(ctx: Context, now: int) returns (r: Result<Response.BaseResponse, Error>)
      modifies cache
      ensures ParseTokenFromContext(ctx).Failure? ==>
                r == Failure(Response.UnauthenticatedResponse()) && cache.entries == old(cache.entries)
      ensures ParseTokenFromContext(ctx).Success? ==>
                var token := ParseTokenFromContext(ctx).value;
                && (DecodeToken(codec, token, now).Failure? ==>
                     r == Failure(Response.UnauthenticatedResponse()) && cache.entries == old(cache.entries))
                && (DecodeToken(codec, token, now).Success? ==>
                     var ttl := DecodeToken(codec, token, now).value.expiresAt - now;
                     && ttl > 0
                     && cache.entries == old(cache.entries)[token := now + ttl]
                     && r == Success(Response.SuccessResponse("Logout successful")))
    {
      var jwtToken := ParseTokenFromContext(ctx);
      if jwtToken.Failure? {
        return Failure(jwtToken.error);
      }
      var tokenClaims := DecodeToken(codec, jwtToken.value, now);
      if tokenClaims.Failure? {
        return Failure(tokenClaims.error);
      }
      cache.Set(jwtToken.value, tokenClaims.value.expiresAt - now, now);
      r := Success(Response.SuccessResponse("Logout successful"));
    }

    /** Replaces the caller's password hash. The confirmation is compared
        before the token or the table is looked at; the old password must
        match the stored hash. */
    method ChangePassword(ctx: Context, req: ChangePasswordRequest, now: int)
      returns (r: Result<Response.BaseResponse, Error>)
      modifies users
      ensures req.newPassword != req.newConfirmPassword ==>
                r == Success(Response.BadRequestResponse(PasswordMismatchMessage)) && users.rows == old(users.rows)
      ensures req.newPassword == req.newConfirmPassword &&
              (ParseTokenFromContext(ctx).Failure? || DecodeToken(codec, ParseTokenFromContext(ctx).value, now).Failure?) ==>
                r == Failure(Response.UnauthenticatedResponse()) && users.rows == old(users.rows)
      ensures req.newPassword == req.newConfirmPassword && ParseTokenFromContext(ctx).Success? &&
              DecodeToken(codec, ParseTokenFromContext(ctx).value, now).Success? ==>
                var claims := DecodeToken(codec, ParseTokenFromContext(ctx).value, now).value;
                var user := GetUserByEmail(old(users.rows), claims.email);
                && (user.None? ==> r == Failure(Response.UnauthenticatedResponse()) && users.rows == old(users.rows))
                && (user.Some? && !hasher.matches(user.value.password, req.oldPassword) ==>
                     r == Success(Response.BadRequestResponse("Incorrect old password")) && users.rows == old(users.rows))
                && (user.Some? && hasher.matches(user.value.password, req.oldPassword) &&
                    hasher.hash(req.newPassword).None? ==>
                     r == Success(Response.BadRequestResponse(HashFailedMessage)) && users.rows == old(users.rows))
                && (user.Some? && hasher.matches(user.value.password, req.oldPassword) &&
                    hasher.hash(req.newPassword).Some? ==>
                     && r == Success(Response.SuccessResponse("Password changed successfully"))
                     && users.rows == SetPassword(old(users.rows), user.value.id, hasher.hash(req.newPassword).value,
                                                  now, user.value.fullName))
    {
      if req.newPassword != req.newConfirmPassword {
        return Success(Response.BadRequestResponse(PasswordMismatchMessage));
      }
      var jwtToken := ParseTokenFromContext(ctx);
      if jwtToken.Failure? {
        return Failure(Response.UnauthenticatedResponse());
      }
      var claims := DecodeToken(codec, jwtToken.value, now);
      if claims.Failure? {
        return Failure(Response.UnauthenticatedResponse());
      }
      var user := GetUserByEmail(users.rows, claims.value.email);
      if user.None? {
        return Failure(Response.UnauthenticatedResponse());
      }
      if !hasher.matches(user.value.password, req.oldPassword) {
        return Success(Response.BadRequestResponse("Incorrect old password"));
      }
      var newHashedPassword := hasher.hash(req.newPassword);
      if newHashedPassword.None? {
        return Success(Response.BadRequestResponse(HashFailedMessage));
      }
      users.rows := SetPassword(users.rows, user.value.id, newHashedPassword.value, now, user.value.fullName);
      r := Success(Response.SuccessResponse("Password changed successfully"));
    }

    /** The account behind the presented token. */
    method GetProfile(ctx: Context, now: int) returns (r: Result<ProfileResponse, Error>)
      ensures ParseTokenFromContext(ctx).Failure? ==> r == Failure(Response.UnauthenticatedResponse())
      ensures ParseTokenFromContext(ctx).Success? && DecodeToken(codec, ParseTokenFromContext(ctx).value, now).Failure? ==>
                r == Failure(Response.UnauthenticatedResponse())
      ensures ParseTokenFromContext(ctx).Success? && DecodeToken(codec, ParseTokenFromContext(ctx).value, now).Success? ==>
                var user := GetUserByEmail(users.rows, DecodeToken(codec, ParseTokenFromContext(ctx).value, now).value.email);
                && (user.None? ==> r == Failure(Response.UnauthenticatedResponse()))
                && (user.Some? ==>
                     r == Success(ProfileResponse(Response.SuccessResponse("Get user profile successful"),
                            user.value.id, user.value.fullName, user.value.email, user.value.roleCode, user.value.createdAt)))
    {
      var jwtToken := ParseTokenFromContext(ctx);
      if jwtToken.Failure? {
        return Failure(Response.UnauthenticatedResponse());
      }
      var claims := DecodeToken(codec, jwtToken.value, now);
      if claims.Failure? {
        return Failure(Response.UnauthenticatedResponse());
      }
      var user := GetUserByEmail(users.rows, claims.value.email);
      if user.None? {
        return Failure(Response.UnauthenticatedResponse());
      }
      var u := user.value;
      r := Success(ProfileResponse(Response.SuccessResponse("Get user profile successful"),
                                   u.id, u.fullName, u.email, u.roleCode, u.createdAt));
    }
  }

  /** A token issued at login decodes to exactly the issued claims for the
      next 24 hours and never afterwards. */
  lemma IssuedTokenLifetime(codec: Codec, user: User, issued: int, now: int)
    requires SoundSigner(codec) && codec.sign(IssueClaims(user, issued)).Some?
    ensures var token := codec.sign(IssueClaims(user, issued)).value;
            && (DecodeToken(codec, token, now).Success? <==> now < issued + TokenLifetime)
            && (DecodeToken(codec, token, now).Success? ==> DecodeToken(codec, token, now).value == IssueClaims(user, issued))
  {
  }

  /** Once registered, the email resolves to the new account. */
  lemma {:induction false} InsertedUserFound(rows: seq<User>, u: User)
    requires GetUserByEmail(rows, u.email).None? && !u.isDeleted
    ensures GetUserByEmail(rows + [u], u.email) == Some(u)
    decreases |rows|
  {
    if rows != [] {
      assert (rows + [u])[1..] == rows[1..] + [u];
      InsertedUserFound(rows[1..], u);
    }
  }

  /** Registration followed by login with the same password finds the new
      account and accepts the password. */
  lemma RegisteredUserCanLogIn(rows: seq<User>, hasher: Hasher, req: RegisterRequest, newId: string, now: int)
    requires SoundHasher(hasher)
    requires GetUserByEmail(rows, req.email).None? && hasher.hash(req.password).Some?
    ensures var u := NewUser(req, newId, hasher.hash(req.password).value, now);
            GetUserByEmail(rows + [u], req.email) == Some(u) && hasher.matches(u.password, req.password)
  {
    InsertedUserFound(rows, NewUser(req, newId, hasher.hash(req.password).value, now));
  }

  /** After a password change the email resolves to the same account, now
      holding the new hash and the update stamps. */
  lemma {:induction false} PasswordChangeTakesEffect(rows: seq<User>, email: string, hash: string, now: int, author: string)
    requires GetUserByEmail(rows, email).Some?
    ensures var u := GetUserByEmail(rows, email).value;
            GetUserByEmail(SetPassword(rows, u.id, hash, now, author), email) ==
              Some(u.(password := hash, updatedAt := Some(now), updatedBy := Some(author)))
    decreases |rows|
  {
    var u := GetUserByEmail(rows, email).value;
    var r := SetPassword(rows, u.id, hash, now, author);
    if !(rows[0].email == email && !rows[0].isDeleted) {
      assert r[1..] == SetPassword(rows[1..], u.id, hash, now, author);
      assert r[0].email == rows[0].email && r[0].isDeleted == rows[0].isDeleted;
      PasswordChangeTakesEffect(rows[1..], email, hash, now, author);
    }
  }
}
