/** Extraction of the bearer token from the call metadata, in the format of
    section 2.1 of RFC 6750 but with the scheme "Bearer" matched exactly
    (case-sensitive). */
module JwtParse {
  import opened Options
  import opened Grpc
  import opened Jwt
  import Response

  /** The metadata key the credentials travel under. */
  const AuthorizationKey: string := "authorization"

  /** Position of the first space in `s`, or -1 when it has none. */
  function IndexOfSpace(s: string): (i: int)
    ensures -1 <= i < |s|
    ensures i >= 0 ==> s[i] == ' ' && forall k :: 0 <= k < i ==> s[k] != ' '
    ensures i == -1 ==> forall k :: 0 <= k < |s| ==> s[k] != ' '
    decreases |s|
  {
    if s == [] then -1
    else if s[0] == ' ' then 0
    else
      var j := IndexOfSpace(s[1..]);
      if j == -1 then -1 else j + 1
  }

  /** `strings.SplitN(s, " ", 2)`: the whole string when it has no space,
      otherwise the text before the first space and everything after it. */
  function SplitFirstSpace(s: string): (parts: seq<string>)
    ensures 1 <= |parts| <= 2
    ensures |parts| == 1 <==> forall k :: 0 <= k < |s| ==> s[k] != ' '
    ensures |parts| == 1 ==> parts[0] == s
    ensures |parts| == 2 ==> s == parts[0] + " " + parts[1] &&
                             forall k :: 0 <= k < |parts[0]| ==> parts[0][k] != ' '
  {
    var i := IndexOfSpace(s);
    if i == -1 then [s] else [s[..i], s[i + 1..]]
  }

  /** The check applied to the first authorization entry. */
  function ParseBearer(entry: string): (r: Result<string, Error>)
    ensures r.Failure? ==> r.error == Response.UnauthenticatedResponse()
  {
    var parts := SplitFirstSpace(entry);
    if |parts| != 2 || parts[0] != "Bearer" then Failure(Response.UnauthenticatedResponse())
    else Success(parts[1])
  }

  /** `ParseTokenFromContex`: no metadata, no authorization entry, or a first
      entry that is not "Bearer <token>" all fail with Unauthenticated. */
  function ParseTokenFromContext(ctx: Context): (r: Result<string, Error>)
    ensures ctx.incoming.None? ==> r == Failure(Response.UnauthenticatedResponse())
    ensures ctx.incoming.Some? && (AuthorizationKey !in ctx.incoming.value ||
              ctx.incoming.value[AuthorizationKey] == []) ==>
              r == Failure(Response.UnauthenticatedResponse())
    ensures r.Success? ==>
              && ctx.incoming.Some? && AuthorizationKey in ctx.incoming.value
              && ctx.incoming.value[AuthorizationKey] != []
              && r == ParseBearer(ctx.incoming.value[AuthorizationKey][0])
    ensures r.Failure? ==> r.error == Response.UnauthenticatedResponse()
  {
    match ctx.incoming
    case None => Failure(Response.UnauthenticatedResponse())
    case Some(md) =>
      if AuthorizationKey !in md || md[AuthorizationKey] == [] then
        Failure(Response.UnauthenticatedResponse())
      else ParseBearer(md[AuthorizationKey][0])
  }

  /** Round trip: "Bearer " followed by any text, including the empty text
      and text with spaces, yields that text. */
  lemma {:induction false} BearerRoundTrip(token: string)
    ensures ParseBearer("Bearer " + token) == Success(token)
  {
    var entry := "Bearer " + token;
    assert entry[6] == ' ';
    assert forall k :: 0 <= k < 6 ==> entry[k] != ' ';
    assert IndexOfSpace(entry) == 6;
    assert entry[..6] == "Bearer";
    assert entry[7..] == token;
  }

  /** What success means: the examined entry is exactly "Bearer", a space,
      and the returned token. */
  lemma {:induction false} BearerAcceptedShape(entry: string)
    requires ParseBearer(entry).Success?
    ensures "Bearer" + " " + ParseBearer(entry).value == entry
  {
  }

  /** An entry is accepted exactly when it starts with "Bearer " (capital B,
      one space); any other scheme or spelling is refused. */
  lemma {:induction false} BearerAcceptedIff(entry: string)
    ensures ParseBearer(entry).Success? <==> |entry| >= 7 && entry[..7] == "Bearer "
  {
    if ParseBearer(entry).Success? {
      BearerAcceptedPrefix(entry);
    }
    if |entry| >= 7 && entry[..7] == "Bearer " {
      BearerPrefixAccepted(entry);
    }
  }

  lemma {:induction false} BearerAcceptedPrefix(entry: string)
    requires ParseBearer(entry).Success?
    ensures |entry| >= 7 && entry[..7] == "Bearer "
  {
    var t := ParseBearer(entry).value;
    BearerAcceptedShape(entry);
    var e := "Bearer " + t;
    assert e[..7] == "Bearer ";
  }

  lemma {:induction false} BearerPrefixAccepted(entry: string)
    requires |entry| >= 7 && entry[..7] == "Bearer "
    ensures ParseBearer(entry).Success?
  {
    assert entry == "Bearer " + entry[7..];
    BearerRoundTrip(entry[7..]);
  }

  /** Only the first authorization entry counts: entries after it never
      change the outcome. */
  lemma OnlyFirstEntryCounts(md: Metadata, first: string, rest1: seq<string>, rest2: seq<string>)
    ensures ParseTokenFromContext(Context(Some(md[AuthorizationKey := [first] + rest1]), map[])) ==
            ParseTokenFromContext(Context(Some(md[AuthorizationKey := [first] + rest2]), map[]))
  {
  }

  /** A call presenting "Bearer <t>" as its first authorization entry yields t. */
  lemma {:induction false} ExtractsPresentedToken(ctx: Context, token: string, rest: seq<string>)
    requires ctx.incoming.Some?
    requires AuthorizationKey in ctx.incoming.value
    requires ctx.incoming.value[AuthorizationKey] == ["Bearer " + token] + rest
    ensures ParseTokenFromContext(ctx) == Success(token)
  {
    BearerRoundTrip(token);
  }
}
