/**
 * The auth package: extracting the JWT payload from a request's headers (or from gRPC
 * metadata) and keeping the decoded user info in the context. Base64 and JSON decoding
 * of the claims is a parameter `decode`, which yields the user info or nothing when
 * either step fails. A context is modelled by the two values this package reads from it.
 */
module Auth {
  import opened Wrappers
  import Strings
  import Headers

  const Bearer := "bearer"
  const Authorization := "authorization"
  const JwtPayload := "jwtpayload"

  datatype UserInfo = UserInfo(
    id: nat, username: string, name: string, mobile: string, email: string, merchantId: nat, clientId: string)

  /** The zero `UserInfo{}`. */
  const NoUserInfo := UserInfo(0, "", "", "", "", 0, "")

  /** gRPC incoming metadata: lower-case keys to their values. */
  type Metadata = map<string, seq<string>>

  /** A context: the user info stored under the package's key, and the incoming metadata, if any. */
  datatype Context = Context(userInfo: Option<UserInfo>, metadata: Option<Metadata>)

  /** An HTTP request: its headers and its context. */
  datatype Request = Request(header: Headers.Header, ctx: Context)

  /** `strings.EqualFold` with the ASCII "bearer": no non-ASCII character folds to one of its letters. */
  predicate IsBearer(scheme: string)
  {
    |scheme| == |Bearer| && forall i :: 0 <= i < |scheme| ==> AsciiLower(scheme[i]) == Bearer[i]
  }

  function AsciiLower(c: char): char
  {
    if 'A' <= c <= 'Z' then (c as int + 32) as char else c
  }

  datatype Extracted = Extracted(value: string, ok: bool)

  /** `extractTokenFromAuthHeader`: the text after the first space, when the scheme before it is "bearer". */
  function ExtractTokenFromAuthHeader(auth: string): (r: Extracted)
    ensures r.ok <==> ' ' in auth && IsBearer(Strings.Cut(auth, ' ').before)
    ensures r.ok ==> exists scheme :: auth == scheme + " " + r.value && ' ' !in scheme && IsBearer(scheme)
    ensures !r.ok ==> r.value == ""
  {
    var cut := Strings.Cut(auth, ' ');
    if cut.found && IsBearer(cut.before) then Extracted(cut.after, true) else Extracted("", false)
  }

  /** `extractPayloadFromToken`: the middle segment of a token made of exactly three '.'-separated parts. */
  function ExtractPayloadFromToken(token: string): (r: Extracted)
    ensures r.ok <==> Strings.Count('.', token) == 2
    ensures r.ok ==> '.' !in r.value && exists a, b :: token == a + "." + r.value + "." + b
    ensures !r.ok ==> r.value == ""
  {
    var parts := Strings.Split(token, '.');
    if |parts| != 3 then Extracted("", false)
    else
      Strings.JoinSplit(token, '.');
      assert parts == [parts[0], parts[1], parts[2]];
      Strings.JoinThree(parts[0], parts[1], parts[2], ".");
      Extracted(parts[1], true)
  }

  /** `withUserInfoClaims`: store the decoded claims, or leave the context as it was when decoding fails. */
  function WithUserInfoClaims(ctx: Context, payload: string, decode: string -> Option<UserInfo>): (r: Context)
    ensures decode(payload).None? ==> r == ctx
    ensures decode(payload).Some? ==> r == WithUserInfo(ctx, decode(payload).value)
  {
    match decode(payload)
    case None => ctx
    case Some(u) => WithUserInfo(ctx, u)
  }

  /**
   * `WithUserInfoRequestContext`: a non-empty "jwtpayload" header is the payload as it is;
   * otherwise the payload comes from a bearer authorization header, and without one (or with
   * a token that is not three segments) the request is returned unchanged.
   */
  function WithUserInfoRequestContext(req: Request, decode: string -> Option<UserInfo>): (r: Request)
    ensures r.header == req.header && r.ctx.metadata == req.ctx.metadata
    ensures r.ctx.userInfo == req.ctx.userInfo || exists p :: decode(p).Some? && r.ctx.userInfo == decode(p)
  {
    var payloadHeader := Headers.Get(req.header, JwtPayload);
    if |payloadHeader| > 0 then req.(ctx := WithUserInfoClaims(req.ctx, payloadHeader, decode))
    else
      var authHeader := Headers.Get(req.header, Authorization);
      if |authHeader| == 0 then req
      else
        var token := ExtractTokenFromAuthHeader(authHeader);
        if !token.ok then req
        else
          var payload := ExtractPayloadFromToken(token.value);
          if !payload.ok then req
          else req.(ctx := WithUserInfoClaims(req.ctx, payload.value, decode))
  }

  /**
   * `WithUserInfoContext`: the same over incoming metadata, with two differences: a present
   * "jwtpayload" entry is used even when empty, and an authorization value with another
   * scheme is not rejected: the payload then stays empty and is decoded all the same.
   * Go indexes the first value of the entry it reads, "jwtpayload" when present and
   * otherwise "authorization", and panics when that entry has no values.
   */
  function WithUserInfoContext(ctx: Context, decode: string -> Option<UserInfo>): (r: Context)
    requires ctx.metadata.Some? ==> ReadableMetadata(ctx.metadata.value)
    ensures r.metadata == ctx.metadata
    ensures r.userInfo == ctx.userInfo || exists p :: decode(p).Some? && r.userInfo == decode(p)
  {
    match ctx.metadata
    case None => ctx
    case Some(md) =>
      if JwtPayload in md then WithUserInfoClaims(ctx, md[JwtPayload][0], decode)
      else if Authorization !in md then ctx
      else
        var token := ExtractTokenFromAuthHeader(md[Authorization][0]);
        if !token.ok then WithUserInfoClaims(ctx, "", decode)
        else
          var payload := ExtractPayloadFromToken(token.value);
          if !payload.ok then ctx else WithUserInfoClaims(ctx, payload.value, decode)
  }

  /** The entry `WithUserInfoContext` reads has a first value. */
  predicate ReadableMetadata(md: Metadata)
  {
    (JwtPayload in md ==> |md[JwtPayload]| > 0)
    && (JwtPayload !in md && Authorization in md ==> |md[Authorization]| > 0)
  }

  /** `UserInfoFromContext`. */
  function UserInfoFromContext(ctx: Context): (r: (UserInfo, bool))
    ensures r.1 <==> ctx.userInfo.Some?
    ensures r.1 ==> Some(r.0) == ctx.userInfo
    ensures !r.1 ==> r.0 == NoUserInfo
  {
    match ctx.userInfo
    case Some(u) => (u, true)
    case None => (NoUserInfo, false)
  }

  /** `WithUserInfo`: a context carrying `u`, with everything else of `ctx`. */
  function WithUserInfo(ctx: Context, u: UserInfo): (r: Context)
    ensures r.userInfo == Some(u) && r.metadata == ctx.metadata
  {
    ctx.(userInfo := Some(u))
  }

  // ------------------------------------------------------------------ properties

  /** Storing user info and reading it back gives it back; an empty context gives the zero value. */
  lemma UserInfoRoundTrip(ctx: Context, u: UserInfo)
    ensures UserInfoFromContext(WithUserInfo(ctx, u)) == (u, true)
    ensures WithUserInfo(ctx, u).metadata == ctx.metadata
    ensures ctx.userInfo.None? ==> UserInfoFromContext(ctx) == (NoUserInfo, false)
  {
  }

  /** A "Bearer" header around a three-segment token yields exactly its middle segment. */
  lemma BearerTokenPayload(scheme: string, head: string, payload: string, sig: string)
    requires IsBearer(scheme)
    requires '.' !in head && '.' !in payload && '.' !in sig
    ensures var token := ExtractTokenFromAuthHeader(scheme + " " + head + "." + payload + "." + sig);
      token == Extracted(head + "." + payload + "." + sig, true)
      && ExtractPayloadFromToken(token.value) == Extracted(payload, true)
  {
    var token := head + "." + payload + "." + sig;
    assert scheme + " " + head + "." + payload + "." + sig == scheme + " " + token;
    BearerToken(scheme, token);
    ThreeSegments(head, payload, sig);
  }

  /** The token is everything after the space that follows a bearer scheme. */
  lemma BearerToken(scheme: string, token: string)
    requires IsBearer(scheme)
    ensures ExtractTokenFromAuthHeader(scheme + " " + token) == Extracted(token, true)
  {
    assert ' ' !in scheme by {
      forall i | 0 <= i < |scheme|
        ensures scheme[i] != ' '
      {
        assert AsciiLower(scheme[i]) == Bearer[i];
      }
    }
    Strings.CutAtFirst(scheme, ' ', token);
    assert scheme + " " + token == scheme + [' '] + token;
  }

  /** Three dot-free segments joined by dots yield the middle one. */
  lemma ThreeSegments(head: string, payload: string, sig: string)
    requires '.' !in head && '.' !in payload && '.' !in sig
    ensures ExtractPayloadFromToken(head + "." + payload + "." + sig) == Extracted(payload, true)
  {
    Strings.SplitJoin([head, payload, sig], '.');
    Strings.JoinThree(head, payload, sig, ".");
  }

  /** A non-empty "jwtpayload" header wins over any authorization header, and is used verbatim. */
  lemma JwtPayloadHeaderFirst(req: Request, decode: string -> Option<UserInfo>)
    requires Headers.Get(req.header, JwtPayload) != ""
    ensures WithUserInfoRequestContext(req, decode)
         == req.(ctx := WithUserInfoClaims(req.ctx, Headers.Get(req.header, JwtPayload), decode))
  {
  }

  /** Without a usable header, or when the claims do not decode, the request is returned unchanged. */
  lemma MalformedHeadersKeepRequest(req: Request, decode: string -> Option<UserInfo>)
    requires Headers.Get(req.header, JwtPayload) == ""
    requires var auth := Headers.Get(req.header, Authorization);
      auth == "" || !ExtractTokenFromAuthHeader(auth).ok
      || !ExtractPayloadFromToken(ExtractTokenFromAuthHeader(auth).value).ok
      || decode(ExtractPayloadFromToken(ExtractTokenFromAuthHeader(auth).value).value).None?
    ensures WithUserInfoRequestContext(req, decode) == req
  {
  }

  /** In the metadata variant a non-bearer authorization value reaches decoding with an empty payload. */
  lemma MetadataOtherSchemeDecodesEmpty(ctx: Context, decode: string -> Option<UserInfo>)
    requires ctx.metadata.Some?
    requires JwtPayload !in ctx.metadata.value && Authorization in ctx.metadata.value
    requires |ctx.metadata.value[Authorization]| > 0
    requires !ExtractTokenFromAuthHeader(ctx.metadata.value[Authorization][0]).ok
    ensures WithUserInfoContext(ctx, decode) == WithUserInfoClaims(ctx, "", decode)
  {
  }

  /** The header names the package asks for are found under their canonical forms, as net/http stores them. */
  lemma AuthHeaderNames(h: Headers.Header)
    ensures Headers.Get(h, JwtPayload) == if "Jwtpayload" in h then h["Jwtpayload"] else ""
    ensures Headers.Get(h, Authorization) == if "Authorization" in h then h["Authorization"] else ""
  {
    PayloadHeaderName();
    AuthorizationHeaderName();
  }

  lemma PayloadHeaderName()
    ensures Headers.Canonical(JwtPayload) == "Jwtpayload"
  {
    Headers.LowerWordCanonical(JwtPayload);
    assert Headers.Upper(JwtPayload[0]) == 'J';
    assert JwtPayload[1..] == "wtpayload";
  }

  lemma AuthorizationHeaderName()
    ensures Headers.Canonical(Authorization) == "Authorization"
  {
    Headers.LowerWordCanonical(Authorization);
    assert Headers.Upper(Authorization[0]) == 'A';
    assert Authorization[1..] == "uthorization";
  }

  /** A request as net/http stores it, with a non-empty "Jwtpayload" header, uses that header's value. */
  lemma StoredJwtPayloadFirst(req: Request, decode: string -> Option<UserInfo>)
    requires "Jwtpayload" in req.header && req.header["Jwtpayload"] != ""
    ensures WithUserInfoRequestContext(req, decode)
         == req.(ctx := WithUserInfoClaims(req.ctx, req.header["Jwtpayload"], decode))
  {
    PayloadHeaderName();
  }

  /**
   * A request as net/http stores it, with a canonical "Authorization: Bearer h.p.s" header and
   * no payload header, carries the decoded middle segment afterwards.
   */
  lemma CanonicalBearerRequest(req: Request, scheme: string, head: string, payload: string, sig: string,
                               decode: string -> Option<UserInfo>)
    requires IsBearer(scheme)
    requires '.' !in head && '.' !in payload && '.' !in sig
    requires "Jwtpayload" !in req.header
    requires "Authorization" in req.header && req.header["Authorization"] == scheme + " " + head + "." + payload + "." + sig
    ensures WithUserInfoRequestContext(req, decode) == req.(ctx := WithUserInfoClaims(req.ctx, payload, decode))
  {
    PayloadHeaderName();
    AuthorizationHeaderName();
    BearerTokenPayload(scheme, head, payload, sig);
  }
}
