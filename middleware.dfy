/**
 * The request decisions of `hyukebox/middleware.py`: bearer-token
 * authentication and the Origin allow-list. A decision either lets the
 * request through to the next handler or answers with a JSON error. The
 * environment variables are parameters, and the token provider's answer to
 * `GET {OAUTH_TOKEN_URL}/verify` is a function of the token that yields a
 * status code, or `Failed` when the request raises.
 */
module Middleware {
  import opened Wrappers
  import opened Text

  datatype Response =
    | PassThrough
    | JsonError(status: int, error: string)

  const HealthPath := "/health"
  const BearerPrefix := "Bearer "
  const MissingHeader := "Missing or invalid Authorization header"
  const InvalidToken := "Invalid or expired token"
  const OriginRejected := "Origin not allowed"

  /** The first piece of a split is everything before the first separator. */
  lemma SplitFirst(s: string, sep: char)
    ensures Find(s, sep) == -1 ==> Split(s, sep)[0] == s
    ensures Find(s, sep) >= 0 ==> Split(s, sep)[0] == s[..Find(s, sep)]
  {
  }

  /** A header that starts with `"Bearer "` splits on spaces into `"Bearer"` and at least one more piece. */
  lemma BearerSplit(header: string)
    requires StartsWith(header, BearerPrefix)
    ensures |Split(header, ' ')| >= 2
    ensures Split(header, ' ')[0] == "Bearer"
    ensures Split(header, ' ')[1] == Split(header[7..], ' ')[0]
  {
    var rest := header[7..];
    assert header == "Bearer" + [' '] + rest;
    FindAfterPiece("Bearer", ' ', rest);
    assert header[7..] == rest;
  }

  /**
   * `auth_header.split(" ")[1]`: the text after `"Bearer "` up to the next
   * space, or to the end when there is none.
   */
  function BearerToken(header: string): (token: string)
    requires StartsWith(header, BearerPrefix)
    ensures ' ' !in token
    ensures StartsWith(header[7..], token)
    ensures 7 + |token| == |header| || header[7 + |token|] == ' '
  {
    BearerSplit(header);
    SplitFirst(header[7..], ' ');
    Split(header, ' ')[1]
  }

  /**
   * `verify_token`: with no (or an empty) `OAUTH_TOKEN_URL` every token is
   * accepted; otherwise only a 200 answer accepts it, and a raised request
   * rejects it.
   */
  function VerifyToken(tokenUrl: Option<string>, answer: Fetch<int>): (ok: bool)
    ensures (tokenUrl.None? || tokenUrl.value == "") ==> ok
    ensures tokenUrl.Some? && tokenUrl.value != "" ==> (ok <==> answer == Fetched(200))
  {
    if tokenUrl.None? || tokenUrl.value == "" then true
    else
      match answer
      case Failed => false
      case Fetched(status) => status == 200
  }

  /** `OAuthMiddleware.dispatch`. */
  function OAuthDispatch(path: string, authHeader: Option<string>, tokenUrl: Option<string>, provider: string -> Fetch<int>): Response {
    if path == HealthPath then PassThrough
    else if authHeader.None? || authHeader.value == "" || !StartsWith(authHeader.value, BearerPrefix) then
      JsonError(401, MissingHeader)
    else if !VerifyToken(tokenUrl, provider(BearerToken(authHeader.value))) then
      JsonError(401, InvalidToken)
    else PassThrough
  }

  /**
   * The health check is never authenticated; any other request goes through
   * only with a `"Bearer "` header whose token is verified, and is otherwise
   * answered with 401 and the reason.
   */
  lemma OAuthDecision(path: string, authHeader: Option<string>, tokenUrl: Option<string>, provider: string -> Fetch<int>)
    ensures path == HealthPath ==> OAuthDispatch(path, authHeader, tokenUrl, provider) == PassThrough
    ensures path != HealthPath && (authHeader.None? || !StartsWith(authHeader.value, BearerPrefix)) ==>
      OAuthDispatch(path, authHeader, tokenUrl, provider) == JsonError(401, MissingHeader)
    ensures path != HealthPath && authHeader.Some? && StartsWith(authHeader.value, BearerPrefix) ==>
      OAuthDispatch(path, authHeader, tokenUrl, provider) ==
        if VerifyToken(tokenUrl, provider(BearerToken(authHeader.value))) then PassThrough else JsonError(401, InvalidToken)
  {
  }

  /** In development mode (no token URL) a request passes exactly when it is the health check or carries a `"Bearer "` header. */
  lemma DevelopmentModeAcceptsAnyBearer(path: string, authHeader: Option<string>, tokenUrl: Option<string>, provider: string -> Fetch<int>)
    requires tokenUrl.None? || tokenUrl.value == ""
    ensures OAuthDispatch(path, authHeader, tokenUrl, provider).PassThrough? <==>
      path == HealthPath || (authHeader.Some? && StartsWith(authHeader.value, BearerPrefix))
  {
  }

  /** With a token URL, a non-health request passes exactly when the provider answers 200 for the header's token. */
  lemma ProviderDecides(path: string, header: string, tokenUrl: string, provider: string -> Fetch<int>)
    requires path != HealthPath && tokenUrl != "" && StartsWith(header, BearerPrefix)
    ensures OAuthDispatch(path, Some(header), Some(tokenUrl), provider).PassThrough? <==>
      provider(BearerToken(header)) == Fetched(200)
  {
  }

  /** `os.getenv("ALLOWED_ORIGINS", "").split(",")`. */
  function AllowedOrigins(allowedEnv: Option<string>): (r: seq<string>)
    ensures |r| >= 1
  {
    Split(allowedEnv.GetOr(""), ',')
  }

  /** `OriginValidationMiddleware.dispatch`. */
  function OriginDispatch(allowedEnv: Option<string>, origin: Option<string>): Response {
    var allowed := AllowedOrigins(allowedEnv);
    if origin.Some? && origin.value != "" && allowed[0] != "" && origin.value !in allowed then
      JsonError(403, OriginRejected)
    else PassThrough
  }

  /** An unset or empty allow-list splits to `[""]` and lets every origin through. */
  lemma EmptyAllowListAllowsAll(allowedEnv: Option<string>, origin: Option<string>)
    requires allowedEnv.None? || allowedEnv.value == ""
    ensures AllowedOrigins(allowedEnv) == [""]
    ensures OriginDispatch(allowedEnv, origin) == PassThrough
  {
  }

  /** A list that starts with a comma has an empty first entry, so it too lets every origin through. */
  lemma LeadingCommaAllowsAll(rest: string, origin: Option<string>)
    ensures OriginDispatch(Some([','] + rest), origin) == PassThrough
  {
    var env := [','] + rest;
    assert Find(env, ',') == 0;
    assert Split(env, ',')[0] == "";
  }

  /**
   * For an allow-list written as comma-joined origins (none holding a comma,
   * the first non-empty), a request is rejected with 403 exactly when it
   * carries a non-empty Origin that is not one of them.
   */
  lemma ListedOrigins(origins: seq<string>, origin: Option<string>)
    requires |origins| >= 1 && origins[0] != ""
    requires forall i :: 0 <= i < |origins| ==> ',' !in origins[i]
    ensures AllowedOrigins(Some(Join(origins, ","))) == origins
    ensures OriginDispatch(Some(Join(origins, ",")), origin) ==
      if origin.Some? && origin.value != "" && origin.value !in origins then JsonError(403, OriginRejected) else PassThrough
  {
    SplitJoin(origins, ',');
  }
}
