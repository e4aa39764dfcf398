/** The server route `POST /api/auth/github/callback`: it trades an OAuth
    authorization code for an access token at GitHub, through an ordered chain
    of guards, each answering with a status and a JSON body. The request body,
    the environment and GitHub's answer are inputs. */
module TokenRoute {
  import opened Js
  import opened Http
  import GitHubAuth

  const CodeRequired: string := "Authorization code is required"
  const NotConfigured: string := "GitHub OAuth credentials not configured"
  const OAuthError: string := "OAuth error"
  const InternalError: string := "Internal server error"
  const TokenEndpoint: string := "https://github.com/login/oauth/access_token"
  const DefaultRedirectUri: string := "http://localhost:3000/auth/callback"

  /** What `request.json()` yields: a parse failure, the JSON `null` (whose
      destructuring throws), or an object with its `code` field. */
  datatype RequestBody = Unparsable | NullBody | Body(code: Option<string>)

  /** `GITHUB_CLIENT_ID`, `GITHUB_CLIENT_SECRET` and the redirect URI. */
  datatype RouteConfig = RouteConfig(clientId: Option<string>, clientSecret: Option<string>, redirectUri: string)

  function ConfigFromEnv(clientId: Option<string>, clientSecret: Option<string>, envRedirectUri: Option<string>): (c: RouteConfig)
    ensures c.clientId == clientId && c.clientSecret == clientSecret
    ensures Truthy(envRedirectUri) ==> c.redirectUri == envRedirectUri.value
    ensures !Truthy(envRedirectUri) ==> c.redirectUri == DefaultRedirectUri
  {
    RouteConfig(clientId, clientSecret, OrElse(envRedirectUri, DefaultRedirectUri))
  }

  /** The JSON body of the POST to GitHub's token endpoint. */
  datatype TokenRequest = TokenRequest(clientId: string, clientSecret: string, code: string, redirectUri: string)

  /** GitHub's token answer; absent fields are `None`. */
  datatype TokenJson = TokenJson(
    error: Option<string>,
    errorDescription: Option<string>,
    accessToken: Option<string>,
    tokenType: Option<string>,
    scope: Option<string>)

  datatype ReplyBody = ErrorBody(error: string) | TokenBody(token: GitHubAuth.AuthResponse)
  datatype Reply = Reply(status: nat, body: ReplyBody)

  /** The token request the route sends, or `None` when it answers before
      sending one. */
  function TokenRequestFor(req: RequestBody, cfg: RouteConfig): (t: Option<TokenRequest>)
    ensures t.Some? <==> req.Body? && Truthy(req.code) && Truthy(cfg.clientId) && Truthy(cfg.clientSecret)
    ensures t.Some? ==> t.value == TokenRequest(cfg.clientId.value, cfg.clientSecret.value, req.code.value, cfg.redirectUri)
  {
    match req
    case Body(code) =>
      if !Truthy(code) then None
      else if !Truthy(cfg.clientId) || !Truthy(cfg.clientSecret) then None
      else Some(TokenRequest(cfg.clientId.value, cfg.clientSecret.value, code.value, cfg.redirectUri))
    case _ => None
  }

  /** `POST`, given what GitHub answers to the token request (looked at only
      when one is sent). */
  function HandlePost(req: RequestBody, cfg: RouteConfig, tokenFetch: Fetched<TokenJson>): (reply: Reply)
    ensures reply.status in {200, 400, 500}
    ensures reply.status == 200 <==> reply.body.TokenBody?
    ensures TokenRequestFor(req, cfg).None? ==> reply.status != 200
  {
    match req
    case Unparsable => Reply(500, ErrorBody(InternalError))
    case NullBody => Reply(500, ErrorBody(InternalError))
    case Body(code) =>
      if !Truthy(code) then Reply(400, ErrorBody(CodeRequired))
      else if !Truthy(cfg.clientId) || !Truthy(cfg.clientSecret) then Reply(500, ErrorBody(NotConfigured))
      else match tokenFetch
        case NetworkError(_) => Reply(500, ErrorBody(InternalError))
        case Response(status, body) =>
          if !IsOk(status) then Reply(500, ErrorBody(InternalError))
          else match body
            case Malformed(_) => Reply(500, ErrorBody(InternalError))
            case Valid(data) =>
              if Truthy(data.error) then Reply(400, ErrorBody(OrElse(data.errorDescription, OAuthError)))
              else Reply(200, TokenBody(GitHubAuth.AuthResponse(data.accessToken, data.tokenType, data.scope)))
  }

  /** A falsy code is refused with 400 before the credentials are looked at,
      and GitHub is never asked. */
  lemma CodeCheckedFirst(code: Option<string>, cfg: RouteConfig, f1: Fetched<TokenJson>, f2: Fetched<TokenJson>)
    requires !Truthy(code)
    ensures HandlePost(Body(code), cfg, f1) == HandlePost(Body(code), cfg, f2) == Reply(400, ErrorBody(CodeRequired))
    ensures TokenRequestFor(Body(code), cfg).None?
  {
  }

  /** With a code but without both credentials: 500, nothing sent. */
  lemma CredentialsRequired(code: string, cfg: RouteConfig, f1: Fetched<TokenJson>)
    requires code != "" && (!Truthy(cfg.clientId) || !Truthy(cfg.clientSecret))
    ensures HandlePost(Body(Some(code)), cfg, f1) == Reply(500, ErrorBody(NotConfigured))
    ensures TokenRequestFor(Body(Some(code)), cfg).None?
  {
  }

  /** A body that cannot be parsed or destructured throws before any other
      check, so it ends in the generic 500 whatever the configuration. */
  lemma BadBodyIsInternal(cfg: RouteConfig, f: Fetched<TokenJson>)
    ensures HandlePost(Unparsable, cfg, f) == HandlePost(NullBody, cfg, f) == Reply(500, ErrorBody(InternalError))
    ensures TokenRequestFor(Unparsable, cfg).None? && TokenRequestFor(NullBody, cfg).None?
  {
  }

  /** Once the request is sent, a failed or non-ok token call and an
      unreadable token answer all end in the generic 500. */
  lemma FailuresAreInternal(code: string, cfg: RouteConfig, f: Fetched<TokenJson>)
    requires Truthy(cfg.clientId) && Truthy(cfg.clientSecret) && code != ""
    ensures f.NetworkError? || !IsOk(f.status) || f.body.Malformed? ==>
      HandlePost(Body(Some(code)), cfg, f) == Reply(500, ErrorBody(InternalError))
  {
  }

  /** GitHub's answer when the request is sent and answered ok: its `error`
      becomes a 400 with its description or "OAuth error"; otherwise the reply
      holds exactly the token, its type and its scope. */
  lemma TokenAnswer(code: string, cfg: RouteConfig, status: nat, data: TokenJson)
    requires Truthy(cfg.clientId) && Truthy(cfg.clientSecret) && code != "" && IsOk(status)
    ensures var reply := HandlePost(Body(Some(code)), cfg, Response(status, Valid(data)));
      && (Truthy(data.error) && Truthy(data.errorDescription) ==> reply == Reply(400, ErrorBody(data.errorDescription.value)))
      && (Truthy(data.error) && !Truthy(data.errorDescription) ==> reply == Reply(400, ErrorBody(OAuthError)))
      && (!Truthy(data.error) ==>
            reply == Reply(200, TokenBody(GitHubAuth.AuthResponse(data.accessToken, data.tokenType, data.scope))))
  {
  }

  /** Seen from the browser: `exchangeCodeForToken` gets the token exactly
      when the route answers 200, and its single failure message for every
      400 and 500. */
  lemma ClientSeesReply(req: RequestBody, cfg: RouteConfig, f: Fetched<TokenJson>)
    ensures var reply := HandlePost(req, cfg, f);
      var seen := GitHubAuth.ExchangeCodeForToken(Response(reply.status,
        Valid(if reply.body.TokenBody? then reply.body.token else GitHubAuth.AuthResponse(None, None, None))));
      && (reply.status == 200 ==> seen == Ok(reply.body.token))
      && (reply.status != 200 ==> seen == Err("Failed to exchange code for token"))
  {
  }
}
