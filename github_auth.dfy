/** The browser side of the GitHub OAuth flow: the token and state kept in
    `localStorage`, the state check of the callback, the authorize URL, and
    the helpers that call GitHub with the token (their answers are inputs). */
module GitHubAuth {
  import opened Js
  import opened Http

  const TokenKey: string := "github_access_token"
  const StateKey: string := "github_oauth_state"
  const InvalidState: string := "Invalid OAuth state parameter"

  const DefaultClientId: string := "your_github_client_id"
  const DefaultRedirectUri: string := "http://localhost:3000/auth/callback"
  const AuthorizeBase: string := "https://github.com/login/oauth/authorize?client_id="

  /** `GitHubAuthResponse`, as parsed from the token route's answer; a field
      the answer lacks is `None`. */
  datatype AuthResponse = AuthResponse(accessToken: Option<string>, tokenType: Option<string>, scope: Option<string>)

  datatype OAuthConfig = OAuthConfig(clientId: string, redirectUri: string)

  /** The client id and redirect URI: the environment's value when it is
      non-empty, else the built-in default. */
  function ConfigFrom(envClientId: Option<string>, envRedirectUri: Option<string>): (c: OAuthConfig)
    ensures Truthy(envClientId) ==> c.clientId == envClientId.value
    ensures !Truthy(envClientId) ==> c.clientId == DefaultClientId
    ensures Truthy(envRedirectUri) ==> c.redirectUri == envRedirectUri.value
    ensures !Truthy(envRedirectUri) ==> c.redirectUri == DefaultRedirectUri
  {
    OAuthConfig(OrElse(envClientId, DefaultClientId), OrElse(envRedirectUri, DefaultRedirectUri))
  }

  /** The authorize URL; the state is its last parameter, written verbatim. */
  function AuthorizeUrl(cfg: OAuthConfig, state: string): (u: string)
    ensures |u| >= |AuthorizeBase| + |state| + 7
    ensures u[..|AuthorizeBase|] == AuthorizeBase
    ensures u[|u| - |state| - 7..] == "&state=" + state
  {
    AuthorizeBase + cfg.clientId + "&redirect_uri=" + cfg.redirectUri + "&scope=user,repo" + "&state=" + state
  }

  // ------------------------------------------------------ the store

  /** `localStorage.getItem(key)`. */
  function Lookup(items: map<string, string>, key: string): (v: Option<string>)
    ensures v.Some? <==> key in items
    ensures v.Some? ==> v.value == items[key]
  {
    if key in items then Some(items[key]) else None
  }

  /** The store after `storeAccessToken(token)`. */
  function Stored(items: map<string, string>, token: string): map<string, string> {
    items[TokenKey := token]
  }

  /** The store after `removeAccessToken()`. */
  function Removed(items: map<string, string>): map<string, string> {
    items - {TokenKey, StateKey}
  }

  /** `isAuthenticated()`: `!!getItem(TokenKey)`. */
  predicate HasToken(items: map<string, string>) {
    Truthy(Lookup(items, TokenKey))
  }

  /** `handleOAuthCallback`, on the URL's `code` and `state` and the store:
      the answer and the store afterwards. */
  function Callback(items: map<string, string>, code: Option<string>, state: Option<string>)
    : (out: (Result<Option<string>>, map<string, string>))
    ensures out.0.Ok? <==> state == Lookup(items, StateKey)
    ensures out.0.Ok? ==> out.0.value == code && Lookup(out.1, StateKey) == None
    ensures out.0.Err? ==> out.0.message == InvalidState && out.1 == items
    ensures forall key :: key != StateKey ==> Lookup(out.1, key) == Lookup(items, key)
  {
    if state != Lookup(items, StateKey) then (Err(InvalidState), items)
    else (Ok(code), items - {StateKey})
  }

  /** A stored token reads back, and nothing else moves. */
  lemma StoreThenGet(items: map<string, string>, token: string, key: string)
    ensures Lookup(Stored(items, token), TokenKey) == Some(token)
    ensures HasToken(Stored(items, token)) <==> token != ""
    ensures key != TokenKey ==> Lookup(Stored(items, token), key) == Lookup(items, key)
  {
  }

  /** Logging out drops the token and the state, and only those. */
  lemma RemoveForgets(items: map<string, string>, key: string)
    ensures Lookup(Removed(items), TokenKey) == None && Lookup(Removed(items), StateKey) == None
    ensures !HasToken(Removed(items))
    ensures key != TokenKey && key != StateKey ==> Lookup(Removed(items), key) == Lookup(items, key)
  {
  }

  /** The state written by `initiateGitHubLogin` is accepted once: the
      callback carrying it succeeds with the code and clears it, so the same
      callback a second time fails; any other state fails and leaves the
      store alone. */
  lemma StateRoundTrip(items: map<string, string>, state: string, code: Option<string>, other: Option<string>)
    requires other != Some(state)
    ensures var s := items[StateKey := state];
      && Callback(s, code, Some(state)) == (Ok(code), s - {StateKey})
      && Callback(Callback(s, code, Some(state)).1, code, Some(state)).0 == Err(InvalidState)
      && Callback(s, code, other) == (Err(InvalidState), s)
  {
    var s := items[StateKey := state];
    assert Lookup(s - {StateKey}, StateKey) == None;
  }

  /** With no `state` in the URL and none stored the check passes: the two
      absent values compare equal. */
  lemma MissingStateOnBothSidesAccepted(items: map<string, string>, code: Option<string>)
    requires StateKey !in items
    ensures Callback(items, code, None) == (Ok(code), items)
  {
    assert items - {StateKey} == items;
  }

  /** `localStorage` for this origin. */
  class AuthStore {
    var items: map<string, string>

    constructor (initial: map<string, string>)
      ensures items == initial
    {
      items := initial;
    }

    method StoreAccessToken(token: string)
      modifies this
      ensures items == Stored(old(items), token)
    {
      items := items[TokenKey := token];
    }

    method GetAccessToken() returns (token: Option<string>)
      ensures token == Lookup(items, TokenKey)
    {
      if TokenKey in items {
        token := Some(items[TokenKey]);
      } else {
        token := None;
      }
    }

    method IsAuthenticated() returns (b: bool)
      ensures b <==> TokenKey in items && items[TokenKey] != ""
    {
      var token := GetAccessToken();
      b := token.Some? && token.value != "";
    }

    method RemoveAccessToken()
      modifies this
      ensures items == Removed(old(items))
    {
      items := items - {TokenKey};
      items := items - {StateKey};
    }

    /** `initiateGitHubLogin`, the random state given; answers the URL the
        page is sent to. */
    method InitiateGitHubLogin(cfg: OAuthConfig, state: string) returns (url: string)
      modifies this
      ensures items == old(items)[StateKey := state]
      ensures url == AuthorizeUrl(cfg, state)
    {
      items := items[StateKey := state];
      url := AuthorizeUrl(cfg, state);
    }

    method HandleOAuthCallback(code: Option<string>, state: Option<string>) returns (r: Result<Option<string>>)
      modifies this
      ensures (r, items) == Callback(old(items), code, state)
    {
      var storedState := Lookup(items, StateKey);
      if state != storedState {
        return Err(InvalidState);
      }
      items := items - {StateKey};
      r := Ok(code);
    }
  }

  // ------------------------------------------------------ fetch helpers

  /** The three helpers that throw on a non-ok status. */
  function ExpectOk<T>(resp: Fetched<T>, failure: string): (r: Result<T>)
    ensures resp.NetworkError? ==> r == Err(resp.reason)
    ensures resp.Response? && !IsOk(resp.status) ==> r == Err(failure)
    ensures resp.Response? && IsOk(resp.status) ==>
      r == if resp.body.Valid? then Ok(resp.body.value) else Err(resp.body.reason)
  {
    match resp
    case NetworkError(reason) => Err(reason)
    case Response(status, body) =>
      if !IsOk(status) then Err(failure)
      else if body.Valid? then Ok(body.value) else Err(body.reason)
  }

  function ExchangeCodeForToken(resp: Fetched<AuthResponse>): (r: Result<AuthResponse>)
    ensures resp.NetworkError? ==> r == Err(resp.reason)
    ensures resp.Response? && !IsOk(resp.status) ==> r == Err("Failed to exchange code for token")
    ensures resp.Response? && IsOk(resp.status) && resp.body.Malformed? ==> r == Err(resp.body.reason)
    ensures resp.Response? && IsOk(resp.status) && resp.body.Valid? ==> r == Ok(resp.body.value)
  {
    ExpectOk(resp, "Failed to exchange code for token")
  }

  function GetAuthenticatedUser<U>(resp: Fetched<U>): (r: Result<U>)
    ensures resp.NetworkError? ==> r == Err(resp.reason)
    ensures resp.Response? && !IsOk(resp.status) ==> r == Err("Failed to fetch authenticated user")
    ensures resp.Response? && IsOk(resp.status) && resp.body.Malformed? ==> r == Err(resp.body.reason)
    ensures resp.Response? && IsOk(resp.status) && resp.body.Valid? ==> r == Ok(resp.body.value)
  {
    ExpectOk(resp, "Failed to fetch authenticated user")
  }

  function GetAuthenticatedUserRepos<R>(resp: Fetched<seq<R>>): (r: Result<seq<R>>)
    ensures resp.NetworkError? ==> r == Err(resp.reason)
    ensures resp.Response? && !IsOk(resp.status) ==> r == Err("Failed to fetch user repositories")
    ensures resp.Response? && IsOk(resp.status) && resp.body.Malformed? ==> r == Err(resp.body.reason)
    ensures resp.Response? && IsOk(resp.status) && resp.body.Valid? ==> r == Ok(resp.body.value)
  {
    ExpectOk(resp, "Failed to fetch user repositories")
  }

  /** `getRepositoryReadme`: an empty text when GitHub answers non-ok,
      otherwise the decoded `content` field (`decode` stands for `atob`). */
  function GetRepositoryReadme(resp: Fetched<string>, decode: string -> Result<string>): (r: Result<string>)
    ensures resp.Response? && !IsOk(resp.status) ==> r == Ok("")
    ensures resp.Response? && IsOk(resp.status) && resp.body.Valid? ==> r == decode(resp.body.value)
    ensures resp.NetworkError? ==> r == Err(resp.reason)
  {
    match resp
    case NetworkError(reason) => Err(reason)
    case Response(status, body) =>
      if !IsOk(status) then Ok("")
      else if body.Valid? then decode(body.value) else Err(body.reason)
  }

  /** `getRepositoryActivity` and `getRepositoryIssues`: an empty list when
      GitHub answers non-ok. */
  function ListOrEmpty<E>(resp: Fetched<seq<E>>): (r: Result<seq<E>>)
    ensures resp.Response? && !IsOk(resp.status) ==> r == Ok([])
    ensures resp.Response? && IsOk(resp.status) && resp.body.Valid? ==> r == Ok(resp.body.value)
    ensures resp.NetworkError? ==> r == Err(resp.reason)
  {
    match resp
    case NetworkError(reason) => Err(reason)
    case Response(status, body) =>
      if !IsOk(status) then Ok([])
      else if body.Valid? then Ok(body.value) else Err(body.reason)
  }

  /** Past a non-ok status no helper looks at the body: the fallback is the
      same whatever GitHub sent. */
  lemma FallbacksIgnoreBody<E>(status: nat, b1: Json<seq<E>>, b2: Json<seq<E>>,
                               t1: Json<string>, t2: Json<string>, decode: string -> Result<string>)
    requires !IsOk(status)
    ensures ListOrEmpty(Response(status, b1)) == ListOrEmpty(Response(status, b2)) == Ok([])
    ensures GetRepositoryReadme(Response(status, t1), decode) == GetRepositoryReadme(Response(status, t2), decode) == Ok("")
    ensures ExpectOk(Response(status, b1), "x") == ExpectOk(Response(status, b2), "x") == Err("x")
  {
  }
}
