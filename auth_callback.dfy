/** The page GitHub sends the browser back to: it reads `code` and `error`
    from the query string, has the token route exchange the code, stores the
    token and reports the outcome. Its status starts at loading and settles
    once, on success or error. */
module AuthCallback {
  import opened Js
  import opened Http
  import GitHubAuth

  datatype Status = Loading | Success | Failure

  const Cancelled: string := "Authentication was cancelled or failed"
  const NoCode: string := "No authorization code received"
  const Authenticated: string := "Successfully authenticated with GitHub!"
  const ExchangeFailed: string := "Failed to complete authentication"

  /** What `localStorage.setItem` keeps for a value: the text itself, or
      "undefined" when the token field was absent. `None` here means only an
      absent field; a JSON-null token would be kept as "null" and is not
      modelled. */
  function StorageText(v: Option<string>): (s: string)
    ensures v.Some? ==> s == v.value
    ensures v.None? ==> s == "undefined"
  {
    if v.Some? then v.value else "undefined"
  }

  /** `handleCallback`: the final status, the message, and the store, for the
      query parameters, the token route's answer and the store beforehand. */
  function Outcome(code: Option<string>, error: Option<string>, exchange: Fetched<GitHubAuth.AuthResponse>,
                   items: map<string, string>): (Status, string, map<string, string>)
  {
    if Truthy(error) then (Failure, Cancelled, items)
    else if !Truthy(code) then (Failure, NoCode, items)
    else match GitHubAuth.ExchangeCodeForToken(exchange)
      case Ok(token) => (Success, Authenticated, GitHubAuth.Stored(items, StorageText(token.accessToken)))
      case Err(_) => (Failure, ExchangeFailed, items)
  }

  /** The status never stays at loading, and the store changes only on
      success, where it gains exactly the token. */
  lemma OutcomeSettles(code: Option<string>, error: Option<string>, exchange: Fetched<GitHubAuth.AuthResponse>,
                       items: map<string, string>)
    ensures var (status, _, after) := Outcome(code, error, exchange, items);
      && status != Loading
      && (status != Success ==> after == items)
      && (status == Success ==> exists t :: after == GitHubAuth.Stored(items, t))
  {
    var (status, _, after) := Outcome(code, error, exchange, items);
    if status == Success {
      var token := GitHubAuth.ExchangeCodeForToken(exchange).value;
      assert after == GitHubAuth.Stored(items, StorageText(token.accessToken));
    }
  }

  /** An `error` parameter wins over everything: no exchange is looked at. */
  lemma ErrorParamFirst(code: Option<string>, error: string, e1: Fetched<GitHubAuth.AuthResponse>,
                        e2: Fetched<GitHubAuth.AuthResponse>, items: map<string, string>)
    requires error != ""
    ensures Outcome(code, Some(error), e1, items) == Outcome(None, Some(error), e2, items) == (Failure, Cancelled, items)
  {
  }

  /** Without a code (and without an error) the page fails before exchanging. */
  lemma MissingCode(code: Option<string>, error: Option<string>, e1: Fetched<GitHubAuth.AuthResponse>,
                    items: map<string, string>)
    requires !Truthy(error) && !Truthy(code)
    ensures Outcome(code, error, e1, items) == (Failure, NoCode, items)
  {
  }

  /** An ok answer stores its token and reports success; any failure of the
      exchange reports "Failed to complete authentication" and stores nothing. */
  lemma ExchangeDecides(code: string, error: Option<string>, exchange: Fetched<GitHubAuth.AuthResponse>,
                        items: map<string, string>)
    requires !Truthy(error) && code != ""
    ensures exchange.Response? && IsOk(exchange.status) && exchange.body.Valid? ==>
      var token := exchange.body.value.accessToken;
      && Outcome(Some(code), error, exchange, items) == (Success, Authenticated, GitHubAuth.Stored(items, StorageText(token)))
      && (token.Some? && token.value != "" ==> GitHubAuth.HasToken(Outcome(Some(code), error, exchange, items).2))
    ensures exchange.NetworkError? || !IsOk(exchange.status) || exchange.body.Malformed? ==>
      Outcome(Some(code), error, exchange, items) == (Failure, ExchangeFailed, items)
  {
  }

  /** The heading `getStatusContent` shows for each status. */
  function Heading(s: Status): (h: string)
    ensures s == Loading <==> h == "Completing Authentication"
    ensures s == Success <==> h == "Authentication Successful!"
    ensures s == Failure <==> h == "Authentication Failed"
  {
    match s
    case Loading => "Completing Authentication"
    case Success => "Authentication Successful!"
    case Failure => "Authentication Failed"
  }

  class CallbackPage {
    var status: Status
    var message: string
    const store: GitHubAuth.AuthStore

    constructor (store: GitHubAuth.AuthStore)
      ensures status == Loading && message == "" && this.store == store
    {
      this.store := store;
      status := Loading;
      message := "";
    }

    /** `handleCallback`. */
    method HandleCallback(code: Option<string>, error: Option<string>, exchange: Fetched<GitHubAuth.AuthResponse>)
      modifies this, store
      ensures (status, message, store.items) == Outcome(code, error, exchange, old(store.items))
    {
      if error.Some? && error.value != "" {
        status := Failure;
        message := Cancelled;
        return;
      }
      if code.None? || code.value == "" {
        status := Failure;
        message := NoCode;
        return;
      }
      var tokenData := GitHubAuth.ExchangeCodeForToken(exchange);
      if tokenData.Err? {
        status := Failure;
        message := ExchangeFailed;
        return;
      }
      store.StoreAccessToken(StorageText(tokenData.value.accessToken));
      status := Success;
      message := Authenticated;
    }
  }
}
