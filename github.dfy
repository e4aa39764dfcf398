/** The two public GitHub REST calls: a user's repositories and a user's
    profile. The answer of `fetch` is an input; each call either returns a
    value or throws an `Error` whose message is modelled as `Err`. */
module GitHub {
  import opened Js
  import opened Seqs
  import opened Http
  import opened Types

  const ApiUsers: string := "https://api.github.com/users/"
  const ReposQuery: string := "/repos?sort=updated&per_page=100"
  const UserNotFound: string := "User not found"
  const RateLimited: string := "Rate limit exceeded. Please try again later."

  /** The URL of a user's repository list, the name inserted verbatim. */
  function ReposUrl(username: string): (u: string)
    ensures |u| == |ApiUsers| + |username| + |ReposQuery|
    ensures u[..|ApiUsers|] == ApiUsers
    ensures u[|ApiUsers|..|ApiUsers| + |username|] == username
    ensures u[|ApiUsers| + |username|..] == ReposQuery
  {
    ApiUsers + username + ReposQuery
  }

  function UserUrl(username: string): (u: string)
    ensures |u| == |ApiUsers| + |username|
    ensures u[..|ApiUsers|] == ApiUsers && u[|ApiUsers|..] == username
  {
    ApiUsers + username
  }

  /** The error thrown on a non-ok status; `what` is "repositories" or "user". */
  function StatusMessage(what: string, status: nat): string {
    if status == 404 then UserNotFound
    else if status == 403 then RateLimited
    else "Failed to fetch " + what + ": " + NatToString(status)
  }

  predicate IsPublic(r: GitHubRepository) { !r.isPrivate }

  /** `fetchUserRepositories`: on an ok response exactly the public
      repositories, in response order; otherwise the status error, or the
      rejection of `fetch` or of `json()` passed on unchanged. */
  function FetchUserRepositories(resp: Fetched<seq<GitHubRepository>>): (r: Result<seq<GitHubRepository>>)
    ensures resp.NetworkError? ==> r == Err(resp.reason)
    ensures resp.Response? && !IsOk(resp.status) ==> r == Err(StatusMessage("repositories", resp.status))
    ensures resp.Response? && IsOk(resp.status) && resp.body.Malformed? ==> r == Err(resp.body.reason)
    ensures resp.Response? && IsOk(resp.status) && resp.body.Valid? ==>
      && r.Ok?
      && IsSubsequence(r.value, resp.body.value)
      && (forall x :: x in r.value <==> x in resp.body.value && !x.isPrivate)
      && (forall x :: multiset(r.value)[x] == if x.isPrivate then 0 else multiset(resp.body.value)[x])
  {
    match resp
    case NetworkError(reason) => Err(reason)
    case Response(status, body) =>
      if !IsOk(status) then Err(StatusMessage("repositories", status))
      else match body
        case Malformed(reason) => Err(reason)
        case Valid(repos) =>
          FilterIsSubsequence(repos, IsPublic);
          FilterMembers(repos, IsPublic);
          assert forall x :: multiset(Filter(repos, IsPublic))[x] == if x.isPrivate then 0 else multiset(repos)[x] by {
            forall x { FilterCount(repos, IsPublic, x); }
          }
          Ok(Filter(repos, IsPublic))
  }

  /** `fetchUser`: on an ok response the parsed body itself. */
  function FetchUser<T>(resp: Fetched<T>): (r: Result<T>)
    ensures resp.NetworkError? ==> r == Err(resp.reason)
    ensures resp.Response? && !IsOk(resp.status) ==> r == Err(StatusMessage("user", resp.status))
    ensures resp.Response? && IsOk(resp.status) ==>
      r == if resp.body.Valid? then Ok(resp.body.value) else Err(resp.body.reason)
  {
    match resp
    case NetworkError(reason) => Err(reason)
    case Response(status, body) =>
      if !IsOk(status) then Err(StatusMessage("user", status))
      else match body
        case Malformed(reason) => Err(reason)
        case Valid(v) => Ok(v)
  }

  /** 404 and 403 read the same for both calls; any other failing status is
      named in the message, so two different statuses never give the same
      message. */
  lemma StatusMessages(what: string, s1: nat, s2: nat)
    ensures StatusMessage(what, 404) == UserNotFound && StatusMessage(what, 403) == RateLimited
    ensures s1 != s2 ==> StatusMessage(what, s1) != StatusMessage(what, s2)
  {
    var prefix := "Failed to fetch " + what + ": ";
    if s1 != s2 && s1 != 404 && s1 != 403 && s2 != 404 && s2 != 403 {
      NatToStringInjective(s1, s2);
      var m1, m2 := prefix + NatToString(s1), prefix + NatToString(s2);
      assert m1[|prefix|..] == NatToString(s1) && m2[|prefix|..] == NatToString(s2);
    } else if s1 != s2 {
      var p1, p2 := StatusMessage(what, s1), StatusMessage(what, s2);
      assert p1[0] != p2[0];
    }
  }

  /** A failing status at the repository call never yields the repository
      list: the status check comes before the body is read. */
  lemma StatusCheckedFirst(status: nat, b1: Json<seq<GitHubRepository>>, b2: Json<seq<GitHubRepository>>)
    requires !IsOk(status)
    ensures FetchUserRepositories(Response(status, b1)) == FetchUserRepositories(Response(status, b2))
    ensures FetchUserRepositories(Response(status, b1)).Err?
  {
  }
}
