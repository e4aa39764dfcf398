/** The "try it" search of the landing page: a username is looked up on
    GitHub, its public repositories are converted to the app's record and
    shown, and the list is kept in `sessionStorage` for the project pages. */
module DemoModal {
  import opened Js
  import opened Http
  import opened Types
  import GitHub
  import ProjectCard

  const SessionKey: string := "demoRepositories"
  const FetchFailed: string := "Failed to fetch repositories"

  // ------------------------------------------------------ conversion

  /** The conversion `reposData.map(...)`: every field copied, absent topics
      as `[]`, `featured` from the star count, never hidden. */
  function ConvertRepo(g: GitHubRepository): (r: Repository)
    ensures r.topics == if g.topics.Some? then g.topics.value else []
    ensures r.featured == Some(g.stargazersCount >= 100) && r.hidden == Some(false) && r.coverImage == None
  {
    Repository(g.id, g.name, g.fullName, g.description, g.htmlUrl, g.cloneUrl,
               g.stargazersCount, g.forksCount, g.language,
               if g.topics.Some? then g.topics.value else [],
               g.createdAt, g.updatedAt, g.pushedAt, g.defaultBranch, g.homepage, g.license,
               g.archived, g.disabled, g.isPrivate, g.fork, g.size, g.openIssuesCount,
               g.watchersCount, g.visibility, None, Some(g.stargazersCount >= 100), Some(false))
  }

  /** The GitHub record an app record came from, with its topics present. */
  function ToGitHub(r: Repository): GitHubRepository {
    GitHubRepository(r.id, r.name, r.fullName, r.description, r.htmlUrl, r.cloneUrl,
                     r.stargazersCount, r.forksCount, r.language, Some(r.topics),
                     r.createdAt, r.updatedAt, r.pushedAt, r.defaultBranch, r.homepage, r.license,
                     r.archived, r.disabled, r.isPrivate, r.fork, r.size, r.openIssuesCount,
                     r.watchersCount, r.visibility)
  }

  /** Conversion loses nothing but the difference between absent and empty
      topics. */
  lemma ConvertRoundTrip(g: GitHubRepository)
    ensures ToGitHub(ConvertRepo(g)) == g.(topics := Some(if g.topics.Some? then g.topics.value else []))
    ensures g.topics.Some? ==> ToGitHub(ConvertRepo(g)) == g
  {
  }

  function ConvertRepos(gs: seq<GitHubRepository>): (rs: seq<Repository>)
    ensures |rs| == |gs|
    ensures forall i :: 0 <= i < |gs| ==> rs[i] == ConvertRepo(gs[i])
  {
    if gs == [] then [] else [ConvertRepo(gs[0])] + ConvertRepos(gs[1..])
  }

  /** A converted repository is featured exactly when its card shows the
      Rising badge or better. */
  lemma FeaturedMeansRisingOrBetter(g: GitHubRepository)
    ensures IsTrue(ConvertRepo(g).featured) <==> ProjectCard.TierRank(ProjectCard.TierOf(g.stargazersCount)) >= 2
  {
    ProjectCard.TierBands(g.stargazersCount);
  }

  // ------------------------------------------------------ the two fetches

  /** A thrown value: an `Error` with its message, or anything else. */
  datatype Thrown = ErrorValue(message: string) | OtherValue

  datatype SearchOutcome = Found(user: UserProfile, repos: seq<GitHubRepository>) | Failed(thrown: Thrown)

  /** `Promise.all([fetchUser(..), fetchUserRepositories(..)])`: both values,
      or the rejection that came first (`userFirst` says which call settles
      first when both fail). */
  function Joined(userRes: Result<UserProfile>, reposRes: Result<seq<GitHubRepository>>, userFirst: bool): (o: SearchOutcome)
    ensures o.Found? <==> userRes.Ok? && reposRes.Ok?
    ensures o.Found? ==> o.user == userRes.value && o.repos == reposRes.value
    ensures userRes.Err? && (reposRes.Ok? || userFirst) ==> o == Failed(ErrorValue(userRes.message))
    ensures reposRes.Err? && (userRes.Ok? || !userFirst) ==> o == Failed(ErrorValue(reposRes.message))
  {
    if userRes.Ok? && reposRes.Ok? then Found(userRes.value, reposRes.value)
    else if userRes.Err? && (reposRes.Ok? || userFirst) then Failed(ErrorValue(userRes.message))
    else Failed(ErrorValue(reposRes.message))
  }

  /** `err instanceof Error ? err.message : 'Failed to fetch repositories'`. */
  function ErrorMessage(t: Thrown): (m: string)
    ensures t.ErrorValue? ==> m == t.message
    ensures t.OtherValue? ==> m == FetchFailed
  {
    match t
    case ErrorValue(message) => message
    case OtherValue => FetchFailed
  }

  // ------------------------------------------------------ the modal's state

  datatype ModalState = ModalState(
    username: string,
    repos: seq<Repository>,
    user: Option<UserProfile>,
    loading: bool,
    error: Option<string>,
    hasSearched: bool,
    /** What `sessionStorage` holds under `demoRepositories`. */
    demoRepositories: Option<seq<Repository>>)

  const InitialModal: ModalState := ModalState("", [], None, false, None, false, None)

  /** The synchronous part of `handleSearch`: nothing at all when the name
      trims to empty; otherwise loading, no error, searched. */
  function Begin(s: ModalState): (t: ModalState)
    ensures AllSpace(s.username) ==> t == s
    ensures !AllSpace(s.username) ==> t.loading && t.error.None? && t.hasSearched
    ensures t.username == s.username && t.repos == s.repos && t.user == s.user
    ensures t.demoRepositories == s.demoRepositories
  {
    if Trim(s.username) == "" then s else s.(loading := true, error := None, hasSearched := true)
  }

  /** The continuation once `Promise.all` settles, including `finally`. */
  function Complete(s: ModalState, o: SearchOutcome): (t: ModalState)
    ensures !t.loading && t.username == s.username && t.hasSearched == s.hasSearched
    ensures o.Found? ==> t.user == Some(o.user) && t.repos == ConvertRepos(o.repos)
                         && t.demoRepositories == Some(t.repos) && t.error == s.error
    ensures o.Failed? ==> t.error == Some(ErrorMessage(o.thrown)) && t.repos == [] && t.user == None
                          && t.demoRepositories == s.demoRepositories
  {
    match o
    case Found(user, repos) =>
      var converted := ConvertRepos(repos);
      s.(user := Some(user), repos := converted, demoRepositories := Some(converted), loading := false)
    case Failed(thrown) =>
      s.(error := Some(ErrorMessage(thrown)), repos := [], user := None, loading := false)
  }

  /** `resetDemo`: everything back to the opening state except `loading`. */
  function Reset(s: ModalState): (t: ModalState)
    ensures t == InitialModal.(loading := s.loading)
  {
    s.(username := "", repos := [], user := None, error := None, hasSearched := false, demoRepositories := None)
  }

  /** A whole search, for the name typed and GitHub's two answers. */
  function Search(s: ModalState, userResp: Fetched<UserProfile>, reposResp: Fetched<seq<GitHubRepository>>,
                  userFirst: bool): ModalState
  {
    if Trim(s.username) == "" then s
    else Complete(Begin(s), Joined(GitHub.FetchUser(userResp), GitHub.FetchUserRepositories(reposResp), userFirst))
  }

  /** After a search the list shown is exactly the one kept for the project
      pages, and it holds the public repositories GitHub returned, converted,
      in order; a failed search shows nothing and no profile. */
  lemma SearchShowsWhatItStores(s: ModalState, userResp: Fetched<UserProfile>,
                                reposResp: Fetched<seq<GitHubRepository>>, userFirst: bool)
    requires Trim(s.username) != ""
    ensures var t := Search(s, userResp, reposResp, userFirst);
      && !t.loading && t.hasSearched
      && (t.error == None <==> t.user.Some?)
      && (t.user.Some? ==>
            (&& t.demoRepositories == Some(t.repos)
             && GitHub.FetchUserRepositories(reposResp).Ok?
             && t.repos == ConvertRepos(GitHub.FetchUserRepositories(reposResp).value)
             && forall i :: 0 <= i < |t.repos| ==> !t.repos[i].isPrivate))
      && (t.user.None? ==> t.repos == [] && t.error.Some?)
  {
    var t := Search(s, userResp, reposResp, userFirst);
    var rr := GitHub.FetchUserRepositories(reposResp);
    if t.user.Some? {
      forall i | 0 <= i < |t.repos| ensures !t.repos[i].isPrivate {
        assert t.repos[i] == ConvertRepo(rr.value[i]);
        assert rr.value[i] in rr.value;
      }
    }
  }

  /** Reset forgets every search: it is idempotent, and resetting after a
      search gives the same state as resetting before it. */
  lemma ResetForgetsSearch(s: ModalState, o: SearchOutcome)
    ensures Reset(Reset(s)) == Reset(s)
    ensures Reset(Complete(Begin(s), o)) == Reset(s.(loading := false))
  {
  }

  /** `handleKeyDown` starts a search on Enter only. */
  predicate TriggersSearch(key: string) {
    key == "Enter"
  }

  // ------------------------------------------------------ the component

  class Modal {
    var username: string
    var repos: seq<Repository>
    var user: Option<UserProfile>
    var loading: bool
    var error: Option<string>
    var hasSearched: bool
    var demoRepositories: Option<seq<Repository>>

    function State(): ModalState
      reads this
    {
      ModalState(username, repos, user, loading, error, hasSearched, demoRepositories)
    }

    constructor ()
      ensures State() == InitialModal
    {
      username, repos, user, loading, error, hasSearched, demoRepositories := "", [], None, false, None, false, None;
    }

    /** The input's `onChange`. */
    method SetUsername(text: string)
      modifies this
      ensures State() == old(State()).(username := text)
    {
      username := text;
    }

    /** `handleSearch` up to the `await`: answers the two URLs requested, or
        `None` when no request is made. */
    method BeginSearch() returns (urls: Option<(string, string)>)
      modifies this
      ensures State() == Begin(old(State()))
      ensures urls.Some? <==> Trim(old(username)) != ""
      ensures urls.Some? ==> urls.value == (GitHub.UserUrl(Trim(old(username))), GitHub.ReposUrl(Trim(old(username))))
    {
      var query := Trim(username);
      if query == "" {
        return None;
      }
      loading := true;
      error := None;
      hasSearched := true;
      urls := Some((GitHub.UserUrl(query), GitHub.ReposUrl(query)));
    }

    /** `handleSearch` after the `await`, through `finally`. */
    method CompleteSearch(outcome: SearchOutcome)
      modifies this
      ensures State() == Complete(old(State()), outcome)
    {
      match outcome {
        case Found(userData, reposData) =>
          user := Some(userData);
          var convertedRepos := ConvertRepos(reposData);
          repos := convertedRepos;
          demoRepositories := Some(convertedRepos);
        case Failed(err) =>
          error := Some(ErrorMessage(err));
          repos := [];
          user := None;
      }
      loading := false;
    }

    /** `handleSearch` as a whole, given GitHub's answers. */
    method HandleSearch(userResp: Fetched<UserProfile>, reposResp: Fetched<seq<GitHubRepository>>, userFirst: bool)
      modifies this
      ensures State() == Search(old(State()), userResp, reposResp, userFirst)
    {
      var urls := BeginSearch();
      if urls.None? {
        return;
      }
      var outcome := Joined(GitHub.FetchUser(userResp), GitHub.FetchUserRepositories(reposResp), userFirst);
      CompleteSearch(outcome);
    }

    method HandleKeyDown(key: string, userResp: Fetched<UserProfile>, reposResp: Fetched<seq<GitHubRepository>>, userFirst: bool)
      modifies this
      ensures TriggersSearch(key) ==> State() == Search(old(State()), userResp, reposResp, userFirst)
      ensures !TriggersSearch(key) ==> State() == old(State())
    {
      if key == "Enter" {
        HandleSearch(userResp, reposResp, userFirst);
      }
    }

    /** The timer set when the modal closes, on firing: the stored list is
        removed and the rest of the state is kept. */
    method ClearStored()
      modifies this
      ensures State() == old(State()).(demoRepositories := None)
    {
      demoRepositories := None;
    }

    method ResetDemo()
      modifies this
      ensures State() == Reset(old(State()))
    {
      username := "";
      repos := [];
      user := None;
      error := None;
      hasSearched := false;
      demoRepositories := None;
    }
  }
}
