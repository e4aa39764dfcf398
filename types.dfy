/** The records the DevShelf front end moves around: the app's own
    repository record, the repository record of the GitHub REST API, and the
    profile fields of a GitHub user. Dates stay as the ISO-8601 text GitHub
    sends. */
module Types {
  import opened Js

  datatype License = License(name: string, spdxId: string)

  /** The app's repository record (`Repository`); `featured` and `hidden`
      are optional flags the dashboard toggles. */
  datatype Repository = Repository(
    id: int,
    name: string,
    fullName: string,
    description: Option<string>,
    htmlUrl: string,
    cloneUrl: string,
    stargazersCount: int,
    forksCount: int,
    language: Option<string>,
    topics: seq<string>,
    createdAt: string,
    updatedAt: string,
    pushedAt: string,
    defaultBranch: string,
    homepage: Option<string>,
    license: Option<License>,
    archived: bool,
    disabled: bool,
    isPrivate: bool,
    fork: bool,
    size: int,
    openIssuesCount: int,
    watchersCount: int,
    visibility: string,
    coverImage: Option<string>,
    featured: Option<bool>,
    hidden: Option<bool>)

  /** A repository as the GitHub REST API returns it (`GitHubRepository`);
      `topics` may be absent. */
  datatype GitHubRepository = GitHubRepository(
    id: int,
    name: string,
    fullName: string,
    description: Option<string>,
    htmlUrl: string,
    cloneUrl: string,
    stargazersCount: int,
    forksCount: int,
    language: Option<string>,
    topics: Option<seq<string>>,
    createdAt: string,
    updatedAt: string,
    pushedAt: string,
    defaultBranch: string,
    homepage: Option<string>,
    license: Option<License>,
    archived: bool,
    disabled: bool,
    isPrivate: bool,
    fork: bool,
    size: int,
    openIssuesCount: int,
    watchersCount: int,
    visibility: string)

  /** The profile fields of a GitHub user that the demo search keeps. */
  datatype UserProfile = UserProfile(
    login: string,
    name: Option<string>,
    bio: Option<string>,
    avatarUrl: string,
    publicRepos: int,
    followers: int,
    following: int)
}
