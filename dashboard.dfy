/** The repository list of the dashboard: the search and language filter,
    the sort by a chosen key and direction, the per-id flag toggles, the
    language choices and the star and fork totals. */
module Dashboard {
  import opened Js
  import opened Seqs
  import opened Types

  datatype SortField = Stars | Forks | Updated | Created
  datatype SortOrder = Asc | Desc

  /** The page's state: the list and the controls above it. */
  datatype DashboardState = DashboardState(
    repos: seq<Repository>,
    searchTerm: string,
    selectedLanguage: string,
    sortBy: SortField,
    sortOrder: SortOrder)

  /** The page opens on the sample repositories sorted by stars, descending. */
  function InitialState(sample: seq<Repository>): (s: DashboardState)
    ensures s.repos == sample && s.searchTerm == "" && s.selectedLanguage == ""
    ensures s.sortBy == Stars && s.sortOrder == Desc
  {
    DashboardState(sample, "", "", Stars, Desc)
  }

  // ------------------------------------------------------ filtering

  /** The filter test: the lower-cased name contains the lower-cased search
      term, and no language is selected or it is the repository's. */
  predicate Matches(term: string, language: string, r: Repository) {
    Includes(ToLower(r.name), ToLower(term)) && (language == "" || r.language == Some(language))
  }

  /** The number a repository is compared by; `time` turns an ISO-8601 date
      into its epoch milliseconds (`new Date(s).getTime()`). */
  function SortKey(field: SortField, time: string -> int, r: Repository): int {
    match field
    case Stars => r.stargazersCount
    case Forks => r.forksCount
    case Updated => time(r.updatedAt)
    case Created => time(r.createdAt)
  }

  /** `a - b` for ascending, `b - a` for descending: sorting by the key, or
      by its negation. */
  function Rank(field: SortField, order: SortOrder, time: string -> int, r: Repository): int {
    if order == Asc then SortKey(field, time, r) else -SortKey(field, time, r)
  }

  /** The comparator's key as a function value. */
  function RankKey(field: SortField, order: SortOrder, time: string -> int): Repository -> int {
    x => Rank(field, order, time, x)
  }

  /** Sorted by rank is sorted by the key, ascending or descending. */
  lemma RankOrders(r: seq<Repository>, field: SortField, order: SortOrder, time: string -> int)
    requires SortedBy(r, RankKey(field, order, time))
    ensures order == Asc ==> forall i, j :: 0 <= i < j < |r| ==> SortKey(field, time, r[i]) <= SortKey(field, time, r[j])
    ensures order == Desc ==> forall i, j :: 0 <= i < j < |r| ==> SortKey(field, time, r[i]) >= SortKey(field, time, r[j])
  {
    forall i, j | 0 <= i < j < |r| ensures Rank(field, order, time, r[i]) <= Rank(field, order, time, r[j]) {
      assert RankKey(field, order, time)(r[i]) <= RankKey(field, order, time)(r[j]);
    }
  }

  /** `filteredRepos`: exactly the matching repositories, each as often as
      in `repos`, ordered by the key in the chosen direction. */
  function FilteredRepos(repos: seq<Repository>, term: string, language: string,
                         field: SortField, order: SortOrder, time: string -> int): (r: seq<Repository>)
    ensures multiset(r) == multiset(Filter(repos, x => Matches(term, language, x)))
    ensures forall x :: x in r <==> x in repos && Matches(term, language, x)
    ensures order == Asc ==> forall i, j :: 0 <= i < j < |r| ==> SortKey(field, time, r[i]) <= SortKey(field, time, r[j])
    ensures order == Desc ==> forall i, j :: 0 <= i < j < |r| ==> SortKey(field, time, r[i]) >= SortKey(field, time, r[j])
  {
    var kept := Filter(repos, x => Matches(term, language, x));
    FilterMembers(repos, x => Matches(term, language, x));
    var sorted := SortByKey(kept, RankKey(field, order, time));
    RankOrders(sorted, field, order, time);
    assert forall x :: x in sorted <==> x in multiset(kept);
    sorted
  }

  /** The list as the page shows it. */
  function View(s: DashboardState, time: string -> int): seq<Repository> {
    FilteredRepos(s.repos, s.searchTerm, s.selectedLanguage, s.sortBy, s.sortOrder, time)
  }

  /** Filtering keeps a repository iff it matches. */
  lemma {:induction false} ViewKeepsMatching(repos: seq<Repository>, term: string, language: string,
                                              field: SortField, order: SortOrder, time: string -> int, x: Repository)
    ensures multiset(FilteredRepos(repos, term, language, field, order, time))[x]
         == if Matches(term, language, x) then multiset(repos)[x] else 0
  {
    FilterCount(repos, x => Matches(term, language, x), x);
  }

  /** With no search term and no language every repository is shown, the
      list being a reordering of `repos`. */
  lemma {:induction false} EmptyFiltersKeepAll(repos: seq<Repository>, field: SortField, order: SortOrder, time: string -> int)
    ensures multiset(FilteredRepos(repos, "", "", field, order, time)) == multiset(repos)
  {
    forall i | 0 <= i < |repos| ensures Matches("", "", repos[i]) {
      IncludesEmpty(ToLower(repos[i].name));
    }
    FilterAll(repos, x => Matches("", "", x));
  }

  // ------------------------------------------------------ flag toggles

  /** `toggleFeatured(id)`: every repository with that id gets the negation
      of its `featured` flag (an absent flag counts as false); all others
      and all other fields stay. */
  function ToggleFeatured(repos: seq<Repository>, id: int): (r: seq<Repository>)
    ensures |r| == |repos|
    ensures forall i :: 0 <= i < |repos| && repos[i].id != id ==> r[i] == repos[i]
    ensures forall i :: 0 <= i < |repos| && repos[i].id == id ==>
      r[i] == repos[i].(featured := Some(!IsTrue(repos[i].featured)))
  {
    if repos == [] then []
    else
      var head := if repos[0].id == id then repos[0].(featured := Some(!IsTrue(repos[0].featured))) else repos[0];
      [head] + ToggleFeatured(repos[1..], id)
  }

  /** `toggleHidden(id)`, the same for the `hidden` flag. */
  function ToggleHidden(repos: seq<Repository>, id: int): (r: seq<Repository>)
    ensures |r| == |repos|
    ensures forall i :: 0 <= i < |repos| && repos[i].id != id ==> r[i] == repos[i]
    ensures forall i :: 0 <= i < |repos| && repos[i].id == id ==>
      r[i] == repos[i].(hidden := Some(!IsTrue(repos[i].hidden)))
  {
    if repos == [] then []
    else
      var head := if repos[0].id == id then repos[0].(hidden := Some(!IsTrue(repos[0].hidden))) else repos[0];
      [head] + ToggleHidden(repos[1..], id)
  }

  /** Toggling twice restores what the flag means. */
  lemma ToggleFeaturedTwice(repos: seq<Repository>, id: int)
    ensures var r := ToggleFeatured(ToggleFeatured(repos, id), id);
      |r| == |repos| && forall i :: 0 <= i < |repos| ==>
        IsTrue(r[i].featured) == IsTrue(repos[i].featured) && r[i].(featured := repos[i].featured) == repos[i]
  {
  }

  lemma ToggleHiddenTwice(repos: seq<Repository>, id: int)
    ensures var r := ToggleHidden(ToggleHidden(repos, id), id);
      |r| == |repos| && forall i :: 0 <= i < |repos| ==>
        IsTrue(r[i].hidden) == IsTrue(repos[i].hidden) && r[i].(hidden := repos[i].hidden) == repos[i]
  {
  }

  /** The two toggles touch different fields, so their order does not matter. */
  lemma TogglesCommute(repos: seq<Repository>, a: int, b: int)
    ensures ToggleFeatured(ToggleHidden(repos, b), a) == ToggleHidden(ToggleFeatured(repos, a), b)
  {
  }

  /** A toggle never changes what the filter selects or how it is sorted. */
  lemma {:induction false} ToggleKeepsFilterFields(repos: seq<Repository>, id: int, term: string, language: string,
                                                    field: SortField, time: string -> int)
    ensures forall i :: 0 <= i < |repos| ==>
      && (Matches(term, language, ToggleFeatured(repos, id)[i]) <==> Matches(term, language, repos[i]))
      && SortKey(field, time, ToggleFeatured(repos, id)[i]) == SortKey(field, time, repos[i])
      && (Matches(term, language, ToggleHidden(repos, id)[i]) <==> Matches(term, language, repos[i]))
      && SortKey(field, time, ToggleHidden(repos, id)[i]) == SortKey(field, time, repos[i])
  {
  }

  // ------------------------------------------------------ languages

  /** `Array.from(new Set(repos.map(r => r.language).filter(Boolean)))`:
      each truthy language once, in order of first appearance. */
  function Languages(repos: seq<Repository>): (ls: seq<string>)
    ensures forall a, b :: 0 <= a < b < |ls| ==> ls[a] != ls[b]
    ensures forall l :: l in ls <==> exists i :: 0 <= i < |repos| && repos[i].language == Some(l) && l != ""
  {
    if repos == [] then []
    else
      var prev := Languages(repos[..|repos| - 1]);
      var last := repos[|repos| - 1];
      assert forall i :: 0 <= i < |repos| - 1 ==> repos[..|repos| - 1][i] == repos[i];
      if Truthy(last.language) && last.language.value !in prev then prev + [last.language.value] else prev
  }

  /** The languages of a prefix of the list come first: a language is listed
      at the place it first occurs. */
  lemma {:induction false} LanguagesPrefix(repos: seq<Repository>, k: nat)
    requires k <= |repos|
    ensures Languages(repos[..k]) <= Languages(repos)
  {
    if k < |repos| {
      var init := repos[..|repos| - 1];
      assert init[..k] == repos[..k];
      LanguagesPrefix(init, k);
      assert repos[..|repos|] == repos;
    } else {
      assert repos[..k] == repos;
    }
  }

  // ------------------------------------------------------ totals

  function Stargazers(r: Repository): int { r.stargazersCount }
  function Forks(r: Repository): int { r.forksCount }

  /** The quick-stats panel: the number of repositories and the star and
      fork totals. */
  datatype QuickStats = QuickStats(count: nat, stars: int, forks: int)

  /** The panel reads `repos.length` and reduces `repos`, the whole list. */
  function Totals(s: DashboardState): QuickStats {
    QuickStats(|s.repos|, Sum(s.repos, Stargazers), Sum(s.repos, Forks))
  }

  /** The quick stats count every repository, shown or not: those the list
      shows plus those the search and language filter leave out. */
  lemma TotalsCoverAllRepos(s: DashboardState, time: string -> int)
    ensures var shown := View(s, time);
      var dropped := Filter(s.repos, x => !Matches(s.searchTerm, s.selectedLanguage, x));
      && Totals(s).count == |shown| + |dropped|
      && Totals(s).stars == Sum(shown, Stargazers) + Sum(dropped, Stargazers)
      && Totals(s).forks == Sum(shown, Forks) + Sum(dropped, Forks)
  {
    var keep := x => Matches(s.searchTerm, s.selectedLanguage, x);
    var drop := x => !Matches(s.searchTerm, s.selectedLanguage, x);
    var shown := View(s, time);
    var kept := Filter(s.repos, keep);
    assert multiset(shown) == multiset(kept);
    SumSplit(s.repos, Stargazers, keep, drop);
    SumSplit(s.repos, Forks, keep, drop);
    SumSplit(s.repos, x => 1, keep, drop);
    SumPermutation(shown, kept, Stargazers);
    SumPermutation(shown, kept, Forks);
    SumPermutation(shown, kept, x => 1);
    SumOnes(s.repos);
    SumOnes(shown);
    SumOnes(Filter(s.repos, drop));
  }

  lemma {:induction false} SumOnes(xs: seq<Repository>)
    ensures Sum(xs, x => 1) == |xs|
  {
    if xs != [] {
      SumOnes(xs[1..]);
    }
  }

  /** Typing a search, choosing a language or changing the sort leaves the
      quick stats as they were. */
  lemma TotalsIgnoreView(s: DashboardState, term: string, language: string, field: SortField, order: SortOrder)
    ensures Totals(s.(searchTerm := term, selectedLanguage := language, sortBy := field, sortOrder := order)) == Totals(s)
  {
  }

  /** The flag toggles leave the quick stats alone. */
  lemma TogglesKeepTotals(s: DashboardState, id: int)
    ensures Totals(s.(repos := ToggleFeatured(s.repos, id))) == Totals(s)
    ensures Totals(s.(repos := ToggleHidden(s.repos, id))) == Totals(s)
  {
    ToggleSums(s.repos, id);
  }

  lemma {:induction false} ToggleSums(repos: seq<Repository>, id: int)
    ensures Sum(ToggleFeatured(repos, id), Stargazers) == Sum(repos, Stargazers)
    ensures Sum(ToggleFeatured(repos, id), Forks) == Sum(repos, Forks)
    ensures Sum(ToggleHidden(repos, id), Stargazers) == Sum(repos, Stargazers)
    ensures Sum(ToggleHidden(repos, id), Forks) == Sum(repos, Forks)
  {
    if repos != [] {
      ToggleSums(repos[1..], id);
      assert ToggleFeatured(repos, id)[1..] == ToggleFeatured(repos[1..], id);
      assert ToggleHidden(repos, id)[1..] == ToggleHidden(repos[1..], id);
    }
  }
}
