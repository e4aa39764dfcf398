# DevShelf core, modelled in Dafny

DevShelf turns a GitHub account into a portfolio: a dashboard lists the
repositories with search, a language filter and sorting. Project cards
carry a star-tier badge. A help page searches its FAQ. A demo search looks
up any GitHub user. A canned chat assistant answers questions. An OAuth
flow stores a GitHub token. An embeddable `widget.js` lets other sites show
a showcase. This project models the rules beneath those screens and proves
what they promise.

Each module follows one source file:

- `Widget`: the host page is a sequence of nodes. The class `HostPage` holds them and the log of every fetch issued; settling a fetch replaces its container's content and leaves the log as it is.
- `Dashboard`: the filter and sort chain, the flag toggles, the language choices and the quick-stats totals.
- `ProjectCard`: the two badge ladders and the card's optional parts.
- `Help`: the FAQ search and its "No results found" panel.
- `DemoModal`: the demo search as a state machine (class `Modal`) and the repository conversion.
- `Chatbot`: the chat log as a class `Chat` with its input and typing flag.
- `GitHub`: the two public REST calls.
- `GitHubAuth`: `localStorage` as a class `AuthStore` over a `map`, the OAuth state check, and the authenticated helpers.
- `TokenRoute`: the server route that exchanges the OAuth code for a token.
- `AuthCallback`: the page GitHub redirects back to, as a class `CallbackPage`.

Shared modules:

- `Js` holds the JavaScript semantics the code relies on: truthiness of optional strings, `toLowerCase`, `includes`, `trim`, `slice(0, n)`, and number-to-decimal text.
- `Seqs` holds filtering, summing and a key-ordered sort, with their lemmas.
- `Types` holds the records: `Repository`, `GitHubRepository`, and the user profile.
- `Http` holds what `fetch` and `response.json()` hand back: a rejection, or a status with a parsed or unparsable body.

The widget's mount test (an element carrying the class `devshelf-widget`
and a non-empty `data-showcase-id`) is the same for the initial pass and the
observer: `querySelectorAll` yields elements only, so the initial pass's
missing node-type test changes nothing.

Network answers, clocks and random choices are parameters of the operations
that use them. Stateful operations are class methods. Each method's
`ensures` ties the new state to a pure function of the old state. The
lemmas are proved about those functions.

## Model

| member | source | states |
|---|---|---|
| Widget.RequestUrl | public/widget.js:37 | the URL is the fixed showcase endpoint followed by the id exactly as read |
| Widget.RenderCard | public/widget.js:95-172 | a card shows the description or "No description available"; a language chip iff the language is truthy; exactly the first two topics in order, or all of them when there are fewer; the three counts; the GitHub link; a Demo link iff the homepage is truthy |
| Widget.RenderCards | public/widget.js:95-175 | exactly one card per repository, in input order |
| Widget.RenderShowcase | public/widget.js:56-197 | the header shows the name when truthy and the login otherwise; it always shows `@login`; a bio appears iff it is truthy; the heading count equals the number of repositories and of cards |
| Widget.Settle | public/widget.js:37-53 | a settled container is never left loading; a fetch rejection, an unparsable body, a truthy `error`, or a missing user or repository list all give the fallback; otherwise the container holds the rendered showcase |
| Widget.StatusIgnored | public/widget.js:38-44 | the HTTP status has no influence on what the container shows |
| Widget.CreateWidget | public/widget.js:8-37 | exactly one loading container is appended after the node's existing children, one request naming that container is issued, and every other node is untouched |
| Widget.Pending | public/widget.js:200-207 | the requests of the initial pass go, in document order, to exactly the mountable nodes, each with its id's URL |
| Widget.InitEffect | public/widget.js:200-207 | after `initWidgets`, each mountable node has gained one loading container, every other node is unchanged, and the new requests are exactly `Pending` |
| Widget.InitLeavesInertNodes | public/widget.js:200-207 | a marked node whose id is missing or empty gets no container and no request |
| Widget.ObserveLeavesUnlisted | public/widget.js:219-231 | a node that no `childList` record lists directly is left alone and gets no request, even when it sits inside an added node |
| Widget.ObserveLeavesInert | public/widget.js:219-231 | an added node that is not an element, lacks the marker class or has an empty `data-showcase-id` is left as it was and gets no request, whatever the batch |
| Widget.VisitAllLeavesInert | public/widget.js:222-229 | within one record's added nodes, a node that does not qualify is left as it was and gets no request |
| Widget.ObserveMounts | public/widget.js:219-231 | an added element node with the marker class and a non-empty id keeps its earlier children, gains a loading container right after them, and gets its request |
| Widget.VisitAllMountsPerListing | public/widget.js:222-229 | within one record, a qualifying node's children become its old children followed by one loading container per time it is listed, and nothing else of it changes |
| Widget.VisitAllRequestsPerListing | public/widget.js:222-229 | within one record, the old requests stay a prefix, and exactly as many new requests name a qualifying node as it is listed |
| Widget.ObserveMountsPerListing | public/widget.js:219-231 | over a batch, a qualifying node's children become its old children followed by one loading container per `childList` listing |
| Widget.ObserveRequestsPerListing | public/widget.js:219-231 | over a batch, the old requests stay a prefix, and exactly as many new requests name a qualifying node as it has `childList` listings |
| Widget.ObserveMountsOnce | public/widget.js:219-231 | a qualifying node listed exactly once ends as its node with one loading container appended, and exactly one new request names it |
| Widget.DeliverIsolated | public/widget.js:38-53 | a settling fetch replaces its own container's content and changes no other node, child or request |
| Widget.DeliverCommutes | public/widget.js:37-53 | two fetches may settle in either order with the same page as a result |
| Widget.AliceShowcaseRenders | public/widget.js:8-197 | a page with one mount point for alice renders "@alice" and a single card "repo1" with 120 stars |
| Widget.HostPage.CreateDevShelfWidget | public/widget.js:8-37 | the page becomes `CreateWidget` of the old page, and the request log stays well formed |
| Widget.HostPage.InitWidgets | public/widget.js:200-207 | the loop over the document leaves the page as the initial pass over all nodes |
| Widget.HostPage.OnMutations | public/widget.js:219-231 | the nested loops over records and added nodes leave the page as the observer's fold over the batch |
| Widget.HostPage.Complete | public/widget.js:38-53 | a settled request leaves the page as `Deliver` describes |
| Dashboard.InitialState | src/app/dashboard/page.tsx:20-24 | the page opens on the sample list with no search, no language, sorted by stars descending |
| Dashboard.FilteredRepos | src/app/dashboard/page.tsx:39-70 | the list holds each matching repository as often as the input does, and no other; a repository is shown iff its lower-cased name contains the lower-cased term and the language is unset or equal; keys do not decrease for ascending and do not increase for descending |
| Dashboard.ViewKeepsMatching | src/app/dashboard/page.tsx:39-43 | a repository's count in the shown list is its count in `repos` when it matches and zero otherwise |
| Dashboard.EmptyFiltersKeepAll | src/app/dashboard/page.tsx:40-43 | with an empty term and no language the shown list is a permutation of all repositories |
| Dashboard.ToggleFeatured | src/app/dashboard/page.tsx:72-76 | the length is kept; repositories with that id get the negated `featured`, an absent flag becoming true; every other repository is unchanged |
| Dashboard.ToggleHidden | src/app/dashboard/page.tsx:78-82 | the same for `hidden` |
| Dashboard.ToggleFeaturedTwice | src/app/dashboard/page.tsx:72-76 | toggling twice restores the flag's truth value and every other field |
| Dashboard.ToggleHiddenTwice | src/app/dashboard/page.tsx:78-82 | toggling twice restores the flag's truth value and every other field |
| Dashboard.TogglesCommute | src/app/dashboard/page.tsx:72-82 | the featured and hidden toggles may be applied in either order |
| Dashboard.ToggleKeepsFilterFields | src/app/dashboard/page.tsx:39-82 | a toggle never changes whether a repository matches, nor its sort key |
| Dashboard.Languages | src/app/dashboard/page.tsx:84 | no language is listed twice, and a language is listed iff some repository has it as a non-empty language |
| Dashboard.LanguagesPrefix | src/app/dashboard/page.tsx:84 | the languages of a prefix of the list come first, so each is listed where it first occurs |
| Dashboard.TotalsCoverAllRepos | src/app/dashboard/page.tsx:114-127 | the repository count and the star and fork totals of the quick stats (`Totals`) are those of the shown list plus those of the repositories the filter leaves out, so they cover every repository |
| Dashboard.TotalsIgnoreView | src/app/dashboard/page.tsx:199-247 | changing the search term, the language or the sort leaves the quick stats unchanged |
| Dashboard.TogglesKeepTotals | src/app/dashboard/page.tsx:72-82 | toggling `featured` or `hidden` on any id leaves the quick stats (`Totals`) unchanged |
| ProjectCard.BadgeColor | src/components/ProjectCard.tsx:16-22 | the colour ladder gives the colour of the count's tier |
| ProjectCard.BadgeText | src/components/ProjectCard.tsx:24-30 | the label ladder gives the label of the count's tier |
| ProjectCard.TierBands | src/components/ProjectCard.tsx:16-30 | Hot iff stars are at least 1000; Popular iff 500 to 999; Rising iff 100 to 499; Promising iff 50 to 99; New if fewer than 50 |
| ProjectCard.BadgeAgrees | src/components/ProjectCard.tsx:16-30 | two counts get the same colour iff they get the same label iff they are in the same tier |
| ProjectCard.TierMonotone | src/components/ProjectCard.tsx:16-30 | more stars never give a lower tier |
| ProjectCard.RenderProjectCard | src/components/ProjectCard.tsx:44-142 | the card shows the badge of its star count; a description iff it is truthy; a language chip iff it is truthy; the first three topics in order, or all when there are fewer; a homepage link iff it is truthy |
| Help.Narrow | src/app/help/page.tsx:84-89 | the category keeps its name; its questions are a subsequence of the original; a question stays iff the lower-cased query is in its lower-cased question or answer; none stays iff none matches |
| Help.NarrowKeepsCount | src/app/help/page.tsx:86-88 | each matching question is kept as often as it occurs, and every other question is dropped |
| Help.FilteredFaqsIsMapFilter | src/app/help/page.tsx:84-90 | the result is every category narrowed, then only those with questions left |
| Help.FilteredFaqsKeepsSurvivors | src/app/help/page.tsx:84-90 | categories keep their order; a narrowed category is in the result iff some question of the original matches |
| Help.EmptyQueryKeepsAll | src/app/help/page.tsx:84-90 | when every category has at least one question, an empty query gives back every category with all of its questions (a category with none is dropped even then) |
| Help.NoResultsIff | src/app/help/page.tsx:239 | the "No results found" panel shows iff the query is non-empty and no question of any category matches |
| DemoModal.ConvertRepo | src/components/DemoModal.tsx:63-90 | absent topics become `[]`; `featured` is true iff stars are at least 100; `hidden` is false; there is no cover image |
| DemoModal.ConvertRoundTrip | src/components/DemoModal.tsx:63-90 | mapping a converted record back gives the original with topics made present, so every field is copied |
| DemoModal.ConvertRepos | src/components/DemoModal.tsx:63 | the conversion keeps length and order |
| DemoModal.FeaturedMeansRisingOrBetter | src/components/DemoModal.tsx:88 | a converted repository is featured iff its card shows the Rising badge or better |
| DemoModal.Joined | src/components/DemoModal.tsx:55-58 | the search has both answers iff both calls succeed; otherwise it fails with the message of the call that rejected first |
| DemoModal.ErrorMessage | src/components/DemoModal.tsx:101 | an `Error` gives its own message; any other thrown value gives "Failed to fetch repositories" |
| DemoModal.Begin | src/components/DemoModal.tsx:47-52 | a name made only of whitespace changes nothing; otherwise loading is set, the error cleared and the search marked as done, while the name, list, profile and stored list stay |
| DemoModal.Complete | src/components/DemoModal.tsx:60-107 | loading always ends; success shows the profile and the converted list and stores that same list; failure shows the error message with an empty list and no profile |
| DemoModal.Reset | src/components/DemoModal.tsx:116-128 | everything returns to the opening state except `loading`, and the stored list is removed |
| DemoModal.SearchShowsWhatItStores | src/components/DemoModal.tsx:47-107 | after a search, loading has ended; there is no error iff a profile is shown; then the stored list is the shown list, built from the public repositories in order; otherwise the list is empty and an error is set |
| DemoModal.ResetForgetsSearch | src/components/DemoModal.tsx:116-128 | reset is idempotent, and resetting after a search equals resetting before it |
| DemoModal.Modal.BeginSearch | src/components/DemoModal.tsx:47-57 | the state moves as `Begin`; both URLs are requested with the trimmed name, and none when it trims to empty |
| Js.Trim | src/components/DemoModal.tsx:56-57 | the trimmed name is the typed text with only leading and trailing white space removed: a slice of it bounded by white space on both sides, with non-space ends, empty iff the text is all white space |
| DemoModal.Modal.CompleteSearch | src/components/DemoModal.tsx:60-107 | the state moves as `Complete` |
| DemoModal.Modal.HandleSearch | src/components/DemoModal.tsx:47-108 | the state moves as a whole search on GitHub's two answers |
| DemoModal.Modal.HandleKeyDown | src/components/DemoModal.tsx:110-114 | Enter runs the search; any other key changes nothing |
| DemoModal.Modal.ResetDemo | src/components/DemoModal.tsx:116-129 | the state moves as `Reset` |
| DemoModal.Modal.ClearStored | src/components/DemoModal.tsx:31-45 | when the close timer fires, the stored list is removed and every other field is kept |
| Chatbot.SendEffect | src/components/AIChatbot.tsx:35-194 | a blank input sends nothing, which is exactly when the button is disabled; otherwise one user message with the untrimmed input is appended after the unchanged log, the input is cleared and typing starts |
| Chatbot.ReplyEffect | src/components/AIChatbot.tsx:27-60 | the reply appends one bot message holding one of the five canned answers after the unchanged log, and typing stops |
| Chatbot.GreetingStaysFirst | src/components/AIChatbot.tsx:16-60 | sending and replying only extend the log, so the greeting stays first |
| Chatbot.QuestionThenAnswer | src/components/AIChatbot.tsx:35-60 | a send followed by its reply appends the question and then the answer, and leaves the input empty and typing off |
| Chatbot.Chat.constructor | src/components/AIChatbot.tsx:15-25 | the chat starts closed, with the greeting alone, an empty input and no typing |
| Chatbot.Chat.HandleSendMessage | src/components/AIChatbot.tsx:35-47 | the state moves as `Send` |
| Chatbot.Chat.ReceiveReply | src/components/AIChatbot.tsx:50-60 | the state moves as `Reply` |
| Chatbot.Chat.HandleKeyPress | src/components/AIChatbot.tsx:63-68 | Enter without Shift sends; Shift+Enter and other keys change nothing |
| Chatbot.Chat.Open | src/components/AIChatbot.tsx:76 | only `isOpen` changes, to true |
| Chatbot.Chat.Close | src/components/AIChatbot.tsx:90-108 | only `isOpen` changes, to false |
| GitHub.ReposUrl | src/lib/github.ts:33 | the repository list URL holds the name verbatim between the API prefix and the query |
| GitHub.FetchUserRepositories | src/lib/github.ts:31-53 | an ok answer gives exactly the non-private repositories, in response order and with their multiplicity; a non-ok status gives its status message before the body is read; a rejection passes on unchanged |
| GitHub.FetchUser | src/lib/github.ts:55-74 | an ok answer gives the parsed body unchanged; a non-ok status gives its status message; a rejection passes on unchanged |
| GitHub.StatusMessages | src/lib/github.ts:36-66 | 404 gives "User not found" and 403 the rate-limit message, for both calls; two different failing statuses never give the same message |
| GitHub.StatusCheckedFirst | src/lib/github.ts:35-45 | with a failing status the body is never looked at |
| GitHubAuth.ConfigFrom | src/lib/github-auth.ts:2-3 | a non-empty environment value wins; otherwise the built-in client id and redirect URI apply |
| GitHubAuth.AuthorizeUrl | src/lib/github-auth.ts:36 | the authorize URL ends with the state, written verbatim |
| GitHubAuth.Callback | src/lib/github-auth.ts:169-184 | the check passes iff the URL's state equals the stored one; then it answers the code and no state remains stored; otherwise it fails with "Invalid OAuth state parameter" and the store is unchanged; no other key ever moves |
| GitHubAuth.StoreThenGet | src/lib/github-auth.ts:148-160 | a stored token reads back; the user counts as authenticated iff the token is non-empty; no other key moves |
| GitHubAuth.RemoveForgets | src/lib/github-auth.ts:163-166 | logging out removes the token and the state and leaves every other key |
| GitHubAuth.StateRoundTrip | src/lib/github-auth.ts:32-184 | the state stored at login is accepted once, answering the code and clearing itself, so a replay fails; any other state fails and changes nothing |
| GitHubAuth.MissingStateOnBothSidesAccepted | src/lib/github-auth.ts:173-176 | no state in the URL and none stored counts as a match |
| GitHubAuth.AuthStore.StoreAccessToken | src/lib/github-auth.ts:158-160 | the store becomes `Stored` of the old one |
| GitHubAuth.AuthStore.GetAccessToken | src/lib/github-auth.ts:153-155 | the answer is the stored token, or none |
| GitHubAuth.AuthStore.IsAuthenticated | src/lib/github-auth.ts:148-150 | true iff a non-empty token is stored |
| GitHubAuth.AuthStore.RemoveAccessToken | src/lib/github-auth.ts:163-166 | the store becomes `Removed` of the old one |
| GitHubAuth.AuthStore.InitiateGitHubLogin | src/lib/github-auth.ts:32-40 | the state stored is the one placed in the URL |
| GitHubAuth.AuthStore.HandleOAuthCallback | src/lib/github-auth.ts:169-184 | the answer and the new store are those of `Callback` |
| GitHubAuth.ExchangeCodeForToken | src/lib/github-auth.ts:48-64 | a rejected fetch fails with its reason; a non-ok answer fails with "Failed to exchange code for token"; an ok one gives the parsed body, or fails with the parse error |
| GitHubAuth.GetAuthenticatedUser | src/lib/github-auth.ts:67-80 | a rejected fetch fails with its reason; a non-ok answer fails with "Failed to fetch authenticated user"; an ok one gives the parsed user, or fails with the parse error |
| GitHubAuth.GetAuthenticatedUserRepos | src/lib/github-auth.ts:83-96 | a rejected fetch fails with its reason; a non-ok answer fails with "Failed to fetch user repositories"; an ok one gives the parsed list, or fails with the parse error |
| GitHubAuth.GetRepositoryReadme | src/lib/github-auth.ts:99-113 | a non-ok answer gives the empty text; an ok one gives the decoded content |
| GitHubAuth.ListOrEmpty | src/lib/github-auth.ts:116-145 | the activity and issues helpers give an empty list on a non-ok answer |
| GitHubAuth.FallbacksIgnoreBody | src/lib/github-auth.ts:59-142 | past a non-ok status no helper looks at the body |
| TokenRoute.ConfigFromEnv | src/app/api/auth/github/callback/route.ts:3-5 | the redirect URI defaults when the environment leaves it empty; the credentials are taken as they are |
| TokenRoute.TokenRequestFor | src/app/api/auth/github/callback/route.ts:9-38 | a token request is sent iff the body parses to an object with a truthy code and both credentials are set; it then carries them and the redirect URI verbatim |
| TokenRoute.HandlePost | src/app/api/auth/github/callback/route.ts:7-67 | the status is 200, 400 or 500; it is 200 iff the body is a token; it is never 200 without a token request |
| TokenRoute.CodeCheckedFirst | src/app/api/auth/github/callback/route.ts:9-16 | a falsy code gives 400 "Authorization code is required" whatever the configuration and GitHub's answer, and nothing is sent |
| TokenRoute.CredentialsRequired | src/app/api/auth/github/callback/route.ts:18-23 | a code without both credentials gives 500 "GitHub OAuth credentials not configured" and nothing is sent |
| TokenRoute.BadBodyIsInternal | src/app/api/auth/github/callback/route.ts:8-9 | whatever the configuration, an unreadable or null request body gives 500 "Internal server error" and nothing is sent |
| TokenRoute.FailuresAreInternal | src/app/api/auth/github/callback/route.ts:40-66 | once the token request is sent, a failed or non-ok token call and an unreadable token answer each give 500 "Internal server error" |
| TokenRoute.TokenAnswer | src/app/api/auth/github/callback/route.ts:46-58 | an `error` from GitHub gives 400 with its description or "OAuth error"; otherwise the reply holds exactly the token, its type and its scope |
| TokenRoute.ClientSeesReply | src/lib/github-auth.ts:59-63 | the browser's exchange gets the token exactly when the route answers 200 |
| AuthCallback.StorageText | src/app/auth/callback/page.tsx:37 | an absent token is stored as the text "undefined" |
| AuthCallback.OutcomeSettles | src/app/auth/callback/page.tsx:12-51 | the status always leaves loading; the store changes only on success, where it gains exactly a token |
| AuthCallback.ErrorParamFirst | src/app/auth/callback/page.tsx:18-25 | a non-empty `error` parameter gives the cancelled message whatever the code and exchange |
| AuthCallback.MissingCode | src/app/auth/callback/page.tsx:27-31 | with no error and no code the page fails with "No authorization code received" |
| AuthCallback.ExchangeDecides | src/app/auth/callback/page.tsx:34-51 | an ok exchange stores its token and reports success, leaving the user authenticated when the token is non-empty; a failed exchange reports "Failed to complete authentication" and stores nothing |
| AuthCallback.Heading | src/app/auth/callback/page.tsx:57-110 | each status has its own heading |
| AuthCallback.CallbackPage.constructor | src/app/auth/callback/page.tsx:12-13 | the page starts loading with an empty message |
| AuthCallback.CallbackPage.HandleCallback | src/app/auth/callback/page.tsx:16-52 | the status, message and store become those of `Outcome` |

## Left out

- Markup and styling are left out: HTML and CSS, animation, icons, hover handlers, and routing (`router.push`). The widget's and the card's views are records of what they show.
- The widget interpolates names, descriptions and URLs into `innerHTML` without escaping; the model does not capture markup, so it says nothing about that.
- Waiting for DOM-ready (`public/widget.js:210-215`) and installing the observer (`public/widget.js:217-218` and `public/widget.js:234-238`) are left out, as is the showcase endpoint behind `public/widget.js:37`. The endpoint's answer is an input.
- Only string-typed JSON fields are modelled. A non-string `error`, `code` or `language` is outside the model.
- Widget.Settle: a missing `user` or `repositories` is modelled as the fallback; other malformed repository entries are not modelled.
- `Js.ToLower` lower-cases ASCII letters only; full Unicode case mapping is not modelled.
- ProjectCard.BadgeText: the labels are the characters `src/components/ProjectCard.tsx:25-29` holds, which are double-encoded emoji: UTF-8 bytes read as Windows-1252 text, with the star's third byte lost. The model keeps those characters as written and does not substitute the emoji evidently meant.
- Console logging is not modelled: the `console.error` calls at `public/widget.js:46`, `src/lib/github.ts:50`, `src/lib/github.ts:71`, `src/app/api/auth/github/callback/route.ts:61`, `src/app/auth/callback/page.tsx:48` and `src/components/DemoModal.tsx:39`, `:98`, `:127` have no effect on the modelled state.
- Dashboard sorting: `new Date(..).getTime()` is a parameter `time`. NaN dates and floating-point subtraction are not modelled.
- Dashboard.FilteredRepos: does not state that equal keys keep their input order (stability).
- The `default:` branch of the dashboard's sort switch is unreachable: `sortBy` only takes the four values.
- The dashboard's sample data, badges and trophies are fixed display data and are left out.
- The help page's FAQ texts are fixed page data; here they are a parameter.
- Timers are events with no delay. The chat's reply delay ends in the event `Chatbot.Chat.ReceiveReply`. The 30-second clearing of `demoRepositories` after the modal closes ends in the event `DemoModal.Modal.ClearStored`; the model does not capture the delay, or the cancelling of the timer when the modal reopens. The post-login redirect is a `router.push('/dashboard')` after a 2-second timer (`src/app/auth/callback/page.tsx:43-45`) and is left out with the routing above.
- `Math.random` is a parameter. For the chat it is the reply index. For the OAuth state it is the state string.
- `Date.now()` is a clock parameter. Message timestamps are left out.
- `JSON.stringify` of the stored demo list is not modelled: the store holds the list itself.
- Web Storage never throws in the model, so the `catch` blocks around `sessionStorage` do nothing.
- `atob` is a parameter of `GetRepositoryReadme`, and the readme body is the `content` field itself.
- Request headers, methods and bodies of the authenticated helpers are not modelled, and neither are their URLs.
- The route's token request body is modelled as a record, not as JSON text.
- AuthCallback.CallbackPage.HandleCallback: states the end state. It does not state that the token is written before the status turns to success.
- `Promise.all` fan-out is reduced to which call rejects first (`userFirst`).
