/** The embeddable widget script: it finds the host page's mount points
    (elements of class `devshelf-widget` with a `data-showcase-id`
    attribute), attaches a `devshelf-widget-container` in its loading state to
    each, asks the showcase endpoint for the data, and replaces the
    container's content by the rendered showcase or by the fallback notice.
    A mutation observer does the same for nodes added later.

    The host document is a sequence of nodes in document order; a node is
    named by its index. The pending fetches are a log of requests, each
    naming the container it will fill. */
module Widget {
  import opened Js
  import opened Http

  /** The showcase endpoint; the id is appended verbatim. */
  const ShowcaseApi: string := "https://devshelf-nishant.vercel.app/api/showcase/"
  const NoDescription: string := "No description available"
  /** `Node.ELEMENT_NODE`. */
  const ElementNode: int := 1

  // ------------------------------------------------------ fetched data

  datatype ShowcaseUser = ShowcaseUser(
    login: string, name: Option<string>, avatarUrl: string, bio: Option<string>)

  datatype ShowcaseRepo = ShowcaseRepo(
    name: string,
    description: Option<string>,
    language: Option<string>,
    topics: Option<seq<string>>,
    stargazersCount: int,
    forksCount: int,
    watchersCount: int,
    htmlUrl: string,
    homepage: Option<string>)

  /** The JSON object the endpoint answers with; any field may be missing. */
  datatype Payload = Payload(
    error: Option<string>,
    user: Option<ShowcaseUser>,
    repositories: Option<seq<ShowcaseRepo>>)

  // ------------------------------------------------------ rendered view

  /** One project card of the grid. */
  datatype Card = Card(
    name: string,
    description: string,
    languageChip: Option<string>,
    topicChips: seq<string>,
    stars: int,
    forks: int,
    watchers: int,
    githubLink: string,
    demoLink: Option<string>)

  /** The showcase markup: profile header, "Featured Projects (n)" grid and
      the fixed "Powered by DevShelf" footer. */
  datatype Showcase = Showcase(
    avatarUrl: string,
    altText: string,
    displayName: string,
    handle: string,
    bio: Option<string>,
    projectCount: nat,
    cards: seq<Card>)

  /** The content of a `devshelf-widget-container`. */
  datatype ContainerState = Loading | Rendered(showcase: Showcase) | Fallback

  // ------------------------------------------------------ host document

  /** A child of a host node: the host's own content, or a widget container. */
  datatype Child = HostContent(markup: string) | WidgetContainer(state: ContainerState)

  /** A host node: its `nodeType`, whether its class list holds
      `devshelf-widget`, its `data-showcase-id` attribute and its children. */
  datatype Node = Node(nodeType: int, hasMarker: bool, showcaseId: Option<string>, children: seq<Child>)

  /** An issued fetch: its URL, and the container (node, child slot) whose
      content its answer replaces. */
  datatype Request = Request(node: nat, slot: nat, url: string)

  datatype MutationKind = ChildList | Attributes | CharacterData

  /** A `MutationRecord`; `addedNodes` are indices into the document. */
  datatype MutationRecord = MutationRecord(kind: MutationKind, addedNodes: seq<nat>)

  datatype PageState = PageState(nodes: seq<Node>, requests: seq<Request>)

  // ------------------------------------------------------ rendering

  /** The URL fetched for a showcase id. */
  function RequestUrl(showcaseId: string): (url: string)
    ensures |url| == |ShowcaseApi| + |showcaseId|
    ensures url[..|ShowcaseApi|] == ShowcaseApi
    ensures url[|ShowcaseApi|..] == showcaseId
  {
    ShowcaseApi + showcaseId
  }

  /** One card of the grid. */
  function RenderCard(repo: ShowcaseRepo): (c: Card)
    ensures c.name == repo.name && c.githubLink == repo.htmlUrl
    ensures Truthy(repo.description) ==> c.description == repo.description.value
    ensures !Truthy(repo.description) ==> c.description == NoDescription
    ensures c.languageChip.Some? <==> Truthy(repo.language)
    ensures c.languageChip.Some? ==> c.languageChip.value == repo.language.value
    ensures |c.topicChips| <= 2
    ensures repo.topics.Some? ==> |c.topicChips| <= |repo.topics.value|
    ensures repo.topics.Some? ==> c.topicChips == repo.topics.value[..|c.topicChips|]
    ensures repo.topics.Some? ==> |c.topicChips| == if |repo.topics.value| < 2 then |repo.topics.value| else 2
    ensures repo.topics.None? ==> c.topicChips == []
    ensures c.stars == repo.stargazersCount && c.forks == repo.forksCount
    ensures c.watchers == repo.watchersCount
    ensures c.demoLink.Some? <==> Truthy(repo.homepage)
    ensures c.demoLink.Some? ==> c.demoLink.value == repo.homepage.value
  {
    Card(
      repo.name,
      OrElse(repo.description, NoDescription),
      if Truthy(repo.language) then Some(repo.language.value) else None,
      if repo.topics.Some? then Take(repo.topics.value, 2) else [],
      repo.stargazersCount,
      repo.forksCount,
      repo.watchersCount,
      repo.htmlUrl,
      if Truthy(repo.homepage) then Some(repo.homepage.value) else None)
  }

  /** `repositories.map(...)`: one card per repository, in input order. */
  function RenderCards(repos: seq<ShowcaseRepo>): (cards: seq<Card>)
    ensures |cards| == |repos|
    ensures forall i :: 0 <= i < |repos| ==> cards[i] == RenderCard(repos[i])
  {
    if repos == [] then [] else [RenderCard(repos[0])] + RenderCards(repos[1..])
  }

  /** `renderShowcase`: the markup is a function of the fetched data alone. */
  function RenderShowcase(user: ShowcaseUser, repos: seq<ShowcaseRepo>): (v: Showcase)
    ensures Truthy(user.name) ==> v.displayName == user.name.value
    ensures !Truthy(user.name) ==> v.displayName == user.login
    ensures v.altText == v.displayName && v.avatarUrl == user.avatarUrl
    ensures v.handle == "@" + user.login
    ensures v.bio.Some? <==> Truthy(user.bio)
    ensures v.bio.Some? ==> v.bio.value == user.bio.value
    ensures v.projectCount == |repos| == |v.cards|
    ensures forall i :: 0 <= i < |repos| ==> v.cards[i] == RenderCard(repos[i])
  {
    var shown := OrElse(user.name, user.login);
    Showcase(
      user.avatarUrl,
      shown,
      shown,
      "@" + user.login,
      if Truthy(user.bio) then Some(user.bio.value) else None,
      |repos|,
      RenderCards(repos))
  }

  /** What the container holds once the fetch settles. The status code is
      never looked at; a body that is not an object, a truthy `error` field,
      or a missing `user` or `repositories` (on which rendering throws) all end
      in the fallback, as does a rejected fetch. */
  function Settle(outcome: Fetched<Payload>): (s: ContainerState)
    ensures s != Loading
    ensures outcome.NetworkError? ==> s == Fallback
    ensures outcome.Response? && outcome.body.Malformed? ==> s == Fallback
    ensures outcome.Response? && outcome.body.Valid? ==>
      var data := outcome.body.value;
      if Truthy(data.error) || data.user.None? || data.repositories.None? then s == Fallback
      else s == Rendered(RenderShowcase(data.user.value, data.repositories.value))
  {
    match outcome
    case NetworkError(_) => Fallback
    case Response(_, body) =>
      match body
      case Malformed(_) => Fallback
      case Valid(data) =>
        if Truthy(data.error) then Fallback
        else if data.user.None? || data.repositories.None? then Fallback
        else Rendered(RenderShowcase(data.user.value, data.repositories.value))
  }

  /** The HTTP status has no influence on what is shown. */
  lemma StatusIgnored(s1: nat, s2: nat, body: Json<Payload>)
    ensures Settle(Response(s1, body)) == Settle(Response(s2, body))
  {
  }

  // ------------------------------------------------------ mount points

  /** The test `initWidgets` and the observer apply before mounting: an
      element carrying the marker class whose `data-showcase-id` is non-empty. */
  predicate Mountable(n: Node) {
    n.nodeType == ElementNode && n.hasMarker && Truthy(n.showcaseId)
  }

  function AttachLoading(n: Node): (m: Node)
    ensures m.nodeType == n.nodeType && m.hasMarker == n.hasMarker && m.showcaseId == n.showcaseId
    ensures m.children == n.children + [WidgetContainer(Loading)]
  {
    n.(children := n.children + [WidgetContainer(Loading)])
  }

  /** `createDevShelfWidget(showcaseId, nodes[i])`: one loading container is
      appended after the node's children and one fetch is issued for it. */
  function CreateWidget(p: PageState, showcaseId: string, i: nat): (q: PageState)
    requires i < |p.nodes|
    ensures |q.nodes| == |p.nodes|
    ensures q.nodes[i] == AttachLoading(p.nodes[i])
    ensures forall j :: 0 <= j < |p.nodes| && j != i ==> q.nodes[j] == p.nodes[j]
    ensures q.requests == p.requests + [Request(i, |p.nodes[i].children|, RequestUrl(showcaseId))]
  {
    PageState(
      p.nodes[i := AttachLoading(p.nodes[i])],
      p.requests + [Request(i, |p.nodes[i].children|, RequestUrl(showcaseId))])
  }

  /** Looking at one node: mount it if it qualifies, otherwise leave the page
      alone. An index outside the document names no node. */
  function Visit(p: PageState, i: nat): (q: PageState)
    ensures |q.nodes| == |p.nodes| && p.requests <= q.requests
  {
    if i < |p.nodes| && Mountable(p.nodes[i]) then CreateWidget(p, p.nodes[i].showcaseId.value, i)
    else p
  }

  /** `initWidgets` after visiting the first `k` nodes in document order. */
  function InitUpTo(p: PageState, k: nat): (q: PageState)
    requires k <= |p.nodes|
    ensures |q.nodes| == |p.nodes| && p.requests <= q.requests
  {
    if k == 0 then p else Visit(InitUpTo(p, k - 1), k - 1)
  }

  /** The request `initWidgets` issues for node `i`. */
  function MountRequest(nodes: seq<Node>, i: nat): Request
    requires i < |nodes| && Mountable(nodes[i])
  {
    Request(i, |nodes[i].children|, RequestUrl(nodes[i].showcaseId.value))
  }

  /** The requests issued for the nodes before `k`: one per mountable node, in
      document order, and none for any other node. */
  function Pending(nodes: seq<Node>, k: nat): (r: seq<Request>)
    requires k <= |nodes|
    ensures forall a :: 0 <= a < |r| ==>
      r[a].node < k && Mountable(nodes[r[a].node]) && r[a] == MountRequest(nodes, r[a].node)
    ensures forall a, b :: 0 <= a < b < |r| ==> r[a].node < r[b].node
    ensures forall i :: 0 <= i < k && Mountable(nodes[i]) ==> MountRequest(nodes, i) in r
  {
    if k == 0 then []
    else Pending(nodes, k - 1) + (if Mountable(nodes[k - 1]) then [MountRequest(nodes, k - 1)] else [])
  }

  /** What `initWidgets` does to the page: every mountable node gains exactly
      one loading container after its existing children, every other node is
      untouched, and the new requests are exactly those of `Pending`. */
  lemma {:induction false} InitEffect(p: PageState, k: nat)
    requires k <= |p.nodes|
    ensures forall i :: 0 <= i < |p.nodes| ==>
      InitUpTo(p, k).nodes[i] == if i < k && Mountable(p.nodes[i]) then AttachLoading(p.nodes[i]) else p.nodes[i]
    ensures InitUpTo(p, k).requests == p.requests + Pending(p.nodes, k)
  {
    if k > 0 {
      InitEffect(p, k - 1);
      var q := InitUpTo(p, k - 1);
      assert q.nodes[k - 1] == p.nodes[k - 1];
    }
  }

  /** A node that does not qualify (no marker, no element, missing or empty
      id) gets no container and no request. */
  lemma InitLeavesInertNodes(p: PageState, i: nat)
    requires i < |p.nodes| && !Mountable(p.nodes[i])
    ensures InitUpTo(p, |p.nodes|).nodes[i] == p.nodes[i]
    ensures forall r :: r in InitUpTo(p, |p.nodes|).requests[|p.requests|..] ==> r.node != i
  {
    InitEffect(p, |p.nodes|);
    var q := InitUpTo(p, |p.nodes|);
    assert q.requests[|p.requests|..] == Pending(p.nodes, |p.nodes|);
  }

  // ------------------------------------------------------ the observer

  /** Visiting the added nodes of one record, in order. */
  function VisitAll(p: PageState, added: seq<nat>): (q: PageState)
    ensures |q.nodes| == |p.nodes|
  {
    if added == [] then p else Visit(VisitAll(p, added[..|added| - 1]), added[|added| - 1])
  }

  /** Only `childList` records are looked at. */
  function ObserveRecord(p: PageState, rec: MutationRecord): (q: PageState)
    ensures |q.nodes| == |p.nodes|
  {
    if rec.kind == ChildList then VisitAll(p, rec.addedNodes) else p
  }

  /** The observer callback on a batch of records, in order. */
  function Observe(p: PageState, recs: seq<MutationRecord>): (q: PageState)
    ensures |q.nodes| == |p.nodes|
  {
    if recs == [] then p else ObserveRecord(Observe(p, recs[..|recs| - 1]), recs[|recs| - 1])
  }

  /** Node `i` is itself one of the added nodes of a `childList` record. */
  ghost predicate Added(recs: seq<MutationRecord>, i: nat) {
    exists k :: 0 <= k < |recs| && recs[k].kind == ChildList && i in recs[k].addedNodes
  }

  /** A page `q` grown from `p` by appending children and requests only. */
  ghost predicate Grown(p: PageState, q: PageState) {
    && |q.nodes| == |p.nodes|
    && p.requests <= q.requests
    && forall j :: 0 <= j < |p.nodes| ==>
         q.nodes[j].nodeType == p.nodes[j].nodeType && q.nodes[j].hasMarker == p.nodes[j].hasMarker
         && q.nodes[j].showcaseId == p.nodes[j].showcaseId && p.nodes[j].children <= q.nodes[j].children
  }

  /** The shallow scan: a node that no `childList` record lists directly is
      left alone and gets no request, even when it sits inside an added node. */
  lemma {:induction false} ObserveLeavesUnlisted(p: PageState, recs: seq<MutationRecord>, i: nat)
    requires i < |p.nodes| && !Added(recs, i)
    ensures Observe(p, recs).nodes[i] == p.nodes[i]
    ensures p.requests <= Observe(p, recs).requests
    ensures forall r :: r in Observe(p, recs).requests[|p.requests|..] ==> r.node != i
  {
    if recs != [] {
      var init := recs[..|recs| - 1];
      assert forall k :: 0 <= k < |init| ==> init[k] == recs[k];
      ObserveLeavesUnlisted(p, init, i);
      var last := recs[|recs| - 1];
      if last.kind == ChildList {
        assert recs[|recs| - 1] == last;
        VisitAllLeavesUnlisted(Observe(p, init), last.addedNodes, i);
      }
    }
  }

  lemma {:induction false} VisitAllLeavesUnlisted(p: PageState, added: seq<nat>, i: nat)
    requires i < |p.nodes| && i !in added
    ensures VisitAll(p, added).nodes[i] == p.nodes[i]
    ensures p.requests <= VisitAll(p, added).requests
    ensures forall r :: r in VisitAll(p, added).requests[|p.requests|..] ==> r.node != i
  {
    if added != [] {
      var init := added[..|added| - 1];
      assert forall a :: 0 <= a < |init| ==> init[a] == added[a];
      VisitAllLeavesUnlisted(p, init, i);
      var q := VisitAll(p, init);
      var q' := Visit(q, added[|added| - 1]);
      assert q'.requests[|p.requests|..] == q.requests[|p.requests|..] + q'.requests[|q.requests|..];
    }
  }

  /** Visiting only appends. */
  lemma VisitGrows(p: PageState, i: nat)
    ensures Grown(p, Visit(p, i))
  {
  }

  lemma {:induction false} VisitAllGrows(p: PageState, added: seq<nat>)
    ensures Grown(p, VisitAll(p, added))
  {
    if added != [] {
      VisitAllGrows(p, added[..|added| - 1]);
      VisitGrows(VisitAll(p, added[..|added| - 1]), added[|added| - 1]);
    }
  }

  lemma {:induction false} ObserveGrows(p: PageState, recs: seq<MutationRecord>)
    ensures Grown(p, Observe(p, recs))
  {
    if recs != [] {
      var init := recs[..|recs| - 1];
      ObserveGrows(p, init);
      if recs[|recs| - 1].kind == ChildList {
        VisitAllGrows(Observe(p, init), recs[|recs| - 1].addedNodes);
      }
    }
  }

  /** An added node that does not qualify (not an element, no marker class,
      or an empty `data-showcase-id`) is left alone and gets no request. */
  lemma {:induction false} ObserveLeavesInert(p: PageState, recs: seq<MutationRecord>, i: nat)
    requires i < |p.nodes| && !Mountable(p.nodes[i])
    ensures Observe(p, recs).nodes[i] == p.nodes[i]
    ensures p.requests <= Observe(p, recs).requests
    ensures forall r :: r in Observe(p, recs).requests[|p.requests|..] ==> r.node != i
  {
    if recs != [] {
      var init := recs[..|recs| - 1];
      ObserveLeavesInert(p, init, i);
      var q := Observe(p, init);
      var last := recs[|recs| - 1];
      if last.kind == ChildList {
        VisitAllLeavesInert(q, last.addedNodes, i);
        var q' := VisitAll(q, last.addedNodes);
        assert q'.requests[|p.requests|..] == q.requests[|p.requests|..] + q'.requests[|q.requests|..];
      }
    }
  }

  lemma {:induction false} VisitAllLeavesInert(p: PageState, added: seq<nat>, i: nat)
    requires i < |p.nodes| && !Mountable(p.nodes[i])
    ensures VisitAll(p, added).nodes[i] == p.nodes[i]
    ensures p.requests <= VisitAll(p, added).requests
    ensures forall r :: r in VisitAll(p, added).requests[|p.requests|..] ==> r.node != i
  {
    if added != [] {
      var init := added[..|added| - 1];
      VisitAllLeavesInert(p, init, i);
      var q := VisitAll(p, init);
      var q' := Visit(q, added[|added| - 1]);
      assert q'.requests[|p.requests|..] == q.requests[|p.requests|..] + q'.requests[|q.requests|..];
    }
  }

  /** An added node that qualifies is mounted: right after its earlier
      children comes a loading container, with its request in the log. */
  lemma {:induction false} VisitAllMounts(p: PageState, added: seq<nat>, i: nat)
    requires i < |p.nodes| && Mountable(p.nodes[i]) && i in added
    ensures p.nodes[i].children < VisitAll(p, added).nodes[i].children
    ensures VisitAll(p, added).nodes[i].children[|p.nodes[i].children|] == WidgetContainer(Loading)
    ensures MountRequest(p.nodes, i) in VisitAll(p, added).requests
  {
    var init := added[..|added| - 1];
    var q := VisitAll(p, init);
    VisitAllGrows(p, init);
    if i in init {
      VisitAllMounts(p, init, i);
      VisitGrows(q, added[|added| - 1]);
      var q' := VisitAll(p, added);
      assert q.nodes[i].children <= q'.nodes[i].children;
    } else {
      assert added[|added| - 1] == i by {
        assert added == init + [added[|added| - 1]];
      }
      VisitAllLeavesUnlisted(p, init, i);
    }
  }

  lemma {:induction false} ObserveMounts(p: PageState, recs: seq<MutationRecord>, i: nat)
    requires i < |p.nodes| && Mountable(p.nodes[i]) && Added(recs, i)
    ensures p.nodes[i].children < Observe(p, recs).nodes[i].children
    ensures Observe(p, recs).nodes[i].children[|p.nodes[i].children|] == WidgetContainer(Loading)
    ensures MountRequest(p.nodes, i) in Observe(p, recs).requests
  {
    var init := recs[..|recs| - 1];
    var last := recs[|recs| - 1];
    var q := Observe(p, init);
    ObserveGrows(p, init);
    if Added(init, i) {
      ObserveMounts(p, init, i);
      if last.kind == ChildList {
        VisitAllGrows(q, last.addedNodes);
      }
    } else {
      ObserveLeavesUnlisted(p, init, i);
      assert forall k :: 0 <= k < |init| ==> init[k] == recs[k];
      assert last.kind == ChildList && i in last.addedNodes;
      VisitAllMounts(q, last.addedNodes, i);
    }
  }

  /** `k` loading containers. */
  function Loadings(k: nat): (cs: seq<Child>)
    ensures |cs| == k
  {
    if k == 0 then [] else Loadings(k - 1) + [WidgetContainer(Loading)]
  }

  /** How many of the requests `rs` name node `i`. */
  function RequestsFor(rs: seq<Request>, i: nat): nat {
    if rs == [] then 0 else RequestsFor(rs[..|rs| - 1], i) + (if rs[|rs| - 1].node == i then 1 else 0)
  }

  /** How often node `i` is listed among the added nodes of `childList` records. */
  function Listings(recs: seq<MutationRecord>, i: nat): nat {
    if recs == [] then 0
    else Listings(recs[..|recs| - 1], i)
         + (if recs[|recs| - 1].kind == ChildList then multiset(recs[|recs| - 1].addedNodes)[i] else 0)
  }

  /** Looking at one node `j`: node `i` gains a container and a request
      exactly when `j` is `i`. */
  lemma VisitMountsStep(q: PageState, j: nat, i: nat)
    requires i < |q.nodes| && Mountable(q.nodes[i])
    ensures Visit(q, j).nodes[i] == q.nodes[i].(children := q.nodes[i].children + Loadings(if j == i then 1 else 0))
    ensures q.requests <= Visit(q, j).requests
    ensures RequestsFor(Visit(q, j).requests[|q.requests|..], i) == if j == i then 1 else 0
  {
    var q' := Visit(q, j);
    var extra := q'.requests[|q.requests|..];
    if j < |q.nodes| && Mountable(q.nodes[j]) {
      assert extra == [Request(j, |q.nodes[j].children|, RequestUrl(q.nodes[j].showcaseId.value))];
      assert extra[..0] == [];
      assert Loadings(1) == [WidgetContainer(Loading)];
    } else {
      assert extra == [];
      assert q.nodes[i].children + [] == q.nodes[i].children;
    }
  }

  /** Within one record, a qualifying node gains one loading container per
      listing, and nothing else of it changes. */
  lemma {:induction false} VisitAllMountsPerListing(p: PageState, added: seq<nat>, i: nat)
    requires i < |p.nodes| && Mountable(p.nodes[i])
    ensures VisitAll(p, added).nodes[i] == p.nodes[i].(children := p.nodes[i].children + Loadings(multiset(added)[i]))
  {
    if added == [] {
      assert p.nodes[i].children + [] == p.nodes[i].children;
    } else {
      var init: seq<nat> := added[..|added| - 1];
      var last: nat := added[|added| - 1];
      assert added == init + [last];
      var d: nat := if last == i then 1 else 0;
      assert multiset(added)[i] == multiset(init)[i] + d;
      VisitAllMountsPerListing(p, init, i);
      VisitMountsStep(VisitAll(p, init), last, i);
      LoadingsAdd(multiset(init)[i], d);
      assert p.nodes[i].children + Loadings(multiset(init)[i]) + Loadings(d)
          == p.nodes[i].children + Loadings(multiset(added)[i]);
    }
  }

  /** Within one record, a qualifying node gets one request per listing. */
  lemma {:induction false} VisitAllRequestsPerListing(p: PageState, added: seq<nat>, i: nat)
    requires i < |p.nodes| && Mountable(p.nodes[i])
    ensures p.requests <= VisitAll(p, added).requests
    ensures RequestsFor(VisitAll(p, added).requests[|p.requests|..], i) == multiset(added)[i]
  {
    if added == [] {
      assert p.requests[|p.requests|..] == [];
    } else {
      var init: seq<nat> := added[..|added| - 1];
      var last: nat := added[|added| - 1];
      assert added == init + [last];
      assert multiset(added)[i] == multiset(init)[i] + if last == i then 1 else 0;
      VisitAllRequestsPerListing(p, init, i);
      VisitAllMountsPerListing(p, init, i);
      var q := VisitAll(p, init);
      VisitMountsStep(q, last, i);
      var q' := Visit(q, last);
      assert q'.requests[|p.requests|..] == q.requests[|p.requests|..] + q'.requests[|q.requests|..];
      RequestsForConcat(q.requests[|p.requests|..], q'.requests[|q.requests|..], i);
    }
  }

  /** The observer mounts a qualifying node once per listing: each listing
      appends one loading container. */
  lemma {:induction false} ObserveMountsPerListing(p: PageState, recs: seq<MutationRecord>, i: nat)
    requires i < |p.nodes| && Mountable(p.nodes[i])
    ensures Observe(p, recs).nodes[i] == p.nodes[i].(children := p.nodes[i].children + Loadings(Listings(recs, i)))
  {
    if recs == [] {
      assert p.nodes[i].children + [] == p.nodes[i].children;
    } else {
      var init, last := recs[..|recs| - 1], recs[|recs| - 1];
      ObserveMountsPerListing(p, init, i);
      var q := Observe(p, init);
      var k := Listings(init, i);
      var n := p.nodes[i];
      assert q.nodes[i] == n.(children := n.children + Loadings(k));
      if last.kind == ChildList {
        var m := multiset(last.addedNodes)[i];
        assert Listings(recs, i) == k + m;
        assert Observe(p, recs) == VisitAll(q, last.addedNodes);
        VisitAllMountsPerListing(q, last.addedNodes, i);
        LoadingsAdd(k, m);
        assert n.children + Loadings(k) + Loadings(m) == n.children + Loadings(k + m);
      } else {
        assert Observe(p, recs) == q && Listings(recs, i) == k;
      }
    }
  }

  /** ... and issues one request per listing. */
  lemma {:induction false} ObserveRequestsPerListing(p: PageState, recs: seq<MutationRecord>, i: nat)
    requires i < |p.nodes| && Mountable(p.nodes[i])
    ensures p.requests <= Observe(p, recs).requests
    ensures RequestsFor(Observe(p, recs).requests[|p.requests|..], i) == Listings(recs, i)
  {
    if recs == [] {
      assert p.requests[|p.requests|..] == [];
    } else {
      var init, last := recs[..|recs| - 1], recs[|recs| - 1];
      ObserveRequestsPerListing(p, init, i);
      if last.kind == ChildList {
        ObserveMountsPerListing(p, init, i);
        var q := Observe(p, init);
        VisitAllRequestsPerListing(q, last.addedNodes, i);
        var q' := VisitAll(q, last.addedNodes);
        assert q'.requests[|p.requests|..] == q.requests[|p.requests|..] + q'.requests[|q.requests|..];
        RequestsForConcat(q.requests[|p.requests|..], q'.requests[|q.requests|..], i);
      }
    }
  }

  lemma {:induction false} LoadingsAdd(k: nat, m: nat)
    ensures Loadings(k) + Loadings(m) == Loadings(k + m)
  {
    if m == 0 {
      assert Loadings(k) + [] == Loadings(k);
    } else {
      LoadingsAdd(k, m - 1);
      assert Loadings(k) + Loadings(m) == Loadings(k) + Loadings(m - 1) + [WidgetContainer(Loading)];
    }
  }

  lemma {:induction false} RequestsForConcat(rs: seq<Request>, extra: seq<Request>, i: nat)
    ensures RequestsFor(rs + extra, i) == RequestsFor(rs, i) + RequestsFor(extra, i)
    decreases |extra|
  {
    if extra == [] {
      assert rs + extra == rs;
    } else {
      var init := extra[..|extra| - 1];
      RequestsForConcat(rs, init, i);
      assert (rs + extra)[..|rs + extra| - 1] == rs + init;
    }
  }

  /** A qualifying node listed exactly once gets exactly one loading
      container after its children and exactly one request. */
  lemma ObserveMountsOnce(p: PageState, recs: seq<MutationRecord>, i: nat)
    requires i < |p.nodes| && Mountable(p.nodes[i]) && Listings(recs, i) == 1
    ensures Observe(p, recs).nodes[i] == AttachLoading(p.nodes[i])
    ensures p.requests <= Observe(p, recs).requests
    ensures RequestsFor(Observe(p, recs).requests[|p.requests|..], i) == 1
  {
    ObserveMountsPerListing(p, recs, i);
    ObserveRequestsPerListing(p, recs, i);
    assert Loadings(1) == [WidgetContainer(Loading)];
  }

  // ------------------------------------------------------ settling fetches

  /** Request `r` names a widget container of the page. */
  predicate Targets(p: PageState, r: Request) {
    r.node < |p.nodes| && r.slot < |p.nodes[r.node].children|
    && p.nodes[r.node].children[r.slot].WidgetContainer?
  }

  /** Every request names a container, and no two name the same one. */
  ghost predicate ValidPage(p: PageState) {
    && (forall k :: 0 <= k < |p.requests| ==> Targets(p, p.requests[k]))
    && (forall a, b :: 0 <= a < b < |p.requests| ==>
          p.requests[a].node != p.requests[b].node || p.requests[a].slot != p.requests[b].slot)
  }

  /** The answer to request `k` replaces the content of its container. */
  function Deliver(p: PageState, k: nat, outcome: Fetched<Payload>): (q: PageState)
    requires ValidPage(p) && k < |p.requests|
  {
    var r := p.requests[k];
    var n := p.nodes[r.node];
    PageState(p.nodes[r.node := n.(children := n.children[r.slot := WidgetContainer(Settle(outcome))])], p.requests)
  }

  /** Settling a fetch touches its own container and nothing else. */
  lemma DeliverIsolated(p: PageState, k: nat, outcome: Fetched<Payload>)
    requires ValidPage(p) && k < |p.requests|
    ensures var q := Deliver(p, k, outcome); var r := p.requests[k];
      && ValidPage(q) && q.requests == p.requests && |q.nodes| == |p.nodes|
      && q.nodes[r.node].children[r.slot] == WidgetContainer(Settle(outcome))
      && |q.nodes[r.node].children| == |p.nodes[r.node].children|
      && (forall j :: 0 <= j < |p.nodes| && j != r.node ==> q.nodes[j] == p.nodes[j])
      && (forall s :: 0 <= s < |p.nodes[r.node].children| && s != r.slot ==>
            q.nodes[r.node].children[s] == p.nodes[r.node].children[s])
  {
    var q := Deliver(p, k, outcome);
    forall k' | 0 <= k' < |q.requests| ensures Targets(q, q.requests[k']) {
      assert Targets(p, p.requests[k']);
    }
  }

  /** Two fetches of one page may settle in either order with the same
      result: each mount point's outcome is independent of the others'. */
  lemma DeliverCommutes(p: PageState, k1: nat, k2: nat, o1: Fetched<Payload>, o2: Fetched<Payload>)
    requires ValidPage(p) && k1 < |p.requests| && k2 < |p.requests| && k1 != k2
    ensures ValidPage(Deliver(p, k1, o1)) && ValidPage(Deliver(p, k2, o2))
    ensures Deliver(Deliver(p, k1, o1), k2, o2) == Deliver(Deliver(p, k2, o2), k1, o1)
  {
    DeliverIsolated(p, k1, o1);
    DeliverIsolated(p, k2, o2);
    var a := Deliver(Deliver(p, k1, o1), k2, o2);
    var b := Deliver(Deliver(p, k2, o2), k1, o1);
    var r1, r2 := p.requests[k1], p.requests[k2];
    assert r1.node != r2.node || r1.slot != r2.slot by {
      if k1 < k2 { } else { }
    }
    assert |a.nodes| == |b.nodes|;
    forall j | 0 <= j < |a.nodes| ensures a.nodes[j] == b.nodes[j] {
      if j == r1.node && j == r2.node {
        assert a.nodes[j].children == b.nodes[j].children;
      }
    }
  }

  /** Mounting keeps the request log well formed. */
  lemma CreateWidgetValid(p: PageState, showcaseId: string, i: nat)
    requires ValidPage(p) && i < |p.nodes|
    ensures ValidPage(CreateWidget(p, showcaseId, i))
  {
    var q := CreateWidget(p, showcaseId, i);
    forall k | 0 <= k < |q.requests| ensures Targets(q, q.requests[k]) {
      if k < |p.requests| {
        assert Targets(p, p.requests[k]);
      }
    }
    forall a, b | 0 <= a < b < |q.requests|
      ensures q.requests[a].node != q.requests[b].node || q.requests[a].slot != q.requests[b].slot
    {
      if b == |p.requests| {
        assert Targets(p, p.requests[a]);
      }
    }
  }

  lemma VisitValid(p: PageState, i: nat)
    requires ValidPage(p)
    ensures ValidPage(Visit(p, i))
  {
    if i < |p.nodes| && Mountable(p.nodes[i]) {
      CreateWidgetValid(p, p.nodes[i].showcaseId.value, i);
    }
  }

  // ------------------------------------------------------ the host page

  /** The host page as the script sees it while it runs. */
  class HostPage {
    var nodes: seq<Node>
    var requests: seq<Request>

    ghost function State(): PageState
      reads this
    {
      PageState(nodes, requests)
    }

    ghost predicate Valid()
      reads this
    {
      ValidPage(State())
    }

    /** The page before the script runs: its document, no fetch issued. */
    constructor (document: seq<Node>)
      ensures Valid() && nodes == document && requests == []
    {
      nodes := document;
      requests := [];
    }

    /** `createDevShelfWidget(showcaseId, container)`. */
    method CreateDevShelfWidget(showcaseId: string, i: nat)
      requires Valid() && i < |nodes|
      modifies this
      ensures Valid() && State() == CreateWidget(old(State()), showcaseId, i)
    {
      CreateWidgetValid(State(), showcaseId, i);
      var target := nodes[i];
      var widgetContainer := WidgetContainer(Loading);
      nodes := nodes[i := target.(children := target.children + [widgetContainer])];
      requests := requests + [Request(i, |target.children|, RequestUrl(showcaseId))];
    }

    /** `initWidgets`: every marked element, in document order. */
    method InitWidgets()
      requires Valid()
      modifies this
      ensures Valid() && State() == InitUpTo(old(State()), |old(nodes)|)
    {
      var i := 0;
      while i < |nodes|
        invariant |nodes| == |old(nodes)| && 0 <= i <= |nodes|
        invariant Valid()
        invariant State() == InitUpTo(old(State()), i)
      {
        var widget := nodes[i];
        if widget.nodeType == ElementNode && widget.hasMarker {
          var showcaseId := widget.showcaseId;
          if showcaseId.Some? && showcaseId.value != "" {
            CreateDevShelfWidget(showcaseId.value, i);
          }
        }
        i := i + 1;
      }
    }

    /** The `MutationObserver` callback. */
    method OnMutations(mutations: seq<MutationRecord>)
      requires Valid()
      modifies this
      ensures Valid() && State() == Observe(old(State()), mutations)
    {
      var k := 0;
      while k < |mutations|
        invariant 0 <= k <= |mutations|
        invariant Valid()
        invariant State() == Observe(old(State()), mutations[..k])
      {
        var mutation := mutations[k];
        if mutation.kind == ChildList {
          ghost var before := State();
          var j := 0;
          while j < |mutation.addedNodes|
            invariant 0 <= j <= |mutation.addedNodes|
            invariant Valid()
            invariant State() == VisitAll(before, mutation.addedNodes[..j])
          {
            var i := mutation.addedNodes[j];
            assert mutation.addedNodes[..j + 1][..j] == mutation.addedNodes[..j];
            VisitValid(State(), i);
            if i < |nodes| && nodes[i].nodeType == ElementNode && nodes[i].hasMarker {
              var showcaseId := nodes[i].showcaseId;
              if showcaseId.Some? && showcaseId.value != "" {
                CreateDevShelfWidget(showcaseId.value, i);
              }
            }
            j := j + 1;
          }
          assert mutation.addedNodes[..j] == mutation.addedNodes;
        }
        assert mutations[..k + 1][..k] == mutations[..k];
        k := k + 1;
      }
      assert mutations[..k] == mutations;
    }

    /** The `.then`/`.catch` continuation of request `k`. */
    method Complete(k: nat, outcome: Fetched<Payload>)
      requires Valid() && k < |requests|
      modifies this
      ensures Valid() && State() == Deliver(old(State()), k, outcome)
    {
      DeliverIsolated(State(), k, outcome);
      var r := requests[k];
      var mount := nodes[r.node];
      nodes := nodes[r.node := mount.(children := mount.children[r.slot := WidgetContainer(Settle(outcome))])];
    }
  }

  // ------------------------------------------------------ a worked page

  const AliceId: string := "alice-1700000000000"

  function AliceData(): Payload {
    Payload(
      None,
      Some(ShowcaseUser("alice", None, "https://x/a.png", None)),
      Some([ShowcaseRepo("repo1", None, Some("TypeScript"), Some(["web"]), 120, 4, 8,
                         "https://github.com/alice/repo1", None)]))
  }

  /** A page holding one mount point for alice's showcase: after the initial
      pass and the answer, its container shows "@alice" and one card "repo1"
      with 120 stars. */
  lemma AliceShowcaseRenders()
    ensures var p := InitUpTo(PageState([Node(ElementNode, true, Some(AliceId), [])], []), 1);
      && ValidPage(p) && p.requests == [Request(0, 0, RequestUrl(AliceId))]
      && var q := Deliver(p, 0, Response(200, Valid(AliceData())));
         q.nodes[0].children[0].state.Rendered?
         && q.nodes[0].children[0].state.showcase.handle == "@alice"
         && |q.nodes[0].children[0].state.showcase.cards| == 1
         && q.nodes[0].children[0].state.showcase.cards[0].name == "repo1"
         && q.nodes[0].children[0].state.showcase.cards[0].stars == 120
  {
    var p0 := PageState([Node(ElementNode, true, Some(AliceId), [])], []);
    VisitValid(p0, 0);
    assert InitUpTo(p0, 0) == p0;
    var p := InitUpTo(p0, 1);
    assert p == Visit(p0, 0);
  }
}
