/** The repository card: the star-tier badge (a gradient colour and a
    label, chosen by two separate threshold ladders) and the rules for which
    optional parts of the card appear. */
module ProjectCard {
  import opened Js
  import opened Types

  /** The five star tiers, lowest first. */
  datatype Tier = New | Promising | Rising | Popular | Hot

  function TierRank(t: Tier): nat {
    match t
    case New => 0
    case Promising => 1
    case Rising => 2
    case Popular => 3
    case Hot => 4
  }

  /** The star counts at which the Promising, Rising, Popular and Hot tiers
      begin. */
  const Ladder: seq<int> := [50, 100, 500, 1000]

  /** How many thresholds of `ladder` the count reaches. */
  function ThresholdsMet(ladder: seq<int>, stars: int): (n: nat)
    ensures n <= |ladder|
  {
    if ladder == [] then 0
    else (if ladder[0] <= stars then 1 else 0) + ThresholdsMet(ladder[1..], stars)
  }

  /** The tier of a star count: one step up per threshold reached. */
  function TierOf(stars: int): Tier {
    [New, Promising, Rising, Popular, Hot][ThresholdsMet(Ladder, stars)]
  }

  /** The ladder's four thresholds, counted one by one. */
  lemma LadderCount(stars: int)
    ensures ThresholdsMet(Ladder, stars)
         == (if 50 <= stars then 1 else 0) + (if 100 <= stars then 1 else 0)
          + (if 500 <= stars then 1 else 0) + (if 1000 <= stars then 1 else 0)
  {
    var l1, l2, l3 := [100, 500, 1000], [500, 1000], [1000];
    assert Ladder[1..] == l1 && l1[1..] == l2 && l2[1..] == l3 && l3[1..] == [];
    assert ThresholdsMet(l3, stars) == if 1000 <= stars then 1 else 0;
    assert ThresholdsMet(l2, stars) == (if 500 <= stars then 1 else 0) + ThresholdsMet(l3, stars);
    assert ThresholdsMet(l1, stars) == (if 100 <= stars then 1 else 0) + ThresholdsMet(l2, stars);
  }

  function TierColor(t: Tier): string {
    match t
    case Hot => "from-yellow-400 to-yellow-600"
    case Popular => "from-purple-400 to-purple-600"
    case Rising => "from-blue-400 to-blue-600"
    case Promising => "from-green-400 to-green-600"
    case New => "from-gray-400 to-gray-600"
  }

  /** The labels as the component file holds them: each emoji's UTF-8 bytes
      read back as Windows-1252 text (four characters where a
      fire emoji was meant); the star lost its third byte. */
  function TierLabel(t: Tier): string {
    match t
    case Hot => "\U{F0}\U{178}\U{201D}\U{A5} Hot"
    case Popular => "\U{E2}\U{AD} Popular"
    case Rising => "\U{F0}\U{178}\U{161}\U{20AC} Rising"
    case Promising => "\U{F0}\U{178}\U{2019}\U{AB} Promising"
    case New => "\U{F0}\U{178}\U{2020}\U{2022} New"
  }

  /** `getBadgeColor`: the colour of the count's tier. */
  function BadgeColor(stars: int): (c: string)
    ensures c == TierColor(TierOf(stars))
  {
    LadderCount(stars);
    if stars >= 1000 then "from-yellow-400 to-yellow-600"
    else if stars >= 500 then "from-purple-400 to-purple-600"
    else if stars >= 100 then "from-blue-400 to-blue-600"
    else if stars >= 50 then "from-green-400 to-green-600"
    else "from-gray-400 to-gray-600"
  }

  /** `getBadgeText`: the label of the count's tier. */
  function BadgeText(stars: int): (s: string)
    ensures s == TierLabel(TierOf(stars))
  {
    LadderCount(stars);
    if stars >= 1000 then "\U{F0}\U{178}\U{201D}\U{A5} Hot"
    else if stars >= 500 then "\U{E2}\U{AD} Popular"
    else if stars >= 100 then "\U{F0}\U{178}\U{161}\U{20AC} Rising"
    else if stars >= 50 then "\U{F0}\U{178}\U{2019}\U{AB} Promising"
    else "\U{F0}\U{178}\U{2020}\U{2022} New"
  }

  /** The bands of the ladder. */
  lemma TierBands(stars: int)
    ensures TierOf(stars) == Hot <==> 1000 <= stars
    ensures TierOf(stars) == Popular <==> 500 <= stars < 1000
    ensures TierOf(stars) == Rising <==> 100 <= stars < 500
    ensures TierOf(stars) == Promising <==> 50 <= stars < 100
    ensures TierOf(stars) == New <==> stars < 50
  {
    LadderCount(stars);
  }

  /** Colour and label always name one tier: two counts share a colour
      exactly when they share a label. */
  lemma BadgeAgrees(s1: int, s2: int)
    ensures BadgeColor(s1) == BadgeColor(s2) <==> BadgeText(s1) == BadgeText(s2)
    ensures BadgeColor(s1) == BadgeColor(s2) <==> TierOf(s1) == TierOf(s2)
  {
    var t1, t2 := TierOf(s1), TierOf(s2);
    if t1 != t2 {
      assert TierColor(t1) != TierColor(t2) by {
        assert TierColor(t1)[7] != TierColor(t2)[7];
      }
      assert TierLabel(t1) != TierLabel(t2) by {
        assert TierLabel(t1)[2] != TierLabel(t2)[2];
      }
    }
  }

  lemma {:induction false} ThresholdsMetMonotone(ladder: seq<int>, s1: int, s2: int)
    requires s1 <= s2
    ensures ThresholdsMet(ladder, s1) <= ThresholdsMet(ladder, s2)
  {
    if ladder != [] {
      ThresholdsMetMonotone(ladder[1..], s1, s2);
    }
  }

  /** More stars never mean a lower tier. */
  lemma TierMonotone(s1: int, s2: int)
    requires s1 <= s2
    ensures TierRank(TierOf(s1)) <= TierRank(TierOf(s2))
  {
    ThresholdsMetMonotone(Ladder, s1, s2);
  }

  // ------------------------------------------------------ the card

  /** What a card shows, apart from layout; absent parts are `None`. */
  datatype CardView = CardView(
    badgeColor: string,
    badgeText: string,
    name: string,
    description: Option<string>,
    languageChip: Option<string>,
    topicChips: seq<string>,
    githubLink: string,
    homepageLink: Option<string>)

  /** The card of a repository. */
  function RenderProjectCard(repo: Repository): (v: CardView)
    ensures v.badgeColor == BadgeColor(repo.stargazersCount) && v.badgeText == BadgeText(repo.stargazersCount)
    ensures v.name == repo.name && v.githubLink == repo.htmlUrl
    ensures v.description.Some? <==> Truthy(repo.description)
    ensures v.description.Some? ==> v.description.value == repo.description.value
    ensures v.languageChip.Some? <==> Truthy(repo.language)
    ensures v.languageChip.Some? ==> v.languageChip.value == repo.language.value
    ensures |v.topicChips| == if |repo.topics| < 3 then |repo.topics| else 3
    ensures v.topicChips == repo.topics[..|v.topicChips|]
    ensures v.homepageLink.Some? <==> Truthy(repo.homepage)
    ensures v.homepageLink.Some? ==> v.homepageLink.value == repo.homepage.value
  {
    CardView(
      BadgeColor(repo.stargazersCount),
      BadgeText(repo.stargazersCount),
      repo.name,
      if Truthy(repo.description) then Some(repo.description.value) else None,
      if Truthy(repo.language) then Some(repo.language.value) else None,
      Take(repo.topics, 3),
      repo.htmlUrl,
      if Truthy(repo.homepage) then Some(repo.homepage.value) else None)
  }
}
