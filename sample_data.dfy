/** The seed records of the dashboard and the queries over them: member
    lookup, the items of one stage, the stuck items and the top five published
    items by reach. The helper that dates seed records relative to today is the
    parameter `daysAgo`. */
module SampleData {
  import opened Base
  import opened Types
  import opened Text
  import opened Helpers

  // ---------------------------------------------------------------------------
  // Team roster

  const SarahChen := TeamMember("tm1", "Sarah Chen", "Content Manager", "sarah@creatorchart.com", "SC", 5)
  const MikeJohnson := TeamMember("tm2", "Mike Johnson", "Content Creator", "mike@creatorchart.com", "MJ", 4)
  const EmilyRodriguez := TeamMember("tm3", "Emily Rodriguez", "Designer", "emily@creatorchart.com", "ER", 3)
  const DavidKim := TeamMember("tm4", "David Kim", "Social Media Manager", "david@creatorchart.com", "DK", 6)
  const LisaWang := TeamMember("tm5", "Lisa Wang", "Analyst", "lisa@creatorchart.com", "LW", 2)
  const JamesCooper := TeamMember("tm6", "James Cooper", "Video Producer", "james@creatorchart.com", "JC", 4)
  const AnnaPatel := TeamMember("tm7", "Anna Patel", "Community Manager", "anna@creatorchart.com", "AP", 3)

  const TeamMembers: seq<TeamMember> := [SarahChen, MikeJohnson, EmilyRodriguez, DavidKim, LisaWang, JamesCooper, AnnaPatel]

  /** The first member with that id. */
  function FindMember(members: seq<TeamMember>, id: string): (r: Option<TeamMember>)
    ensures r.None? <==> forall i :: 0 <= i < |members| ==> members[i].id != id
    ensures r.Some? ==> exists i :: 0 <= i < |members| && members[i] == r.value
                                    && r.value.id == id
                                    && forall j :: 0 <= j < i ==> members[j].id != id
  {
    if members == [] then None
    else if members[0].id == id then Some(members[0])
    else
      var r := FindMember(members[1..], id);
      if r.Some? then
        var i :| 0 <= i < |members[1..]| && members[1..][i] == r.value && r.value.id == id
                 && forall j :: 0 <= j < i ==> members[1..][j].id != id;
        assert members[i + 1] == r.value;
        r
      else r
  }

  /** `getTeamMember`. */
  function GetTeamMember(id: string): Option<TeamMember>
  {
    FindMember(TeamMembers, id)
  }

  /** With distinct ids, looking up the id of a member finds that member. */
  lemma FindMemberOfId(members: seq<TeamMember>, k: nat)
    requires forall i, j :: 0 <= i < j < |members| ==> members[i].id != members[j].id
    requires k < |members|
    ensures FindMember(members, members[k].id) == Some(members[k])
  {
    var r := FindMember(members, members[k].id);
    var i :| 0 <= i < |members| && members[i] == r.value && r.value.id == members[k].id
             && forall j :: 0 <= j < i ==> members[j].id != members[k].id;
    assert i == k;
  }

  /** The roster ids are distinct, so a lookup by a roster id finds that very
      member, and an id outside the roster finds none. */
  lemma RosterLookup()
    ensures forall i, j :: 0 <= i < j < |TeamMembers| ==> TeamMembers[i].id != TeamMembers[j].id
    ensures forall k :: 0 <= k < |TeamMembers| ==> GetTeamMember(TeamMembers[k].id) == Some(TeamMembers[k])
    ensures GetTeamMember("tm1") == Some(SarahChen)
    ensures GetTeamMember("tm8").None?
  {
    forall k | 0 <= k < |TeamMembers| ensures GetTeamMember(TeamMembers[k].id) == Some(TeamMembers[k]) {
      FindMemberOfId(TeamMembers, k);
    }
  }

  // ---------------------------------------------------------------------------
  // Seed content

  const Title1 := "10 LinkedIn Growth Hacks for B2B Founders"
  const Description1 := "Comprehensive guide on leveraging LinkedIn for business growth"
  const Title2 := "Behind the Scenes: Our Content Creation Process"
  const Description2 := "Instagram carousel showing our workflow"
  const Title3 := "The Future of AI in Content Marketing"
  const Description3 := "Deep dive thread on AI tools transforming content creation"
  const Title4 := "How We Grew to 100K Subscribers"
  const Description4 := "YouTube documentary on our newsletter growth journey"
  const Title5 := "Weekly Creator Economy Insights #47"
  const Description5 := "Newsletter covering latest trends and opportunities"
  const Title6 := "Creator Monetization Strategies for 2024"
  const Description6 := "Substack article on diverse revenue streams"
  const Title7 := "Reddit AMA: Building a Creator Business"
  const Description7 := "Planned AMA session in r/Entrepreneur"
  const Title8 := "Instagram Reels: 5 Hooks That Convert"
  const Description8 := "Educational reel on content hooks"
  const Title9 := "The Ultimate Guide to Content Repurposing"
  const Description9 := "Long-form LinkedIn article with infographics"
  const Title10 := "YouTube Thumbnail A/B Testing Results"
  const Description10 := "Video breaking down our thumbnail experiments"
  const Title11 := "Newsletter Design Best Practices"
  const Description11 := "Collection of newsletter layout tips"
  const Title12 := "X Threads That Went Viral: Analysis"
  const Description12 := "Breaking down successful viral threads"
  const Title13 := "Reddit Community Building Strategies"
  const Description13 := "Guide to growing subreddit communities"
  const Title14 := "Substack vs ConvertKit: Deep Comparison"
  const Description14 := "Detailed platform comparison article"
  const Title15 := "Instagram Algorithm Changes 2024"
  const Description15 := "Analysis of recent algorithm updates"
  const Title16 := "LinkedIn Creator Mode Deep Dive"
  const Description16 := "Exploring all features of creator mode"
  const Title17 := "YouTube Shorts Strategy Guide"
  const Description17 := "How to leverage Shorts for growth"
  const Title18 := "X Premium Features Worth Using"
  const Description18 := "Review of X Premium subscription features"
  const Title19 := "Newsletter Sponsorship Guide"
  const Description19 := "How to attract and manage sponsors"
  const Title20 := "Reddit Gold: Mining Niche Communities"
  const Description20 := "Finding valuable subreddits for marketing"
  const Title21 := "How to Build a Personal Brand on LinkedIn"
  const Description21 := "Step-by-step branding guide"
  const Title22 := "Instagram Stories vs Reels: Data Analysis"
  const Description22 := "Which format performs better"
  const Title23 := "The Psychology of Viral Content"
  const Description23 := "What makes content shareable"
  const Title24 := "Creator Tools We Use Daily"
  const Description24 := "Our tech stack revealed"
  const Title25 := "Building in Public: Month 6 Update"
  const Description25 := "Transparent growth journey thread"

  /** The twenty-five seed items, dated by `daysAgo`. */
  function SeedContent(daysAgo: int -> int): (r: seq<ContentItem>)
    ensures |r| == 25
  {
    [
    ContentItem("c1", Title1, Description1,
      LinkedIn, Published, "tm2", daysAgo(14), daysAgo(2), Some(daysAgo(2)),
      Metrics(12500, 890, 156, 234), None, None, 2),
    ContentItem("c2", Title2, Description2,
      Instagram, Published, "tm3", daysAgo(10), daysAgo(3), Some(daysAgo(3)),
      Metrics(8900, 1250, 89, 167), None, None, 3),
    ContentItem("c3", Title3, Description3,
      X, Published, "tm2", daysAgo(7), daysAgo(1), Some(daysAgo(1)),
      Metrics(45000, 2340, 456, 890), None, None, 1),
    ContentItem("c4", Title4, Description4,
      YouTube, Published, "tm6", daysAgo(21), daysAgo(5), Some(daysAgo(5)),
      Metrics(67000, 4500, 890, 1200), None, None, 5),
    ContentItem("c5", Title5, Description5,
      Newsletter, Published, "tm1", daysAgo(8), daysAgo(1), Some(daysAgo(1)),
      Metrics(15600, 0, 45, 230), None, None, 1),
    ContentItem("c6", Title6, Description6,
      Substack, Review, "tm1", daysAgo(5), daysAgo(1), None,
      Metrics(0, 0, 0, 0), None, None, 1),
    ContentItem("c7", Title7, Description7,
      Reddit, Review, "tm7", daysAgo(4), daysAgo(2), None,
      Metrics(0, 0, 0, 0), None, None, 2),
    ContentItem("c8", Title8, Description8,
      Instagram, Review, "tm3", daysAgo(3), daysAgo(1), None,
      Metrics(0, 0, 0, 0), None, None, 1),
    ContentItem("c9", Title9, Description9,
      LinkedIn, Design, "tm3", daysAgo(6), daysAgo(2), None,
      Metrics(0, 0, 0, 0), None, None, 2),
    ContentItem("c10", Title10, Description10,
      YouTube, Design, "tm6", daysAgo(4), daysAgo(1), None,
      Metrics(0, 0, 0, 0), None, None, 1),
    ContentItem("c11", Title11, Description11,
      Newsletter, Design, "tm3", daysAgo(8), daysAgo(4), None,
      Metrics(0, 0, 0, 0), None, None, 4),
    ContentItem("c12", Title12, Description12,
      X, Drafting, "tm2", daysAgo(9), daysAgo(5), None,
      Metrics(0, 0, 0, 0), None, None, 5),
    ContentItem("c13", Title13, Description13,
      Reddit, Drafting, "tm7", daysAgo(7), daysAgo(4), None,
      Metrics(0, 0, 0, 0), None, None, 4),
    ContentItem("c14", Title14, Description14,
      Substack, Drafting, "tm5", daysAgo(5), daysAgo(2), None,
      Metrics(0, 0, 0, 0), None, None, 2),
    ContentItem("c15", Title15, Description15,
      Instagram, Drafting, "tm4", daysAgo(11), daysAgo(6), None,
      Metrics(0, 0, 0, 0), None, None, 6),
    ContentItem("c16", Title16, Description16,
      LinkedIn, Ideation, "tm2", daysAgo(2), daysAgo(1), None,
      Metrics(0, 0, 0, 0), None, None, 1),
    ContentItem("c17", Title17, Description17,
      YouTube, Ideation, "tm6", daysAgo(3), daysAgo(1), None,
      Metrics(0, 0, 0, 0), None, None, 1),
    ContentItem("c18", Title18, Description18,
      X, Ideation, "tm4", daysAgo(1), daysAgo(0), None,
      Metrics(0, 0, 0, 0), None, None, 0),
    ContentItem("c19", Title19, Description19,
      Newsletter, Ideation, "tm1", daysAgo(2), daysAgo(1), None,
      Metrics(0, 0, 0, 0), None, None, 1),
    ContentItem("c20", Title20, Description20,
      Reddit, Ideation, "tm7", daysAgo(4), daysAgo(2), None,
      Metrics(0, 0, 0, 0), None, None, 2),
    ContentItem("c21", Title21, Description21,
      LinkedIn, Published, "tm2", daysAgo(20), daysAgo(12), Some(daysAgo(12)),
      Metrics(34000, 2100, 340, 560), None, None, 12),
    ContentItem("c22", Title22, Description22,
      Instagram, Published, "tm5", daysAgo(18), daysAgo(10), Some(daysAgo(10)),
      Metrics(21000, 1800, 210, 380), None, None, 10),
    ContentItem("c23", Title23, Description23,
      Substack, Published, "tm1", daysAgo(25), daysAgo(18), Some(daysAgo(18)),
      Metrics(8900, 620, 89, 145), None, None, 18),
    ContentItem("c24", Title24, Description24,
      YouTube, Published, "tm6", daysAgo(15), daysAgo(8), Some(daysAgo(8)),
      Metrics(52000, 3200, 567, 890), None, None, 8),
    ContentItem("c25", Title25, Description25,
      X, Published, "tm4", daysAgo(12), daysAgo(6), Some(daysAgo(6)),
      Metrics(28000, 1900, 280, 450), None, None, 6)
    ]
  }

  /** The number written after the letter of a seed id of two or three
      characters. */
  function IdNumber(id: string): int
  {
    if |id| == 2 then id[1] as int - '0' as int
    else if |id| == 3 then 10 * (id[1] as int - '0' as int) + (id[2] as int - '0' as int)
    else 0
  }

  lemma SeedIdsNumbered(daysAgo: int -> int)
    ensures var items := SeedContent(daysAgo);
      forall k :: 0 <= k < |items| ==> IdNumber(items[k].id) == k + 1
  {
  }

  /** The seed ids are distinct: they are "c1" to "c25" in order. */
  lemma SeedIdsDistinct(daysAgo: int -> int)
    ensures var items := SeedContent(daysAgo);
      forall i, j :: 0 <= i < j < |items| ==> items[i].id != items[j].id
  {
    SeedIdsNumbered(daysAgo);
  }

  /** An item that is not published has no metrics and no publish date, and a
      published one has a publish date. */
  lemma SeedPublishing(daysAgo: int -> int)
    ensures var items := SeedContent(daysAgo);
      && (forall i :: 0 <= i < |items| && items[i].status != Published ==>
            items[i].metrics == ZeroMetrics && items[i].publishDate.None?)
      && (forall i :: 0 <= i < |items| && items[i].status == Published ==> items[i].publishDate.Some?)
  {
  }

  // ---------------------------------------------------------------------------
  // Queries

  /** `getContentByStatus`. */
  function ContentByStatus(items: seq<ContentItem>, status: ContentStatus): seq<ContentItem>
  {
    Filter(items, (item: ContentItem) => item.status == status)
  }

  /** The items of a stage are exactly those with that status, each as often
      as it occurs, in order. */
  lemma ContentByStatusSpec(items: seq<ContentItem>, status: ContentStatus)
    ensures IsSubsequence(ContentByStatus(items, status), items)
    ensures |ContentByStatus(items, status)| == Count(items, (item: ContentItem) => item.status == status)
    ensures forall x :: x in ContentByStatus(items, status) <==> x in items && x.status == status
  {
    var p := (item: ContentItem) => item.status == status;
    FilterIsSubsequence(items, p);
    FilterLength(items, p);
    forall x ensures x in Filter(items, p) <==> x in items && p(x) {
      FilterMembers(items, p, x);
    }
  }

  /** `getStuckItems`, which spells out the `isStuck` test inline. */
  function StuckItems(items: seq<ContentItem>): seq<ContentItem>
  {
    Filter(items, (item: ContentItem) => item.daysInStage > 3 && item.status != Published)
  }

  /** The stuck items are exactly those `IsStuck` holds for, each as often as
      it occurs, in order. */
  lemma StuckItemsSpec(items: seq<ContentItem>)
    ensures IsSubsequence(StuckItems(items), items)
    ensures |StuckItems(items)| == Count(items, IsStuck)
    ensures forall x :: x in StuckItems(items) <==> x in items && IsStuck(x)
  {
    var p := (item: ContentItem) => item.daysInStage > 3 && item.status != Published;
    FilterIsSubsequence(items, p);
    FilterLength(items, p);
    CountSame(items, p, IsStuck);
    forall x ensures x in Filter(items, p) <==> x in items && p(x) {
      FilterMembers(items, p, x);
    }
  }

  // ---------------------------------------------------------------------------
  // High performers

  const TopCount: nat := 5

  predicate SortedByReach(s: seq<ContentItem>)
  {
    forall i, j :: 0 <= i < j < |s| ==> ReachScore(s[i].metrics) >= ReachScore(s[j].metrics)
  }

  /** Inserts `x` before the first element that does not score more. */
  function InsertByReach(x: ContentItem, s: seq<ContentItem>): (r: seq<ContentItem>)
    ensures |r| == |s| + 1
    ensures multiset(r) == multiset(s) + multiset{x}
  {
    if s == [] || ReachScore(s[0].metrics) <= ReachScore(x.metrics) then [x] + s
    else
      assert s == [s[0]] + s[1..];
      [s[0]] + InsertByReach(x, s[1..])
  }

  lemma {:induction false} InsertKeepsSorted(x: ContentItem, s: seq<ContentItem>)
    requires SortedByReach(s)
    ensures SortedByReach(InsertByReach(x, s))
  {
    if s != [] && ReachScore(s[0].metrics) > ReachScore(x.metrics) {
      InsertKeepsSorted(x, s[1..]);
      var r := InsertByReach(x, s[1..]);
      forall k | 0 <= k < |r| ensures ReachScore(s[0].metrics) >= ReachScore(r[k].metrics) {
        assert r[k] in multiset(s[1..]) + multiset{x};
        if r[k] != x {
          assert r[k] in s[1..];
        }
      }
    }
  }

  /** The stable sort that `Array.prototype.sort` performs with the reach
      comparator, descending. */
  function SortByReach(s: seq<ContentItem>): (r: seq<ContentItem>)
    ensures |r| == |s|
    ensures multiset(r) == multiset(s)
  {
    if s == [] then []
    else
      assert s == [s[0]] + s[1..];
      InsertByReach(s[0], SortByReach(s[1..]))
  }

  lemma {:induction false} SortByReachSorted(s: seq<ContentItem>)
    ensures SortedByReach(SortByReach(s))
  {
    if s != [] {
      SortByReachSorted(s[1..]);
      InsertKeepsSorted(s[0], SortByReach(s[1..]));
    }
  }

  function PublishedItems(items: seq<ContentItem>): seq<ContentItem>
  {
    Filter(items, (item: ContentItem) => item.status == Published)
  }

  /** `getHighPerformers` over `items`: the published items by decreasing
      reach, cut to five. */
  function HighPerformers(items: seq<ContentItem>): seq<ContentItem>
  {
    Take(SortByReach(PublishedItems(items)), TopCount)
  }

  lemma SortedPrefix(s: seq<ContentItem>, n: nat)
    requires SortedByReach(s) && n <= |s|
    ensures SortedByReach(s[..n])
    ensures forall i, j :: 0 <= i < n <= j < |s| ==> ReachScore(s[i].metrics) >= ReachScore(s[j].metrics)
  {
  }

  /** At most five items, by non-increasing reach, taken from the published
      items; exactly five when more than five are published. */
  lemma HighPerformersSorted(items: seq<ContentItem>)
    ensures var r := HighPerformers(items);
      && |r| == (if |PublishedItems(items)| < TopCount then |PublishedItems(items)| else TopCount)
      && SortedByReach(r)
      && multiset(r) <= multiset(PublishedItems(items))
  {
    var sorted := SortByReach(PublishedItems(items));
    var r := HighPerformers(items);
    SortByReachSorted(PublishedItems(items));
    SortedPrefix(sorted, |r|);
    assert sorted == r + sorted[|r|..];
    assert multiset(sorted) == multiset(r) + multiset(sorted[|r|..]);
  }

  /** Every high performer is a published item of the list. */
  lemma HighPerformersPublished(items: seq<ContentItem>)
    ensures forall x :: x in HighPerformers(items) ==> x in items && x.status == Published
  {
    HighPerformersSorted(items);
    forall x | x in HighPerformers(items) ensures x in items && x.status == Published {
      assert x in multiset(PublishedItems(items));
      FilterMembers(items, (item: ContentItem) => item.status == Published, x);
    }
  }

  /** No published item left out reaches more than any item kept. */
  lemma HighPerformersLeftOut(items: seq<ContentItem>, x: ContentItem, k: nat)
    requires x in multiset(PublishedItems(items)) - multiset(HighPerformers(items))
    requires k < |HighPerformers(items)|
    ensures ReachScore(x.metrics) <= ReachScore(HighPerformers(items)[k].metrics)
  {
    var sorted := SortByReach(PublishedItems(items));
    var r := HighPerformers(items);
    SortByReachSorted(PublishedItems(items));
    SortedPrefix(sorted, |r|);
    var rest := sorted[|r|..];
    assert sorted == r + rest;
    assert multiset(sorted) == multiset(r) + multiset(rest);
    assert x in multiset(rest);
    var j :| 0 <= j < |rest| && rest[j] == x;
    assert sorted[|r| + j] == x;
  }
}
