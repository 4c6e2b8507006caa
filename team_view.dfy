/** The team view: per-member workload, published count and engagement, and
    the two content totals above the member cards. */
module TeamView {
  import opened Base
  import opened Types

  /** The items assigned to `member` that are still in progress. */
  function ActiveOf(items: seq<ContentItem>, member: string): seq<ContentItem>
  {
    Filter(items, (c: ContentItem) => c.assignedTo == member && c.status != Published)
  }

  /** The items assigned to `member` that are published. */
  function PublishedOf(items: seq<ContentItem>, member: string): seq<ContentItem>
  {
    Filter(items, (c: ContentItem) => c.assignedTo == member && c.status == Published)
  }

  /** The "Active" figure on a member card. */
  function Workload(items: seq<ContentItem>, member: string): nat
  {
    |ActiveOf(items, member)|
  }

  /** The "Published" figure on a member card. */
  function PublishedCount(items: seq<ContentItem>, member: string): nat
  {
    |PublishedOf(items, member)|
  }

  /** The sum of views plus ten times likes over a list. */
  function SumReach(s: seq<ContentItem>): nat
  {
    if s == [] then 0 else ReachScore(s[0].metrics) + SumReach(s[1..])
  }

  /** The "Engagement" figure on a member card: the reach of the member's
      published items only. */
  function TotalEngagement(items: seq<ContentItem>, member: string): nat
  {
    SumReach(PublishedOf(items, member))
  }

  /** The "Active Tasks" total. */
  function ActiveTasks(items: seq<ContentItem>): nat
  {
    |Filter(items, (c: ContentItem) => c.status != Published)|
  }

  /** The "Published Content" total. */
  function PublishedTotal(items: seq<ContentItem>): nat
  {
    |Filter(items, (c: ContentItem) => c.status == Published)|
  }

  /** The items assigned to `member`, whatever their stage. */
  function AssignedCount(items: seq<ContentItem>, member: string): nat
  {
    Count(items, (c: ContentItem) => c.assignedTo == member)
  }

  /** A member's active and published figures together count every item
      assigned to them. */
  lemma {:induction false} WorkloadPlusPublished(items: seq<ContentItem>, member: string)
    ensures Workload(items, member) + PublishedCount(items, member) == AssignedCount(items, member)
  {
    if items != [] {
      WorkloadPlusPublished(items[1..], member);
    }
  }

  /** The two totals together count the whole content list. */
  lemma ActivePlusPublished(items: seq<ContentItem>)
    ensures ActiveTasks(items) + PublishedTotal(items) == |items|
  {
    var active := (c: ContentItem) => c.status != Published;
    var done := (c: ContentItem) => c.status == Published;
    FilterLength(items, active);
    FilterLength(items, done);
    CountSplit(items, active, done);
  }

  /** No member's workload exceeds the team's active total, and no member's
      published figure exceeds the published total. */
  lemma {:induction false} MemberWithinTotals(items: seq<ContentItem>, member: string)
    ensures Workload(items, member) <= ActiveTasks(items)
    ensures PublishedCount(items, member) <= PublishedTotal(items)
  {
    if items != [] {
      MemberWithinTotals(items[1..], member);
    }
  }

  lemma {:induction false} SumReachAppend(a: seq<ContentItem>, b: seq<ContentItem>)
    ensures SumReach(a + b) == SumReach(a) + SumReach(b)
  {
    if a == [] {
      assert a + b == b;
    } else {
      assert (a + b)[1..] == a[1..] + b;
      SumReachAppend(a[1..], b);
    }
  }

  lemma {:induction false} SumReachMember(s: seq<ContentItem>, x: ContentItem)
    requires x in s
    ensures ReachScore(x.metrics) <= SumReach(s)
  {
    if s[0] != x {
      SumReachMember(s[1..], x);
    }
  }

  /** Engagement adds up over concatenated lists, includes the full reach of
      each of the member's published items, and is 0 when the member has
      published nothing. */
  lemma EngagementSpec(items: seq<ContentItem>, more: seq<ContentItem>, member: string)
    ensures TotalEngagement(items + more, member) == TotalEngagement(items, member) + TotalEngagement(more, member)
    ensures forall x :: x in items && x.assignedTo == member && x.status == Published ==>
              ReachScore(x.metrics) <= TotalEngagement(items, member)
    ensures PublishedCount(items, member) == 0 ==> TotalEngagement(items, member) == 0
  {
    var p := (c: ContentItem) => c.assignedTo == member && c.status == Published;
    FilterAppend(items, more, p);
    SumReachAppend(Filter(items, p), Filter(more, p));
    forall x | x in items && x.assignedTo == member && x.status == Published
      ensures ReachScore(x.metrics) <= TotalEngagement(items, member)
    {
      FilterMembers(items, p, x);
      SumReachMember(Filter(items, p), x);
    }
  }

  /** Items in progress never contribute to engagement. */
  lemma {:induction false} EngagementIgnoresActive(items: seq<ContentItem>, x: ContentItem, member: string)
    requires x.status != Published
    ensures TotalEngagement([x] + items, member) == TotalEngagement(items, member)
    ensures Workload([x] + items, member) == Workload(items, member) + (if x.assignedTo == member then 1 else 0)
  {
    assert ([x] + items)[1..] == items;
  }
}
