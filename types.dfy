/** The records of the content-operations dashboard: content items moving
    through the five-stage pipeline, creator intake submissions, the team roster,
    activity entries and the two results of the rule-based engine. Dates are
    milliseconds since the epoch. */
module Types {
  import opened Base

  datatype Platform = LinkedIn | Instagram | X | Reddit | Substack | YouTube | Newsletter

  /** The pipeline stages, in board order. */
  datatype ContentStatus = Ideation | Drafting | Design | Review | Published

  function PlatformName(p: Platform): string
  {
    match p
    case LinkedIn => "LinkedIn"
    case Instagram => "Instagram"
    case X => "X"
    case Reddit => "Reddit"
    case Substack => "Substack"
    case YouTube => "YouTube"
    case Newsletter => "Newsletter"
  }

  function StatusName(s: ContentStatus): string
  {
    match s
    case Ideation => "Ideation"
    case Drafting => "Drafting"
    case Design => "Design"
    case Review => "Review"
    case Published => "Published"
  }

  const AllStatuses: seq<ContentStatus> := [Ideation, Drafting, Design, Review, Published]

  const AllPlatforms: seq<Platform> := [LinkedIn, Instagram, X, Reddit, Substack, YouTube, Newsletter]

  datatype Metrics = Metrics(views: nat, likes: nat, comments: nat, shares: nat)

  const ZeroMetrics := Metrics(0, 0, 0, 0)

  datatype ContentItem = ContentItem(
    id: string,
    title: string,
    description: string,
    platform: Platform,
    status: ContentStatus,
    assignedTo: string,
    createdDate: int,
    lastUpdated: int,
    publishDate: Option<int>,
    metrics: Metrics,
    aiSummary: Option<string>,
    aiTitles: Option<seq<string>>,
    daysInStage: nat)

  datatype CreatorProfile = CreatorProfile(
    id: string,
    name: string,
    email: string,
    platform: string,
    followerCount: string,
    description: string,
    goals: seq<string>,
    aiNiche: Option<string>,
    aiPlatformFocus: Option<string>,
    aiStage: Option<string>,
    aiRecommendations: Option<seq<string>>,
    submittedDate: int)

  datatype TeamMember = TeamMember(
    id: string,
    name: string,
    role: string,
    email: string,
    avatar: string,
    activeTasksCount: nat)

  datatype ActivityType = StatusChange | ContentAdded | AIAnalysis | CreatorAdded

  datatype ActivityEntry = ActivityEntry(
    id: string,
    kind: ActivityType,
    contentId: Option<string>,
    contentTitle: Option<string>,
    userId: string,
    userName: string,
    description: string,
    timestamp: int)

  datatype AIContentAnalysis = AIContentAnalysis(
    summary: string,
    titleVariations: seq<string>,
    topics: seq<string>)

  datatype AICreatorClassification = AICreatorClassification(
    niche: string,
    platformFocus: string,
    stage: string,
    recommendations: seq<string>)

  /** The reach score that ranks high performers and sums a member's
      engagement: views plus ten per like. */
  function ReachScore(m: Metrics): nat
  {
    m.views + m.likes * 10
  }
}
