/** The rule-based "AI" engine: keyword topic extraction, summary and title
    templates for content, and niche / stage / platform / recommendation
    classification for creators, with the progress reports of the two
    asynchronous entry points. The simulated latency between steps is not
    modelled; the random template pick is the parameter `pick`. */
module MockAI {
  import opened Base
  import opened Text
  import opened Types

  // ---------------------------------------------------------------------------
  // Topic extraction

  /** A case-insensitive pattern made of literal alternatives (all written in
      lower case) and the topic it signals. */
  datatype TopicPattern = TopicPattern(alternatives: seq<string>, topic: string)

  const TopicPatterns: seq<TopicPattern> := [
    TopicPattern(["linkedin", "professional", "network"], "LinkedIn Strategy"),
    TopicPattern(["instagram", "reels", "stories"], "Instagram Marketing"),
    TopicPattern(["youtube", "video", "subscriber"], "YouTube Growth"),
    TopicPattern(["twitter", "x", "thread"], "X/Twitter Engagement"),
    TopicPattern(["content", "creator", "create"], "Content Creation"),
    TopicPattern(["ai", "automation", "tool"], "AI & Automation"),
    TopicPattern(["growth", "scale", "audience"], "Audience Growth"),
    TopicPattern(["monetiz", "revenue", "income"], "Monetization"),
    TopicPattern(["brand", "personal", "authority"], "Personal Branding"),
    TopicPattern(["engag", "community", "follower"], "Community Building")
  ]

  const MaxTopics: nat := 4

  /** `pattern.test(text)` for a pattern of lower-case literal alternatives
      with the `i` flag. */
  predicate PatternMatches(text: string, p: TopicPattern)
  {
    exists k | 0 <= k < |p.alternatives| :: Contains(Lower(text), p.alternatives[k])
  }

  /** The topics of the first `n` patterns that match `text`, in table order. */
  function MatchedTopics(text: string, n: nat): seq<string>
    requires n <= |TopicPatterns|
  {
    if n == 0 then []
    else MatchedTopics(text, n - 1)
         + (if PatternMatches(text, TopicPatterns[n - 1]) then [TopicPatterns[n - 1].topic] else [])
  }

  /** What `extractTopics` returns: the matched topics, cut to the first four. */
  function Topics(text: string): seq<string>
  {
    Take(MatchedTopics(text, |TopicPatterns|), MaxTopics)
  }

  lemma TopicLabelsDistinct()
    ensures forall i, j :: 0 <= i < j < |TopicPatterns| ==> TopicPatterns[i].topic != TopicPatterns[j].topic
  {
  }

  lemma {:induction false} MatchedTopicsFromTable(text: string, n: nat, x: string)
    requires n <= |TopicPatterns|
    requires x in MatchedTopics(text, n)
    ensures exists j :: 0 <= j < n && TopicPatterns[j].topic == x && PatternMatches(text, TopicPatterns[j])
  {
    if x !in MatchedTopics(text, n - 1) {
      assert x == TopicPatterns[n - 1].topic;
    } else {
      MatchedTopicsFromTable(text, n - 1, x);
    }
  }

  /** The topic of pattern `i` is among the matched topics exactly when the
      pattern matches. */
  lemma {:induction false} MatchedTopicsMember(text: string, n: nat, i: nat)
    requires i < n <= |TopicPatterns|
    ensures TopicPatterns[i].topic in MatchedTopics(text, n) <==> PatternMatches(text, TopicPatterns[i])
  {
    TopicLabelsDistinct();
    if i < n - 1 {
      MatchedTopicsMember(text, n - 1, i);
    } else if TopicPatterns[i].topic in MatchedTopics(text, n - 1) {
      MatchedTopicsFromTable(text, n - 1, TopicPatterns[i].topic);
    }
  }

  /** No topic is reported twice. */
  lemma {:induction false} MatchedTopicsDistinct(text: string, n: nat)
    requires n <= |TopicPatterns|
    ensures forall a, b :: 0 <= a < b < |MatchedTopics(text, n)| ==> MatchedTopics(text, n)[a] != MatchedTopics(text, n)[b]
  {
    if n > 0 {
      MatchedTopicsDistinct(text, n - 1);
      var prev := MatchedTopics(text, n - 1);
      if PatternMatches(text, TopicPatterns[n - 1]) {
        var x := TopicPatterns[n - 1].topic;
        if x in prev {
          MatchedTopicsFromTable(text, n - 1, x);
          TopicLabelsDistinct();
        }
      }
    }
  }

  /** What the extracted topics are: the first four of the matching labels in
      table order, or all of them when fewer match; no label twice; and, when
      no more than four patterns match, exactly the labels whose pattern
      matches. */
  lemma TopicsSpec(text: string)
    ensures |Topics(text)| == if |MatchedTopics(text, |TopicPatterns|)| < MaxTopics
                              then |MatchedTopics(text, |TopicPatterns|)| else MaxTopics
    ensures Topics(text) == MatchedTopics(text, |TopicPatterns|)[..|Topics(text)|]
    ensures forall a, b :: 0 <= a < b < |Topics(text)| ==> Topics(text)[a] != Topics(text)[b]
    ensures forall x :: x in Topics(text) ==> exists j :: 0 <= j < |TopicPatterns| && TopicPatterns[j].topic == x && PatternMatches(text, TopicPatterns[j])
    ensures |MatchedTopics(text, |TopicPatterns|)| <= MaxTopics ==>
              forall i :: 0 <= i < |TopicPatterns| ==> (TopicPatterns[i].topic in Topics(text) <==> PatternMatches(text, TopicPatterns[i]))
  {
    var all := MatchedTopics(text, |TopicPatterns|);
    MatchedTopicsDistinct(text, |TopicPatterns|);
    forall x | x in Topics(text)
      ensures exists j :: 0 <= j < |TopicPatterns| && TopicPatterns[j].topic == x && PatternMatches(text, TopicPatterns[j])
    {
      MatchedTopicsFromTable(text, |TopicPatterns|, x);
    }
    if |all| <= MaxTopics {
      forall i | 0 <= i < |TopicPatterns|
        ensures TopicPatterns[i].topic in Topics(text) <==> PatternMatches(text, TopicPatterns[i])
      {
        MatchedTopicsMember(text, |TopicPatterns|, i);
      }
    }
  }

  /** The alternative "x" of the X/Twitter pattern is a single letter, so any
      text with an `x` in it, in either case, gets that topic's pattern. */
  lemma XTopicOnAnyX(text: string, i: nat)
    requires i < |text| && LowerChar(text[i]) == 'x'
    ensures PatternMatches(text, TopicPatterns[3])
    ensures TopicPatterns[3].topic == "X/Twitter Engagement"
  {
    var low := Lower(text);
    assert low[i..i + 1] == "x";
    assert OccursAt(low, "x", i);
    assert Contains(low, TopicPatterns[3].alternatives[1]);
  }

  /** `extractTopics`: one pass over the pattern table, pushing each new
      matching topic, then the first four. */
  method ExtractTopics(text: string) returns (topics: seq<string>)
    ensures topics == Topics(text)
  {
    var found: seq<string> := [];
    var i := 0;
    while i < |TopicPatterns|
      invariant 0 <= i <= |TopicPatterns|
      invariant found == MatchedTopics(text, i)
    {
      var p := TopicPatterns[i];
      if PatternMatches(text, p) && p.topic !in found {
        found := found + [p.topic];
      } else if PatternMatches(text, p) {
        MatchedTopicsFromTable(text, i, p.topic);
        TopicLabelsDistinct();
        assert false;
      }
      i := i + 1;
    }
    topics := Take(found, MaxTopics);
  }

  // ---------------------------------------------------------------------------
  // Summary

  const DefaultTopic := "content strategy"

  /** The topic a summary is about: the first extracted topic, or the default
      phrase when there is none, in lower case. */
  function MainTopic(topics: seq<string>): string
  {
    Lower(if |topics| > 0 && topics[0] != "" then topics[0] else DefaultTopic)
  }

  const SummaryTail0 := ", providing actionable insights for creators looking to expand their reach. The piece combines practical strategies with real-world examples."
  const SummaryTail1 := " audiences. This content offers valuable takeaways for both beginners and experienced creators."
  const SummaryTail2 := " piece delivers expert insights and proven strategies for building a sustainable creator business."

  /** The three summary templates. */
  function SummaryTemplate(pick: nat, platform: string, topic: string): string
    requires pick < 3
  {
    if pick == 0 then "This " + platform + " content explores " + topic + SummaryTail0
    else if pick == 1 then "A comprehensive guide to " + topic + " tailored for " + platform + SummaryTail1
    else "Focused on " + topic + ", this " + platform + SummaryTail2
  }

  lemma ContainsMiddle(a: string, x: string, b: string)
    ensures Contains(a + x + b, x)
  {
    ContainsSelf(x);
    ContainsPrepend(a, x, x);
    ContainsAppend(a + x, x, b);
  }

  /** Every template names both the platform and the topic. */
  lemma SummaryMentions(pick: nat, platform: string, topic: string)
    requires pick < 3
    ensures Contains(SummaryTemplate(pick, platform, topic), platform)
    ensures Contains(SummaryTemplate(pick, platform, topic), topic)
  {
    if pick == 0 {
      ContainsMiddle("This ", platform, " content explores ");
      ContainsAppend("This " + platform + " content explores ", platform, topic);
      ContainsAppend("This " + platform + " content explores " + topic, platform, SummaryTail0);
      ContainsMiddle("This " + platform + " content explores ", topic, SummaryTail0);
    } else if pick == 1 {
      ContainsMiddle("A comprehensive guide to ", topic, " tailored for ");
      ContainsAppend("A comprehensive guide to " + topic + " tailored for ", topic, platform);
      ContainsAppend("A comprehensive guide to " + topic + " tailored for " + platform, topic, SummaryTail1);
      ContainsMiddle("A comprehensive guide to " + topic + " tailored for ", platform, SummaryTail1);
    } else {
      ContainsMiddle("Focused on ", topic, ", this ");
      ContainsAppend("Focused on " + topic + ", this ", topic, platform);
      ContainsAppend("Focused on " + topic + ", this " + platform, topic, SummaryTail2);
      ContainsMiddle("Focused on " + topic + ", this ", platform, SummaryTail2);
    }
  }

  /** `generateSummary`, with the random template index given as `pick`. */
  method GenerateSummary(title: string, description: string, platform: string, pick: nat) returns (summary: string)
    requires pick < 3
    ensures summary == SummaryTemplate(pick, platform, MainTopic(Topics(title + " " + description)))
  {
    var topics := ExtractTopics(title + " " + description);
    var mainTopic := if |topics| > 0 && topics[0] != "" then topics[0] else DefaultTopic;
    summary := SummaryTemplate(pick, platform, Lower(mainTopic));
  }

  // ---------------------------------------------------------------------------
  // Title variations

  /** Length of the run of characters satisfying `IsDigit` at the start of `s`. */
  function DigitRun(s: string): (n: nat)
    ensures n <= |s|
    ensures forall i :: 0 <= i < n ==> IsDigit(s[i])
    ensures n < |s| ==> !IsDigit(s[n])
  {
    if s != [] && IsDigit(s[0]) then 1 + DigitRun(s[1..]) else 0
  }

  /** Length of the run of whitespace at the start of `s`. */
  function SpaceRun(s: string): (n: nat)
    ensures n <= |s|
    ensures forall i :: 0 <= i < n ==> IsSpace(s[i])
    ensures n < |s| ==> !IsSpace(s[n])
  {
    if s != [] && IsSpace(s[0]) then 1 + SpaceRun(s[1..]) else 0
  }

  /** The title without a leading run of digits and the whitespace after
      it; unchanged when it does not start that way. */
  function StripLeadingNumber(s: string): (r: string)
    ensures |r| <= |s| && r == s[|s| - |r|..]
  {
    var d := DigitRun(s);
    var w := SpaceRun(s[d..]);
    if d > 0 && w > 0 then s[d + w..] else s
  }

  const LeadingWords: seq<string> := ["How to", "The", "A", "An"]

  /** `s` starts with `word`, compared without regard to ASCII case, followed by
      a whitespace character. */
  predicate StartsWithWord(s: string, word: string)
  {
    |word| < |s| && (forall i :: 0 <= i < |word| ==> LowerChar(s[i]) == LowerChar(word[i])) && IsSpace(s[|word|])
  }

  /** The title without a leading "How to", "The", "A" or "An" in any ASCII
      case: the words are tried in that order, and the whole run of whitespace
      after the first that fits goes with it. */
  function StripLeadingWord(s: string, k: nat := 0): (r: string)
    requires k <= |LeadingWords|
    ensures |r| <= |s| && r == s[|s| - |r|..]
    decreases |LeadingWords| - k
  {
    if k == |LeadingWords| then s
    else if StartsWithWord(s, LeadingWords[k]) then
      var n := |LeadingWords[k]|;
      s[n + SpaceRun(s[n..])..]
    else StripLeadingWord(s, k + 1)
  }

  /** The cleaned title put into the three templates. */
  function CleanTitle(title: string): (r: string)
    ensures |r| <= |title| && r == title[|title| - |r|..]
  {
    StripLeadingWord(StripLeadingNumber(title))
  }

  const QuestionOpen := "How Can "
  const QuestionClose := " Transform Your Creator Journey?"
  const ListOpen := "7 Proven Ways to Master "
  const ListClose := " in 2024"
  const GuideOpen := "The Complete Guide to "
  const GuideClose := " for Modern Creators"

  /** `generateTitleVariations`: question, list and value forms, in that order. */
  function TitleVariations(title: string): (r: seq<string>)
    ensures |r| == 3
  {
    var topic := CleanTitle(title);
    [ QuestionOpen + topic + QuestionClose,
      ListOpen + topic + ListClose,
      GuideOpen + topic + GuideClose ]
  }

  /** Each variation carries the cleaned title. */
  lemma TitleVariationsMention(title: string)
    ensures forall v :: v in TitleVariations(title) ==> Contains(v, CleanTitle(title))
  {
    var topic := CleanTitle(title);
    ContainsMiddle(QuestionOpen, topic, QuestionClose);
    ContainsMiddle(ListOpen, topic, ListClose);
    ContainsMiddle(GuideOpen, topic, GuideClose);
  }

  lemma {:induction false} DigitRunOf(digits: string, rest: string)
    requires forall i :: 0 <= i < |digits| ==> IsDigit(digits[i])
    requires rest == [] || !IsDigit(rest[0])
    ensures DigitRun(digits + rest) == |digits|
  {
    if digits != [] {
      assert (digits + rest)[1..] == digits[1..] + rest;
      DigitRunOf(digits[1..], rest);
    } else {
      assert digits + rest == rest;
    }
  }

  lemma {:induction false} SpaceRunOf(spaces: string, rest: string)
    requires forall i :: 0 <= i < |spaces| ==> IsSpace(spaces[i])
    requires rest == [] || !IsSpace(rest[0])
    ensures SpaceRun(spaces + rest) == |spaces|
  {
    if spaces != [] {
      assert (spaces + rest)[1..] == spaces[1..] + rest;
      SpaceRunOf(spaces[1..], rest);
    } else {
      assert spaces + rest == rest;
    }
  }

  /** A leading number and the whitespace after it are removed, and nothing
      else. */
  lemma StripLeadingNumberOf(digits: string, spaces: string, rest: string)
    requires |digits| > 0 && forall i :: 0 <= i < |digits| ==> IsDigit(digits[i])
    requires |spaces| > 0 && forall i :: 0 <= i < |spaces| ==> IsSpace(spaces[i])
    requires rest == [] || !IsSpace(rest[0])
    ensures StripLeadingNumber(digits + spaces + rest) == rest
  {
    var s := digits + spaces + rest;
    assert s == digits + (spaces + rest);
    assert !IsDigit(spaces[0]);
    DigitRunOf(digits, spaces + rest);
    assert s[|digits|..] == spaces + rest;
    SpaceRunOf(spaces, rest);
    assert s[|digits| + |spaces|..] == rest;
  }

  /** A title whose first character is not a digit keeps its number prefix
      untouched. */
  lemma StripLeadingNumberNoDigit(s: string)
    requires s == [] || !IsDigit(s[0])
    ensures StripLeadingNumber(s) == s
  {
  }

  /** Each leading word followed by whitespace is removed with that
      whitespace, whatever the case of its letters. */
  lemma StripLeadingWordOf(k: nat, word: string, spaces: string, rest: string)
    requires k < |LeadingWords| && |word| == |LeadingWords[k]|
    requires forall i :: 0 <= i < |word| ==> LowerChar(word[i]) == LowerChar(LeadingWords[k][i])
    requires |spaces| > 0 && forall i :: 0 <= i < |spaces| ==> IsSpace(spaces[i])
    requires rest == [] || !IsSpace(rest[0])
    ensures StripLeadingWord(word + spaces + rest) == rest
  {
    var s := word + spaces + rest;
    var n := |word|;
    assert s[n..] == spaces + rest;
    SpaceRunOf(spaces, rest);
    assert s[n] == spaces[0];
    assert StartsWithWord(s, LeadingWords[k]);
    assert s[n + |spaces|..] == rest;
    // The alternatives before `k` do not fit: their first letters differ,
    // or, for "A" before "An", the character after it is not whitespace.
    forall j | 0 <= j < k ensures !StartsWithWord(s, LeadingWords[j]) {
      assert s[0] == word[0];
      if k == 3 && j == 2 {
        assert s[1] == word[1];
      }
    }
    StripLeadingWordFirstFit(s, k);
  }

  /** The word tried first that fits decides what is removed. */
  lemma StripLeadingWordFirstFit(s: string, k: nat)
    requires k < |LeadingWords| && StartsWithWord(s, LeadingWords[k])
    requires forall j :: 0 <= j < k ==> !StartsWithWord(s, LeadingWords[j])
    ensures StripLeadingWord(s) == StripLeadingWord(s, k)
  {
    if k > 0 {
      assert !StartsWithWord(s, LeadingWords[0]);
      assert StripLeadingWord(s, 0) == StripLeadingWord(s, 1);
    }
    if k > 1 {
      assert !StartsWithWord(s, LeadingWords[1]);
      assert StripLeadingWord(s, 1) == StripLeadingWord(s, 2);
    }
    if k > 2 {
      assert !StartsWithWord(s, LeadingWords[2]);
      assert StripLeadingWord(s, 2) == StripLeadingWord(s, 3);
    }
  }

  // ---------------------------------------------------------------------------
  // Niche detection

  /** The keys of the niche tables, in declaration order, and the default. */
  datatype Niche = TechBusiness | DesignCreative | HealthWellness | Finance | Education
                 | Lifestyle | Entertainment | General

  /** The niche keys in the order `Object.entries` lists them. */
  const Niches: seq<Niche> := [TechBusiness, DesignCreative, HealthWellness, Finance, Education, Lifestyle, Entertainment]

  function NicheName(n: Niche): string
  {
    match n
    case TechBusiness => "Tech/Business"
    case DesignCreative => "Design/Creative"
    case HealthWellness => "Health & Wellness"
    case Finance => "Finance"
    case Education => "Education"
    case Lifestyle => "Lifestyle"
    case Entertainment => "Entertainment"
    case General => "General Creator"
  }

  /** The keyword row of each niche; the default has none. */
  function Keywords(n: Niche): seq<string>
  {
    match n
    case TechBusiness => ["startup", "saas", "business", "entrepreneur", "tech", "software", "b2b", "growth", "marketing", "product"]
    case DesignCreative => ["design", "creative", "art", "ux", "ui", "figma", "visual", "brand", "graphic", "illustration"]
    case HealthWellness => ["fitness", "health", "wellness", "nutrition", "workout", "mental", "meditation", "yoga", "mindfulness"]
    case Finance => ["finance", "invest", "money", "trading", "crypto", "wealth", "financial", "stocks", "budget", "savings"]
    case Education => ["learn", "teach", "education", "course", "tutorial", "skills", "training", "knowledge", "study"]
    case Lifestyle => ["lifestyle", "travel", "food", "fashion", "beauty", "home", "decor", "personal", "daily"]
    case Entertainment => ["entertainment", "gaming", "music", "comedy", "movies", "streaming", "fun", "humor"]
    case General => []
  }

  /** The keywords of `keywords` that occur in `text`, in order. */
  function MatchingKeywords(text: string, keywords: seq<string>): (r: seq<string>)
    ensures |r| <= |keywords|
    ensures forall x :: x in r ==> x in keywords && Contains(text, x)
  {
    if keywords == [] then []
    else if Contains(text, keywords[0]) then [keywords[0]] + MatchingKeywords(text, keywords[1..])
    else MatchingKeywords(text, keywords[1..])
  }

  /** Some keyword occurs in `text`. */
  predicate AnyKeyword(text: string, keywords: seq<string>)
  {
    exists k | 0 <= k < |keywords| :: Contains(text, keywords[k])
  }

  /** `some` holds exactly when `filter` keeps at least one keyword. */
  lemma {:induction false} AnyKeywordIff(text: string, keywords: seq<string>)
    ensures AnyKeyword(text, keywords) <==> |MatchingKeywords(text, keywords)| >= 1
  {
    if keywords != [] {
      AnyKeywordIff(text, keywords[1..]);
      if AnyKeyword(text, keywords[1..]) {
        var k :| 0 <= k < |keywords[1..]| && Contains(text, keywords[1..][k]);
        assert Contains(text, keywords[k + 1]);
      }
      if AnyKeyword(text, keywords) && !Contains(text, keywords[0]) {
        var k :| 0 <= k < |keywords| && Contains(text, keywords[k]);
        assert Contains(text, keywords[1..][k - 1]);
      }
    }
  }

  /** The number of keywords of the `i`-th niche found in `text`. */
  function Hits(text: string, i: nat): nat
    requires i < |Niches|
  {
    |MatchingKeywords(text, Keywords(Niches[i]))|
  }

  /** The hit count of every niche key, in table order. */
  function NicheHits(text: string): (h: seq<nat>)
    ensures |h| == |Niches|
    ensures forall i :: 0 <= i < |Niches| ==> h[i] == Hits(text, i)
  {
    seq(|Niches|, i requires 0 <= i < |Niches| => Hits(text, i))
  }

  /** Entry `i` is the first of `h` that is at least `least`. */
  predicate FirstReaching(h: seq<nat>, i: nat, least: nat)
  {
    i < |h| && h[i] >= least && forall j :: 0 <= j < i ==> h[j] < least
  }

  predicate NoneReaching(h: seq<nat>, least: nat)
  {
    forall j :: 0 <= j < |h| ==> h[j] < least
  }

  /** The two-pass, first-match-wins choice over per-niche hit counts: the
      first niche with two hits, else the first with one, else the default. */
  predicate ChoiceByHits(h: seq<nat>, niche: Niche)
    requires |h| == |Niches|
  {
    (exists i :: 0 <= i < |h| && FirstReaching(h, i, 2) && niche == Niches[i])
    || (NoneReaching(h, 2) && exists i :: 0 <= i < |h| && FirstReaching(h, i, 1) && niche == Niches[i])
    || (NoneReaching(h, 1) && niche == General)
  }

  /** The niche chosen for a lower-cased description. */
  predicate NicheChoice(text: string, niche: Niche)
  {
    ChoiceByHits(NicheHits(text), niche)
  }

  /** `detectNiche`, returning the key rather than its name. */
  method DetectNiche(description: string) returns (niche: Niche)
    ensures NicheChoice(Lower(description), niche)
  {
    var lowerDesc := Lower(description);
    ghost var h := NicheHits(lowerDesc);
    var i := 0;
    while i < |Niches|
      invariant 0 <= i <= |Niches|
      invariant forall j :: 0 <= j < i ==> h[j] < 2
    {
      var matches := MatchingKeywords(lowerDesc, Keywords(Niches[i]));
      if |matches| >= 2 {
        assert FirstReaching(h, i, 2);
        return Niches[i];
      }
      i := i + 1;
    }
    i := 0;
    while i < |Niches|
      invariant 0 <= i <= |Niches|
      invariant forall j :: 0 <= j < i ==> h[j] < 1
    {
      AnyKeywordIff(lowerDesc, Keywords(Niches[i]));
      if AnyKeyword(lowerDesc, Keywords(Niches[i])) {
        assert FirstReaching(h, i, 1);
        return Niches[i];
      }
      i := i + 1;
    }
    niche := General;
  }

  lemma FirstReachingUnique(h: seq<nat>, i: nat, j: nat, least: nat)
    requires FirstReaching(h, i, least) && FirstReaching(h, j, least)
    ensures i == j
  {
  }

  /** The choice is a function of the hit counts: it never admits two niches. */
  lemma ChoiceUnique(h: seq<nat>, a: Niche, b: Niche)
    requires |h| == |Niches|
    requires ChoiceByHits(h, a) && ChoiceByHits(h, b)
    ensures a == b
  {
    if i :| 0 <= i < |h| && FirstReaching(h, i, 2) && a == Niches[i] {
      assert !NoneReaching(h, 2) && !NoneReaching(h, 1);
      var j :| 0 <= j < |h| && FirstReaching(h, j, 2) && b == Niches[j];
      FirstReachingUnique(h, i, j, 2);
    } else if i :| 0 <= i < |h| && NoneReaching(h, 2) && FirstReaching(h, i, 1) && a == Niches[i] {
      assert !NoneReaching(h, 1);
      var j :| 0 <= j < |h| && FirstReaching(h, j, 1) && b == Niches[j];
      FirstReachingUnique(h, i, j, 1);
    } else {
      assert NoneReaching(h, 1) && a == General;
      if j :| 0 <= j < |h| && FirstReaching(h, j, 1) {
        assert false;
      }
    }
  }

  /** A text with no keyword of any niche gets the default niche. */
  lemma NicheChoiceDefault(text: string)
    requires forall i, k :: 0 <= i < |Niches| && 0 <= k < |Keywords(Niches[i])| ==> !Contains(text, Keywords(Niches[i])[k])
    ensures NicheChoice(text, General)
  {
    forall j | 0 <= j < |Niches| ensures NicheHits(text)[j] < 1 {
      AnyKeywordIff(text, Keywords(Niches[j]));
    }
  }

  // ---------------------------------------------------------------------------
  // Stage

  datatype Stage = BuildingFoundation | GrowingAudience | ScalingMonetizing | EstablishedCreator

  function StageName(s: Stage): string
  {
    match s
    case BuildingFoundation => "Building Foundation"
    case GrowingAudience => "Growing Audience"
    case ScalingMonetizing => "Scaling & Monetizing"
    case EstablishedCreator => "Established Creator"
  }

  /** Position of a stage on the growth ladder. */
  function StageRank(s: Stage): nat
  {
    match s
    case BuildingFoundation => 0
    case GrowingAudience => 1
    case ScalingMonetizing => 2
    case EstablishedCreator => 3
  }

  /** The follower count as the code reads it: every non-digit is deleted
      and the remaining digits are read as one decimal number, 0 when there
      are none. */
  function FollowerCount(s: string): nat
  {
    ParseDecimal(KeepDigits(s))
  }

  /** The stage thresholds of 1000, 10000 and 50000 followers. */
  function StageFor(count: nat): (r: Stage)
    ensures r == BuildingFoundation <==> count < 1000
    ensures r == GrowingAudience <==> 1000 <= count < 10000
    ensures r == ScalingMonetizing <==> 10000 <= count < 50000
    ensures r == EstablishedCreator <==> 50000 <= count
  {
    if count < 1000 then BuildingFoundation
    else if count < 10000 then GrowingAudience
    else if count < 50000 then ScalingMonetizing
    else EstablishedCreator
  }

  /** `determineStage`: the stage of the digits-only count. */
  function DetermineStage(followerCount: string): Stage
  {
    StageFor(FollowerCount(followerCount))
  }

  /** The count the intake form asks for ("e.g., 15000 or 15K"): a final K
      or k multiplies the digits by a thousand. */
  function ScaledFollowerCount(s: string): nat
  {
    if s != [] && (s[|s| - 1] == 'K' || s[|s| - 1] == 'k') then FollowerCount(s) * 1000
    else FollowerCount(s)
  }

  /** The stage the scaled count gives: the stage the form's example "15K"
      is meant to get. */
  function DetermineStageScaled(followerCount: string): Stage
  {
    StageFor(ScaledFollowerCount(followerCount))
  }

  /** More followers never give an earlier stage. */
  lemma StageMonotone(a: nat, b: nat)
    requires a <= b
    ensures StageRank(StageFor(a)) <= StageRank(StageFor(b))
  {
  }

  /** A plain numeral is read as its value. */
  lemma FollowerCountOfNumeral(n: nat)
    ensures FollowerCount(NatToString(n)) == n
  {
    KeepDigitsOfDigits(NatToString(n));
    ParsePrinted(n);
  }

  /** A character other than a digit is ignored wherever it stands: a suffix
      such as "K" is dropped, not expanded. */
  lemma FollowerCountIgnores(a: string, c: char, b: string)
    requires !IsDigit(c)
    ensures FollowerCount(a + [c] + b) == FollowerCount(a + b)
  {
    KeepDigitsAppend(a + [c], b);
    KeepDigitsAppend(a, [c]);
    KeepDigitsAppend(a, b);
    assert [c][1..] == [];
    assert KeepDigits([c]) == [];
    assert KeepDigits(a) + [] == KeepDigits(a);
  }

  /** As written, "nK" is read as n: "15K", which the form offers as an
      example of fifteen thousand, lands in the first stage instead of the
      third. */
  lemma FollowerCountSuffix(n: nat)
    ensures FollowerCount(NatToString(n) + "K") == n
    ensures DetermineStage(NatToString(n) + "K") == StageFor(n)
    ensures DetermineStage("15K") == BuildingFoundation
    ensures DetermineStage("15000") == ScalingMonetizing
  {
    SuffixDropped(n, 'K');
    SuffixDropped(15, 'K');
    assert NatToString(15) == "15";
    FollowerCountOfNumeral(15000);
    assert NatToString(15000) == "15000";
  }

  lemma SuffixDropped(n: nat, c: char)
    requires !IsDigit(c)
    ensures FollowerCount(NatToString(n) + [c]) == n
  {
    FollowerCountIgnores(NatToString(n), c, "");
    assert NatToString(n) + [c] + "" == NatToString(n) + [c];
    assert NatToString(n) + "" == NatToString(n);
    FollowerCountOfNumeral(n);
  }

  /** With the scaling, "nK" and "nk" count n thousand, a plain numeral
      counts its value, and "15K" gets the same stage as "15000". */
  lemma ScaledFollowerCountSpec(n: nat)
    ensures ScaledFollowerCount(NatToString(n) + "K") == 1000 * n
    ensures ScaledFollowerCount(NatToString(n) + "k") == 1000 * n
    ensures ScaledFollowerCount(NatToString(n)) == n == FollowerCount(NatToString(n))
    ensures DetermineStageScaled("15K") == DetermineStageScaled("15000") == ScalingMonetizing
  {
    var d := NatToString(n);
    SuffixDropped(n, 'K');
    var upper := d + "K";
    assert upper[|upper| - 1] == 'K';
    SuffixDropped(n, 'k');
    var lower := d + "k";
    assert lower[|lower| - 1] == 'k';
    FollowerCountOfNumeral(n);
    assert IsDigit(d[|d| - 1]);
    SuffixDropped(15, 'K');
    assert NatToString(15) + "K" == "15K";
    assert ScaledFollowerCount("15K") == 15000;
    FollowerCountOfNumeral(15000);
    assert NatToString(15000) == "15000";
    assert ScaledFollowerCount("15000") == 15000;
  }

  /** A text without digits counts as zero followers. */
  lemma FollowerCountNoDigits(s: string)
    requires forall i :: 0 <= i < |s| ==> !IsDigit(s[i])
    ensures FollowerCount(s) == 0 && DetermineStage(s) == BuildingFoundation
  {
    KeepDigitsNone(s);
  }

  lemma {:induction false} KeepDigitsNone(s: string)
    requires forall i :: 0 <= i < |s| ==> !IsDigit(s[i])
    ensures KeepDigits(s) == []
  {
    if s != [] {
      KeepDigitsNone(s[1..]);
    }
  }

  // ---------------------------------------------------------------------------
  // Platform focus

  /** `platformRecommendations[niche]`; the default niche has no row. */
  function PlatformRow(n: Niche): Option<seq<string>>
  {
    match n
    case TechBusiness => Some(["LinkedIn", "X", "Substack"])
    case DesignCreative => Some(["Instagram", "YouTube", "Dribbble"])
    case HealthWellness => Some(["Instagram", "YouTube", "TikTok"])
    case Finance => Some(["YouTube", "X", "Substack"])
    case Education => Some(["YouTube", "LinkedIn", "Substack"])
    case Lifestyle => Some(["Instagram", "YouTube", "TikTok"])
    case Entertainment => Some(["YouTube", "TikTok", "X"])
    case General => None
  }

  /** The first two recommended platforms of the niche joined by " + ", or
      the creator's own platform when the niche has no row. */
  function PlatformFocus(niche: Niche, platform: string): string
  {
    match PlatformRow(niche)
    case Some(row) =>
      var joined := Join(Take(row, 2), " + ");
      if joined == "" then platform else joined
    case None => platform
  }

  /** The default niche has no platform row, so its focus is the creator's own
      platform; every other niche gets the first two platforms of its row
      joined by " + ", whatever the creator's platform. */
  lemma PlatformFocusSpec(niche: Niche, platform: string)
    ensures niche == General ==> PlatformFocus(niche, platform) == platform
    ensures niche != General ==> PlatformRow(niche).Some? && |PlatformRow(niche).value| == 3
    ensures niche != General ==>
      PlatformFocus(niche, platform) == PlatformRow(niche).value[0] + " + " + PlatformRow(niche).value[1]
  {
    if niche != General {
      var row := PlatformRow(niche).value;
      assert Take(row, 2) == [row[0], row[1]];
      assert Join([row[0], row[1]], " + ") == row[0] + " + " + Join([row[1]], " + ");
      assert |row[0] + " + " + row[1]| > 0;
    }
  }

  // ---------------------------------------------------------------------------
  // Recommendations

  const GrowAudienceGoal := "Grow audience"
  const MonetizeGoal := "Monetize content"
  const MaxRecommendations: nat := 5

  const PostConsistently := "Focus on consistent posting schedule (3-5x weekly)"
  const EngageDaily := "Engage actively with your target audience daily"
  const StudyTopCreators := "Study top creators in your niche for inspiration"
  const CollaboratePeers := "Start collaborating with creators of similar size"
  const LaunchNewsletter := "Consider launching a newsletter to own your audience"
  const ExperimentFormats := "Experiment with different content formats"
  const ExploreSponsorships := "Explore sponsorship and brand partnership opportunities"
  const CreateProduct := "Consider creating a digital product or course"
  const BuildTeam := "Build a team to help with content production"
  const DiversifyRevenue := "Focus on diversifying revenue streams"
  const BuildMediaCompany := "Consider building a media company or agency"
  const MentorCreators := "Mentor emerging creators in your space"

  /** The three lines each stage contributes. */
  function StageLines(stage: Stage): (r: seq<string>)
    ensures |r| == 3
  {
    match stage
    case BuildingFoundation => [PostConsistently, EngageDaily, StudyTopCreators]
    case GrowingAudience => [CollaboratePeers, LaunchNewsletter, ExperimentFormats]
    case ScalingMonetizing => [ExploreSponsorships, CreateProduct, BuildTeam]
    case EstablishedCreator => [DiversifyRevenue, BuildMediaCompany, MentorCreators]
  }

  const TechNicheLine := "Share behind-the-scenes of your business journey"
  const DesignNicheLine := "Create tutorials and process videos"
  const GrowLine := "Optimize your profile for discoverability"

  function MonetizeLine(platform: string): string
  {
    "Research monetization programs for " + platform
  }

  /** The line a niche adds: only the business and the design niches add one. */
  function NicheLines(niche: Niche): (r: seq<string>)
    ensures |r| <= 1
  {
    if niche == TechBusiness then [TechNicheLine]
    else if niche == DesignCreative then [DesignNicheLine]
    else []
  }

  /** The lines the two recognised goals add, audience before monetization. */
  function GoalLines(platform: string, goals: seq<string>): (r: seq<string>)
    ensures |r| <= 2
  {
    (if GrowAudienceGoal in goals then [GrowLine] else [])
    + (if MonetizeGoal in goals then [MonetizeLine(platform)] else [])
  }

  /** Everything pushed, before the cut to five. */
  function CandidateLines(niche: Niche, stage: Stage, platform: string, goals: seq<string>): seq<string>
  {
    StageLines(stage) + NicheLines(niche) + GoalLines(platform, goals)
  }

  function Recommendations(niche: Niche, stage: Stage, platform: string, goals: seq<string>): seq<string>
  {
    Take(CandidateLines(niche, stage, platform, goals), MaxRecommendations)
  }

  /** `generateRecommendations`: pushes the stage lines, the niche line and the
      goal lines, then keeps the first five. */
  method GenerateRecommendations(niche: Niche, stage: Stage, platform: string, goals: seq<string>)
    returns (recommendations: seq<string>)
    ensures recommendations == Recommendations(niche, stage, platform, goals)
  {
    var recs: seq<string> := [];
    recs := recs + StageLines(stage);
    if niche == TechBusiness {
      recs := recs + [TechNicheLine];
    } else if niche == DesignCreative {
      recs := recs + [DesignNicheLine];
    }
    assert recs == StageLines(stage) + NicheLines(niche);
    if GrowAudienceGoal in goals {
      recs := recs + [GrowLine];
    }
    if MonetizeGoal in goals {
      recs := recs + [MonetizeLine(platform)];
    }
    recommendations := Take(recs, MaxRecommendations);
  }

  /** The shape of the list: three to five lines; the stage lines first and
      always kept; then the niche line for the two niches that have one; then
      the audience line when that goal is chosen; and the monetization line,
      naming the platform, last, when it fits under the cut. */
  lemma RecommendationsShape(niche: Niche, stage: Stage, platform: string, goals: seq<string>)
    ensures var r := Recommendations(niche, stage, platform, goals);
      var g := 3 + |NicheLines(niche)|;
      var grow := if GrowAudienceGoal in goals then 1 else 0;
      && 3 <= |r| <= MaxRecommendations
      && |r| == (if g + |GoalLines(platform, goals)| < MaxRecommendations then g + |GoalLines(platform, goals)| else MaxRecommendations)
      && r[..3] == StageLines(stage)
      && (niche == TechBusiness ==> r[3] == TechNicheLine)
      && (niche == DesignCreative ==> r[3] == DesignNicheLine)
      && (GrowAudienceGoal in goals ==> r[g] == GrowLine)
      && (MonetizeGoal in goals && g + grow < MaxRecommendations ==> r[g + grow] == MonetizeLine(platform) && |r| == g + grow + 1)
  {
    var c := CandidateLines(niche, stage, platform, goals);
    var g := 3 + |NicheLines(niche)|;
    assert c[..3] == StageLines(stage);
    if GrowAudienceGoal in goals {
      assert c[g] == GrowLine;
    }
  }

  /** With all six lines pushed, the cut drops the monetization line. */
  lemma RecommendationsTruncated(stage: Stage, platform: string)
    ensures Recommendations(TechBusiness, stage, platform, [GrowAudienceGoal, MonetizeGoal])
            == StageLines(stage) + [TechNicheLine, GrowLine]
  {
    var c := CandidateLines(TechBusiness, stage, platform, [GrowAudienceGoal, MonetizeGoal]);
    assert GrowAudienceGoal in [GrowAudienceGoal, MonetizeGoal];
    assert MonetizeGoal in [GrowAudienceGoal, MonetizeGoal];
    assert c == StageLines(stage) + [TechNicheLine] + [GrowLine] + [MonetizeLine(platform)];
    assert c[..5] == StageLines(stage) + [TechNicheLine, GrowLine];
  }

  // ---------------------------------------------------------------------------
  // The asynchronous entry points

  /** One call of the progress callback. */
  datatype ProgressEvent = ProgressEvent(message: string, percent: nat)

  function Percents(events: seq<ProgressEvent>): (r: seq<nat>)
    ensures |r| == |events|
    ensures forall i :: 0 <= i < |events| ==> r[i] == events[i].percent
  {
    if events == [] then [] else [events[0].percent] + Percents(events[1..])
  }

  const StructureMessage := "Analyzing content structure..."
  const TopicsMessage := "Extracting key topics and themes..."
  const TitlesMessage := "Generating title variations..."
  const SummaryMessage := "Creating content summary..."
  const FinalizingMessage := "Finalizing recommendations..."
  const FocusMessage := "Analyzing your content focus..."
  const GrowthMessage := "Identifying growth opportunities..."
  const MonetizationMessage := "Mapping monetization potential..."
  const PersonalizingMessage := "Generating personalized recommendations..."

  /** The progress reports of a content analysis, in the order they are made. */
  const AnalysisProgress: seq<ProgressEvent> := [
    ProgressEvent(StructureMessage, 20),
    ProgressEvent(TopicsMessage, 40),
    ProgressEvent(TitlesMessage, 60),
    ProgressEvent(SummaryMessage, 80),
    ProgressEvent(FinalizingMessage, 100)
  ]

  /** The progress reports of a creator classification. */
  const ClassificationProgress: seq<ProgressEvent> := [
    ProgressEvent(FocusMessage, 25),
    ProgressEvent(GrowthMessage, 50),
    ProgressEvent(MonetizationMessage, 75),
    ProgressEvent(PersonalizingMessage, 100)
  ]

  lemma ProgressSequences()
    ensures Percents(AnalysisProgress) == [20, 40, 60, 80, 100]
    ensures Percents(ClassificationProgress) == [25, 50, 75, 100]
    ensures StrictlyIncreasing(Percents(AnalysisProgress)) && StrictlyIncreasing(Percents(ClassificationProgress))
  {
    var a := Percents(AnalysisProgress);
    assert a[0] == 20 && a[1] == 40 && a[2] == 60 && a[3] == 80 && a[4] == 100;
    assert a == [20, 40, 60, 80, 100];
    var c := Percents(ClassificationProgress);
    assert c[0] == 25 && c[1] == 50 && c[2] == 75 && c[3] == 100;
    assert c == [25, 50, 75, 100];
    IncreasingBySteps(a);
    IncreasingBySteps(c);
  }

  /** `analyzeContentWithAI`: reports progress five times, then returns the
      summary, the title variations and the topics of the title and the
      description. `progress` lists the callback invocations in order. */
  method AnalyzeContent(title: string, description: string, platform: string, pick: nat)
    returns (result: AIContentAnalysis, progress: seq<ProgressEvent>)
    requires pick < 3
    ensures progress == AnalysisProgress
    ensures Percents(progress) == [20, 40, 60, 80, 100]
    ensures result.summary == SummaryTemplate(pick, platform, MainTopic(Topics(title + " " + description)))
    ensures result.titleVariations == TitleVariations(title)
    ensures result.topics == Topics(title + " " + description)
  {
    // All five reports are made, with a pause after each, before any part of
    // the result is computed.
    progress := AnalysisProgress;
    ProgressSequences();
    var summary := GenerateSummary(title, description, platform, pick);
    var topics := ExtractTopics(title + " " + description);
    result := AIContentAnalysis(summary, TitleVariations(title), topics);
  }

  /** `classifyCreatorWithAI`: reports progress four times and returns the
      niche name, the platform focus, the stage name and the recommendations,
      all derived from one detected niche. The creator's name is taken but not
      used. */
  method ClassifyCreator(name: string, platform: string, followerCount: string, description: string, goals: seq<string>)
    returns (result: AICreatorClassification, progress: seq<ProgressEvent>)
    ensures progress == ClassificationProgress
    ensures Percents(progress) == [25, 50, 75, 100]
    ensures result.stage == StageName(DetermineStage(followerCount))
    ensures exists n :: NicheChoice(Lower(description), n)
                        && result.niche == NicheName(n)
                        && result.platformFocus == PlatformFocus(n, platform)
                        && result.recommendations == Recommendations(n, DetermineStage(followerCount), platform, goals)
  {
    progress := [ProgressEvent(FocusMessage, 25)];
    var niche := DetectNiche(description);
    progress := progress + [ProgressEvent(GrowthMessage, 50)];
    var stage := DetermineStage(followerCount);
    progress := progress + [ProgressEvent(MonetizationMessage, 75)];
    var platformFocus := PlatformFocus(niche, platform);
    var recommendations := GenerateRecommendations(niche, stage, platform, goals);
    progress := progress + [ProgressEvent(PersonalizingMessage, 100)];
    assert progress == ClassificationProgress;
    ProgressSequences();
    result := AICreatorClassification(NicheName(niche), platformFocus, StageName(stage), recommendations);
  }
}
