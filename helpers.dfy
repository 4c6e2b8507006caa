/** The shared helpers of the dashboard: bottleneck predicates, the engagement
    score, the relative-date label, the list filter of the content database and
    the text of the CSV export. */
module Helpers {
  import opened Base
  import opened Text
  import opened Types

  // ---------------------------------------------------------------------------
  // Bottlenecks

  /** More than three days in a stage that is not the last one. */
  predicate IsStuck(item: ContentItem)
  {
    item.daysInStage > 3 && item.status != Published
  }

  /** More than five days in a stage that is not the last one. */
  predicate IsVeryStuck(item: ContentItem)
  {
    item.daysInStage > 5 && item.status != Published
  }

  /** A very stuck item is stuck, and a published one is neither. */
  lemma StuckLevels(item: ContentItem)
    ensures IsVeryStuck(item) ==> IsStuck(item)
    ensures item.status == Published ==> !IsStuck(item) && !IsVeryStuck(item)
    ensures IsStuck(item) && !IsVeryStuck(item) <==> item.status != Published && 4 <= item.daysInStage <= 5
  {
  }

  const RedBorder := "border-red-500"
  const YellowBorder := "border-yellow-500"
  const NoBorder := "border-transparent"

  /** `getStuckBorderColor`: the three border classes partition the items by
      how long they have been waiting. */
  function StuckBorderColor(item: ContentItem): (r: string)
    ensures r == RedBorder <==> IsVeryStuck(item)
    ensures r == YellowBorder <==> IsStuck(item) && !IsVeryStuck(item)
    ensures r == NoBorder <==> !IsStuck(item)
  {
    if IsVeryStuck(item) then RedBorder
    else if IsStuck(item) then YellowBorder
    else NoBorder
  }

  // ---------------------------------------------------------------------------
  // Engagement

  /** `calculateEngagement`: each view counts one, each like ten, each comment
      twenty and each share thirty. */
  function CalculateEngagement(m: Metrics): (r: nat)
    ensures r >= ReachScore(m) >= m.views
    ensures r - ReachScore(m) == 20 * m.comments + 30 * m.shares
  {
    m.views + m.likes * 10 + m.comments * 20 + m.shares * 30
  }

  /** Engagement grows with every count: adding a like, comment or share never
      lowers the score. */
  lemma EngagementMonotone(a: Metrics, b: Metrics)
    requires a.views <= b.views && a.likes <= b.likes && a.comments <= b.comments && a.shares <= b.shares
    ensures CalculateEngagement(a) <= CalculateEngagement(b)
    ensures ReachScore(a) <= ReachScore(b)
  {
  }

  /** `getEngagementRate` on the zero-views branch: "0%". Any other input gets
      a floating-point rate, given here as `None`. */
  function EngagementRateLabel(m: Metrics): (r: Option<string>)
    ensures r == Some("0%") <==> m.views == 0
    ensures r.None? <==> m.views > 0
  {
    if m.views == 0 then Some("0%") else None
  }

  // ---------------------------------------------------------------------------
  // Relative dates

  const MinuteMs: nat := 1000 * 60
  const HourMs: nat := 1000 * 60 * 60
  const DayMs: nat := 1000 * 60 * 60 * 24

  /** "`n` `unit`(s) ago", with the plural only above one. */
  function AgoPhrase(n: nat, unit: string): string
  {
    NatToString(n) + " " + unit + (if n > 1 then "s" else "") + " ago"
  }

  /** `formatRelativeDate` for the instant `date`, with the current time given
      as `now`; both are milliseconds. JavaScript's `Math.floor` of a quotient by
      a positive divisor agrees with `/` here. */
  function FormatRelativeDate(now: int, date: int): string
  {
    var diffMs := now - date;
    var diffDays := diffMs / DayMs;
    var diffHours := diffMs / HourMs;
    var diffMinutes := diffMs / MinuteMs;
    if diffDays > 0 then AgoPhrase(diffDays, "day")
    else if diffHours > 0 then AgoPhrase(diffHours, "hour")
    else if diffMinutes > 0 then AgoPhrase(diffMinutes, "min")
    else "Just now"
  }

  /** The unit follows from the elapsed time alone: a day or more gives days,
      an hour up to a day gives hours, a minute up to an hour gives minutes, and
      anything shorter, including a date in the future, is "Just now". */
  lemma RelativeDateUnits(now: int, date: int)
    ensures var d := now - date;
      && (d >= DayMs ==> FormatRelativeDate(now, date) == AgoPhrase(d / DayMs, "day"))
      && (HourMs <= d < DayMs ==> FormatRelativeDate(now, date) == AgoPhrase(d / HourMs, "hour"))
      && (MinuteMs <= d < HourMs ==> FormatRelativeDate(now, date) == AgoPhrase(d / MinuteMs, "min"))
      && (d < MinuteMs ==> FormatRelativeDate(now, date) == "Just now")
  {
    var d := now - date;
    if d < DayMs {
      assert d / DayMs <= 0;
    }
    if d < HourMs {
      assert d / HourMs <= 0;
    }
    if d < MinuteMs {
      assert d / MinuteMs <= 0;
    }
  }

  /** The count shown is the number of whole units elapsed: it is at least one
      and the next unit boundary has not been reached. */
  lemma RelativeDateWhole(d: nat, unitMs: nat)
    requires unitMs > 0 && d >= unitMs
    ensures 1 <= d / unitMs && (d / unitMs) * unitMs <= d < (d / unitMs + 1) * unitMs
  {
  }

  lemma RelativeDateExamples(now: int)
    ensures FormatRelativeDate(now, now - DayMs) == "1 day ago"
    ensures FormatRelativeDate(now, now - 3 * DayMs - 5) == "3 days ago"
    ensures FormatRelativeDate(now, now - 90 * MinuteMs) == "1 hour ago"
    ensures FormatRelativeDate(now, now - 59 * 1000) == "Just now"
    ensures FormatRelativeDate(now, now + DayMs) == "Just now"
  {
    RelativeDateUnits(now, now - DayMs);
    RelativeDateUnits(now, now - 3 * DayMs - 5);
    RelativeDateUnits(now, now - 90 * MinuteMs);
    RelativeDateUnits(now, now - 59 * 1000);
    RelativeDateUnits(now, now + DayMs);
  }

  // ---------------------------------------------------------------------------
  // Content filter

  /** The search test: an empty search passes everything, otherwise the title
      or the description must contain it, ignoring case. */
  predicate SearchMatches(item: ContentItem, search: string)
  {
    search == ""
    || Contains(Lower(item.title), Lower(search))
    || Contains(Lower(item.description), Lower(search))
  }

  /** All three tests; a filter of `None` stands for `'all'`. */
  predicate PassesFilters(item: ContentItem, search: string, platformFilter: Option<Platform>, statusFilter: Option<ContentStatus>)
  {
    SearchMatches(item, search)
    && (platformFilter.None? || item.platform == platformFilter.value)
    && (statusFilter.None? || item.status == statusFilter.value)
  }

  /** `filterContent`. */
  function FilterContent(items: seq<ContentItem>, search: string, platformFilter: Option<Platform>, statusFilter: Option<ContentStatus>): seq<ContentItem>
  {
    Filter(items, item => PassesFilters(item, search, platformFilter, statusFilter))
  }

  /** The filter keeps exactly the items passing all three tests, each as
      often as it occurs, in their original order. */
  lemma FilterContentSpec(items: seq<ContentItem>, search: string, platformFilter: Option<Platform>, statusFilter: Option<ContentStatus>)
    ensures var r := FilterContent(items, search, platformFilter, statusFilter);
      && IsSubsequence(r, items)
      && |r| == Count(items, item => PassesFilters(item, search, platformFilter, statusFilter)) <= |items|
      && forall x :: x in r <==> x in items && PassesFilters(x, search, platformFilter, statusFilter)
  {
    var p := item => PassesFilters(item, search, platformFilter, statusFilter);
    FilterIsSubsequence(items, p);
    FilterLength(items, p);
    forall x ensures x in Filter(items, p) <==> x in items && p(x) {
      FilterMembers(items, p, x);
    }
  }

  /** With an empty search and both filters on 'all', nothing is dropped. */
  lemma FilterContentAll(items: seq<ContentItem>)
    ensures FilterContent(items, "", None, None) == items
  {
    FilterAll(items, item => PassesFilters(item, "", None, None));
  }

  /** The special case for the empty search changes nothing: every text
      contains the empty string. */
  lemma EmptySearchRedundant(item: ContentItem)
    ensures SearchMatches(item, "") <==> Contains(Lower(item.title), Lower(""))
  {
    ContainsEmpty(Lower(item.title));
  }

  /** The search ignores ASCII case on both sides. */
  lemma SearchIgnoresCase(item: ContentItem, search: string)
    ensures SearchMatches(item, search) <== SearchMatches(item, Lower(search))
    ensures SearchMatches(item, Lower(search)) <== SearchMatches(item, search)
  {
    LowerIdempotent(search);
  }

  // ---------------------------------------------------------------------------
  // CSV export

  const CsvHeaders: seq<string> := ["Title", "Platform", "Status", "Assigned To", "Created", "Views", "Likes", "Comments", "Shares"]

  /** The nine fields of one item. The locale-formatted creation date is given
      by `shortDate`. */
  function CsvRow(item: ContentItem, shortDate: int -> string): (r: seq<string>)
    ensures |r| == |CsvHeaders|
  {
    [ item.title, PlatformName(item.platform), StatusName(item.status), item.assignedTo,
      shortDate(item.createdDate), NatToString(item.metrics.views), NatToString(item.metrics.likes),
      NatToString(item.metrics.comments), NatToString(item.metrics.shares) ]
  }

  /** One line per row: the cells joined by commas, without quoting. */
  function CsvLines(items: seq<ContentItem>, shortDate: int -> string): (r: seq<string>)
    ensures |r| == |items|
    ensures forall k :: 0 <= k < |items| ==> r[k] == Join(CsvRow(items[k], shortDate), ",")
  {
    if items == [] then []
    else [Join(CsvRow(items[0], shortDate), ",")] + CsvLines(items[1..], shortDate)
  }

  /** The exported text: the header line, then the item lines, joined by
      newlines. */
  function CsvText(items: seq<ContentItem>, shortDate: int -> string): string
  {
    Join([Join(CsvHeaders, ",")] + CsvLines(items, shortDate), "\n")
  }

  /** No cell of the row contains `c`. */
  predicate CellsAvoid(row: seq<string>, c: char)
  {
    forall i :: 0 <= i < |row| ==> c !in row[i]
  }

  lemma NamesAvoid(item: ContentItem, c: char)
    requires c == ',' || c == '\n'
    ensures c !in PlatformName(item.platform) && c !in StatusName(item.status)
  {
  }

  lemma {:induction false} JoinAvoids(parts: seq<string>, sep: string, c: char)
    requires CellsAvoid(parts, c) && c !in sep
    ensures c !in Join(parts, sep)
  {
    if |parts| > 1 {
      JoinAvoids(parts[1..], sep, c);
    }
  }

  /** The cells of an item that the item's own text fields do not control are
      free of `c`. */
  lemma RowAvoids(item: ContentItem, shortDate: int -> string, c: char)
    requires c == ',' || c == '\n'
    requires c !in item.title && c !in item.assignedTo && c !in shortDate(item.createdDate)
    ensures CellsAvoid(CsvRow(item, shortDate), c)
  {
    NamesAvoid(item, c);
  }

  /** The item fields that are free text hold neither a comma nor a line
      break. */
  predicate PlainFields(item: ContentItem, shortDate: int -> string)
  {
    && ',' !in item.title && ',' !in item.assignedTo && ',' !in shortDate(item.createdDate)
    && '\n' !in item.title && '\n' !in item.assignedTo && '\n' !in shortDate(item.createdDate)
  }

  lemma HeaderCellsPlain()
    ensures CellsAvoid(CsvHeaders, '\n') && CellsAvoid(CsvHeaders, ',')
  {
  }

  lemma HeaderLine()
    ensures '\n' !in Join(CsvHeaders, ",")
    ensures Split(Join(CsvHeaders, ","), ',') == CsvHeaders
  {
    HeaderCellsPlain();
    JoinAvoids(CsvHeaders, ",", '\n');
    SplitJoin(CsvHeaders, ',');
  }

  lemma ItemLine(item: ContentItem, shortDate: int -> string)
    requires PlainFields(item, shortDate)
    ensures '\n' !in Join(CsvRow(item, shortDate), ",")
    ensures Split(Join(CsvRow(item, shortDate), ","), ',') == CsvRow(item, shortDate)
  {
    RowAvoids(item, shortDate, '\n');
    JoinAvoids(CsvRow(item, shortDate), ",", '\n');
    RowAvoids(item, shortDate, ',');
    SplitJoin(CsvRow(item, shortDate), ',');
  }

  /** When no title, assignee or date text holds a comma or a line break, the
      export reads back: splitting at line breaks gives the header line and one
      line per item in order, and splitting a line at commas gives that item's
      nine cells. */
  lemma CsvReadsBack(items: seq<ContentItem>, shortDate: int -> string)
    requires forall k :: 0 <= k < |items| ==> PlainFields(items[k], shortDate)
    ensures var lines := Split(CsvText(items, shortDate), '\n');
      && |lines| == |items| + 1
      && Split(lines[0], ',') == CsvHeaders
      && forall k :: 0 <= k < |items| ==> Split(lines[k + 1], ',') == CsvRow(items[k], shortDate)
  {
    var body := CsvLines(items, shortDate);
    var all := [Join(CsvHeaders, ",")] + body;
    HeaderLine();
    forall k | 0 <= k < |items|
      ensures '\n' !in body[k] && Split(body[k], ',') == CsvRow(items[k], shortDate)
    {
      ItemLine(items[k], shortDate);
    }
    assert CellsAvoid(all, '\n') by {
      forall i | 0 <= i < |all| ensures '\n' !in all[i] {
        if i > 0 {
          assert all[i] == body[i - 1];
        }
      }
    }
    SplitJoin(all, '\n');
    assert forall k :: 0 <= k < |items| ==> all[k + 1] == body[k];
  }

  /** Cells are not quoted: a comma inside a title becomes a column break, so
      that line reads back as ten cells instead of nine. */
  lemma CsvCommaInTitle(item: ContentItem, shortDate: int -> string, a: string, b: string)
    requires item.title == a + "," + b && ',' !in a && ',' !in b
    requires ',' !in item.assignedTo && ',' !in shortDate(item.createdDate)
    ensures |Split(Join(CsvRow(item, shortDate), ","), ',')| == |CsvHeaders| + 1
  {
    var row := CsvRow(item, shortDate);
    var split := [a, b] + row[1..];
    NamesAvoid(item, ',');
    assert CellsAvoid(split, ',');
    assert Join(row, ",") == Join(split, ",") by {
      assert Join(row, ",") == row[0] + "," + Join(row[1..], ",");
      assert split[1..] == [b] + row[1..];
      assert Join(split[1..], ",") == b + "," + Join(row[1..], ",");
    }
    SplitJoin(split, ',');
  }
}
