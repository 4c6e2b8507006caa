/** The content database view: the filtered table of all content and the
    "analyse with AI" action that attaches a summary and title variations to
    one item. */
module ContentDatabase {
  import opened Base
  import opened Types
  import opened SampleData
  import opened AppState
  import opened MockAI

  const Unassigned := "Unassigned"

  /** The name shown for an assignee id: the roster member's name, or
      "Unassigned" when no member has the id or the name is empty. */
  function TeamMemberName(id: string): (r: string)
    ensures (forall i :: 0 <= i < |TeamMembers| ==> TeamMembers[i].id != id) ==> r == Unassigned
    ensures forall k :: 0 <= k < |TeamMembers| && TeamMembers[k].id == id ==> r == TeamMembers[k].name
  {
    RosterLookup();
    var member := GetTeamMember(id);
    if member.Some? && member.value.name != "" then member.value.name else Unassigned
  }

  /** An item with the analysis attached: only the two AI fields change. */
  function WithAnalysis(item: ContentItem, summary: string, titles: seq<string>): (r: ContentItem)
    ensures r.aiSummary == Some(summary) && r.aiTitles == Some(titles)
    ensures r.id == item.id && r.status == item.status && r.daysInStage == item.daysInStage
    ensures r.metrics == item.metrics && r.lastUpdated == item.lastUpdated && r.publishDate == item.publishDate
    ensures r.title == item.title && r.description == item.description && r.platform == item.platform
    ensures r.assignedTo == item.assignedTo && r.createdDate == item.createdDate
  {
    item.(aiSummary := Some(summary), aiTitles := Some(titles))
  }

  /** The content list with the analysis attached to the items with `id`. */
  function AttachAnalysis(items: seq<ContentItem>, id: string, summary: string, titles: seq<string>): seq<ContentItem>
  {
    UpdateById(items, id, (c: ContentItem) => WithAnalysis(c, summary, titles))
  }

  /** Attaching an analysis keeps the length, the order and every other item,
      sets the AI fields of the items with the id, and leaves their status,
      stage clock and metrics as they were. */
  lemma AttachAnalysisSpec(items: seq<ContentItem>, id: string, summary: string, titles: seq<string>)
    ensures |AttachAnalysis(items, id, summary, titles)| == |items|
    ensures forall i :: 0 <= i < |items| && items[i].id != id ==> AttachAnalysis(items, id, summary, titles)[i] == items[i]
    ensures forall i :: 0 <= i < |items| && items[i].id == id ==>
              var c := AttachAnalysis(items, id, summary, titles)[i];
              c.aiSummary == Some(summary) && c.aiTitles == Some(titles)
              && c.status == items[i].status && c.daysInStage == items[i].daysInStage
              && c.metrics == items[i].metrics
  {
  }

  /** Detaching the AI fields again gives back the original list when the
      items with the id had none. */
  lemma {:induction false} AttachAnalysisUndo(items: seq<ContentItem>, id: string, summary: string, titles: seq<string>)
    requires forall i :: 0 <= i < |items| && items[i].id == id ==> items[i].aiSummary.None? && items[i].aiTitles.None?
    ensures UpdateById(AttachAnalysis(items, id, summary, titles), id,
                       (c: ContentItem) => c.(aiSummary := None, aiTitles := None)) == items
  {
    var r := AttachAnalysis(items, id, summary, titles);
    var back := UpdateById(r, id, (c: ContentItem) => c.(aiSummary := None, aiTitles := None));
    forall i | 0 <= i < |items| ensures back[i] == items[i] {
      if items[i].id == id {
        assert r[i] == WithAnalysis(items[i], summary, titles);
      }
    }
  }

  class Database {
    const app: Store
    var selected: Option<ContentItem>
    var isAnalyzing: bool
    var showAIResults: bool

    constructor (app: Store)
      ensures this.app == app && selected == None && !isAnalyzing && !showAIResults
    {
      this.app := app;
      selected := None;
      isAnalyzing := false;
      showAIResults := false;
    }

    /** The "analyse" action on `item`. `pick` is the template index the
        engine would draw at random and `rejected` says the analysis threw.
        On success the result's summary and title variations go on the item
        with that id, in the list and in the selection, and the result panel
        is shown; its topics are dropped. On failure the list is left as it
        was. The busy flag is off again in both cases. */
    method HandleAnalyze(item: ContentItem, pick: nat, rejected: bool)
      requires pick < 3
      modifies this, app
      ensures !isAnalyzing
      ensures app.creators == old(app.creators)
      ensures rejected ==> app.content == old(app.content) && selected == Some(item) && !showAIResults
      ensures !rejected ==>
                var summary := SummaryTemplate(pick, PlatformName(item.platform),
                                               MainTopic(Topics(item.title + " " + item.description)));
                var titles := TitleVariations(item.title);
                && app.content == AttachAnalysis(old(app.content), item.id, summary, titles)
                && selected == Some(WithAnalysis(item, summary, titles))
                && showAIResults
    {
      selected := Some(item);
      isAnalyzing := true;
      showAIResults := false;
      if !rejected {
        var result, progress := AnalyzeContent(item.title, item.description, PlatformName(item.platform), pick);
        app.content := AttachAnalysis(app.content, item.id, result.summary, result.titleVariations);
        if selected.Some? {
          selected := Some(WithAnalysis(selected.value, result.summary, result.titleVariations));
        }
        showAIResults := true;
      }
      isAnalyzing := false;
    }
  }
}
