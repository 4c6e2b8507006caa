/** The pipeline board: one column per stage, drag and drop between columns,
    and the quick-move menu on each card. Both ways of moving a card replace
    the content list with a copy in which the card has its new stage. */
module PipelineBoard {
  import opened Base
  import opened Types
  import opened Helpers
  import opened SampleData
  import opened AppState

  /** The change a stage transition makes to one card: the new status, the
      stage clock back at 0 and the update time. Every other field keeps its
      value, the publish date and the metrics included, also on a move into
      Published. */
  function Moved(item: ContentItem, status: ContentStatus, now: int): (r: ContentItem)
    ensures r.status == status && r.daysInStage == 0 && r.lastUpdated == now
    ensures r.id == item.id && r.title == item.title && r.description == item.description
    ensures r.platform == item.platform && r.assignedTo == item.assignedTo
    ensures r.createdDate == item.createdDate && r.publishDate == item.publishDate
    ensures r.metrics == item.metrics && r.aiSummary == item.aiSummary && r.aiTitles == item.aiTitles
    ensures !IsStuck(r)
  {
    item.(status := status, daysInStage := 0, lastUpdated := now)
  }

  /** The content list after the cards with `id` move to `status`. */
  function MoveById(items: seq<ContentItem>, id: string, status: ContentStatus, now: int): seq<ContentItem>
  {
    UpdateById(items, id, (c: ContentItem) => Moved(c, status, now))
  }

  /** A move keeps the length, the order and every id; the moved cards have
      the new status and a fresh stage clock and keep their publish date and
      metrics; every other card is untouched. */
  lemma MoveByIdSpec(items: seq<ContentItem>, id: string, status: ContentStatus, now: int)
    ensures |MoveById(items, id, status, now)| == |items|
    ensures forall i :: 0 <= i < |items| ==> MoveById(items, id, status, now)[i].id == items[i].id
    ensures forall i :: 0 <= i < |items| && items[i].id == id ==>
              var c := MoveById(items, id, status, now)[i];
              c.status == status && c.daysInStage == 0 && c.lastUpdated == now
              && c.publishDate == items[i].publishDate && c.metrics == items[i].metrics
    ensures forall i :: 0 <= i < |items| && items[i].id != id ==> MoveById(items, id, status, now)[i] == items[i]
  {
  }

  /** Moving the same card to the same stage twice is the same as once. */
  lemma MoveIdempotent(items: seq<ContentItem>, id: string, status: ContentStatus, now: int)
    ensures MoveById(MoveById(items, id, status, now), id, status, now) == MoveById(items, id, status, now)
  {
  }

  /** The tail of a moved list is the moved tail. */
  lemma MoveTail(items: seq<ContentItem>, id: string, status: ContentStatus, now: int)
    requires items != []
    ensures MoveById(items, id, status, now)[1..] == MoveById(items[1..], id, status, now)
    ensures MoveById(items, id, status, now)[0] == if items[0].id == id then Moved(items[0], status, now) else items[0]
  {
  }

  /** The target column gains exactly the moved cards that were elsewhere. */
  lemma {:induction false} MoveTargetColumn(items: seq<ContentItem>, id: string, status: ContentStatus, now: int)
    ensures |ContentByStatus(MoveById(items, id, status, now), status)|
            == |ContentByStatus(items, status)| + Count(items, (x: ContentItem) => x.id == id && x.status != status)
  {
    if items != [] {
      MoveTail(items, id, status, now);
      MoveTargetColumn(items[1..], id, status, now);
    }
  }

  /** Every other column loses exactly the moved cards it held. */
  lemma {:induction false} MoveOtherColumn(items: seq<ContentItem>, id: string, status: ContentStatus, now: int, column: ContentStatus)
    requires column != status
    ensures |ContentByStatus(MoveById(items, id, status, now), column)|
            + Count(items, (x: ContentItem) => x.id == id && x.status == column)
            == |ContentByStatus(items, column)|
  {
    if items != [] {
      MoveTail(items, id, status, now);
      MoveOtherColumn(items[1..], id, status, now, column);
    }
  }

  /** The five columns together hold every card exactly once. */
  lemma {:induction false} ColumnsCoverContent(items: seq<ContentItem>)
    ensures |ContentByStatus(items, Ideation)| + |ContentByStatus(items, Drafting)|
            + |ContentByStatus(items, Design)| + |ContentByStatus(items, Review)|
            + |ContentByStatus(items, Published)| == |items|
  {
    if items != [] {
      ColumnsCoverContent(items[1..]);
    }
  }

  /** The warning badge of a column: how many of its cards are stuck. */
  function StuckCount(items: seq<ContentItem>, status: ContentStatus): nat
  {
    |Filter(ContentByStatus(items, status), IsStuck)|
  }

  /** The badge counts the stuck cards of that stage, at most the whole
      column, and is 0 on the Published column. */
  lemma StuckCountSpec(items: seq<ContentItem>, status: ContentStatus)
    ensures StuckCount(items, status) <= |ContentByStatus(items, status)|
    ensures forall x :: x in Filter(ContentByStatus(items, status), IsStuck) <==> x in items && x.status == status && IsStuck(x)
    ensures status == Published ==> StuckCount(items, status) == 0
  {
    var column := ContentByStatus(items, status);
    ContentByStatusSpec(items, status);
    forall x ensures x in Filter(column, IsStuck) <==> x in column && IsStuck(x) {
      FilterMembers(column, IsStuck, x);
    }
    if status == Published {
      FilterNone(column, IsStuck);
    }
  }

  /** The targets the quick-move menu of a column offers: the other stages,
      in board order. */
  function QuickMoveOptions(column: ContentStatus): (r: seq<ContentStatus>)
    ensures |r| == 4
    ensures forall s :: s in r <==> s != column
    ensures IsSubsequence(r, AllStatuses)
  {
    var p := (s: ContentStatus) => s != column;
    FilterIsSubsequence(AllStatuses, p);
    OthersCount(column, p);
    forall s ensures s in Filter(AllStatuses, p) <==> s in AllStatuses && p(s) {
      FilterMembers(AllStatuses, p, s);
    }
    Filter(AllStatuses, p)
  }

  /** Leaving one stage out of the board's five keeps four. */
  lemma OthersCount(column: ContentStatus, p: ContentStatus -> bool)
    requires forall s :: p(s) <==> s != column
    ensures |Filter(AllStatuses, p)| == 4
  {
    var t := AllStatuses;
    assert t[1..] == [Drafting, Design, Review, Published] && t[2..] == [Design, Review, Published];
    assert t[3..] == [Review, Published] && t[4..] == [Published] && t[5..] == [];
  }

  class Board {
    const app: Store
    var dragged: Option<ContentItem>

    constructor (app: Store)
      ensures this.app == app && dragged == None
    {
      this.app := app;
      dragged := None;
    }

    /** Picking a card up remembers it as it was at that moment. */
    method DragStart(item: ContentItem)
      modifies this
      ensures dragged == Some(item)
    {
      dragged := Some(item);
    }

    /** Dropping onto a column moves the remembered card there unless its
        remembered status already is that column, and forgets the card in
        every case. */
    method Drop(newStatus: ContentStatus, now: int)
      modifies this, app
      ensures dragged == None
      ensures app.creators == old(app.creators)
      ensures old(dragged).Some? && old(dragged).value.status != newStatus ==>
                app.content == MoveById(old(app.content), old(dragged).value.id, newStatus, now)
      ensures old(dragged).None? || old(dragged).value.status == newStatus ==> app.content == old(app.content)
    {
      if dragged.Some? && dragged.value.status != newStatus {
        app.content := MoveById(app.content, dragged.value.id, newStatus, now);
      }
      dragged := None;
    }

    /** A move with no same-stage guard: moving a card to its own stage still
        resets its stage clock and update time. */
    method MoveToStatus(item: ContentItem, newStatus: ContentStatus, now: int)
      modifies app
      ensures app.content == MoveById(old(app.content), item.id, newStatus, now)
      ensures app.creators == old(app.creators)
    {
      app.content := MoveById(app.content, item.id, newStatus, now);
    }

    /** A choice in the quick-move menu of a card in `column`. The menu exists
        only outside the Published column and offers only the other stages;
        `None` is its "Move to..." placeholder, which does nothing. */
    method QuickMove(item: ContentItem, column: ContentStatus, selection: Option<ContentStatus>, now: int)
      requires column != Published
      requires selection.Some? ==> selection.value in QuickMoveOptions(column)
      modifies app
      ensures selection.None? ==> app.content == old(app.content)
      ensures selection.Some? ==> selection.value != column
                                  && app.content == MoveById(old(app.content), item.id, selection.value, now)
      ensures app.creators == old(app.creators)
    {
      if selection.Some? {
        MoveToStatus(item, selection.value, now);
      }
    }
  }
}
