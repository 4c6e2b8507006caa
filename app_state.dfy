/** The state the application shell shares with every view through its
    context: the content list and the creator list. Views replace either list
    wholesale, so each is a field that the component methods reassign. */
module AppState {
  import opened Types

  class Store {
    var content: seq<ContentItem>
    var creators: seq<CreatorProfile>

    /** The shell starts from the seed lists. */
    constructor (initialContent: seq<ContentItem>, initialCreators: seq<CreatorProfile>)
      ensures content == initialContent && creators == initialCreators
    {
      content := initialContent;
      creators := initialCreators;
    }
  }

  /** The update every view applies to the content list: a copy in which
      each item with the given id is replaced by `f` of it. */
  function UpdateById(items: seq<ContentItem>, id: string, f: ContentItem -> ContentItem): (r: seq<ContentItem>)
    ensures |r| == |items|
    ensures forall i :: 0 <= i < |items| && items[i].id != id ==> r[i] == items[i]
    ensures forall i :: 0 <= i < |items| && items[i].id == id ==> r[i] == f(items[i])
  {
    seq(|items|, i requires 0 <= i < |items| => if items[i].id == id then f(items[i]) else items[i])
  }
}
