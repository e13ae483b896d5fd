/** The workspace orchestrator (`src/pages/Workspace.tsx`): the in-memory lists of
    pages, collections and collection items, the current-view selector, and the
    handlers that create and update entities. The per-list transforms are functions;
    the component's state and the handlers that replace it are the class `Workspace`. */
module WorkspaceStore {
  import opened Wrappers
  import opened Types
  import Seqs

  datatype ContentKind = PageContent | CollectionContent

  /** What the main pane shows: a kind and a bare id. */
  datatype ContentView = ContentView(kind: ContentKind, id: string)

  /** What the main pane renders for a view. */
  datatype Pane = EditorPane(page: Page) | CollectionPane(collection: Collection, items: seq<CollectionItem>) | EmptyPane

  // ---------------------------------------------------------------- pages

  /** The page `handleCreatePage` builds from `pageData`, with the fresh id and
      the creation time passed in. */
  function NewPage(data: PagePatch, id: string, now: Time): (p: Page)
    ensures p.id == id && p.createdAt == now && p.updatedAt == now
    ensures p.title != ""
    ensures data.title.Some? && data.title.value != "" ==> p.title == data.title.value
    ensures data.title.None? || data.title == Some("") ==> p.title == "Untitled"
    ensures p.content == data.content.GetOr("")
    ensures p.pinned.Some? && (p.pinned.value <==> data.pinned == Some(true))
    ensures p.emoji.None? && p.parentId.None?
  {
    Page(
      id := id,
      title := if data.title.Some? && data.title.value != "" then data.title.value else "Untitled",
      emoji := None,
      content := if data.content.Some? && data.content.value != "" then data.content.value else "",
      createdAt := now,
      updatedAt := now,
      parentId := None,
      pinned := Some(data.pinned == Some(true)))
  }

  /** `{ ...page, ...updates, updatedAt: now }`. */
  function MergePage(p: Page, u: PagePatch, now: Time): (r: Page)
    ensures r.updatedAt == now
    ensures r.id == Override(u.id, p.id) && r.title == Override(u.title, p.title)
    ensures r.content == Override(u.content, p.content)
    ensures r.createdAt == Override(u.createdAt, p.createdAt)
    ensures r.emoji == OverrideOptional(u.emoji, p.emoji)
    ensures r.parentId == OverrideOptional(u.parentId, p.parentId)
    ensures r.pinned == OverrideOptional(u.pinned, p.pinned)
  {
    Page(
      id := Override(u.id, p.id),
      title := Override(u.title, p.title),
      emoji := OverrideOptional(u.emoji, p.emoji),
      content := Override(u.content, p.content),
      createdAt := Override(u.createdAt, p.createdAt),
      updatedAt := now,
      parentId := OverrideOptional(u.parentId, p.parentId),
      pinned := OverrideOptional(u.pinned, p.pinned))
  }

  /** Merging the same update twice, at the same time, is merging it once. */
  lemma MergePageIdempotent(p: Page, u: PagePatch, now: Time)
    ensures MergePage(MergePage(p, u, now), u, now) == MergePage(p, u, now)
  {
  }

  /** An empty update only refreshes the modification time. */
  lemma MergeEmptyPagePatch(p: Page, now: Time)
    ensures MergePage(p, EmptyPagePatch, now) == p.(updatedAt := now)
  {
  }

  /** The page list after `handleUpdatePage(id, updates)`. */
  function UpdatePages(pages: seq<Page>, id: string, u: PagePatch, now: Time): (r: seq<Page>)
    ensures |r| == |pages|
    ensures forall i :: 0 <= i < |pages| && pages[i].id == id ==> r[i] == MergePage(pages[i], u, now)
    ensures forall i :: 0 <= i < |pages| && pages[i].id != id ==> r[i] == pages[i]
    ensures (forall i :: 0 <= i < |pages| ==> pages[i].id != id) ==> r == pages
  {
    Seqs.MapWhere(pages, (p: Page) => p.id == id, (p: Page) => MergePage(p, u, now))
  }

  /** Setting only the title of an existing page: a read afterwards sees the new
      title, and the modification time moves forward when the clock does. */
  lemma UpdateTitleIsVisible(pages: seq<Page>, i: int, t: string, now: Time)
    requires 0 <= i < |pages| && pages[i].updatedAt < now
    ensures var r := UpdatePages(pages, pages[i].id, EmptyPagePatch.(title := Some(t)), now);
            r[i].title == t && r[i].updatedAt > pages[i].updatedAt && r[i].content == pages[i].content
  {
  }

  // ---------------------------------------------------------- collections

  /** The schema a collection gets when it is created without one. */
  const DefaultSchema: Schema := [
    ("title", Field(Text, "Title", None)),
    ("status", Field(Select, "Status", Some(DefaultStatuses)))
  ]

  /** The collection `handleCreateCollection` builds from `collectionData`. */
  function NewCollection(data: CollectionPatch, id: string): (c: Collection)
    ensures c.id == id && c.icon.None?
    ensures c.name != ""
    ensures data.name.Some? && data.name.value != "" ==> c.name == data.name.value
    ensures data.name.None? || data.name == Some("") ==> c.name == "Untitled Database"
    ensures c.schema == data.schema.GetOr(DefaultSchema)
    ensures c.viewType == data.viewType.GetOr(TableView)
  {
    Collection(
      id := id,
      name := if data.name.Some? && data.name.value != "" then data.name.value else "Untitled Database",
      icon := None,
      schema := if data.schema.Some? then data.schema.value else DefaultSchema,
      viewType := if data.viewType.Some? then data.viewType.value else TableView)
  }

  /** `{ ...collection, ...updates }`: no timestamp is involved. */
  function MergeCollection(c: Collection, u: CollectionPatch): (r: Collection)
    ensures r.id == Override(u.id, c.id) && r.name == Override(u.name, c.name)
    ensures r.icon == OverrideOptional(u.icon, c.icon)
    ensures r.schema == Override(u.schema, c.schema) && r.viewType == Override(u.viewType, c.viewType)
  {
    Collection(
      id := Override(u.id, c.id),
      name := Override(u.name, c.name),
      icon := OverrideOptional(u.icon, c.icon),
      schema := Override(u.schema, c.schema),
      viewType := Override(u.viewType, c.viewType))
  }

  lemma MergeEmptyCollectionPatch(c: Collection)
    ensures MergeCollection(c, EmptyCollectionPatch) == c
  {
  }

  /** The collection list after `handleUpdateCollection(id, updates)`. */
  function UpdateCollections(cs: seq<Collection>, id: string, u: CollectionPatch): (r: seq<Collection>)
    ensures |r| == |cs|
    ensures forall i :: 0 <= i < |cs| && cs[i].id == id ==> r[i] == MergeCollection(cs[i], u)
    ensures forall i :: 0 <= i < |cs| && cs[i].id != id ==> r[i] == cs[i]
    ensures (forall i :: 0 <= i < |cs| ==> cs[i].id != id) ==> r == cs
  {
    Seqs.MapWhere(cs, (c: Collection) => c.id == id, (c: Collection) => MergeCollection(c, u))
  }

  // ---------------------------------------------------------------- items

  /** `handleAddCollectionItem` refuses an update with a missing or empty `collectionId`. */
  predicate AcceptsItem(data: ItemPatch) {
    data.collectionId.Some? && data.collectionId.value != ""
  }

  /** The item list after `handleAddCollectionItem(itemData)`, with the fresh id passed in. */
  function AddItem(items: seq<CollectionItem>, data: ItemPatch, id: string): (r: seq<CollectionItem>)
    ensures !AcceptsItem(data) ==> r == items
    ensures AcceptsItem(data) ==>
              |r| == |items| + 1 && r[..|items|] == items &&
              r[|items|].id == id && r[|items|].collectionId == data.collectionId.value &&
              r[|items|].properties == data.properties.GetOr(map[])
  {
    if !AcceptsItem(data) then items
    else items + [CollectionItem(id, data.collectionId.value, data.properties.GetOr(map[]))]
  }

  /** `{ ...item, ...updates }`: a `properties` update replaces the whole bag. */
  function MergeItem(it: CollectionItem, u: ItemPatch): (r: CollectionItem)
    ensures r.id == Override(u.id, it.id) && r.collectionId == Override(u.collectionId, it.collectionId)
    ensures r.properties == Override(u.properties, it.properties)
  {
    CollectionItem(Override(u.id, it.id), Override(u.collectionId, it.collectionId), Override(u.properties, it.properties))
  }

  /** The item list after `handleUpdateCollectionItem(id, updates)`. */
  function UpdateItems(items: seq<CollectionItem>, id: string, u: ItemPatch): (r: seq<CollectionItem>)
    ensures |r| == |items|
    ensures forall i :: 0 <= i < |items| && items[i].id == id ==> r[i] == MergeItem(items[i], u)
    ensures forall i :: 0 <= i < |items| && items[i].id != id ==> r[i] == items[i]
    ensures (forall i :: 0 <= i < |items| ==> items[i].id != id) ==> r == items
  {
    Seqs.MapWhere(items, (it: CollectionItem) => it.id == id, (it: CollectionItem) => MergeItem(it, u))
  }

  // ---------------------------------------------------------- the current view

  /** The sidebar's `onSelectPage(id)`: a page view when some page has the id,
      otherwise a collection view, whether or not a collection has it. */
  function SelectView(pages: seq<Page>, id: string): (v: ContentView)
    ensures v.id == id
    ensures v.kind == PageContent <==> exists i :: 0 <= i < |pages| && pages[i].id == id
  {
    if Seqs.Find(pages, (p: Page) => p.id == id).Some? then ContentView(PageContent, id)
    else ContentView(CollectionContent, id)
  }

  /** `pages.find(page => page.id === currentView.id)`. */
  function FindPage(pages: seq<Page>, id: string): (r: Option<Page>)
    ensures r.None? <==> forall i :: 0 <= i < |pages| ==> pages[i].id != id
    ensures r.Some? ==> exists i :: 0 <= i < |pages| && pages[i] == r.value && r.value.id == id &&
                          forall j :: 0 <= j < i ==> pages[j].id != id
  {
    Seqs.Find(pages, (p: Page) => p.id == id)
  }

  /** `collections.find(col => col.id === currentView.id)`. */
  function FindCollection(cs: seq<Collection>, id: string): (r: Option<Collection>)
    ensures r.None? <==> forall i :: 0 <= i < |cs| ==> cs[i].id != id
    ensures r.Some? ==> exists i :: 0 <= i < |cs| && cs[i] == r.value && r.value.id == id &&
                          forall j :: 0 <= j < i ==> cs[j].id != id
  {
    Seqs.Find(cs, (c: Collection) => c.id == id)
  }

  /** `collectionItems.filter(item => item.collectionId === currentView.id)`. */
  function ItemsOf(items: seq<CollectionItem>, id: string): (r: seq<CollectionItem>)
    ensures forall k :: 0 <= k < |r| ==> r[k].collectionId == id && r[k] in items
    ensures forall k :: 0 <= k < |items| && items[k].collectionId == id ==> items[k] in r
  {
    Seqs.Filter(items, (it: CollectionItem) => it.collectionId == id)
  }

  /** The items shown for a collection keep the order of the item list. */
  lemma ItemsOfKeepOrder(items: seq<CollectionItem>, id: string)
    ensures Seqs.IsSubseq(ItemsOf(items, id), items)
  {
    Seqs.FilterIsSubseq(items, (it: CollectionItem) => it.collectionId == id);
  }

  /** The main pane: the editor for a page view whose page exists, the collection
      view for a collection view whose collection exists, and nothing otherwise. */
  function MainPane(pages: seq<Page>, cs: seq<Collection>, items: seq<CollectionItem>, v: ContentView): (r: Pane)
    ensures r.EditorPane? <==> v.kind == PageContent && exists i :: 0 <= i < |pages| && pages[i].id == v.id
    ensures r.EditorPane? ==> r.page.id == v.id && r.page in pages
    ensures r.CollectionPane? <==> v.kind == CollectionContent && exists i :: 0 <= i < |cs| && cs[i].id == v.id
    ensures r.CollectionPane? ==> r.collection.id == v.id && r.collection in cs && r.items == ItemsOf(items, v.id)
  {
    var page := FindPage(pages, v.id);
    var collection := FindCollection(cs, v.id);
    if v.kind == PageContent && page.Some? then EditorPane(page.value)
    else if v.kind == CollectionContent && collection.Some? then CollectionPane(collection.value, ItemsOf(items, v.id))
    else EmptyPane
  }

  /** Selecting an id that names neither a page nor a collection leaves the pane empty. */
  lemma SelectUnknownIdShowsNothing(pages: seq<Page>, cs: seq<Collection>, items: seq<CollectionItem>, id: string)
    requires forall i :: 0 <= i < |pages| ==> pages[i].id != id
    requires forall i :: 0 <= i < |cs| ==> cs[i].id != id
    ensures SelectView(pages, id).kind == CollectionContent
    ensures MainPane(pages, cs, items, SelectView(pages, id)) == EmptyPane
  {
  }

  /** An id shared by a page and a collection always resolves to the page. */
  lemma SharedIdResolvesToPage(pages: seq<Page>, cs: seq<Collection>, items: seq<CollectionItem>, i: int, j: int)
    requires 0 <= i < |pages| && 0 <= j < |cs| && pages[i].id == cs[j].id
    ensures MainPane(pages, cs, items, SelectView(pages, cs[j].id)).EditorPane?
  {
  }

  // ---------------------------------------------------------- initial data

  function MockPages(now: Time): seq<Page> {
    [ Page("page-1", "Getting Started", None,
           "Welcome to Lightfolio! This is your first page. Start writing or create a new page from the sidebar.",
           now, now, None, Some(true)),
      Page("page-2", "Project Ideas", None, "Use this page to brainstorm your project ideas.",
           now, now, None, None) ]
  }

  const MockCollection := Collection("collection-1", "Task Tracker", None, [
      ("title", Field(Text, "Task", None)),
      ("status", Field(Select, "Status", Some(["To Do", "In Progress", "Done"]))),
      ("priority", Field(Select, "Priority", Some(["Low", "Medium", "High"]))),
      ("dueDate", Field(Date, "Due Date", None)),
      ("completed", Field(Checkbox, "Completed", None))
    ], TableView)

  function MockItem(id: string, title: string, status: string, priority: string, due: string, completed: bool): CollectionItem {
    CollectionItem(id, "collection-1", map[
      "title" := Str(title), "status" := Str(status), "priority" := Str(priority),
      "dueDate" := Str(due), "completed" := Bool(completed)])
  }

  const MockItems := [
    MockItem("item-1", "Create project plan", "To Do", "High", "2023-06-15", false),
    MockItem("item-2", "Research competitors", "In Progress", "Medium", "2023-06-10", false),
    MockItem("item-3", "Define MVP features", "Done", "High", "2023-06-01", true)
  ]

  // ---------------------------------------------------------- the component state

  class Workspace {
    var pages: seq<Page>
    var collections: seq<Collection>
    var collectionItems: seq<CollectionItem>
    var currentView: ContentView

    /** The state the component mounts with; `now` is the time the mock pages are stamped with. */
    constructor (now: Time)
      ensures pages == MockPages(now) && collections == [MockCollection] && collectionItems == MockItems
      ensures currentView == ContentView(PageContent, "page-1")
      ensures Pane().EditorPane? && Pane().page.title == "Getting Started"
    {
      pages := MockPages(now);
      collections := [MockCollection];
      collectionItems := MockItems;
      currentView := ContentView(PageContent, "page-1");
      new;
      assert pages[0].id == "page-1";
    }

    /** `currentPage`, `currentCollection` and `currentCollectionItems`, as the pane uses them. */
    function Pane(): Pane
      reads this
    {
      MainPane(pages, collections, collectionItems, currentView)
    }

    method CreatePage(data: PagePatch, id: string, now: Time)
      modifies this
      ensures pages == [NewPage(data, id, now)] + old(pages)
      ensures currentView == ContentView(PageContent, id)
      ensures collections == old(collections) && collectionItems == old(collectionItems)
      ensures Pane() == EditorPane(NewPage(data, id, now))
    {
      var page := NewPage(data, id, now);
      pages := [page] + pages;
      currentView := ContentView(PageContent, page.id);
      assert pages[0].id == id;
    }

    method UpdatePage(id: string, u: PagePatch, now: Time)
      modifies this
      ensures pages == UpdatePages(old(pages), id, u, now)
      ensures collections == old(collections) && collectionItems == old(collectionItems)
      ensures currentView == old(currentView)
    {
      pages := UpdatePages(pages, id, u, now);
    }

    method CreateCollection(data: CollectionPatch, id: string)
      modifies this
      ensures collections == [NewCollection(data, id)] + old(collections)
      ensures currentView == ContentView(CollectionContent, id)
      ensures pages == old(pages) && collectionItems == old(collectionItems)
      ensures Pane() == CollectionPane(NewCollection(data, id), ItemsOf(collectionItems, id))
    {
      var c := NewCollection(data, id);
      collections := [c] + collections;
      currentView := ContentView(CollectionContent, c.id);
      assert collections[0].id == id;
    }

    method UpdateCollection(id: string, u: CollectionPatch)
      modifies this
      ensures collections == UpdateCollections(old(collections), id, u)
      ensures pages == old(pages) && collectionItems == old(collectionItems) && currentView == old(currentView)
    {
      collections := UpdateCollections(collections, id, u);
    }

    method AddCollectionItem(data: ItemPatch, id: string)
      modifies this
      ensures collectionItems == AddItem(old(collectionItems), data, id)
      ensures pages == old(pages) && collections == old(collections) && currentView == old(currentView)
    {
      if data.collectionId.None? || data.collectionId.value == "" {
        return;
      }
      var item := CollectionItem(id, data.collectionId.value, data.properties.GetOr(map[]));
      collectionItems := collectionItems + [item];
    }

    method UpdateCollectionItem(id: string, u: ItemPatch)
      modifies this
      ensures collectionItems == UpdateItems(old(collectionItems), id, u)
      ensures pages == old(pages) && collections == old(collections) && currentView == old(currentView)
    {
      collectionItems := UpdateItems(collectionItems, id, u);
    }

    method SelectPage(id: string)
      modifies this
      ensures currentView == SelectView(old(pages), id)
      ensures pages == old(pages) && collections == old(collections) && collectionItems == old(collectionItems)
    {
      var page := FindPage(pages, id);
      if page.Some? {
        currentView := ContentView(PageContent, id);
      } else {
        currentView := ContentView(CollectionContent, id);
      }
    }
  }
}
