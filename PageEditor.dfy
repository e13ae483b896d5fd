/** The page editor (`src/components/workspace/PageEditor.tsx`): local copies of the
    page's title, content and pinned flag, reset whenever the page changes, and the
    one-field updates each edit emits for the page. */
module PageEditor {
  import opened Wrappers
  import opened Types
  import WorkspaceStore

  /** An `onUpdate(page.id, updates)` call. */
  datatype Update = Update(id: string, patch: PagePatch)

  /** `!!page.pinned`. */
  function PinnedFlag(p: Page): (b: bool)
    ensures b <==> p.pinned == Some(true)
  {
    p.pinned.Some? && p.pinned.value
  }

  class Editor {
    var page: Page
    var title: string
    var content: string
    var isPinned: bool

    constructor (p: Page)
      ensures page == p && title == p.title && content == p.content && isPinned == PinnedFlag(p)
    {
      page := p;
      title := p.title;
      content := p.content;
      isPinned := PinnedFlag(p);
    }

    /** The effect that runs when the page it is given changes. */
    method Resync(p: Page)
      modifies this
      ensures page == p && title == p.title && content == p.content && isPinned == PinnedFlag(p)
    {
      page := p;
      title := p.title;
      content := p.content;
      isPinned := PinnedFlag(p);
    }

    /** `handleTitleChange`: the title changes at once; `{ title }` is emitted after the quiet period. */
    method HandleTitleChange(newTitle: string) returns (u: Update)
      modifies this
      ensures title == newTitle && content == old(content) && isPinned == old(isPinned) && page == old(page)
      ensures u == Update(page.id, EmptyPagePatch.(title := Some(newTitle)))
    {
      title := newTitle;
      u := Update(page.id, EmptyPagePatch.(title := Some(newTitle)));
    }

    /** `handleContentChange`: the same for the content. */
    method HandleContentChange(newContent: string) returns (u: Update)
      modifies this
      ensures content == newContent && title == old(title) && isPinned == old(isPinned) && page == old(page)
      ensures u == Update(page.id, EmptyPagePatch.(content := Some(newContent)))
    {
      content := newContent;
      u := Update(page.id, EmptyPagePatch.(content := Some(newContent)));
    }

    /** `togglePin`: flips the flag and emits `{ pinned }` at once. */
    method TogglePin() returns (u: Update)
      modifies this
      ensures isPinned == !old(isPinned) && title == old(title) && content == old(content) && page == old(page)
      ensures u == Update(page.id, EmptyPagePatch.(pinned := Some(isPinned)))
    {
      var newPinnedState := !isPinned;
      isPinned := newPinnedState;
      u := Update(page.id, EmptyPagePatch.(pinned := Some(newPinnedState)));
    }
  }

  /** An emitted edit, once merged, changes that one field of the page (and its
      modification time) and nothing else. */
  lemma EditsTouchOneField(p: Page, t: string, c: string, b: bool, now: Time)
    ensures WorkspaceStore.MergePage(p, EmptyPagePatch.(title := Some(t)), now) == p.(title := t, updatedAt := now)
    ensures WorkspaceStore.MergePage(p, EmptyPagePatch.(content := Some(c)), now) == p.(content := c, updatedAt := now)
    ensures WorkspaceStore.MergePage(p, EmptyPagePatch.(pinned := Some(b)), now) == p.(pinned := Some(b), updatedAt := now)
  {
  }

  /** Toggling the pin twice, each time applied through the workspace, restores the
      pinned flag; a page that had no `pinned` field ends with an explicit `false`. */
  lemma TogglePinTwice(p: Page, t1: Time, t2: Time)
    ensures var p1 := WorkspaceStore.MergePage(p, EmptyPagePatch.(pinned := Some(!PinnedFlag(p))), t1);
            var p2 := WorkspaceStore.MergePage(p1, EmptyPagePatch.(pinned := Some(!PinnedFlag(p1))), t2);
            PinnedFlag(p1) == !PinnedFlag(p) && PinnedFlag(p2) == PinnedFlag(p) &&
            p2 == p.(pinned := Some(PinnedFlag(p)), updatedAt := t2)
  {
  }

  /** The resync after the workspace merges an emitted title shows that title again. */
  lemma TitleRoundTrip(pages: seq<Page>, i: int, newTitle: string, now: Time)
    requires 0 <= i < |pages|
    ensures var merged := WorkspaceStore.UpdatePages(pages, pages[i].id, EmptyPagePatch.(title := Some(newTitle)), now);
            merged[i].title == newTitle && merged[i].content == pages[i].content &&
            PinnedFlag(merged[i]) == PinnedFlag(pages[i])
  {
  }
}
