/** The sidebar (`src/components/workspace/Sidebar.tsx`): the case-insensitive title
    search, the split of the matching pages into pinned and unpinned sections, which
    sections render, and the create-page dialog with its title buffer. */
module Sidebar {
  import opened Wrappers
  import opened Types
  import Seqs
  import WorkspaceStore

  // ---------------------------------------------------------------- strings

  /** `toLowerCase` over ASCII letters; other characters are left alone. */
  function LowerChar(c: char): char {
    if 'A' <= c <= 'Z' then (c as int + 32) as char else c
  }

  function Lower(s: string): (r: string)
    ensures |r| == |s| && forall i :: 0 <= i < |s| ==> r[i] == LowerChar(s[i])
  {
    if s == [] then [] else [LowerChar(s[0])] + Lower(s[1..])
  }

  /** `hay.includes(needle)`: `needle` occurs in `hay` at some position. */
  predicate Includes(hay: string, needle: string) {
    exists i :: 0 <= i <= |hay| && needle <= hay[i..]
  }

  lemma IncludesEmpty(hay: string)
    ensures Includes(hay, "")
  {
    assert "" <= hay[0..];
  }

  /** A page matches a query when its lower-cased title contains the lower-cased query. */
  predicate Matches(p: Page, query: string) {
    Includes(Lower(p.title), Lower(query))
  }

  /** A page counts as pinned when `pinned` is truthy. */
  predicate IsPinned(p: Page) {
    p.pinned == Some(true)
  }

  predicate IsUnpinned(p: Page) {
    !IsPinned(p)
  }

  // ---------------------------------------------------------------- sections

  /** `filteredPages`: every page for an empty query, otherwise the matching ones. */
  function FilteredPages(pages: seq<Page>, query: string): (r: seq<Page>)
    ensures query == "" ==> r == pages
    ensures query != "" ==> forall k :: 0 <= k < |r| ==> r[k] in pages && Matches(r[k], query)
    ensures query != "" ==> forall k :: 0 <= k < |pages| && Matches(pages[k], query) ==> pages[k] in r
  {
    if query == "" then pages else Seqs.Filter(pages, (p: Page) => Matches(p, query))
  }

  /** The empty query needs no special case: every title contains it, so filtering
      by it returns every page, and the search is the same filter for every query. */
  lemma FilteredIsFilter(pages: seq<Page>, query: string)
    ensures FilteredPages(pages, query) == Seqs.Filter(pages, (p: Page) => Matches(p, query))
  {
    if query == "" {
      forall i | 0 <= i < |pages| ensures Matches(pages[i], query) {
        IncludesEmpty(Lower(pages[i].title));
      }
      Seqs.FilterAll(pages, (p: Page) => Matches(p, query));
    }
  }

  lemma FilteredKeepsOrder(pages: seq<Page>, query: string)
    ensures Seqs.IsSubseq(FilteredPages(pages, query), pages)
  {
    FilteredIsFilter(pages, query);
    Seqs.FilterIsSubseq(pages, (p: Page) => Matches(p, query));
  }

  function PinnedPages(filtered: seq<Page>): (r: seq<Page>)
    ensures forall k :: 0 <= k < |r| ==> r[k] in filtered && IsPinned(r[k])
    ensures forall k :: 0 <= k < |filtered| && IsPinned(filtered[k]) ==> filtered[k] in r
  {
    Seqs.Filter(filtered, IsPinned)
  }

  function UnpinnedPages(filtered: seq<Page>): (r: seq<Page>)
    ensures forall k :: 0 <= k < |r| ==> r[k] in filtered && !IsPinned(r[k])
    ensures forall k :: 0 <= k < |filtered| && !IsPinned(filtered[k]) ==> filtered[k] in r
  {
    Seqs.Filter(filtered, IsUnpinned)
  }

  /** The two sections split the filtered list: each keeps its order, no page is in
      both, and together they hold every filtered page exactly as often as it occurs. */
  lemma SectionsPartition(filtered: seq<Page>)
    ensures Seqs.IsSubseq(PinnedPages(filtered), filtered) && Seqs.IsSubseq(UnpinnedPages(filtered), filtered)
    ensures multiset(PinnedPages(filtered)) + multiset(UnpinnedPages(filtered)) == multiset(filtered)
    ensures |PinnedPages(filtered)| + |UnpinnedPages(filtered)| == |filtered|
    ensures multiset(PinnedPages(filtered)) !! multiset(UnpinnedPages(filtered))
  {
    Seqs.FilterIsSubseq(filtered, IsPinned);
    Seqs.FilterIsSubseq(filtered, IsUnpinned);
    Seqs.FilterSplit(filtered, IsPinned, IsUnpinned);
    var a, b := PinnedPages(filtered), UnpinnedPages(filtered);
    forall p | p in multiset(a) ensures p !in multiset(b) {
      assert IsPinned(p);
    }
  }

  /** What the page list renders. */
  datatype Sections = Sections(
    showPinned: bool,          // the PINNED heading and its list
    pinned: seq<Page>,
    unpinned: seq<Page>,
    showNoPages: bool)         // "No pages found" with its Create Page button

  function SectionsOf(pages: seq<Page>, query: string): (r: Sections)
    ensures r.pinned == PinnedPages(FilteredPages(pages, query))
    ensures r.unpinned == UnpinnedPages(FilteredPages(pages, query))
    ensures r.showPinned <==> exists k :: 0 <= k < |FilteredPages(pages, query)| && IsPinned(FilteredPages(pages, query)[k])
    ensures r.showNoPages <==> forall k :: 0 <= k < |FilteredPages(pages, query)| ==> IsPinned(FilteredPages(pages, query)[k])
  {
    var filtered := FilteredPages(pages, query);
    var pinned := PinnedPages(filtered);
    var unpinned := UnpinnedPages(filtered);
    assert |pinned| > 0 ==> pinned[0] in filtered;
    assert |unpinned| > 0 ==> unpinned[0] in filtered;
    Sections(|pinned| > 0, pinned, unpinned, |unpinned| == 0)
  }

  /** With no pages at all the pinned section is hidden and the placeholder shows. */
  lemma NoPagesShowsPlaceholder(query: string)
    ensures SectionsOf([], query) == Sections(false, [], [], true)
  {
  }

  /** Pinning or unpinning a page from the editor moves it between the sections on the
      next render: once the update is merged, the page is in the pinned section exactly
      when it was pinned and it matches the search. */
  lemma PinMovesBetweenSections(pages: seq<Page>, query: string, i: int, pinned: bool, now: Time)
    requires 0 <= i < |pages|
    ensures var updated := WorkspaceStore.UpdatePages(pages, pages[i].id, EmptyPagePatch.(pinned := Some(pinned)), now);
            var s := SectionsOf(updated, query);
            (updated[i] in s.pinned <==> pinned && (query == "" || Matches(pages[i], query))) &&
            (updated[i] in s.unpinned <==> !pinned && (query == "" || Matches(pages[i], query)))
  {
    var updated := WorkspaceStore.UpdatePages(pages, pages[i].id, EmptyPagePatch.(pinned := Some(pinned)), now);
    assert updated[i].title == pages[i].title;
    var filtered := FilteredPages(updated, query);
    assert updated[i] in filtered <==> (query == "" || Matches(pages[i], query));
  }

  // ---------------------------------------------------------------- trimming

  /** White space and line terminators as ECMAScript's `String.prototype.trim` strips them. */
  predicate IsSpace(c: char) {
    c == ' ' || c == '\t' || c == '\n' || c == '\r' || c == '\U{000B}' || c == '\U{000C}' ||
    c == '\U{00A0}' || c == '\U{1680}' || ('\U{2000}' <= c <= '\U{200A}') ||
    c == '\U{2028}' || c == '\U{2029}' || c == '\U{202F}' || c == '\U{205F}' ||
    c == '\U{3000}' || c == '\U{FEFF}'
  }

  function TrimStart(s: string): (r: string)
    ensures |r| <= |s|
  {
    if s != [] && IsSpace(s[0]) then TrimStart(s[1..]) else s
  }

  function TrimEnd(s: string): (r: string)
    ensures |r| <= |s|
  {
    if s != [] && IsSpace(s[|s| - 1]) then TrimEnd(s[..|s| - 1]) else s
  }

  function Trim(s: string): string {
    TrimStart(TrimEnd(s))
  }

  lemma {:induction false} TrimStartEmpty(s: string)
    ensures TrimStart(s) == "" <==> forall i :: 0 <= i < |s| ==> IsSpace(s[i])
  {
    if s != [] && IsSpace(s[0]) {
      TrimStartEmpty(s[1..]);
      assert forall i :: 1 <= i < |s| ==> s[i] == s[1..][i - 1];
    }
  }

  lemma {:induction false} TrimEndEmpty(s: string)
    ensures TrimEnd(s) == "" <==> forall i :: 0 <= i < |s| ==> IsSpace(s[i])
  {
    if s != [] && IsSpace(s[|s| - 1]) {
      TrimEndEmpty(s[..|s| - 1]);
      assert forall i :: 0 <= i < |s| - 1 ==> s[i] == s[..|s| - 1][i];
    }
  }

  /** A title is refused exactly when it is nothing but white space. */
  lemma {:induction false} TrimEmptyIff(s: string)
    ensures Trim(s) == "" <==> forall i :: 0 <= i < |s| ==> IsSpace(s[i])
  {
    TrimEndEmpty(s);
    TrimStartEmpty(TrimEnd(s));
    TrimEndPrefix(s);
  }

  /** `TrimEnd(s)` is a prefix of `s` and everything after it is white space. */
  lemma {:induction false} TrimEndPrefix(s: string)
    ensures |TrimEnd(s)| <= |s| && TrimEnd(s) == s[..|TrimEnd(s)|]
    ensures forall i :: |TrimEnd(s)| <= i < |s| ==> IsSpace(s[i])
  {
    if s != [] && IsSpace(s[|s| - 1]) {
      var t := s[..|s| - 1];
      TrimEndPrefix(t);
      assert forall i :: 0 <= i < |t| ==> t[i] == s[i];
    }
  }

  // ---------------------------------------------------------------- the component state

  /** The sidebar's local state. */
  class Panel {
    var searchQuery: string
    var isCreateModalOpen: bool
    var newPageTitle: string

    constructor ()
      ensures searchQuery == "" && !isCreateModalOpen && newPageTitle == ""
    {
      searchQuery := "";
      isCreateModalOpen := false;
      newPageTitle := "";
    }

    function Render(pages: seq<Page>): Sections
      reads this
    {
      SectionsOf(pages, searchQuery)
    }

    method SetSearchQuery(q: string)
      modifies this
      ensures searchQuery == q && isCreateModalOpen == old(isCreateModalOpen) && newPageTitle == old(newPageTitle)
    {
      searchQuery := q;
    }

    /** The create menu's "page" entry and the placeholder's Create Page button. */
    method OpenCreateModal()
      modifies this
      ensures isCreateModalOpen && searchQuery == old(searchQuery) && newPageTitle == old(newPageTitle)
    {
      isCreateModalOpen := true;
    }

    /** The dialog's Cancel button and its close request. */
    method CloseCreateModal()
      modifies this
      ensures !isCreateModalOpen && searchQuery == old(searchQuery) && newPageTitle == old(newPageTitle)
    {
      isCreateModalOpen := false;
    }

    method SetNewPageTitle(t: string)
      modifies this
      ensures newPageTitle == t && searchQuery == old(searchQuery) && isCreateModalOpen == old(isCreateModalOpen)
    {
      newPageTitle := t;
    }

    /** `handleCreatePage`: always closes the dialog; when the title is more than white
        space, emits `{ title, content: '' }` with the title as typed and clears the buffer. */
    method HandleCreatePage() returns (emit: Option<PagePatch>)
      modifies this
      ensures !isCreateModalOpen && searchQuery == old(searchQuery)
      ensures emit.Some? <==> exists i :: 0 <= i < |old(newPageTitle)| && !IsSpace(old(newPageTitle)[i])
      ensures emit.Some? ==> emit.value == EmptyPagePatch.(title := Some(old(newPageTitle)), content := Some(""))
      ensures newPageTitle == if emit.Some? then "" else old(newPageTitle)
    {
      isCreateModalOpen := false;
      emit := None;
      TrimEmptyIff(newPageTitle);
      if Trim(newPageTitle) != "" {
        emit := Some(EmptyPagePatch.(title := Some(newPageTitle), content := Some("")));
        newPageTitle := "";
      }
    }
  }

  /** A page created from the dialog keeps the title as typed, surrounding white space
      included, since a title that passes the check is never empty. */
  lemma CreateFromDialogKeepsTitle(title: string, id: string, now: Time)
    requires Trim(title) != ""
    ensures var p := WorkspaceStore.NewPage(EmptyPagePatch.(title := Some(title), content := Some("")), id, now);
            p.title == title && p.content == "" && p.pinned == Some(false)
  {
    TrimEmptyIff(title);
  }
}
