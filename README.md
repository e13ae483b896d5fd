# Lightfolio workspace core, modelled in Dafny

Lightfolio is a client-side note-taking workspace: pages of free text, and
collections ("databases") whose items are property bags rendered through a
typed schema as a table, a kanban board or a list. This project models the thin
layer of list and state logic under its screens:

- the **workspace store** (`WorkspaceStore`): the in-memory pages, collections
  and collection items, the current-view selector, the create and merge-by-id
  update handlers, and what the main pane shows;
- the **collection view** (`CollectionView`): the table, board and list
  projections of a collection's items, computed from the schema in key order,
  and the view's local name and view-type state;
- the **sidebar** (`Sidebar`): the case-insensitive title search, the split
  into pinned and unpinned sections, and the create-page dialog;
- the **session store** (`Auth`): the mock login, signup and logout over the
  current user, the loading flag and the one local-storage slot;
- the **sign-in dialog** (`AuthModal`) and the **page editor** (`PageEditor`).

`Types` holds the entities, a JavaScript value type with its truthiness (the
views rely on `value || fallback` throughout) and `Partial<T>` updates as
records of optional fields. `Seqs` holds `filter`, `find` and a
rewrite-the-matching-elements `map` as recursive functions, and the facts about
them that the properties rest on. `Wrappers` holds `Option` and a `Result` for
calls that throw.

State that the source updates in place is a class with those fields:
`WorkspaceStore.Workspace`, `CollectionView.View`, `Sidebar.Panel`,
`Auth.Provider`, `AuthModal.Modal` and `PageEditor.Editor`. Each method's
postcondition gives the whole new state, in terms of the pure functions
beside it. The properties are proved about those functions. A callback fired by a
handler, such as `onUpdate` or `onCreatePage`, is the update record that the handler
method returns. A callback wired to a rendered control, as `onAddItem` is, is the
update record stored in that control: `Table.newRow`, `Column.add` or `ListOf.add`. Ids (`Date.now()`) and
times (`new Date()`) are parameters.

Where the code and the design description differ, the model follows the code:

- A board card has no title line at all when the schema has no text field.
  It does not show "Untitled" in that case.
- The board tests its grouping key for truthiness, and the list its title key.
  So a select field stored under the empty key gives the board's placeholder,
  and a text field under the empty key gives list rows titled "Untitled",
  although the table shows both as columns (`EmptyKeySelectFieldShowsPlaceholder`).
  A board card still takes its title from a text field under the empty key.
- This session store is the local-storage mock. It has no password reset, and
  the user id is whatever the caller supplies, not an identity provider's.
- `updatedAt` becomes the time of the update. It grows strictly only when the
  clock has moved (`UpdateTitleIsVisible` assumes that).

## Model

| member | source | states |
|---|---|---|
| `WorkspaceStore.NewPage` | src/pages/Workspace.tsx:117-125 | the new page has the given id and both timestamps `now`; a missing or empty title becomes "Untitled", so the title is never empty; missing content becomes ""; `pinned` is always present and true only when `true` was supplied |
| `WorkspaceStore.MergePage` | src/pages/Workspace.tsx:139 | every field the update supplies replaces the page's, every other field is kept, and `updatedAt` is `now` whatever the update says |
| `WorkspaceStore.MergePageIdempotent` | src/pages/Workspace.tsx:139 | merging the same update twice at the same time equals merging it once |
| `WorkspaceStore.MergeEmptyPagePatch` | src/pages/Workspace.tsx:139 | an empty update changes only `updatedAt` |
| `WorkspaceStore.UpdatePages` | src/pages/Workspace.tsx:136-143 | the list keeps its length; each page with the id is merged, every other page is unchanged; an absent id leaves the list as it was |
| `WorkspaceStore.UpdateTitleIsVisible` | src/pages/Workspace.tsx:136-143 | after setting only a title, the page has that title and its content, and its `updatedAt` exceeds the old one when the clock moved |
| `WorkspaceStore.NewCollection` | src/pages/Workspace.tsx:145-154 | a missing or empty name becomes "Untitled Database"; a missing schema becomes title (text "Title") and status (select "Status" with To Do, In Progress, Done); a missing view type becomes table |
| `WorkspaceStore.MergeCollection` | src/pages/Workspace.tsx:168 | supplied fields replace the collection's, all others are kept, and no timestamp is involved |
| `WorkspaceStore.MergeEmptyCollectionPatch` | src/pages/Workspace.tsx:168 | an empty update leaves a collection unchanged |
| `WorkspaceStore.UpdateCollections` | src/pages/Workspace.tsx:165-172 | length preserved; only collections with the id are merged; an absent id changes nothing |
| `WorkspaceStore.AddItem` | src/pages/Workspace.tsx:174-184 | with a missing or empty `collectionId` the list is unchanged; otherwise exactly one item is appended after the unchanged old list, with the given id, that collection id, and the properties supplied or `{}` |
| `WorkspaceStore.MergeItem` | src/pages/Workspace.tsx:189 | supplied fields replace the item's; a properties update replaces the whole bag |
| `WorkspaceStore.UpdateItems` | src/pages/Workspace.tsx:186-193 | length preserved; only items with the id are merged; an absent id changes nothing |
| `WorkspaceStore.SelectView` | src/pages/Workspace.tsx:203-211 | the view keeps the id and is a page view exactly when some page has that id, otherwise a collection view |
| `WorkspaceStore.FindPage` | src/pages/Workspace.tsx:110 | none exactly when no page has the id; otherwise the first page with the id |
| `WorkspaceStore.FindCollection` | src/pages/Workspace.tsx:111 | none exactly when no collection has the id; otherwise the first collection with it |
| `WorkspaceStore.ItemsOf` | src/pages/Workspace.tsx:112-114 | the current items are exactly the items whose `collectionId` is the view's id |
| `WorkspaceStore.ItemsOfKeepOrder` | src/pages/Workspace.tsx:112-114 | the current items are an order-preserving subsequence of the item list |
| `WorkspaceStore.MainPane` | src/pages/Workspace.tsx:216-231 | the editor shows exactly for a page view whose page exists, the collection view exactly for a collection view whose collection exists, with that collection's items |
| `WorkspaceStore.SelectUnknownIdShowsNothing` | src/pages/Workspace.tsx:203-231 | selecting an id that names neither a page nor a collection gives a collection view and an empty pane |
| `WorkspaceStore.SharedIdResolvesToPage` | src/pages/Workspace.tsx:203-211 | an id shared by a page and a collection always opens the page |
| `WorkspaceStore.Workspace.constructor` | src/pages/Workspace.tsx:12-95 | the initial lists are the two mock pages, the task tracker and its three items, and the pane shows "Getting Started" |
| `WorkspaceStore.Workspace.CreatePage` | src/pages/Workspace.tsx:117-128 | the new page is prepended to the unchanged list, the view becomes that page, nothing else changes, and the pane shows it |
| `WorkspaceStore.Workspace.UpdatePage` | src/pages/Workspace.tsx:136-143 | pages become `UpdatePages` of the old pages; the other lists and the view are unchanged |
| `WorkspaceStore.Workspace.CreateCollection` | src/pages/Workspace.tsx:145-157 | the new collection is prepended and the view becomes it; the pane shows it with its items, even when a page has the same id |
| `WorkspaceStore.Workspace.UpdateCollection` | src/pages/Workspace.tsx:165-172 | collections become `UpdateCollections` of the old ones; nothing else changes |
| `WorkspaceStore.Workspace.AddCollectionItem` | src/pages/Workspace.tsx:174-184 | items become `AddItem` of the old items; nothing else changes |
| `WorkspaceStore.Workspace.UpdateCollectionItem` | src/pages/Workspace.tsx:186-193 | items become `UpdateItems` of the old items; nothing else changes |
| `WorkspaceStore.Workspace.SelectPage` | src/pages/Workspace.tsx:203-211 | the view becomes `SelectView` of the pages; the lists are unchanged |
| `CollectionView.CellContent` | src/components/workspace/CollectionView.tsx:238-254 | a checkbox shows ✓ exactly when the value is truthy and ○ otherwise; a select shows the value, or "Not set" when it is falsy, so its pill is never blank; any other type shows the value, or "" when it is falsy |
| `CollectionView.Headers` | src/components/workspace/CollectionView.tsx:85-89 | one header per schema key, in order, each the field's name |
| `CollectionView.Cells` | src/components/workspace/CollectionView.tsx:95-99 | one cell per schema key, in order, each the cell content of that field's value |
| `CollectionView.Rows` | src/components/workspace/CollectionView.tsx:93-101 | one body row per item, in order, carrying the item's id |
| `CollectionView.NewRow` | src/components/workspace/CollectionView.tsx:103-118 | the trailing row has one cell per column, and only cell 0 holds a control, which adds an item with no properties |
| `CollectionView.TableOf` | src/components/workspace/CollectionView.tsx:77-123 | the table has one column per schema key in schema order, headed by the field names, one row per item, and cell (row j, column i) is the content of item j's value under key i |
| `CollectionView.TableAddControl` | src/components/workspace/CollectionView.tsx:103-118 | the table has an add control exactly when the schema has a column; it sits in column 0 and emits `{collectionId, properties: {}}` |
| `CollectionView.FirstKeyOfKind` | src/components/workspace/CollectionView.tsx:127-129 | none exactly when no field has the type; otherwise the key of the first field of that type in schema order |
| `CollectionView.FirstIndexOfKind` | src/components/workspace/CollectionView.tsx:127-129 | the position of the field `FirstKeyOfKind` finds |
| `CollectionView.TitleAt` | src/components/workspace/CollectionView.tsx:163 | a title is the value under the title key when truthy, otherwise "Untitled", and so is never blank |
| `CollectionView.Statuses` | src/components/workspace/CollectionView.tsx:140-141 | the declared options, or To Do, In Progress, Done only when none are declared |
| `CollectionView.ColumnItems` | src/components/workspace/CollectionView.tsx:146-148 | a column holds exactly the items whose grouping value is strictly the column's string |
| `CollectionView.ColumnItemsKeepOrder` | src/components/workspace/CollectionView.tsx:146-148 | a column's items keep the order of the item list |
| `CollectionView.DetailFields` | src/components/workspace/CollectionView.tsx:169-170 | the detail fields are exactly the fields that are neither the grouping key nor text-typed, in schema order |
| `CollectionView.DetailLines` | src/components/workspace/CollectionView.tsx:171-176 | one line per detail field, labelled with its name, showing the value or "-" |
| `CollectionView.CardOf` | src/components/workspace/CollectionView.tsx:156-179 | a card has a title line exactly when the schema has a text field, showing the first text field's value or "Untitled", and the detail lines of the item |
| `CollectionView.Cards` | src/components/workspace/CollectionView.tsx:155-180 | one card per column item, in order |
| `CollectionView.Columns` | src/components/workspace/CollectionView.tsx:145-196 | one column per status, in order, with the cards of its items and an add control that presets the status |
| `CollectionView.BoardOf` | src/components/workspace/CollectionView.tsx:125-199 | the placeholder exactly when there is no select field (or its key is empty); otherwise grouping by the first select field, one column per option in declared order |
| `CollectionView.NoSelectFieldNoBoard` | src/components/workspace/CollectionView.tsx:131-137 | a schema without a select field renders only the placeholder |
| `CollectionView.EmptyKeySelectFieldShowsPlaceholder` | src/components/workspace/CollectionView.tsx:127-137 | a first select field under the empty key still yields the placeholder while the table shows it as column 0 |
| `CollectionView.BoardColumnsFollowOptions` | src/components/workspace/CollectionView.tsx:127-145 | wherever the first select field sits in the schema, when its key is not empty the board groups by it, and the column statuses are exactly its options, with the defaults only when it has none, so empty options give no columns |
| `CollectionView.Dropped` | src/components/workspace/CollectionView.tsx:145-148 | the dropped items are exactly those whose grouping value is not one of the statuses as a string |
| `CollectionView.BoardPartition` | src/components/workspace/CollectionView.tsx:141-148 | with distinct column statuses, the cards on the board plus the dropped items add up to the whole item list: each item is on one column or on none |
| `CollectionView.ColumnAddLandsInColumn` | src/components/workspace/CollectionView.tsx:185-188 | an item added through a column's "+ Add item" is appended to that column on the next render |
| `CollectionView.ListRows` | src/components/workspace/CollectionView.tsx:204-217 | one row per item, titled with the first text field's value or "Untitled", never blank |
| `CollectionView.ListViewOf` | src/components/workspace/CollectionView.tsx:201-228 | one row per item in order; every title is "Untitled" when the schema has no text field; the add control emits `{collectionId, properties: {}}` |
| `CollectionView.ViewContent` | src/components/workspace/CollectionView.tsx:256-269 | each view type selects its own projection of this collection and these items (the table, the board or the list), and the calendar only a placeholder |
| `CollectionView.ListAddShowsNewRow` | src/components/workspace/CollectionView.tsx:204-225 | after the list's add control is handled by the workspace, the list shows its old rows and one more, "Untitled", for the new item |
| `CollectionView.View.constructor` | src/components/workspace/CollectionView.tsx:18-19 | the local name and view type start as those of the collection first given; later renders take the collection and items as arguments |
| `CollectionView.View.ChangeViewType` | src/components/workspace/CollectionView.tsx:21-24 | the view type changes and exactly `{viewType}` is emitted |
| `CollectionView.View.ChangeName` | src/components/workspace/CollectionView.tsx:26-34 | the name changes and exactly `{name}` is emitted |
| `Sidebar.Lower` | src/components/workspace/Sidebar.tsx:29 | lower-casing keeps the length and maps each character |
| `Sidebar.FilteredPages` | src/components/workspace/Sidebar.tsx:27-31 | an empty query returns every page; otherwise exactly the pages whose lower-cased title contains the lower-cased query |
| `Sidebar.FilteredIsFilter` | src/components/workspace/Sidebar.tsx:27-31 | the empty-query shortcut agrees with filtering, since every title contains "" |
| `Sidebar.FilteredKeepsOrder` | src/components/workspace/Sidebar.tsx:27-31 | the result is an order-preserving subsequence of the pages |
| `Sidebar.PinnedPages` | src/components/workspace/Sidebar.tsx:33 | exactly the filtered pages whose `pinned` is truthy |
| `Sidebar.UnpinnedPages` | src/components/workspace/Sidebar.tsx:34 | exactly the filtered pages whose `pinned` is falsy |
| `Sidebar.SectionsPartition` | src/components/workspace/Sidebar.tsx:33-34 | both sections keep order, share no page, and together hold every filtered page as often as it occurs |
| `Sidebar.SectionsOf` | src/components/workspace/Sidebar.tsx:77-144 | the pinned section renders exactly when some filtered page is pinned; "No pages found" exactly when every filtered page is pinned |
| `Sidebar.NoPagesShowsPlaceholder` | src/components/workspace/Sidebar.tsx:109-144 | with no pages, the pinned heading is hidden and the placeholder shows |
| `Sidebar.PinMovesBetweenSections` | src/components/workspace/Sidebar.tsx:33-34 | once a pin update is merged, the page is in the pinned section exactly when pinned and matching, and in the other section exactly when unpinned and matching |
| `Sidebar.TrimEmptyIff` | src/components/workspace/Sidebar.tsx:38 | a title trims to "" exactly when it is all white space |
| `Sidebar.Panel.constructor` | src/components/workspace/Sidebar.tsx:23-25 | empty query, closed dialog, empty title buffer |
| `Sidebar.Panel.SetSearchQuery` | src/components/workspace/Sidebar.tsx:69 | only the query changes |
| `Sidebar.Panel.OpenCreateModal` | src/components/workspace/Sidebar.tsx:57 | the dialog opens; nothing else changes |
| `Sidebar.Panel.CloseCreateModal` | src/components/workspace/Sidebar.tsx:181 | the dialog closes; nothing else changes |
| `Sidebar.Panel.SetNewPageTitle` | src/components/workspace/Sidebar.tsx:177 | only the title buffer changes |
| `Sidebar.Panel.HandleCreatePage` | src/components/workspace/Sidebar.tsx:36-45 | the dialog always closes; a create is emitted exactly when the title has a non-space character, with the untrimmed title and content ""; the buffer is cleared only then |
| `Sidebar.CreateFromDialogKeepsTitle` | src/components/workspace/Sidebar.tsx:36-45 | a page created from the dialog keeps the title as typed, empty content and `pinned` false |
| `Auth.DisplayName` | src/context/AuthContext.tsx:45 | the name is the prefix of the address before its first '@', the whole address when it has none |
| `Auth.DisplayNameOfAddress` | src/context/AuthContext.tsx:45 | the display name of `local@domain` is `local` |
| `Auth.DisplayNameWithoutAt` | src/context/AuthContext.tsx:45 | an address without '@' is its own display name |
| `Auth.Restore` | src/context/AuthContext.tsx:21-33 | a stored user is signed in; unparsable non-empty text is removed and nobody is signed in; an empty or missing slot signs nobody in |
| `Auth.LoginStep` | src/context/AuthContext.tsx:35-67 | succeeds exactly when email and password are non-empty, signing in and storing the user named after the address; otherwise throws "Invalid credentials" and changes nothing |
| `Auth.SignupStep` | src/context/AuthContext.tsx:69-101 | succeeds exactly when name, email and password are non-empty, signing in and storing that user; otherwise throws and changes nothing |
| `Auth.LogoutStep` | src/context/AuthContext.tsx:103-110 | nobody signed in and the slot empty |
| `Auth.CoherentIsInvariant` | src/context/AuthContext.tsx:21-110 | from the mount effect on, a user is signed in exactly when the slot holds that user, through login, signup and logout |
| `Auth.ReloadRestoresUser` | src/context/AuthContext.tsx:23-26 | a reload of a coherent session restores exactly its user |
| `Auth.LoginSurvivesReload` | src/context/AuthContext.tsx:42-49 | logging in as `local@domain` and reloading brings back the user named `local` |
| `Auth.UseAuth` | src/context/AuthContext.tsx:119-125 | the provider's value inside a provider; outside one, the error is thrown |
| `Auth.Provider.constructor` | src/context/AuthContext.tsx:17-18 | nobody signed in and loading, with the slot as found |
| `Auth.Provider.LoadStoredUser` | src/context/AuthContext.tsx:21-33 | the state becomes `Restore` of the slot and loading ends |
| `Auth.Provider.Login` | src/context/AuthContext.tsx:35-67 | the state and outcome are `LoginStep`'s, and loading is false whether it returned or threw |
| `Auth.Provider.Signup` | src/context/AuthContext.tsx:69-101 | the state and outcome are `SignupStep`'s, and loading is false afterwards |
| `Auth.Provider.Logout` | src/context/AuthContext.tsx:103-110 | the state becomes `LogoutStep`'s |
| `AuthModal.Toggled` | src/components/auth/AuthModal.tsx:41-43 | toggling always changes the mode |
| `AuthModal.ToggleTwice` | src/components/auth/AuthModal.tsx:41-43 | toggling twice restores the mode |
| `AuthModal.CallFor` | src/components/auth/AuthModal.tsx:29-33 | login mode makes the login call with email and password; signup mode makes the signup call with name, email and password |
| `AuthModal.SubmitSucceedsIff` | src/components/auth/AuthModal.tsx:25-39 | a submit returns, and so closes the dialog, exactly when the fields its mode sends are non-empty; a throw leaves the session unchanged |
| `AuthModal.FormFor` | src/components/auth/AuthModal.tsx:49-101 | the name input exists exactly in signup mode, email and password always come last, and submit is enabled exactly when not loading |
| `AuthModal.Modal.constructor` | src/components/auth/AuthModal.tsx:17-21 | the mode starts as the initial mode, the fields empty |
| `AuthModal.Modal.ToggleMode` | src/components/auth/AuthModal.tsx:41-43 | the mode is toggled; the fields are kept |
| `AuthModal.Modal.SetFields` | src/components/auth/AuthModal.tsx:55-90 | the typed fields are stored; the mode is kept |
| `AuthModal.Modal.HandleSubmit` | src/components/auth/AuthModal.tsx:25-39 | exactly the call for the mode is made; the session is that call's result; the dialog asks to close once exactly when the call returned |
| `PageEditor.PinnedFlag` | src/components/workspace/PageEditor.tsx:17 | the flag is true exactly when `pinned` is true; a missing field is false |
| `PageEditor.Editor.constructor` | src/components/workspace/PageEditor.tsx:15-17 | the local title, content and pin flag start as the page's |
| `PageEditor.Editor.Resync` | src/components/workspace/PageEditor.tsx:20-24 | a new page resets all three local fields |
| `PageEditor.Editor.HandleTitleChange` | src/components/workspace/PageEditor.tsx:27-35 | the local title changes and only `{title}` is emitted for the page's id |
| `PageEditor.Editor.HandleContentChange` | src/components/workspace/PageEditor.tsx:37-45 | the local content changes and only `{content}` is emitted for the page's id |
| `PageEditor.Editor.TogglePin` | src/components/workspace/PageEditor.tsx:47-51 | the flag is negated and exactly `{pinned: newValue}` is emitted for the page's id |
| `PageEditor.EditsTouchOneField` | src/components/workspace/PageEditor.tsx:27-51 | each emitted edit, once merged, changes only its field and the modification time |
| `PageEditor.TogglePinTwice` | src/components/workspace/PageEditor.tsx:47-51 | toggling twice restores the pin flag; a page without `pinned` ends with an explicit false |
| `PageEditor.TitleRoundTrip` | src/components/workspace/PageEditor.tsx:27-35 | after a title edit is merged, the page has that title with its content and pin flag kept |

## Left out

- Debounce timers: each title, content or name edit is modelled as the update it
  eventually emits. The cleanup function the handler returns is discarded by the
  input, so pending timers are never cancelled; overlapping timers are not modelled.
- Ids and times: `Date.now()` ids and `new Date()` stamps are parameters. The
  "page-", "collection-", "item-" and "user-" prefixes of generated ids are
  not modelled, so the model does not capture same-millisecond collisions.
- Local storage and JSON: the slot holds either a serialised user or text that
  does not parse. JSON that parses to something other than a user is not modelled.
- The one-second delay of the mock calls, the in-flight interval and overlapping
  calls are not modelled: `Provider.Login` and `Provider.Signup` are atomic and
  show `isLoading` only as false afterwards.
- Toasts, console logging, navigation (the workspace's redirect when nobody is
  signed in) and React rendering (markup, class names, icons, how React prints a
  value) are not modelled. Cells, titles and detail lines carry the JavaScript value.
- The browser's form validation (`required`, `type="email"`) runs before the
  dialog's submit handler. It is not modelled, so empty fields reach the session call.
- `toLowerCase` is modelled on ASCII letters only, and `trim` on the ECMAScript
  white-space and line-terminator characters.
- Numbers are reals: NaN is not modelled. A property lookup never sees
  inherited object members; a missing key reads as undefined.
- The calendar view is a placeholder and is modelled as one.
- The collection view's local name and view type are set only when the view
  is created and are not reset when another collection is shown. This is
  modelled as written: there is no resync method.
- The landing pages, the header, the dialog and dropdown wrappers, and the
  create menu's collection entry (which only logs) are not modelled. Neither
  is the sidebar's user badge and logout button.
- CollectionView.BoardPartition: stated only for boards whose column statuses
  are distinct. With duplicate options, an item whose value is one of them is
  shown once per duplicate column.
- Auth.Provider.LoadStoredUser: requires that nobody is signed in yet. The
  mount effect runs once, before any login.
