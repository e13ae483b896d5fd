/** The collection view (`src/components/workspace/CollectionView.tsx`): the table,
    board and list projections of a collection's items, computed from the schema in
    key order and the items in list order, and the view's local name and view-type
    state with the updates it emits. */
module CollectionView {
  import opened Wrappers
  import opened Types
  import Seqs
  import WorkspaceStore

  // ---------------------------------------------------------------- cells

  const CheckMark := "✓"
  const EmptyCircle := "○"

  /** What a table cell shows: a glyph for a checkbox, a pill for a select,
      and the raw value for every other type. */
  datatype Cell = Glyph(text: string) | Pill(shown: Value) | Plain(shown: Value)

  /** `renderCellContent(item, key)` for the field declared under `key`. */
  function CellContent(f: Field, v: Value): (c: Cell)
    ensures f.kind == Checkbox ==> c.Glyph? && (c.text == CheckMark <==> Truthy(v)) && (c.text == EmptyCircle <==> !Truthy(v))
    ensures f.kind == Select ==> c.Pill? && Truthy(c.shown) && (Truthy(v) ==> c.shown == v) && (!Truthy(v) ==> c.shown == Str("Not set"))
    ensures f.kind != Checkbox && f.kind != Select ==> c.Plain? && (Truthy(v) ==> c.shown == v) && (!Truthy(v) ==> c.shown == Str(""))
  {
    match f.kind
    case Checkbox => Glyph(if Truthy(v) then CheckMark else EmptyCircle)
    case Select => Pill(Or(v, "Not set"))
    case _ => Plain(Or(v, ""))
  }

  // ---------------------------------------------------------------- table

  datatype Row = Row(itemId: string, cells: seq<Cell>)

  /** The table: a header per schema key, a body row per item, and the trailing row
      whose cells are empty except the first, which holds the "+ New" control and
      the update it emits. */
  datatype Table = Table(headers: seq<string>, rows: seq<Row>, newRow: seq<Option<ItemPatch>>)

  /** The update every "+ Add item" / "+ New" control of the table and the list emits. */
  function NewItemPatch(collectionId: string): ItemPatch {
    ItemPatch(None, Some(collectionId), Some(map[]))
  }

  function Headers(schema: Schema): (r: seq<string>)
    ensures |r| == |schema|
    ensures forall i :: 0 <= i < |schema| ==> r[i] == schema[i].1.name
  {
    if schema == [] then [] else [schema[0].1.name] + Headers(schema[1..])
  }

  function Cells(schema: Schema, props: Properties): (r: seq<Cell>)
    ensures |r| == |schema|
    ensures forall i :: 0 <= i < |schema| ==> r[i] == CellContent(schema[i].1, Prop(props, schema[i].0))
  {
    if schema == [] then [] else [CellContent(schema[0].1, Prop(props, schema[0].0))] + Cells(schema[1..], props)
  }

  function Rows(schema: Schema, items: seq<CollectionItem>): (r: seq<Row>)
    ensures |r| == |items|
    ensures forall j :: 0 <= j < |items| ==> r[j] == Row(items[j].id, Cells(schema, items[j].properties))
  {
    if items == [] then [] else [Row(items[0].id, Cells(schema, items[0].properties))] + Rows(schema, items[1..])
  }

  /** The trailing row of a table with `n` columns. */
  function NewRow(n: nat, collectionId: string): (r: seq<Option<ItemPatch>>)
    ensures |r| == n
    ensures forall i :: 0 <= i < n ==> (r[i].Some? <==> i == 0)
    ensures n > 0 ==> r[0] == Some(NewItemPatch(collectionId))
  {
    seq(n, i => if i == 0 then Some(NewItemPatch(collectionId)) else None)
  }

  /** `renderTableView()`. */
  function TableOf(c: Collection, items: seq<CollectionItem>): (t: Table)
    ensures |t.headers| == |c.schema| && |t.newRow| == |c.schema| && |t.rows| == |items|
    ensures forall i :: 0 <= i < |c.schema| ==> t.headers[i] == c.schema[i].1.name
    ensures forall j :: 0 <= j < |items| ==> t.rows[j].itemId == items[j].id && |t.rows[j].cells| == |c.schema|
    ensures forall i, j :: 0 <= i < |c.schema| && 0 <= j < |items| ==>
              t.rows[j].cells[i] == CellContent(c.schema[i].1, Prop(items[j].properties, c.schema[i].0))
  {
    Table(Headers(c.schema), Rows(c.schema, items), NewRow(|c.schema|, c.id))
  }

  /** The table offers an add control exactly when the schema has a column to hold it,
      and that control adds an item with no properties to this collection. */
  lemma TableAddControl(c: Collection, items: seq<CollectionItem>)
    ensures var t := TableOf(c, items);
            (exists i :: 0 <= i < |t.newRow| && t.newRow[i].Some?) <==> |c.schema| > 0
    ensures var t := TableOf(c, items);
            forall i :: 0 <= i < |t.newRow| && t.newRow[i].Some? ==> i == 0 && t.newRow[i].value == NewItemPatch(c.id)
  {
    var t := TableOf(c, items);
    if |c.schema| > 0 {
      assert t.newRow[0].Some?;
    }
  }

  // ---------------------------------------------------------------- fields

  /** `Object.keys(schema).find(key => schema[key].type === kind)`. */
  function FirstKeyOfKind(schema: Schema, kind: FieldType): (r: Option<string>)
    ensures r.None? <==> forall i :: 0 <= i < |schema| ==> schema[i].1.kind != kind
    ensures r.Some? ==> exists i :: 0 <= i < |schema| && schema[i].0 == r.value && schema[i].1.kind == kind &&
                          forall j :: 0 <= j < i ==> schema[j].1.kind != kind
  {
    if schema == [] then None
    else if schema[0].1.kind == kind then Some(schema[0].0)
    else
      var r := FirstKeyOfKind(schema[1..], kind);
      assert r.Some? ==> exists i :: 1 <= i < |schema| && schema[i].0 == r.value && schema[i].1.kind == kind &&
                          forall j :: 1 <= j < i ==> schema[j].1.kind != kind by {
        if r.Some? {
          var i :| 0 <= i < |schema[1..]| && schema[1..][i].0 == r.value && schema[1..][i].1.kind == kind &&
                    forall j :: 0 <= j < i ==> schema[1..][j].1.kind != kind;
          assert schema[i + 1] == schema[1..][i];
          assert forall j :: 1 <= j < i + 1 ==> schema[j] == schema[1..][j - 1];
        }
      }
      r
  }

  /** The position of the first field of a kind: what `FirstKeyOfKind` finds, as an index. */
  function FirstIndexOfKind(schema: Schema, kind: FieldType): (r: Option<nat>)
    ensures r.None? <==> FirstKeyOfKind(schema, kind).None?
    ensures r.Some? ==> r.value < |schema| && schema[r.value].1.kind == kind &&
                        schema[r.value].0 == FirstKeyOfKind(schema, kind).value &&
                        forall j :: 0 <= j < r.value ==> schema[j].1.kind != kind
  {
    if schema == [] then None
    else if schema[0].1.kind == kind then Some(0)
    else
      var r := FirstIndexOfKind(schema[1..], kind);
      if r.None? then None else Some(r.value + 1)
  }

  /** The title an item gets on a card or a list row when the schema has a text field:
      the value at the first text field, or "Untitled". */
  function TitleAt(props: Properties, titleKey: string): (v: Value)
    ensures Truthy(v)
    ensures Truthy(Prop(props, titleKey)) ==> v == Prop(props, titleKey)
    ensures !Truthy(Prop(props, titleKey)) ==> v == Str("Untitled")
  {
    Or(Prop(props, titleKey), "Untitled")
  }

  // ---------------------------------------------------------------- board

  datatype Detail = Detail(fieldName: string, shown: Value)

  /** A card: its item, its title line (absent when the schema has no text field)
      and a detail line per remaining field. */
  datatype Card = Card(itemId: string, title: Option<Value>, details: seq<Detail>)

  datatype Column = Column(status: string, cards: seq<Card>, add: ItemPatch)

  datatype Board =
    | NeedsSelectField                                 // the placeholder of a schema with no select field
    | Board(statusKey: string, columns: seq<Column>)

  /** The options a grouping field offers: its own, or the defaults when it declares none. */
  function Statuses(f: Field): (r: seq<string>)
    ensures f.options.Some? ==> r == f.options.value
    ensures f.options.None? ==> r == DefaultStatuses
  {
    f.options.GetOr(DefaultStatuses)
  }

  /** `item.properties[statusKey] === status`: strict, so only the string itself matches. */
  predicate HasStatus(it: CollectionItem, statusKey: string, status: string) {
    Prop(it.properties, statusKey) == Str(status)
  }

  /** The items of one column, in list order. */
  function ColumnItems(items: seq<CollectionItem>, statusKey: string, status: string): (r: seq<CollectionItem>)
    ensures |r| <= |items|
    ensures forall k :: 0 <= k < |r| ==> r[k] in items && HasStatus(r[k], statusKey, status)
    ensures forall k :: 0 <= k < |items| && HasStatus(items[k], statusKey, status) ==> items[k] in r
  {
    Seqs.Filter(items, (it: CollectionItem) => HasStatus(it, statusKey, status))
  }

  lemma ColumnItemsKeepOrder(items: seq<CollectionItem>, statusKey: string, status: string)
    ensures Seqs.IsSubseq(ColumnItems(items, statusKey, status), items)
  {
    Seqs.FilterIsSubseq(items, (it: CollectionItem) => HasStatus(it, statusKey, status));
  }

  /** The fields a card lists below its title: every field that is neither the
      grouping field nor text-typed, in schema order. */
  function DetailFields(schema: Schema, statusKey: string): (r: Schema)
    ensures forall k :: 0 <= k < |r| ==> r[k] in schema && r[k].0 != statusKey && r[k].1.kind != Text
    ensures forall k :: 0 <= k < |schema| && schema[k].0 != statusKey && schema[k].1.kind != Text ==> schema[k] in r
    ensures Seqs.IsSubseq(r, schema)
  {
    var p := (e: (string, Field)) => e.0 != statusKey && e.1.kind != Text;
    Seqs.FilterIsSubseq(schema, p);
    Seqs.Filter(schema, p)
  }

  function DetailLines(fields: Schema, props: Properties): (r: seq<Detail>)
    ensures |r| == |fields|
    ensures forall k :: 0 <= k < |fields| ==>
              r[k].fieldName == fields[k].1.name && r[k].shown == Or(Prop(props, fields[k].0), "-")
  {
    if fields == [] then [] else [Detail(fields[0].1.name, Or(Prop(props, fields[0].0), "-"))] + DetailLines(fields[1..], props)
  }

  function CardOf(schema: Schema, statusKey: string, it: CollectionItem): (c: Card)
    ensures c.itemId == it.id
    ensures c.title.None? <==> FirstKeyOfKind(schema, Text).None?
    ensures c.title.Some? ==> c.title.value == TitleAt(it.properties, FirstKeyOfKind(schema, Text).value)
    ensures c.details == DetailLines(DetailFields(schema, statusKey), it.properties)
  {
    var titleKey := FirstKeyOfKind(schema, Text);
    Card(it.id,
         if titleKey.Some? then Some(TitleAt(it.properties, titleKey.value)) else None,
         DetailLines(DetailFields(schema, statusKey), it.properties))
  }

  function Cards(schema: Schema, statusKey: string, items: seq<CollectionItem>): (r: seq<Card>)
    ensures |r| == |items|
    ensures forall k :: 0 <= k < |items| ==> r[k] == CardOf(schema, statusKey, items[k])
  {
    if items == [] then [] else [CardOf(schema, statusKey, items[0])] + Cards(schema, statusKey, items[1..])
  }

  /** The update a column's "+ Add item" emits: an item in this collection with the
      column's status already set. */
  function ColumnAddPatch(collectionId: string, statusKey: string, status: string): ItemPatch {
    ItemPatch(None, Some(collectionId), Some(map[statusKey := Str(status)]))
  }

  function Columns(c: Collection, items: seq<CollectionItem>, statusKey: string, statuses: seq<string>): (r: seq<Column>)
    ensures |r| == |statuses|
    ensures forall k :: 0 <= k < |statuses| ==>
              r[k] == Column(statuses[k], Cards(c.schema, statusKey, ColumnItems(items, statusKey, statuses[k])),
                             ColumnAddPatch(c.id, statusKey, statuses[k]))
  {
    if statuses == [] then []
    else [Column(statuses[0], Cards(c.schema, statusKey, ColumnItems(items, statusKey, statuses[0])),
                 ColumnAddPatch(c.id, statusKey, statuses[0]))]
         + Columns(c, items, statusKey, statuses[1..])
  }

  /** `renderBoardView()`. The grouping key is tested for truthiness, so a select field
      stored under the empty key counts as no select field at all. */
  function BoardOf(c: Collection, items: seq<CollectionItem>): (b: Board)
    ensures b.NeedsSelectField? <==> FirstKeyOfKind(c.schema, Select).None? || FirstKeyOfKind(c.schema, Select) == Some("")
    ensures b.Board? ==> exists i :: 0 <= i < |c.schema| && c.schema[i].0 == b.statusKey && c.schema[i].1.kind == Select &&
                           (forall j :: 0 <= j < i ==> c.schema[j].1.kind != Select) &&
                           |b.columns| == |Statuses(c.schema[i].1)| &&
                           forall k :: 0 <= k < |b.columns| ==> b.columns[k].status == Statuses(c.schema[i].1)[k]
    ensures b.Board? ==> forall k :: 0 <= k < |b.columns| ==>
                           b.columns[k].cards == Cards(c.schema, b.statusKey, ColumnItems(items, b.statusKey, b.columns[k].status)) &&
                           b.columns[k].add == ColumnAddPatch(c.id, b.statusKey, b.columns[k].status)
  {
    var i := FirstIndexOfKind(c.schema, Select);
    if i.None? || c.schema[i.value].0 == "" then NeedsSelectField
    else
      var (statusKey, statusField) := c.schema[i.value];
      Board(statusKey, Columns(c, items, statusKey, Statuses(statusField)))
  }

  /** A schema without a select field gets the placeholder and no columns. */
  lemma NoSelectFieldNoBoard(c: Collection, items: seq<CollectionItem>)
    requires forall i :: 0 <= i < |c.schema| ==> c.schema[i].1.kind != Select
    ensures BoardOf(c, items) == NeedsSelectField
  {
  }

  /** As written, a first select field under the empty key also yields the placeholder,
      although the table shows that field as a column. */
  lemma EmptyKeySelectFieldShowsPlaceholder(c: Collection, items: seq<CollectionItem>, f: Field)
    requires f.kind == Select && |c.schema| > 0 && c.schema[0] == ("", f)
    ensures BoardOf(c, items) == NeedsSelectField
    ensures |TableOf(c, items).headers| == |c.schema| && TableOf(c, items).headers[0] == f.name
  {
  }

  /** The columns are the grouping field's options in declared order, the defaults only
      when it declares none: declared but empty options give a board with no columns. */
  lemma BoardColumnsFollowOptions(c: Collection, items: seq<CollectionItem>, i: nat)
    requires FirstIndexOfKind(c.schema, Select) == Some(i) && c.schema[i].0 != ""
    ensures var b := BoardOf(c, items);
            b.Board? && b.statusKey == c.schema[i].0 &&
            ColumnStatuses(b.columns) == c.schema[i].1.options.GetOr(DefaultStatuses)
  {
    var b := BoardOf(c, items);
    assert ColumnStatuses(b.columns) == Statuses(c.schema[i].1);
  }

  // ---------------------------------------------------------------- board partition

  /** The statuses of a board's columns, in column order. */
  function ColumnStatuses(cols: seq<Column>): (r: seq<string>)
    ensures |r| == |cols| && forall k :: 0 <= k < |cols| ==> r[k] == cols[k].status
  {
    if cols == [] then [] else [cols[0].status] + ColumnStatuses(cols[1..])
  }

  /** The number of cards on a board. */
  function CardCount(cols: seq<Column>): nat {
    if cols == [] then 0 else |cols[0].cards| + CardCount(cols[1..])
  }

  /** The grouping value of `it` is one of `statuses`, as a string. */
  predicate InStatuses(it: CollectionItem, statusKey: string, statuses: seq<string>) {
    Prop(it.properties, statusKey).Str? && Prop(it.properties, statusKey).s in statuses
  }

  /** The items a board shows in none of its columns. */
  function Dropped(items: seq<CollectionItem>, statusKey: string, statuses: seq<string>): (r: seq<CollectionItem>)
    ensures forall k :: 0 <= k < |r| ==> r[k] in items && !InStatuses(r[k], statusKey, statuses)
    ensures forall k :: 0 <= k < |items| && !InStatuses(items[k], statusKey, statuses) ==> items[k] in r
  {
    Seqs.Filter(items, (it: CollectionItem) => !InStatuses(it, statusKey, statuses))
  }

  /** The number of column memberships of `items`: the sum of the columns' sizes. */
  function ColumnTotal(items: seq<CollectionItem>, statusKey: string, statuses: seq<string>): nat {
    if statuses == [] then 0
    else |ColumnItems(items, statusKey, statuses[0])| + ColumnTotal(items, statusKey, statuses[1..])
  }

  /** The number of columns `it` belongs to. */
  function Memberships(it: CollectionItem, statusKey: string, statuses: seq<string>): nat {
    if statuses == [] then 0
    else (if HasStatus(it, statusKey, statuses[0]) then 1 else 0) + Memberships(it, statusKey, statuses[1..])
  }

  /** With distinct statuses an item belongs to one column when its value is one of
      them, and to none otherwise. */
  lemma {:induction false} MembershipsOfDistinct(it: CollectionItem, statusKey: string, statuses: seq<string>)
    requires forall k, l :: 0 <= k < l < |statuses| ==> statuses[k] != statuses[l]
    ensures Memberships(it, statusKey, statuses) == if InStatuses(it, statusKey, statuses) then 1 else 0
  {
    if statuses != [] {
      MembershipsOfDistinct(it, statusKey, statuses[1..]);
      if HasStatus(it, statusKey, statuses[0]) {
        assert statuses[0] !in statuses[1..] by {
          forall k | 0 <= k < |statuses[1..]| ensures statuses[1..][k] != statuses[0] {
            assert statuses[1..][k] == statuses[k + 1];
          }
        }
      }
      assert statuses == [statuses[0]] + statuses[1..];
    }
  }

  /** Taking the first item off the list removes exactly its memberships. */
  lemma {:induction false} ColumnTotalUnfold(items: seq<CollectionItem>, statusKey: string, statuses: seq<string>)
    requires items != []
    ensures ColumnTotal(items, statusKey, statuses) ==
            ColumnTotal(items[1..], statusKey, statuses) + Memberships(items[0], statusKey, statuses)
  {
    if statuses != [] {
      ColumnTotalUnfold(items, statusKey, statuses[1..]);
    }
  }

  lemma {:induction false} ColumnTotalPartition(items: seq<CollectionItem>, statusKey: string, statuses: seq<string>)
    requires forall k, l :: 0 <= k < l < |statuses| ==> statuses[k] != statuses[l]
    ensures ColumnTotal(items, statusKey, statuses) + |Dropped(items, statusKey, statuses)| == |items|
  {
    if items == [] {
      ColumnTotalEmpty(statusKey, statuses);
    } else {
      ColumnTotalPartition(items[1..], statusKey, statuses);
      ColumnTotalUnfold(items, statusKey, statuses);
      MembershipsOfDistinct(items[0], statusKey, statuses);
    }
  }

  lemma {:induction false} ColumnTotalEmpty(statusKey: string, statuses: seq<string>)
    ensures ColumnTotal([], statusKey, statuses) == 0
  {
    if statuses != [] {
      ColumnTotalEmpty(statusKey, statuses[1..]);
    }
  }

  lemma {:induction false} CardCountOfColumns(c: Collection, items: seq<CollectionItem>, statusKey: string, statuses: seq<string>)
    ensures CardCount(Columns(c, items, statusKey, statuses)) == ColumnTotal(items, statusKey, statuses)
  {
    if statuses != [] {
      CardCountOfColumns(c, items, statusKey, statuses[1..]);
      var cols := Columns(c, items, statusKey, statuses);
      assert cols[1..] == Columns(c, items, statusKey, statuses[1..]);
    }
  }

  /** The board partitions the items: when its columns have distinct statuses, every
      item is on exactly one column or, when its grouping value is none of those
      statuses, on none, so the cards and the dropped items add up to the items. */
  lemma BoardPartition(c: Collection, items: seq<CollectionItem>)
    requires BoardOf(c, items).Board?
    requires var cols := BoardOf(c, items).columns;
             forall k, l :: 0 <= k < l < |cols| ==> cols[k].status != cols[l].status
    ensures var b := BoardOf(c, items);
            CardCount(b.columns) + |Dropped(items, b.statusKey, ColumnStatuses(b.columns))| == |items|
  {
    var i := FirstIndexOfKind(c.schema, Select).value;
    var (statusKey, field) := c.schema[i];
    var ss := Statuses(field);
    var b := BoardOf(c, items);
    assert b.columns == Columns(c, items, statusKey, ss);
    assert ColumnStatuses(b.columns) == ss;
    CardCountOfColumns(c, items, statusKey, ss);
    ColumnTotalPartition(items, statusKey, ss);
  }

  /** An item added through a column's "+ Add item" joins the end of that column's
      items on the next render. */
  lemma ColumnAddLandsInColumn(c: Collection, items: seq<CollectionItem>, statusKey: string, status: string, newId: string)
    requires c.id != ""
    ensures var added := WorkspaceStore.AddItem(items, ColumnAddPatch(c.id, statusKey, status), newId);
            ColumnItems(added, statusKey, status) == ColumnItems(items, statusKey, status) + [added[|items|]]
  {
    var added := WorkspaceStore.AddItem(items, ColumnAddPatch(c.id, statusKey, status), newId);
    var it := added[|items|];
    assert added == items + [it];
    Seqs.FilterAppend(items, [it], (x: CollectionItem) => HasStatus(x, statusKey, status));
    assert HasStatus(it, statusKey, status);
  }

  // ---------------------------------------------------------------- list

  datatype ListRow = ListRow(itemId: string, title: Value)

  datatype ListOf = ListOf(rows: seq<ListRow>, add: ItemPatch)

  function ListRows(schema: Schema, items: seq<CollectionItem>): (r: seq<ListRow>)
    ensures |r| == |items|
    ensures forall j :: 0 <= j < |items| ==> r[j].itemId == items[j].id && Truthy(r[j].title)
    ensures forall j :: 0 <= j < |items| ==>
              r[j].title == (match FirstKeyOfKind(schema, Text)
                             case Some(k) => if k != "" then TitleAt(items[j].properties, k) else Str("Untitled")
                             case None => Str("Untitled"))
  {
    if items == [] then []
    else
      var titleKey := FirstKeyOfKind(schema, Text);
      var title := if titleKey.Some? && titleKey.value != "" then TitleAt(items[0].properties, titleKey.value) else Str("Untitled");
      [ListRow(items[0].id, title)] + ListRows(schema, items[1..])
  }

  /** `renderListView()`. */
  function ListViewOf(c: Collection, items: seq<CollectionItem>): (l: ListOf)
    ensures |l.rows| == |items| && l.add == NewItemPatch(c.id)
    ensures forall j :: 0 <= j < |items| ==> l.rows[j].itemId == items[j].id
    ensures (forall i :: 0 <= i < |c.schema| ==> c.schema[i].1.kind != Text) ==>
              forall j :: 0 <= j < |items| ==> l.rows[j].title == Str("Untitled")
  {
    ListOf(ListRows(c.schema, items), NewItemPatch(c.id))
  }

  // ---------------------------------------------------------------- the view

  datatype Content =
    | TableContent(table: Table)
    | BoardContent(board: Board)
    | ListContent(list: ListOf)
    | CalendarPlaceholder

  /** `renderViewContent()` for the view type currently selected. */
  function ViewContent(c: Collection, viewType: ViewType, items: seq<CollectionItem>): (r: Content)
    ensures viewType == TableView <==> r.TableContent?
    ensures viewType == BoardView <==> r.BoardContent?
    ensures viewType == ListView <==> r.ListContent?
    ensures viewType == CalendarView <==> r.CalendarPlaceholder?
    ensures r.TableContent? ==> r.table == TableOf(c, items)
    ensures r.BoardContent? ==> r.board == BoardOf(c, items)
    ensures r.ListContent? ==> r.list == ListViewOf(c, items)
  {
    match viewType
    case TableView => TableContent(TableOf(c, items))
    case BoardView => BoardContent(BoardOf(c, items))
    case ListView => ListContent(ListViewOf(c, items))
    case CalendarView => CalendarPlaceholder
  }

  /** The view follows the items it is given: after the list's "+ Add item" is handled,
      the list view shows the rows it showed before and one more, "Untitled", for the
      new item, which has no properties yet. */
  lemma ListAddShowsNewRow(c: Collection, items: seq<CollectionItem>, newId: string)
    requires c.id != ""
    ensures var before := ViewContent(c, ListView, items);
            var after := ViewContent(c, ListView, WorkspaceStore.AddItem(items, before.list.add, newId));
            |after.list.rows| == |items| + 1 && after.list.rows[..|items|] == before.list.rows &&
            after.list.rows[|items|] == ListRow(newId, Str("Untitled"))
  {
    var before := ViewContent(c, ListView, items);
    var added := WorkspaceStore.AddItem(items, before.list.add, newId);
    var after := ViewContent(c, ListView, added);
    assert added[..|items|] == items;
    assert forall j :: 0 <= j < |items| ==> added[j] == items[j];
    assert after.list.rows[..|items|] == before.list.rows;
  }

  /** The component's local state: the name being edited and the selected view type,
      both initialised from the collection it is first given and kept across renders. */
  class View {
    var name: string
    var viewType: ViewType

    constructor (c: Collection)
      ensures name == c.name && viewType == c.viewType
    {
      name := c.name;
      viewType := c.viewType;
    }

    /** What a render shows for the collection and items it is given now. */
    function Content(c: Collection, items: seq<CollectionItem>): Content
      reads this
    {
      ViewContent(c, viewType, items)
    }

    /** `changeViewType(type)`: switches the view and emits `{ viewType: type }`. */
    method ChangeViewType(t: ViewType) returns (emit: CollectionPatch)
      modifies this
      ensures viewType == t && name == old(name)
      ensures emit == EmptyCollectionPatch.(viewType := Some(t))
    {
      viewType := t;
      emit := EmptyCollectionPatch.(viewType := Some(t));
    }

    /** `handleNameChange`: sets the name at once and (after the quiet period) emits `{ name: newName }`. */
    method ChangeName(newName: string) returns (emit: CollectionPatch)
      modifies this
      ensures name == newName && viewType == old(viewType)
      ensures emit == EmptyCollectionPatch.(name := Some(newName))
    {
      name := newName;
      emit := EmptyCollectionPatch.(name := Some(newName));
    }
  }
}
