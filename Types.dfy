/** The entities of the workspace (`src/lib/types.ts`), the loosely typed property
    values items carry, and the `Partial<T>` records that updates are made of. */
module Types {
  import opened Wrappers

  /** A JavaScript value as stored in an item's property bag (typed `any`).
      Numbers are reals; NaN is not modelled. `Object` stands for any object or array. */
  datatype Value = Undefined | Null | Bool(b: bool) | Num(x: real) | Str(s: string) | Object

  /** JavaScript truthiness, on which every `value || fallback` of the views depends. */
  predicate Truthy(v: Value) {
    match v
    case Undefined => false
    case Null => false
    case Bool(b) => b
    case Num(x) => x != 0.0
    case Str(s) => s != ""
    case Object => true
  }

  /** `v || fallback` for a string fallback. */
  function Or(v: Value, fallback: string): (r: Value)
    ensures Truthy(v) ==> r == v
    ensures !Truthy(v) ==> r == Str(fallback)
    ensures fallback != "" ==> Truthy(r)
  {
    if Truthy(v) then v else Str(fallback)
  }

  /** A property bag, read as `properties[key]`: undefined when the key is missing. */
  type Properties = map<string, Value>

  function Prop(props: Properties, key: string): Value {
    if key in props then props[key] else Undefined
  }

  /** A point in time (a `Date`), in milliseconds. */
  type Time = int

  datatype User = User(id: string, name: string, email: string, avatar: Option<string>)

  datatype Page = Page(
    id: string,
    title: string,
    emoji: Option<string>,
    content: string,
    createdAt: Time,
    updatedAt: Time,
    parentId: Option<string>,
    pinned: Option<bool>)

  datatype ViewType = TableView | BoardView | CalendarView | ListView

  datatype FieldType = Text | Number | Select | Date | File | Checkbox

  datatype Field = Field(kind: FieldType, name: string, options: Option<seq<string>>)

  /** A collection schema in `Object.keys` order: (key, field) pairs. */
  type Schema = seq<(string, Field)>

  /** The keys of an object are distinct; a schema built from one has distinct keys. */
  predicate DistinctKeys(schema: Schema) {
    forall i, j :: 0 <= i < j < |schema| ==> schema[i].0 != schema[j].0
  }

  /** The statuses a select field offers when it declares no options of its own. */
  const DefaultStatuses: seq<string> := ["To Do", "In Progress", "Done"]

  datatype Collection = Collection(
    id: string,
    name: string,
    icon: Option<string>,
    schema: Schema,
    viewType: ViewType)

  datatype CollectionItem = CollectionItem(id: string, collectionId: string, properties: Properties)

  /** `Partial<Page>`: a field that is `None` is absent from the update. */
  datatype PagePatch = PagePatch(
    id: Option<string>,
    title: Option<string>,
    emoji: Option<string>,
    content: Option<string>,
    createdAt: Option<Time>,
    updatedAt: Option<Time>,
    parentId: Option<string>,
    pinned: Option<bool>)

  const EmptyPagePatch := PagePatch(None, None, None, None, None, None, None, None)

  /** `Partial<Collection>`. */
  datatype CollectionPatch = CollectionPatch(
    id: Option<string>,
    name: Option<string>,
    icon: Option<string>,
    schema: Option<Schema>,
    viewType: Option<ViewType>)

  const EmptyCollectionPatch := CollectionPatch(None, None, None, None, None)

  /** `Partial<CollectionItem>`. */
  datatype ItemPatch = ItemPatch(id: Option<string>, collectionId: Option<string>, properties: Option<Properties>)

  /** The update `{ ...o, ...u }` makes to one field of `o`. */
  function Override<T>(u: Option<T>, o: T): T {
    u.GetOr(o)
  }

  /** The same for a field that is optional in the record itself. */
  function OverrideOptional<T>(u: Option<T>, o: Option<T>): Option<T> {
    if u.Some? then u else o
  }
}
