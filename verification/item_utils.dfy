/**
 * The `Item` capability and the `ItemUtils` accessors built on it. Every
 * implementor hands out its embedded `ItemDoc`; the accessors (`id`, `name`,
 * `path`, `brief`, `desc`, `sections`) read one field of that record, so they
 * are written once for every implementor.
 */
module ItemUtils {
  import opened Wrappers
  import opened DocModel

  /**
   * The implementors of `Item`: the item union and the seven record types
   * (constants, functions and type aliases are all `SimpleItemDoc`).
   */
  datatype AnyItem =
    | OfTag(itemTag: ItemTag)
    | OfSimple(simple: SimpleItemDoc)
    | OfMod(modDoc: ModDoc)
    | OfNmod(nmodDoc: NmodDoc)
    | OfEnum(enumDoc: EnumDoc)
    | OfTrait(traitDoc: TraitDoc)
    | OfImpl(implDoc: ImplDoc)
    | OfStruct(structDoc: StructDoc)

  /**
   * `item()` of the item union: the record embedded in whichever variant is
   * active, which is what the payload's own `Item` impl hands out.
   */
  function TagItem(t: ItemTag): (r: ItemDoc)
    ensures r == RecordOf(Payload(t))
  {
    match t
    case ModTag(doc) => doc.item
    case NmodTag(doc) => doc.item
    case FnTag(doc) => doc.item
    case ConstTag(doc) => doc.item
    case EnumTag(doc) => doc.item
    case TraitTag(doc) => doc.item
    case ImplTag(doc) => doc.item
    case TyTag(doc) => doc.item
    case StructTag(doc) => doc.item
  }

  /**
   * `item()` of every implementor: the record of the underlying record
   * value, looking through the item union.
   */
  function ItemOf(a: AnyItem): (r: ItemDoc)
    ensures r == RecordOf(Unwrap(a))
  {
    match a
    case OfTag(t) => TagItem(t)
    case OfSimple(doc) => doc.item
    case OfMod(doc) => doc.item
    case OfNmod(doc) => doc.item
    case OfEnum(doc) => doc.item
    case OfTrait(doc) => doc.item
    case OfImpl(doc) => doc.item
    case OfStruct(doc) => doc.item
  }

  /** The payload of an item-union value, viewed through its own `Item` impl. */
  function Payload(t: ItemTag): (a: AnyItem)
    ensures !a.OfTag?
  {
    match t
    case ModTag(doc) => OfMod(doc)
    case NmodTag(doc) => OfNmod(doc)
    case FnTag(doc) => OfSimple(doc)
    case ConstTag(doc) => OfSimple(doc)
    case EnumTag(doc) => OfEnum(doc)
    case TraitTag(doc) => OfTrait(doc)
    case ImplTag(doc) => OfImpl(doc)
    case TyTag(doc) => OfSimple(doc)
    case StructTag(doc) => OfStruct(doc)
  }

  /** Looks through the item union: a tagged value becomes its payload. */
  function Unwrap(a: AnyItem): (b: AnyItem)
    ensures !b.OfTag?
  {
    if a.OfTag? then Payload(a.itemTag) else a
  }

  /** The `item` field of a record value (every implementor but the union). */
  function RecordOf(b: AnyItem): ItemDoc
    requires !b.OfTag?
  {
    match b
    case OfSimple(doc) => doc.item
    case OfMod(doc) => doc.item
    case OfNmod(doc) => doc.item
    case OfEnum(doc) => doc.item
    case OfTrait(doc) => doc.item
    case OfImpl(doc) => doc.item
    case OfStruct(doc) => doc.item
  }

  /** `id()`: the `id` of the record the underlying record value embeds. */
  function Id(a: AnyItem): (r: AstId)
    ensures r == RecordOf(Unwrap(a)).id
  {
    ItemOf(a).id
  }

  /** `name()`: the `name` of the record the underlying record value embeds. */
  function Name(a: AnyItem): (r: string)
    ensures r == RecordOf(Unwrap(a)).name
  {
    ItemOf(a).name
  }

  /** `path()`: the `path` of the record the underlying record value embeds. */
  function Path(a: AnyItem): (r: seq<string>)
    ensures r == RecordOf(Unwrap(a)).path
  {
    ItemOf(a).path
  }

  /** `brief()`: the `brief` of the record the underlying record value embeds. */
  function Brief(a: AnyItem): (r: Option<string>)
    ensures r == RecordOf(Unwrap(a)).brief
  {
    ItemOf(a).brief
  }

  /** `desc()`: the `desc` of the record the underlying record value embeds. */
  function Desc(a: AnyItem): (r: Option<string>)
    ensures r == RecordOf(Unwrap(a)).desc
  {
    ItemOf(a).desc
  }

  /** `sections()`: the `sections` of the record the underlying record value embeds. */
  function Sections(a: AnyItem): (r: seq<Section>)
    ensures r == RecordOf(Unwrap(a)).sections
  {
    ItemOf(a).sections
  }

  /**
   * Reading through the item union is transparent: `item()` and every
   * accessor give on a tagged value what they give on its payload.
   */
  lemma TagForwardsToPayload(t: ItemTag)
    ensures ItemOf(OfTag(t)) == ItemOf(Payload(t))
    ensures Id(OfTag(t)) == Id(Payload(t))
    ensures Name(OfTag(t)) == Name(Payload(t))
    ensures Path(OfTag(t)) == Path(Payload(t))
    ensures Brief(OfTag(t)) == Brief(Payload(t))
    ensures Desc(OfTag(t)) == Desc(Payload(t))
    ensures Sections(OfTag(t)) == Sections(Payload(t))
  {
  }

  /**
   * The six accessors and the reexport flag together recover the whole
   * embedded record: nothing in it is hidden from a reader but `reexport`.
   */
  lemma AccessorsRebuildRecord(a: AnyItem)
    ensures ItemOf(a) == ItemDoc(Id(a), Name(a), Path(a), Brief(a), Desc(a), Sections(a), ItemOf(a).reexport)
  {
  }

  /**
   * `reexport` takes part in equality but in no accessor: two items whose
   * records differ only in that flag look the same through every accessor,
   * yet are unequal.
   */
  lemma ReexportOnlyAffectsEquality(a: AnyItem, b: AnyItem)
    requires ItemOf(b) == ItemOf(a).(reexport := !ItemOf(a).reexport)
    ensures a != b
    ensures ItemOf(a) != ItemOf(b)
    ensures Id(a) == Id(b) && Name(a) == Name(b) && Path(a) == Path(b)
    ensures Brief(a) == Brief(b) && Desc(a) == Desc(b) && Sections(a) == Sections(b)
  {
  }
}
