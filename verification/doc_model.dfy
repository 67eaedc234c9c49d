/**
 * The rustdoc document model: a closed, mutually recursive tree of
 * immutable values. Every documentable entity embeds one `ItemDoc` record.
 * Equality is Dafny's structural datatype equality, which is what
 * `#[deriving(Eq)]` gives every type here.
 */
module DocModel {
  import opened Wrappers

  type AstId = int

  /** The whole output of one documentation pass. */
  datatype Doc = Doc(pages: seq<Page>)

  datatype Page =
    | CratePage(crate: CrateDoc)
    | ItemPage(tag: ItemTag)

  datatype Implementation = Required | Provided

  /** One markdown-derived block of a doc comment. */
  datatype Section = Section(header: string, body: string)

  /** The crate root; `topmod` carries the crate's name. */
  datatype CrateDoc = CrateDoc(topmod: ModDoc)

  /** The closed union of the nine kinds of item a module may hold. */
  datatype ItemTag =
    | ModTag(modDoc: ModDoc)
    | NmodTag(nmodDoc: NmodDoc)
    | ConstTag(constDoc: ConstDoc)
    | FnTag(fnDoc: FnDoc)
    | EnumTag(enumDoc: EnumDoc)
    | TraitTag(traitDoc: TraitDoc)
    | ImplTag(implDoc: ImplDoc)
    | TyTag(tyDoc: TyDoc)
    | StructTag(structDoc: StructDoc)

  /** The record every entity embeds. `reexport` marks a node that re-exports another item. */
  datatype ItemDoc = ItemDoc(
    id: AstId,
    name: string,
    path: seq<string>,
    brief: Option<string>,
    desc: Option<string>,
    sections: seq<Section>,
    reexport: bool)

  /** Constants, functions and type aliases share this one shape. */
  datatype SimpleItemDoc = SimpleItemDoc(item: ItemDoc, sig: Option<string>)

  datatype ModDoc = ModDoc(item: ItemDoc, items: seq<ItemTag>, index: Option<Index>)

  /** A foreign (`extern`) module. */
  datatype NmodDoc = NmodDoc(item: ItemDoc, fns: seq<FnDoc>, index: Option<Index>)

  type ConstDoc = SimpleItemDoc

  type FnDoc = SimpleItemDoc

  datatype EnumDoc = EnumDoc(item: ItemDoc, variants: seq<VariantDoc>)

  datatype VariantDoc = VariantDoc(name: string, desc: Option<string>, sig: Option<string>)

  datatype TraitDoc = TraitDoc(item: ItemDoc, methods: seq<MethodDoc>)

  datatype MethodDoc = MethodDoc(
    name: string,
    brief: Option<string>,
    desc: Option<string>,
    sections: seq<Section>,
    sig: Option<string>,
    implementation: Implementation)

  datatype ImplDoc = ImplDoc(
    item: ItemDoc,
    boundsStr: Option<string>,
    traitTypes: seq<string>,
    selfTy: Option<string>,
    methods: seq<MethodDoc>)

  type TyDoc = SimpleItemDoc

  datatype StructDoc = StructDoc(item: ItemDoc, fields: seq<string>, sig: Option<string>)

  datatype Index = Index(entries: seq<IndexEntry>)

  /** One row of a link table; `link` is an opaque, format-specific target. */
  datatype IndexEntry = IndexEntry(kind: string, name: string, brief: Option<string>, link: string)
}
