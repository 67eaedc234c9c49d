/**
 * `PageUtils`, the narrowing helpers on a page list: each returns, in order,
 * the payloads of the item pages whose item carries one given tag, skipping
 * the crate page. It covers eight of the nine tags: there is no page-level
 * `structs`.
 */
module PageUtils {
  import opened Wrappers
  import opened DocModel
  import opened Narrowing
  import ModDocUtils

  /** An item page holding a `ModTag`. */
  function ModPage(x: ModDoc): Page
  {
    ItemPage(ModTag(x))
  }

  /** The pattern `ItemPage(ModTag(ref x))`. */
  function PageMod(p: Page): Option<ModDoc>
  {
    match p
    case ItemPage(ModTag(x)) => Some(x)
    case _ => None
  }

  /** An item page holding a `NmodTag`. */
  function NmodPage(x: NmodDoc): Page
  {
    ItemPage(NmodTag(x))
  }

  /** The pattern `ItemPage(NmodTag(ref x))`. */
  function PageNmod(p: Page): Option<NmodDoc>
  {
    match p
    case ItemPage(NmodTag(x)) => Some(x)
    case _ => None
  }

  /** An item page holding a `FnTag`. */
  function FnPage(x: FnDoc): Page
  {
    ItemPage(FnTag(x))
  }

  /** The pattern `ItemPage(FnTag(ref x))`. */
  function PageFn(p: Page): Option<FnDoc>
  {
    match p
    case ItemPage(FnTag(x)) => Some(x)
    case _ => None
  }

  /** An item page holding a `ConstTag`. */
  function ConstPage(x: ConstDoc): Page
  {
    ItemPage(ConstTag(x))
  }

  /** The pattern `ItemPage(ConstTag(ref x))`. */
  function PageConst(p: Page): Option<ConstDoc>
  {
    match p
    case ItemPage(ConstTag(x)) => Some(x)
    case _ => None
  }

  /** An item page holding a `EnumTag`. */
  function EnumPage(x: EnumDoc): Page
  {
    ItemPage(EnumTag(x))
  }

  /** The pattern `ItemPage(EnumTag(ref x))`. */
  function PageEnum(p: Page): Option<EnumDoc>
  {
    match p
    case ItemPage(EnumTag(x)) => Some(x)
    case _ => None
  }

  /** An item page holding a `TraitTag`. */
  function TraitPage(x: TraitDoc): Page
  {
    ItemPage(TraitTag(x))
  }

  /** The pattern `ItemPage(TraitTag(ref x))`. */
  function PageTrait(p: Page): Option<TraitDoc>
  {
    match p
    case ItemPage(TraitTag(x)) => Some(x)
    case _ => None
  }

  /** An item page holding a `ImplTag`. */
  function ImplPage(x: ImplDoc): Page
  {
    ItemPage(ImplTag(x))
  }

  /** The pattern `ItemPage(ImplTag(ref x))`. */
  function PageImpl(p: Page): Option<ImplDoc>
  {
    match p
    case ItemPage(ImplTag(x)) => Some(x)
    case _ => None
  }

  /** An item page holding a `TyTag`. */
  function TyPage(x: TyDoc): Page
  {
    ItemPage(TyTag(x))
  }

  /** The pattern `ItemPage(TyTag(ref x))`. */
  function PageTy(p: Page): Option<TyDoc>
  {
    match p
    case ItemPage(TyTag(x)) => Some(x)
    case _ => None
  }

  /**
   * The payloads of the `ModTag` item pages, in order: every result comes
   * from such a page, every such page is represented, and none is lost when
   * all pages are such pages.
   */
  function Mods(pages: seq<Page>): (r: seq<ModDoc>)
    ensures |r| <= |pages|
    ensures forall k :: 0 <= k < |r| ==> ItemPage(ModTag(r[k])) in pages
    ensures forall x :: ItemPage(ModTag(x)) in pages ==> x in r
    ensures r == [] <==> forall p :: p in pages ==> !(p.ItemPage? && p.tag.ModTag?)
    ensures (forall p :: p in pages ==> p.ItemPage? && p.tag.ModTag?) ==>
      |r| == |pages| && forall k :: 0 <= k < |r| ==> pages[k] == ItemPage(ModTag(r[k]))
  {
    FilterMapByTag(pages, PageMod, ModPage);
    FilterMap(pages, PageMod)
  }

  /**
   * The payloads of the `NmodTag` item pages, in order: every result comes
   * from such a page, every such page is represented, and none is lost when
   * all pages are such pages.
   */
  function Nmods(pages: seq<Page>): (r: seq<NmodDoc>)
    ensures |r| <= |pages|
    ensures forall k :: 0 <= k < |r| ==> ItemPage(NmodTag(r[k])) in pages
    ensures forall x :: ItemPage(NmodTag(x)) in pages ==> x in r
    ensures r == [] <==> forall p :: p in pages ==> !(p.ItemPage? && p.tag.NmodTag?)
    ensures (forall p :: p in pages ==> p.ItemPage? && p.tag.NmodTag?) ==>
      |r| == |pages| && forall k :: 0 <= k < |r| ==> pages[k] == ItemPage(NmodTag(r[k]))
  {
    FilterMapByTag(pages, PageNmod, NmodPage);
    FilterMap(pages, PageNmod)
  }

  /**
   * The payloads of the `FnTag` item pages, in order: every result comes
   * from such a page, every such page is represented, and none is lost when
   * all pages are such pages.
   */
  function Fns(pages: seq<Page>): (r: seq<FnDoc>)
    ensures |r| <= |pages|
    ensures forall k :: 0 <= k < |r| ==> ItemPage(FnTag(r[k])) in pages
    ensures forall x :: ItemPage(FnTag(x)) in pages ==> x in r
    ensures r == [] <==> forall p :: p in pages ==> !(p.ItemPage? && p.tag.FnTag?)
    ensures (forall p :: p in pages ==> p.ItemPage? && p.tag.FnTag?) ==>
      |r| == |pages| && forall k :: 0 <= k < |r| ==> pages[k] == ItemPage(FnTag(r[k]))
  {
    FilterMapByTag(pages, PageFn, FnPage);
    FilterMap(pages, PageFn)
  }

  /**
   * The payloads of the `ConstTag` item pages, in order: every result comes
   * from such a page, every such page is represented, and none is lost when
   * all pages are such pages.
   */
  function Consts(pages: seq<Page>): (r: seq<ConstDoc>)
    ensures |r| <= |pages|
    ensures forall k :: 0 <= k < |r| ==> ItemPage(ConstTag(r[k])) in pages
    ensures forall x :: ItemPage(ConstTag(x)) in pages ==> x in r
    ensures r == [] <==> forall p :: p in pages ==> !(p.ItemPage? && p.tag.ConstTag?)
    ensures (forall p :: p in pages ==> p.ItemPage? && p.tag.ConstTag?) ==>
      |r| == |pages| && forall k :: 0 <= k < |r| ==> pages[k] == ItemPage(ConstTag(r[k]))
  {
    FilterMapByTag(pages, PageConst, ConstPage);
    FilterMap(pages, PageConst)
  }

  /**
   * The payloads of the `EnumTag` item pages, in order: every result comes
   * from such a page, every such page is represented, and none is lost when
   * all pages are such pages.
   */
  function Enums(pages: seq<Page>): (r: seq<EnumDoc>)
    ensures |r| <= |pages|
    ensures forall k :: 0 <= k < |r| ==> ItemPage(EnumTag(r[k])) in pages
    ensures forall x :: ItemPage(EnumTag(x)) in pages ==> x in r
    ensures r == [] <==> forall p :: p in pages ==> !(p.ItemPage? && p.tag.EnumTag?)
    ensures (forall p :: p in pages ==> p.ItemPage? && p.tag.EnumTag?) ==>
      |r| == |pages| && forall k :: 0 <= k < |r| ==> pages[k] == ItemPage(EnumTag(r[k]))
  {
    FilterMapByTag(pages, PageEnum, EnumPage);
    FilterMap(pages, PageEnum)
  }

  /**
   * The payloads of the `TraitTag` item pages, in order: every result comes
   * from such a page, every such page is represented, and none is lost when
   * all pages are such pages.
   */
  function Traits(pages: seq<Page>): (r: seq<TraitDoc>)
    ensures |r| <= |pages|
    ensures forall k :: 0 <= k < |r| ==> ItemPage(TraitTag(r[k])) in pages
    ensures forall x :: ItemPage(TraitTag(x)) in pages ==> x in r
    ensures r == [] <==> forall p :: p in pages ==> !(p.ItemPage? && p.tag.TraitTag?)
    ensures (forall p :: p in pages ==> p.ItemPage? && p.tag.TraitTag?) ==>
      |r| == |pages| && forall k :: 0 <= k < |r| ==> pages[k] == ItemPage(TraitTag(r[k]))
  {
    FilterMapByTag(pages, PageTrait, TraitPage);
    FilterMap(pages, PageTrait)
  }

  /**
   * The payloads of the `ImplTag` item pages, in order: every result comes
   * from such a page, every such page is represented, and none is lost when
   * all pages are such pages.
   */
  function Impls(pages: seq<Page>): (r: seq<ImplDoc>)
    ensures |r| <= |pages|
    ensures forall k :: 0 <= k < |r| ==> ItemPage(ImplTag(r[k])) in pages
    ensures forall x :: ItemPage(ImplTag(x)) in pages ==> x in r
    ensures r == [] <==> forall p :: p in pages ==> !(p.ItemPage? && p.tag.ImplTag?)
    ensures (forall p :: p in pages ==> p.ItemPage? && p.tag.ImplTag?) ==>
      |r| == |pages| && forall k :: 0 <= k < |r| ==> pages[k] == ItemPage(ImplTag(r[k]))
  {
    FilterMapByTag(pages, PageImpl, ImplPage);
    FilterMap(pages, PageImpl)
  }

  /**
   * The payloads of the `TyTag` item pages, in order: every result comes
   * from such a page, every such page is represented, and none is lost when
   * all pages are such pages.
   */
  function Types(pages: seq<Page>): (r: seq<TyDoc>)
    ensures |r| <= |pages|
    ensures forall k :: 0 <= k < |r| ==> ItemPage(TyTag(r[k])) in pages
    ensures forall x :: ItemPage(TyTag(x)) in pages ==> x in r
    ensures r == [] <==> forall p :: p in pages ==> !(p.ItemPage? && p.tag.TyTag?)
    ensures (forall p :: p in pages ==> p.ItemPage? && p.tag.TyTag?) ==>
      |r| == |pages| && forall k :: 0 <= k < |r| ==> pages[k] == ItemPage(TyTag(r[k]))
  {
    FilterMapByTag(pages, PageTy, TyPage);
    FilterMap(pages, PageTy)
  }

  /** The pattern `ItemPage(ref t)`: the item a page documents, if any. */
  function AsItemPage(p: Page): Option<ItemTag>
  {
    match p
    case ItemPage(t) => Some(t)
    case CratePage(_) => None
  }

  /** The pattern `CratePage(ref c)`. */
  function AsCratePage(p: Page): Option<CrateDoc>
  {
    match p
    case CratePage(c) => Some(c)
    case ItemPage(_) => None
  }

  /** The pattern `ItemPage(StructTag(ref x))`, which no page-level helper uses. */
  function PageStruct(p: Page): Option<StructDoc>
  {
    match p
    case ItemPage(StructTag(x)) => Some(x)
    case _ => None
  }

  /** The items of the item pages, in order. */
  function ItemPageTags(pages: seq<Page>): seq<ItemTag>
  {
    FilterMap(pages, AsItemPage)
  }

  /** The payloads of the crate pages, in order. */
  function CratePages(pages: seq<Page>): seq<CrateDoc>
  {
    FilterMap(pages, AsCratePage)
  }

  /**
   * A page-level helper is the module-level helper of the same name applied
   * to the items of the item pages: the crate page drops out first, and then
   * the items are narrowed by tag exactly as a module's children are.
   */
  lemma PageFiltersAreModFilters(pages: seq<Page>, m: ModDoc)
    requires m.items == ItemPageTags(pages)
    ensures Mods(pages) == ModDocUtils.Mods(m)
    ensures Nmods(pages) == ModDocUtils.Nmods(m)
    ensures Fns(pages) == ModDocUtils.Fns(m)
    ensures Consts(pages) == ModDocUtils.Consts(m)
    ensures Enums(pages) == ModDocUtils.Enums(m)
    ensures Traits(pages) == ModDocUtils.Traits(m)
    ensures Impls(pages) == ModDocUtils.Impls(m)
    ensures Types(pages) == ModDocUtils.Types(m)
  {
    FilterMapFuse(pages, AsItemPage, ModDocUtils.AsMod, PageMod);
    FilterMapFuse(pages, AsItemPage, ModDocUtils.AsNmod, PageNmod);
    FilterMapFuse(pages, AsItemPage, ModDocUtils.AsFn, PageFn);
    FilterMapFuse(pages, AsItemPage, ModDocUtils.AsConst, PageConst);
    FilterMapFuse(pages, AsItemPage, ModDocUtils.AsEnum, PageEnum);
    FilterMapFuse(pages, AsItemPage, ModDocUtils.AsTrait, PageTrait);
    FilterMapFuse(pages, AsItemPage, ModDocUtils.AsImpl, PageImpl);
    FilterMapFuse(pages, AsItemPage, ModDocUtils.AsTy, PageTy);
  }

  /** Crate pages are invisible to every page-level helper, wherever they sit. */
  lemma CratePagesSkipped(a: seq<Page>, c: CrateDoc, b: seq<Page>)
    ensures Mods(a + [CratePage(c)] + b) == Mods(a + b)
    ensures Nmods(a + [CratePage(c)] + b) == Nmods(a + b)
    ensures Fns(a + [CratePage(c)] + b) == Fns(a + b)
    ensures Consts(a + [CratePage(c)] + b) == Consts(a + b)
    ensures Enums(a + [CratePage(c)] + b) == Enums(a + b)
    ensures Traits(a + [CratePage(c)] + b) == Traits(a + b)
    ensures Impls(a + [CratePage(c)] + b) == Impls(a + b)
    ensures Types(a + [CratePage(c)] + b) == Types(a + b)
  {
    FilterMapSkips(a, CratePage(c), b, PageMod);
    FilterMapSkips(a, CratePage(c), b, PageNmod);
    FilterMapSkips(a, CratePage(c), b, PageFn);
    FilterMapSkips(a, CratePage(c), b, PageConst);
    FilterMapSkips(a, CratePage(c), b, PageEnum);
    FilterMapSkips(a, CratePage(c), b, PageTrait);
    FilterMapSkips(a, CratePage(c), b, PageImpl);
    FilterMapSkips(a, CratePage(c), b, PageTy);
  }

  /**
   * Struct pages are invisible to every page-level helper as well: the page
   * level has no `structs`, so a struct page is reachable only by walking
   * the pages directly.
   */
  lemma StructPagesSkipped(a: seq<Page>, s: StructDoc, b: seq<Page>)
    ensures Mods(a + [ItemPage(StructTag(s))] + b) == Mods(a + b)
    ensures Nmods(a + [ItemPage(StructTag(s))] + b) == Nmods(a + b)
    ensures Fns(a + [ItemPage(StructTag(s))] + b) == Fns(a + b)
    ensures Consts(a + [ItemPage(StructTag(s))] + b) == Consts(a + b)
    ensures Enums(a + [ItemPage(StructTag(s))] + b) == Enums(a + b)
    ensures Traits(a + [ItemPage(StructTag(s))] + b) == Traits(a + b)
    ensures Impls(a + [ItemPage(StructTag(s))] + b) == Impls(a + b)
    ensures Types(a + [ItemPage(StructTag(s))] + b) == Types(a + b)
  {
    FilterMapSkips(a, ItemPage(StructTag(s)), b, PageMod);
    FilterMapSkips(a, ItemPage(StructTag(s)), b, PageNmod);
    FilterMapSkips(a, ItemPage(StructTag(s)), b, PageFn);
    FilterMapSkips(a, ItemPage(StructTag(s)), b, PageConst);
    FilterMapSkips(a, ItemPage(StructTag(s)), b, PageEnum);
    FilterMapSkips(a, ItemPage(StructTag(s)), b, PageTrait);
    FilterMapSkips(a, ItemPage(StructTag(s)), b, PageImpl);
    FilterMapSkips(a, ItemPage(StructTag(s)), b, PageTy);
  }

  /**
   * An item page placed between `a` and `b` shows up in the helper for its
   * item's tag, at exactly its position, and in no other helper.
   */
  lemma InsertItemPage(a: seq<Page>, t: ItemTag, b: seq<Page>)
    ensures Mods(a + [ItemPage(t)] + b) == Mods(a) + (if t.ModTag? then [t.modDoc] else []) + Mods(b)
    ensures Nmods(a + [ItemPage(t)] + b) == Nmods(a) + (if t.NmodTag? then [t.nmodDoc] else []) + Nmods(b)
    ensures Fns(a + [ItemPage(t)] + b) == Fns(a) + (if t.FnTag? then [t.fnDoc] else []) + Fns(b)
    ensures Consts(a + [ItemPage(t)] + b) == Consts(a) + (if t.ConstTag? then [t.constDoc] else []) + Consts(b)
    ensures Enums(a + [ItemPage(t)] + b) == Enums(a) + (if t.EnumTag? then [t.enumDoc] else []) + Enums(b)
    ensures Traits(a + [ItemPage(t)] + b) == Traits(a) + (if t.TraitTag? then [t.traitDoc] else []) + Traits(b)
    ensures Impls(a + [ItemPage(t)] + b) == Impls(a) + (if t.ImplTag? then [t.implDoc] else []) + Impls(b)
    ensures Types(a + [ItemPage(t)] + b) == Types(a) + (if t.TyTag? then [t.tyDoc] else []) + Types(b)
  {
    FilterMapSplice(a, ItemPage(t), b, PageMod);
    FilterMapSplice(a, ItemPage(t), b, PageNmod);
    FilterMapSplice(a, ItemPage(t), b, PageFn);
    FilterMapSplice(a, ItemPage(t), b, PageConst);
    FilterMapSplice(a, ItemPage(t), b, PageEnum);
    FilterMapSplice(a, ItemPage(t), b, PageTrait);
    FilterMapSplice(a, ItemPage(t), b, PageImpl);
    FilterMapSplice(a, ItemPage(t), b, PageTy);
  }

  /** A single page is seen by exactly one of: a page-level helper, the crate pages, the struct pages. */
  lemma OneHelperPerPage(p: Page)
    ensures |Contribution(p, PageMod)|
      + |Contribution(p, PageNmod)|
      + |Contribution(p, PageFn)|
      + |Contribution(p, PageConst)|
      + |Contribution(p, PageEnum)|
      + |Contribution(p, PageTrait)|
      + |Contribution(p, PageImpl)|
      + |Contribution(p, PageTy)|
      + |Contribution(p, AsCratePage)|
      + |Contribution(p, PageStruct)|
      == 1
  {
  }

  /**
   * Every page is the crate page, a struct page, or is returned by exactly
   * one of the eight page-level helpers.
   */
  lemma {:induction false} PageFiltersPartitionPages(pages: seq<Page>)
    ensures |Mods(pages)|
      + |Nmods(pages)|
      + |Fns(pages)|
      + |Consts(pages)|
      + |Enums(pages)|
      + |Traits(pages)|
      + |Impls(pages)|
      + |Types(pages)|
      + |CratePages(pages)|
      + |FilterMap(pages, PageStruct)|
      == |pages|
    decreases |pages|
  {
    if pages != [] {
      PageFiltersPartitionPages(pages[1..]);
      OneHelperPerPage(pages[0]);
      FilterMapCons(pages, PageMod);
      FilterMapCons(pages, PageNmod);
      FilterMapCons(pages, PageFn);
      FilterMapCons(pages, PageConst);
      FilterMapCons(pages, PageEnum);
      FilterMapCons(pages, PageTrait);
      FilterMapCons(pages, PageImpl);
      FilterMapCons(pages, PageTy);
      FilterMapCons(pages, AsCratePage);
      FilterMapCons(pages, PageStruct);
    }
  }
}
