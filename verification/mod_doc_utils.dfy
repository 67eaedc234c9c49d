/**
 * The narrowing helpers on `ModDoc` (`mods`, `nmods`, `fns`, ...): each
 * returns, in order, the payloads of the module's children that carry one
 * given tag. Each is the generic `FilterMap` applied with the projection
 * that matches that tag's pattern, as the `md!` macro expands.
 */
module ModDocUtils {
  import opened Wrappers
  import opened DocModel
  import opened Narrowing

  /** Wraps a payload as a `ModTag` child. */
  function TagMod(x: ModDoc): ItemTag
  {
    ModTag(x)
  }

  /** The pattern `ModTag(ref x)`. */
  function AsMod(t: ItemTag): Option<ModDoc>
  {
    match t
    case ModTag(x) => Some(x)
    case _ => None
  }

  /** Wraps a payload as a `NmodTag` child. */
  function TagNmod(x: NmodDoc): ItemTag
  {
    NmodTag(x)
  }

  /** The pattern `NmodTag(ref x)`. */
  function AsNmod(t: ItemTag): Option<NmodDoc>
  {
    match t
    case NmodTag(x) => Some(x)
    case _ => None
  }

  /** Wraps a payload as a `FnTag` child. */
  function TagFn(x: FnDoc): ItemTag
  {
    FnTag(x)
  }

  /** The pattern `FnTag(ref x)`. */
  function AsFn(t: ItemTag): Option<FnDoc>
  {
    match t
    case FnTag(x) => Some(x)
    case _ => None
  }

  /** Wraps a payload as a `ConstTag` child. */
  function TagConst(x: ConstDoc): ItemTag
  {
    ConstTag(x)
  }

  /** The pattern `ConstTag(ref x)`. */
  function AsConst(t: ItemTag): Option<ConstDoc>
  {
    match t
    case ConstTag(x) => Some(x)
    case _ => None
  }

  /** Wraps a payload as a `EnumTag` child. */
  function TagEnum(x: EnumDoc): ItemTag
  {
    EnumTag(x)
  }

  /** The pattern `EnumTag(ref x)`. */
  function AsEnum(t: ItemTag): Option<EnumDoc>
  {
    match t
    case EnumTag(x) => Some(x)
    case _ => None
  }

  /** Wraps a payload as a `TraitTag` child. */
  function TagTrait(x: TraitDoc): ItemTag
  {
    TraitTag(x)
  }

  /** The pattern `TraitTag(ref x)`. */
  function AsTrait(t: ItemTag): Option<TraitDoc>
  {
    match t
    case TraitTag(x) => Some(x)
    case _ => None
  }

  /** Wraps a payload as a `ImplTag` child. */
  function TagImpl(x: ImplDoc): ItemTag
  {
    ImplTag(x)
  }

  /** The pattern `ImplTag(ref x)`. */
  function AsImpl(t: ItemTag): Option<ImplDoc>
  {
    match t
    case ImplTag(x) => Some(x)
    case _ => None
  }

  /** Wraps a payload as a `TyTag` child. */
  function TagTy(x: TyDoc): ItemTag
  {
    TyTag(x)
  }

  /** The pattern `TyTag(ref x)`. */
  function AsTy(t: ItemTag): Option<TyDoc>
  {
    match t
    case TyTag(x) => Some(x)
    case _ => None
  }

  /** Wraps a payload as a `StructTag` child. */
  function TagStruct(x: StructDoc): ItemTag
  {
    StructTag(x)
  }

  /** The pattern `StructTag(ref x)`. */
  function AsStruct(t: ItemTag): Option<StructDoc>
  {
    match t
    case StructTag(x) => Some(x)
    case _ => None
  }

  /**
   * The `ModTag` children of `m`, in order: every result comes from such a
   * child, every such child is represented, and none is lost when all
   * children carry this tag.
   */
  function Mods(m: ModDoc): (r: seq<ModDoc>)
    ensures |r| <= |m.items|
    ensures forall k :: 0 <= k < |r| ==> ModTag(r[k]) in m.items
    ensures forall x :: ModTag(x) in m.items ==> x in r
    ensures r == [] <==> forall t :: t in m.items ==> !t.ModTag?
    ensures (forall t :: t in m.items ==> t.ModTag?) ==>
      |r| == |m.items| && forall k :: 0 <= k < |r| ==> m.items[k] == ModTag(r[k])
  {
    FilterMapByTag(m.items, AsMod, TagMod);
    FilterMap(m.items, AsMod)
  }

  /**
   * The `NmodTag` children of `m`, in order: every result comes from such a
   * child, every such child is represented, and none is lost when all
   * children carry this tag.
   */
  function Nmods(m: ModDoc): (r: seq<NmodDoc>)
    ensures |r| <= |m.items|
    ensures forall k :: 0 <= k < |r| ==> NmodTag(r[k]) in m.items
    ensures forall x :: NmodTag(x) in m.items ==> x in r
    ensures r == [] <==> forall t :: t in m.items ==> !t.NmodTag?
    ensures (forall t :: t in m.items ==> t.NmodTag?) ==>
      |r| == |m.items| && forall k :: 0 <= k < |r| ==> m.items[k] == NmodTag(r[k])
  {
    FilterMapByTag(m.items, AsNmod, TagNmod);
    FilterMap(m.items, AsNmod)
  }

  /**
   * The `FnTag` children of `m`, in order: every result comes from such a
   * child, every such child is represented, and none is lost when all
   * children carry this tag.
   */
  function Fns(m: ModDoc): (r: seq<FnDoc>)
    ensures |r| <= |m.items|
    ensures forall k :: 0 <= k < |r| ==> FnTag(r[k]) in m.items
    ensures forall x :: FnTag(x) in m.items ==> x in r
    ensures r == [] <==> forall t :: t in m.items ==> !t.FnTag?
    ensures (forall t :: t in m.items ==> t.FnTag?) ==>
      |r| == |m.items| && forall k :: 0 <= k < |r| ==> m.items[k] == FnTag(r[k])
  {
    FilterMapByTag(m.items, AsFn, TagFn);
    FilterMap(m.items, AsFn)
  }

  /**
   * The `ConstTag` children of `m`, in order: every result comes from such a
   * child, every such child is represented, and none is lost when all
   * children carry this tag.
   */
  function Consts(m: ModDoc): (r: seq<ConstDoc>)
    ensures |r| <= |m.items|
    ensures forall k :: 0 <= k < |r| ==> ConstTag(r[k]) in m.items
    ensures forall x :: ConstTag(x) in m.items ==> x in r
    ensures r == [] <==> forall t :: t in m.items ==> !t.ConstTag?
    ensures (forall t :: t in m.items ==> t.ConstTag?) ==>
      |r| == |m.items| && forall k :: 0 <= k < |r| ==> m.items[k] == ConstTag(r[k])
  {
    FilterMapByTag(m.items, AsConst, TagConst);
    FilterMap(m.items, AsConst)
  }

  /**
   * The `EnumTag` children of `m`, in order: every result comes from such a
   * child, every such child is represented, and none is lost when all
   * children carry this tag.
   */
  function Enums(m: ModDoc): (r: seq<EnumDoc>)
    ensures |r| <= |m.items|
    ensures forall k :: 0 <= k < |r| ==> EnumTag(r[k]) in m.items
    ensures forall x :: EnumTag(x) in m.items ==> x in r
    ensures r == [] <==> forall t :: t in m.items ==> !t.EnumTag?
    ensures (forall t :: t in m.items ==> t.EnumTag?) ==>
      |r| == |m.items| && forall k :: 0 <= k < |r| ==> m.items[k] == EnumTag(r[k])
  {
    FilterMapByTag(m.items, AsEnum, TagEnum);
    FilterMap(m.items, AsEnum)
  }

  /**
   * The `TraitTag` children of `m`, in order: every result comes from such a
   * child, every such child is represented, and none is lost when all
   * children carry this tag.
   */
  function Traits(m: ModDoc): (r: seq<TraitDoc>)
    ensures |r| <= |m.items|
    ensures forall k :: 0 <= k < |r| ==> TraitTag(r[k]) in m.items
    ensures forall x :: TraitTag(x) in m.items ==> x in r
    ensures r == [] <==> forall t :: t in m.items ==> !t.TraitTag?
    ensures (forall t :: t in m.items ==> t.TraitTag?) ==>
      |r| == |m.items| && forall k :: 0 <= k < |r| ==> m.items[k] == TraitTag(r[k])
  {
    FilterMapByTag(m.items, AsTrait, TagTrait);
    FilterMap(m.items, AsTrait)
  }

  /**
   * The `ImplTag` children of `m`, in order: every result comes from such a
   * child, every such child is represented, and none is lost when all
   * children carry this tag.
   */
  function Impls(m: ModDoc): (r: seq<ImplDoc>)
    ensures |r| <= |m.items|
    ensures forall k :: 0 <= k < |r| ==> ImplTag(r[k]) in m.items
    ensures forall x :: ImplTag(x) in m.items ==> x in r
    ensures r == [] <==> forall t :: t in m.items ==> !t.ImplTag?
    ensures (forall t :: t in m.items ==> t.ImplTag?) ==>
      |r| == |m.items| && forall k :: 0 <= k < |r| ==> m.items[k] == ImplTag(r[k])
  {
    FilterMapByTag(m.items, AsImpl, TagImpl);
    FilterMap(m.items, AsImpl)
  }

  /**
   * The `TyTag` children of `m`, in order: every result comes from such a
   * child, every such child is represented, and none is lost when all
   * children carry this tag.
   */
  function Types(m: ModDoc): (r: seq<TyDoc>)
    ensures |r| <= |m.items|
    ensures forall k :: 0 <= k < |r| ==> TyTag(r[k]) in m.items
    ensures forall x :: TyTag(x) in m.items ==> x in r
    ensures r == [] <==> forall t :: t in m.items ==> !t.TyTag?
    ensures (forall t :: t in m.items ==> t.TyTag?) ==>
      |r| == |m.items| && forall k :: 0 <= k < |r| ==> m.items[k] == TyTag(r[k])
  {
    FilterMapByTag(m.items, AsTy, TagTy);
    FilterMap(m.items, AsTy)
  }

  /**
   * The `StructTag` children of `m`, in order: every result comes from such a
   * child, every such child is represented, and none is lost when all
   * children carry this tag.
   */
  function Structs(m: ModDoc): (r: seq<StructDoc>)
    ensures |r| <= |m.items|
    ensures forall k :: 0 <= k < |r| ==> StructTag(r[k]) in m.items
    ensures forall x :: StructTag(x) in m.items ==> x in r
    ensures r == [] <==> forall t :: t in m.items ==> !t.StructTag?
    ensures (forall t :: t in m.items ==> t.StructTag?) ==>
      |r| == |m.items| && forall k :: 0 <= k < |r| ==> m.items[k] == StructTag(r[k])
  {
    FilterMapByTag(m.items, AsStruct, TagStruct);
    FilterMap(m.items, AsStruct)
  }

  /** `m` with its children replaced by `items`; every other field is kept. */
  function WithItems(m: ModDoc, items: seq<ItemTag>): ModDoc
  {
    m.(items := items)
  }

  /**
   * Every filter distributes over any split of the children: the results
   * from the first part come first, in order.
   */
  lemma SplitChildren(m: ModDoc, a: seq<ItemTag>, b: seq<ItemTag>)
    ensures Mods(WithItems(m, a + b)) == Mods(WithItems(m, a)) + Mods(WithItems(m, b))
    ensures Nmods(WithItems(m, a + b)) == Nmods(WithItems(m, a)) + Nmods(WithItems(m, b))
    ensures Fns(WithItems(m, a + b)) == Fns(WithItems(m, a)) + Fns(WithItems(m, b))
    ensures Consts(WithItems(m, a + b)) == Consts(WithItems(m, a)) + Consts(WithItems(m, b))
    ensures Enums(WithItems(m, a + b)) == Enums(WithItems(m, a)) + Enums(WithItems(m, b))
    ensures Traits(WithItems(m, a + b)) == Traits(WithItems(m, a)) + Traits(WithItems(m, b))
    ensures Impls(WithItems(m, a + b)) == Impls(WithItems(m, a)) + Impls(WithItems(m, b))
    ensures Types(WithItems(m, a + b)) == Types(WithItems(m, a)) + Types(WithItems(m, b))
    ensures Structs(WithItems(m, a + b)) == Structs(WithItems(m, a)) + Structs(WithItems(m, b))
  {
    FilterMapAppend(a, b, AsMod);
    FilterMapAppend(a, b, AsNmod);
    FilterMapAppend(a, b, AsFn);
    FilterMapAppend(a, b, AsConst);
    FilterMapAppend(a, b, AsEnum);
    FilterMapAppend(a, b, AsTrait);
    FilterMapAppend(a, b, AsImpl);
    FilterMapAppend(a, b, AsTy);
    FilterMapAppend(a, b, AsStruct);
  }

  /**
   * A child placed between `a` and `b` shows up in exactly one filter, the
   * one for its own tag, at exactly its position; every other filter is as
   * if it were absent.
   */
  lemma InsertChild(m: ModDoc, a: seq<ItemTag>, t: ItemTag, b: seq<ItemTag>)
    ensures Mods(WithItems(m, a + [t] + b)) == Mods(WithItems(m, a)) + (if t.ModTag? then [t.modDoc] else []) + Mods(WithItems(m, b))
    ensures Nmods(WithItems(m, a + [t] + b)) == Nmods(WithItems(m, a)) + (if t.NmodTag? then [t.nmodDoc] else []) + Nmods(WithItems(m, b))
    ensures Fns(WithItems(m, a + [t] + b)) == Fns(WithItems(m, a)) + (if t.FnTag? then [t.fnDoc] else []) + Fns(WithItems(m, b))
    ensures Consts(WithItems(m, a + [t] + b)) == Consts(WithItems(m, a)) + (if t.ConstTag? then [t.constDoc] else []) + Consts(WithItems(m, b))
    ensures Enums(WithItems(m, a + [t] + b)) == Enums(WithItems(m, a)) + (if t.EnumTag? then [t.enumDoc] else []) + Enums(WithItems(m, b))
    ensures Traits(WithItems(m, a + [t] + b)) == Traits(WithItems(m, a)) + (if t.TraitTag? then [t.traitDoc] else []) + Traits(WithItems(m, b))
    ensures Impls(WithItems(m, a + [t] + b)) == Impls(WithItems(m, a)) + (if t.ImplTag? then [t.implDoc] else []) + Impls(WithItems(m, b))
    ensures Types(WithItems(m, a + [t] + b)) == Types(WithItems(m, a)) + (if t.TyTag? then [t.tyDoc] else []) + Types(WithItems(m, b))
    ensures Structs(WithItems(m, a + [t] + b)) == Structs(WithItems(m, a)) + (if t.StructTag? then [t.structDoc] else []) + Structs(WithItems(m, b))
  {
    FilterMapSplice(a, t, b, AsMod);
    FilterMapSplice(a, t, b, AsNmod);
    FilterMapSplice(a, t, b, AsFn);
    FilterMapSplice(a, t, b, AsConst);
    FilterMapSplice(a, t, b, AsEnum);
    FilterMapSplice(a, t, b, AsTrait);
    FilterMapSplice(a, t, b, AsImpl);
    FilterMapSplice(a, t, b, AsTy);
    FilterMapSplice(a, t, b, AsStruct);
  }

  /**
   * Constants, functions and type aliases share the payload type
   * `SimpleItemDoc`, yet each filter selects by tag: a `ConstTag` or `TyTag`
   * child never reaches `Fns`, and likewise the other way round.
   */
  lemma SimpleItemsNarrowByTag(m: ModDoc, a: seq<ItemTag>, s: SimpleItemDoc, b: seq<ItemTag>)
    ensures var m' := WithItems(m, a + [ConstTag(s)] + b);
      Fns(m') == Fns(WithItems(m, a + b)) && Types(m') == Types(WithItems(m, a + b)) && s in Consts(m')
    ensures var m' := WithItems(m, a + [FnTag(s)] + b);
      Consts(m') == Consts(WithItems(m, a + b)) && Types(m') == Types(WithItems(m, a + b)) && s in Fns(m')
    ensures var m' := WithItems(m, a + [TyTag(s)] + b);
      Fns(m') == Fns(WithItems(m, a + b)) && Consts(m') == Consts(WithItems(m, a + b)) && s in Types(m')
  {
    FilterMapSkips(a, ConstTag(s), b, AsFn);
    FilterMapSkips(a, ConstTag(s), b, AsTy);
    FilterMapSkips(a, FnTag(s), b, AsConst);
    FilterMapSkips(a, FnTag(s), b, AsTy);
    FilterMapSkips(a, TyTag(s), b, AsFn);
    FilterMapSkips(a, TyTag(s), b, AsConst);
    assert ConstTag(s) in a + [ConstTag(s)] + b;
    assert FnTag(s) in a + [FnTag(s)] + b;
    assert TyTag(s) in a + [TyTag(s)] + b;
  }

  /** A single child contributes to exactly one of the nine filters. */
  lemma OneFilterPerChild(t: ItemTag)
    ensures |Contribution(t, AsMod)|
      + |Contribution(t, AsNmod)|
      + |Contribution(t, AsFn)|
      + |Contribution(t, AsConst)|
      + |Contribution(t, AsEnum)|
      + |Contribution(t, AsTrait)|
      + |Contribution(t, AsImpl)|
      + |Contribution(t, AsTy)|
      + |Contribution(t, AsStruct)|
      == 1
  {
  }

  /**
   * Every child carries exactly one of the nine tags and there is one filter
   * per tag, so the filters' lengths add up to the number of children.
   */
  lemma {:induction false} FiltersPartitionItems(m: ModDoc)
    ensures |Mods(m)|
      + |Nmods(m)|
      + |Fns(m)|
      + |Consts(m)|
      + |Enums(m)|
      + |Traits(m)|
      + |Impls(m)|
      + |Types(m)|
      + |Structs(m)|
      == |m.items|
    decreases |m.items|
  {
    if m.items != [] {
      FiltersPartitionItems(WithItems(m, m.items[1..]));
      OneFilterPerChild(m.items[0]);
      FilterMapCons(m.items, AsMod);
      FilterMapCons(m.items, AsNmod);
      FilterMapCons(m.items, AsFn);
      FilterMapCons(m.items, AsConst);
      FilterMapCons(m.items, AsEnum);
      FilterMapCons(m.items, AsTrait);
      FilterMapCons(m.items, AsImpl);
      FilterMapCons(m.items, AsTy);
      FilterMapCons(m.items, AsStruct);
    }
  }
}
