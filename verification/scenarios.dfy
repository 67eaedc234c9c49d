/**
 * Worked examples of the document model: a module with mixed children, and
 * a small document walked from its crate page down.
 */
module Scenarios {
  import opened DocModel
  import opened Narrowing
  import ModDocUtils
  import PageUtils
  import DocRoot

  /**
   * A module with children `[fn f1, struct s1, fn f2]`: `fns` returns both
   * functions in their order, `structs` the one struct, and `consts`,
   * although its payload type is the same as that of `fns`, nothing.
   */
  lemma MixedModule(m: ModDoc, f1: FnDoc, s1: StructDoc, f2: FnDoc)
    requires m.items == [FnTag(f1), StructTag(s1), FnTag(f2)]
    ensures ModDocUtils.Fns(m) == [f1, f2]
    ensures ModDocUtils.Structs(m) == [s1]
    ensures ModDocUtils.Consts(m) == []
  {
    var x, y, z := FnTag(f1), StructTag(s1), FnTag(f2);
    assert ModDocUtils.Fns(m) == [f1, f2] by {
      FilterMapOfThree(x, y, z, ModDocUtils.AsFn);
    }
    assert ModDocUtils.Structs(m) == [s1] by {
      FilterMapOfThree(x, y, z, ModDocUtils.AsStruct);
    }
    assert ModDocUtils.Consts(m) == [] by {
      FilterMapOfThree(x, y, z, ModDocUtils.AsConst);
    }
  }

  /**
   * Children `[mod a, fn f, mod b]`: `mods` returns `[a, b]`, in that order
   * and without repeats, and `fns` returns `[f]`.
   */
  lemma ModulesInOrder(m: ModDoc, a: ModDoc, f: FnDoc, b: ModDoc)
    requires m.items == [ModTag(a), FnTag(f), ModTag(b)]
    ensures ModDocUtils.Mods(m) == [a, b]
    ensures ModDocUtils.Fns(m) == [f]
  {
    var x, y, z := ModTag(a), FnTag(f), ModTag(b);
    assert ModDocUtils.Mods(m) == [a, b] by {
      FilterMapOfThree(x, y, z, ModDocUtils.AsMod);
    }
    assert ModDocUtils.Fns(m) == [f] by {
      FilterMapOfThree(x, y, z, ModDocUtils.AsFn);
    }
  }

  /**
   * Pages `[crate, mod a, fn f]` where the crate's top module has the one
   * child `a`: the page-level helpers find `a` and `f` and no trait, but,
   * because the crate page is not last, `CrateDoc` fails on them. With the
   * crate page moved to the end, `cratemod().mods()` is `[a]`.
   */
  lemma SmallDocument(root: ModDoc, a: ModDoc, f: FnDoc)
    requires root.items == [ModTag(a)]
    ensures var pages := [CratePage(CrateDoc(root)), ItemPage(ModTag(a)), ItemPage(FnTag(f))];
      PageUtils.Mods(pages) == [a] && PageUtils.Fns(pages) == [f] && PageUtils.Traits(pages) == []
      && !DocRoot.LastIsCratePage(pages)
    ensures var pages := [ItemPage(ModTag(a)), ItemPage(FnTag(f)), CratePage(CrateDoc(root))];
      DocRoot.LastIsCratePage(pages) && ModDocUtils.Mods(DocRoot.CrateMod(Doc(pages))) == [a]
  {
    var c := CrateDoc(root);
    FilterMapOfThree(CratePage(c), ItemPage(ModTag(a)), ItemPage(FnTag(f)), PageUtils.PageMod);
    FilterMapOfThree(CratePage(c), ItemPage(ModTag(a)), ItemPage(FnTag(f)), PageUtils.PageFn);
    FilterMapOfThree(CratePage(c), ItemPage(ModTag(a)), ItemPage(FnTag(f)), PageUtils.PageTrait);
    FilterMapCons(root.items, ModDocUtils.AsMod);
  }
}
