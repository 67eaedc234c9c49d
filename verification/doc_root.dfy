/**
 * The helpers on `Doc`: `CrateDoc` and `cratemod`. `CrateDoc` folds over the
 * pages with a closure that ignores its accumulator, so the fold's result is
 * decided by the last page alone, and `.get()` fails unless that page is a
 * crate page.
 */
module DocRoot {
  import opened Wrappers
  import DocModel
  import opened Narrowing
  import PageUtils

  /** The condition under which `CrateDoc` does not fail. */
  predicate LastIsCratePage(pages: seq<DocModel.Page>)
  {
    |pages| > 0 && pages[|pages| - 1].CratePage?
  }

  /**
   * The fold's closure `|_m, page| ...`: the accumulator `_m` is ignored, so
   * the outcome is decided by the page alone.
   */
  function Step(acc: Option<DocModel.CrateDoc>, page: DocModel.Page): (r: Option<DocModel.CrateDoc>)
    ensures r.Some? <==> page.CratePage?
    ensures r.Some? ==> r.value == page.crate
  {
    match page
    case CratePage(c) => Some(c)
    case ItemPage(_) => None
  }

  /**
   * `pages.iter().fold(acc, Step)`. Whatever the starting accumulator and
   * whatever came earlier, a non-empty fold ends with the last page's crate,
   * or with nothing when the last page is an item page.
   */
  function FoldPages(pages: seq<DocModel.Page>, acc: Option<DocModel.CrateDoc>): (r: Option<DocModel.CrateDoc>)
    ensures pages == [] ==> r == acc
    ensures pages != [] ==> (r.Some? <==> pages[|pages| - 1].CratePage?)
    ensures pages != [] && r.Some? ==> r.value == pages[|pages| - 1].crate
    decreases |pages|
  {
    if pages == [] then acc else FoldPages(pages[1..], Step(acc, pages[0]))
  }

  /** `Doc::CrateDoc`: the crate of the last page, which must be a crate page. */
  function CrateDoc(d: DocModel.Doc): (c: DocModel.CrateDoc)
    requires LastIsCratePage(d.pages)
    ensures c == d.pages[|d.pages| - 1].crate
    ensures c in PageUtils.CratePages(d.pages)
  {
    FilterMapMembers(d.pages, PageUtils.AsCratePage);
    assert d.pages[|d.pages| - 1] in d.pages;
    FoldPages(d.pages, None).Get()
  }

  /** `Doc::cratemod`: the top module of the last page's crate. */
  function CrateMod(d: DocModel.Doc): (m: DocModel.ModDoc)
    requires LastIsCratePage(d.pages)
    ensures m == d.pages[|d.pages| - 1].crate.topmod
  {
    CrateDoc(d).topmod
  }

  /**
   * The `.get()` in `CrateDoc` fails exactly when the pages are empty or the
   * last page is an item page, even if a crate page occurs earlier.
   */
  lemma CrateDocFailsUnlessLastIsCratePage(d: DocModel.Doc)
    ensures FoldPages(d.pages, None).None? <==> !LastIsCratePage(d.pages)
  {
  }

  /** Pages before the last one, including earlier crate pages, have no effect. */
  lemma CrateDocIgnoresEarlierPages(p: seq<DocModel.Page>, q: seq<DocModel.Page>)
    requires LastIsCratePage(q)
    ensures LastIsCratePage(p + q)
    ensures CrateDoc(DocModel.Doc(p + q)) == CrateDoc(DocModel.Doc(q))
    ensures CrateMod(DocModel.Doc(p + q)) == CrateMod(DocModel.Doc(q))
  {
    assert (p + q)[|p + q| - 1] == q[|q| - 1];
  }

  /**
   * On a document with exactly one crate page, placed last, `CrateDoc`
   * returns that one crate page's payload.
   */
  lemma CrateDocIsTheOnlyCratePage(d: DocModel.Doc, i: int)
    requires LastIsCratePage(d.pages)
    requires |PageUtils.CratePages(d.pages)| == 1
    requires 0 <= i < |d.pages| && d.pages[i].CratePage?
    ensures CrateDoc(d) == d.pages[i].crate
  {
    var last := |d.pages| - 1;
    if i < last {
      FilterMapPreservesOrder(d.pages, PageUtils.AsCratePage, i, last);
      assert false;
    }
  }

  /**
   * Having exactly one crate page is not enough: when that page is followed
   * anywhere by an item page, the last page is not a crate page and
   * `CrateDoc` fails.
   */
  lemma SoleCratePageMustBeLast(pages: seq<DocModel.Page>, i: int, j: int)
    requires |PageUtils.CratePages(pages)| == 1
    requires 0 <= i < j < |pages| && pages[i].CratePage? && pages[j].ItemPage?
    ensures !LastIsCratePage(pages)
    ensures FoldPages(pages, None).None?
  {
    if LastIsCratePage(pages) {
      FilterMapPreservesOrder(pages, PageUtils.AsCratePage, i, |pages| - 1);
      assert false;
    }
  }
}
