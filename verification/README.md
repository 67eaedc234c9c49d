# rustdoc document model, in Dafny

This project models `src/librustdoc/doc.rs`, the in-memory document model of
rustdoc. A `Doc` is an ordered list of pages. One page is the crate page,
which holds the crate's top module. The others are item pages. Each item is
one of nine kinds (module, foreign module, constant, function, enum, trait,
impl, type alias, struct), tagged by the closed union `ItemTag`. Every kind
embeds the shared `ItemDoc` record. A module holds its children as a list of
`ItemTag`s, so the tree is recursive.

Layout, one module per part of the source:

- `wrappers.dfy`, module `Wrappers`: `Option`, with `Get` standing for Rust's `.get()`. `Get` fails on `None`, so it has a precondition.
- `doc_model.dfy`, module `DocModel`: one datatype per struct or enum of the source. `ConstDoc`, `FnDoc` and `TyDoc` are synonyms of `SimpleItemDoc`, as in the source. Equality is structural, like `#[deriving(Eq)]`.
- `narrowing.dfy`, module `Narrowing`: `FilterMap`, the one generic operation behind the `filt_mapper!` macro, with its laws.
- `mod_doc_utils.dfy`, module `ModDocUtils`: the nine helpers on `ModDoc` (`mods` … `structs`).
- `page_utils.dfy`, module `PageUtils`: the eight helpers on a page list, from `PageUtils for ~[Page]`.
- `doc_root.dfy`, module `DocRoot`: `Doc::CrateDoc` and `Doc::cratemod`.
- `item_utils.dfy`, module `ItemUtils`: the `Item` capability and the `ItemUtils` accessors.
- `scenarios.dfy`, module `Scenarios`: three worked examples.

Rust traits become a closed union here. `AnyItem` has one constructor per
implementor of `Item`: the item union plus the seven record types. The
generic accessors are functions over that union.

`CrateDoc` is modelled as the code writes it: a fold whose closure ignores
its accumulator. The fold's result therefore depends only on the last page.
When that page is a crate page, `CrateDoc` returns its crate. When it is an
item page, or there are no pages, `.get()` fails; in the model this is
`CrateDoc`'s precondition. This is not the same as the natural reading of
`CrateDoc`, "find the one crate page, and fail when there are zero or
several". The model follows the code. Three consequences are proved:

- A document whose only crate page has an item page somewhere after it makes `CrateDoc` fail (`SoleCratePageMustBeLast`).
- A document with several crate pages, the last one last, gets the last one's crate (`CrateDocIgnoresEarlierPages`).
- When the one crate page is last, the two readings agree (`CrateDocIsTheOnlyCratePage`).

## Model

| member | source | states |
|---|---|---|
| Narrowing.FilterMap | src/librustdoc/doc.rs:187-196 | the result is never longer than the input, and is empty exactly when the projection rejects every entry |
| Narrowing.FilterMapMembers | src/librustdoc/doc.rs:187-196 | every result is the payload of some accepted entry, and every accepted entry's payload is in the result |
| Narrowing.FilterMapAppend | src/librustdoc/doc.rs:187-196 | narrowing distributes over concatenation, so the results of an earlier part come first |
| Narrowing.FilterMapSkips | src/librustdoc/doc.rs:187-196 | a rejected entry contributes nothing, wherever it sits |
| Narrowing.FilterMapKeeps | src/librustdoc/doc.rs:187-196 | an accepted entry contributes exactly its payload, between its neighbours' results |
| Narrowing.FilterMapSplice | src/librustdoc/doc.rs:187-196 | inserting one entry adds exactly that entry's contribution, at its own place |
| Narrowing.FilterMapPosition | src/librustdoc/doc.rs:187-196 | an accepted entry's payload sits at the index equal to the number of accepted entries before it |
| Narrowing.FilterMapPreservesOrder | src/librustdoc/doc.rs:187-196 | of two accepted entries, the earlier one's payload comes strictly earlier in the result |
| Narrowing.FilterMapAllAccepted | src/librustdoc/doc.rs:187-196 | when every entry is accepted, the result lists every entry's payload at that entry's own index |
| Narrowing.FilterMapByTag | src/librustdoc/doc.rs:187-196 | for a projection that exactly undoes a tagging, the result holds the tagged entries' payloads, all of them, is empty only when nothing is tagged, and loses nothing when everything is tagged |
| Narrowing.FilterMapOfTagged | src/librustdoc/doc.rs:187-196 | narrowing a collection built by tagging returns the payloads unchanged (narrowing inverts tagging) |
| Narrowing.TaggedOfFilterMap | src/librustdoc/doc.rs:187-196 | when every entry is accepted, re-tagging the results rebuilds the collection (tagging inverts narrowing) |
| Narrowing.FilterMapFuse | src/librustdoc/doc.rs:242-246 | narrowing in two stages equals narrowing once with the composed pattern, which is how `ItemPage(T(x))` nests `T(x)` |
| ModDocUtils.Mods | src/librustdoc/doc.rs:205-207 | exactly the `ModTag` children's payloads: each result is one, each one is a result, empty iff there are none, nothing lost when all children are modules |
| ModDocUtils.Nmods | src/librustdoc/doc.rs:209-211 | the same, for `NmodTag` children |
| ModDocUtils.Fns | src/librustdoc/doc.rs:213-215 | the same, for `FnTag` children |
| ModDocUtils.Consts | src/librustdoc/doc.rs:217-219 | the same, for `ConstTag` children |
| ModDocUtils.Enums | src/librustdoc/doc.rs:221-223 | the same, for `EnumTag` children |
| ModDocUtils.Traits | src/librustdoc/doc.rs:225-227 | the same, for `TraitTag` children |
| ModDocUtils.Impls | src/librustdoc/doc.rs:229-231 | the same, for `ImplTag` children |
| ModDocUtils.Types | src/librustdoc/doc.rs:233-235 | the same, for `TyTag` children |
| ModDocUtils.Structs | src/librustdoc/doc.rs:237-239 | the same, for `StructTag` children |
| ModDocUtils.SplitChildren | src/librustdoc/doc.rs:204-240 | every module helper distributes over any split of the children, keeping relative order |
| ModDocUtils.InsertChild | src/librustdoc/doc.rs:198-240 | a child inserted between two runs appears in the helper for its own tag, at exactly its position, and in no other helper |
| ModDocUtils.SimpleItemsNarrowByTag | src/librustdoc/doc.rs:213-235 | constants, functions and type aliases share one payload type, yet a `ConstTag` or `TyTag` child never reaches `fns`, and the reverse also holds |
| ModDocUtils.OneFilterPerChild | src/librustdoc/doc.rs:54-64 | each child contributes to exactly one of the nine module helpers |
| ModDocUtils.FiltersPartitionItems | src/librustdoc/doc.rs:204-240 | the lengths of the nine module helpers add up to the number of children |
| PageUtils.Mods | src/librustdoc/doc.rs:261-263 | exactly the payloads of `ItemPage(ModTag(x))` pages, all of them, empty iff there are none, nothing lost when all pages are such pages |
| PageUtils.Nmods | src/librustdoc/doc.rs:265-267 | the same, for `ItemPage(NmodTag(x))` pages |
| PageUtils.Fns | src/librustdoc/doc.rs:269-271 | the same, for `ItemPage(FnTag(x))` pages |
| PageUtils.Consts | src/librustdoc/doc.rs:273-275 | the same, for `ItemPage(ConstTag(x))` pages |
| PageUtils.Enums | src/librustdoc/doc.rs:277-279 | the same, for `ItemPage(EnumTag(x))` pages |
| PageUtils.Traits | src/librustdoc/doc.rs:281-283 | the same, for `ItemPage(TraitTag(x))` pages |
| PageUtils.Impls | src/librustdoc/doc.rs:285-287 | the same, for `ItemPage(ImplTag(x))` pages |
| PageUtils.Types | src/librustdoc/doc.rs:289-291 | the same, for `ItemPage(TyTag(x))` pages |
| PageUtils.PageFiltersAreModFilters | src/librustdoc/doc.rs:242-291 | each page helper equals the module helper of the same name, applied to the items of the item pages in order |
| PageUtils.CratePagesSkipped | src/librustdoc/doc.rs:242-291 | a crate page, wherever it sits, changes no page helper's result |
| PageUtils.StructPagesSkipped | src/librustdoc/doc.rs:248-257 | there is no page-level `structs`, so a struct page changes no page helper's result |
| PageUtils.InsertItemPage | src/librustdoc/doc.rs:259-292 | an item page inserted between two runs appears in the helper for its item's tag, at exactly its position, and in no other helper |
| PageUtils.OneHelperPerPage | src/librustdoc/doc.rs:248-257 | each page is seen by exactly one of: the eight page helpers, the crate pages, the struct pages |
| PageUtils.PageFiltersPartitionPages | src/librustdoc/doc.rs:248-292 | the eight page helpers' lengths, plus the number of crate pages and of struct pages, add up to the number of pages |
| DocRoot.Step | src/librustdoc/doc.rs:174-178 | the fold's closure yields a crate exactly when the page is a crate page, and then that page's crate, whatever the accumulator |
| DocRoot.FoldPages | src/librustdoc/doc.rs:174-179 | the fold with the accumulator-ignoring closure ends, for any start value, with the last page's crate, or with nothing when the last page is an item page; on no pages it returns the start value |
| DocRoot.CrateDoc | src/librustdoc/doc.rs:173-180 | requires the last page to be a crate page, and returns that page's crate, which is one of the document's crate pages |
| DocRoot.CrateMod | src/librustdoc/doc.rs:182-184 | requires the same, and returns the top module of the last page's crate |
| DocRoot.CrateDocFailsUnlessLastIsCratePage | src/librustdoc/doc.rs:173-180 | the `.get()` fails exactly when there are no pages or the last page is an item page |
| DocRoot.CrateDocIgnoresEarlierPages | src/librustdoc/doc.rs:174-178 | pages before the last, earlier crate pages included, affect neither `CrateDoc` nor `cratemod` |
| DocRoot.CrateDocIsTheOnlyCratePage | src/librustdoc/doc.rs:173-180 | on a document whose one crate page is last, `CrateDoc` returns that crate page's payload |
| DocRoot.SoleCratePageMustBeLast | src/librustdoc/doc.rs:173-180 | a document with exactly one crate page that has an item page anywhere after it does not end with a crate page, so `CrateDoc` fails |
| ItemUtils.TagItem | src/librustdoc/doc.rs:298-312 | `item()` on a tagged value is the embedded record of the payload that the tag wraps, for each of the nine tags |
| ItemUtils.ItemOf | src/librustdoc/doc.rs:298-340 | `item()` on any implementor is the embedded record of the underlying record type, seeing through the tag |
| ItemUtils.Id | src/librustdoc/doc.rs:352-354 | `id()` is the id of the underlying record's embedded `ItemDoc` |
| ItemUtils.Name | src/librustdoc/doc.rs:356-358 | `name()` is the name of the underlying record's embedded `ItemDoc` |
| ItemUtils.Path | src/librustdoc/doc.rs:360-362 | `path()` is the path of the underlying record's embedded `ItemDoc` |
| ItemUtils.Brief | src/librustdoc/doc.rs:364-366 | `brief()` is the brief of the underlying record's embedded `ItemDoc` |
| ItemUtils.Desc | src/librustdoc/doc.rs:368-370 | `desc()` is the description of the underlying record's embedded `ItemDoc` |
| ItemUtils.Sections | src/librustdoc/doc.rs:372-374 | `sections()` is the section list of the underlying record's embedded `ItemDoc` |
| ItemUtils.TagForwardsToPayload | src/librustdoc/doc.rs:298-312 | `item()` and every accessor give the same answer on a tagged value as on its payload |
| ItemUtils.AccessorsRebuildRecord | src/librustdoc/doc.rs:351-375 | the six accessors and the reexport flag together rebuild the whole embedded record |
| ItemUtils.ReexportOnlyAffectsEquality | src/librustdoc/doc.rs:66-76 | two items whose records differ only in `reexport` agree on every accessor, yet compare unequal |
| Scenarios.MixedModule | src/librustdoc/doc.rs:213-239 | children `[fn f1, struct s1, fn f2]` give `fns` = `[f1, f2]`, `structs` = `[s1]` and `consts` = `[]` |
| Scenarios.ModulesInOrder | src/librustdoc/doc.rs:205-215 | children `[mod a, fn f, mod b]` give `mods` = `[a, b]` in child order, and `fns` = `[f]` |
| Scenarios.SmallDocument | src/librustdoc/doc.rs:172-291 | pages `[crate, mod a, fn f]` give `[a]`, `[f]` and `[]` for the mod, fn and trait page helpers, but fail `CrateDoc`; with the crate page last, `cratemod().mods()` is `[a]` |

## Left out

- `src/test/compile-fail/pinned-deep-copy.rs` describes a program the compiler must reject: a copy of a non-copyable type with a destructor over a managed pointer. It has no run-time behaviour, and managed pointers and destructors have no counterpart among immutable Dafny values.
- The `copy` expressions throughout `doc.rs` are not modelled. Dafny datatypes are immutable values, so a returned payload can never alias the tree.
- How `Index` and `IndexEntry` values are built is not modelled. Neither are section parsing from markdown or the assignment of ids and paths. That code lives outside `doc.rs`; here these are plain data fields, and their strings are opaque.
- Rendering and extraction from the syntax tree are not part of this model.
- Rust's trait dispatch is not modelled as open-ended. `Item` has exactly the eight implementors found in `doc.rs`, so the closed union `AnyItem` is faithful to this file but not to impls written elsewhere.
- `AstId` is Rust's machine `int`. It is modelled as an unbounded integer, because nothing in `doc.rs` does arithmetic on it.
