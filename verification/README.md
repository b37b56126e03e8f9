# ownref, modelled in Dafny

`ownref` bundles an owner with a view into it. There are four bundle kinds:

- `BoxRef` and `ArcRef` hold a reference into the owner.
- `BoxOwned` and `ArcOwned` hold any owned value, which may itself hold references into the owner.

The owner sits in a `Box` (unique, writable) or in an `Arc` (shared, reference-counted). A marker type decides how bundles compare: `ByAddress` compares the referent's pointer, `ByContent` compares the referent.

This project models that core and proves its properties.

**Owners.** An owner is a heap allocation with an address, the identity of its concrete type (`TypeId`) and its items (`seq<T>`).
- `Heap.BoxCell` is a `Box<O>`. Its items are writable through a `BoxRef`.
- `Heap.ArcCell` is an `Arc<O>`. Its items are fixed, and its strong count is updated in place by `Acquire`, `Release` and `TryUnwrap`.

**Views.**
- A reference view is a raw pointer `Ptr(base, loc)`. `loc` is the whole owner (`&O`) or its i-th item (`&Item`).
- The crate's soundness rests on one fact: a view points into its own bundle's allocation. This is `Valid` / `ValidRef`. Every operation keeps it except two kinds. The as-written Box→Arc conversions listed under "Findings" are proved to break it. After `Map` on an owned view, `ValidRef` is for the caller to establish (see "Left out"). Every read of a view (`Deref`, `DerefRef`) is stated against it.
- Owned views are values of an arbitrary type `V`.

**Bundles.** Bundles are datatypes holding a reference to their cell.
- Operations on Box bundles are functions, apart from the `DerefMut` write.
- Operations on Arc bundles that move the strong count are methods: `clone`, drop, `flatten`, `flat_map`, `try_unwrap_owner`, and the failure paths of `try_map`, `filter_map` and `transpose`. Their postconditions give the new count, which is what `strong_count` (`StrongCount`) then reads.
- Dropping an `ArcOwned` and unwrapping its owner also return the order of their teardown events (`Heap.DropEvent`). The struct declares the view before the owner so that the view, which may hold references into the owner, is dropped first (`Heap.ViewDroppedFirst`).
- A bundle whose owner was erased to `dyn Any` carries the erased type in `ownerType`. `downcast_owner` checks the owner's `TypeId`.

**Ordering.**
- By address: the order of `(base, offset)` pairs, which is numeric address order because allocations do not overlap and items are laid out inline (see "Left out" for owners whose items live in a separate buffer).
- By content: a caller-supplied item comparison. Whole owners compare lexicographically, as Rust slices and arrays do.
- By content, a view that is a reference (`EqRef`, `CmpRef`) or an `Option` of one (`EqOptRef`, `CmpOptRef`) compares referents, each read from its own bundle's owner. A view that holds no reference compares as a value (`EqValue`, `CmpValue`).
- For each bundle kind, `Cmp` is proved consistent with `Eq` and antisymmetric. By address this holds unconditionally; by content, given those laws for the item comparison.

**Modules.** `Wrappers`, `Marker`, `Heap`, `BoxRefs`, `BoxOwneds`, `ArcRefs`, `ArcOwneds`, `Convert` (conversions between bundle kinds) and `Scenarios` (the crate's usage scenarios, replayed on the model).

## Model

Some members that model source functions have no row of their own: `IntoOwner`, `IntoBox`, `IntoArc`, `IntoAnyOwner`, `StrongCount`, `Cmp`, `CmpRef`, `CmpOptRef` and `Heap.ArcCell.Release`. Each is stated through the row of a lemma or method that cites its source lines: `IntoOwnerIgnoresView`, `IntoBoxFromBox`, `IntoArcFromArc`, `DowncastUndoesIntoAnyOwner`, the count postconditions of the Arc methods, `CmpLaws`, `CmpRefLaws`, `CmpOptRefLaws` and `Drop`.

| member | source | states |
|---|---|---|
| Heap.CompareAddr | src/arc_ref.rs:258-264 | pointer comparison is Equal exactly for the same address, Less exactly when the first address is below the second |
| Heap.SameAddrIsSamePtr | src/arc_ref.rs:238-244 | for references of one referent type, `ptr::eq` holds exactly when they are the same pointer |
| Heap.CompareAddrIsTotalOrder | src/arc_ref.rs:249-264 | address order is antisymmetric and transitive |
| Heap.CompareSeqEqual | src/box_ref.rs:321-329 | lexicographic comparison of whole owners says Equal exactly for equal item sequences, when the item order agrees with equality |
| Heap.CompareSeqFlip | src/box_ref.rs:321-329 | lexicographic comparison of whole owners is antisymmetric when the item order is |
| Heap.CompareTargetLaws | src/box_ref.rs:310-329 | comparing referents by content agrees with `==` and is antisymmetric |
| Heap.CompareOptTargetLaws | src/box_owned.rs:365-382 | ordering optional referents, `None` first, says Equal exactly when they are equal and is antisymmetric |
| Heap.ViewDroppedFirstIsHead | src/arc_owned.rs:32-35 | the view is dropped before anything happens to the owner exactly when the teardown starts by dropping it |
| Heap.BoxCell.constructor | src/box_ref.rs:60-62 | a new box holds the given owner at the given address and type |
| Heap.ArcCell.constructor | src/arc_ref.rs:30-32 | `Arc::new` gives an allocation with a strong count of one |
| Heap.ArcCell.Acquire | src/arc_ref.rs:168-176 | cloning a handle raises the strong count by one |
| Heap.ArcCell.TryUnwrap | src/arc_ref.rs:68-71 | the owner comes out exactly when the count is one, which leaves it at zero; otherwise the count is unchanged |
| BoxRefs.Deref | src/box_ref.rs:428-438 | a whole-owner view denotes the owner's items as they are now, an item view the item at its index |
| BoxRefs.FromBox | src/box_ref.rs:452-468 | for a concrete or an erased owner type, the new view points into the box and denotes the whole owner |
| BoxRefs.New | src/box_ref.rs:60-62 | a fresh box whose view is valid and denotes the given owner |
| BoxRefs.IntoOwnerRef | src/box_ref.rs:108-121 | the view is reset to the whole owner of the same box, which is unchanged |
| BoxRefs.Map | src/box_ref.rs:129-141 | the result keeps the box and policy, stays valid, and denotes what `f` selects |
| BoxRefs.TryMap | src/box_ref.rs:144-156 | Err exactly when `f` fails, carrying `f`'s error; on Ok, as `Map` |
| BoxRefs.FilterMap | src/box_ref.rs:159-171 | None exactly when `f` gives None; on Some, as `Map` |
| BoxRefs.Assign | src/box_ref.rs:441-449 | a write through the view changes the owner at the view's place only, and the view then denotes the written value |
| BoxRefs.DowncastOwner | src/box_ref.rs:213-264 | succeeds exactly when the owner's type is the one asked for; otherwise the erased bundle comes back unchanged |
| BoxRefs.Eq | src/box_ref.rs:291-352 | by address, equal exactly for the same pointer; by content, exactly when the referents are equal |
| BoxRefs.CmpLaws | src/box_ref.rs:310-379 | by address `cmp` follows address order; `cmp` is Equal exactly when `eq` holds and is antisymmetric |
| BoxRefs.IntoOwnerIgnoresView | src/box_ref.rs:179-182 | `into_owner` returns the same owner whatever the view was narrowed or reset to |
| BoxRefs.IntoBoxFromBox | src/box_ref.rs:72-75 | `into_box` then `from_box` equals `into_owner_ref`, whether the owner type is concrete or erased |
| BoxRefs.DowncastUndoesIntoAnyOwner | src/box_ref.rs:185-237 | erasing then downcasting to the owner's own type gives the bundle back; any other type is refused |
| BoxOwneds.DerefRef | src/box_owned.rs:528-537 | a reference view to the whole owner denotes the owner's items, one to an item denotes the item at its index |
| BoxOwneds.FromBox | src/box_owned.rs:550-566 | for a concrete or an erased owner type, the view is a valid reference to the whole owner |
| BoxOwneds.New | src/box_owned.rs:148-153 | a fresh box whose view is valid and denotes the given owner |
| BoxOwneds.IntoOwnerRef | src/box_owned.rs:77-93 | the view is dropped and replaced by a valid reference to the whole owner |
| BoxOwneds.Map | src/box_owned.rs:101-112 | same box, policy and owner type; the view is `f` of the old view |
| BoxOwneds.TryMap | src/box_owned.rs:115-126 | Err exactly when `f` fails, carrying its error; on Ok, `Map` with the unwrapped value |
| BoxOwneds.FilterMap | src/box_owned.rs:129-140 | None exactly when `f` gives None; on Some, `Map` with the unwrapped value |
| BoxOwneds.TransposeOption | src/box_owned.rs:242-255 | None exactly when the view is None; otherwise the same bundle around the inner value |
| BoxOwneds.TransposeResult | src/box_owned.rs:258-271 | Err exactly when the view is Err, carrying its error; otherwise the same bundle around the Ok value |
| BoxOwneds.DowncastOwner | src/box_owned.rs:274-323 | succeeds exactly when the owner's type is the one asked for; otherwise the erased bundle comes back |
| BoxOwneds.EqOptRef | src/box_owned.rs:348-356 | by content, an `Option<&X>` view equals another exactly when both are None, or both are Some and their referents, read from each bundle's own owner, are equal |
| BoxOwneds.CmpOptRefLaws | src/box_owned.rs:348-382 | for `Option<&X>` views by content, `cmp` is Equal exactly when `eq` holds, and is antisymmetric |
| BoxOwneds.EqOptRefIgnoresOwner | src/box_owned.rs:348-382 | views of the same place in owners with equal items are equal and compare Equal, even in two different allocations where the pointers differ |
| BoxOwneds.EqRef | src/box_owned.rs:398-455 | reference views: by address, the same pointer; by content, equal referents |
| BoxOwneds.CmpRefLaws | src/box_owned.rs:415-482 | reference views: `cmp` follows address order, agrees with `eq` and is antisymmetric |
| BoxOwneds.IntoOwnerIgnoresView | src/box_owned.rs:156-160 | `into_owner` returns the same owner whatever the view was mapped to |
| BoxOwneds.DowncastUndoesIntoAnyOwner | src/box_owned.rs:163-192 | erasing then downcasting to the owner's own type gives the bundle back; any other type is refused |
| BoxOwneds.FallibleMapsAreMapThenTranspose | src/box_owned.rs:115-140 | `filter_map` is `map` then `transpose`, and so is `try_map` |
| ArcRefs.Deref | src/arc_ref.rs:277-286 | a whole-owner view denotes the owner's items, an item view the item at its index |
| ArcRefs.FromArc | src/arc_ref.rs:289-305 | takes over the handle; the view is valid and denotes the whole owner |
| ArcRefs.New | src/arc_ref.rs:30-32 | a fresh allocation with one handle; the view denotes the given owner |
| ArcRefs.IntoOwnerRef | src/arc_ref.rs:49-62 | same handle; the view is reset to the whole owner |
| ArcRefs.IntoArcFromArc | src/arc_ref.rs:44-47 | `into_arc` then `from_arc` equals `into_owner_ref` on the same handle |
| ArcRefs.Map | src/arc_ref.rs:85-96 | same handle and policy; the view stays valid and denotes what `f` selects |
| ArcRefs.TryMap | src/arc_ref.rs:98-109 | Err exactly when `f` fails, and then the handle is dropped (count minus one); on Ok, `Map` with the count unchanged |
| ArcRefs.FilterMap | src/arc_ref.rs:111-122 | None exactly when `f` gives None, and then the handle is dropped; on Some, `Map` with the count unchanged |
| ArcRefs.Clone | src/arc_ref.rs:162-176 | an equal bundle, and one more handle |
| ArcRefs.Drop | src/arc_ref.rs:14-23 | dropping a bundle releases one handle |
| ArcRefs.TryUnwrapOwner | src/arc_ref.rs:68-71 | the owner comes out exactly when this is the only handle; the handle is released either way |
| ArcRefs.UnwrapOwner | src/arc_ref.rs:73-75 | with the only handle, the owner comes out unchanged and no handle is left |
| ArcRefs.WrapEach | src/arc_ref.rs:130-138 | one bundle per location, in order, each on its own new handle |
| ArcRefs.Flatten | src/arc_ref.rs:124-139 | one valid bundle per item of the owner, in order, each denoting that item; the count ends at old minus one plus the number of items |
| ArcRefs.FlatMap | src/arc_ref.rs:141-159 | one valid bundle per reference `f` yields, in order; the count ends at old minus one plus their number |
| ArcRefs.Eq | src/arc_ref.rs:201-244 | by address, equal exactly for the same pointer; by content, exactly when the referents are equal |
| ArcRefs.CmpLaws | src/arc_ref.rs:218-264 | `cmp` follows address order by address, agrees with `eq` and is antisymmetric |
| ArcRefs.AddressEqualImpliesContentEqual | src/arc_ref.rs:201-244 | two views of one owner that are equal by address are equal by content |
| ArcOwneds.DerefRef | src/arc_owned.rs:481-490 | a reference view to the whole owner denotes the owner's items, one to an item denotes the item at its index |
| ArcOwneds.FromArc | src/arc_owned.rs:493-509 | for a concrete or an erased owner type, takes over the handle; the view is a valid reference to the whole owner |
| ArcOwneds.New | src/arc_owned.rs:199-204 | a fresh allocation with one handle; the view denotes the given owner |
| ArcOwneds.IntoOwnerRef | src/arc_owned.rs:62-76 | same handle; the view is replaced by a valid reference to the whole owner |
| ArcOwneds.IntoArcFromArc | src/arc_owned.rs:55-59 | `into_arc` then `from_arc` equals `into_owner_ref` on the same handle, whether the owner type is concrete or erased |
| ArcOwneds.Map | src/arc_owned.rs:94-105 | same handle, policy and owner type; the view is `f` of the old view |
| ArcOwneds.TryMap | src/arc_owned.rs:108-119 | Err exactly when `f` fails, and then the handle is dropped; on Ok, `Map` with the count unchanged |
| ArcOwneds.FilterMap | src/arc_owned.rs:138-149 | None exactly when `f` gives None, and then the handle is dropped; on Some, `Map` with the count unchanged |
| ArcOwneds.TransposeOption | src/arc_owned.rs:264-277 | None exactly when the view is None, and then the handle is dropped; otherwise the bundle around the inner value |
| ArcOwneds.TransposeResult | src/arc_owned.rs:280-293 | Err exactly when the view is Err, and then the handle is dropped; otherwise the bundle around the Ok value |
| ArcOwneds.Clone | src/arc_owned.rs:322-337 | an equal bundle, and one more handle |
| ArcOwneds.Drop | src/arc_owned.rs:27-37 | dropping a bundle drops the view before anything else, and releases one handle |
| ArcOwneds.TryUnwrapOwnerAsWritten | src/arc_owned.rs:223-234 | as written: the owner comes out exactly when this is the only handle, and then the view is dropped after the owner has left its allocation; otherwise the same bundle comes back and the count is unchanged |
| ArcOwneds.TryUnwrapOwner | src/arc_owned.rs:223-234 | the owner comes out exactly when this is the only handle, after the view has been dropped; otherwise the same bundle comes back and the count is unchanged |
| ArcOwneds.UnwrapOwnerAsWritten | src/arc_owned.rs:240-243 | as written, on the as-written `try_unwrap_owner`: with the only handle, the owner comes out and no handle is left, and the view is not dropped first |
| ArcOwneds.UnwrapOwner | src/arc_owned.rs:240-243 | the corrected unwrap, on the corrected `try_unwrap_owner`: with the only handle, the view is dropped first, then the owner comes out and no handle is left |
| ArcOwneds.Flatten | src/arc_owned.rs:168-182 | one bundle per element of the view, in order, all sharing the owner; the count ends at old minus one plus their number |
| ArcOwneds.FlatMap | src/arc_owned.rs:185-191 | `map(f)` then `flatten`: one bundle per element of `f(view)`, in order |
| ArcOwneds.DowncastOwner | src/arc_owned.rs:296-319 | succeeds exactly when the owner's type is the one asked for; otherwise the erased bundle comes back |
| ArcOwneds.DowncastUndoesIntoAnyOwner | src/arc_owned.rs:207-220 | erasing then downcasting to the owner's own type gives the bundle back; any other type is refused |
| ArcOwneds.EqOptRef | src/arc_owned.rs:362-370 | by content, an `Option<&X>` view equals another exactly when both are None, or both are Some and their referents, read from each bundle's own owner, are equal |
| ArcOwneds.CmpOptRefLaws | src/arc_owned.rs:362-396 | for `Option<&X>` views by content, `cmp` is Equal exactly when `eq` holds, and is antisymmetric |
| ArcOwneds.EqOptRefIgnoresOwner | src/arc_owned.rs:362-396 | views of the same place in owners with equal items are equal and compare Equal, even in two different allocations where the pointers differ |
| ArcOwneds.EqRef | src/arc_owned.rs:412-419 | reference views: by address, the same pointer; by content, equal referents |
| ArcOwneds.CmpRefLaws | src/arc_owned.rs:429-446 | reference views: `cmp` follows address order, agrees with `eq` and is antisymmetric |
| Convert.BoxRefIntoBoxOwned | src/box_ref.rs:78-85 | same box and policy; the owned view denotes what the reference denoted |
| Convert.BoxOwnedIntoBoxRef | src/box_owned.rs:202-210 | same box and policy; the reference denotes what the owned view denoted |
| Convert.BoxConversionsRoundTrip | src/box_ref.rs:78-85 | `into_box_owned` and `into_box_ref` undo each other, in both orders |
| Convert.ArcOwnedIntoArcRef | src/arc_owned.rs:253-261 | the same handle moves over (count unchanged); the reference denotes what the view denoted |
| Convert.ArcOwnedIntoArcRefOwnerRef | src/arc_owned.rs:253-261 | resetting the view commutes with `into_arc_ref` |
| Convert.BoxRefIntoArcRefAsWritten | src/box_ref.rs:98-105 | as written, the old pointer is kept, and it no longer points into the new allocation; the new `Arc` has a single handle |
| Convert.BoxRefIntoArcRef | src/box_ref.rs:98-105 | with the view moved along with the owner, it is valid in the new allocation and denotes the same value; the new `Arc` has a single handle |
| Convert.BoxRefIntoArcOwnedAsWritten | src/box_ref.rs:88-95 | as written, the old pointer is kept, and it no longer points into the new allocation; the new `Arc` has a single handle |
| Convert.BoxRefIntoArcOwned | src/box_ref.rs:88-95 | with the view moved along, it is valid in the new allocation and denotes the same value; the owner type carries over; the new `Arc` has a single handle |
| Convert.BoxOwnedIntoArcOwned | src/box_owned.rs:67-74 | the owner moves to the new allocation with its items and type; the view is carried over; the new `Arc` has a single handle |
| Convert.BoxOwnedIntoArcOwnedMap | src/box_owned.rs:67-74 | moving the owner to an `Arc` commutes with `map` |
| Convert.BoxOwnedIntoArcOwnedAsWritten | src/box_owned.rs:67-74 | as written, a reference view is carried over unchanged and no longer points into the new allocation |
| Convert.BoxOwnedRefIntoArcOwned | src/box_owned.rs:67-74 | with a reference view moved along with the owner, it is valid in the new allocation and denotes the same value; the new `Arc` has a single handle |
| Convert.BoxOwnedIntoArcRefAsWritten | src/box_owned.rs:213-239 | as written, the old pointer is kept, and it no longer points into the new allocation; the new `Arc` has a single handle |
| Convert.BoxOwnedIntoArcRef | src/box_owned.rs:213-239 | with the view moved along, it is valid in the new allocation and denotes the same value; the new `Arc` has a single handle |
| Convert.BoxToArcPathsAgree | src/box_ref.rs:78-105 | `BoxRef` to `ArcRef` directly, through `BoxOwned`, or through `ArcOwned` gives the same bundle, and `BoxRef` to `ArcOwned` directly or through `BoxOwned` too |
| Convert.BoxRefToArcRef | src/box_ref.rs:98-105 | on a fresh allocation with one handle, the converted view denotes what the box's view denoted |
| Scenarios.BoxRefNarrowAndReset | tests/box_ref.rs:4-18 | narrowing to `'a'`, resetting, narrowing to `'b'`, then `into_owner` gives `['a', 'b']` |
| Scenarios.BoxOwnedNarrowAndReset | tests/box_owned.rs:4-18 | the same walk on `BoxOwned` with reference views |
| Scenarios.ArcRefNarrowAndReset | tests/arc_ref.rs:47-61 | the same walk on `ArcRef`, where `unwrap_owner` succeeds |
| Scenarios.ArcOwnedNarrowAndReset | tests/arc_owned.rs:61-75 | the same walk on `ArcOwned`, where `unwrap_owner` succeeds |
| Scenarios.ArcRefCompare | tests/arc_ref.rs:25-44 | a clone equals the original; references to two equal items differ by address and are equal by content |
| Scenarios.ArcOwnedCompare | tests/arc_owned.rs:39-58 | the same comparisons on `ArcOwned` |
| Scenarios.ArcRefFlatten | tests/arc_ref.rs:14-22 | flattening `[3, 1, 4]` gives the items in order, with three live handles |
| Scenarios.ArcOwnedIterate | tests/arc_owned.rs:15-36 | entries, and keys and values read through references into the owner, each come out in insertion order; nine handles are left, one per bundle |
| Scenarios.ArcRefUnwrapAfterDrop | src/arc_ref.rs:68-75 | unwrapping a clone fails while the original lives; after it, unwrapping the original succeeds |
| Scenarios.ArcOwnedUnwrapShared | src/arc_owned.rs:222-243 | a shared bundle is handed back; once it is dropped, unwrapping succeeds |
| Scenarios.ArcOwnedUnwrapDropOrder | src/arc_owned.rs:223-234 | unwrapping the only handle of a narrowed bundle drops the view last as written, and first when corrected |
| Scenarios.ArcOwnedOptionCompare | src/lib.rs:28 | two by-content bundles over `['a']` in different allocations, each viewing `Some(&owner[0])`, are equal and compare Equal |
| Scenarios.ArcOwnedAnyOwner | tests/arc_owned.rs:5-12 | an erased, narrowed bundle downcasts to its own owner type and to no other |
| Scenarios.BoxRefWrite | src/box_ref.rs:441-449 | writing `'z'` through a view of the first item gives `['z', 'b']` |
| Scenarios.BoxConvert | tests/convert.rs:5-17 | `BoxOwned` to `BoxRef` and back, every stage denotes the same text |
| Scenarios.ArcConvert | tests/convert.rs:20-29 | `ArcOwned` to `ArcRef` on a clone denotes the same text, with two live handles |

## Left out

- The lifetime re-borrow (`&mut *(owner.as_mut() as *mut O)`) is replaced by the explicit `Valid` invariant.
- `BoxRefs.Map`, `BoxRefs.TryMap`, `BoxRefs.FilterMap`, `ArcRefs.Map`, `ArcRefs.TryMap`, `ArcRefs.FilterMap`, `ArcRefs.FlatMap`: the model requires `f`'s result to be a place in the same owner (`InBounds(..., f(loc))`). Rust also accepts an `f` that returns a longer-lived reference to something else (a `'static` or leaked value); such a view points outside the owner and is not modelled.
- `BoxRefs.Map`, `BoxRefs.TryMap`, `BoxRefs.FilterMap`: `f` receives `&mut I` and may write into the owner before it returns. The model's `f: Loc -> Loc` only selects a place, so such writes are not captured; the only write modelled is `BoxRefs.Assign`.
- `BoxOwneds.Map`, `BoxOwneds.TryMap`, `BoxOwneds.FilterMap`, `ArcOwneds.Map`, `ArcOwneds.TryMap`, `ArcOwneds.FilterMap`, `ArcOwneds.FlatMap`: `f` is an arbitrary function on the view, so these do not promise `ValidRef` when the new view is a reference. In Rust the lifetime on `f` keeps a reference inside the owner or longer-lived. In the model, a caller that reads the result with `DerefRef` must establish `ValidRef` first, as `Scenarios` does for each view it reads.
- Owners are sequences of items, and a view is the whole owner or one item. Deeper paths into an owner (a field of an item) are not modelled.
- Items are modelled inline in the owner's allocation, at `(base, index)`, as for an array. For owners such as `Vec` or `IndexMap`, whose items live in a separate buffer, the model's address order between a whole-owner reference and an item reference is not the machine's, and a reference to an item in that buffer would survive the move from `Box` to `Arc`. The findings below hold for owners whose items are inline.
- `try_then` and `filter_then` are async, so they are not modelled. Their result is that of `try_map` and `filter_map` on the awaited value.
- Thread safety is not modelled: atomic counts and the `Send`/`Sync` bounds on `into_any_owner`.
- Weak handles and `weak_count` are not modelled. A caller can `Arc::downgrade` an `Arc` before handing it to `from_arc`, so the weak count need not be zero.
- `Debug`, `Display` and `Hash` are not modelled. `partial_cmp` delegates to the view's own `partial_cmp`, which can return `None` (a floating-point NaN). The model's comparisons are total, so only `cmp` is modelled.
- `BoxOwneds.EqValue`, `BoxOwneds.CmpValue`, `ArcOwneds.EqValue`, `ArcOwneds.CmpValue`: these compare the view as a value, which is the source's behaviour only for a view that holds no reference into the owner. For views that hold references, the model covers a bare reference (`EqRef`, `CmpRef`) and an `Option` of one (`EqOptRef`, `CmpOptRef`), not other shapes such as tuples of references.
- Transitivity of the by-content order is not proved; consistency with equality and antisymmetry are.
- `BoxOwneds.IntoOwner`, `BoxOwneds.IntoBox`, `BoxOwneds.IntoOwnerRef`, `ArcOwneds.IntoArc`, `ArcOwneds.IntoOwnerRef`: the source drops the view before it touches the owner (for example src/box_owned.rs:157-159). These are functions on values and do not record that order; only the `ArcOwned` teardown methods (`Drop`, `TryUnwrapOwner`, `UnwrapOwner`) return a drop log.
- `AsRef`, `Borrow` and the `owner()` accessor are the same read as `Deref`, or a read of the owner's items.
- `BoxOwned`'s `DerefMut`/`AsMut` give `&mut I`. For a view that is a value, a write through it is `Map`. For a view that is itself a `&mut X` into the owner, `**b = x` writes into the owner; that write is the one `BoxRefs.Assign` models, reached through `Convert.BoxOwnedIntoBoxRef`, and has no `BoxOwned` method of its own.
- Two `BoxRef` bundles over one `BoxCell` are not ruled out; in Rust the `Box` is unique. The contract of `BoxRefs.Assign` speaks of the cell, so it holds for any bundle over it.
- `flatten` and `flat_map` return lazy iterators. The model collects them eagerly. Handles are counted as if the whole iterator had been consumed and then dropped.
- `IntoIterator` of an `IndexMap` view is modelled as a sequence, in insertion order.
- `ArcRefs.UnwrapOwner`, `ArcOwneds.UnwrapOwner`, `ArcOwneds.UnwrapOwnerAsWritten`: the panic when other handles exist is modelled as the precondition that the count is one.
- `Convert.BoxOwnedIntoArcOwned`: a view of arbitrary type is carried over unchanged. When it is a reference into the owner, it dangles as in the findings below (`Convert.BoxOwnedIntoArcOwnedAsWritten`); `Convert.BoxOwnedRefIntoArcOwned` is the corrected conversion for that case. Other reference-holding view types are not modelled.
- `ArcRef::into_any_owner`, `ArcRef::downcast_owner` and `ArcRef::into_arc_owned` are used by `tests/arc_ref.rs` and `tests/convert.rs` but are not defined in `src/arc_ref.rs`. They are not part of this model, and `ArcRef` has no erased owner type.
- The `EqKind` trait and the marker types in `src/marker.rs` are the datatype `Marker.EqKind`. The crate's type aliases and re-exports in `src/lib.rs` are not part of this model.
- Addresses are parameters chosen by the caller of `New`, standing in for the allocator. That two live allocations have different addresses is stated where it is needed, not as a global heap invariant.

## Findings

| source | as written | input that shows it | evidently intended | confidence | as-written member | corrected member |
|---|---|---|---|---|---|---|
| src/box_ref.rs:98-105 | `into_arc_ref` converts the `Box` with `owner.into()` and keeps the old `inner` reference. `From<Box<O>> for Arc<O>` moves the owner into a newly allocated `Arc` and frees the box, so `inner` points into freed memory. | `BoxRefA::new(['a', 'b'])` narrowed to its first item, then `into_arc_ref`: the box is at one address, and the `Arc` allocation, made while the box is live, is at another | "without re-allocation" (the doc comment), so that the reference stays inside the owner: the view should point to the same place in the new allocation | not executed; the reallocation is std's documented behaviour; holds for owners whose items are inline, such as arrays | Convert.BoxRefIntoArcRefAsWritten | Convert.BoxRefIntoArcRef |
| src/box_ref.rs:88-95 | `into_arc_owned` does the same: the old `inner` is paired with the new `Arc` | `BoxRefA::new(['a', 'b'])` narrowed to its first item, then `into_arc_owned` | the view should point to the same place in the new allocation | not executed; holds for owners whose items are inline, such as arrays | Convert.BoxRefIntoArcOwnedAsWritten | Convert.BoxRefIntoArcOwned |
| src/box_owned.rs:213-239 | both `into_arc_ref` conversions of a reference-holding `BoxOwned` keep the old `inner` after `owner.into()` reallocates the owner | `BoxOwnedA::new(['a', 'b'])` mapped to a reference to its first item, then `into_arc_ref` | the reference should follow the owner into the new allocation | not executed; holds for owners whose items are inline, such as arrays | Convert.BoxOwnedIntoArcRefAsWritten | Convert.BoxOwnedIntoArcRef |
| src/box_owned.rs:67-74 | `into_arc_owned` carries a view that holds references across `owner.into()` unchanged | `BoxOwnedA::new(['a', 'b'])` mapped to a reference to its first item, then `into_arc_owned` | the reference should follow the owner into the new allocation | not executed; holds for owners whose items are inline, such as arrays | Convert.BoxOwnedIntoArcOwnedAsWritten | Convert.BoxOwnedRefIntoArcOwned |
| src/arc_owned.rs:223-234 | `try_unwrap_owner` calls `Arc::try_unwrap` while `inner` is still alive; on success `inner` is dropped at the end of the function, after the owner has left its allocation, against the order the struct's field layout (lines 32-35), `into_arc` (55-59) and `into_owner_ref` (62-64) keep | an `ArcOwned` holding the only handle, whose view holds a reference into the owner and has a `Drop` that reads it, then `try_unwrap_owner` | drop the view before moving the owner out, once the handle is known to be the only one | not executed; only observable with a view type whose `Drop` reads its references | ArcOwneds.TryUnwrapOwnerAsWritten | ArcOwneds.TryUnwrapOwner |
| src/arc_owned.rs:240-243 | `unwrap_owner` calls `try_unwrap_owner` as written, so on success it too drops the view after the owner has left its allocation | an `ArcOwned` holding the only handle, whose view holds a reference into the owner and has a `Drop` that reads it, then `unwrap_owner` | the view dropped before the owner is moved out | not executed; only observable with a view type whose `Drop` reads its references | ArcOwneds.UnwrapOwnerAsWritten | ArcOwneds.UnwrapOwner |
