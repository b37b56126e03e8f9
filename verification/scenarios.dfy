/** The crate's usage scenarios, replayed on the model: each method builds fresh
    bundles and states, in its postcondition, the values the scenario observes. */
module Scenarios {
  import opened Wrappers
  import opened Marker
  import opened Heap
  import BoxRefs
  import BoxOwneds
  import ArcRefs
  import ArcOwneds
  import Convert

  /** The entries of the `IndexMap` in the `ArcOwned` iteration scenario, in insertion order. */
  const Entries: seq<(char, nat)> := [('a', 1), ('b', 2), ('c', 3)]

  /** References to every item of the owner a whole-owner reference points to. */
  function ItemRefs(p: Ptr, n: nat): (ps: seq<Ptr>)
    ensures |ps| == n && forall k :: 0 <= k < n ==> ps[k] == Ptr(p.base, Index(k))
  {
    seq(n, k requires 0 <= k < n => Ptr(p.base, Index(k)))
  }

  /** `BoxRef`: narrow to the first item, reset to the owner, narrow to the second item,
      then take the owner out, which is unchanged. */
  method BoxRefNarrowAndReset(kind: EqKind, addr: nat) returns (first: char, second: char, owner: seq<char>)
    ensures first == 'a' && second == 'b' && owner == ['a', 'b']
  {
    var own := BoxRefs.New(kind, addr, 0, ['a', 'b']);
    var refA := BoxRefs.Map(own, _ => Index(0));
    first := BoxRefs.Deref(refA).item;
    var own2 := BoxRefs.IntoOwnerRef(refA);
    var refB := BoxRefs.Map(own2, _ => Index(1));
    second := BoxRefs.Deref(refB).item;
    owner := BoxRefs.IntoOwner(refB);
  }

  /** `BoxOwned` with reference views: the same walk. */
  method BoxOwnedNarrowAndReset(kind: EqKind, addr: nat) returns (first: char, second: char, owner: seq<char>)
    ensures first == 'a' && second == 'b' && owner == ['a', 'b']
  {
    var own := BoxOwneds.New(kind, addr, 0, ['a', 'b']);
    var refA := BoxOwneds.Map(own, (p: Ptr) => Ptr(p.base, Index(0)));
    first := BoxOwneds.DerefRef(refA).item;
    var own2 := BoxOwneds.IntoOwnerRef(refA);
    var refB := BoxOwneds.Map(own2, (p: Ptr) => Ptr(p.base, Index(1)));
    second := BoxOwneds.DerefRef(refB).item;
    owner := BoxOwneds.IntoOwner(refB);
  }

  /** `ArcRef`: the same walk, ending in `unwrap_owner`, which succeeds because the
      bundle holds the only handle. */
  method ArcRefNarrowAndReset(kind: EqKind, addr: nat) returns (first: char, second: char, owner: seq<char>)
    ensures first == 'a' && second == 'b' && owner == ['a', 'b']
  {
    var own := ArcRefs.New(kind, addr, 0, ['a', 'b']);
    var refA := ArcRefs.Map(own, _ => Index(0));
    first := ArcRefs.Deref(refA).item;
    var own2 := ArcRefs.IntoOwnerRef(refA);
    var refB := ArcRefs.Map(own2, _ => Index(1));
    second := ArcRefs.Deref(refB).item;
    owner := ArcRefs.UnwrapOwner(refB);
  }

  /** `ArcOwned` with reference views: the same walk, ending in `unwrap_owner`. */
  method ArcOwnedNarrowAndReset(kind: EqKind, addr: nat) returns (first: char, second: char, owner: seq<char>)
    ensures first == 'a' && second == 'b' && owner == ['a', 'b']
  {
    var own := ArcOwneds.New(kind, addr, 0, ['a', 'b']);
    var refA := ArcOwneds.Map(own, (p: Ptr) => Ptr(p.base, Index(0)));
    first := ArcOwneds.DerefRef(refA).item;
    var own2 := ArcOwneds.IntoOwnerRef(refA);
    var refB := ArcOwneds.Map(own2, (p: Ptr) => Ptr(p.base, Index(1)));
    second := ArcOwneds.DerefRef(refB).item;
    var log;
    owner, log := ArcOwneds.UnwrapOwnerAsWritten(refB);
  }

  /** Over `['a', 'a']`: a clone equals the original under both policies; references to
      the two items differ by address and are equal by content. */
  method ArcRefCompare(addr1: nat, addr2: nat) returns (sameA: bool, itemsA: bool, sameC: bool, itemsC: bool)
    ensures sameA && !itemsA && sameC && itemsC
  {
    var own1 := ArcRefs.New(ByAddress, addr1, 0, ['a', 'a']);
    var own2 := ArcRefs.Clone(own1);
    sameA := ArcRefs.Eq(own1, own2);
    var ref1 := ArcRefs.Map(own1, _ => Index(0));
    var ref2 := ArcRefs.Map(own2, _ => Index(1));
    itemsA := ArcRefs.Eq(ref1, ref2);

    var cown1 := ArcRefs.New(ByContent, addr2, 0, ['a', 'a']);
    var cown2 := ArcRefs.Clone(cown1);
    sameC := ArcRefs.Eq(cown1, cown2);
    var cref1 := ArcRefs.Map(cown1, _ => Index(0));
    var cref2 := ArcRefs.Map(cown2, _ => Index(1));
    itemsC := ArcRefs.Eq(cref1, cref2);
  }

  /** The same comparisons for `ArcOwned` with reference views. */
  method ArcOwnedCompare(addr1: nat, addr2: nat) returns (sameA: bool, itemsA: bool, sameC: bool, itemsC: bool)
    ensures sameA && !itemsA && sameC && itemsC
  {
    var own1 := ArcOwneds.New(ByAddress, addr1, 0, ['a', 'a']);
    var own2 := ArcOwneds.Clone(own1);
    sameA := ArcOwneds.EqRef(own1, own2);
    var ref1 := ArcOwneds.Map(own1, (p: Ptr) => Ptr(p.base, Index(0)));
    var ref2 := ArcOwneds.Map(own2, (p: Ptr) => Ptr(p.base, Index(1)));
    itemsA := ArcOwneds.EqRef(ref1, ref2);

    var cown1 := ArcOwneds.New(ByContent, addr2, 0, ['a', 'a']);
    var cown2 := ArcOwneds.Clone(cown1);
    sameC := ArcOwneds.EqRef(cown1, cown2);
    var cref1 := ArcOwneds.Map(cown1, (p: Ptr) => Ptr(p.base, Index(0)));
    var cref2 := ArcOwneds.Map(cown2, (p: Ptr) => Ptr(p.base, Index(1)));
    itemsC := ArcOwneds.EqRef(cref1, cref2);
  }

  /** `ArcRef` over `[3, 1, 4]`, flattened: three bundles, one per item in order, and
      three live handles (the original one went with the iterator). */
  method ArcRefFlatten(addr: nat) returns (items: seq<nat>, count: nat)
    ensures items == [3, 1, 4] && count == 3
  {
    var own := ArcRefs.New(ByAddress, addr, 0, [3, 1, 4]);
    var refs := ArcRefs.Flatten(own);
    items := [ArcRefs.Deref(refs[0]).item, ArcRefs.Deref(refs[1]).item, ArcRefs.Deref(refs[2]).item];
    count := ArcRefs.StrongCount(refs[0]);
  }

  /** `ArcOwned` over an insertion-ordered map: iterating the entries, the keys and the
      values each yields three bundles in insertion order. Two clones and three
      iterators leave nine live handles, one per bundle. */
  method ArcOwnedIterate(addr: nat) returns (entries: seq<(char, nat)>, keys: seq<char>, values: seq<nat>, count: nat)
    ensures entries == Entries && keys == ['a', 'b', 'c'] && values == [1, 2, 3] && count == 9
  {
    var own := ArcOwneds.New(ByAddress, addr, 0, Entries);
    var c1 := ArcOwneds.Clone(own);
    var vec := ArcOwneds.FlatMap(c1, (p: Ptr) => ItemRefs(p, |c1.owner.content|));
    assert forall k :: 0 <= k < 3 ==> ArcOwneds.ValidRef(vec[k]) && ArcOwneds.DerefRef(vec[k]) == ItemVal(Entries[k]);
    entries := [ArcOwneds.DerefRef(vec[0]).item, ArcOwneds.DerefRef(vec[1]).item, ArcOwneds.DerefRef(vec[2]).item];

    var c2 := ArcOwneds.Clone(own);
    var ks: seq<ArcOwneds.ArcOwned<(char, nat), Ptr>> := ArcOwneds.FlatMap(c2, (p: Ptr) => ItemRefs(p, |c2.owner.content|));
    assert forall k :: 0 <= k < 3 ==> ArcOwneds.ValidRef(ks[k]) && ArcOwneds.DerefRef(ks[k]) == ItemVal(Entries[k]);
    keys := [ArcOwneds.DerefRef(ks[0]).item.0, ArcOwneds.DerefRef(ks[1]).item.0, ArcOwneds.DerefRef(ks[2]).item.0];

    var vs: seq<ArcOwneds.ArcOwned<(char, nat), Ptr>> := ArcOwneds.FlatMap(own, (p: Ptr) => ItemRefs(p, |own.owner.content|));
    assert forall k :: 0 <= k < 3 ==> ArcOwneds.ValidRef(vs[k]) && ArcOwneds.DerefRef(vs[k]) == ItemVal(Entries[k]);
    values := [ArcOwneds.DerefRef(vs[0]).item.1, ArcOwneds.DerefRef(vs[1]).item.1, ArcOwneds.DerefRef(vs[2]).item.1];
    count := ArcOwneds.StrongCount(vs[0]);
  }

  /** `try_unwrap_owner` on a clone fails while the original is alive, and drops
      the clone; on the original it then succeeds. */
  method ArcRefUnwrapAfterDrop(addr: nat) returns (shared: Option<seq<char>>, alone: Option<seq<char>>)
    ensures shared == None && alone == Some(['a', 'b'])
  {
    var own := ArcRefs.New(ByAddress, addr, 0, ['a', 'b']);
    var c := ArcRefs.Clone(own);
    shared := ArcRefs.TryUnwrapOwner(c);
    alone := ArcRefs.TryUnwrapOwner(own);
  }

  /** `ArcOwned::try_unwrap_owner` hands the bundle back while another handle is alive. */
  method ArcOwnedUnwrapShared(addr: nat) returns (shared: bool, owner: seq<char>)
    ensures shared && owner == ['a', 'b']
  {
    var own := ArcOwneds.New(ByAddress, addr, 0, ['a', 'b']);
    var c := ArcOwneds.Clone(own);
    var r, log := ArcOwneds.TryUnwrapOwnerAsWritten(c);
    shared := r.Err?;
    if r.Err? {
      log := ArcOwneds.Drop(r.error);
      owner, log := ArcOwneds.UnwrapOwnerAsWritten(own);
    } else {
      owner := [];
    }
  }

  /** Unwrapping the only handle of a bundle whose view is a reference into the owner:
      as written, the view is dropped after the owner has left the allocation; in the
      corrected order, it is dropped first. */
  method ArcOwnedUnwrapDropOrder(addr1: nat, addr2: nat) returns (asWritten: seq<DropEvent>, corrected: seq<DropEvent>)
    ensures asWritten == [OwnerMovedOut, ViewDropped] && corrected == [ViewDropped, OwnerMovedOut]
  {
    var own1 := ArcOwneds.New(ByAddress, addr1, 0, ['a', 'b']);
    var x1 := ArcOwneds.Map(own1, (p: Ptr) => Ptr(p.base, Index(0)));
    var r1;
    r1, asWritten := ArcOwneds.TryUnwrapOwnerAsWritten(x1);
    var own2 := ArcOwneds.New(ByAddress, addr2, 0, ['a', 'b']);
    var x2 := ArcOwneds.Map(own2, (p: Ptr) => Ptr(p.base, Index(0)));
    var r2;
    r2, corrected := ArcOwneds.TryUnwrapOwner(x2);
  }

  /** Two bundles by content over two allocations that both hold `['a']`, each viewing
      `Some(&owner[0])`: equal and ordered Equal, as `Option<&char>` compares referents. */
  method ArcOwnedOptionCompare(addr1: nat, addr2: nat) returns (equal: bool, order: Ordering)
    ensures equal && order == Equal
  {
    var own1 := ArcOwneds.New(ByContent, addr1, 0, ['a']);
    var own2 := ArcOwneds.New(ByContent, addr2, 0, ['a']);
    var x := ArcOwneds.Map(own1, (p: Ptr) => Some(Ptr(p.base, Index(0))));
    var y := ArcOwneds.Map(own2, (p: Ptr) => Some(Ptr(p.base, Index(0))));
    equal := ArcOwneds.EqOptRef(x, y);
    order := ArcOwneds.CmpOptRef(x, y, (c: char, d: char) => CompareNat(c as nat, d as nat));
  }

  /** Erase the owner of a narrowed `ArcOwned`, then recover it by its type. */
  method ArcOwnedAnyOwner(addr: nat, tag: TypeId, other: TypeId) returns (recovered: bool, refused: bool)
    requires other != tag
    ensures recovered && refused
  {
    var own := ArcOwneds.New(ByAddress, addr, tag, ['a', 'b']);
    var x := ArcOwneds.Map(own, (p: Ptr) => Ptr(p.base, Index(0)));
    var erased := ArcOwneds.IntoAnyOwner(x);
    recovered := ArcOwneds.DowncastOwner(erased, tag).Ok?;
    refused := ArcOwneds.DowncastOwner(erased, other).Err?;
  }

  /** Writing through a `BoxRef` narrowed to the first item changes that item only. */
  method BoxRefWrite(addr: nat) returns (owner: seq<char>)
    ensures owner == ['z', 'b']
  {
    var own := BoxRefs.New(ByAddress, addr, 0, ['a', 'b']);
    var r := BoxRefs.Map(own, _ => Index(0));
    BoxRefs.Assign(r, ItemVal('z'));
    owner := BoxRefs.IntoOwner(r);
  }

  /** `BoxOwned` to `BoxRef` and back: every stage denotes the same text. */
  method BoxConvert(addr: nat, text: seq<char>) returns (own: Target<char>, ref: Target<char>, own2: Target<char>)
    ensures own == WholeVal(text) && ref == WholeVal(text) && own2 == WholeVal(text)
  {
    var o := BoxOwneds.New(ByAddress, addr, 0, text);
    own := BoxOwneds.DerefRef(o);
    var r := Convert.BoxOwnedIntoBoxRef(o);
    ref := BoxRefs.Deref(r);
    var o2 := Convert.BoxRefIntoBoxOwned(r);
    own2 := BoxOwneds.DerefRef(o2);
  }

  /** `ArcOwned` to `ArcRef` on a clone: the same text, and two live handles. */
  method ArcConvert(addr: nat, text: seq<char>) returns (own: Target<char>, ref: Target<char>, count: nat)
    ensures own == WholeVal(text) && ref == WholeVal(text) && count == 2
  {
    var o := ArcOwneds.New(ByAddress, addr, 0, text);
    own := ArcOwneds.DerefRef(o);
    var c := ArcOwneds.Clone(o);
    var r := Convert.ArcOwnedIntoArcRef(c);
    ref := ArcRefs.Deref(r);
    count := ArcRefs.StrongCount(r);
  }
}
