/** Conversions between the four bundle kinds. A conversion between two bundles
    over the same kind of allocation hands the allocation and the view over as
    they are. A conversion from a `Box` bundle to an `Arc` bundle goes through
    `From<Box<O>> for Arc<O>`, which moves the owner into a new `Arc`
    allocation (`cell` below, holding the same items) and frees the box. A
    reference into the box must therefore be moved to the same place in the
    new allocation, which the `...AsWritten` members show the conversions do not. */
module Convert {
  import opened Marker
  import opened Heap
  import BoxRefs
  import BoxOwneds
  import ArcRefs
  import ArcOwneds

  // ------------------------------------------------ within the same allocation

  /** `BoxRef::into_box_owned`: the `&mut I` view becomes the owned view; it denotes the same value. */
  function BoxRefIntoBoxOwned<T>(b: BoxRefs.BoxRef<T>): (r: BoxOwneds.BoxOwned<T, Ptr>)
    reads b.owner
    ensures r.owner == b.owner && r.kind == b.kind && r.ownerType == b.ownerType
    ensures BoxRefs.Valid(b) ==> BoxOwneds.ValidRef(r) && BoxOwneds.DerefRef(r) == BoxRefs.Deref(b)
  {
    BoxOwneds.BoxOwned(b.ownerType, b.owner, b.view, b.kind)
  }

  /** `BoxOwned::into_box_ref`, for an owned view that is a `&mut I`: it denotes the same value. */
  function BoxOwnedIntoBoxRef<T>(b: BoxOwneds.BoxOwned<T, Ptr>): (r: BoxRefs.BoxRef<T>)
    reads b.owner
    ensures r.owner == b.owner && r.kind == b.kind && r.ownerType == b.ownerType
    ensures BoxOwneds.ValidRef(b) ==> BoxRefs.Valid(r) && BoxRefs.Deref(r) == BoxOwneds.DerefRef(b)
  {
    BoxRefs.BoxRef(b.ownerType, b.owner, b.view, b.kind)
  }

  /** The two conversions undo each other, in both orders. */
  lemma BoxConversionsRoundTrip<T>(b: BoxRefs.BoxRef<T>, c: BoxOwneds.BoxOwned<T, Ptr>)
    ensures BoxOwnedIntoBoxRef(BoxRefIntoBoxOwned(b)) == b
    ensures BoxRefIntoBoxOwned(BoxOwnedIntoBoxRef(c)) == c
  {
  }

  /** `ArcOwned::into_arc_ref`, for an owned view that is a `&I`: the handle moves over, so
      the strong count does not change, and the view denotes the same value. `ArcRef`
      has no erased owner, so the owner type must be concrete. */
  function ArcOwnedIntoArcRef<T>(b: ArcOwneds.ArcOwned<T, Ptr>): (r: ArcRefs.ArcRef<T>)
    requires b.ownerType == Concrete
    ensures r.owner == b.owner && r.kind == b.kind
    ensures ArcOwneds.ValidRef(b) ==> ArcRefs.Valid(r) && ArcRefs.Deref(r) == ArcOwneds.DerefRef(b)
  {
    ArcRefs.ArcRef(b.owner, b.view, b.kind)
  }

  /** Resetting the view commutes with `into_arc_ref`. */
  lemma ArcOwnedIntoArcRefOwnerRef<T>(b: ArcOwneds.ArcOwned<T, Ptr>)
    requires b.ownerType == Concrete
    ensures ArcOwnedIntoArcRef(ArcOwneds.IntoOwnerRef(b)) == ArcRefs.IntoOwnerRef(ArcOwnedIntoArcRef(b))
  {
  }

  // ------------------------------------------------------ from a Box to an Arc

  /** The owner was moved, unchanged, into `cell`, the allocation `Arc::from` made for it,
      whose only handle is the one the conversion hands out. */
  ghost predicate MovedInto<T>(owner: BoxCell<T>, cell: ArcCell<T>)
    reads owner, cell
  {
    cell.content == owner.content && cell.tag == owner.tag && cell.strong == 1
  }

  /** `BoxRef::into_arc_ref` as written: the new handle is paired with the old pointer,
      which still points into the freed box. Wherever the new allocation lies, the
      view no longer points into it. */
  function BoxRefIntoArcRefAsWritten<T>(b: BoxRefs.BoxRef<T>, cell: ArcCell<T>): (r: ArcRefs.ArcRef<T>)
    requires BoxRefs.Valid(b) && b.ownerType == Concrete && MovedInto(b.owner, cell)
    reads b.owner, cell
    ensures r.owner == cell && r.kind == b.kind && r.view == b.view
    ensures r.owner.strong == 1
    ensures cell.addr != b.owner.addr ==> !ArcRefs.Valid(r)
  {
    ArcRefs.ArcRef(cell, b.view, b.kind)
  }

  /** `BoxRef::into_arc_ref`, with the view moved along with the owner: it points to the
      same place in the new allocation and denotes the same value. */
  function BoxRefIntoArcRef<T>(b: BoxRefs.BoxRef<T>, cell: ArcCell<T>): (r: ArcRefs.ArcRef<T>)
    requires BoxRefs.Valid(b) && b.ownerType == Concrete && MovedInto(b.owner, cell)
    reads b.owner, cell
    ensures r.owner == cell && r.kind == b.kind && r.view.loc == b.view.loc
    ensures r.owner.strong == 1
    ensures ArcRefs.Valid(r) && ArcRefs.Deref(r) == BoxRefs.Deref(b)
  {
    ArcRefs.ArcRef(cell, Ptr(cell.addr, b.view.loc), b.kind)
  }

  /** `BoxRef::into_arc_owned` as written: the new handle is paired with the old pointer,
      which no longer points into the allocation it is bundled with. */
  function BoxRefIntoArcOwnedAsWritten<T>(b: BoxRefs.BoxRef<T>, cell: ArcCell<T>): (r: ArcOwneds.ArcOwned<T, Ptr>)
    requires BoxRefs.Valid(b) && MovedInto(b.owner, cell)
    reads b.owner, cell
    ensures r.owner == cell && r.kind == b.kind && r.ownerType == b.ownerType && r.view == b.view
    ensures r.owner.strong == 1
    ensures cell.addr != b.owner.addr ==> !ArcOwneds.ValidRef(r)
  {
    ArcOwneds.ArcOwned(b.ownerType, cell, b.view, b.kind)
  }

  /** `BoxRef::into_arc_owned`, with the view moved along with the owner. The owner type
      carries over, erased or not. */
  function BoxRefIntoArcOwned<T>(b: BoxRefs.BoxRef<T>, cell: ArcCell<T>): (r: ArcOwneds.ArcOwned<T, Ptr>)
    requires BoxRefs.Valid(b) && MovedInto(b.owner, cell)
    reads b.owner, cell
    ensures r.owner == cell && r.kind == b.kind && r.ownerType == b.ownerType && r.view.loc == b.view.loc
    ensures r.owner.strong == 1
    ensures ArcOwneds.ValidRef(r) && ArcOwneds.DerefRef(r) == BoxRefs.Deref(b)
  {
    ArcOwneds.ArcOwned(b.ownerType, cell, Ptr(cell.addr, b.view.loc), b.kind)
  }

  /** `BoxOwned::into_arc_owned` for a view that holds no reference into the owner:
      the view is moved over unchanged, and so is the owner. */
  function BoxOwnedIntoArcOwned<T, V>(b: BoxOwneds.BoxOwned<T, V>, cell: ArcCell<T>): (r: ArcOwneds.ArcOwned<T, V>)
    requires MovedInto(b.owner, cell)
    reads b.owner, cell
    ensures r.owner == cell && r.owner.content == b.owner.content && r.owner.tag == b.owner.tag
    ensures r.owner.strong == 1
    ensures r.view == b.view && r.kind == b.kind && r.ownerType == b.ownerType
  {
    ArcOwneds.ArcOwned(b.ownerType, cell, b.view, b.kind)
  }

  /** Moving the owner to an `Arc` commutes with `map`: mapping the view before or after gives the same bundle. */
  lemma BoxOwnedIntoArcOwnedMap<T, V, U>(b: BoxOwneds.BoxOwned<T, V>, cell: ArcCell<T>, f: V -> U)
    requires MovedInto(b.owner, cell)
    ensures BoxOwnedIntoArcOwned(BoxOwneds.Map(b, f), cell) == ArcOwneds.Map(BoxOwnedIntoArcOwned(b, cell), f)
  {
  }

  /** `BoxOwned::into_arc_owned` as written, for a view that is a reference into the owner:
      the view is carried over unchanged and no longer points into the new allocation. */
  lemma BoxOwnedIntoArcOwnedAsWritten<T>(b: BoxOwneds.BoxOwned<T, Ptr>, cell: ArcCell<T>)
    requires BoxOwneds.ValidRef(b) && MovedInto(b.owner, cell)
    ensures cell.addr != b.owner.addr ==> !ArcOwneds.ValidRef(BoxOwnedIntoArcOwned(b, cell))
  {
  }

  /** `BoxOwned::into_arc_owned` for a reference view, with the view moved along with the
      owner: it points to the same place in the new allocation and denotes the same value. */
  function BoxOwnedRefIntoArcOwned<T>(b: BoxOwneds.BoxOwned<T, Ptr>, cell: ArcCell<T>): (r: ArcOwneds.ArcOwned<T, Ptr>)
    requires BoxOwneds.ValidRef(b) && MovedInto(b.owner, cell)
    reads b.owner, cell
    ensures r.owner == cell && r.kind == b.kind && r.ownerType == b.ownerType && r.view.loc == b.view.loc
    ensures r.owner.strong == 1
    ensures ArcOwneds.ValidRef(r) && ArcOwneds.DerefRef(r) == BoxOwneds.DerefRef(b)
  {
    ArcOwneds.ArcOwned(b.ownerType, cell, Ptr(cell.addr, b.view.loc), b.kind)
  }

  /** `BoxOwned::into_arc_ref` (for a `&mut I` or a `&I` view) as written: the old pointer is kept. */
  function BoxOwnedIntoArcRefAsWritten<T>(b: BoxOwneds.BoxOwned<T, Ptr>, cell: ArcCell<T>): (r: ArcRefs.ArcRef<T>)
    requires BoxOwneds.ValidRef(b) && b.ownerType == Concrete && MovedInto(b.owner, cell)
    reads b.owner, cell
    ensures r.owner == cell && r.kind == b.kind && r.view == b.view
    ensures r.owner.strong == 1
    ensures cell.addr != b.owner.addr ==> !ArcRefs.Valid(r)
  {
    ArcRefs.ArcRef(cell, b.view, b.kind)
  }

  /** `BoxOwned::into_arc_ref`, with the view moved along with the owner. */
  function BoxOwnedIntoArcRef<T>(b: BoxOwneds.BoxOwned<T, Ptr>, cell: ArcCell<T>): (r: ArcRefs.ArcRef<T>)
    requires BoxOwneds.ValidRef(b) && b.ownerType == Concrete && MovedInto(b.owner, cell)
    reads b.owner, cell
    ensures r.owner == cell && r.kind == b.kind && r.view.loc == b.view.loc
    ensures r.owner.strong == 1
    ensures ArcRefs.Valid(r) && ArcRefs.Deref(r) == BoxOwneds.DerefRef(b)
  {
    ArcRefs.ArcRef(cell, Ptr(cell.addr, b.view.loc), b.kind)
  }

  /** Going from `BoxRef` to `ArcRef` directly, or through `BoxOwned`, or through
      `ArcOwned`, gives the same bundle, and so do both ways to `ArcOwned`. */
  lemma BoxToArcPathsAgree<T>(b: BoxRefs.BoxRef<T>, cell: ArcCell<T>)
    requires BoxRefs.Valid(b) && b.ownerType == Concrete && MovedInto(b.owner, cell)
    ensures BoxOwnedIntoArcRef(BoxRefIntoBoxOwned(b), cell) == BoxRefIntoArcRef(b, cell)
    ensures ArcOwnedIntoArcRef(BoxRefIntoArcOwned(b, cell)) == BoxRefIntoArcRef(b, cell)
    ensures BoxOwnedRefIntoArcOwned(BoxRefIntoBoxOwned(b), cell) == BoxRefIntoArcOwned(b, cell)
  {
  }

  /** `into_arc_ref` on a fresh `Arc` allocation made for the moved owner: a single handle,
      and a view that denotes what the box's view denoted. */
  method BoxRefToArcRef<T>(b: BoxRefs.BoxRef<T>, addr: nat) returns (r: ArcRefs.ArcRef<T>)
    requires BoxRefs.Valid(b) && b.ownerType == Concrete
    ensures fresh(r.owner) && r.owner.strong == 1 && r.owner.addr == addr
    ensures MovedInto(b.owner, r.owner) && r == BoxRefIntoArcRef(b, r.owner)
    ensures ArcRefs.Valid(r) && ArcRefs.Deref(r) == BoxRefs.Deref(b)
  {
    var cell := new ArcCell(addr, b.owner.tag, b.owner.content);
    r := BoxRefIntoArcRef(b, cell);
  }
}
