/** `BoxRef`: a `&mut` reference into an owner that is held, uniquely, in a `Box`.
    The view is a raw pointer; `Valid` says it points into the bundle's own
    allocation, which is what the crate's lifetime re-borrow relies on. */
module BoxRefs {
  import opened Wrappers
  import opened Marker
  import opened Heap

  /** `BoxRef<O, I, E>`: the owner's box, the view, and the ordering policy `E`. */
  datatype BoxRef<T> = BoxRef(ownerType: OwnerType, owner: BoxCell<T>, view: Ptr, kind: EqKind)

  /** The view points into the bundle's own allocation, at a place that exists. */
  predicate Valid<T>(b: BoxRef<T>)
    reads b.owner
  {
    b.view.base == b.owner.addr && InBounds(b.owner.content, b.view.loc)
  }

  /** `Deref`/`AsRef`/`Borrow`: the value the view denotes, read from the owner. */
  function Deref<T>(b: BoxRef<T>): (t: Target<T>)
    requires Valid(b)
    reads b.owner
    ensures b.view.loc.Whole? ==> t == WholeVal(b.owner.content)
    ensures b.view.loc.Index? ==> t == ItemVal(b.owner.content[b.view.loc.i])
  {
    Resolve(b.owner.content, b.view.loc)
  }

  /** `from_box` / `From<Box<O>>`, for a concrete or an erased (`dyn Any`) owner type alike:
      the view is derived afresh to denote the whole owner. */
  function FromBox<T>(kind: EqKind, ownerType: OwnerType, owner: BoxCell<T>): (r: BoxRef<T>)
    reads owner
    ensures Valid(r) && r.owner == owner && r.kind == kind && r.ownerType == ownerType
    ensures Deref(r) == WholeVal(owner.content)
  {
    BoxRef(ownerType, owner, Ptr(owner.addr, Whole), kind)
  }

  /** `new`: box the owner (at the address the allocator picks), then `FromBox`. */
  method New<T>(kind: EqKind, addr: nat, tag: TypeId, owner: seq<T>) returns (r: BoxRef<T>)
    ensures fresh(r.owner) && r.owner.addr == addr && r.owner.tag == tag
    ensures Valid(r) && r.kind == kind && r.ownerType == Concrete
    ensures Deref(r) == WholeVal(owner)
  {
    var cell := new BoxCell(addr, tag, owner);
    r := FromBox(kind, Concrete, cell);
  }

  /** `into_box`: discard the view, keep the box. */
  function IntoBox<T>(b: BoxRef<T>): BoxCell<T>
  {
    b.owner
  }

  /** `into_owner`: discard the view and unbox the owner (only for a concrete owner type). */
  function IntoOwner<T>(b: BoxRef<T>): seq<T>
    requires b.ownerType == Concrete
    reads b.owner
  {
    b.owner.content
  }

  /** `into_owner_ref`: drop the view and make a new one that denotes the whole owner. */
  function IntoOwnerRef<T>(b: BoxRef<T>): (r: BoxRef<T>)
    reads b.owner
    ensures Valid(r) && r.owner == b.owner && r.kind == b.kind && r.ownerType == b.ownerType
    ensures Deref(r) == WholeVal(b.owner.content)
  {
    BoxRef(b.ownerType, b.owner, Ptr(b.owner.addr, Whole), b.kind)
  }

  /** `map`: `f` narrows (or moves) the reference; Rust's lifetimes make its result a
      live reference into the same owner, which is the second precondition. */
  function Map<T>(b: BoxRef<T>, f: Loc -> Loc): (r: BoxRef<T>)
    requires Valid(b) && InBounds(b.owner.content, f(b.view.loc))
    reads b.owner
    ensures Valid(r) && r.owner == b.owner && r.kind == b.kind && r.ownerType == b.ownerType
    ensures Deref(r) == Resolve(b.owner.content, f(b.view.loc))
  {
    BoxRef(b.ownerType, b.owner, Ptr(b.view.base, f(b.view.loc)), b.kind)
  }

  /** `try_map`: f's error comes back untouched; on success the owner is kept. */
  function TryMap<T, E>(b: BoxRef<T>, f: Loc -> Result<Loc, E>): (r: Result<BoxRef<T>, E>)
    requires Valid(b)
    requires f(b.view.loc).Ok? ==> InBounds(b.owner.content, f(b.view.loc).value)
    reads b.owner
    ensures r.Err? <==> f(b.view.loc).Err?
    ensures r.Err? ==> r.error == f(b.view.loc).error
    ensures r.Ok? ==> Valid(r.value) && r.value.owner == b.owner && r.value.kind == b.kind
                      && r.value.ownerType == b.ownerType
                      && Deref(r.value) == Resolve(b.owner.content, f(b.view.loc).value)
  {
    match f(b.view.loc)
    case Err(e) => Err(e)
    case Ok(l) => Ok(BoxRef(b.ownerType, b.owner, Ptr(b.view.base, l), b.kind))
  }

  /** `filter_map`: None exactly when f gives None; otherwise the owner is kept. */
  function FilterMap<T>(b: BoxRef<T>, f: Loc -> Option<Loc>): (r: Option<BoxRef<T>>)
    requires Valid(b)
    requires f(b.view.loc).Some? ==> InBounds(b.owner.content, f(b.view.loc).value)
    reads b.owner
    ensures r.None? <==> f(b.view.loc).None?
    ensures r.Some? ==> Valid(r.value) && r.value.owner == b.owner && r.value.kind == b.kind
                        && r.value.ownerType == b.ownerType
                        && Deref(r.value) == Resolve(b.owner.content, f(b.view.loc).value)
  {
    match f(b.view.loc)
    case None => None
    case Some(l) => Some(BoxRef(b.ownerType, b.owner, Ptr(b.view.base, l), b.kind))
  }

  /** `DerefMut`/`AsMut`, followed by a write: the owner changes at the view's
      location and nowhere else. */
  method Assign<T>(b: BoxRef<T>, x: Target<T>)
    requires Valid(b) && x.WholeVal? == b.view.loc.Whole?
    modifies b.owner
    ensures Valid(b) && Deref(b) == x
    ensures b.view.loc.Index? ==> b.owner.content == old(b.owner.content)[b.view.loc.i := x.item]
    ensures b.view.loc.Whole? ==> b.owner.content == x.items
  {
    match b.view.loc
    case Whole => b.owner.content := x.items;
    case Index(i) => b.owner.content := b.owner.content[i := x.item];
  }

  /** `into_any_owner` (bound `AnySend`) and `into_any_owner_local` (bound `AnyLocal`). */
  function IntoAnyOwner<T>(b: BoxRef<T>, bound: AnyBound): BoxRef<T>
    requires b.ownerType == Concrete && bound != AnySendSync
  {
    b.(ownerType := DynAny(bound))
  }

  /** `downcast_owner` / `downcast_owner_local`: succeeds exactly when the owner's
      dynamic type is `want`; otherwise the erased bundle comes back as it was. */
  function DowncastOwner<T>(b: BoxRef<T>, want: TypeId): (r: Result<BoxRef<T>, BoxRef<T>>)
    requires b.ownerType.DynAny? && b.ownerType.bound != AnySendSync
    ensures r.Ok? <==> b.owner.tag == want
    ensures r.Ok? ==> r.value == b.(ownerType := Concrete)
    ensures r.Err? ==> r.error == b
  {
    if b.owner.tag == want then Ok(b.(ownerType := Concrete)) else Err(b)
  }

  /** `PartialEq`: by address, `ptr::eq` on the views; by content, `==` on what they denote. */
  function Eq<T(==)>(a: BoxRef<T>, b: BoxRef<T>): (r: bool)
    requires a.kind == b.kind && SameType(a.view.loc, b.view.loc)
    requires Valid(a) && Valid(b)
    reads a.owner, b.owner
    ensures a.kind == ByAddress ==> (r <==> a.view == b.view)
    ensures a.kind == ByContent ==> (r <==> Deref(a) == Deref(b))
  {
    SameAddrIsSamePtr(a.view, b.view);
    match a.kind
    case ByAddress => CompareAddr(a.view, b.view) == Equal
    case ByContent => Deref(a) == Deref(b)
  }

  /** `Ord::cmp`: by address, pointer order; by content, `cmp` on what the views denote. */
  function Cmp<T>(a: BoxRef<T>, b: BoxRef<T>, cmp: (T, T) -> Ordering): Ordering
    requires a.kind == b.kind && SameType(a.view.loc, b.view.loc)
    requires Valid(a) && Valid(b)
    reads a.owner, b.owner
  {
    match a.kind
    case ByAddress => CompareAddr(a.view, b.view)
    case ByContent => CompareTarget(Deref(a), Deref(b), cmp)
  }

  /** `cmp` agrees with `eq`, is antisymmetric, and by address follows address order. */
  lemma CmpLaws<T(!new)>(a: BoxRef<T>, b: BoxRef<T>, cmp: (T, T) -> Ordering)
    requires a.kind == b.kind && SameType(a.view.loc, b.view.loc)
    requires Valid(a) && Valid(b)
    ensures a.kind == ByAddress ==> (Cmp(a, b, cmp) == Less <==> AddrBelow(a.view, b.view))
    ensures a.kind == ByAddress || EqConsistent(cmp) ==> (Cmp(a, b, cmp) == Equal <==> Eq(a, b))
    ensures a.kind == ByAddress || Antisymmetric(cmp) ==> Cmp(b, a, cmp) == Cmp(a, b, cmp).Flip()
  {
    CompareAddrIsTotalOrder(a.view, b.view, b.view);
    CompareTargetLaws(Deref(a), Deref(b), cmp);
  }

  /** `into_owner` ignores the view: narrowing or resetting it never changes the owner. */
  lemma IntoOwnerIgnoresView<T>(b: BoxRef<T>, f: Loc -> Loc)
    requires Valid(b) && b.ownerType == Concrete && InBounds(b.owner.content, f(b.view.loc))
    ensures IntoOwner(Map(b, f)) == IntoOwner(b)
    ensures IntoOwner(IntoOwnerRef(b)) == IntoOwner(b)
  {
  }

  /** `into_box` then `from_box` is `into_owner_ref`, the same box with a whole-owner view. */
  lemma IntoBoxFromBox<T>(b: BoxRef<T>)
    ensures FromBox(b.kind, b.ownerType, IntoBox(b)) == IntoOwnerRef(b)
  {
  }

  /** Erasing and then downcasting to the owner's own type is the identity;
      downcasting to any other type hands back the erased bundle. */
  lemma DowncastUndoesIntoAnyOwner<T>(b: BoxRef<T>, bound: AnyBound, other: TypeId)
    requires b.ownerType == Concrete && bound != AnySendSync && other != b.owner.tag
    ensures DowncastOwner(IntoAnyOwner(b, bound), b.owner.tag) == Ok(b)
    ensures DowncastOwner(IntoAnyOwner(b, bound), other) == Err(IntoAnyOwner(b, bound))
  {
  }
}
