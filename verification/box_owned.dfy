/** `BoxOwned`: an owned value `V`, possibly holding references into the owner,
    bundled with an owner held uniquely in a `Box`. A view that is itself a
    reference into the owner is the instance `V = Ptr`. */
module BoxOwneds {
  import opened Wrappers
  import opened Marker
  import opened Heap

  /** `BoxOwned<O, I, E>`: the owner's box, the owned view, and the ordering policy `E`. */
  datatype BoxOwned<T, V> = BoxOwned(ownerType: OwnerType, owner: BoxCell<T>, view: V, kind: EqKind)

  /** For a view that is a reference: it points into the bundle's own allocation. */
  predicate ValidRef<T>(b: BoxOwned<T, Ptr>)
    reads b.owner
  {
    b.view.base == b.owner.addr && InBounds(b.owner.content, b.view.loc)
  }

  /** `**b` for a view that is a reference: the value it denotes. */
  function DerefRef<T>(b: BoxOwned<T, Ptr>): (t: Target<T>)
    requires ValidRef(b)
    reads b.owner
    ensures b.view.loc.Whole? ==> t == WholeVal(b.owner.content)
    ensures b.view.loc.Index? ==> t == ItemVal(b.owner.content[b.view.loc.i])
  {
    Resolve(b.owner.content, b.view.loc)
  }

  /** `from_box` / `From<Box<O>>`, for a concrete or an erased (`dyn Any`) owner type alike:
      the view is a `&mut O` to the whole owner. */
  function FromBox<T>(kind: EqKind, ownerType: OwnerType, owner: BoxCell<T>): (r: BoxOwned<T, Ptr>)
    reads owner
    ensures ValidRef(r) && r.owner == owner && r.kind == kind && r.ownerType == ownerType
    ensures DerefRef(r) == WholeVal(owner.content)
  {
    BoxOwned(ownerType, owner, Ptr(owner.addr, Whole), kind)
  }

  /** `new`: box the owner (at the address the allocator picks), then `FromBox`. */
  method New<T>(kind: EqKind, addr: nat, tag: TypeId, owner: seq<T>) returns (r: BoxOwned<T, Ptr>)
    ensures fresh(r.owner) && r.owner.addr == addr && r.owner.tag == tag
    ensures ValidRef(r) && r.kind == kind && r.ownerType == Concrete
    ensures DerefRef(r) == WholeVal(owner)
  {
    var cell := new BoxCell(addr, tag, owner);
    r := FromBox(kind, Concrete, cell);
  }

  /** `into_box`: drop the view, keep the box. */
  function IntoBox<T, V>(b: BoxOwned<T, V>): BoxCell<T>
  {
    b.owner
  }

  /** `into_owner`: drop the view, then unbox the owner (only for a concrete owner type). */
  function IntoOwner<T, V>(b: BoxOwned<T, V>): seq<T>
    requires b.ownerType == Concrete
    reads b.owner
  {
    b.owner.content
  }

  /** `into_owner_ref`: drop the view and make a new one that denotes the whole owner. */
  function IntoOwnerRef<T, V>(b: BoxOwned<T, V>): (r: BoxOwned<T, Ptr>)
    reads b.owner
    ensures ValidRef(r) && r.owner == b.owner && r.kind == b.kind && r.ownerType == b.ownerType
    ensures DerefRef(r) == WholeVal(b.owner.content)
  {
    BoxOwned(b.ownerType, b.owner, Ptr(b.owner.addr, Whole), b.kind)
  }

  /** `map`: the same owner, and the view `f(view)` of any type. */
  function Map<T, V, U>(b: BoxOwned<T, V>, f: V -> U): (r: BoxOwned<T, U>)
    ensures r.owner == b.owner && r.kind == b.kind && r.ownerType == b.ownerType
    ensures r.view == f(b.view)
  {
    BoxOwned(b.ownerType, b.owner, f(b.view), b.kind)
  }

  /** `try_map`: f's error comes back untouched; on `Ok(x)` the owner is kept and the view is x. */
  function TryMap<T, V, U, E>(b: BoxOwned<T, V>, f: V -> Result<U, E>): (r: Result<BoxOwned<T, U>, E>)
    ensures r.Err? <==> f(b.view).Err?
    ensures r.Err? ==> r.error == f(b.view).error
    ensures r.Ok? ==> r.value == Map(b, _ => f(b.view).value)
  {
    match f(b.view)
    case Err(e) => Err(e)
    case Ok(x) => Ok(BoxOwned(b.ownerType, b.owner, x, b.kind))
  }

  /** `filter_map`: None exactly when f gives None; otherwise the owner is kept. */
  function FilterMap<T, V, U>(b: BoxOwned<T, V>, f: V -> Option<U>): (r: Option<BoxOwned<T, U>>)
    ensures r.None? <==> f(b.view).None?
    ensures r.Some? ==> r.value == Map(b, _ => f(b.view).value)
  {
    match f(b.view)
    case None => None
    case Some(x) => Some(BoxOwned(b.ownerType, b.owner, x, b.kind))
  }

  /** `transpose` of a bundle of an `Option`. */
  function TransposeOption<T, V>(b: BoxOwned<T, Option<V>>): (r: Option<BoxOwned<T, V>>)
    ensures r.None? <==> b.view.None?
    ensures r.Some? ==> r.value.owner == b.owner && r.value.view == b.view.value
                        && r.value.kind == b.kind && r.value.ownerType == b.ownerType
  {
    match b.view
    case None => None
    case Some(x) => Some(BoxOwned(b.ownerType, b.owner, x, b.kind))
  }

  /** `transpose` of a bundle of a `Result`. */
  function TransposeResult<T, V, E>(b: BoxOwned<T, Result<V, E>>): (r: Result<BoxOwned<T, V>, E>)
    ensures r.Err? <==> b.view.Err?
    ensures r.Err? ==> r.error == b.view.error
    ensures r.Ok? ==> r.value.owner == b.owner && r.value.view == b.view.value
                      && r.value.kind == b.kind && r.value.ownerType == b.ownerType
  {
    match b.view
    case Err(e) => Err(e)
    case Ok(x) => Ok(BoxOwned(b.ownerType, b.owner, x, b.kind))
  }

  /** `into_any_owner` (bound `AnySend`) and `into_any_owner_local` (bound `AnyLocal`). */
  function IntoAnyOwner<T, V>(b: BoxOwned<T, V>, bound: AnyBound): BoxOwned<T, V>
    requires b.ownerType == Concrete && bound != AnySendSync
  {
    b.(ownerType := DynAny(bound))
  }

  /** `downcast_owner` / `downcast_owner_local`: succeeds exactly when the owner's
      dynamic type is `want`; otherwise the erased bundle comes back as it was. */
  function DowncastOwner<T, V>(b: BoxOwned<T, V>, want: TypeId): (r: Result<BoxOwned<T, V>, BoxOwned<T, V>>)
    requires b.ownerType.DynAny? && b.ownerType.bound != AnySendSync
    ensures r.Ok? <==> b.owner.tag == want
    ensures r.Ok? ==> r.value == b.(ownerType := Concrete)
    ensures r.Err? ==> r.error == b
  {
    if b.owner.tag == want then Ok(b.(ownerType := Concrete)) else Err(b)
  }

  /** `PartialEq` by content for a view that holds no reference into the owner,
      compared as a value (`I: PartialEq`). */
  function EqValue<T, V(==)>(a: BoxOwned<T, V>, b: BoxOwned<T, V>): bool
    requires a.kind == ByContent && b.kind == ByContent
  {
    a.view == b.view
  }

  /** `Ord` by content for a view that holds no reference into the owner (`I: Ord`). */
  function CmpValue<T, V>(a: BoxOwned<T, V>, b: BoxOwned<T, V>, cmp: (V, V) -> Ordering): Ordering
    requires a.kind == ByContent && b.kind == ByContent
  {
    cmp(a.view, b.view)
  }

  /** For a view that is an `Option<&X>`: a `Some` points into the bundle's own allocation. */
  predicate ValidOptRef<T>(b: BoxOwned<T, Option<Ptr>>)
    reads b.owner
  {
    b.view.Some? ==> b.view.value.base == b.owner.addr && InBounds(b.owner.content, b.view.value.loc)
  }

  /** An `Option<&X>` view with its reference, if any, replaced by the referent. */
  function DerefOpt<T>(b: BoxOwned<T, Option<Ptr>>): (t: Option<Target<T>>)
    requires ValidOptRef(b)
    reads b.owner
    ensures t.None? <==> b.view.None?
    ensures t.Some? ==> t.value == Resolve(b.owner.content, b.view.value.loc)
  {
    match b.view
    case None => None
    case Some(p) => Some(Resolve(b.owner.content, p.loc))
  }

  /** `PartialEq` by content for an `Option<&X>` view: `==` on `Option` and on references
      compares the referents, read from each bundle's own owner. */
  function EqOptRef<T(==)>(a: BoxOwned<T, Option<Ptr>>, b: BoxOwned<T, Option<Ptr>>): (r: bool)
    requires a.kind == ByContent && b.kind == ByContent
    requires ValidOptRef(a) && ValidOptRef(b)
    reads a.owner, b.owner
    ensures r <==> (a.view.None? && b.view.None?)
                   || (a.view.Some? && b.view.Some?
                       && Resolve(a.owner.content, a.view.value.loc) == Resolve(b.owner.content, b.view.value.loc))
  {
    DerefOpt(a) == DerefOpt(b)
  }

  /** `Ord` by content for an `Option<&X>` view: `None` first, then the referents' order. */
  function CmpOptRef<T>(a: BoxOwned<T, Option<Ptr>>, b: BoxOwned<T, Option<Ptr>>, cmp: (T, T) -> Ordering): Ordering
    requires a.kind == ByContent && b.kind == ByContent
    requires ValidOptRef(a) && ValidOptRef(b)
    requires a.view.Some? && b.view.Some? ==> SameType(a.view.value.loc, b.view.value.loc)
    reads a.owner, b.owner
  {
    CompareOptTarget(DerefOpt(a), DerefOpt(b), cmp)
  }

  /** For `Option<&X>` views, `cmp` agrees with `eq` and is antisymmetric. */
  lemma CmpOptRefLaws<T(!new)>(a: BoxOwned<T, Option<Ptr>>, b: BoxOwned<T, Option<Ptr>>, cmp: (T, T) -> Ordering)
    requires a.kind == ByContent && b.kind == ByContent
    requires ValidOptRef(a) && ValidOptRef(b)
    requires a.view.Some? && b.view.Some? ==> SameType(a.view.value.loc, b.view.value.loc)
    ensures EqConsistent(cmp) ==> (CmpOptRef(a, b, cmp) == Equal <==> EqOptRef(a, b))
    ensures Antisymmetric(cmp) ==> CmpOptRef(b, a, cmp) == CmpOptRef(a, b, cmp).Flip()
  {
    CompareOptTargetLaws(DerefOpt(a), DerefOpt(b), cmp);
  }

  /** By content the owners play no part: two `Some` views of the same place in owners
      holding equal items are equal, and compare Equal, even when the owners are two
      different allocations and the views, as pointers, differ. */
  lemma EqOptRefIgnoresOwner<T(!new)>(a: BoxOwned<T, Option<Ptr>>, b: BoxOwned<T, Option<Ptr>>, cmp: (T, T) -> Ordering)
    requires a.kind == ByContent && b.kind == ByContent
    requires ValidOptRef(a) && ValidOptRef(b)
    requires a.view.Some? && b.view.Some? && a.view.value.loc == b.view.value.loc
    requires a.owner.content == b.owner.content
    ensures EqOptRef(a, b)
    ensures EqConsistent(cmp) ==> CmpOptRef(a, b, cmp) == Equal
    ensures a.owner.addr != b.owner.addr ==> a.view != b.view
  {
    CmpOptRefLaws(a, b, cmp);
  }

  /** `PartialEq` for a view that is a reference (`I = &mut X` or `&X`): by address,
      `ptr::eq`; by content, the referents, since `==` on references compares pointees. */
  function EqRef<T(==)>(a: BoxOwned<T, Ptr>, b: BoxOwned<T, Ptr>): (r: bool)
    requires a.kind == b.kind && SameType(a.view.loc, b.view.loc)
    requires ValidRef(a) && ValidRef(b)
    reads a.owner, b.owner
    ensures a.kind == ByAddress ==> (r <==> a.view == b.view)
    ensures a.kind == ByContent ==> (r <==> DerefRef(a) == DerefRef(b))
  {
    SameAddrIsSamePtr(a.view, b.view);
    match a.kind
    case ByAddress => CompareAddr(a.view, b.view) == Equal
    case ByContent => DerefRef(a) == DerefRef(b)
  }

  /** `Ord::cmp` for a view that is a reference. */
  function CmpRef<T>(a: BoxOwned<T, Ptr>, b: BoxOwned<T, Ptr>, cmp: (T, T) -> Ordering): Ordering
    requires a.kind == b.kind && SameType(a.view.loc, b.view.loc)
    requires ValidRef(a) && ValidRef(b)
    reads a.owner, b.owner
  {
    match a.kind
    case ByAddress => CompareAddr(a.view, b.view)
    case ByContent => CompareTarget(DerefRef(a), DerefRef(b), cmp)
  }

  /** `cmp` agrees with `eq`, is antisymmetric, and by address follows address order. */
  lemma CmpRefLaws<T(!new)>(a: BoxOwned<T, Ptr>, b: BoxOwned<T, Ptr>, cmp: (T, T) -> Ordering)
    requires a.kind == b.kind && SameType(a.view.loc, b.view.loc)
    requires ValidRef(a) && ValidRef(b)
    ensures a.kind == ByAddress ==> (CmpRef(a, b, cmp) == Less <==> AddrBelow(a.view, b.view))
    ensures a.kind == ByAddress || EqConsistent(cmp) ==> (CmpRef(a, b, cmp) == Equal <==> EqRef(a, b))
    ensures a.kind == ByAddress || Antisymmetric(cmp) ==> CmpRef(b, a, cmp) == CmpRef(a, b, cmp).Flip()
  {
    CompareAddrIsTotalOrder(a.view, b.view, b.view);
    CompareTargetLaws(DerefRef(a), DerefRef(b), cmp);
  }

  /** `into_owner` drops the view first and returns the owner untouched, whatever the view became. */
  lemma IntoOwnerIgnoresView<T, V, U>(b: BoxOwned<T, V>, f: V -> U)
    requires b.ownerType == Concrete
    ensures IntoOwner(Map(b, f)) == IntoOwner(b)
    ensures IntoOwner(IntoOwnerRef(b)) == IntoOwner(b)
  {
  }

  /** Erasing and then downcasting to the owner's own type is the identity;
      downcasting to any other type hands back the erased bundle. */
  lemma DowncastUndoesIntoAnyOwner<T, V>(b: BoxOwned<T, V>, bound: AnyBound, other: TypeId)
    requires b.ownerType == Concrete && bound != AnySendSync && other != b.owner.tag
    ensures DowncastOwner(IntoAnyOwner(b, bound), b.owner.tag) == Ok(b)
    ensures DowncastOwner(IntoAnyOwner(b, bound), other) == Err(IntoAnyOwner(b, bound))
  {
  }

  /** `filter_map` is `map` followed by `transpose`, and so is `try_map`. */
  lemma FallibleMapsAreMapThenTranspose<T, V, U, E>(b: BoxOwned<T, V>, f: V -> Option<U>, g: V -> Result<U, E>)
    ensures FilterMap(b, f) == TransposeOption(Map(b, f))
    ensures TryMap(b, g) == TransposeResult(Map(b, g))
  {
  }
}
