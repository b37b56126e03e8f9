/** `ArcOwned`: an owned value `V`, possibly holding references into the owner,
    bundled with a handle to an owner held in an `Arc`. A view that is itself a
    reference into the owner is the instance `V = Ptr`. */
module ArcOwneds {
  import opened Wrappers
  import opened Marker
  import opened Heap

  /** `ArcOwned<O, I, E>`: a handle to the owner's `Arc`, the owned view, and the ordering policy `E`. */
  datatype ArcOwned<T, V> = ArcOwned(ownerType: OwnerType, owner: ArcCell<T>, view: V, kind: EqKind)

  /** For a view that is a reference: it points into the bundle's own allocation. */
  predicate ValidRef<T>(b: ArcOwned<T, Ptr>)
  {
    b.view.base == b.owner.addr && InBounds(b.owner.content, b.view.loc)
  }

  /** `**b` for a view that is a reference: the value it denotes. */
  function DerefRef<T>(b: ArcOwned<T, Ptr>): (t: Target<T>)
    requires ValidRef(b)
    ensures b.view.loc.Whole? ==> t == WholeVal(b.owner.content)
    ensures b.view.loc.Index? ==> t == ItemVal(b.owner.content[b.view.loc.i])
  {
    Resolve(b.owner.content, b.view.loc)
  }

  /** `from_arc` / `From<Arc<O>>`, for a concrete or an erased (`dyn Any`) owner type alike:
      takes over the handle; the view is a `&O` to the whole owner. */
  function FromArc<T>(kind: EqKind, ownerType: OwnerType, owner: ArcCell<T>): (r: ArcOwned<T, Ptr>)
    ensures ValidRef(r) && r.owner == owner && r.kind == kind && r.ownerType == ownerType
    ensures DerefRef(r) == WholeVal(owner.content)
  {
    ArcOwned(ownerType, owner, Ptr(owner.addr, Whole), kind)
  }

  /** `new`: put the owner in a new `Arc` (at the address the allocator picks), then `FromArc`. */
  method New<T>(kind: EqKind, addr: nat, tag: TypeId, owner: seq<T>) returns (r: ArcOwned<T, Ptr>)
    ensures fresh(r.owner) && r.owner.addr == addr && r.owner.tag == tag && r.owner.strong == 1
    ensures ValidRef(r) && r.kind == kind && r.ownerType == Concrete
    ensures DerefRef(r) == WholeVal(owner)
  {
    var cell := new ArcCell(addr, tag, owner);
    r := FromArc(kind, Concrete, cell);
  }

  /** `into_arc`: drop the view, hand back the `Arc` handle (the count does not move). */
  function IntoArc<T, V>(b: ArcOwned<T, V>): ArcCell<T>
  {
    b.owner
  }

  /** `into_owner_ref`: drop the view and make a new one that denotes the whole owner. */
  function IntoOwnerRef<T, V>(b: ArcOwned<T, V>): (r: ArcOwned<T, Ptr>)
    ensures ValidRef(r) && r.owner == b.owner && r.kind == b.kind && r.ownerType == b.ownerType
    ensures DerefRef(r) == WholeVal(b.owner.content)
  {
    ArcOwned(b.ownerType, b.owner, Ptr(b.owner.addr, Whole), b.kind)
  }

  /** `into_arc` then `from_arc` is `into_owner_ref`: the same handle with a whole-owner view. */
  lemma IntoArcFromArc<T, V>(b: ArcOwned<T, V>)
    ensures FromArc(b.kind, b.ownerType, IntoArc(b)) == IntoOwnerRef(b)
  {
  }

  /** `strong_count`: the number of live handles to the owner's allocation. */
  function StrongCount<T, V>(b: ArcOwned<T, V>): (n: nat)
    reads b.owner
  {
    b.owner.strong
  }

  /** `map`: the same handle, and the view `f(view)` of any type; the count does not move. */
  function Map<T, V, U>(b: ArcOwned<T, V>, f: V -> U): (r: ArcOwned<T, U>)
    ensures r.owner == b.owner && r.kind == b.kind && r.ownerType == b.ownerType
    ensures r.view == f(b.view)
  {
    ArcOwned(b.ownerType, b.owner, f(b.view), b.kind)
  }

  /** `try_map`: f's error comes back untouched and the handle is dropped; on `Ok(x)`
      the handle is kept, the view is x, and the count does not move. */
  method TryMap<T, V, U, E>(b: ArcOwned<T, V>, f: V -> Result<U, E>) returns (r: Result<ArcOwned<T, U>, E>)
    requires b.owner.strong >= 1
    modifies b.owner
    ensures r.Err? <==> f(b.view).Err?
    ensures r.Err? ==> r.error == f(b.view).error && b.owner.strong == old(b.owner.strong) - 1
    ensures r.Ok? ==> r.value == Map(b, _ => f(b.view).value) && b.owner.strong == old(b.owner.strong)
  {
    r := TransposeResult(Map(b, f));
  }

  /** `filter_map`: None exactly when f gives None, and then the handle is dropped. */
  method FilterMap<T, V, U>(b: ArcOwned<T, V>, f: V -> Option<U>) returns (r: Option<ArcOwned<T, U>>)
    requires b.owner.strong >= 1
    modifies b.owner
    ensures r.None? <==> f(b.view).None?
    ensures r.None? ==> b.owner.strong == old(b.owner.strong) - 1
    ensures r.Some? ==> r.value == Map(b, _ => f(b.view).value) && b.owner.strong == old(b.owner.strong)
  {
    r := TransposeOption(Map(b, f));
  }

  /** `transpose` of a bundle of an `Option`: on None the handle is dropped. */
  method TransposeOption<T, V>(b: ArcOwned<T, Option<V>>) returns (r: Option<ArcOwned<T, V>>)
    requires b.owner.strong >= 1
    modifies b.owner
    ensures r.None? <==> b.view.None?
    ensures r.None? ==> b.owner.strong == old(b.owner.strong) - 1
    ensures r.Some? ==> r.value == ArcOwned(b.ownerType, b.owner, b.view.value, b.kind)
                        && b.owner.strong == old(b.owner.strong)
  {
    match b.view
    case None =>
      b.owner.Release();
      r := None;
    case Some(x) =>
      r := Some(ArcOwned(b.ownerType, b.owner, x, b.kind));
  }

  /** `transpose` of a bundle of a `Result`: on `Err(e)` the handle is dropped and e comes back. */
  method TransposeResult<T, V, E>(b: ArcOwned<T, Result<V, E>>) returns (r: Result<ArcOwned<T, V>, E>)
    requires b.owner.strong >= 1
    modifies b.owner
    ensures r.Err? <==> b.view.Err?
    ensures r.Err? ==> r.error == b.view.error && b.owner.strong == old(b.owner.strong) - 1
    ensures r.Ok? ==> r.value == ArcOwned(b.ownerType, b.owner, b.view.value, b.kind)
                      && b.owner.strong == old(b.owner.strong)
  {
    match b.view
    case Err(e) =>
      b.owner.Release();
      r := Err(e);
    case Ok(x) =>
      r := Ok(ArcOwned(b.ownerType, b.owner, x, b.kind));
  }

  /** `clone`: one more handle, and a copy of the view. */
  method Clone<T, V>(b: ArcOwned<T, V>) returns (c: ArcOwned<T, V>)
    requires b.owner.strong >= 1
    modifies b.owner
    ensures c == b
    ensures b.owner.strong == old(b.owner.strong) + 1
  {
    b.owner.Acquire();
    c := b;
  }

  /** Dropping a bundle: its fields drop in declaration order, the view before the handle. */
  method Drop<T, V>(b: ArcOwned<T, V>) returns (log: seq<DropEvent>)
    requires b.owner.strong >= 1
    modifies b.owner
    ensures b.owner.strong == old(b.owner.strong) - 1
    ensures ViewDroppedFirst(log) && HandleReleased in log
  {
    log := [ViewDropped];
    b.owner.Release();
    log := log + [HandleReleased];
  }

  /** `try_unwrap_owner` as written: `Arc::try_unwrap` runs while the view is alive, and on
      success the view, still holding references into the allocation, is dropped only at
      the end of the function, after the owner has been moved out and the allocation freed. */
  method TryUnwrapOwnerAsWritten<T, V>(b: ArcOwned<T, V>) returns (r: Result<seq<T>, ArcOwned<T, V>>, log: seq<DropEvent>)
    requires b.ownerType == Concrete && b.owner.strong >= 1
    modifies b.owner
    ensures r.Ok? <==> old(b.owner.strong) == 1
    ensures r.Ok? ==> r.value == b.owner.content && b.owner.strong == 0
    ensures r.Ok? ==> log == [OwnerMovedOut, ViewDropped] && !ViewDroppedFirst(log)
    ensures r.Err? ==> r.error == b && b.owner.strong == old(b.owner.strong) && log == []
  {
    log := [];
    var o := b.owner.TryUnwrap();
    match o
    case Some(content) =>
      log := log + [OwnerMovedOut];
      r := Ok(content);
      log := log + [ViewDropped];
      ViewDroppedFirstIsHead(log);
    case None =>
      r := Err(b);
  }

  /** `try_unwrap_owner`, with the view dropped before the owner leaves its allocation, as
      `into_arc` and `into_owner_ref` do. Whether this is the only handle is decided first,
      since on failure the view must come back with the bundle. The owner comes out exactly
      when this is the only handle; otherwise the same bundle comes back and the count
      does not move. */
  method TryUnwrapOwner<T, V>(b: ArcOwned<T, V>) returns (r: Result<seq<T>, ArcOwned<T, V>>, log: seq<DropEvent>)
    requires b.ownerType == Concrete && b.owner.strong >= 1
    modifies b.owner
    ensures r.Ok? <==> old(b.owner.strong) == 1
    ensures r.Ok? ==> r.value == b.owner.content && b.owner.strong == 0
    ensures r.Ok? ==> log == [ViewDropped, OwnerMovedOut] && ViewDroppedFirst(log)
    ensures r.Err? ==> r.error == b && b.owner.strong == old(b.owner.strong) && log == []
  {
    log := [];
    if b.owner.strong == 1 {
      log := log + [ViewDropped];
      var o := b.owner.TryUnwrap();
      log := log + [OwnerMovedOut];
      r := Ok(o.value);
    } else {
      r := Err(b);
    }
  }

  /** `unwrap_owner` as written: it calls `try_unwrap_owner` as written, so the owner comes
      out before the view is dropped. It panics unless this is the only handle, which is its
      precondition here. */
  method UnwrapOwnerAsWritten<T, V>(b: ArcOwned<T, V>) returns (r: seq<T>, log: seq<DropEvent>)
    requires b.ownerType == Concrete && b.owner.strong == 1
    modifies b.owner
    ensures r == b.owner.content && b.owner.strong == 0
    ensures !ViewDroppedFirst(log)
  {
    var o;
    o, log := TryUnwrapOwnerAsWritten(b);
    r := o.value;
  }

  /** `unwrap_owner` on the corrected `try_unwrap_owner`: the view is dropped before the
      owner comes out. It panics unless this is the only handle, which is its precondition here. */
  method UnwrapOwner<T, V>(b: ArcOwned<T, V>) returns (r: seq<T>, log: seq<DropEvent>)
    requires b.ownerType == Concrete && b.owner.strong == 1
    modifies b.owner
    ensures r == b.owner.content && b.owner.strong == 0
    ensures ViewDroppedFirst(log)
  {
    var o;
    o, log := TryUnwrapOwner(b);
    r := o.value;
  }

  /** `flatten`, collected: one bundle per item of the view, in iteration order, each on
      its own clone of the handle; the original handle is dropped once the iterator is. */
  method Flatten<T, U>(b: ArcOwned<T, seq<U>>) returns (rs: seq<ArcOwned<T, U>>)
    requires b.owner.strong >= 1
    modifies b.owner
    ensures |rs| == |b.view|
    ensures forall k :: 0 <= k < |rs| ==> rs[k] == ArcOwned(b.ownerType, b.owner, b.view[k], b.kind)
    ensures b.owner.strong == old(b.owner.strong) - 1 + |b.view|
  {
    rs := [];
    var k := 0;
    while k < |b.view|
      invariant 0 <= k <= |b.view|
      invariant |rs| == k
      invariant forall j :: 0 <= j < k ==> rs[j] == ArcOwned(b.ownerType, b.owner, b.view[j], b.kind)
      invariant b.owner.strong == old(b.owner.strong) + k
    {
      b.owner.Acquire();
      rs := rs + [ArcOwned(b.ownerType, b.owner, b.view[k], b.kind)];
      k := k + 1;
    }
    var dropped := Drop(b);
  }

  /** `flat_map`: `map(f)` followed by `flatten`. */
  method FlatMap<T, V, U>(b: ArcOwned<T, V>, f: V -> seq<U>) returns (rs: seq<ArcOwned<T, U>>)
    requires b.owner.strong >= 1
    modifies b.owner
    ensures |rs| == |f(b.view)|
    ensures forall k :: 0 <= k < |rs| ==> rs[k] == ArcOwned(b.ownerType, b.owner, f(b.view)[k], b.kind)
    ensures b.owner.strong == old(b.owner.strong) - 1 + |f(b.view)|
  {
    rs := Flatten(Map(b, f));
  }

  /** `into_any_owner`: the owner is re-typed as `dyn Any + Send + Sync`. */
  function IntoAnyOwner<T, V>(b: ArcOwned<T, V>): ArcOwned<T, V>
    requires b.ownerType == Concrete
  {
    b.(ownerType := DynAny(AnySendSync))
  }

  /** `downcast_owner`: succeeds exactly when the owner's dynamic type is `want`;
      otherwise the erased bundle comes back as it was. */
  function DowncastOwner<T, V>(b: ArcOwned<T, V>, want: TypeId): (r: Result<ArcOwned<T, V>, ArcOwned<T, V>>)
    requires b.ownerType == DynAny(AnySendSync)
    ensures r.Ok? <==> b.owner.tag == want
    ensures r.Ok? ==> r.value == b.(ownerType := Concrete)
    ensures r.Err? ==> r.error == b
  {
    if b.owner.tag == want then Ok(b.(ownerType := Concrete)) else Err(b)
  }

  /** Erasing and then downcasting to the owner's own type is the identity;
      downcasting to any other type hands back the erased bundle. */
  lemma DowncastUndoesIntoAnyOwner<T, V>(b: ArcOwned<T, V>, other: TypeId)
    requires b.ownerType == Concrete && other != b.owner.tag
    ensures DowncastOwner(IntoAnyOwner(b), b.owner.tag) == Ok(b)
    ensures DowncastOwner(IntoAnyOwner(b), other) == Err(IntoAnyOwner(b))
  {
  }

  /** `PartialEq` by content for a view that holds no reference into the owner,
      compared as a value (`I: PartialEq`). */
  function EqValue<T, V(==)>(a: ArcOwned<T, V>, b: ArcOwned<T, V>): bool
    requires a.kind == ByContent && b.kind == ByContent
  {
    a.view == b.view
  }

  /** `Ord` by content for a view that holds no reference into the owner (`I: Ord`). */
  function CmpValue<T, V>(a: ArcOwned<T, V>, b: ArcOwned<T, V>, cmp: (V, V) -> Ordering): Ordering
    requires a.kind == ByContent && b.kind == ByContent
  {
    cmp(a.view, b.view)
  }

  /** For a view that is an `Option<&X>`: a `Some` points into the bundle's own allocation. */
  predicate ValidOptRef<T>(b: ArcOwned<T, Option<Ptr>>)
  {
    b.view.Some? ==> b.view.value.base == b.owner.addr && InBounds(b.owner.content, b.view.value.loc)
  }

  /** An `Option<&X>` view with its reference, if any, replaced by the referent. */
  function DerefOpt<T>(b: ArcOwned<T, Option<Ptr>>): (t: Option<Target<T>>)
    requires ValidOptRef(b)
    ensures t.None? <==> b.view.None?
    ensures t.Some? ==> t.value == Resolve(b.owner.content, b.view.value.loc)
  {
    match b.view
    case None => None
    case Some(p) => Some(Resolve(b.owner.content, p.loc))
  }

  /** `PartialEq` by content for an `Option<&X>` view: `==` on `Option` and on references
      compares the referents, read from each bundle's own owner. */
  function EqOptRef<T(==)>(a: ArcOwned<T, Option<Ptr>>, b: ArcOwned<T, Option<Ptr>>): (r: bool)
    requires a.kind == ByContent && b.kind == ByContent
    requires ValidOptRef(a) && ValidOptRef(b)
    ensures r <==> (a.view.None? && b.view.None?)
                   || (a.view.Some? && b.view.Some?
                       && Resolve(a.owner.content, a.view.value.loc) == Resolve(b.owner.content, b.view.value.loc))
  {
    DerefOpt(a) == DerefOpt(b)
  }

  /** `Ord` by content for an `Option<&X>` view: `None` first, then the referents' order. */
  function CmpOptRef<T>(a: ArcOwned<T, Option<Ptr>>, b: ArcOwned<T, Option<Ptr>>, cmp: (T, T) -> Ordering): Ordering
    requires a.kind == ByContent && b.kind == ByContent
    requires ValidOptRef(a) && ValidOptRef(b)
    requires a.view.Some? && b.view.Some? ==> SameType(a.view.value.loc, b.view.value.loc)
  {
    CompareOptTarget(DerefOpt(a), DerefOpt(b), cmp)
  }

  /** For `Option<&X>` views, `cmp` agrees with `eq` and is antisymmetric. */
  lemma CmpOptRefLaws<T(!new)>(a: ArcOwned<T, Option<Ptr>>, b: ArcOwned<T, Option<Ptr>>, cmp: (T, T) -> Ordering)
    requires a.kind == ByContent && b.kind == ByContent
    requires ValidOptRef(a) && ValidOptRef(b)
    requires a.view.Some? && b.view.Some? ==> SameType(a.view.value.loc, b.view.value.loc)
    ensures EqConsistent(cmp) ==> (CmpOptRef(a, b, cmp) == Equal <==> EqOptRef(a, b))
    ensures Antisymmetric(cmp) ==> CmpOptRef(b, a, cmp) == CmpOptRef(a, b, cmp).Flip()
  {
    CompareOptTargetLaws(DerefOpt(a), DerefOpt(b), cmp);
  }

  /** By content the owners play no part: two `Some` views of the same place in owners
      holding equal items are equal, and compare Equal, even when the owners are two
      different allocations and the views, as pointers, differ. */
  lemma EqOptRefIgnoresOwner<T(!new)>(a: ArcOwned<T, Option<Ptr>>, b: ArcOwned<T, Option<Ptr>>, cmp: (T, T) -> Ordering)
    requires a.kind == ByContent && b.kind == ByContent
    requires ValidOptRef(a) && ValidOptRef(b)
    requires a.view.Some? && b.view.Some? && a.view.value.loc == b.view.value.loc
    requires a.owner.content == b.owner.content
    ensures EqOptRef(a, b)
    ensures EqConsistent(cmp) ==> CmpOptRef(a, b, cmp) == Equal
    ensures a.owner.addr != b.owner.addr ==> a.view != b.view
  {
    CmpOptRefLaws(a, b, cmp);
  }

  /** `PartialEq` for a view that is a reference (`I = &X`): by address, `ptr::eq`;
      by content, the referents, since `==` on references compares pointees. */
  function EqRef<T(==)>(a: ArcOwned<T, Ptr>, b: ArcOwned<T, Ptr>): (r: bool)
    requires a.kind == b.kind && SameType(a.view.loc, b.view.loc)
    requires ValidRef(a) && ValidRef(b)
    ensures a.kind == ByAddress ==> (r <==> a.view == b.view)
    ensures a.kind == ByContent ==> (r <==> DerefRef(a) == DerefRef(b))
  {
    SameAddrIsSamePtr(a.view, b.view);
    match a.kind
    case ByAddress => CompareAddr(a.view, b.view) == Equal
    case ByContent => DerefRef(a) == DerefRef(b)
  }

  /** `Ord::cmp` for a view that is a reference. */
  function CmpRef<T>(a: ArcOwned<T, Ptr>, b: ArcOwned<T, Ptr>, cmp: (T, T) -> Ordering): Ordering
    requires a.kind == b.kind && SameType(a.view.loc, b.view.loc)
    requires ValidRef(a) && ValidRef(b)
  {
    match a.kind
    case ByAddress => CompareAddr(a.view, b.view)
    case ByContent => CompareTarget(DerefRef(a), DerefRef(b), cmp)
  }

  /** `cmp` agrees with `eq`, is antisymmetric, and by address follows address order. */
  lemma CmpRefLaws<T(!new)>(a: ArcOwned<T, Ptr>, b: ArcOwned<T, Ptr>, cmp: (T, T) -> Ordering)
    requires a.kind == b.kind && SameType(a.view.loc, b.view.loc)
    requires ValidRef(a) && ValidRef(b)
    ensures a.kind == ByAddress ==> (CmpRef(a, b, cmp) == Less <==> AddrBelow(a.view, b.view))
    ensures a.kind == ByAddress || EqConsistent(cmp) ==> (CmpRef(a, b, cmp) == Equal <==> EqRef(a, b))
    ensures a.kind == ByAddress || Antisymmetric(cmp) ==> CmpRef(b, a, cmp) == CmpRef(a, b, cmp).Flip()
  {
    CompareAddrIsTotalOrder(a.view, b.view, b.view);
    CompareTargetLaws(DerefRef(a), DerefRef(b), cmp);
  }
}
