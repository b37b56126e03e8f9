/** `ArcRef`: a shared `&` reference into an owner held in an `Arc`. The owner's
    content never changes; what changes is the allocation's strong count, which
    `clone`, `flatten`, `flat_map`, the failure paths and `try_unwrap_owner` move. */
module ArcRefs {
  import opened Wrappers
  import opened Marker
  import opened Heap

  /** `ArcRef<O, I, E>`: a handle to the owner's `Arc`, the view, and the ordering policy `E`. */
  datatype ArcRef<T> = ArcRef(owner: ArcCell<T>, view: Ptr, kind: EqKind)

  /** The view points into the bundle's own allocation, at a place that exists. */
  predicate Valid<T>(b: ArcRef<T>)
  {
    b.view.base == b.owner.addr && InBounds(b.owner.content, b.view.loc)
  }

  /** `Deref`/`AsRef`: the value the view denotes, read from the owner. */
  function Deref<T>(b: ArcRef<T>): (t: Target<T>)
    requires Valid(b)
    ensures b.view.loc.Whole? ==> t == WholeVal(b.owner.content)
    ensures b.view.loc.Index? ==> t == ItemVal(b.owner.content[b.view.loc.i])
  {
    Resolve(b.owner.content, b.view.loc)
  }

  /** `from_arc` / `From<Arc<O>>`: takes over the handle; the view denotes the whole owner. */
  function FromArc<T>(kind: EqKind, owner: ArcCell<T>): (r: ArcRef<T>)
    ensures Valid(r) && r.owner == owner && r.kind == kind
    ensures Deref(r) == WholeVal(owner.content)
  {
    ArcRef(owner, Ptr(owner.addr, Whole), kind)
  }

  /** `new`: put the owner in a new `Arc` (at the address the allocator picks), then `FromArc`. */
  method New<T>(kind: EqKind, addr: nat, tag: TypeId, owner: seq<T>) returns (r: ArcRef<T>)
    ensures fresh(r.owner) && r.owner.addr == addr && r.owner.tag == tag && r.owner.strong == 1
    ensures Valid(r) && r.kind == kind && Deref(r) == WholeVal(owner)
  {
    var cell := new ArcCell(addr, tag, owner);
    r := FromArc(kind, cell);
  }

  /** `into_arc`: drop the view, hand back the `Arc` handle (the count does not move). */
  function IntoArc<T>(b: ArcRef<T>): ArcCell<T>
  {
    b.owner
  }

  /** `into_owner_ref`: drop the view and make a new one that denotes the whole owner. */
  function IntoOwnerRef<T>(b: ArcRef<T>): (r: ArcRef<T>)
    ensures Valid(r) && r.owner == b.owner && r.kind == b.kind
    ensures Deref(r) == WholeVal(b.owner.content)
  {
    ArcRef(b.owner, Ptr(b.owner.addr, Whole), b.kind)
  }

  /** `into_arc` then `from_arc` is `into_owner_ref`: the same handle with a whole-owner view. */
  lemma IntoArcFromArc<T>(b: ArcRef<T>)
    ensures FromArc(b.kind, IntoArc(b)) == IntoOwnerRef(b)
  {
  }

  /** `strong_count`: the number of live handles to the owner's allocation. */
  function StrongCount<T>(b: ArcRef<T>): (n: nat)
    reads b.owner
  {
    b.owner.strong
  }

  /** `map`: `f` narrows (or moves) the reference; Rust's lifetimes make its result a
      live reference into the same owner, which is the second precondition. */
  function Map<T>(b: ArcRef<T>, f: Loc -> Loc): (r: ArcRef<T>)
    requires Valid(b) && InBounds(b.owner.content, f(b.view.loc))
    ensures Valid(r) && r.owner == b.owner && r.kind == b.kind
    ensures Deref(r) == Resolve(b.owner.content, f(b.view.loc))
  {
    ArcRef(b.owner, Ptr(b.view.base, f(b.view.loc)), b.kind)
  }

  /** `try_map`: f's error comes back untouched and the handle is dropped; on success
      the owner is kept and the count does not move. */
  method TryMap<T, E>(b: ArcRef<T>, f: Loc -> Result<Loc, E>) returns (r: Result<ArcRef<T>, E>)
    requires Valid(b) && b.owner.strong >= 1
    requires f(b.view.loc).Ok? ==> InBounds(b.owner.content, f(b.view.loc).value)
    modifies b.owner
    ensures r.Err? <==> f(b.view.loc).Err?
    ensures r.Err? ==> r.error == f(b.view.loc).error && b.owner.strong == old(b.owner.strong) - 1
    ensures r.Ok? ==> r.value == Map(b, _ => f(b.view.loc).value) && b.owner.strong == old(b.owner.strong)
  {
    match f(b.view.loc)
    case Err(e) =>
      b.owner.Release();
      r := Err(e);
    case Ok(l) =>
      r := Ok(ArcRef(b.owner, Ptr(b.view.base, l), b.kind));
  }

  /** `filter_map`: None exactly when f gives None, and then the handle is dropped. */
  method FilterMap<T>(b: ArcRef<T>, f: Loc -> Option<Loc>) returns (r: Option<ArcRef<T>>)
    requires Valid(b) && b.owner.strong >= 1
    requires f(b.view.loc).Some? ==> InBounds(b.owner.content, f(b.view.loc).value)
    modifies b.owner
    ensures r.None? <==> f(b.view.loc).None?
    ensures r.None? ==> b.owner.strong == old(b.owner.strong) - 1
    ensures r.Some? ==> r.value == Map(b, _ => f(b.view.loc).value) && b.owner.strong == old(b.owner.strong)
  {
    match f(b.view.loc)
    case None =>
      b.owner.Release();
      r := None;
    case Some(l) =>
      r := Some(ArcRef(b.owner, Ptr(b.view.base, l), b.kind));
  }

  /** `clone`: one more handle, and the very same reference. */
  method Clone<T>(b: ArcRef<T>) returns (c: ArcRef<T>)
    requires b.owner.strong >= 1
    modifies b.owner
    ensures c == b
    ensures b.owner.strong == old(b.owner.strong) + 1
  {
    b.owner.Acquire();
    c := b;
  }

  /** Dropping a bundle drops its view, then its handle. */
  method Drop<T>(b: ArcRef<T>)
    requires b.owner.strong >= 1
    modifies b.owner
    ensures b.owner.strong == old(b.owner.strong) - 1
  {
    b.owner.Release();
  }

  /** `try_unwrap_owner`: the owner comes out exactly when this is the only handle;
      otherwise None, and the bundle is dropped (it is not handed back). */
  method TryUnwrapOwner<T>(b: ArcRef<T>) returns (r: Option<seq<T>>)
    requires b.owner.strong >= 1
    modifies b.owner
    ensures r.Some? <==> old(b.owner.strong) == 1
    ensures r.Some? ==> r.value == b.owner.content
    ensures b.owner.strong == old(b.owner.strong) - 1
  {
    r := b.owner.TryUnwrap();
    if r.None? {
      b.owner.Release();
    }
  }

  /** `unwrap_owner`: panics unless this is the only handle, which is its precondition here. */
  method UnwrapOwner<T>(b: ArcRef<T>) returns (r: seq<T>)
    requires b.owner.strong == 1
    modifies b.owner
    ensures r == b.owner.content && b.owner.strong == 0
  {
    var o := TryUnwrapOwner(b);
    r := o.value;
  }

  /** One bundle per location, each on its own clone of the handle, in order. */
  method WrapEach<T>(owner: ArcCell<T>, kind: EqKind, locs: seq<Loc>) returns (rs: seq<ArcRef<T>>)
    requires forall k :: 0 <= k < |locs| ==> InBounds(owner.content, locs[k])
    modifies owner
    ensures |rs| == |locs|
    ensures forall k :: 0 <= k < |locs| ==> rs[k] == ArcRef(owner, Ptr(owner.addr, locs[k]), kind) && Valid(rs[k])
    ensures owner.strong == old(owner.strong) + |locs|
  {
    rs := [];
    var k := 0;
    while k < |locs|
      invariant 0 <= k <= |locs|
      invariant |rs| == k
      invariant forall j :: 0 <= j < k ==> rs[j] == ArcRef(owner, Ptr(owner.addr, locs[j]), kind)
      invariant owner.strong == old(owner.strong) + k
    {
      owner.Acquire();
      rs := rs + [ArcRef(owner, Ptr(owner.addr, locs[k]), kind)];
      k := k + 1;
    }
  }

  /** `flatten`, collected: one bundle per item of the owner, viewing that item, in order.
      Each clones the handle; the original handle is dropped once the iterator is. */
  method Flatten<T>(b: ArcRef<T>) returns (rs: seq<ArcRef<T>>)
    requires Valid(b) && b.view.loc.Whole? && b.owner.strong >= 1
    modifies b.owner
    ensures |rs| == |b.owner.content|
    ensures forall k :: 0 <= k < |rs| ==>
      rs[k].owner == b.owner && rs[k].kind == b.kind && rs[k].view.loc == Index(k)
      && Valid(rs[k]) && Deref(rs[k]) == ItemVal(b.owner.content[k])
    ensures b.owner.strong == old(b.owner.strong) - 1 + |b.owner.content|
  {
    rs := WrapEach(b.owner, b.kind, ItemLocs(|b.owner.content|));
    Drop(b);
  }

  /** `flat_map`, collected: one bundle per reference `f` yields, in order, each sharing the owner. */
  method FlatMap<T>(b: ArcRef<T>, f: Loc -> seq<Loc>) returns (rs: seq<ArcRef<T>>)
    requires Valid(b) && b.owner.strong >= 1
    requires forall k :: 0 <= k < |f(b.view.loc)| ==> InBounds(b.owner.content, f(b.view.loc)[k])
    modifies b.owner
    ensures |rs| == |f(b.view.loc)|
    ensures forall k :: 0 <= k < |rs| ==>
      rs[k].owner == b.owner && rs[k].kind == b.kind && rs[k].view.loc == f(b.view.loc)[k]
      && Valid(rs[k]) && Deref(rs[k]) == Resolve(b.owner.content, f(b.view.loc)[k])
    ensures b.owner.strong == old(b.owner.strong) - 1 + |f(b.view.loc)|
  {
    rs := WrapEach(b.owner, b.kind, f(b.view.loc));
    Drop(b);
  }

  /** `PartialEq`: by address, `ptr::eq` on the views; by content, `==` on what they denote. */
  function Eq<T(==)>(a: ArcRef<T>, b: ArcRef<T>): (r: bool)
    requires a.kind == b.kind && SameType(a.view.loc, b.view.loc)
    requires Valid(a) && Valid(b)
    ensures a.kind == ByAddress ==> (r <==> a.view == b.view)
    ensures a.kind == ByContent ==> (r <==> Deref(a) == Deref(b))
  {
    SameAddrIsSamePtr(a.view, b.view);
    match a.kind
    case ByAddress => CompareAddr(a.view, b.view) == Equal
    case ByContent => Deref(a) == Deref(b)
  }

  /** `Ord::cmp`: by address, pointer order; by content, `cmp` on what the views denote. */
  function Cmp<T>(a: ArcRef<T>, b: ArcRef<T>, cmp: (T, T) -> Ordering): Ordering
    requires a.kind == b.kind && SameType(a.view.loc, b.view.loc)
    requires Valid(a) && Valid(b)
  {
    match a.kind
    case ByAddress => CompareAddr(a.view, b.view)
    case ByContent => CompareTarget(Deref(a), Deref(b), cmp)
  }

  /** `cmp` agrees with `eq`, is antisymmetric, and by address follows address order. */
  lemma CmpLaws<T(!new)>(a: ArcRef<T>, b: ArcRef<T>, cmp: (T, T) -> Ordering)
    requires a.kind == b.kind && SameType(a.view.loc, b.view.loc)
    requires Valid(a) && Valid(b)
    ensures a.kind == ByAddress ==> (Cmp(a, b, cmp) == Less <==> AddrBelow(a.view, b.view))
    ensures a.kind == ByAddress || EqConsistent(cmp) ==> (Cmp(a, b, cmp) == Equal <==> Eq(a, b))
    ensures a.kind == ByAddress || Antisymmetric(cmp) ==> Cmp(b, a, cmp) == Cmp(a, b, cmp).Flip()
  {
    CompareAddrIsTotalOrder(a.view, b.view, b.view);
    CompareTargetLaws(Deref(a), Deref(b), cmp);
  }

  /** Two views on one shared owner that are equal by address denote equal content:
      the address policy is finer than the content policy. */
  lemma AddressEqualImpliesContentEqual<T>(a: ArcRef<T>, b: ArcRef<T>)
    requires a.owner == b.owner && SameType(a.view.loc, b.view.loc)
    requires Valid(a) && Valid(b)
    requires a.kind == b.kind == ByAddress && Eq(a, b)
    ensures Deref(a) == Deref(b)
    ensures Eq(a.(kind := ByContent), b.(kind := ByContent))
  {
  }
}
