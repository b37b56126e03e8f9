/** The memory the bundles live in: heap allocations that hold an owner,
    raw pointers into them, and the two ways of comparing what a view
    denotes (by address and by content). */
module Heap {
  import opened Wrappers

  /** The identity token of a concrete owner type, as `TypeId::of::<O>()`. */
  type TypeId = nat

  /** The trait object an erased owner is typed as. */
  datatype AnyBound =
    | AnySend       // dyn Any + Send
    | AnyLocal      // dyn Any
    | AnySendSync   // dyn Any + Send + Sync

  /** The static type of a bundle's owner: the concrete `O`, or an erased trait object. */
  datatype OwnerType = Concrete | DynAny(bound: AnyBound)

  /** Where inside an owner a reference points: the whole owner, or its i-th item.
      The two constructors are two different referent types (`&O` and `&Item`). */
  datatype Loc = Whole | Index(i: nat)

  /** A raw pointer: the base address of an allocation and the place inside it. */
  datatype Ptr = Ptr(base: nat, loc: Loc)

  /** The value a reference denotes: the whole owner or one of its items. */
  datatype Target<T> = WholeVal(items: seq<T>) | ItemVal(item: T)

  /** Distance of a location from the allocation's base, in items. */
  function Offset(l: Loc): nat
  {
    match l
    case Whole => 0
    case Index(i) => i
  }

  /** Both locations have the same referent type (Rust would not compare them otherwise). */
  predicate SameType(l: Loc, m: Loc)
  {
    l.Whole? == m.Whole?
  }

  /** The location exists in an owner whose items are `s`. */
  predicate InBounds<T>(s: seq<T>, l: Loc)
  {
    l.Whole? || l.i < |s|
  }

  /** Dereference a location against the owner's items. */
  function Resolve<T>(s: seq<T>, l: Loc): (t: Target<T>)
    requires InBounds(s, l)
    ensures t.WholeVal? <==> l.Whole?
    ensures t.WholeVal? ==> t.items == s
    ensures t.ItemVal? ==> t.item == s[l.i]
  {
    match l
    case Whole => WholeVal(s)
    case Index(i) => ItemVal(s[i])
  }

  /** Every location of an owner with n items, one per item, in iteration order. */
  function ItemLocs(n: nat): (ls: seq<Loc>)
    ensures |ls| == n
    ensures forall k :: 0 <= k < n ==> ls[k] == Index(k)
  {
    if n == 0 then [] else ItemLocs(n - 1) + [Index(n - 1)]
  }

  /** What happens, in order, while a bundle is taken apart. */
  datatype DropEvent =
    | ViewDropped     // the view, and whatever it holds, is dropped
    | HandleReleased  // one handle to a shared allocation is given up
    | OwnerMovedOut   // the owner leaves its allocation, which is freed

  /** The view is dropped, and nothing happens to the owner's allocation before that. */
  predicate ViewDroppedFirst(log: seq<DropEvent>)
  {
    ViewDropped in log && forall i :: 0 <= i < |log| && log[i] != ViewDropped ==> ViewDropped in log[..i]
  }

  /** The view is dropped first exactly when the log starts with it. */
  lemma ViewDroppedFirstIsHead(log: seq<DropEvent>)
    ensures ViewDroppedFirst(log) <==> |log| > 0 && log[0] == ViewDropped
  {
    if |log| > 0 && log[0] == ViewDropped {
      forall i | 0 < i < |log|
        ensures ViewDropped in log[..i]
      {
        assert log[..i][0] == ViewDropped;
      }
    }
  }

  // ---------------------------------------------------------------- addresses

  /** `ptr::eq`: the two pointers hold the same address. */
  predicate SameAddr(p: Ptr, q: Ptr)
  {
    p.base == q.base && Offset(p.loc) == Offset(q.loc)
  }

  /** Address order: allocations do not overlap, so comparing (base, offset)
      lexicographically is comparing the numeric addresses. */
  predicate AddrBelow(p: Ptr, q: Ptr)
  {
    p.base < q.base || (p.base == q.base && Offset(p.loc) < Offset(q.loc))
  }

  function CompareNat(a: nat, b: nat): Ordering
  {
    if a < b then Less else if a == b then Equal else Greater
  }

  /** `(p as *const I).cmp(&(q as *const I))`. */
  function CompareAddr(p: Ptr, q: Ptr): (o: Ordering)
    ensures o == Equal <==> SameAddr(p, q)
    ensures o == Less <==> AddrBelow(p, q)
    ensures o == Greater <==> AddrBelow(q, p)
  {
    if p.base < q.base then Less
    else if q.base < p.base then Greater
    else CompareNat(Offset(p.loc), Offset(q.loc))
  }

  /** For two references of the same referent type, equal addresses means the same pointer. */
  lemma SameAddrIsSamePtr(p: Ptr, q: Ptr)
    requires SameType(p.loc, q.loc)
    ensures SameAddr(p, q) <==> p == q
  {
  }

  /** Address order is a strict total order: antisymmetric and transitive. */
  lemma CompareAddrIsTotalOrder(p: Ptr, q: Ptr, r: Ptr)
    ensures CompareAddr(q, p) == CompareAddr(p, q).Flip()
    ensures CompareAddr(p, q) == Less && CompareAddr(q, r) == Less ==> CompareAddr(p, r) == Less
  {
  }

  // ------------------------------------------------------------------ content

  /** The element comparison agrees with equality (`Ord` is consistent with `Eq`). */
  ghost predicate EqConsistent<T(!new)>(cmp: (T, T) -> Ordering)
  {
    forall x, y :: cmp(x, y) == Equal <==> x == y
  }

  /** The element comparison is antisymmetric (`a.cmp(b) == b.cmp(a).reverse()`). */
  ghost predicate Antisymmetric<T(!new)>(cmp: (T, T) -> Ordering)
  {
    forall x, y :: cmp(y, x) == cmp(x, y).Flip()
  }

  /** Lexicographic comparison of two item sequences, as `Ord` for slices,
      arrays and vectors: the first unequal item decides, else the shorter is less. */
  function CompareSeq<T>(a: seq<T>, b: seq<T>, cmp: (T, T) -> Ordering): Ordering
  {
    if a == [] && b == [] then Equal
    else if a == [] then Less
    else if b == [] then Greater
    else
      match cmp(a[0], b[0])
      case Equal => CompareSeq(a[1..], b[1..], cmp)
      case o => o
  }

  lemma {:induction false} CompareSeqEqual<T(!new)>(a: seq<T>, b: seq<T>, cmp: (T, T) -> Ordering)
    requires EqConsistent(cmp)
    ensures CompareSeq(a, b, cmp) == Equal <==> a == b
  {
    if a != [] && b != [] {
      CompareSeqEqual(a[1..], b[1..], cmp);
      assert a == [a[0]] + a[1..];
      assert b == [b[0]] + b[1..];
    }
  }

  lemma {:induction false} CompareSeqFlip<T(!new)>(a: seq<T>, b: seq<T>, cmp: (T, T) -> Ordering)
    requires Antisymmetric(cmp)
    ensures CompareSeq(b, a, cmp) == CompareSeq(a, b, cmp).Flip()
  {
    if a != [] && b != [] {
      CompareSeqFlip(a[1..], b[1..], cmp);
    }
  }

  /** `Ord` of the referent: items by `cmp`, whole owners lexicographically. */
  function CompareTarget<T>(x: Target<T>, y: Target<T>, cmp: (T, T) -> Ordering): Ordering
    requires x.WholeVal? == y.WholeVal?
  {
    match x
    case WholeVal(s) => CompareSeq(s, y.items, cmp)
    case ItemVal(v) => cmp(v, y.item)
  }

  /** Comparing referents says Equal exactly when they are equal, and is antisymmetric. */
  lemma CompareTargetLaws<T(!new)>(x: Target<T>, y: Target<T>, cmp: (T, T) -> Ordering)
    requires x.WholeVal? == y.WholeVal?
    ensures EqConsistent(cmp) ==> (CompareTarget(x, y, cmp) == Equal <==> x == y)
    ensures Antisymmetric(cmp) ==> CompareTarget(y, x, cmp) == CompareTarget(x, y, cmp).Flip()
  {
    if x.WholeVal? {
      if EqConsistent(cmp) { CompareSeqEqual(x.items, y.items, cmp); }
      if Antisymmetric(cmp) { CompareSeqFlip(x.items, y.items, cmp); }
    }
  }

  /** `Ord` for `Option<&X>` by content: `None` is below every `Some`, and two `Some`s
      compare their referents. */
  function CompareOptTarget<T>(x: Option<Target<T>>, y: Option<Target<T>>, cmp: (T, T) -> Ordering): Ordering
    requires x.Some? && y.Some? ==> x.value.WholeVal? == y.value.WholeVal?
  {
    match (x, y)
    case (None, None) => Equal
    case (None, Some(_)) => Less
    case (Some(_), None) => Greater
    case (Some(s), Some(t)) => CompareTarget(s, t, cmp)
  }

  /** The order on optional referents says Equal exactly when they are equal, and is antisymmetric. */
  lemma CompareOptTargetLaws<T(!new)>(x: Option<Target<T>>, y: Option<Target<T>>, cmp: (T, T) -> Ordering)
    requires x.Some? && y.Some? ==> x.value.WholeVal? == y.value.WholeVal?
    ensures EqConsistent(cmp) ==> (CompareOptTarget(x, y, cmp) == Equal <==> x == y)
    ensures Antisymmetric(cmp) ==> CompareOptTarget(y, x, cmp) == CompareOptTarget(x, y, cmp).Flip()
  {
    if x.Some? && y.Some? {
      CompareTargetLaws(x.value, y.value, cmp);
    }
  }

  // -------------------------------------------------------------- allocations

  /** A `Box<O>` allocation: unique, its content writable through a `&mut` view. */
  class BoxCell<T> {
    const addr: nat
    const tag: TypeId
    var content: seq<T>

    constructor (addr: nat, tag: TypeId, content: seq<T>)
      ensures this.addr == addr && this.tag == tag && this.content == content
    {
      this.addr := addr;
      this.tag := tag;
      this.content := content;
    }
  }

  /** An `Arc<O>` allocation: shared and never written, with its strong count. */
  class ArcCell<T> {
    const addr: nat
    const tag: TypeId
    const content: seq<T>
    var strong: nat

    /** `Arc::new`: the new allocation has exactly one holder. */
    constructor (addr: nat, tag: TypeId, content: seq<T>)
      ensures this.addr == addr && this.tag == tag && this.content == content
      ensures strong == 1
    {
      this.addr := addr;
      this.tag := tag;
      this.content := content;
      strong := 1;
    }

    /** `Arc::clone` on a handle to this allocation. */
    method Acquire()
      modifies this
      ensures strong == old(strong) + 1
    {
      strong := strong + 1;
    }

    /** Dropping one handle to this allocation. */
    method Release()
      requires strong >= 1
      modifies this
      ensures strong == old(strong) - 1
    {
      strong := strong - 1;
    }

    /** `Arc::try_unwrap`: the content comes out exactly when the caller holds the only
        handle, which then no longer counts; otherwise the handle is handed back as it was. */
    method TryUnwrap() returns (r: Option<seq<T>>)
      requires strong >= 1
      modifies this
      ensures r.Some? <==> old(strong) == 1
      ensures r.Some? ==> r.value == content && strong == 0
      ensures r.None? ==> strong == old(strong)
    {
      if strong == 1 {
        strong := 0;
        r := Some(content);
      } else {
        r := None;
      }
    }
  }
}
