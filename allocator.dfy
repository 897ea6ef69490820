/**
 * `allocator<T>`: the STL-style adapter over a provider. It turns the no-throw
 * layer underneath into failures, checked in a fixed order; a C++ exception is
 * an `Err` carrying which of the four failures it was.
 */
module Adapter {
  import opened Descriptors
  import opened Kernel

  /** `(size_type)-1` for a 64-bit `size_t`. */
  const SizeMax: nat := 0xFFFF_FFFF_FFFF_FFFF

  /** `sizeof(T)`, which C++ never lets be zero. */
  type ElemSize = s: nat | 0 < s witness 1

  /** The exceptions the adapter throws. */
  datatype Failure =
    | UnsetProvider              // std::invalid_argument("Unset provider")
    | BadAlloc                   // std::bad_alloc
    | SystemError(ec: ErrorCode) // std::system_error(ec)
    | AddressNotFound            // std::invalid_argument("Address not found")

  datatype Result<T> = Ok(value: T) | Err(failure: Failure)

  /** Floor division bounds the quotient from both sides. */
  lemma DivBounds(a: nat, b: nat)
    requires 0 < b
    ensures (a / b) * b <= a < (a / b + 1) * b
  {
    assert a == (a / b) * b + a % b;
  }

  /** Multiplication by an element size keeps the order of counts. */
  lemma {:induction false} MulMono(x: nat, y: nat, e: nat)
    requires x <= y
    ensures x * e <= y * e
    decreases y - x
  {
    if x < y {
      MulMono(x, y - 1, e);
      assert (y - 1) * e + e == y * e;
    }
  }

  class Allocator {
    /** `_provider`: the provider this adapter allocates from, or none. */
    var provider: Provider?
    /** `sizeof(T)` of the element type. */
    const elemSize: ElemSize

    /** `allocator()`: bound to no provider. */
    constructor Unbound(elemSize: ElemSize)
      ensures provider == null && this.elemSize == elemSize
    {
      provider := null;
      this.elemSize := elemSize;
    }

    /**
     * Binds an adapter to a provider. The header gives no way to do this (the
     * member is private and no constructor takes a provider); it is what any
     * use of the adapter presupposes.
     */
    constructor Bind(p: Provider, elemSize: ElemSize)
      ensures provider == p && this.elemSize == elemSize
    {
      provider := p;
      this.elemSize := elemSize;
    }

    /** `allocator(const allocator &o)`: shares `o`'s provider. */
    constructor Copy(o: Allocator)
      ensures provider == o.provider && elemSize == o.elemSize
    {
      provider := o.provider;
      elemSize := o.elemSize;
    }

    /** `allocator(allocator &&o)`: takes `o`'s provider and leaves `o` unbound. */
    constructor Move(o: Allocator)
      modifies o
      ensures provider == old(o.provider) && elemSize == o.elemSize
      ensures o.provider == null
    {
      provider := o.provider;
      elemSize := o.elemSize;
      new;
      o.provider := null;
    }

    /** `allocator(const allocator<U> &o)`: the rebound copy, same provider, another element type. */
    constructor Rebind(o: Allocator, elemSize: ElemSize)
      ensures provider == o.provider && this.elemSize == elemSize
    {
      provider := o.provider;
      this.elemSize := elemSize;
    }

    /** `allocator(allocator<U> &&o)`: the rebound move. */
    constructor RebindMove(o: Allocator, elemSize: ElemSize)
      modifies o
      ensures provider == old(o.provider) && this.elemSize == elemSize
      ensures o.provider == null
    {
      provider := o.provider;
      this.elemSize := elemSize;
      new;
      o.provider := null;
    }

    /** `max_size()`: the largest element count whose byte size fits in `size_t`. */
    function MaxSize(): (r: nat)
      ensures r * elemSize <= SizeMax < (r + 1) * elemSize
    {
      var q := SizeMax / elemSize;
      DivBounds(SizeMax, elemSize);
      q
    }

    /** `n <= max_size()` exactly when `n * sizeof(T)` fits in `size_t`: the size check lets no overflow through and refuses nothing that fits. */
    lemma AcceptedIffFits(n: nat)
      ensures n <= MaxSize() <==> n * elemSize <= SizeMax
    {
      var r := MaxSize();
      if n <= r {
        MulMono(n, r, elemSize);
      } else {
        MulMono(r + 1, n, elemSize);
      }
    }

    /**
     * `allocate(n)`: unset provider, then `n > max_size()`, then the provider's
     * error or empty result, then a null mapped address; otherwise the address
     * the whole allocation was mapped at. `a` and `ec` are what the provider
     * returned, when it was asked.
     */
    method Allocate(n: nat) returns (r: Result<Address>, ghost a: Allocation?, ghost ec: ErrorCode)
      requires provider != null ==> provider.Valid()
      modifies provider
      ensures provider != null ==> provider.Valid()
      ensures provider == null ==> r == Err(UnsetProvider)
      ensures provider != null && n > MaxSize() ==>
        && r == Err(BadAlloc) && provider.used == old(provider.used)
        && provider.trace == old(provider.trace) && provider.state == old(provider.state)
      ensures provider != null && n <= MaxSize() ==> (a != null <==> old(provider.used) + n * elemSize <= provider.capacity)
      ensures provider != null && n <= MaxSize() && a == null ==>
        && r == Err(SystemError(ec)) && ec != NoError && ec == OutOfMemory
        && provider.trace == old(provider.trace) + [AllocateCall(n * elemSize)]
        && provider.state == old(provider.state) && provider.used == old(provider.used)
      ensures provider != null && n <= MaxSize() && a != null ==>
        var s := Entry(MapOp, a, old(provider.state), RangeMapT(0, a.size));
        && a.provider == provider && a.size >= n * elemSize && provider.used == old(provider.used) + a.size
        && provider.trace == old(provider.trace) + [AllocateCall(n * elemSize), BatchCall(MapOp, a, [RangeMapT(0, a.size)])]
        && provider.state == s.state
        && r == (if s.entry.addr == Null then Err(BadAlloc) else Ok(s.entry.addr))
      ensures provider != null && r.Ok? ==>
        a != null && r.value != Null && r.value in provider.state.table
        && provider.state.table[r.value] == Mapping(a, 0, a.size)
    {
      a, ec := null, NoError;
      if provider == null {
        return Err(UnsetProvider), a, ec;
      }
      if n > MaxSize() {
        return Err(BadAlloc), a, ec;
      }
      var bytes := n * elemSize;
      var got, e := provider.Allocate(bytes);
      a, ec := got, e;
      if e != NoError || got == null {
        return Err(SystemError(e)), a, ec;
      }
      WholeMap(provider, got, provider.state);
      var m := got.MapWhole();
      if m.addr == Null {
        return Err(BadAlloc), a, ec;
      }
      r := Ok(m.addr);
    }

    /**
     * `deallocate(p, n)`: unset provider, then a reverse lookup of `p` that
     * fills a local descriptor, then an unmap of that descriptor whose error,
     * if set, is the failure. `n` plays no part.
     */
    method Deallocate(p: Address, n: nat) returns (r: Result<()>)
      requires provider != null ==> provider.Valid()
      modifies provider
      ensures provider != null ==> provider.Valid() && provider.used == old(provider.used)
      ensures provider == null ==> r == Err(UnsetProvider)
      ensures provider != null && p !in old(provider.state.table) ==>
        && r == Err(AddressNotFound)
        && provider.trace == old(provider.trace) + [LookupCall(p)]
        && provider.state == old(provider.state)
      ensures provider != null && p in old(provider.state.table) ==>
        var mp := old(provider.state.table)[p];
        var d := MapT(p, mp.offset, mp.length, NoError);
        var s := Entry(UnmapOp, mp.owner, old(provider.state), d);
        && provider.trace == old(provider.trace) + [LookupCall(p), BatchCall(UnmapOp, mp.owner, [d])]
        && provider.state == s.state
        && r == (if s.entry.ec == NoError then Ok(()) else Err(SystemError(s.entry.ec)))
      ensures provider != null && p in old(provider.state.table) ==>
        r == Ok(()) && provider.state.table == old(provider.state.table) - {p}
    {
      if provider == null {
        return Err(UnsetProvider);
      }
      var m := new MapT[1](_ => DefaultMapT());
      var a := provider.AllocationOf(p, m, 0);
      if a == null {
        return Err(AddressNotFound);
      }
      var ok := a.Single(UnmapOp, m, 0);
      var ec := m[0].ec;
      if ec != NoError {
        return Err(SystemError(ec));
      }
      r := Ok(());
      LookupThenUnmap(provider, old(provider.state), p);
    }
  }

  /** `operator==`: the same provider, or both unbound; the element types play no part. */
  predicate Equal(a: Allocator, b: Allocator)
    reads a, b
  {
    a.provider == b.provider
  }

  /** `operator!=`, as the header writes it. */
  predicate NotEqual(a: Allocator, b: Allocator)
    reads a, b
  {
    a.provider != b.provider
  }

  /** `==` is an equivalence on adapters, whatever their element types. */
  lemma EqualIsEquivalence(a: Allocator, b: Allocator, c: Allocator)
    ensures Equal(a, a)
    ensures Equal(a, b) ==> Equal(b, a)
    ensures Equal(a, b) && Equal(b, c) ==> Equal(a, c)
  {
  }

  /** `!=` is exactly the negation of `==`. */
  lemma NotEqualIsNegation(a: Allocator, b: Allocator)
    ensures NotEqual(a, b) <==> !Equal(a, b)
  {
  }

  /** An unbound adapter equals exactly the unbound ones. */
  lemma UnboundEqualsOnlyUnbound(a: Allocator, b: Allocator)
    requires a.provider == null
    ensures Equal(a, b) <==> b.provider == null
  {
  }
}
