# Boost.KernelAlloc core, modelled in Dafny

Boost.KernelAlloc's single header `include/boost/kernelalloc/kernelalloc.hpp` declares three things:

- `allocation`: a reservation of kernel memory. Parts of it are mapped into the calling process through four batch operations: `map`, `unmap`, `prefault` and `discard`. Each takes an array of `map_t` descriptors, writes `addr` and `ec` back into each one, and returns the number of descriptors that succeeded. Non-virtual convenience forms reduce to these batch calls: a single descriptor, an iterator range, a container, a vector, and the whole allocation (`map()`).
- `provider`: the source of allocations. It has `allocate(ec, bytes)` and a reverse lookup `allocation(addr, map*)` from a mapped address back to its allocation.
- `allocator<T>`: an STL-style adapter. It turns the no-throw layer into exceptions through a fixed chain of checks, and compares adapters by provider identity.

The header is abstract and ships no provider. The model therefore contains one concrete reference provider, `Kernel.Provider`. It has:

- an arena of `capacity` bytes;
- a window of local addresses `[1, windowEnd)`, handed out by a bump pointer;
- a reverse-lookup table from each mapped address to its allocation and range.

What one batch operation does to one descriptor is the function `Kernel.Entry`. A batch call processes its descriptors in order, each on the state the previous one left (`Kernel.Fold`). Every convenience form is a method whose contract is stated through `Fold`.

A ghost `trace` on the provider records each call that crosses the provider interface. This makes it possible to state properties such as:

- "no provider call before the size check";
- "exactly one allocate and one map";
- "one batch call of one descriptor per element".

The C++ exceptions of the adapter become `Adapter.Result` values carrying a `Failure`.

Files:

- `descriptors.dfy`: `map_t`, its constructors, the error codes, the four operations.
- `kernel.dfy`: the per-descriptor semantics, the batch fold and its properties, and the classes `Allocation` and `Provider`.
- `allocator.dfy`: `allocator<T>`, `max_size`, the error chains, and equality.
- `scenarios.dfy`: end-to-end runs of the adapter over the reference provider.

Modelling decisions:

- Pointers to descriptors are an array together with an index. `map(&m, 1)` is a one-element batch at that index.
- Several lines of the header do not compile. The model follows their evident intent:
  - `map(&m 1)` (and the same in `unmap`, `prefault`, `discard`) is `map(&m, 1)`;
  - `&(*begin())` in the range forms is `&*begin`;
  - `m->addr` on the value `m` in `allocate` is `m.addr`;
  - `allocation`'s only constructor (`:57`) is private and has no friend, so nothing could build an allocation. `Kernel.Allocation`'s constructor is public and is called by the reference provider;
  - the vector forms (`:105-108`, `:140-143`, `:168-171`, `:196-199`) pass `c.data()` of a `const` vector, a `const map_t*`, where the batch call takes a `map_t*`. `Kernel.Allocation.Vector` takes a mutable array, and the results are written back into it;
  - the rebinding constructors (`:252-253`) read the private `_provider` of an `allocator<U>` that is not a friend. `Adapter.Allocator.Rebind` and `Adapter.Allocator.RebindMove` read the source's provider directly.
- The header gives no way to bind a provider to an adapter: the member is private and no constructor takes a provider. `Adapter.Allocator.Bind` adds one.
- `SIZE_MAX` is taken as 2^64 - 1.
- The reference provider fills the lookup descriptor with the exact mapping that starts at the address. It lets the same range be mapped twice, at two addresses. The header leaves both of these to the provider.
- In the reference provider, an unmap of the descriptor a lookup has just filled cannot fail. So the `system_error` branch of `deallocate` is present in `Adapter.Allocator.Deallocate` but unreachable there, and its contract says so.
- The adapter wraps any provider error as `SystemError(ec)`, as the code does (`throw std::system_error(ec)`). It does not turn the error into an out-of-memory condition.

## Model

| member | source | states |
|---|---|---|
| Descriptors.Successes | include/boost/kernelalloc/kernelalloc.hpp:88 | the number of descriptors whose error is clear is at most the batch length, and equals it exactly when every descriptor's error is clear |
| Kernel.FreshDescriptorNotMapped | include/boost/kernelalloc/kernelalloc.hpp:74-75 | of the two `map_t` constructors, modelled by `Descriptors.DefaultMapT` and `Descriptors.RangeMapT`: `map_t()` has null address, offset 0 and length 0; `map_t(o, l)` has null address and exactly `o`, `l`; unmap, prefault or discard of such a fresh descriptor fails with a not-mapped error and changes nothing |
| Kernel.EntryPreservesCoherent | include/boost/kernelalloc/kernelalloc.hpp:88 | one descriptor of any operation keeps the provider's table coherent: non-null keys below the bump pointer, each mapping inside an allocation of this provider |
| Kernel.FoldPreservesCoherent | include/boost/kernelalloc/kernelalloc.hpp:88 | a whole batch of any operation keeps the table coherent |
| Kernel.FoldLength | include/boost/kernelalloc/kernelalloc.hpp:88 | a batch writes back exactly one descriptor per input |
| Kernel.FoldCount | include/boost/kernelalloc/kernelalloc.hpp:88 | the returned count is the number of written-back descriptors whose error is clear, and never exceeds the number given |
| Kernel.FoldKeepsRanges | include/boost/kernelalloc/kernelalloc.hpp:70-73 | a batch writes only `addr` and `ec`: every descriptor keeps its offset and length |
| Kernel.MapFoldAddresses | include/boost/kernelalloc/kernelalloc.hpp:88 | in a map batch one descriptor is written back per input, and each comes back with a non-null address exactly when its error is clear; with `Kernel.FoldCount` this makes the count the number of descriptors mapped at a non-null address |
| Kernel.FailedEntryIsInert | include/boost/kernelalloc/kernelalloc.hpp:88 | a descriptor that fails leaves the provider state as it was, for every operation |
| Kernel.MapOutOfRange | include/boost/kernelalloc/kernelalloc.hpp:88 | mapping a range past the end of the allocation fails with out-of-range and a null address, and changes nothing |
| Kernel.MapThenUnmap | include/boost/kernelalloc/kernelalloc.hpp:123 | a successful map returns a fresh non-null address that is then in the table with exactly that allocation and range; unmapping the written-back descriptor succeeds and restores the table |
| Kernel.WholeMap | include/boost/kernelalloc/kernelalloc.hpp:110-115 | the whole-allocation descriptor `(0, size())` succeeds exactly when the address window has room; on success the address maps back to the allocation with range `(0, size())`; on failure the address is null and nothing changes |
| Kernel.LookupThenUnmap | include/boost/kernelalloc/kernelalloc.hpp:223-225 | unmapping the descriptor a reverse lookup fills in for a live address succeeds and removes exactly that address |
| Kernel.UnmapContainerAsWrittenMaps | include/boost/kernelalloc/kernelalloc.hpp:135-138 | as written, the container `unmap` maps an already mapped descriptor again: the call counts 1, the old address stays live, the descriptor gets a new address and the table grows by one; the intended unmap removes it, counts 1 and shrinks the table by one |
| Kernel.Allocation.constructor | include/boost/kernelalloc/kernelalloc.hpp:57 | an allocation records its provider and size |
| Kernel.Allocation.Batch | include/boost/kernelalloc/kernelalloc.hpp:88 | the batch call (likewise `unmap` :123, `prefault` :151 and `discard` :179) leaves the state, descriptors and count that `Fold` gives over the old descriptors; it touches nothing outside its slice; it keeps the provider valid and its arena usage; it records one batch call with the descriptors as passed |
| Kernel.Allocation.Single | include/boost/kernelalloc/kernelalloc.hpp:90 | the single-descriptor form (likewise :125, :153 and :181) returns true iff the one-descriptor batch counted exactly one success, iff the written-back error is clear; the descriptor is written as `Entry` says; one batch call of that one descriptor |
| Kernel.Allocation.Range | include/boost/kernelalloc/kernelalloc.hpp:92-98 | the iterator-range form (likewise :127-133, :155-161 and :183-189) visits the elements once, in order, with one batch call of one descriptor each (trace `OneByOne`); it returns the summed count, at most the number of elements; state and descriptors end as one batch over the range would leave them |
| Kernel.Allocation.ContainerAsWritten | include/boost/kernelalloc/kernelalloc.hpp:135-138 | the container form as the header writes it: for `unmap` it runs the range form of `map` over the whole container |
| Kernel.Allocation.Container | include/boost/kernelalloc/kernelalloc.hpp:100-103 | the container form (likewise :163-166 and :191-194, and the corrected :135-138) is the range form over all elements: same state, descriptors and count as one batch, one call per element |
| Kernel.Allocation.Vector | include/boost/kernelalloc/kernelalloc.hpp:105-108 | the vector form (likewise :140-143, :168-171 and :196-199) is one batch call over the data and size, with the same state, descriptors and count as the container form; the count is at most the number of descriptors |
| Kernel.Allocation.MapWhole | include/boost/kernelalloc/kernelalloc.hpp:110-115 | `map()` submits exactly one descriptor `(0, size())` in one batch call and returns it as written back |
| Kernel.Provider.constructor | include/boost/kernelalloc/kernelalloc.hpp:206 | a fresh provider is valid, with nothing used, nothing mapped and no calls recorded |
| Kernel.Provider.Allocate | include/boost/kernelalloc/kernelalloc.hpp:219-221 | either an allocation of at least `bytes` with clear error, or no allocation and an error, never both; an allocation is returned exactly when the arena has room; the mappings are unchanged |
| Kernel.Provider.AllocationOf | include/boost/kernelalloc/kernelalloc.hpp:223-225 | the lookup returns an allocation exactly when the address is mapped, and then it is the mapping's owner, of this provider; a passed descriptor is filled with that address and range and nothing else changes |
| Adapter.Allocator.Unbound | include/boost/kernelalloc/kernelalloc.hpp:249 | a default adapter is bound to no provider |
| Adapter.Allocator.Copy | include/boost/kernelalloc/kernelalloc.hpp:250 | a copy carries the same provider |
| Adapter.Allocator.Move | include/boost/kernelalloc/kernelalloc.hpp:251 | a move carries the source's provider and leaves the source unbound |
| Adapter.Allocator.Rebind | include/boost/kernelalloc/kernelalloc.hpp:252 | a rebound copy for another element type carries the same provider |
| Adapter.Allocator.RebindMove | include/boost/kernelalloc/kernelalloc.hpp:253 | a rebound move carries the provider and leaves the source unbound |
| Adapter.Allocator.MaxSize | include/boost/kernelalloc/kernelalloc.hpp:277 | `max_size()` is the largest count whose byte size fits in `size_t`: `r*sizeof(T) <= SIZE_MAX < (r+1)*sizeof(T)` |
| Adapter.Allocator.AcceptedIffFits | include/boost/kernelalloc/kernelalloc.hpp:259-261 | `n <= max_size()` holds exactly when `n*sizeof(T)` fits in `size_t`, so the size check lets no overflow through and refuses nothing that fits |
| Adapter.Allocator.Allocate | include/boost/kernelalloc/kernelalloc.hpp:256-267 | the failures come in the header's order: unset provider, then bad_alloc for `n > max_size()` with no provider call, then a system error carrying the provider's own error code (out-of-memory from the reference provider) when the provider returns no allocation, then bad_alloc for a null mapped address. The provider is asked for exactly `n*sizeof(T)` bytes and the allocation is mapped once, whole. A returned address looks up to that allocation and range |
| Adapter.Allocator.Deallocate | include/boost/kernelalloc/kernelalloc.hpp:268-276 | unset provider first; then one reverse lookup, and on a miss "address not found" with no unmap; otherwise one unmap of exactly the descriptor the lookup filled, failing with a system error iff its error is set. In the reference provider that unmap always succeeds and removes the address; `n` plays no part |
| Adapter.EqualIsEquivalence | include/boost/kernelalloc/kernelalloc.hpp:281 | `==`, modelled by `Adapter.Equal` (same provider, whatever the element types) is reflexive, symmetric and transitive |
| Adapter.NotEqualIsNegation | include/boost/kernelalloc/kernelalloc.hpp:282 | `!=`, modelled by `Adapter.NotEqual` as the header writes it, is exactly the negation of `==` |
| Adapter.UnboundEqualsOnlyUnbound | include/boost/kernelalloc/kernelalloc.hpp:281 | an unbound adapter compares equal to exactly the unbound adapters |
| Scenarios.ArenaRoundTrip | include/boost/kernelalloc/kernelalloc.hpp:256-276 | over a 4096-byte arena with 8-byte elements, `allocate(100)` returns a non-null address, `deallocate` of it succeeds, and a later lookup of that address finds nothing |
| Scenarios.ProviderRefuses | include/boost/kernelalloc/kernelalloc.hpp:262-263 | a provider that cannot satisfy the request makes `allocate(1)` fail with a system error carrying the provider's own error code, out-of-memory |
| Scenarios.WindowFull | include/boost/kernelalloc/kernelalloc.hpp:264-265 | an allocation that cannot be mapped makes `allocate` fail with bad_alloc |
| Scenarios.EarlyFailures | include/boost/kernelalloc/kernelalloc.hpp:258-259 | an unbound adapter fails with "unset provider"; a count above `max_size()` fails with bad_alloc; deallocating an unknown address fails with "address not found" |
| Scenarios.CopiesCompareEqual | include/boost/kernelalloc/kernelalloc.hpp:250-253 | copies and rebound copies compare equal to their source; a moved-from adapter is unbound and compares unequal |

## Left out

- `construct`, `destroy` and `address` (`kernelalloc.hpp:254-255`, `:278-279`): placement new, explicit destructor calls and `addressof`. These are C++ object-lifetime mechanics with no behaviour of their own.
- `provider::name()` (`:217`): an opaque diagnostic string.
- `allocation::size()` (`:82`) and `allocation::provider()` (`:79`) are the plain constant fields `size` and `provider`.
- The SFINAE traits `is_rangeable` and `is_container` (`:44-45`) and overload selection. Each convenience form is its own method.
- `shared_ptr` and `enable_shared_from_this` reference counting and lifetimes. The provider never reclaims arena bytes or addresses.
- The unused `hint` parameter of `allocate` and the C++ exception class hierarchy. Failures are the four `Failure` variants.
- Real page mapping, prefaulting and discarding. In the reference provider, prefault and discard only check that the address is a live mapping of the allocation.
- Threads. The header defines no concurrency.
- In the reference provider, unmap ignores the descriptor's `offset` and `length` and removes the whole mapping at `addr` (`Kernel.Entry`). Unmapping part of a mapping is not modelled.
- Kernel.Allocation.Range: the range forms (`:92`, `:127`, `:155`, `:183`) take `T &&begin`, so an lvalue iterator passed in is left advanced to `end` in the caller. The model takes `begin` by value, and that side effect on the caller's iterator is not captured.
- Kernel.Allocation.Batch: a real provider may process a batch in a single system call. The model specifies only the in-order, per-descriptor effect given by `Fold`.
- Kernel.Provider.AllocationOf: looks up only the exact address a mapping starts at, not an address inside a mapping. The header leaves the lookup granularity to the provider.
- Adapter.Allocator.Allocate: does not model a provider that sets an error and also returns an allocation (or returns none with a clear error). The reference provider never does either, and the adapter's check `ec || !a` treats both alike.
- Adapter.Allocator.MaxSize: `size_t` is fixed at 64 bits.

## Findings

| source | as written | input that shows it | evidently intended | confidence | as-written member | corrected member |
|---|---|---|---|---|---|---|
| include/boost/kernelalloc/kernelalloc.hpp:135-138 | the container overload of `unmap` calls the range form of `map` | a container holding one descriptor that is live for this allocation, with room left in the address window: the mapping stays live, a second mapping appears, and the count is 1 | call the range form of `unmap`, as the doc comment at :119-121 and the other three container overloads do | high, not executed | Kernel.Allocation.ContainerAsWritten, Kernel.UnmapContainerAsWrittenMaps | Kernel.Allocation.Container |
