/**
 * End-to-end runs of the adapter over the reference provider, one per path
 * through `allocate` and `deallocate`. Each is a method whose postcondition
 * fixes the outcome of the whole run.
 */
module Scenarios {
  import opened Descriptors
  import opened Kernel
  import opened Adapter

  /** An arena with room: allocate maps the block, deallocate unmaps it, and the address is then unknown. */
  method ArenaRoundTrip() returns (p: Address, freed: Result<()>, after: Allocation?)
    ensures p != Null && freed == Ok(()) && after == null
  {
    var prov := new Provider(4096, 4097);
    var al := new Allocator.Bind(prov, 8);
    ghost var a: Allocation?, ec: ErrorCode;
    var r;
    r, a, ec := al.Allocate(100);
    p := r.value;
    freed := al.Deallocate(p, 100);
    after := prov.AllocationOf(p, null, 0);
  }

  /** A provider that cannot satisfy the request: the provider's error comes back as a system error. */
  method ProviderRefuses() returns (r: Result<Address>)
    ensures r == Err(SystemError(OutOfMemory))
  {
    var prov := new Provider(0, 4097);
    var al := new Allocator.Bind(prov, 8);
    ghost var a: Allocation?, ec: ErrorCode;
    r, a, ec := al.Allocate(1);
  }

  /** No room left in the address window: the block is allocated but maps at null, which is bad_alloc. */
  method WindowFull() returns (r: Result<Address>)
    ensures r == Err(BadAlloc)
  {
    var prov := new Provider(4096, 1);
    var al := new Allocator.Bind(prov, 8);
    ghost var a: Allocation?, ec: ErrorCode;
    r, a, ec := al.Allocate(100);
  }

  /** The failures that come before any provider call, and the lookup miss of deallocate. */
  method EarlyFailures() returns (unset: Result<Address>, tooMany: Result<Address>, unknown: Result<()>)
    ensures unset == Err(UnsetProvider) && tooMany == Err(BadAlloc) && unknown == Err(AddressNotFound)
  {
    var none := new Allocator.Unbound(8);
    ghost var a: Allocation?, ec: ErrorCode;
    unset, a, ec := none.Allocate(1);
    var prov := new Provider(4096, 4097);
    var al := new Allocator.Bind(prov, 8);
    tooMany, a, ec := al.Allocate(SizeMax / 8 + 1);
    unknown := al.Deallocate(42, 1);
  }

  /** Copies and rebinds compare equal to their source; a moved-from adapter is unbound and compares unequal. */
  method CopiesCompareEqual() returns (copyEq: bool, rebindEq: bool, movedNe: bool)
    ensures copyEq && rebindEq && movedNe
  {
    var prov := new Provider(4096, 4097);
    var al := new Allocator.Bind(prov, 8);
    var c := new Allocator.Copy(al);
    var rb := new Allocator.Rebind(al, 16);
    var mv := new Allocator.Move(c);
    copyEq := Equal(al, mv);
    rebindEq := Equal(rb, al);
    movedNe := NotEqual(c, al);
  }
}
