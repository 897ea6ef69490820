/**
 * The `allocation` / `provider` pair and the batch-descriptor protocol.
 *
 * The header declares both classes abstract and ships no provider. Here they are
 * one concrete reference provider: an arena of `capacity` bytes handing out
 * allocations, a window of local addresses `[1, windowEnd)` handed out by a bump
 * pointer `next`, and a reverse-lookup table from each mapped address to the
 * allocation and range mapped there. The provider owns all mutable state; an
 * allocation is immutable and reaches that state through its back-pointer.
 *
 * What one batch virtual does to one descriptor is the function `Entry`; a batch
 * call processes its descriptors in order, each on the state left by the one
 * before (`Fold`). The convenience forms of the header are methods whose
 * contracts are stated through `Fold`, and a ghost `trace` on the provider
 * records every call that crosses the interface.
 */
module Kernel {
  import opened Descriptors

  /** One live mapping: which allocation, and which range of it, is mapped at an address. */
  datatype Mapping = Mapping(owner: Allocation, offset: nat, length: nat)

  /** The provider state a batch call reads and writes. */
  datatype KState = KState(table: map<Address, Mapping>, next: Address)

  /** The effect of one descriptor: the new state and the descriptor as written back. */
  datatype Step = Step(state: KState, entry: MapT)

  /** The effect of a batch: the new state, the descriptors as written back, and the returned count. */
  datatype Outcome = Outcome(state: KState, entries: seq<MapT>, count: nat)

  /** A call across the provider interface, with the descriptors as they were passed in. */
  datatype Event =
    | AllocateCall(bytes: nat)
    | LookupCall(addr: Address)
    | BatchCall(op: Op, owner: Allocation, entries: seq<MapT>)

  /** Address space one mapping takes up; an empty mapping still gets an address of its own. */
  function Stride(length: nat): nat {
    if length == 0 then 1 else length
  }

  predicate MappedBy(owner: Allocation, st: KState, addr: Address) {
    addr in st.table && st.table[addr].owner == owner
  }

  /**
   * One descriptor of one batch call on `owner`. Only `addr` and `ec` of the
   * descriptor are written. Map checks the range against the allocation, then
   * the address window; unmap, prefault and discard require `addr` to be a live
   * mapping of this allocation. Failures leave the state as it was.
   */
  function Entry(op: Op, owner: Allocation, st: KState, d: MapT): Step {
    match op
    case MapOp =>
      if d.offset + d.length > owner.size then
        Step(st, d.(addr := Null, ec := OutOfRange))
      else if st.next + Stride(d.length) > owner.provider.windowEnd then
        Step(st, d.(addr := Null, ec := OutOfMemory))
      else
        Step(KState(st.table[st.next := Mapping(owner, d.offset, d.length)], st.next + Stride(d.length)),
             d.(addr := st.next, ec := NoError))
    case UnmapOp =>
      if MappedBy(owner, st, d.addr) then Step(st.(table := st.table - {d.addr}), d.(ec := NoError))
      else Step(st, d.(ec := NotMapped))
    case PrefaultOp =>
      if MappedBy(owner, st, d.addr) then Step(st, d.(ec := NoError)) else Step(st, d.(ec := NotMapped))
    case DiscardOp =>
      if MappedBy(owner, st, d.addr) then Step(st, d.(ec := NoError)) else Step(st, d.(ec := NotMapped))
  }

  /** A batch call: the descriptors in order, each on the state the previous one left. */
  function Fold(op: Op, owner: Allocation, st: KState, ds: seq<MapT>): Outcome
    decreases |ds|
  {
    if ds == [] then Outcome(st, [], 0)
    else
      var prev := Fold(op, owner, st, ds[..|ds| - 1]);
      var s := Entry(op, owner, prev.state, ds[|ds| - 1]);
      Outcome(s.state, prev.entries + [s.entry], prev.count + if s.entry.ec == NoError then 1 else 0)
  }

  /** Unfolds `Fold` on a batch extended by one descriptor. */
  lemma FoldSnoc(op: Op, owner: Allocation, st: KState, ds: seq<MapT>, d: MapT)
    ensures var prev := Fold(op, owner, st, ds);
      var s := Entry(op, owner, prev.state, d);
      Fold(op, owner, st, ds + [d]) == Outcome(s.state, prev.entries + [s.entry], prev.count + if s.entry.ec == NoError then 1 else 0)
  {
    assert (ds + [d])[..|ds|] == ds;
  }

  lemma FoldSingle(op: Op, owner: Allocation, st: KState, d: MapT)
    ensures var s := Entry(op, owner, st, d);
      Fold(op, owner, st, [d]) == Outcome(s.state, [s.entry], if s.entry.ec == NoError then 1 else 0)
  {
    assert [d][..0] == [];
  }

  /**
   * Progress of a walk over the descriptors `in0`, found at `orig[from..]`:
   * after the first `k` the state is `st` and the buffer holds `cur`, in which
   * those `k` are written back as `Fold` says and every other element is as it
   * was, and `count` of them succeeded.
   */
  ghost predicate Walked(op: Op, owner: Allocation, st0: KState, in0: seq<MapT>, orig: seq<MapT>, from: nat, k: nat,
                         st: KState, cur: seq<MapT>, count: nat)
  {
    && k <= |in0| && from + |in0| <= |orig| && |cur| == |orig|
    && (forall j :: 0 <= j < |in0| ==> in0[j] == orig[from + j])
    && Fold(op, owner, st0, in0[..k]) == Outcome(st, cur[from..from + k], count)
    && (forall j :: 0 <= j < |cur| && !(from <= j < from + k) ==> cur[j] == orig[j])
  }

  /**
   * A one-descriptor batch on the next descriptor, which changes no other
   * element of the buffer, extends the walk.
   */
  lemma WalkedStep(op: Op, owner: Allocation, st0: KState, in0: seq<MapT>, orig: seq<MapT>, from: nat, k: nat,
                   st: KState, cur: seq<MapT>, count: nat, st': KState, cur': seq<MapT>, c: nat)
    requires Walked(op, owner, st0, in0, orig, from, k, st, cur, count) && k < |in0|
    requires |cur'| == |cur| && forall j :: 0 <= j < |cur| && j != from + k ==> cur'[j] == cur[j]
    requires Fold(op, owner, st, cur[from + k..from + k + 1]) == Outcome(st', cur'[from + k..from + k + 1], c)
    ensures Walked(op, owner, st0, in0, orig, from, k + 1, st', cur', count + c)
  {
    assert cur[from + k..from + k + 1] == [in0[k]];
    assert in0[..k + 1] == in0[..k] + [in0[k]];
    FoldSnoc(op, owner, st0, in0[..k], in0[k]);
    FoldSingle(op, owner, st, in0[k]);
    assert cur'[from..from + k + 1] == cur[from..from + k] + cur'[from + k..from + k + 1];
  }

  /** A finished walk is one batch over all of `in0`. */
  lemma WalkedAll(op: Op, owner: Allocation, st0: KState, in0: seq<MapT>, orig: seq<MapT>, from: nat,
                  st: KState, cur: seq<MapT>, count: nat)
    requires Walked(op, owner, st0, in0, orig, from, |in0|, st, cur, count)
    ensures Fold(op, owner, st0, in0) == Outcome(st, cur[from..from + |in0|], count)
    ensures forall j :: 0 <= j < |cur| && !(from <= j < from + |in0|) ==> cur[j] == orig[j]
  {
    assert in0[..|in0|] == in0;
  }

  lemma OneByOneExtend(op: Op, owner: Allocation, ds: seq<MapT>, k: nat)
    requires k < |ds|
    ensures OneByOne(op, owner, ds[..k + 1]) == OneByOne(op, owner, ds[..k]) + [BatchCall(op, owner, [ds[k]])]
  {
    assert ds[..k + 1][..k] == ds[..k];
  }

  /** The calls a range form makes: one batch call of one descriptor per element. */
  function OneByOne(op: Op, owner: Allocation, ds: seq<MapT>): seq<Event> {
    seq(|ds|, k requires 0 <= k < |ds| => BatchCall(op, owner, [ds[k]]))
  }

  /**
   * The provider's table is coherent: every key is a non-null address below the
   * bump pointer, and every mapping lies inside an allocation of this provider.
   */
  ghost predicate Coherent(p: Provider, st: KState) {
    && Null < st.next
    && forall a | a in st.table ::
         && Null < a < st.next
         && st.table[a].owner.provider == p
         && st.table[a].offset + st.table[a].length <= st.table[a].owner.size
  }

  // ---------------------------------------------------------------------------
  // Properties of the protocol

  lemma EntryPreservesCoherent(p: Provider, op: Op, owner: Allocation, st: KState, d: MapT)
    requires owner.provider == p && Coherent(p, st)
    ensures Coherent(p, Entry(op, owner, st, d).state)
  {
  }

  lemma {:induction false} FoldPreservesCoherent(p: Provider, op: Op, owner: Allocation, st: KState, ds: seq<MapT>)
    requires owner.provider == p && Coherent(p, st)
    ensures Coherent(p, Fold(op, owner, st, ds).state)
    decreases |ds|
  {
    if ds != [] {
      FoldPreservesCoherent(p, op, owner, st, ds[..|ds| - 1]);
      EntryPreservesCoherent(p, op, owner, Fold(op, owner, st, ds[..|ds| - 1]).state, ds[|ds| - 1]);
    }
  }

  /** A batch writes back exactly one descriptor per input. */
  lemma {:induction false} FoldLength(op: Op, owner: Allocation, st: KState, ds: seq<MapT>)
    ensures |Fold(op, owner, st, ds).entries| == |ds|
    decreases |ds|
  {
    if ds != [] {
      FoldLength(op, owner, st, ds[..|ds| - 1]);
    }
  }

  /** A batch returns the number of written-back descriptors whose error is clear, so never more than it was given. */
  lemma {:induction false} FoldCount(op: Op, owner: Allocation, st: KState, ds: seq<MapT>)
    ensures var o := Fold(op, owner, st, ds);
      o.count == Successes(o.entries) && o.count <= |ds|
    decreases |ds|
  {
    if ds != [] {
      var prev := Fold(op, owner, st, ds[..|ds| - 1]);
      var s := Entry(op, owner, prev.state, ds[|ds| - 1]);
      FoldCount(op, owner, st, ds[..|ds| - 1]);
      FoldLength(op, owner, st, ds[..|ds| - 1]);
      var entries := prev.entries + [s.entry];
      assert entries[..|entries| - 1] == prev.entries;
    }
  }

  /** A batch keeps every descriptor's range: only `addr` and `ec` are written back. */
  lemma {:induction false} FoldKeepsRanges(op: Op, owner: Allocation, st: KState, ds: seq<MapT>)
    ensures var o := Fold(op, owner, st, ds);
      && |o.entries| == |ds|
      && forall k :: 0 <= k < |ds| ==> o.entries[k].offset == ds[k].offset && o.entries[k].length == ds[k].length
    decreases |ds|
  {
    if ds != [] {
      var init := ds[..|ds| - 1];
      var prev := Fold(op, owner, st, init);
      var s := Entry(op, owner, prev.state, ds[|ds| - 1]);
      FoldKeepsRanges(op, owner, st, init);
      FailedEntryIsInert(op, owner, prev.state, ds[|ds| - 1]);
      var entries := prev.entries + [s.entry];
      forall k | 0 <= k < |ds|
        ensures entries[k].offset == ds[k].offset && entries[k].length == ds[k].length
      {
        if k < |ds| - 1 {
          assert entries[k] == prev.entries[k] && init[k] == ds[k];
        }
      }
    }
  }

  /**
   * For map, an entry succeeds exactly when it comes back with a non-null
   * address; so a map batch returns the number of descriptors whose address
   * ends up non-null and whose error is clear.
   */
  lemma {:induction false} MapFoldAddresses(p: Provider, owner: Allocation, st: KState, ds: seq<MapT>)
    requires owner.provider == p && Coherent(p, st)
    ensures var o := Fold(MapOp, owner, st, ds);
      && |o.entries| == |ds|
      && forall k :: 0 <= k < |ds| ==> (o.entries[k].addr != Null <==> o.entries[k].ec == NoError)
    decreases |ds|
  {
    if ds != [] {
      var prev := Fold(MapOp, owner, st, ds[..|ds| - 1]);
      MapFoldAddresses(p, owner, st, ds[..|ds| - 1]);
      FoldPreservesCoherent(p, MapOp, owner, st, ds[..|ds| - 1]);
    }
  }

  /** A descriptor that fails leaves the provider state untouched, whatever the operation. */
  lemma FailedEntryIsInert(op: Op, owner: Allocation, st: KState, d: MapT)
    ensures Entry(op, owner, st, d).entry.ec != NoError ==> Entry(op, owner, st, d).state == st
    ensures Entry(op, owner, st, d).entry.offset == d.offset && Entry(op, owner, st, d).entry.length == d.length
  {
  }

  /** A map whose range runs past the end of the allocation fails, with a null address, and changes nothing. */
  lemma MapOutOfRange(owner: Allocation, st: KState, d: MapT)
    requires d.offset + d.length > owner.size
    ensures Entry(MapOp, owner, st, d) == Step(st, d.(addr := Null, ec := OutOfRange))
  {
  }

  /**
   * A successful map is found again by reverse lookup at the address it
   * returned, and unmapping the descriptor it wrote back removes exactly that
   * mapping again.
   */
  lemma MapThenUnmap(p: Provider, owner: Allocation, st: KState, d: MapT)
    requires owner.provider == p && Coherent(p, st)
    requires Entry(MapOp, owner, st, d).entry.ec == NoError
    ensures var s1 := Entry(MapOp, owner, st, d);
      && s1.entry.addr != Null
      && s1.entry.addr !in st.table
      && s1.entry.addr in s1.state.table
      && s1.state.table[s1.entry.addr] == Mapping(owner, d.offset, d.length)
    ensures var s1 := Entry(MapOp, owner, st, d);
      var s2 := Entry(UnmapOp, owner, s1.state, s1.entry);
      s2.entry.ec == NoError && s2.state.table == st.table
  {
    var s1 := Entry(MapOp, owner, st, d);
    assert st.next !in st.table;
    assert s1.state.table - {st.next} == st.table;
  }

  /**
   * `allocation::map()`: the whole-allocation descriptor `(0, size)` always
   * passes the range check, so it succeeds exactly when the address window has
   * room, and then the returned address looks up to the allocation and range.
   */
  lemma WholeMap(p: Provider, owner: Allocation, st: KState)
    requires owner.provider == p && Coherent(p, st)
    ensures var s := Entry(MapOp, owner, st, RangeMapT(0, owner.size));
      && (s.entry.ec == NoError <==> st.next + Stride(owner.size) <= p.windowEnd)
      && (s.entry.ec == NoError ==> s.entry.addr == st.next && MappedBy(owner, s.state, s.entry.addr)
                                    && s.state.table[s.entry.addr] == Mapping(owner, 0, owner.size))
      && (s.entry.ec != NoError ==> s.entry.addr == Null && s.state == st)
  {
  }

  /**
   * Unmapping the descriptor a reverse lookup fills in for a live address
   * succeeds and removes exactly that address from the table.
   */
  lemma LookupThenUnmap(p: Provider, st: KState, addr: Address)
    requires Coherent(p, st) && addr in st.table
    ensures var mp := st.table[addr];
      var d := MapT(addr, mp.offset, mp.length, NoError);
      Entry(UnmapOp, mp.owner, st, d) == Step(KState(st.table - {addr}, st.next), d)
  {
  }

  /**
   * A freshly built descriptor carries the null address, which is never a live
   * mapping; so unmap, prefault and discard of it fail and change nothing.
   */
  lemma FreshDescriptorNotMapped(p: Provider, op: Op, owner: Allocation, st: KState, offset: nat, length: nat)
    requires owner.provider == p && Coherent(p, st) && op != MapOp
    ensures DefaultMapT().addr == Null && DefaultMapT().offset == 0 && DefaultMapT().length == 0
    ensures RangeMapT(offset, length) == MapT(Null, offset, length, NoError)
    ensures Entry(op, owner, st, RangeMapT(offset, length)) == Step(st, RangeMapT(offset, length).(ec := NotMapped))
    ensures Entry(op, owner, st, DefaultMapT()) == Step(st, DefaultMapT().(ec := NotMapped))
  {
    assert Null !in st.table;
  }

  /** The operation the container overload of `unmap` forwards to, as written: map. */
  function ContainerForwardAsWritten(op: Op): Op {
    if op == UnmapOp then MapOp else op
  }

  /**
   * The defect in the container overload of `unmap`: as written it maps a
   * descriptor that is already mapped a second time, so the old mapping stays
   * live and a new one appears; the intended unmap removes it.
   */
  lemma UnmapContainerAsWrittenMaps(p: Provider, owner: Allocation, st: KState, d: MapT)
    requires owner.provider == p && Coherent(p, st)
    requires MappedBy(owner, st, d.addr)
    requires st.next + Stride(d.length) <= p.windowEnd && d.offset + d.length <= owner.size
    ensures var asWritten := Fold(ContainerForwardAsWritten(UnmapOp), owner, st, [d]);
      && d.addr in asWritten.state.table
      && asWritten.entries[0].addr != d.addr
      && asWritten.count == 1
      && |asWritten.state.table| == |st.table| + 1
    ensures var intended := Fold(UnmapOp, owner, st, [d]);
      && d.addr !in intended.state.table
      && intended.count == 1
      && |intended.state.table| == |st.table| - 1
  {
    assert [d][..0] == [];
    assert st.next !in st.table;
    assert d.addr < st.next;
  }

  // ---------------------------------------------------------------------------
  // The two classes

  /** `allocation`: an immutable handle on a reservation; its mappings live in its provider. */
  class Allocation {
    /** The owning provider (the non-owning back-pointer `_provider`). */
    const provider: Provider
    /** `size()`: fixed when the provider creates the allocation. */
    const size: nat

    constructor (provider: Provider, size: nat)
      ensures this.provider == provider && this.size == size
    {
      this.provider := provider;
      this.size := size;
    }

    /**
     * The batch virtual `op(m, no)` on the `no` descriptors starting at `m[from]`:
     * the provider processes them in order, as `Fold` says, and writes each one
     * back in place.
     */
    method Batch(op: Op, m: array<MapT>, from: nat, no: nat) returns (count: nat)
      requires provider.Valid()
      requires from + no <= m.Length
      modifies provider, m
      ensures provider.Valid() && provider.used == old(provider.used)
      ensures Fold(op, this, old(provider.state), old(m[from..from + no])) == Outcome(provider.state, m[from..from + no], count)
      ensures forall j :: 0 <= j < m.Length && !(from <= j < from + no) ==> m[j] == old(m[j])
      ensures provider.trace == old(provider.trace) + [BatchCall(op, this, old(m[from..from + no]))]
    {
      provider.trace := provider.trace + [BatchCall(op, this, m[from..from + no])];
      count := Process(op, m, from, no);
    }

    /** What the provider does on a batch call: `Fold` over the descriptors, each written back in place. */
    method Process(op: Op, m: array<MapT>, from: nat, no: nat) returns (count: nat)
      requires provider.Valid()
      requires from + no <= m.Length
      modifies provider`state, m
      ensures provider.Valid()
      ensures Fold(op, this, old(provider.state), old(m[from..from + no])) == Outcome(provider.state, m[from..from + no], count)
      ensures forall j :: 0 <= j < m.Length && !(from <= j < from + no) ==> m[j] == old(m[j])
    {
      var o := Fold(op, this, provider.state, m[from..from + no]);
      FoldPreservesCoherent(provider, op, this, provider.state, m[from..from + no]);
      FoldLength(op, this, provider.state, m[from..from + no]);
      provider.state := o.state;
      WriteBack(m, from, o.entries);
      count := o.count;
    }

    /** Writes the descriptors `es` back over `m[from..]`, in place. */
    static method WriteBack(m: array<MapT>, from: nat, es: seq<MapT>)
      requires from + |es| <= m.Length
      modifies m
      ensures m[from..from + |es|] == es
      ensures forall j :: 0 <= j < m.Length && !(from <= j < from + |es|) ==> m[j] == old(m[j])
    {
      forall k | 0 <= k < |es| {
        m[from + k] := es[k];
      }
      assert m[from..from + |es|] == es;
    }

    /** `op(map_t &m)`: the batch call on the one descriptor `m[i]`, true iff it counted one success. */
    method Single(op: Op, m: array<MapT>, i: nat) returns (ok: bool)
      requires provider.Valid()
      requires i < m.Length
      modifies provider, m
      ensures provider.Valid() && provider.used == old(provider.used)
      ensures ok <==> Fold(op, this, old(provider.state), [old(m[i])]).count == 1
      ensures Entry(op, this, old(provider.state), old(m[i])) == Step(provider.state, m[i])
      ensures ok <==> m[i].ec == NoError
      ensures forall j :: 0 <= j < m.Length && j != i ==> m[j] == old(m[j])
      ensures provider.trace == old(provider.trace) + [BatchCall(op, this, [old(m[i])])]
    {
      var count := Batch(op, m, i, 1);
      assert [old(m[i])][..0] == [];
      assert old(m[i..i + 1]) == [old(m[i])];
      ok := 1 == count;
    }

    /**
     * `op(begin, end)` over the iterator range `m[begin..end]`: one batch call
     * of one descriptor per element, in order, summing the counts. It leaves
     * the same state and descriptors as a single batch call over the range.
     */
    method Range(op: Op, m: array<MapT>, begin: nat, end: nat) returns (count: nat)
      requires provider.Valid()
      requires begin <= end <= m.Length
      modifies provider, m
      ensures provider.Valid() && provider.used == old(provider.used)
      ensures Fold(op, this, old(provider.state), old(m[begin..end])) == Outcome(provider.state, m[begin..end], count)
      ensures count <= end - begin
      ensures forall j :: 0 <= j < m.Length && !(begin <= j < end) ==> m[j] == old(m[j])
      ensures provider.trace == old(provider.trace) + OneByOne(op, this, old(m[begin..end]))
    {
      ghost var st0, in0, orig := provider.state, m[begin..end], m[..];
      count := Walk(op, m, begin, end, st0, in0, orig, old(provider.trace));
      assert in0[..end - begin] == in0;
      WalkedAll(op, this, st0, in0, orig, begin, provider.state, m[..], count);
      FoldCount(op, this, st0, in0);
    }

    /** The loop of a range form: it walks `it` from `begin` to `end`, one batch call per element. */
    method Walk(op: Op, m: array<MapT>, begin: nat, end: nat, ghost st0: KState, ghost in0: seq<MapT>, ghost orig: seq<MapT>,
                ghost t0: seq<Event>) returns (count: nat)
      requires provider.Valid()
      requires begin <= end <= m.Length
      requires st0 == provider.state && in0 == m[begin..end] && orig == m[..] && t0 == provider.trace
      modifies provider, m
      ensures provider.Valid() && provider.used == old(provider.used)
      ensures Walked(op, this, st0, in0, orig, begin, end - begin, provider.state, m[..], count)
      ensures provider.trace == t0 + OneByOne(op, this, in0[..end - begin])
    {
      count := 0;
      var it := begin;
      ghost var k := 0;
      while it != end
        invariant begin <= it <= end && k == it - begin
        invariant provider.Valid() && provider.used == old(provider.used)
        invariant provider.trace == t0 + OneByOne(op, this, in0[..k])
        invariant Walked(op, this, st0, in0, orig, begin, k, provider.state, m[..], count)
        decreases end - it
      {
        var c := RangeStep(op, m, st0, in0, orig, begin, it, k, count, t0);
        count := count + c;
        it, k := it + 1, k + 1;
      }
    }

    /** One element of a range form: the batch call `op(&*it, 1)`, which extends the walk by one descriptor. */
    method RangeStep(op: Op, m: array<MapT>, ghost st0: KState, ghost in0: seq<MapT>, ghost orig: seq<MapT>,
                     begin: nat, it: nat, ghost k: nat, ghost count: nat, ghost t0: seq<Event>) returns (c: nat)
      requires provider.Valid()
      requires it == begin + k && k < |in0|
      requires Walked(op, this, st0, in0, orig, begin, k, provider.state, m[..], count)
      requires provider.trace == t0 + OneByOne(op, this, in0[..k])
      modifies provider, m
      ensures provider.Valid() && provider.used == old(provider.used)
      ensures Walked(op, this, st0, in0, orig, begin, k + 1, provider.state, m[..], count + c)
      ensures provider.trace == t0 + OneByOne(op, this, in0[..k + 1])
    {
      ghost var st, cur := provider.state, m[..];
      assert m[it] == in0[k];
      assert m[it..it + 1] == [in0[k]];
      OneByOneExtend(op, this, in0, k);
      c := Batch(op, m, it, 1);
      WalkedStep(op, this, st0, in0, orig, begin, k, st, cur, count, provider.state, m[..], c);
    }

    /**
     * `op(cont)` over a whole container, as written in the header: it walks the
     * container with the range form, but the `unmap` overload calls the range
     * form of `map`.
     */
    method ContainerAsWritten(op: Op, m: array<MapT>) returns (count: nat)
      requires provider.Valid()
      modifies provider, m
      ensures provider.Valid() && provider.used == old(provider.used)
      ensures Fold(ContainerForwardAsWritten(op), this, old(provider.state), old(m[..])) == Outcome(provider.state, m[..], count)
      ensures provider.trace == old(provider.trace) + OneByOne(ContainerForwardAsWritten(op), this, old(m[..]))
    {
      count := Range(ContainerForwardAsWritten(op), m, 0, m.Length);
      assert m[..] == m[0..m.Length] && old(m[..]) == old(m[0..m.Length]);
    }

    /** `op(cont)` over a whole container: the range form over all its elements. */
    method Container(op: Op, m: array<MapT>) returns (count: nat)
      requires provider.Valid()
      modifies provider, m
      ensures provider.Valid() && provider.used == old(provider.used)
      ensures Fold(op, this, old(provider.state), old(m[..])) == Outcome(provider.state, m[..], count)
      ensures count <= m.Length
      ensures provider.trace == old(provider.trace) + OneByOne(op, this, old(m[..]))
    {
      count := Range(op, m, 0, m.Length);
      assert m[..] == m[0..m.Length] && old(m[..]) == old(m[0..m.Length]);
    }

    /**
     * `op(const vector<map_t> &c)`: one batch call over the vector's data and
     * size. Same state, descriptors and count as the container form; only the
     * calls across the interface differ.
     */
    method Vector(op: Op, m: array<MapT>) returns (count: nat)
      requires provider.Valid()
      modifies provider, m
      ensures provider.Valid() && provider.used == old(provider.used)
      ensures Fold(op, this, old(provider.state), old(m[..])) == Outcome(provider.state, m[..], count)
      ensures count <= m.Length
      ensures provider.trace == old(provider.trace) + [BatchCall(op, this, old(m[..]))]
    {
      ghost var st0 := provider.state;
      count := Batch(op, m, 0, m.Length);
      assert m[..] == m[0..m.Length] && old(m[..]) == old(m[0..m.Length]);
      FoldCount(op, this, st0, old(m[..]));
    }

    /**
     * `map()`: builds the descriptor `(0, size())`, maps it with one batch call
     * and returns it as written back.
     */
    method MapWhole() returns (d: MapT)
      requires provider.Valid()
      modifies provider
      ensures provider.Valid() && provider.used == old(provider.used)
      ensures Entry(MapOp, this, old(provider.state), RangeMapT(0, size)) == Step(provider.state, d)
      ensures provider.trace == old(provider.trace) + [BatchCall(MapOp, this, [RangeMapT(0, size)])]
    {
      var m := new MapT[1](_ => RangeMapT(0, size));
      assert m[..] == [RangeMapT(0, size)];
      var count := Batch(MapOp, m, 0, 1);
      assert [RangeMapT(0, size)][..0] == [];
      d := m[0];
    }
  }

  class Provider {
    /** Bytes the arena can hand out in all. */
    const capacity: nat
    /** One past the last local address this provider can map at. */
    const windowEnd: Address
    /** Bytes handed out so far. */
    var used: nat
    /** The mappings (the reverse-lookup table) and the next free local address. */
    var state: KState
    /** Every call made across the provider interface, in order. */
    ghost var trace: seq<Event>

    ghost predicate Valid()
      reads this
    {
      used <= capacity && Coherent(this, state)
    }

    constructor (capacity: nat, windowEnd: Address)
      ensures Valid()
      ensures this.capacity == capacity && this.windowEnd == windowEnd
      ensures used == 0 && state == KState(map[], 1) && trace == []
    {
      this.capacity := capacity;
      this.windowEnd := windowEnd;
      used, state := 0, KState(map[], 1);
      trace := [];
    }

    /**
     * `allocate(ec, bytes)`: a new allocation of at least `bytes`, or no
     * allocation and an error; never both.
     */
    method Allocate(bytes: nat) returns (a: Allocation?, ec: ErrorCode)
      requires Valid()
      modifies this
      ensures Valid() && state == old(state)
      ensures trace == old(trace) + [AllocateCall(bytes)]
      ensures (a == null) <==> (ec != NoError)
      ensures a != null <==> old(used) + bytes <= capacity
      ensures a != null ==> fresh(a) && a.provider == this && a.size >= bytes && used == old(used) + a.size
      ensures a == null ==> ec == OutOfMemory && used == old(used)
    {
      trace := trace + [AllocateCall(bytes)];
      if used + bytes > capacity {
        return null, OutOfMemory;
      }
      a := new Allocation(this, bytes);
      used := used + bytes;
      ec := NoError;
    }

    /**
     * `allocation(addr, map)`: the allocation mapped at `addr`, or null; when a
     * descriptor `m[i]` is passed, a hit fills it with the address and range.
     */
    method AllocationOf(addr: Address, m: array?<MapT>, i: nat) returns (a: Allocation?)
      requires Valid()
      requires m != null ==> i < m.Length
      modifies this, m
      ensures Valid() && state == old(state) && used == old(used)
      ensures trace == old(trace) + [LookupCall(addr)]
      ensures a != null <==> addr in state.table
      ensures a != null ==> a == state.table[addr].owner && a.provider == this
      ensures m != null && a != null ==> m[..] == old(m[..])[i := MapT(addr, state.table[addr].offset, state.table[addr].length, NoError)]
      ensures m != null && a == null ==> m[..] == old(m[..])
    {
      trace := trace + [LookupCall(addr)];
      if addr !in state.table {
        return null;
      }
      a := state.table[addr].owner;
      if m != null {
        m[i] := MapT(addr, state.table[addr].offset, state.table[addr].length, NoError);
      }
    }
  }
}
