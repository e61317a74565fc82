/**
 * The mapping registry (mmap.go): every mapping handed out by `Mmap` is
 * recorded under the address of its last byte, and `Munmap` only passes a
 * slice to the kernel when it is exactly a recorded mapping.
 *
 * Addresses are naturals; a Go byte slice is its header (base, len, cap);
 * the mapped bytes themselves are not modelled.
 */
module Mmap {
  import opened Consts
  import opened Syscalls

  datatype Option<T> = None | Some(value: T)

  /** A `[]byte` header: address of element 0, length and capacity. */
  datatype Slice = Slice(base: nat, len: nat, cap: nat)

  /** The nil slice `Mmap` returns on failure. */
  const NilSlice := Slice(0, 0, 0)

  /** The registry key of a slice: the address `&b[cap(b)-1]` of its last byte. */
  function LastByte(s: Slice): nat
    requires s.cap > 0
  {
    s.base + s.cap - 1
  }

  /**
   * The registry invariant: every entry is a whole, non-empty slice stored
   * under its own last-byte address.
   */
  ghost predicate Registered(active: map<nat, Slice>) {
    forall p :: p in active ==> active[p].len == active[p].cap > 0 && LastByte(active[p]) == p
  }

  /**
   * The lookup `Munmap` performs before calling the kernel: the registered
   * slice to unmap, or `None` when the request is refused with EINVAL.
   */
  function UnmapTarget(active: map<nat, Slice>, data: Slice): (r: Option<Slice>)
    ensures r.Some? ==> data.len == data.cap > 0 && LastByte(data) in active
    ensures r.Some? ==> r.value == active[LastByte(data)] && r.value.base == data.base
  {
    if data.len == 0 || data.len != data.cap then None
    else
      var p := LastByte(data);
      if p !in active || active[p].base != data.base then None
      else Some(active[p])
  }

  /** In a consistent registry, a request passes the lookup only if it is exactly a registered slice. */
  lemma UnmapTargetIsExact(active: map<nat, Slice>, data: Slice)
    requires Registered(active)
    ensures UnmapTarget(active, data).Some? <==> data in active.Values
    ensures UnmapTarget(active, data).Some? ==> UnmapTarget(active, data).value == data
  {
    if data in active.Values {
      var p :| p in active && active[p] == data;
      assert LastByte(data) == p;
    }
  }

  /** A prefix `b[:j]` keeps the capacity of `b`, so `len != cap` refuses it. */
  lemma UnmapRefusesPrefix(active: map<nat, Slice>, b: Slice, j: nat)
    requires Registered(active) && b in active.Values && j < b.len
    ensures UnmapTarget(active, Slice(b.base, j, b.cap)) == None
  {
  }

  /** A suffix `b[k:]` ends where `b` ends, so it finds `b`'s entry, whose base differs. */
  lemma UnmapRefusesSuffix(active: map<nat, Slice>, b: Slice, k: nat)
    requires Registered(active) && b in active.Values && 0 < k < b.len
    ensures UnmapTarget(active, Slice(b.base + k, b.len - k, b.cap - k)) == None
  {
    var p :| p in active && active[p] == b;
    assert LastByte(Slice(b.base + k, b.len - k, b.cap - k)) == p;
  }

  /**
   * Registering a slice makes exactly it unmappable; once its entry is
   * removed, the same slice is refused.
   */
  lemma {:induction false} RegisterThenRemove(active: map<nat, Slice>, s: Slice)
    requires Registered(active) && s.len == s.cap > 0
    ensures Registered(active[LastByte(s) := s])
    ensures UnmapTarget(active[LastByte(s) := s], s) == Some(s)
    ensures Registered(active[LastByte(s) := s] - {LastByte(s)})
    ensures UnmapTarget(active[LastByte(s) := s] - {LastByte(s)}, s) == None
  {
  }

  /** The process-wide `mmapper`: the table of live mappings and the calls made to the kernel. */
  class Mmapper {
    /** Live mappings, keyed by the address of their last byte. */
    var active: map<nat, Slice>
    /** Every `mmap`/`munmap` request issued so far, oldest first. */
    var calls: seq<Call>

    ghost predicate Valid()
      reads this
    {
      Registered(active)
    }

    constructor ()
      ensures Valid() && active == map[] && calls == []
    {
      active := map[];
      calls := [];
    }

    /**
     * `Mmap`: a zero length is refused before the kernel is asked; a
     * failing `mmap` leaves the table alone; a successful one is recorded
     * under its last byte. `reply` is what the kernel answers if asked.
     */
    method Mmap(address: nat, length: nat, prot: bv64, flags: bv64, fd: int, offset: int, reply: AddrReply)
      returns (data: Slice, addr: nat, err: Error)
      requires Valid()
      modifies this
      ensures Valid()
      ensures length == 0 ==>
        data == NilSlice && addr == 0 && err == Sys(EINVAL) && active == old(active) && calls == old(calls)
      ensures length > 0 ==> calls == old(calls) + [MmapCall(address, length, prot, flags, fd, offset)]
      ensures length > 0 && reply.err != Nil ==>
        data == NilSlice && addr == 0 && err == reply.err && active == old(active)
      ensures length > 0 && reply.err == Nil ==>
        && data == Slice(reply.addr, length, length) && addr == reply.addr && err == Nil
        && active == old(active)[LastByte(data) := data]
    {
      if length <= 0 {
        return NilSlice, 0, Sys(EINVAL);
      }
      calls := calls + [MmapCall(address, length, prot, flags, fd, offset)];
      addr, err := reply.addr, reply.err;
      if err != Nil {
        return NilSlice, 0, err;
      }
      data := Slice(addr, length, length);
      var p := LastByte(data);
      active := active[p := data];
    }

    /**
     * `Munmap`: only a slice that is exactly a live mapping reaches the
     * kernel; its entry is dropped only when `munmap` succeeds. `reply` is
     * what the kernel answers if asked.
     */
    method Munmap(data: Slice, reply: Error) returns (err: Error)
      requires Valid()
      modifies this
      ensures Valid()
      ensures data !in old(active).Values ==>
        err == Sys(EINVAL) && active == old(active) && calls == old(calls)
      ensures data in old(active).Values ==>
        && calls == old(calls) + [MunmapCall(data.base, data.len)]
        && err == reply
        && active == (if reply == Nil then old(active) - {LastByte(data)} else old(active))
    {
      UnmapTargetIsExact(active, data);
      if data.len == 0 || data.len != data.cap {
        return Sys(EINVAL);
      }
      var p := LastByte(data);
      if p !in active || active[p].base != data.base {
        return Sys(EINVAL);
      }
      var b := active[p];
      calls := calls + [MunmapCall(b.base, b.len)];
      if reply != Nil {
        return reply;
      }
      active := active - {p};
      err := Nil;
    }
  }

  /**
   * Mapping and then unmapping the returned slice succeeds; unmapping it a
   * second time is refused without reaching the kernel.
   */
  method MapThenUnmapTwice(m: Mmapper, length: nat, at: nat)
    returns (mapErr: Error, first: Error, second: Error)
    requires m.Valid() && length > 0
    modifies m
    ensures mapErr == Nil && first == Nil && second == Sys(EINVAL)
    ensures m.Valid() && m.active == old(m.active) - {at + length - 1}
    ensures m.calls == old(m.calls) + [MmapCall(0, length, PROT_RDWR, 0, -1, 0), MunmapCall(at, length)]
  {
    var data, addr;
    data, addr, mapErr := m.Mmap(0, length, PROT_RDWR, 0, -1, 0, AddrReply(at, Nil));
    assert m.active[LastByte(data)] == data;
    first := m.Munmap(data, Nil);
    second := m.Munmap(data, Nil);
  }
}
