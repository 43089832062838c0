/** The page table (a dictionary from virtual page number to physical page
    number) and the two address helpers that split a virtual address into
    a page number and an offset. */
module PageTables {
  import opened Common
  import opened Bits

  // ---------------------------------------------------------------------
  // The page table's dictionary as a value

  /** `entries.get(vpn, None)`. */
  function Lookup(entries: map<nat, nat>, vpn: nat): Option<nat>
  {
    if vpn in entries then Some(entries[vpn]) else None
  }

  /** `entries[vpn] = ppn`: inserts or overwrites, and touches no other key. */
  function Add(entries: map<nat, nat>, vpn: nat, ppn: nat): (r: map<nat, nat>)
    ensures Lookup(r, vpn) == Some(ppn)
    ensures forall v :: v != vpn ==> Lookup(r, v) == Lookup(entries, v)
    ensures r.Keys == entries.Keys + {vpn}
  {
    entries[vpn := ppn]
  }

  /** `del entries[vpn]` when present: exactly that key goes, nothing else. */
  function Remove(entries: map<nat, nat>, vpn: nat): (r: map<nat, nat>)
    ensures Lookup(r, vpn) == None
    ensures forall v :: v != vpn ==> Lookup(r, v) == Lookup(entries, v)
    ensures vpn !in entries ==> r == entries
    ensures vpn in entries ==> r.Keys == entries.Keys - {vpn}
  {
    if vpn in entries then entries - {vpn} else entries
  }

  /** The update of an existing mapping, which raises `KeyError` for an
      absent page. */
  function Update(entries: map<nat, nat>, vpn: nat, ppn: nat): (r: Result<map<nat, nat>>)
    ensures r.Failure? <==> vpn !in entries
    ensures r.Failure? ==> r.error == KeyError
    ensures r.Success? ==> r.value.Keys == entries.Keys
    ensures r.Success? ==> Lookup(r.value, vpn) == Some(ppn)
    ensures r.Success? ==> forall v :: v != vpn ==> Lookup(r.value, v) == Lookup(entries, v)
  {
    if vpn in entries then Success(entries[vpn := ppn]) else Failure(KeyError)
  }

  /** The page table object: a mutable dictionary plus the page size. */
  class PageTable {
    var entries: map<nat, nat>
    const pageSizeKiB: nat
    const pageSize: nat

    constructor (pageSizeKiB: nat := 4)
      ensures entries == map[]
      ensures this.pageSizeKiB == pageSizeKiB
      ensures pageSize == pageSizeKiB * 1024
    {
      entries := map[];
      this.pageSizeKiB := pageSizeKiB;
      pageSize := pageSizeKiB * 1024;
    }

    method AddEntry(vpn: nat, ppn: nat)
      modifies this
      ensures entries == Add(old(entries), vpn, ppn)
    {
      entries := entries[vpn := ppn];
    }

    method GetPhysicalPageNumber(vpn: nat) returns (r: Option<nat>)
      ensures r.Some? <==> vpn in entries
      ensures r.Some? ==> r.value == entries[vpn]
    {
      if vpn in entries {
        r := Some(entries[vpn]);
      } else {
        r := None;
      }
    }

    method RemoveEntry(vpn: nat)
      modifies this
      ensures entries == Remove(old(entries), vpn)
    {
      if vpn in entries {
        entries := entries - {vpn};
      }
    }

    /** Raises `KeyError` (and changes nothing) for an absent page. */
    method UpdateEntry(vpn: nat, ppn: nat) returns (r: Outcome)
      modifies this
      ensures var u := Update(old(entries), vpn, ppn);
        if u.Success? then r == Pass && entries == u.value
        else r == Fail(u.error) && entries == old(entries)
    {
      if vpn in entries {
        entries := entries[vpn := ppn];
        r := Pass;
      } else {
        r := Fail(KeyError);
      }
    }

    method Clear()
      modifies this
      ensures entries == map[]
      ensures forall v :: Lookup(entries, v) == None
    {
      entries := map[];
    }
  }

  // ---------------------------------------------------------------------
  // Splitting a virtual address

  /** `virtual_address >> OFFSET_BITS`: the number of whole pages of
      `2^OFFSET_BITS` bytes below the address. */
  function GetPageNumber(virtualAddress: nat, offsetBits: nat): (r: nat)
    ensures r == virtualAddress / Pow2(offsetBits)
  {
    ShrIsDiv(virtualAddress, offsetBits);
    Shr(virtualAddress, offsetBits)
  }

  /** `virtual_address & (PAGE_SIZE - 1)`; with a page size of 0 the mask
      is Python's `-1`, which keeps every bit. For a positive page size the
      offset lies within the page. */
  function GetOffset(virtualAddress: nat, pageSize: nat): (r: nat)
    ensures pageSize >= 1 ==> r < pageSize
    ensures pageSize == 0 ==> r == virtualAddress
  {
    if pageSize == 0 then virtualAddress
    else
      AndAtMost(virtualAddress, pageSize - 1);
      And(virtualAddress, pageSize - 1)
  }

  /** `(PAGE_SIZE - 1).bit_length()`, where `(-1).bit_length()` is 1. */
  function OffsetBits(pageSize: nat): nat
  {
    if pageSize == 0 then 1 else BitLength(pageSize - 1)
  }

  /** For a page of `2^k` bytes the two ways the code computes the offset
      width, `PAGE_SIZE.bit_length() - 1` and `(PAGE_SIZE - 1).bit_length()`,
      agree and are `k`. */
  lemma OffsetWidthsAgree(k: nat)
    ensures BitLength(Pow2(k)) - 1 == k
    ensures OffsetBits(Pow2(k)) == k
  {
    BitLengthPow2(k);
    BitLengthPow2Minus1(k);
  }

  /** For a page of `2^k` bytes the offset is the address modulo the page
      size, hence below the page size. */
  lemma OffsetIsLowBits(virtualAddress: nat, k: nat)
    ensures GetOffset(virtualAddress, Pow2(k)) == virtualAddress % Pow2(k)
    ensures GetOffset(virtualAddress, Pow2(k)) < Pow2(k)
  {
    AndLowMask(virtualAddress, k);
  }

  /** Page number and offset rebuild the address:
      `(get_page_number(va, k) << k) | get_offset(va, 2^k) == va`. */
  lemma SplitRebuild(virtualAddress: nat, k: nat)
    ensures Shl(GetPageNumber(virtualAddress, k), k) + GetOffset(virtualAddress, Pow2(k)) == virtualAddress
    ensures Or(Shl(GetPageNumber(virtualAddress, k), k), GetOffset(virtualAddress, Pow2(k))) == virtualAddress
  {
    OffsetIsLowBits(virtualAddress, k);
    ShrShlPlusMod(virtualAddress, k);
    OrShifted(GetPageNumber(virtualAddress, k), k, GetOffset(virtualAddress, Pow2(k)));
  }
}
