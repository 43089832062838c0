/** The integer part of the virtual-to-physical mapping calculator: given a
    page size in KiB, a virtual address and a physical page number, it
    splits the address, maps the page in a one-entry table, reads the
    mapping back and forms the physical address. */
module AddressMapping {
  import opened Common
  import opened Bits
  import opened PageTables

  datatype PageInfo = PageInfo(
    pageSize: nat,
    offsetBits: nat,
    offset: nat,
    virtualPageNumber: nat,
    entries: map<nat, nat>,
    retrievedPhysicalPageNumber: Option<nat>,
    physicalAddress: Option<nat>)

  /** `calculate_page_info` without the size strings it also formats. A page
      size of 0 makes `2 ** 64 / PAGE_SIZE` raise `ZeroDivisionError`. */
  function CalculatePageInfo(pageSizeKiB: nat, virtualAddress: nat, physicalPageNumber: nat): (r: Result<PageInfo>)
    ensures r.Failure? <==> pageSizeKiB == 0
    ensures r.Failure? ==> r.error == ZeroDivisionError
    ensures r.Success? ==> r.value.pageSize == pageSizeKiB * 1024
    ensures r.Success? ==> r.value.offsetBits == BitLength(pageSizeKiB * 1024 - 1)
  {
    var pageSize := pageSizeKiB * 1024;
    var offsetBits := OffsetBits(pageSize);
    if pageSize == 0 then Failure(ZeroDivisionError)
    else
      var offset := GetOffset(virtualAddress, pageSize);
      var virtualPageNumber := GetPageNumber(virtualAddress, offsetBits);
      var entries := Add(map[], virtualPageNumber, physicalPageNumber);
      var retrieved := Lookup(entries, virtualPageNumber);
      var physicalAddress :=
        if retrieved.Some? then Some(Or(Shl(retrieved.value, offsetBits), offset)) else None;
      Success(PageInfo(pageSize, offsetBits, offset, virtualPageNumber, entries, retrieved, physicalAddress))
  }

  /** For every positive page size the mapping just installed is read back,
      so the physical address exists; its low `OFFSET_BITS` bits are the
      offset and shifting it right by `OFFSET_BITS` gives back the physical
      page number. */
  lemma PhysicalAddressParts(pageSizeKiB: nat, virtualAddress: nat, physicalPageNumber: nat)
    requires pageSizeKiB >= 1
    ensures var r := CalculatePageInfo(pageSizeKiB, virtualAddress, physicalPageNumber);
      && r.Success?
      && r.value.retrievedPhysicalPageNumber == Some(physicalPageNumber)
      && r.value.physicalAddress.Some?
      && r.value.physicalAddress.value == Shl(physicalPageNumber, r.value.offsetBits) + r.value.offset
      && r.value.physicalAddress.value % Pow2(r.value.offsetBits) == r.value.offset
      && Shr(r.value.physicalAddress.value, r.value.offsetBits) == physicalPageNumber
  {
    var pageSize := pageSizeKiB * 1024;
    var k := BitLength(pageSize - 1);
    var offset := GetOffset(virtualAddress, pageSize);
    AndAtMost(virtualAddress, pageSize - 1);
    BitLengthBounds(pageSize - 1);
    assert offset < Pow2(k);
    OrShifted(physicalPageNumber, k, offset);
    ShlPlusLowBits(physicalPageNumber, k, offset);
  }

  /** When the page size is a power of two, `2^j` KiB, the offset is the
      address modulo the page size and the page number is the quotient. */
  lemma PowerOfTwoSplit(j: nat, virtualAddress: nat, physicalPageNumber: nat)
    ensures var r := CalculatePageInfo(Pow2(j), virtualAddress, physicalPageNumber);
      && r.Success?
      && r.value.pageSize == Pow2(j + 10)
      && r.value.offsetBits == j + 10
      && r.value.offset == virtualAddress % Pow2(j + 10)
      && r.value.virtualPageNumber == virtualAddress / Pow2(j + 10)
  {
    Pow2Add(j, 10);
    assert Pow2(10) == 1024;
    OffsetWidthsAgree(j + 10);
    OffsetIsLowBits(virtualAddress, j + 10);
    ShrIsDiv(virtualAddress, j + 10);
  }

  /** With 4 KiB pages, `OFFSET_BITS` is 12. */
  lemma FourKiBPagesHaveTwelveOffsetBits(virtualAddress: nat, physicalPageNumber: nat)
    ensures var r := CalculatePageInfo(4, virtualAddress, physicalPageNumber);
      r.Success? && r.value.pageSize == 4096 && r.value.offsetBits == 12
  {
    assert Pow2(12) == 4096;
    BitLengthPow2Minus1(12);
  }
}
