/** Main memory: a dictionary from physical address to whatever was last
    stored there, plus `get_block`, which makes up a fresh block instead of
    reading the stored data. */
module Memories {
  import opened Common

  /** What a memory cell holds: a whole block put there by `get_block`, or
      one datum put there by `write` / `write_data`. */
  datatype Stored = StoredBlock(block: Block) | StoredDatum(datum: Datum)

  /** The byte string `b"data" + bytes([i])`. */
  function DataBytes(i: nat): (r: Datum)
    requires i < 256
    ensures r.Bytes? && |r.bytes| == 5 && r.bytes[4] == i
  {
    Bytes([100, 97, 116, 97, i])
  }

  /** `{i: b"data" + bytes([i]) for i in range(n)}`. */
  function FreshBlock(n: nat): (r: Block)
    requires n <= 256
    ensures forall i :: i in r <==> 0 <= i < n
    ensures forall i :: i in r ==> i < 256 && r[i] == DataBytes(i)
  {
    map i: nat | i < n :: DataBytes(i)
  }

  /** The block grows one key at a time. */
  lemma FreshBlockNext(n: nat)
    requires n < 256
    ensures FreshBlock(n + 1) == FreshBlock(n)[n := DataBytes(n)]
  {
  }

  /** `len(block) == n`. */
  lemma {:induction false} FreshBlockSize(n: nat)
    requires n <= 256
    ensures |FreshBlock(n)| == n
  {
    if n > 0 {
      FreshBlockSize(n - 1);
      FreshBlockNext(n - 1);
    }
  }

  /** `get_block(address, block_size)` on the dictionary `storage`: the
      unused `address % block_size` divides by zero for a block size of 0,
      `bytes([i])` rejects an `i` of 256 or more, and otherwise the fresh
      block is stored under `address` itself (not the block's start) and
      returned. */
  function GetBlockOf(storage: map<nat, Stored>, address: nat, blockSize: nat): (r: Result<(Block, map<nat, Stored>)>)
    ensures r.Failure? <==> blockSize == 0 || blockSize > 256
    ensures r.Failure? ==> r.error == (if blockSize == 0 then ZeroDivisionError else ValueError)
    ensures r.Success? ==> r.value.1 == storage[address := StoredBlock(r.value.0)]
  {
    if blockSize == 0 then Failure(ZeroDivisionError)
    else if blockSize > 256 then Failure(ValueError)
    else
      var block := FreshBlock(blockSize);
      Success((block, storage[address := StoredBlock(block)]))
  }

  /** Whatever was written before, `get_block` returns the same made-up
      block, whose entry at every offset `i` is `b"data" + bytes([i])`; the
      block goes under the unaligned address and every other cell, the
      block's aligned start included, keeps its contents. */
  lemma GetBlockIgnoresStorage(storage: map<nat, Stored>, other: map<nat, Stored>, address: nat, blockSize: nat)
    requires 1 <= blockSize <= 256
    ensures GetBlockOf(storage, address, blockSize).value.0 == GetBlockOf(other, address, blockSize).value.0
    ensures var (block, after) := GetBlockOf(storage, address, blockSize).value;
      && |block| == blockSize
      && (forall i :: 0 <= i < blockSize ==> i in block && block[i] == Bytes([100, 97, 116, 97, i]))
      && after[address] == StoredBlock(block)
      && (forall a :: a != address ==> (a in after <==> a in storage))
      && (forall a :: a != address && a in storage ==> after[a] == storage[a])
  {
    FreshBlockSize(blockSize);
  }

  /** `Memory`: `storage` maps a physical address to what was stored
      there; `size_byte` is recorded and never consulted. */
  class Memory {
    const sizeByte: nat
    var storage: map<nat, Stored>

    constructor (sizeByte: nat)
      ensures this.sizeByte == sizeByte && storage == map[]
    {
      this.sizeByte := sizeByte;
      storage := map[];
    }

    /** `read(physical_address)`: the stored value, or `None`. */
    method Read(physicalAddress: nat) returns (r: Option<Stored>)
      ensures r.Some? <==> physicalAddress in storage
      ensures r.Some? ==> r.value == storage[physicalAddress]
    {
      if physicalAddress in storage {
        r := Some(storage[physicalAddress]);
      } else {
        r := None;
      }
    }

    /** `write(physical_address, data)`. */
    method Write(physicalAddress: nat, data: Stored)
      modifies this
      ensures storage == old(storage)[physicalAddress := data]
    {
      storage := storage[physicalAddress := data];
    }

    /** `get_block(address, block_size=16)`. */
    method GetBlock(address: nat, blockSize: nat := 16) returns (r: Result<Block>)
      modifies this
      ensures var g := GetBlockOf(old(storage), address, blockSize);
        if g.Success? then r == Success(g.value.0) && storage == g.value.1
        else r == Failure(g.error) && storage == old(storage)
    {
      if blockSize == 0 {
        return Failure(ZeroDivisionError);
      }
      if blockSize > 256 {
        return Failure(ValueError);
      }
      var block: Block := map[];
      var i := 0;
      while i < blockSize
        invariant 0 <= i <= blockSize
        invariant block == FreshBlock(i)
        invariant storage == old(storage)
      {
        FreshBlockNext(i);
        block := block[i := DataBytes(i)];
        i := i + 1;
      }
      storage := storage[address := StoredBlock(block)];
      return Success(block);
    }

    /** `write_data(address, data)`: the datum replaces whatever the cell
      held. */
    method WriteData(address: nat, data: Datum)
      modifies this
      ensures storage == old(storage)[address := StoredDatum(data)]
    {
      storage := storage[address := StoredDatum(data)];
    }
  }
}
