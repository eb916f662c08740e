/**
 * Core Buffer: a byte array that owns its storage together with its size.
 * Data is null exactly when no storage has been allocated; Allocate always
 * releases the old storage first and returns fresh storage, even for size 0.
 */
module CoreBuffer {
  newtype uint8 = x: int | 0 <= x < 0x100

  class Buffer {
    var data: array?<uint8>
    var size: nat

    /** The storage, when there is one, holds exactly size bytes; without storage the size is 0. */
    ghost predicate Valid()
      reads this
    {
      (data == null ==> size == 0) && (data != null ==> data.Length == size)
    }

    /** The bytes the buffer holds. */
    ghost function Bytes(): seq<uint8>
      reads this, data
      requires Valid()
    {
      if data == null then [] else data[..]
    }

    /** Buffer(): no storage and size 0. */
    constructor ()
      ensures Valid() && data == null && size == 0 && Bytes() == []
    {
      data := null;
      size := 0;
    }

    /** Buffer(size): the same as Allocate(size) on an empty buffer. */
    constructor Sized(n: nat)
      ensures Valid() && data != null && fresh(data) && size == n
    {
      data := new uint8[n];
      size := n;
    }

    /** Allocate(size): the old storage is released, then size fresh bytes replace it. */
    method Allocate(n: nat)
      modifies this
      ensures Valid() && data != null && fresh(data) && size == n
    {
      Release();
      data := new uint8[n];
      size := n;
    }

    /** Release(): no storage and size 0; releasing an empty buffer again is harmless. */
    method Release()
      modifies this
      ensures Valid() && data == null && size == 0
    {
      data := null;
      size := 0;
    }

    /** Copy(other): a buffer with storage of its own holding the same bytes. */
    static method CopyBuffer(other: Buffer) returns (b: Buffer)
      requires other.Valid()
      ensures fresh(b) && fresh(b.data) && b.Valid() && b.data != null
      ensures b.size == other.size && b.Bytes() == other.Bytes()
    {
      b := new Buffer.Sized(other.size);
      var storage := b.data;
      if other.data != null {
        var n := other.size;
        for i := 0 to n
          invariant b.data == storage && b.size == n
          invariant storage[..i] == other.data[..i]
        {
          storage[i] := other.data[i];
        }
        assert storage[..n] == storage[..];
        assert other.data[..n] == other.data[..];
      } else {
        assert storage[..] == [];
      }
    }

    /** Copy(data, size): a new buffer holding the first size bytes of data; the source bytes are left alone. */
    static method CopyBytes(source: array<uint8>, n: nat) returns (b: Buffer)
      requires n <= source.Length
      ensures fresh(b) && fresh(b.data) && b.Valid() && b.data != null
      ensures b.size == n && b.Bytes() == source[..n]
    {
      b := new Buffer.Sized(n);
      var storage := b.data;
      for i := 0 to n
        invariant b.data == storage && b.size == n
        invariant storage[..i] == source[..i]
      {
        storage[i] := source[i];
      }
      assert storage[..n] == storage[..];
    }
  }
}
