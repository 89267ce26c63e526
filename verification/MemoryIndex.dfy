// The index of a memory snapshot: a list of chunks at multiples of the chunk size. All
// checks are done on 64-bit integers; that the arithmetic stays in range is part of the proof.

module MemoryIndex {
  import opened Arithmetic
  import opened Strings

  newtype int64 = x: int | -0x8000_0000_0000_0000 <= x < 0x8000_0000_0000_0000

  const PAGE_SIZE: int64 := 0x1000
  const DEFAULT_CHUNK_SIZE: int64 := 0x20_0000
  const MAX_CHUNK_SIZE: int64 := 0x100_0000
  const MAX_CHUNKS: int := 0x10_0000
  const MAX_MEMORY_BYTES: int64 := 0x100_0000_0000

  datatype Chunk = Chunk(
    offset: int64,
    ref: string,
    digest: string,
    compressedSize: int64,
    uncompressedSize: int64,
    compression: string,
    sha256: string,
    blake3: string)

  datatype Index = Index(version: string, chunkSize: int64, memoryBytes: int64, chunks: seq<Chunk>)

  // Where the i-th chunk begins and ends.
  function Start(idx: Index, i: nat): int {
    Multiple(i, idx.chunkSize as int)
  }

  function End(idx: Index, i: nat): int
    requires i < |idx.chunks|
  {
    Start(idx, i) + idx.chunks[i].uncompressedSize as int
  }

  predicate InPlace(idx: Index, i: nat)
    requires i < |idx.chunks|
  {
    var c := idx.chunks[i];
    && c.offset as int == Start(idx, i) && 0 < c.uncompressedSize <= idx.chunkSize
    && c.ref != "" && StartsWith(c.digest, "sha256:") && c.compressedSize > 0 && c.compression == "gzip"
    && |c.sha256| == 64 && |c.blake3| == 64
  }

  ghost predicate Sized(idx: Index) {
    && 0 < idx.chunkSize <= MAX_CHUNK_SIZE && idx.chunkSize % PAGE_SIZE == 0
    && 0 < idx.memoryBytes <= MAX_MEMORY_BYTES && 0 < |idx.chunks| <= MAX_CHUNKS
  }

  // What an index has to satisfy. Chunks other than the last may be short.
  ghost predicate WellFormed(idx: Index) {
    && idx.version == "v1" && Sized(idx)
    && (forall i: nat | i < |idx.chunks| :: InPlace(idx, i))
    && End(idx, |idx.chunks| - 1) == idx.memoryBytes as int
  }

  method Validate(idx: Index) returns (ok: bool)
    ensures ok <==> WellFormed(idx)
  {
    if idx.version != "v1" {
      return false;
    }
    if idx.chunkSize <= 0 || idx.chunkSize > MAX_CHUNK_SIZE {
      return false;
    }
    if idx.chunkSize % PAGE_SIZE != 0 {
      return false;
    }
    if idx.memoryBytes <= 0 || idx.memoryBytes > MAX_MEMORY_BYTES {
      return false;
    }
    if |idx.chunks| == 0 || |idx.chunks| > MAX_CHUNKS {
      return false;
    }
    for i := 0 to |idx.chunks|
      invariant forall j: nat | j < i :: InPlace(idx, j)
    {
      MultipleBounds(i, idx.chunkSize as int, 0x10_0000, 0x100_0000);
      var chunk := idx.chunks[i];
      var expectedOffset := i as int64 * idx.chunkSize;
      assert expectedOffset as int == Start(idx, i);
      var bad := chunk.offset != expectedOffset || chunk.ref == "" || !StartsWith(chunk.digest, "sha256:")
                 || chunk.compressedSize <= 0 || chunk.uncompressedSize <= 0 || chunk.uncompressedSize > idx.chunkSize
                 || chunk.compression != "gzip" || |chunk.sha256| != 64 || |chunk.blake3| != 64;
      if bad {
        assert !InPlace(idx, i);
        return false;
      }
    }
    var last := idx.chunks[|idx.chunks| - 1];
    assert InPlace(idx, |idx.chunks| - 1);
    MultipleBounds(|idx.chunks| - 1, idx.chunkSize as int, 0x10_0000, 0x100_0000);
    return last.offset + last.uncompressedSize == idx.memoryBytes;
  }

  // ---------------------------------------------------------------------------
  // Geometry

  // There are exactly as many chunks as it takes to cover the memory.
  lemma CountIsExact(idx: Index)
    requires WellFormed(idx)
    ensures |idx.chunks| == (idx.memoryBytes as int + idx.chunkSize as int - 1) / idx.chunkSize as int
  {
    var n, k := |idx.chunks| as nat, idx.chunkSize as int;
    assert InPlace(idx, n - 1);
    MultipleNext(n - 1, k);
    MultipleNext(n, k);
    MultipleIsQuotient(idx.memoryBytes as int + k - 1, k, n);
  }

  // Chunks lie inside the memory, in order, and do not overlap.
  lemma ChunksAreDisjoint(idx: Index, i: nat, j: nat)
    requires WellFormed(idx) && i < j < |idx.chunks|
    ensures 0 <= Start(idx, i) < End(idx, i) <= Start(idx, j) < End(idx, j) <= idx.memoryBytes as int
  {
    var k, n := idx.chunkSize as int, |idx.chunks| as nat;
    assert InPlace(idx, i) && InPlace(idx, j) && InPlace(idx, n - 1);
    MultipleNext(i, k);
    MultipleMonotone(0, i, k);
    MultipleMonotone(i + 1, j, k);
    if j < n - 1 {
      MultipleNext(j, k);
      MultipleMonotone(j + 1, n - 1, k);
    }
  }

  predicate Holds(idx: Index, i: nat, address: int)
    requires i < |idx.chunks|
  {
    Start(idx, i) <= address < End(idx, i)
  }

  // Dividing an address by the chunk size gives the only chunk that can hold it, and that
  // chunk does exactly when it is long enough.
  lemma AddressIsInItsSlot(idx: Index, address: int)
    requires WellFormed(idx) && 0 <= address < idx.memoryBytes as int
    ensures 0 <= address / idx.chunkSize as int < |idx.chunks|
    ensures forall i: nat | i < |idx.chunks| ::
              Holds(idx, i, address) <==>
              i == address / idx.chunkSize as int &&
              address % idx.chunkSize as int < idx.chunks[i].uncompressedSize as int
  {
    var k, n := idx.chunkSize as int, |idx.chunks| as nat;
    QuotientSplits(address, k);
    forall i: nat | i < n
      ensures Holds(idx, i, address) <==>
              i == address / k && address % k < idx.chunks[i].uncompressedSize as int
    {
      OnlySlot(idx, i, address, address / k, address % k);
    }
    LastSlot(idx, address, address / k, address % k);
  }

  lemma OnlySlot(idx: Index, i: nat, address: int, q: nat, r: nat)
    requires WellFormed(idx) && i < |idx.chunks| && address == Multiple(q, idx.chunkSize as int) + r
    requires r < idx.chunkSize as int
    ensures Holds(idx, i, address) <==> i == q && r < idx.chunks[i].uncompressedSize as int
  {
    var k := idx.chunkSize as int;
    assert InPlace(idx, i);
    MultipleNext(i, k);
    MultipleNext(q, k);
    if i < q {
      MultipleMonotone(i + 1, q, k);
    } else if q < i {
      MultipleMonotone(q + 1, i, k);
    }
  }

  lemma LastSlot(idx: Index, address: int, q: nat, r: nat)
    requires WellFormed(idx) && address == Multiple(q, idx.chunkSize as int) + r < idx.memoryBytes as int
    ensures q < |idx.chunks|
  {
    var k, n := idx.chunkSize as int, |idx.chunks| as nat;
    assert InPlace(idx, n - 1);
    MultipleNext(n - 1, k);
    if q >= n {
      MultipleMonotone(n, q, k);
    }
  }

  function Sample(offset: int64): Chunk {
    Chunk(offset, "ref", "sha256:", 1, 1, "gzip", seq(64, _ => '0'), seq(64, _ => '0'))
  }

  // Acceptance alone does not mean that the chunks cover the memory: a short chunk before
  // the last one leaves addresses that nothing holds.
  lemma GapsAreAccepted() returns (idx: Index, address: int)
    ensures WellFormed(idx) && 0 <= address < idx.memoryBytes as int
    ensures forall i: nat | i < |idx.chunks| :: !Holds(idx, i, address)
  {
    idx := Index("v1", PAGE_SIZE, PAGE_SIZE + 1, [Sample(0), Sample(PAGE_SIZE)]);
    address := 1;
    assert StartsWith("sha256:", "sha256:");
    forall i: nat | i < |idx.chunks| ensures InPlace(idx, i) {
      assert i == 0 || i == 1;
    }
    assert Start(idx, 0) == 0 && Start(idx, 1) == PAGE_SIZE as int;
  }

  ghost predicate Held(idx: Index, address: int) {
    exists i: nat :: i < |idx.chunks| && Holds(idx, i, address)
  }

  ghost predicate AllFull(idx: Index) {
    forall i: nat | i + 1 < |idx.chunks| :: idx.chunks[i].uncompressedSize == idx.chunkSize
  }

  // The chunks cover the memory exactly when all but the last are full.
  lemma CoversIff(idx: Index)
    requires WellFormed(idx)
    ensures (forall a | 0 <= a < idx.memoryBytes as int :: Held(idx, a)) <==> AllFull(idx)
  {
    if AllFull(idx) {
      forall a | 0 <= a < idx.memoryBytes as int ensures Held(idx, a) {
        FullHolds(idx, a);
      }
    } else {
      var i: nat :| i + 1 < |idx.chunks| && idx.chunks[i].uncompressedSize != idx.chunkSize;
      ShortLeaves(idx, i);
    }
  }

  lemma FullHolds(idx: Index, a: int)
    requires WellFormed(idx) && AllFull(idx) && 0 <= a < idx.memoryBytes as int
    ensures Held(idx, a)
  {
    var k := idx.chunkSize as int;
    var q, last := a / k, |idx.chunks| - 1;
    QuotientSplits(a, k);
    AddressIsInItsSlot(idx, a);
    assert q == last ==> a % k < idx.chunks[last].uncompressedSize as int;
    assert Holds(idx, q, a);
  }

  // The address right after a short chunk is held by none.
  lemma ShortLeaves(idx: Index, i: nat)
    requires WellFormed(idx) && i + 1 < |idx.chunks| && idx.chunks[i].uncompressedSize != idx.chunkSize
    ensures 0 <= End(idx, i) < idx.memoryBytes as int && !Held(idx, End(idx, i))
  {
    assert InPlace(idx, i);
    ChunksAreDisjoint(idx, i, i + 1);
    forall j: nat | j < |idx.chunks| ensures !Holds(idx, j, End(idx, i)) {
      OnlySlot(idx, j, End(idx, i), i, idx.chunks[i].uncompressedSize as int);
    }
  }

  // No page lies in two slots.
  lemma PageIsInOneSlot(idx: Index, a: int, b: int)
    requires WellFormed(idx) && 0 <= a && 0 <= b && a / PAGE_SIZE as int == b / PAGE_SIZE as int
    ensures a / idx.chunkSize as int == b / idx.chunkSize as int
  {
    var p, k := 0x1000, idx.chunkSize as int;
    var m := k / p;
    assert k == p * m;
    assert m > 0;
    DivideTwice(a, p, m);
    DivideTwice(b, p, m);
  }
}
