// Cutting a memory file into the chunks of a snapshot. A read may return less than it was
// asked for; the index that results is validated before it is used.

module Chunking {
  import opened Arithmetic
  import opened MemoryIndex
  import opened Strings

  type Bytes = seq<bv8>

  // A read delivers some bytes, or the end of the file, or an error. It delivers nothing
  // only at the end, and reports the end along with bytes only when they are the last.
  datatype Status = More | EndOfFile | Broken

  class File {
    const data: Bytes
    var pos: nat

    constructor (data: Bytes)
      ensures this.data == data && pos == 0
    {
      this.data, pos := data, 0;
    }

    method Read(buffer: array<bv8>) returns (n: nat, status: Status)
      requires pos <= |data| && buffer.Length > 0
      modifies this`pos, buffer
      ensures old(pos) <= pos <= |data| && n <= buffer.Length
      ensures !status.Broken? ==> pos == old(pos) + n && buffer[..n] == data[old(pos)..pos]
      ensures !status.Broken? && old(pos) < |data| ==> n > 0
      ensures !status.Broken? && n == 0 ==> status.EndOfFile?
      ensures status.EndOfFile? ==> pos == |data|
    {
      var broken := *;
      if broken {
        return 0, Broken;
      }
      var left := |data| - pos;
      var some: int := *;
      n := if 0 < some <= left && some <= buffer.Length then some
           else if left < buffer.Length then left else buffer.Length;
      forall i | 0 <= i < n {
        buffer[i] := data[pos + i];
      }
      pos := pos + n;
      var known := *;
      status := if n == 0 || (known && pos == |data|) then EndOfFile else More;
    }
  }

  // The functions that name and fingerprint a chunk.
  datatype Hashes = Hashes(
    digest: Bytes -> string,
    ref: string -> string,
    sha256: Bytes -> string,
    blake3: Bytes -> string)

  ghost predicate Proper(h: Hashes) {
    forall b: Bytes :: StartsWith(h.digest(b), "sha256:") && |h.sha256(b)| == 64 && |h.blake3(b)| == 64 &&
                       h.ref(h.digest(b)) != ""
  }

  // The chunk that describes these bytes.
  function ChunkOf(h: Hashes, offset: int64, raw: Bytes): Chunk
    requires |raw| <= DEFAULT_CHUNK_SIZE as int
  {
    Chunk(offset, h.ref(h.digest(raw)), h.digest(raw), |raw| as int64, |raw| as int64, "gzip",
          h.sha256(raw), h.blake3(raw))
  }

  function Concat(parts: seq<Bytes>): Bytes {
    if parts == [] then [] else Concat(parts[..|parts| - 1]) + parts[|parts| - 1]
  }

  // Each chunk describes its part of the data, and the parts are what was read so far.
  ghost predicate Describes(h: Hashes, chunks: seq<Chunk>, parts: seq<Bytes>) {
    && |chunks| == |parts|
    && (forall i: nat | i < |parts| :: DescribesPart(h, chunks, parts, i))
  }

  ghost predicate DescribesPart(h: Hashes, chunks: seq<Chunk>, parts: seq<Bytes>, i: nat)
    requires i < |parts| && |chunks| == |parts|
  {
    && 0 < |parts[i]| <= DEFAULT_CHUNK_SIZE as int
    && chunks[i] == ChunkOf(h, chunks[i].offset, parts[i])
    && chunks[i].offset as int == |Concat(parts[..i])|
  }

  // All parts but the last are as long as they can be.
  ghost predicate Full(parts: seq<Bytes>) {
    forall i: nat | i + 1 < |parts| :: |parts[i]| == DEFAULT_CHUNK_SIZE as int
  }

  lemma DescribeOne(h: Hashes, chunks: seq<Chunk>, parts: seq<Bytes>, offset: int64, raw: Bytes)
    requires Describes(h, chunks, parts) && offset as int == |Concat(parts)| && 0 < |raw| <= DEFAULT_CHUNK_SIZE as int
    ensures Describes(h, chunks + [ChunkOf(h, offset, raw)], parts + [raw])
    ensures Concat(parts + [raw]) == Concat(parts) + raw
  {
    var (cs, ps) := (chunks + [ChunkOf(h, offset, raw)], parts + [raw]);
    forall i: nat | i < |ps| ensures DescribesPart(h, cs, ps, i) {
      if i < |parts| {
        assert DescribesPart(h, chunks, parts, i);
        assert ps[..i] == parts[..i];
      } else {
        assert ps[..i] == parts;
      }
    }
    assert ps[..|parts|] == parts;
  }

  // Full parts are as long as their number says.
  lemma {:induction false} FullLength(parts: seq<Bytes>, n: nat)
    requires n <= |parts| && forall i: nat | i < n :: |parts[i]| == DEFAULT_CHUNK_SIZE as int
    ensures |Concat(parts[..n])| == Multiple(n, DEFAULT_CHUNK_SIZE as int)
  {
    if n > 0 {
      FullLength(parts, n - 1);
      assert parts[..n][..n - 1] == parts[..n - 1];
      MultipleNext(n - 1, DEFAULT_CHUNK_SIZE as int);
    }
  }

  // Offsets at multiples of the chunk size leave no room for a short part before the last.
  lemma {:induction false} InPlaceIsFull(h: Hashes, chunks: seq<Chunk>, parts: seq<Bytes>, k: nat)
    requires Describes(h, chunks, parts) && k < |parts|
    requires forall i: nat | i <= k :: chunks[i].offset as int == Multiple(i, DEFAULT_CHUNK_SIZE as int)
    ensures forall i: nat | i < k :: |parts[i]| == DEFAULT_CHUNK_SIZE as int
  {
    if k > 0 {
      InPlaceIsFull(h, chunks, parts, k - 1);
      assert DescribesPart(h, chunks, parts, k - 1) && DescribesPart(h, chunks, parts, k);
      assert parts[..k][..k - 1] == parts[..k - 1];
      MultipleNext(k - 1, DEFAULT_CHUNK_SIZE as int);
    }
  }

  function IndexOf(chunks: seq<Chunk>, memoryBytes: int64): Index {
    Index("v1", DEFAULT_CHUNK_SIZE, memoryBytes, chunks)
  }

  // The index is accepted exactly when it is not empty, not too long, and only the last part
  // is short.
  lemma AcceptedIff(h: Hashes, chunks: seq<Chunk>, parts: seq<Bytes>, offset: int64)
    requires Proper(h) && Describes(h, chunks, parts) && offset as int == |Concat(parts)|
    ensures WellFormed(IndexOf(chunks, offset)) <==>
            0 < |parts| <= MAX_CHUNKS && offset <= MAX_MEMORY_BYTES && Full(parts)
  {
    var idx, n, k := IndexOf(chunks, offset), |parts| as nat, DEFAULT_CHUNK_SIZE as int;
    if n > 0 {
      assert parts == parts[..n - 1] + [parts[n - 1]];
      assert DescribesPart(h, chunks, parts, n - 1);
      assert offset as int == chunks[n - 1].offset as int + |parts[n - 1]|;
    }
    if WellFormed(idx) {
      forall i: nat | i < n ensures chunks[i].offset as int == Multiple(i, k) {
        assert InPlace(idx, i);
      }
      InPlaceIsFull(h, chunks, parts, n - 1);
    } else if 0 < n <= MAX_CHUNKS && offset <= MAX_MEMORY_BYTES && Full(parts) {
      forall i: nat | i < n ensures InPlace(idx, i) {
        assert DescribesPart(h, chunks, parts, i);
        FullLength(parts, i);
      }
      assert InPlace(idx, n - 1);
      assert End(idx, n - 1) == offset as int;
      assert Sized(idx);
    }
  }

  // A full list of chunks would exceed the memory bound, so the cap on their number never
  // cuts a file short.
  lemma CapIsOutOfReach(parts: seq<Bytes>)
    requires |parts| == MAX_CHUNKS && Full(parts) && |parts[MAX_CHUNKS - 1]| > 0
    ensures |Concat(parts)| > MAX_MEMORY_BYTES as int
  {
    FullLength(parts, MAX_CHUNKS - 1);
    assert parts == parts[..MAX_CHUNKS - 1] + [parts[MAX_CHUNKS - 1]];
    assert |Concat(parts)| == |Concat(parts[..MAX_CHUNKS - 1])| + |parts[MAX_CHUNKS - 1]|;
  }

  // The parts are what has been read of the data.
  ghost predicate Covers(h: Hashes, data: Bytes, pos: nat, chunks: seq<Chunk>, parts: seq<Bytes>) {
    pos <= |data| && Describes(h, chunks, parts) && Concat(parts) == data[..pos]
  }

  lemma CoverMore(h: Hashes, data: Bytes, from: nat, pos: nat, chunks: seq<Chunk>, parts: seq<Bytes>, offset: int64,
                  raw: Bytes)
    requires Covers(h, data, from, chunks, parts) && from <= pos <= |data| && raw == data[from..pos]
    requires offset as int == from && 0 < |raw| <= DEFAULT_CHUNK_SIZE as int
    ensures Covers(h, data, pos, chunks + [ChunkOf(h, offset, raw)], parts + [raw])
  {
    DescribeOne(h, chunks, parts, offset, raw);
    assert data[..from] + data[from..pos] == data[..pos];
  }

  // An index over the whole of the data is accepted exactly when this is so; the cap on the
  // number of chunks has not been reached then.
  lemma Judge(h: Hashes, data: Bytes, pos: nat, chunks: seq<Chunk>, parts: seq<Bytes>, offset: int64)
    requires Proper(h) && Covers(h, data, pos, chunks, parts) && offset as int == pos
    requires 0 < |parts| <= MAX_CHUNKS && offset <= MAX_MEMORY_BYTES
    ensures WellFormed(IndexOf(chunks, offset)) <==> Full(parts)
    ensures Full(parts) ==> |parts| < MAX_CHUNKS
  {
    AcceptedIff(h, chunks, parts, offset);
    if Full(parts) && |parts| == MAX_CHUNKS {
      assert DescribesPart(h, chunks, parts, MAX_CHUNKS - 1);
      CapIsOutOfReach(parts);
      assert false;
    }
  }

  datatype Snapshot = Failed | Layers(layers: seq<Bytes>, index: Index, compressedTotal: int64)

  // broken tells that a read or a layer failed; parts are the reads that delivered bytes.
  method SnapshotMemoryLayers(file: File, h: Hashes) returns (r: Snapshot, ghost parts: seq<Bytes>, ghost broken: bool)
    requires Proper(h) && file.pos == 0
    modifies file`pos
    ensures r.Layers? ==> r.layers == parts && Concat(r.layers) == file.data && Full(r.layers)
    ensures r.Layers? ==> Describes(h, r.index.chunks, r.layers) && WellFormed(r.index)
    ensures r.Layers? ==> r.index.memoryBytes as int == |file.data| == r.compressedTotal as int
    ensures Concat(parts) <= file.data
    ensures !broken ==> (r.Layers? <==> 0 < |file.data| <= MAX_MEMORY_BYTES as int && Full(parts))
  {
    var buffer := new bv8[DEFAULT_CHUNK_SIZE];
    var chunks: seq<Chunk>, layers: seq<Bytes> := [], [];
    var offset: int64, compressedTotal: int64 := 0, 0;
    var chunkId := 0;
    parts, broken := [], false;
    var ended := false;
    while chunkId < MAX_CHUNKS && !ended
      invariant 0 <= chunkId <= MAX_CHUNKS && layers == parts && |parts| <= chunkId
      invariant !ended ==> |parts| == chunkId
      invariant fresh(buffer) && buffer.Length == DEFAULT_CHUNK_SIZE as int
      invariant 0 <= offset <= MAX_MEMORY_BYTES && offset == compressedTotal
      invariant offset as int == file.pos && Covers(h, file.data, file.pos, chunks, parts)
      invariant ended ==> file.pos == |file.data|
      decreases MAX_CHUNKS - chunkId, !ended
    {
      ghost var from := file.pos;
      var n, status := file.Read(buffer);
      if status.Broken? {
        return Failed, parts, true;
      }
      if n <= 0 {
        ended := true;
      } else {
        var raw := buffer[..n];
        var named := *;
        if !named {
          return Failed, parts, true;
        }
        CoverMore(h, file.data, from, file.pos, chunks, parts, offset, raw);
        chunks := chunks + [ChunkOf(h, offset, raw)];
        layers, parts := layers + [raw], parts + [raw];
        offset := offset + n as int64;
        compressedTotal := compressedTotal + |raw| as int64;
        if offset > MAX_MEMORY_BYTES {
          return Failed, parts, false;
        }
        if status.EndOfFile? {
          ended := true;
        }
        chunkId := chunkId + 1;
      }
    }
    if |chunks| == 0 {
      return Failed, parts, false;
    }
    var index := IndexOf(chunks, offset);
    Judge(h, file.data, file.pos, chunks, parts, offset);
    var ok := Validate(index);
    if !ok {
      return Failed, parts, false;
    }
    assert ended;
    assert file.data[..file.pos] == file.data;
    return Layers(layers, index, compressedTotal), parts, false;
  }
}
