/** Metadata creation: one pass over the blocks of a file, cutting it into hashed chunks. */
module Chunker {
  import opened Base
  import opened Metadata

  const CHUNK_SIZE: nat := 16 * 1024 * 1024

  const BLOCK_SIZE: nat := 64 * 1024

  /** No chunk is empty or exceeds CHUNK_SIZE by a whole block, and all but the last hold at least CHUNK_SIZE bytes. */
  ghost predicate WellSized(chunks: seq<Chunk>) {
    && (forall c :: c in chunks ==> 0 < c.size < CHUNK_SIZE + BLOCK_SIZE)
    && (forall i :: 0 <= i < |chunks| - 1 ==> chunks[i].size >= CHUNK_SIZE)
  }

  /** The chunks cut so far from the bytes `read`: full ones, covering the first `end` bytes and leaving `pending`. */
  ghost predicate Cut(digest: Digest, chunks: seq<Chunk>, end: nat, pending: Bytes, read: Bytes) {
    && end + |pending| == |read| && pending == read[end..]
    && Tiled(chunks, end)
    && Hashed(digest, chunks, read)
    && forall c :: c in chunks ==> CHUNK_SIZE <= c.size < CHUNK_SIZE + BLOCK_SIZE
  }

  /** The chunks of a whole file whose bytes are `read`. */
  ghost predicate Complete(digest: Digest, chunks: seq<Chunk>, read: Bytes) {
    Tiled(chunks, |read|) && Hashed(digest, chunks, read) && WellSized(chunks)
  }

  /**
   * Builds the metadata of a file from the blocks that its reader hands over. A block may have any length up to the
   * reader's capacity; the empty block that marks the end of the file may or may not be among them.
   */
  method CreateForFile(digest: Digest, remotePath: string, blocks: seq<Bytes>, fileModified: i64, now: i64)
    returns (meta: Meta)
    requires forall b :: b in blocks ==> |b| <= BLOCK_SIZE
    ensures Describes(digest, meta, Flat(blocks))
    ensures WellSized(meta.chunks)
    ensures forall i :: 0 <= i < |meta.chunks| - 1 ==>
                          16 * 1024 * 1024 <= meta.chunks[i].size < 16 * 1024 * 1024 + 64 * 1024
    ensures meta.path == remotePath && meta.fileModified == fileModified && meta.metaModified == now
  {
    var fileHash: Bytes, chunkHash: Bytes := [], [];
    var chunkOffset: nat, fileSize: nat, chunkSize: nat := 0, 0, 0;
    var chunks: seq<Chunk> := [];
    var next := 0;
    while true
      invariant next <= |blocks|
      invariant fileHash == Flat(blocks[..next])
      invariant chunkSize == |chunkHash| < CHUNK_SIZE
      invariant fileSize == |fileHash|
      invariant Cut(digest, chunks, chunkOffset, chunkHash, fileHash)
      decreases |blocks| - next
    {
      var length := 0;
      if next < |blocks| {
        var buffer := blocks[next];
        Absorb(digest, chunks, chunkOffset, chunkHash, blocks, next);
        next := next + 1;
        fileHash := fileHash + buffer;
        chunkHash := chunkHash + buffer;
        chunkSize := chunkSize + |buffer|;
        fileSize := fileSize + |buffer|;
        if chunkSize < CHUNK_SIZE {
          continue;
        }
        length := |buffer|;
      }
      if chunkSize > 0 {
        var chunk := Chunk(digest(chunkHash), chunkOffset, AsU32(chunkSize));
        Extend(digest, chunks, chunkHash, chunk, fileHash);
        chunkHash := [];
        chunks := chunks + [chunk];
        chunkOffset := fileSize;
        chunkSize := 0;
      }
      if length <= 0 {
        assert blocks[..next] == blocks;
        meta := Meta(remotePath, digest(fileHash), fileSize, fileModified, now, chunks);
        assert Complete(digest, chunks, fileHash);
        break;
      }
    }
  }

  /** Reading one more block leaves the chunks cut so far as good as they were. */
  lemma Absorb(digest: Digest, chunks: seq<Chunk>, end: nat, pending: Bytes, blocks: seq<Bytes>, next: nat)
    requires next < |blocks|
    requires Cut(digest, chunks, end, pending, Flat(blocks[..next]))
    ensures Flat(blocks[..next + 1]) == Flat(blocks[..next]) + blocks[next]
    ensures Cut(digest, chunks, end, pending + blocks[next], Flat(blocks[..next + 1]))
  {
    FlatAppend(blocks[..next], blocks[next]);
    assert blocks[..next + 1] == blocks[..next] + [blocks[next]];
    CutGrows(digest, chunks, end, pending, Flat(blocks[..next]), blocks[next]);
  }

  lemma CutGrows(digest: Digest, chunks: seq<Chunk>, end: nat, pending: Bytes, read: Bytes, more: Bytes)
    requires Cut(digest, chunks, end, pending, read)
    ensures Cut(digest, chunks, end, pending + more, read + more)
  {
    assert pending + more == (read + more)[end..];
    forall c | c in chunks
      ensures c.offset + c.size <= |read + more| && c.hash == digest((read + more)[c.offset..c.offset + c.size])
    {
      SliceOfPrefix(read, more, c.offset, c.offset + c.size);
    }
  }

  /** One more chunk, starting where the earlier ones end, keeps the chunks tiled and hashed. */
  lemma Extend(digest: Digest, chunks: seq<Chunk>, pending: Bytes, chunk: Chunk, read: Bytes)
    requires Cut(digest, chunks, chunk.offset, pending, read)
    requires 0 < chunk.size == |pending| < CHUNK_SIZE + BLOCK_SIZE
    requires chunk.hash == digest(pending)
    ensures Complete(digest, chunks + [chunk], read)
    ensures chunk.size >= CHUNK_SIZE ==> Cut(digest, chunks + [chunk], |read|, [], read)
  {
    assert pending == read[chunk.offset..chunk.offset + chunk.size];
    var longer := chunks + [chunk];
    forall i | 0 <= i < |longer|
      ensures Abuts(longer, |read|, i)
    {
      if i < |chunks| {
        assert Abuts(chunks, chunk.offset, i);
      }
    }
  }
}
