/** The metadata of a shared file: its chunks, and what it means for them to describe a content. */
module Metadata {
  import opened Base

  datatype Chunk = Chunk(hash: u64, offset: nat, size: u32)

  datatype Meta = Meta(path: string, hash: u64, size: nat, fileModified: i64, metaModified: i64, chunks: seq<Chunk>)

  datatype Entry = Entry(localPath: string, received: set<nat>, meta: Meta)

  /** Where chunk `i` starts; for `i == |chunks|`, where the last chunk ends. */
  function Edge(chunks: seq<Chunk>, size: nat, i: nat): nat
    requires i <= |chunks|
  {
    if i == |chunks| then size else chunks[i].offset
  }

  /** The chunks are nonempty and cover [0, size) without gap or overlap. */
  ghost predicate Tiled(chunks: seq<Chunk>, size: nat) {
    && Edge(chunks, size, 0) == 0
    && forall i :: 0 <= i < |chunks| ==> Abuts(chunks, size, i)
  }

  /** Chunk `i` is nonempty and ends where the next one starts. */
  ghost predicate Abuts(chunks: seq<Chunk>, size: nat, i: nat)
    requires i < |chunks|
  {
    chunks[i].size > 0 && chunks[i].offset + chunks[i].size == Edge(chunks, size, i + 1)
  }

  /** Every chunk carries the digest of exactly its slice of `content`. */
  ghost predicate Hashed(digest: Digest, chunks: seq<Chunk>, content: Bytes) {
    forall c :: c in chunks ==>
                  c.offset + c.size <= |content| && c.hash == digest(content[c.offset..c.offset + c.size])
  }

  /** The bytes of `content` that chunk `c` is about. */
  function Part(content: Bytes, c: Chunk): Bytes {
    if c.offset + c.size <= |content| then content[c.offset..c.offset + c.size] else []
  }

  /** `m` is honest metadata of a file whose bytes are `content`. */
  ghost predicate Describes(digest: Digest, m: Meta, content: Bytes) {
    && m.size == |content|
    && m.hash == digest(content)
    && Tiled(m.chunks, m.size)
    && Hashed(digest, m.chunks, content)
  }

  lemma {:induction false} EdgesAscend(chunks: seq<Chunk>, size: nat, i: nat, j: nat)
    requires Tiled(chunks, size)
    requires i <= j <= |chunks|
    ensures Edge(chunks, size, i) <= Edge(chunks, size, j)
    ensures i < j ==> Edge(chunks, size, i) < Edge(chunks, size, j)
    decreases j - i
  {
    if i < j {
      EdgesAscend(chunks, size, i + 1, j);
      assert Abuts(chunks, size, i);
    }
  }

  /** The set {0, ..., k - 1}. */
  function FirstNats(k: nat): (s: set<nat>)
    ensures |s| == k
    ensures forall i :: i in s <==> 0 <= i < k
  {
    if k == 0 then {} else FirstNats(k - 1) + {k - 1}
  }

  /** The received chunks of an entry are its first `|received|` chunks. */
  ghost predicate Segment(e: Entry) {
    |e.received| <= |e.meta.chunks| && e.received == FirstNats(|e.received|)
  }

  /** The sizes of those of the first `n` chunks that are in `chosen`, added up. */
  function SizeOf(chunks: seq<Chunk>, chosen: set<nat>, n: nat): nat
    requires n <= |chunks|
  {
    if n == 0 then 0
    else SizeOf(chunks, chosen, n - 1) + (if n - 1 in chosen then chunks[n - 1].size else 0)
  }

  /** A set of chunks that is an initial segment adds up to the offset at which the next chunk starts. */
  lemma {:induction false} SegmentSize(chunks: seq<Chunk>, size: nat, k: nat, n: nat)
    requires Tiled(chunks, size)
    requires k <= |chunks| && n <= |chunks|
    ensures SizeOf(chunks, FirstNats(k), n) == Edge(chunks, size, if n <= k then n else k)
  {
    if n > 0 {
      SegmentSize(chunks, size, k, n - 1);
      assert Abuts(chunks, size, n - 1);
    }
  }
}
