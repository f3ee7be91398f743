/**
 * End-to-end integrity: when the Receiver reports a file finished, the local file is the file whose metadata it holds,
 * byte for byte, whatever blocks, stops, failed writes and restarts came before.
 */
module ReceiverIntegrity {
  import opened Base
  import opened Metadata
  import opened EntryList
  import opened Messages
  import opened ReceiverModel
  import opened ReceiverSafety
  import opened ReceiverPrefix

  /** The content from which each metadata was made. */
  type Origin = Meta -> Bytes

  // ---- The invariant ----

  /** The received part of an entry is in its file, and so is nothing else once it is complete. */
  ghost predicate KeptIn(file: Bytes, e: Entry, content: Bytes) {
    e.received != {} && |e.received| <= |e.meta.chunks| ==>
      var done := Edge(e.meta.chunks, e.meta.size, |e.received|);
      && e.localPath != ""
      && done <= |file| && done <= |content| && file[..done] == content[..done]
      && (|e.received| == |e.meta.chunks| ==> |file| == |content|)
  }

  ghost predicate Kept(disk: Disk, e: Entry, content: Bytes) {
    KeptIn(FileAt(disk, e.localPath), e, content)
  }

  ghost predicate Trusted(digest: Digest, origin: Origin, r: Receiver) {
    && Steady(r)
    && (forall e :: e in r.index ==> Describes(digest, e.meta, origin(e.meta)))
    && (forall e :: e in r.index ==> Kept(r.disk, e, origin(e.meta)))
  }

  // ---- The hypotheses ----

  /** If `data` completes the chunk `c` of `content` and the digest is right, so are the bytes. */
  ghost predicate Honest(digest: Digest, content: Bytes, c: Chunk, q: Requesting, data: Bytes) {
    q.offset + |data| >= c.offset + c.size && digest(q.fed + data) == digest(Part(content, c)) ==>
      q.fed + data == Part(content, c)
  }

  /** If a block completes the current chunk and its digest is that of the true chunk, the bytes are the true chunk. */
  ghost predicate NoCollision(digest: Digest, origin: Origin, r: Receiver, data: Bytes) {
    r.state == RequestedChunk && r.requesting.Some? ==>
      var q := r.requesting.value;
      match FindEntry(r.index, q.path)
      case None => true
      case Some(e) => q.chunk < |e.meta.chunks| ==> Honest(digest, origin(e.meta), e.meta.chunks[q.chunk], q, data)
  }

  /**
   * What integrity asks of the world: the user starts no download into a file where another file's chunks are, the
   * metadata that arrives was made from a file, and no block completes a hash collision. Blocks are otherwise
   * arbitrary.
   */
  ghost predicate Allowed(digest: Digest, origin: Origin, r: Receiver, a: Action) {
    match a
    case UserRequest(path, localPath) => !InUse(r.index, path, localPath)
    case UserResume(path) => ResumeFree(r.index, path)
    case Message(TransmitMeta(metas), _) => forall m :: m in metas ==> Describes(digest, m, origin(m))
    case Message(TransmitChunk(data), _) => NoCollision(digest, origin, r, data)
    case _ => true
  }

  ghost predicate AllowedRun(digest: Digest, origin: Origin, r: Receiver, actions: seq<Action>)
    decreases |actions|
  {
    actions != [] ==>
      && Allowed(digest, origin, r, actions[0])
      && AllowedRun(digest, origin, Step(digest, r, actions[0]).after, actions[1..])
  }

  // ---- A block arrives ----

  /** The entry being downloaded keeps its verified part. */
  lemma BlockKeepsCurrent(file: Bytes, e: Entry, content: Bytes, at: nat, data: Bytes, fate: WriteFate)
    requires Tiled(e.meta.chunks, e.meta.size) && |e.received| < |e.meta.chunks|
    requires e.meta.chunks[|e.received|].offset <= at
    requires KeptIn(file, e, content)
    ensures KeptIn(FileAfter(file, e.meta.size, at, data, fate), e, content)
  {
    if e.received != {} {
      EdgesAscend(e.meta.chunks, e.meta.size, |e.received|, |e.meta.chunks|);
      FileAfterKeeps(file, e.meta.size, at, data, fate, e.meta.chunks[|e.received|].offset);
    }
  }

  /** A chunk whose digest is right brings exactly its own bytes, and makes the verified part one chunk longer. */
  lemma ChunkCompletes(digest: Digest, file: Bytes, e: Entry, content: Bytes, q: Requesting)
    requires Segment(e) && |e.received| < |e.meta.chunks| && q.chunk == |e.received|
    requires Describes(digest, e.meta, content) && KeptIn(file, e, content)
    requires FedIn(file, e, e.meta.chunks[q.chunk].offset, q)
    requires q.fed == Part(content, e.meta.chunks[q.chunk])
    requires e.meta.size <= |file| && (q.offset <= e.meta.size ==> |file| == e.meta.size)
    ensures KeptIn(file, e.(received := e.received + {q.chunk}), content)
    ensures q.offset == Edge(e.meta.chunks, e.meta.size, q.chunk + 1) <= e.meta.size
  {
    var chunks, size, k := e.meta.chunks, e.meta.size, q.chunk;
    SegmentGrows(e);
    assert chunks[k] in chunks && Abuts(chunks, size, k);
    EdgesAscend(chunks, size, k + 1, |chunks|);
    var base, done := chunks[k].offset, Edge(chunks, size, k + 1);
    assert q.fed == content[base..done] && file[base..done] == q.fed;
    assert file[..base] == content[..base];
    SlicesJoin(file, 0, base, done, content[..base], q.fed);
    SlicesJoin(content, 0, base, done, content[..base], q.fed);
  }

  /** The disk after a block with any fate still holds the verified part of every entry. */
  lemma BlockKeepsAll(digest: Digest, origin: Origin, r: Receiver, e: Entry, at: nat, data: Bytes, fate: WriteFate)
    requires Trusted(digest, origin, r)
    requires e in r.index && |e.received| < |e.meta.chunks| && e.meta.chunks[|e.received|].offset <= at
    requires !InUse(r.index, e.meta.path, e.localPath)
    ensures var disk := AfterWrite(r.disk, e.localPath, e.meta.size, at, data, fate);
            forall x :: x in r.index ==> Kept(disk, x, origin(x.meta))
  {
    var disk := AfterWrite(r.disk, e.localPath, e.meta.size, at, data, fate);
    AfterWriteElsewhere(r.disk, e.localPath, e.meta.size, at, data, fate);
    forall x | x in r.index
      ensures Kept(disk, x, origin(x.meta))
    {
      assert Segment(x) && Kept(r.disk, x, origin(x.meta));
      if x.meta.path == e.meta.path {
        SamePathSameEntry(r.index, x, e);
        BlockKeepsCurrent(FileAt(r.disk, e.localPath), e, origin(e.meta), at, data, fate);
      }
    }
  }

  /** A block that reaches the disk, or fails to, leaves the Receiver trusted; so does counting it in. */
  lemma BlockTrusted(digest: Digest, origin: Origin, r: Receiver, data: Bytes, fate: WriteFate)
    requires Trusted(digest, origin, r) && r.state == RequestedChunk
    ensures var q := r.requesting.value;
            var e := FindEntry(r.index, q.path).value;
            var written := r.(disk := AfterWrite(r.disk, e.localPath, e.meta.size, q.offset, data, fate));
            && Trusted(digest, origin, written)
            && (Succeeds(e.localPath, fate) ==>
                  Trusted(digest, origin, written.(requesting := Some(Absorb(q, data)))))
  {
    var q := r.requesting.value;
    var e := FindEntry(r.index, q.path).value;
    BlockSteady(r, data, fate);
    BlockKeepsAll(digest, origin, r, e, q.offset, data, fate);
  }

  /** The bytes of the current chunk are all there and right, and the file ends where it should. */
  ghost predicate ChunkRight(origin: Origin, r: Receiver, q: Requesting) {
    match FindEntry(r.index, q.path)
    case None => false
    case Some(e) =>
      && q.chunk < |e.meta.chunks|
      && q.fed == Part(origin(e.meta), e.meta.chunks[q.chunk])
      && e.meta.size <= |FileAt(r.disk, e.localPath)|
      && (q.offset <= e.meta.size ==> |FileAt(r.disk, e.localPath)| == e.meta.size)
  }

  /** Recording a chunk whose bytes are right. */
  lemma MarkTrusted(digest: Digest, origin: Origin, r: Receiver, q: Requesting, i: nat)
    requires Trusted(digest, origin, r) && r.state == RequestedChunk && r.requesting == Some(q)
    requires ChunkRight(origin, r, q) && Find(r.index, q.path) == Some(i) && r.index[i].localPath != ""
    ensures var index := r.index[i := Grown(r)];
            && Trusted(digest, origin, r.(index := index, saved := index, requesting := None, state := Idle))
            && !InUse(index, q.path, r.index[i].localPath)
  {
    var e := r.index[i];
    assert e in r.index;
    ChunkCompletes(digest, FileAt(r.disk, e.localPath), e, origin(e.meta), q);
    MarkSteady(r, q, i);
    ReplaceKept(origin, r, i, Grown(r));
    ReplaceFind(r.index, i, Grown(r));
  }

  lemma ReplaceKept(origin: Origin, r: Receiver, i: nat, e: Entry)
    requires i < |r.index| && Kept(r.disk, e, origin(e.meta))
    requires forall x :: x in r.index ==> Kept(r.disk, x, origin(x.meta))
    ensures forall x :: x in r.index[i := e] ==> Kept(r.disk, x, origin(x.meta))
  {
  }

  /** Recording a chunk whose bytes are right, and going on to the next one. */
  lemma CompleteTrusted(digest: Digest, origin: Origin, r: Receiver, q: Requesting)
    requires Trusted(digest, origin, r) && r.state == RequestedChunk && r.requesting == Some(q)
    requires ChunkRight(origin, r, q) && FindEntry(r.index, q.path).value.localPath != ""
    ensures Trusted(digest, origin, CompleteChunk(r, q.path, q.chunk).after)
  {
    var i := Find(r.index, q.path).value;
    MarkTrusted(digest, origin, r, q, i);
    CompleteChunkSound(r);
    ReplaceFind(r.index, i, Grown(r));
    var index := r.index[i := Grown(r)];
    var marked := r.(index := index, saved := index, requesting := None, state := Idle);
    CompleteIsMarkThenStart(r, q.path, q.chunk, marked, Grown(r));
    if FirstMissing(Grown(r)).Some? {
      StartTrusted(digest, origin, marked, q.path, FirstMissing(Grown(r)).value);
    }
  }

  lemma ReceiveBlockTrusted(digest: Digest, origin: Origin, r: Receiver, data: Bytes, fate: WriteFate)
    requires Trusted(digest, origin, r) && NoCollision(digest, origin, r, data)
    ensures Trusted(digest, origin, ReceiveBlock(digest, r, data, fate).after)
  {
    if r.state == RequestedChunk {
      var q := r.requesting.value;
      var e := FindEntry(r.index, q.path).value;
      BlockTrusted(digest, origin, r, data, fate);
      if Succeeds(e.localPath, fate) {
        var absorbed := Absorb(q, data);
        var c := e.meta.chunks[q.chunk];
        if absorbed.offset >= c.offset + c.size && c.hash == digest(absorbed.fed) {
          assert e in r.index && c in e.meta.chunks;
          FileAfterStores(FileAt(r.disk, e.localPath), e.meta.size, q.offset, data);
          var disk := AfterWrite(r.disk, e.localPath, e.meta.size, q.offset, data, fate);
          CompleteTrusted(digest, origin, r.(disk := disk, requesting := Some(absorbed)), absorbed);
        }
      }
    }
  }

  // ---- Every step, every run ----

  /** An entry moved to a free local path starts over: nothing is kept for it, and nothing else changes. */
  lemma RelocateTrusted(digest: Digest, origin: Origin, r: Receiver, i: nat, localPath: string)
    requires Trusted(digest, origin, r) && r.state == Idle && i < |r.index|
    requires !InUse(r.index, r.index[i].meta.path, localPath)
    ensures var index := r.index[i := r.index[i].(localPath := localPath, received := {})];
            && Trusted(digest, origin, r.(index := index, saved := index))
            && !InUse(index, r.index[i].meta.path, localPath)
  {
    assert r.index[i] in r.index;
    RelocateSteady(r, i, localPath);
    ReplaceFind(r.index, i, r.index[i].(localPath := localPath, received := {}));
  }

  lemma RequestFileTrusted(digest: Digest, origin: Origin, r: Receiver, path: string, localPath: string)
    requires Trusted(digest, origin, r) && !InUse(r.index, path, localPath)
    ensures Trusted(digest, origin, RequestFile(r, path, localPath).after)
  {
    RequestFileSound(r, path, localPath);
    if r.state == Idle && FindEntry(r.index, path).Some? {
      var i := Find(r.index, path).value;
      RelocateTrusted(digest, origin, r, i, localPath);
      ReplaceFind(r.index, i, r.index[i].(localPath := localPath, received := {}));
      var index := ChangeLocal(r.index, path, localPath).0;
      StartTrusted(digest, origin, r.(index := index, saved := index), path, 0);
    }
  }

  /** Starting a chunk writes and records nothing. */
  lemma StartTrusted(digest: Digest, origin: Origin, r: Receiver, path: string, chunk: nat)
    requires Trusted(digest, origin, r) && r.state == Idle
    requires Sound(StartChunk(r, path, chunk).after) && ResumeFree(r.index, path)
    ensures Trusted(digest, origin, StartChunk(r, path, chunk).after)
  {
    StartSteady(r, path, chunk);
  }

  lemma ResumeFileTrusted(digest: Digest, origin: Origin, r: Receiver, path: string)
    requires Trusted(digest, origin, r) && ResumeFree(r.index, path)
    ensures Trusted(digest, origin, ResumeFile(r, path).after)
  {
    ResumeFileSound(r, path);
    if r.state == Idle && FindEntry(r.index, path).Some? && FirstMissing(FindEntry(r.index, path).value).Some? {
      StartTrusted(digest, origin, r, path, FirstMissing(FindEntry(r.index, path).value).value);
    }
  }

  lemma ReceiveMetaTrusted(digest: Digest, origin: Origin, r: Receiver, metas: seq<Meta>)
    requires Trusted(digest, origin, r)
    requires forall m :: m in metas ==> Describes(digest, m, origin(m))
    ensures Trusted(digest, origin, ReceiveMeta(r, metas).after)
  {
    ReceiveMetaSteady(r, metas);
    AddAllMembers(r.index, metas);
  }

  lemma MessageTrusted(digest: Digest, origin: Origin, r: Receiver, payload: Payload, fate: WriteFate)
    requires Trusted(digest, origin, r) && Allowed(digest, origin, r, Message(payload, fate))
    ensures Trusted(digest, origin, ProcessMessage(digest, r, payload, fate).after)
  {
    match payload
    case TransmitMeta(metas) => ReceiveMetaTrusted(digest, origin, r, metas);
    case TransmitChunk(data) => ReceiveBlockTrusted(digest, origin, r, data, fate);
    case _ => QuietMessage(digest, r, payload, fate);
  }

  lemma StepTrusted(digest: Digest, origin: Origin, r: Receiver, a: Action)
    requires Trusted(digest, origin, r) && Allowed(digest, origin, r, a)
    ensures Trusted(digest, origin, Step(digest, r, a).after)
  {
    match a
    case UserRequest(path, localPath) => RequestFileTrusted(digest, origin, r, path, localPath);
    case UserResume(path) => ResumeFileTrusted(digest, origin, r, path);
    case Message(payload, fate) => MessageTrusted(digest, origin, r, payload, fate);
    case _ => QuietSteady(digest, r, a);
  }

  lemma {:induction false} RunTrusted(digest: Digest, origin: Origin, r: Receiver, actions: seq<Action>)
    requires Trusted(digest, origin, r) && AllowedRun(digest, origin, r, actions)
    ensures Trusted(digest, origin, Run(digest, r, actions))
    decreases |actions|
  {
    if actions != [] {
      StepTrusted(digest, origin, r, actions[0]);
      RunTrusted(digest, origin, Step(digest, r, actions[0]).after, actions[1..]);
    }
  }

  // ---- What a finished file is ----

  /** An entry that the file list shows as downloaded is stored exactly: every byte, and not one more. */
  lemma DownloadedIsExact(digest: Digest, origin: Origin, r: Receiver, e: Entry)
    requires Trusted(digest, origin, r)
    requires e in r.index && e.meta.chunks != [] && FirstMissing(e).None?
    ensures FileAt(r.disk, e.localPath) == origin(e.meta)
  {
    SegmentNext(e);
    assert |e.received| == |e.meta.chunks|;
    assert Kept(r.disk, e, origin(e.meta));
    var file, content := FileAt(r.disk, e.localPath), origin(e.meta);
    assert file == file[..|file|] && content == content[..|content|];
  }

  /** A report that a file is finished comes from a block, and leaves its entry complete. */
  lemma FinishedIsComplete(digest: Digest, r: Receiver, a: Action, path: string)
    requires Sound(r) && Finished(path) in Step(digest, r, a).out
    ensures a.Message? && a.payload.TransmitChunk?
    ensures FindEntry(Step(digest, r, a).after.index, path).Some?
    ensures var e := FindEntry(Step(digest, r, a).after.index, path).value;
            e.meta.chunks != [] && FirstMissing(e).None?
  {
    if a.Message? && a.payload.TransmitChunk? {
      BlockFinishes(digest, r, a.payload.data, a.fate, path);
    }
  }

  lemma BlockFinishes(digest: Digest, r: Receiver, data: Bytes, fate: WriteFate, path: string)
    requires Sound(r) && Finished(path) in ReceiveBlock(digest, r, data, fate).out
    ensures var after := ReceiveBlock(digest, r, data, fate).after;
            FindEntry(after.index, path).Some? &&
            var e := FindEntry(after.index, path).value;
            e.meta.chunks != [] && FirstMissing(e).None? && |e.received| == |e.meta.chunks|
  {
    var q := r.requesting.value;
    var e := FindEntry(r.index, q.path).value;
    var disk := AfterWrite(r.disk, e.localPath, e.meta.size, q.offset, data, fate);
    AbsorbSound(r, disk, data);
    var written := r.(disk := disk, requesting := Some(Absorb(q, data)));
    CompleteChunkShape(written);
    var after := CompleteChunk(written, q.path, q.chunk).after;
    assert FindEntry(after.index, q.path) == Some(Grown(written));
    SegmentNext(Grown(written));
  }

  /**
   * End-to-end integrity. Take any first start, any allowed history of user wishes, messages (with any split of the
   * data, stale or wrong data included), failed and torn writes, stops, resumes and restarts, and any further step
   * that reports a file finished: the local file then equals the content its metadata was made from.
   */
  lemma EndToEnd(digest: Digest, origin: Origin, disk: Disk, history: seq<Action>, last: Action, path: string)
    requires AllowedRun(digest, origin, Start([], disk), history)
    requires Allowed(digest, origin, Run(digest, Start([], disk), history), last)
    requires Finished(path) in Step(digest, Run(digest, Start([], disk), history), last).out
    ensures var after := Step(digest, Run(digest, Start([], disk), history), last).after;
            FindEntry(after.index, path).Some? &&
            var e := FindEntry(after.index, path).value;
            FileAt(after.disk, e.localPath) == origin(e.meta)
  {
    RunTrusted(digest, origin, Start([], disk), history);
    var r := Run(digest, Start([], disk), history);
    StepTrusted(digest, origin, r, last);
    FinishedIsComplete(digest, r, last, path);
    var after := Step(digest, r, last).after;
    DownloadedIsExact(digest, origin, after, FindEntry(after.index, path).value);
  }

  /** When the last chunk is complete, both byte counters stand at the size of the file. */
  lemma CountersAtCompletion(digest: Digest, origin: Origin, r: Receiver, data: Bytes)
    requires Trusted(digest, origin, r) && NoCollision(digest, origin, r, data)
    requires r.state == RequestedChunk
    requires Finished(r.requesting.value.path) in ReceiveBlock(digest, r, data, Written).out
    ensures var q := Absorb(r.requesting.value, data);
            q.offset == q.downloaded == FindEntry(r.index, q.path).value.meta.size
  {
    var q := r.requesting.value;
    var e := FindEntry(r.index, q.path).value;
    var k := |e.received|;
    assert e in r.index && e.meta.chunks[k] in e.meta.chunks;
    CountersAgree(r);
    BlockFinishes(digest, r, data, Written, q.path);
    assert k + 1 == |e.meta.chunks| by {
      var disk := AfterWrite(r.disk, e.localPath, e.meta.size, q.offset, data, Written);
      AbsorbSound(r, disk, data);
      CompleteChunkShape(r.(disk := disk, requesting := Some(Absorb(q, data))));
    }
    assert Abuts(e.meta.chunks, e.meta.size, k);
  }
}
