/**
 * What is kept on disk over every run, with nothing assumed of the hash function: the bytes hashed for the current
 * chunk are in the file where they belong, and no byte of a received chunk ever changes, whatever blocks arrive and
 * however their writes end.
 */
module ReceiverPrefix {
  import opened Base
  import opened Metadata
  import opened EntryList
  import opened Messages
  import opened ReceiverModel
  import opened ReceiverSafety
  import opened ReceiverProgress

  // ---- What a write leaves alone, and what it stores ----

  lemma AfterWriteElsewhere(disk: Disk, localPath: string, size: nat, at: nat, data: Bytes, fate: WriteFate)
    ensures forall l :: l != localPath ==>
                          FileAt(AfterWrite(disk, localPath, size, at, data, fate), l) == FileAt(disk, l)
    ensures localPath == "" ==> AfterWrite(disk, localPath, size, at, data, fate) == disk
  {
  }

  /** No write, complete or torn, changes a byte before its offset or shortens the file below it. */
  lemma FileAfterKeeps(file: Bytes, size: nat, at: nat, data: Bytes, fate: WriteFate, p: nat)
    requires p <= |file| && p <= size && p <= at
    ensures p <= |FileAfter(file, size, at, data, fate)|
    ensures FileAfter(file, size, at, data, fate)[..p] == file[..p]
  {
    var resized := SetLen(file, size);
    forall more: Bytes
      ensures p <= |Splice(resized, at, more)| && Splice(resized, at, more)[..p] == file[..p]
    {
    }
  }

  /** A block that is written is found at its offset. */
  lemma FileAfterStores(file: Bytes, size: nat, at: nat, data: Bytes)
    ensures var after := FileAfter(file, size, at, data, Written);
            && size <= |after|
            && (at + |data| <= size ==> |after| == size)
            && (data != [] ==> at + |data| <= |after| && after[at..at + |data|] == data)
  {
    var resized := SetLen(file, size);
    if data != [] {
      assert Splice(resized, at, data)[at..at + |data|] == data;
    }
  }

  /** Resizing keeps what is below the new size, and fills with zeros. */
  lemma ResizedBytes(file: Bytes, size: nat)
    ensures var after := SetLen(file, size);
            |after| == size && forall i :: 0 <= i < size ==> after[i] == if i < |file| then file[i] else 0
  {
  }

  /** Writing replaces the bytes at its place, and keeps all others; a gap before it is filled with zeros. */
  lemma SplicedBytes(file: Bytes, at: nat, data: Bytes)
    ensures var after := Splice(file, at, data);
            && |after| == (if data == [] || at + |data| <= |file| then |file| else at + |data|)
            && forall i :: 0 <= i < |after| ==>
                             after[i] == if at <= i < at + |data| then data[i - at]
                                         else if i < |file| then file[i] else 0
  {
    if data != [] && |file| < at + |data| {
      ResizedBytes(file, at + |data|);
    }
  }

  /** Every byte of a file after a block was written to it, in whole or in part, and the file's length. */
  lemma WrittenBytes(file: Bytes, size: nat, at: nat, data: Bytes, kept: nat)
    ensures FileAfter(file, size, at, data, Written) == FileAfter(file, size, at, data, Torn(|data|))
    ensures var part := data[..Min(kept, |data|)];
            var after := FileAfter(file, size, at, data, Torn(kept));
            && |after| == (if part == [] || at + |part| <= size then size else at + |part|)
            && forall i :: 0 <= i < |after| ==>
                             after[i] == if at <= i < at + |part| then part[i - at]
                                         else if i < |file| && i < size then file[i] else 0
  {
    assert data[..|data|] == data;
    ResizedBytes(file, size);
    SplicedBytes(SetLen(file, size), at, data[..Min(kept, |data|)]);
  }

  /**
   * A write that cannot open its file leaves the disk alone; one that opens it and fails then leaves it as it was
   * there.
   */
  lemma FailedWrites(disk: Disk, localPath: string, size: nat, at: nat, data: Bytes)
    ensures AfterWrite(disk, localPath, size, at, data, NotOpened) == disk
    ensures AfterWrite(disk, "", size, at, data, Written) == disk
    ensures localPath != "" ==>
              && localPath in AfterWrite(disk, localPath, size, at, data, NotResized)
              && FileAt(AfterWrite(disk, localPath, size, at, data, NotResized), localPath) == FileAt(disk, localPath)
  {
  }

  // ---- The invariant ----

  /** The file of an entry reaches as far as its received chunks. */
  ghost predicate Reaches(disk: Disk, e: Entry) {
    e.received != {} && |e.received| <= |e.meta.chunks| ==>
      e.localPath != "" && Edge(e.meta.chunks, e.meta.size, |e.received|) <= |FileAt(disk, e.localPath)|
  }

  /** The bytes hashed for the current chunk are in the file from offset `base` on, as far as the file may reach. */
  ghost predicate FedIn(file: Bytes, e: Entry, base: nat, q: Requesting) {
    q.fed != [] ==>
      var top := Min(q.offset, e.meta.size);
      && e.localPath != ""
      && base <= top <= |file|
      && q.offset == base + |q.fed|
      && file[base..top] == q.fed[..top - base]
  }

  ghost predicate FedOnDisk(disk: Disk, e: Entry, base: nat, q: Requesting) {
    FedIn(FileAt(disk, e.localPath), e, base, q)
  }

  ghost predicate CurrentFed(r: Receiver) {
    r.state == RequestedChunk ==>
      match r.requesting
      case None => true
      case Some(q) =>
        match FindEntry(r.index, q.path)
        case None => true
        case Some(e) => q.chunk < |e.meta.chunks| ==> FedOnDisk(r.disk, e, e.meta.chunks[q.chunk].offset, q)
  }

  /** Some received chunk of an entry other than the one at `path` is stored at `localPath`. */
  ghost predicate InUse(entries: seq<Entry>, path: string, localPath: string) {
    localPath != "" && exists e :: e in entries && e.localPath == localPath && e.meta.path != path && e.received != {}
  }

  /** No two entries have received chunks in the same local file. */
  ghost predicate Separate(entries: seq<Entry>) {
    forall e :: e in entries && e.received != {} ==> !InUse(entries, e.meta.path, e.localPath)
  }

  /** What is being downloaded goes where no other entry has received chunks. */
  ghost predicate CurrentFree(r: Receiver) {
    r.state == RequestedChunk && r.requesting.Some? ==>
      match FindEntry(r.index, r.requesting.value.path)
      case None => true
      case Some(e) => !InUse(r.index, e.meta.path, e.localPath)
  }

  ghost predicate Steady(r: Receiver) {
    && Sound(r)
    && Separate(r.index)
    && (forall e :: e in r.index ==> Tiled(e.meta.chunks, e.meta.size))
    && (forall e :: e in r.index ==> Reaches(r.disk, e))
    && CurrentFed(r)
    && CurrentFree(r)
  }

  // ---- The hypotheses ----

  /** A download of `path` would not write into a file with received chunks of another entry. */
  ghost predicate ResumeFree(entries: seq<Entry>, path: string) {
    match FindEntry(entries, path)
    case None => true
    case Some(e) => !InUse(entries, path, e.localPath)
  }

  /** The user starts no download into a file in use, and metadata that arrives has contiguous chunks. */
  ghost predicate Careful(r: Receiver, a: Action) {
    match a
    case UserRequest(path, localPath) => !InUse(r.index, path, localPath)
    case UserResume(path) => ResumeFree(r.index, path)
    case Message(TransmitMeta(metas), _) => forall m :: m in metas ==> Tiled(m.chunks, m.size)
    case _ => true
  }

  ghost predicate CarefulRun(digest: Digest, r: Receiver, actions: seq<Action>)
    decreases |actions|
  {
    actions != [] ==> Careful(r, actions[0]) && CarefulRun(digest, Step(digest, r, actions[0]).after, actions[1..])
  }

  // ---- A block arrives ----

  /** A block that is written, or fails to be, leaves the bytes hashed before it as they were. */
  lemma BlockKeepsFed(file: Bytes, e: Entry, base: nat, q: Requesting, data: Bytes, fate: WriteFate)
    requires FedIn(file, e, base, q)
    ensures FedIn(FileAfter(file, e.meta.size, q.offset, data, fate), e, base, q)
  {
    if q.fed != [] {
      var top := Min(q.offset, e.meta.size);
      FileAfterKeeps(file, e.meta.size, q.offset, data, fate, top);
      var after := FileAfter(file, e.meta.size, q.offset, data, fate);
      assert after[base..top] == after[..top][base..];
      assert file[base..top] == file[..top][base..];
    }
  }

  /** A block that is written extends the hashed bytes in the file by exactly itself. */
  lemma BlockStoresFed(file: Bytes, e: Entry, base: nat, q: Requesting, data: Bytes)
    requires FedIn(file, e, base, q)
    requires e.localPath != "" && base <= e.meta.size && q.offset == base + |q.fed|
    ensures FedIn(FileAfter(file, e.meta.size, q.offset, data, Written), e, base, Absorb(q, data))
  {
    var after := FileAfter(file, e.meta.size, q.offset, data, Written);
    FileAfterStores(file, e.meta.size, q.offset, data);
    BlockKeepsFed(file, e, base, q, data, Written);
    FedExtends(after, e, base, q, data);
  }

  lemma FedExtends(after: Bytes, e: Entry, base: nat, q: Requesting, data: Bytes)
    requires FedIn(after, e, base, q)
    requires e.localPath != "" && base <= e.meta.size <= |after| && q.offset == base + |q.fed|
    requires data != [] ==> q.offset + |data| <= |after| && after[q.offset..q.offset + |data|] == data
    ensures FedIn(after, e, base, Absorb(q, data))
  {
    SpanExtends(after, base, e.meta.size, q.fed, data);
  }

  /** On a file of at least `size` bytes: `fed` followed by `data`, both cut off at `size`. */
  lemma SpanExtends(file: Bytes, base: nat, size: nat, fed: Bytes, data: Bytes)
    requires base <= size <= |file|
    requires var top := Min(base + |fed|, size); file[base..top] == fed[..top - base]
    requires data != [] ==> base + |fed| + |data| <= |file| && file[base + |fed|..base + |fed| + |data|] == data
    ensures var top := Min(base + |fed| + |data|, size); file[base..top] == (fed + data)[..top - base]
  {
    var at := base + |fed|;
    var top := Min(at + |data|, size);
    if at < size && data != [] {
      assert file[at..top] == file[at..at + |data|][..top - at];
      SlicesJoin(file, base, at, top, fed, data[..top - at]);
      TakeOfConcat(fed, data, top - base);
    } else {
      TakeOfConcat(fed, data, top - base);
    }
  }

  lemma TakeOfConcat(a: Bytes, b: Bytes, n: nat)
    requires n <= |a| + |b|
    ensures (a + b)[..n] == if n <= |a| then a[..n] else a + b[..n - |a|]
  {
  }

  lemma SlicesJoin(file: Bytes, from: nat, mid: nat, to: nat, a: Bytes, b: Bytes)
    requires from <= mid <= to <= |file| && file[from..mid] == a && file[mid..to] == b
    ensures file[from..to] == a + b
  {
  }

  lemma SamePathSameEntry(entries: seq<Entry>, a: Entry, b: Entry)
    requires Unique(entries) && a in entries && b in entries && a.meta.path == b.meta.path
    ensures a == b
  {
  }

  /** Completing a chunk is marking it and then starting the next one from Idle, if there is one. */
  lemma CompleteIsMarkThenStart(r: Receiver, path: string, chunk: nat, marked: Receiver, e: Entry)
    requires r.state == RequestedChunk
    requires MarkReceived(r.index, path, chunk) == (marked.index, Done) && FindEntry(marked.index, path) == Some(e)
    requires marked == r.(index := marked.index, saved := marked.index, requesting := None, state := Idle)
    ensures CompleteChunk(r, path, chunk).after ==
            if FirstMissing(e).Some? then StartChunk(marked, path, FirstMissing(e).value).after else marked
  {
  }

  /** The one change a block makes to the disk is its write, at the offset of the download. */
  lemma BlockDisk(digest: Digest, r: Receiver, data: Bytes, fate: WriteFate)
    requires Sound(r)
    ensures var after := ReceiveBlock(digest, r, data, fate).after.disk;
            if r.state != RequestedChunk then after == r.disk
            else
              var q := r.requesting.value;
              var e := FindEntry(r.index, q.path).value;
              after == AfterWrite(r.disk, e.localPath, e.meta.size, q.offset, data, fate)
  {
    if r.state == RequestedChunk {
      var q := r.requesting.value;
      var e := FindEntry(r.index, q.path).value;
      var disk := AfterWrite(r.disk, e.localPath, e.meta.size, q.offset, data, fate);
      CountKeepsDisk(digest, r.(disk := disk, requesting := Some(Absorb(q, data))), Absorb(q, data),
        e.meta.chunks[q.chunk]);
    }
  }

  lemma CountKeepsDisk(digest: Digest, r: Receiver, q: Requesting, c: Chunk)
    ensures CountBlock(digest, r, q, c).after.disk == r.disk
  {
  }

  /** The file of an entry being downloaded still reaches as far after a write of any fate, as do all others. */
  lemma BlockReaches(r: Receiver, e: Entry, at: nat, data: Bytes, fate: WriteFate)
    requires Steady(r) && e in r.index && !InUse(r.index, e.meta.path, e.localPath)
    requires |e.received| < |e.meta.chunks| && e.meta.chunks[|e.received|].offset <= at
    ensures forall x :: x in r.index ==> Reaches(AfterWrite(r.disk, e.localPath, e.meta.size, at, data, fate), x)
  {
    AfterWriteElsewhere(r.disk, e.localPath, e.meta.size, at, data, fate);
    EdgesAscend(e.meta.chunks, e.meta.size, |e.received|, |e.meta.chunks|);
    forall x | x in r.index
      ensures Reaches(AfterWrite(r.disk, e.localPath, e.meta.size, at, data, fate), x)
    {
      assert Segment(x) && Reaches(r.disk, x);
      if x.meta.path == e.meta.path {
        SamePathSameEntry(r.index, x, e);
        if e.received != {} {
          FileAfterKeeps(FileAt(r.disk, e.localPath), e.meta.size, at, data, fate, e.meta.chunks[|e.received|].offset);
        }
      }
    }
  }

  /** A block that reaches the disk, or fails to, leaves the Receiver steady; so does counting it in. */
  lemma BlockSteady(r: Receiver, data: Bytes, fate: WriteFate)
    requires Steady(r) && r.state == RequestedChunk
    ensures var q := r.requesting.value;
            var e := FindEntry(r.index, q.path).value;
            var written := r.(disk := AfterWrite(r.disk, e.localPath, e.meta.size, q.offset, data, fate));
            && Steady(written)
            && (Succeeds(e.localPath, fate) ==> Steady(written.(requesting := Some(Absorb(q, data)))))
  {
    var q := r.requesting.value;
    var e := FindEntry(r.index, q.path).value;
    var chunks := e.meta.chunks;
    var disk := AfterWrite(r.disk, e.localPath, e.meta.size, q.offset, data, fate);
    BlockReaches(r, e, q.offset, data, fate);
    AbsorbSound(r, disk, data);
    BlockKeepsFed(FileAt(r.disk, e.localPath), e, chunks[q.chunk].offset, q, data, fate);
    if Succeeds(e.localPath, fate) {
      EdgesAscend(chunks, e.meta.size, q.chunk, |chunks|);
      BlockStoresFed(FileAt(r.disk, e.localPath), e, chunks[q.chunk].offset, q, data);
    }
  }

  // ---- A chunk is recorded, a download starts ----

  /** An entry may be replaced by one for the same path that is stored where nothing of another entry is. */
  lemma ReplaceSeparate(entries: seq<Entry>, i: nat, e: Entry)
    requires Unique(entries) && Separate(entries)
    requires i < |entries| && entries[i].meta.path == e.meta.path
    requires !InUse(entries, e.meta.path, e.localPath)
    ensures Separate(entries[i := e])
    ensures !InUse(entries[i := e], e.meta.path, e.localPath)
  {
    ReplaceFind(entries, i, e);
    var after := entries[i := e];
    assert !InUse(after, e.meta.path, e.localPath);
  }

  /** Recording a chunk of a file that has been given its full size. */
  lemma MarkSteady(r: Receiver, q: Requesting, i: nat)
    requires Steady(r) && r.state == RequestedChunk && r.requesting == Some(q) && Find(r.index, q.path) == Some(i)
    requires r.index[i].localPath != "" && r.index[i].meta.size <= |FileAt(r.disk, r.index[i].localPath)|
    ensures var index := r.index[i := Grown(r)];
            && Steady(r.(index := index, saved := index, requesting := None, state := Idle))
            && !InUse(index, q.path, r.index[i].localPath)
  {
    var e := r.index[i];
    assert e in r.index;
    SegmentGrows(e);
    EdgesAscend(e.meta.chunks, e.meta.size, q.chunk + 1, |e.meta.chunks|);
    ReplaceFind(r.index, i, Grown(r));
    ReplaceSeparate(r.index, i, Grown(r));
  }

  /** Starting a chunk hashes nothing yet, so it asks nothing of the disk. */
  lemma StartSteady(r: Receiver, path: string, chunk: nat)
    requires Steady(r) && r.state == Idle && Sound(StartChunk(r, path, chunk).after) && ResumeFree(r.index, path)
    ensures Steady(StartChunk(r, path, chunk).after)
  {
  }

  /** Recording a chunk, and going on to the next one. */
  lemma CompleteSteady(r: Receiver, q: Requesting)
    requires Steady(r) && r.state == RequestedChunk && r.requesting == Some(q)
    requires var e := FindEntry(r.index, q.path).value;
             e.localPath != "" && e.meta.size <= |FileAt(r.disk, e.localPath)|
    ensures Steady(CompleteChunk(r, q.path, q.chunk).after)
  {
    var i := Find(r.index, q.path).value;
    MarkSteady(r, q, i);
    CompleteChunkSound(r);
    ReplaceFind(r.index, i, Grown(r));
    var index := r.index[i := Grown(r)];
    var marked := r.(index := index, saved := index, requesting := None, state := Idle);
    CompleteIsMarkThenStart(r, q.path, q.chunk, marked, Grown(r));
    if FirstMissing(Grown(r)).Some? {
      StartSteady(marked, q.path, FirstMissing(Grown(r)).value);
    }
  }

  lemma CountSteady(digest: Digest, r: Receiver, q: Requesting, c: Chunk)
    requires Steady(r) && r.state == RequestedChunk && r.requesting == Some(q)
    requires var e := FindEntry(r.index, q.path).value;
             e.localPath != "" && e.meta.size <= |FileAt(r.disk, e.localPath)|
    ensures Steady(CountBlock(digest, r, q, c).after)
  {
    CompleteSteady(r, q);
  }

  lemma ReceiveBlockSteady(digest: Digest, r: Receiver, data: Bytes, fate: WriteFate)
    requires Steady(r)
    ensures Steady(ReceiveBlock(digest, r, data, fate).after)
  {
    if r.state == RequestedChunk {
      var q := r.requesting.value;
      var e := FindEntry(r.index, q.path).value;
      BlockIs(digest, r, data, fate);
      BlockSteady(r, data, fate);
      if Succeeds(e.localPath, fate) {
        FileAfterStores(FileAt(r.disk, e.localPath), e.meta.size, q.offset, data);
        var disk := AfterWrite(r.disk, e.localPath, e.meta.size, q.offset, data, fate);
        CountSteady(digest, r.(disk := disk, requesting := Some(Absorb(q, data))), Absorb(q, data),
          e.meta.chunks[q.chunk]);
      }
    }
  }

  // ---- Every step, every run ----

  /** An entry moved to a free local path starts over, and nothing else changes. */
  lemma RelocateSteady(r: Receiver, i: nat, localPath: string)
    requires Steady(r) && r.state == Idle && i < |r.index|
    requires !InUse(r.index, r.index[i].meta.path, localPath)
    ensures var index := r.index[i := r.index[i].(localPath := localPath, received := {})];
            && Steady(r.(index := index, saved := index))
            && !InUse(index, r.index[i].meta.path, localPath)
  {
    var e := r.index[i].(localPath := localPath, received := {});
    assert r.index[i] in r.index;
    assert e.received == FirstNats(0);
    ReplaceFind(r.index, i, e);
    ReplaceSeparate(r.index, i, e);
  }

  lemma RequestFileSteady(r: Receiver, path: string, localPath: string)
    requires Steady(r) && !InUse(r.index, path, localPath)
    ensures Steady(RequestFile(r, path, localPath).after)
  {
    RequestFileSound(r, path, localPath);
    if r.state == Idle && FindEntry(r.index, path).Some? {
      var i := Find(r.index, path).value;
      RelocateSteady(r, i, localPath);
      ReplaceFind(r.index, i, r.index[i].(localPath := localPath, received := {}));
      var index := ChangeLocal(r.index, path, localPath).0;
      StartSteady(r.(index := index, saved := index), path, 0);
    }
  }

  lemma ResumeFileSteady(r: Receiver, path: string)
    requires Steady(r) && ResumeFree(r.index, path)
    ensures Steady(ResumeFile(r, path).after)
  {
    ResumeFileSound(r, path);
    if r.state == Idle && FindEntry(r.index, path).Some? && FirstMissing(FindEntry(r.index, path).value).Some? {
      StartSteady(r, path, FirstMissing(FindEntry(r.index, path).value).value);
    }
  }

  lemma ReceiveMetaSteady(r: Receiver, metas: seq<Meta>)
    requires Steady(r) && forall m :: m in metas ==> Tiled(m.chunks, m.size)
    ensures Steady(ReceiveMeta(r, metas).after)
  {
    ReceiveMetaSound(r, metas);
    AddAllMembers(r.index, metas);
  }

  lemma MessageSteady(digest: Digest, r: Receiver, payload: Payload, fate: WriteFate)
    requires Steady(r) && Careful(r, Message(payload, fate))
    ensures Steady(ProcessMessage(digest, r, payload, fate).after)
  {
    match payload
    case TransmitMeta(metas) => ReceiveMetaSteady(r, metas);
    case TransmitChunk(data) => ReceiveBlockSteady(digest, r, data, fate);
    case _ => QuietMessage(digest, r, payload, fate);
  }

  /** A message that brings neither data nor metadata changes at most the state, from Initializing to Idle. */
  lemma QuietMessage(digest: Digest, r: Receiver, payload: Payload, fate: WriteFate)
    requires !payload.TransmitMeta? && !payload.TransmitChunk?
    ensures var after := ProcessMessage(digest, r, payload, fate).after;
            after == r || (r.state == Initializing && after == r.(state := Idle))
  {
  }

  lemma QuietSteady(digest: Digest, r: Receiver, a: Action)
    requires Steady(r) && (a.UserStop? || a.AskForMeta? || a.Restart?)
    ensures Steady(Step(digest, r, a).after)
  {
    StepSound(digest, r, a);
  }

  lemma StepSteady(digest: Digest, r: Receiver, a: Action)
    requires Steady(r) && Careful(r, a)
    ensures Steady(Step(digest, r, a).after)
  {
    match a
    case UserRequest(path, localPath) => RequestFileSteady(r, path, localPath);
    case UserResume(path) => ResumeFileSteady(r, path);
    case Message(payload, fate) => MessageSteady(digest, r, payload, fate);
    case _ => QuietSteady(digest, r, a);
  }

  /**
   * Over every run, with any messages and any writes: the bytes hashed since the request of the current chunk are the
   * bytes written for it, and every file reaches as far as its received chunks.
   */
  lemma {:induction false} RunSteady(digest: Digest, r: Receiver, actions: seq<Action>)
    requires Steady(r) && CarefulRun(digest, r, actions)
    ensures Steady(Run(digest, r, actions))
    decreases |actions|
  {
    if actions != [] {
      StepSteady(digest, r, actions[0]);
      RunSteady(digest, Step(digest, r, actions[0]).after, actions[1..]);
    }
  }

  // ---- Received chunks never change ----

  /** Only a block writes to the disk. */
  lemma OtherKeepsDisk(digest: Digest, r: Receiver, a: Action)
    requires !(a.Message? && a.payload.TransmitChunk?)
    ensures Step(digest, r, a).after.disk == r.disk
  {
  }

  /** No step changes a byte of a received chunk of any entry. */
  lemma StepKeepsPrefix(digest: Digest, r: Receiver, a: Action, e: Entry)
    requires Steady(r) && e in r.index
    ensures var done := Edge(e.meta.chunks, e.meta.size, |e.received|);
            var after := FileAt(Step(digest, r, a).after.disk, e.localPath);
            done <= |after| && done <= |FileAt(r.disk, e.localPath)| &&
              after[..done] == FileAt(r.disk, e.localPath)[..done]
  {
    assert Segment(e) && Reaches(r.disk, e);
    if a.Message? && a.payload.TransmitChunk? {
      BlockKeepsPrefix(digest, r, a.payload.data, a.fate, e);
    } else {
      OtherKeepsDisk(digest, r, a);
    }
  }

  lemma BlockKeepsPrefix(digest: Digest, r: Receiver, data: Bytes, fate: WriteFate, e: Entry)
    requires Steady(r) && e in r.index
    ensures var done := Edge(e.meta.chunks, e.meta.size, |e.received|);
            var after := FileAt(ReceiveBlock(digest, r, data, fate).after.disk, e.localPath);
            done <= |after| && done <= |FileAt(r.disk, e.localPath)| &&
              after[..done] == FileAt(r.disk, e.localPath)[..done]
  {
    assert Segment(e) && Reaches(r.disk, e);
    BlockDisk(digest, r, data, fate);
    if r.state == RequestedChunk && e.received != {} {
      var q := r.requesting.value;
      var x := FindEntry(r.index, q.path).value;
      AfterWriteElsewhere(r.disk, x.localPath, x.meta.size, q.offset, data, fate);
      if x.localPath == e.localPath {
        SamePathSameEntry(r.index, e, x);
        EdgesAscend(e.meta.chunks, e.meta.size, |e.received|, |e.meta.chunks|);
        FileAfterKeeps(FileAt(r.disk, e.localPath), e.meta.size, q.offset, data, fate, e.meta.chunks[q.chunk].offset);
      }
    }
  }

  /**
   * Received bytes are safe: over every run that does not reset the file, with no hypothesis on hashes, whatever blocks
   * arrive and whatever becomes of their writes, no byte of the chunks received at its start ever changes.
   */
  lemma {:induction false} ReceivedBytesAreSafe(digest: Digest, r: Receiver, actions: seq<Action>, path: string)
    requires Steady(r) && CarefulRun(digest, r, actions)
    requires FindEntry(r.index, path).Some? && NeverResets(digest, r, actions, path)
    ensures var e := FindEntry(r.index, path).value;
            var done := Edge(e.meta.chunks, e.meta.size, |e.received|);
            var after := FileAt(Run(digest, r, actions).disk, e.localPath);
            done <= |after| && done <= |FileAt(r.disk, e.localPath)| &&
              after[..done] == FileAt(r.disk, e.localPath)[..done]
    decreases |actions|
  {
    var e := FindEntry(r.index, path).value;
    if actions == [] {
      assert Segment(e) && Reaches(r.disk, e);
    } else {
      var a := actions[0];
      var next := Step(digest, r, a).after;
      StepKeepsPrefix(digest, r, a, e);
      StepProgress(digest, r, a, path);
      StepSteady(digest, r, a);
      ReceivedBytesAreSafe(digest, next, actions[1..], path);
      var f := FindEntry(next.index, path).value;
      assert Segment(f);
      EdgesAscend(e.meta.chunks, e.meta.size, |e.received|, |f.received|);
      ShorterPrefix(FileAt(next.disk, e.localPath), FileAt(Run(digest, next, actions[1..]).disk, e.localPath),
                    Edge(e.meta.chunks, e.meta.size, |e.received|), Edge(e.meta.chunks, e.meta.size, |f.received|));
    }
  }

  lemma ShorterPrefix(a: Bytes, b: Bytes, short: nat, long: nat)
    requires short <= long <= |a| && long <= |b| && a[..long] == b[..long]
    ensures a[..short] == b[..short]
  {
    assert a[..short] == a[..long][..short];
  }
}
