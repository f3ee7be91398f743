/**
 * What every run of a Receiver keeps, whatever it is sent: received chunks form an initial segment, the chunk being
 * requested is the next one, and the two byte counters follow the bytes that were hashed.
 */
module ReceiverSafety {
  import opened Base
  import opened Metadata
  import opened EntryList
  import opened Messages
  import opened ReceiverModel

  /** The download in progress is at the first missing chunk, and its counters say how far into it. */
  ghost predicate OnTrack(index: seq<Entry>, q: Requesting) {
    match FindEntry(index, q.path)
    case None => false
    case Some(e) =>
      && q.chunk == |e.received| < |e.meta.chunks|
      && q.offset == e.meta.chunks[q.chunk].offset + |q.fed|
      && q.downloaded == Downloaded(e) + |q.fed|
  }

  ghost predicate Sound(r: Receiver) {
    && Unique(r.index)
    && r.saved == r.index
    && (forall e :: e in r.index ==> Segment(e))
    && r.state != ReceivingMeta
    && (r.state == RequestedChunk ==> r.requesting.Some? && OnTrack(r.index, r.requesting.value))
  }

  /** In an initial segment the search finds the next chunk exactly when there is one. */
  lemma SegmentNext(e: Entry)
    requires Segment(e)
    ensures FirstMissing(e) == if |e.received| < |e.meta.chunks| then Some(|e.received|) else None
  {
    assert |e.received| !in e.received;
  }

  /** Marking the next chunk makes the segment one longer. */
  lemma SegmentGrows(e: Entry)
    requires Segment(e) && |e.received| < |e.meta.chunks|
    ensures Segment(e.(received := e.received + {|e.received|}))
    ensures |e.received + {|e.received|}| == |e.received| + 1
  {
    var k := |e.received|;
    assert e.received + {k} == FirstNats(k + 1);
  }

  lemma StartChunkSound(r: Receiver, path: string, chunk: nat)
    requires Sound(r.(state := Idle)) && r.state != ReceivingMeta
    requires match FindEntry(r.index, path) case None => true case Some(e) => chunk == |e.received|
    requires FindEntry(r.index, path).None? || |FindEntry(r.index, path).value.meta.chunks| <= chunk ==> r.state == Idle
    ensures Sound(StartChunk(r, path, chunk).after)
    ensures StartChunk(r, path, chunk).verdict != Panic
  {
  }

  lemma RequestFileSound(r: Receiver, path: string, localPath: string)
    requires Sound(r)
    ensures Sound(RequestFile(r, path, localPath).after)
    ensures RequestFile(r, path, localPath).verdict != Panic
  {
    if r.state == Idle && FindEntry(r.index, path).Some? {
      var i := Find(r.index, path).value;
      var e := r.index[i].(localPath := localPath, received := {});
      ReplaceFind(r.index, i, e);
      assert e.received == FirstNats(0);
      var index := ChangeLocal(r.index, path, localPath).0;
      StartChunkSound(r.(index := index, saved := index), path, 0);
    }
  }

  lemma ResumeFileSound(r: Receiver, path: string)
    requires Sound(r)
    ensures Sound(ResumeFile(r, path).after)
    ensures ResumeFile(r, path).verdict != Panic
  {
    if r.state == Idle && FindEntry(r.index, path).Some? {
      SegmentNext(FindEntry(r.index, path).value);
    }
  }

  lemma ReceiveMetaSound(r: Receiver, metas: seq<Meta>)
    requires Sound(r)
    ensures Sound(ReceiveMeta(r, metas).after)
  {
    if r.state == Idle {
      AddAllMembers(r.index, metas);
      assert forall m: Meta :: Segment(FreshEntry(m)) by {
        assert FirstNats(0) == {};
      }
    }
  }

  /** A reply leaves unique paths, and only fresh entries beside those that were there. */
  lemma {:induction false} AddAllMembers(entries: seq<Entry>, metas: seq<Meta>)
    requires Unique(entries)
    ensures Unique(AddAll(entries, metas))
    ensures forall e :: e in AddAll(entries, metas) ==> e in entries || (e.meta in metas && e == FreshEntry(e.meta))
    decreases |metas|
  {
    if metas != [] {
      OpRefines(entries, Announce(metas[0]));
      AddAllMembers(AddForMeta(entries, metas[0]), metas[1..]);
    }
  }

  /** The entry of the chunk being requested, with that chunk added to the received ones. */
  function Grown(r: Receiver): Entry
    requires r.requesting.Some? && FindEntry(r.index, r.requesting.value.path).Some?
  {
    var e := FindEntry(r.index, r.requesting.value.path).value;
    e.(received := e.received + {r.requesting.value.chunk})
  }

  /** Completing a chunk adds it to its entry alone, and requests the next chunk or reports the file finished. */
  lemma CompleteChunkShape(r: Receiver)
    requires Sound(r) && r.state == RequestedChunk
    ensures var q := r.requesting.value;
            var chunks := Grown(r).meta.chunks;
            var done := CompleteChunk(r, q.path, q.chunk);
            && done.verdict == Ok && done.after.disk == r.disk && Sound(done.after)
            && (forall p :: FindEntry(done.after.index, p) ==
                            if p == q.path then Some(Grown(r)) else FindEntry(r.index, p))
            && |Grown(r).received| == q.chunk + 1 <= |chunks|
            && if q.chunk + 1 < |chunks| then
                 && done.out == [Send(RequestChunk(q.path, q.chunk + 1, chunks[q.chunk + 1].hash))]
                 && done.after.state == RequestedChunk
                 && done.after.requesting.value.path == q.path
                 && done.after.requesting.value.fed == []
               else
                 done.out == [Finished(q.path), FilesChanged] && done.after.state == Idle
  {
    var q := r.requesting.value;
    var i := Find(r.index, q.path).value;
    SegmentGrows(r.index[i]);
    ReplaceFind(r.index, i, Grown(r));
    SegmentNext(Grown(r));
  }

  /** Completing a chunk is recording it, and then starting the next one or reporting the file finished. */
  lemma CompleteChunkIs(r: Receiver, i: nat)
    requires Sound(r) && r.state == RequestedChunk && Find(r.index, r.requesting.value.path) == Some(i)
    ensures var q := r.requesting.value;
            var index := r.index[i := Grown(r)];
            var marked := r.(index := index, saved := index, requesting := None);
            && MarkReceived(r.index, q.path, q.chunk) == (index, Done)
            && FindEntry(index, q.path) == Some(Grown(r))
            && (forall e :: e in index ==> Segment(e))
            && CompleteChunk(r, q.path, q.chunk) ==
               match FirstMissing(Grown(r))
               case Some(k) => StartChunk(marked, q.path, k)
               case None => Result(marked.(state := Idle), [Finished(q.path), FilesChanged], Ok)
  {
    SegmentGrows(r.index[i]);
    ReplaceFind(r.index, i, Grown(r));
  }

  /** A block that is written is hashed and counted in. */
  lemma BlockIs(digest: Digest, r: Receiver, data: Bytes, fate: WriteFate)
    requires Sound(r) && r.state == RequestedChunk
    ensures var q := r.requesting.value;
            var e := FindEntry(r.index, q.path).value;
            var written := r.(disk := AfterWrite(r.disk, e.localPath, e.meta.size, q.offset, data, fate));
            ReceiveBlock(digest, r, data, fate) ==
            if !Succeeds(e.localPath, fate) then Fail(written, IOError)
            else CountBlock(digest, written.(requesting := Some(Absorb(q, data))), Absorb(q, data),
                 e.meta.chunks[q.chunk])
  {
  }

  lemma CompleteChunkSound(r: Receiver)
    requires Sound(r) && r.state == RequestedChunk
    ensures Sound(CompleteChunk(r, r.requesting.value.path, r.requesting.value.chunk).after)
  {
    CompleteChunkShape(r);
  }

  /** Counting a block in keeps a download on track, whatever the fate of its chunk is then. */
  lemma AbsorbSound(r: Receiver, disk: Disk, data: Bytes)
    requires Sound(r) && r.state == RequestedChunk
    ensures Sound(r.(disk := disk))
    ensures Sound(r.(disk := disk, requesting := Some(Absorb(r.requesting.value, data))))
  {
  }

  lemma ReceiveBlockSound(digest: Digest, r: Receiver, data: Bytes, fate: WriteFate)
    requires Sound(r)
    ensures Sound(ReceiveBlock(digest, r, data, fate).after)
    ensures ReceiveBlock(digest, r, data, fate).verdict != Panic
  {
    if r.state == RequestedChunk {
      var q := r.requesting.value;
      var e := FindEntry(r.index, q.path).value;
      var disk := AfterWrite(r.disk, e.localPath, e.meta.size, q.offset, data, fate);
      var absorbed := Absorb(q, data);
      AbsorbSound(r, disk, data);
      CompleteChunkShape(r.(disk := disk, requesting := Some(absorbed)));
    }
  }

  lemma MessageSound(digest: Digest, r: Receiver, payload: Payload, fate: WriteFate)
    requires Sound(r)
    ensures Sound(ProcessMessage(digest, r, payload, fate).after)
    ensures ProcessMessage(digest, r, payload, fate).verdict != Panic
  {
    match payload
    case TransmitMeta(metas) => ReceiveMetaSound(r, metas);
    case TransmitChunk(data) => ReceiveBlockSound(digest, r, data, fate);
    case _ =>
  }

  /** No step of a Receiver breaks the invariant or panics, whatever the user wishes and whatever message arrives. */
  lemma StepSound(digest: Digest, r: Receiver, a: Action)
    requires Sound(r)
    ensures Sound(Step(digest, r, a).after)
    ensures Step(digest, r, a).verdict != Panic
  {
    match a
    case UserRequest(path, localPath) => RequestFileSound(r, path, localPath);
    case UserResume(path) => ResumeFileSound(r, path);
    case Message(payload, fate) => MessageSound(digest, r, payload, fate);
    case _ =>
  }

  /**
   * Over every run, with any messages, stops, failed writes and restarts: received chunks are the first ones, the
   * requested chunk is the next one, the file offset is that chunk's offset plus the bytes hashed for it, and the
   * saved index is the index in use.
   */
  lemma {:induction false} RunSound(digest: Digest, r: Receiver, actions: seq<Action>)
    requires Sound(r)
    ensures Sound(Run(digest, r, actions))
    decreases |actions|
  {
    if actions != [] {
      StepSound(digest, r, actions[0]);
      RunSound(digest, Step(digest, r, actions[0]).after, actions[1..]);
    }
  }

  /** A first start is sound, so every run from it is. */
  lemma EmptyStartSound(disk: Disk)
    ensures Sound(Start([], disk))
  {
  }

  /**
   * The two counters agree: the total over received chunks plus the bytes written since equals the offset at which
   * the next byte goes, for every file whose chunks are contiguous.
   */
  lemma CountersAgree(r: Receiver)
    requires Sound(r) && r.state == RequestedChunk
    ensures var q := r.requesting.value;
            var e := FindEntry(r.index, q.path).value;
            Tiled(e.meta.chunks, e.meta.size) ==> q.downloaded == q.offset
  {
    var q := r.requesting.value;
    var e := FindEntry(r.index, q.path).value;
    if Tiled(e.meta.chunks, e.meta.size) {
      SegmentSize(e.meta.chunks, e.meta.size, |e.received|, |e.meta.chunks|);
    }
  }
}
