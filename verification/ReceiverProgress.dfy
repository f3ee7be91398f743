/** Progress of a download: what it takes to finish one, and what loses the progress made. */
module ReceiverProgress {
  import opened Base
  import opened Metadata
  import opened EntryList
  import opened Messages
  import opened ReceiverModel
  import opened ReceiverSafety

  /** The step is a block that completes the current chunk of `path` with the right digest. */
  ghost predicate Verifies(digest: Digest, r: Receiver, a: Action, path: string) {
    && a.Message? && a.payload.TransmitChunk?
    && r.state == RequestedChunk && r.requesting.Some? && r.requesting.value.path == path
    && match FindEntry(r.index, path)
       case None => false
       case Some(e) =>
         var q := Absorb(r.requesting.value, a.payload.data);
         && q.chunk < |e.meta.chunks|
         && Succeeds(e.localPath, a.fate)
         && q.offset >= e.meta.chunks[q.chunk].offset + e.meta.chunks[q.chunk].size
         && digest(q.fed) == e.meta.chunks[q.chunk].hash
  }

  /** The step starts the download of `path` anew, or replaces its metadata. */
  ghost predicate Resets(r: Receiver, a: Action, path: string) {
    r.state == Idle &&
    match a
    case UserRequest(p, _) => p == path
    case Message(TransmitMeta(metas), _) => exists m :: m in metas && m.path == path
    case _ => false
  }

  /** The number of chunks of `path` received so far. */
  ghost function Got(r: Receiver, path: string): nat {
    match FindEntry(r.index, path)
    case None => 0
    case Some(e) => |e.received|
  }

  /** The same file, stored in the same place, with `n` chunks received. */
  ghost predicate SameFile(r: Receiver, after: Receiver, path: string, n: nat) {
    match (FindEntry(r.index, path), FindEntry(after.index, path))
    case (Some(e), Some(f)) => f.meta == e.meta && f.localPath == e.localPath && |f.received| == n
    case _ => false
  }

  lemma {:induction false} AddAllFind(entries: seq<Entry>, metas: seq<Meta>, path: string)
    requires Unique(entries)
    ensures if exists m :: m in metas && m.path == path
            then exists m :: && m in metas && m.path == path
                             && FindEntry(AddAll(entries, metas), path) == Some(FreshEntry(m))
            else FindEntry(AddAll(entries, metas), path) == FindEntry(entries, path)
    decreases |metas|
  {
    if metas != [] {
      var added := AddForMeta(entries, metas[0]);
      OpRefines(entries, Announce(metas[0]));
      FindEntryRefines(entries, path);
      FindEntryRefines(added, path);
      AddAllFind(added, metas[1..], path);
      assert metas == [metas[0]] + metas[1..];
    }
  }

  /** What one step does for the file at `path`, given whether it verifies a chunk of it. */
  ghost predicate Advances(r: Receiver, step: Result, path: string, verifies: bool) {
    && FindEntry(r.index, path).Some?
    && SameFile(r, step.after, path, Got(r, path) + if verifies then 1 else 0)
    && (Finished(path) in step.out <==>
          verifies && Got(r, path) + 1 == |FindEntry(r.index, path).value.meta.chunks|)
  }

  lemma CountProgress(digest: Digest, r: Receiver, c: Chunk, path: string)
    requires Sound(r) && r.state == RequestedChunk && FindEntry(r.index, path).Some?
    requires c == Grown(r).meta.chunks[r.requesting.value.chunk]
    ensures var q := r.requesting.value;
            Advances(r, CountBlock(digest, r, q, c), path,
                     q.path == path && q.offset >= c.offset + c.size && digest(q.fed) == c.hash)
  {
    CompleteChunkShape(r);
  }

  lemma BlockProgress(digest: Digest, r: Receiver, data: Bytes, fate: WriteFate, path: string)
    requires Sound(r) && FindEntry(r.index, path).Some?
    ensures Advances(r, ReceiveBlock(digest, r, data, fate), path,
                     Verifies(digest, r, Message(TransmitChunk(data), fate), path))
  {
    if r.state == RequestedChunk {
      var q := r.requesting.value;
      var e := FindEntry(r.index, q.path).value;
      var disk := AfterWrite(r.disk, e.localPath, e.meta.size, q.offset, data, fate);
      AbsorbSound(r, disk, data);
      CountProgress(digest, r.(disk := disk, requesting := Some(Absorb(q, data))), e.meta.chunks[q.chunk], path);
    }
  }

  lemma ReplyProgress(r: Receiver, metas: seq<Meta>, path: string)
    requires Sound(r) && r.state == Idle && FindEntry(r.index, path).Some?
    ensures var after := ReceiveMeta(r, metas).after;
            if exists m :: m in metas && m.path == path
            then FindEntry(after.index, path).Some? && FindEntry(after.index, path).value.received == {}
            else SameFile(r, after, path, Got(r, path))
  {
    AddAllFind(r.index, metas, path);
  }

  lemma RequestProgress(r: Receiver, p: string, localPath: string, path: string)
    requires Sound(r) && r.state == Idle && FindEntry(r.index, path).Some?
    ensures var after := RequestFile(r, p, localPath).after;
            if p == path
            then FindEntry(after.index, path).Some? && FindEntry(after.index, path).value.received == {}
            else SameFile(r, after, path, Got(r, path))
  {
    if FindEntry(r.index, p).Some? {
      var i := Find(r.index, p).value;
      ReplaceFind(r.index, i, r.index[i].(localPath := localPath, received := {}));
    }
  }

  lemma OtherMessageProgress(digest: Digest, r: Receiver, payload: Payload, fate: WriteFate, path: string)
    requires Sound(r) && FindEntry(r.index, path).Some?
    requires payload.TransmitMeta? ==> r.state != Idle
    requires !payload.TransmitChunk?
    ensures Advances(r, ProcessMessage(digest, r, payload, fate), path, false)
  {
  }

  lemma ReplyAdvances(r: Receiver, metas: seq<Meta>, path: string)
    requires Sound(r) && r.state == Idle && FindEntry(r.index, path).Some?
    requires !exists m :: m in metas && m.path == path
    ensures Advances(r, ReceiveMeta(r, metas), path, false)
  {
    ReplyProgress(r, metas, path);
  }

  lemma MessageProgress(digest: Digest, r: Receiver, payload: Payload, fate: WriteFate, path: string)
    requires Sound(r) && FindEntry(r.index, path).Some? && !Resets(r, Message(payload, fate), path)
    ensures Advances(r, ProcessMessage(digest, r, payload, fate), path,
                     Verifies(digest, r, Message(payload, fate), path))
  {
    match payload
    case TransmitChunk(data) => BlockProgress(digest, r, data, fate, path);
    case TransmitMeta(metas) =>
      if r.state == Idle {
        ReplyAdvances(r, metas, path);
      } else {
        OtherMessageProgress(digest, r, payload, fate, path);
      }
    case _ => OtherMessageProgress(digest, r, payload, fate, path);
  }

  /**
   * One step: unless it resets the file, the file keeps its metadata and its place, and gains one chunk exactly when
   * the step verifies one. It is reported finished exactly when that chunk is the last one missing.
   */
  lemma StepProgress(digest: Digest, r: Receiver, a: Action, path: string)
    requires Sound(r) && FindEntry(r.index, path).Some? && !Resets(r, a, path)
    ensures Advances(r, Step(digest, r, a), path, Verifies(digest, r, a, path))
  {
    match a
    case Message(payload, fate) => MessageProgress(digest, r, payload, fate, path);
    case UserRequest(p, localPath) =>
      if r.state == Idle {
        RequestProgress(r, p, localPath, path);
      }
    case UserResume(p) => ResumeProgress(r, p, path);
    case _ =>
  }

  lemma ResumeProgress(r: Receiver, p: string, path: string)
    requires Sound(r) && FindEntry(r.index, path).Some?
    ensures Advances(r, ResumeFile(r, p), path, false)
  {
  }

  /** A reset loses every received chunk. */
  lemma ResetLosesAll(digest: Digest, r: Receiver, a: Action, path: string)
    requires Sound(r) && FindEntry(r.index, path).Some? && Resets(r, a, path)
    ensures Got(Step(digest, r, a).after, path) == 0 && Finished(path) !in Step(digest, r, a).out
  {
    if a.Message? {
      ReplyProgress(r, a.payload.metas, path);
    } else {
      RequestProgress(r, path, a.localPath, path);
    }
  }

  /** How many steps of a run verify a chunk of `path`. */
  ghost function Verifications(digest: Digest, r: Receiver, actions: seq<Action>, path: string): nat
    decreases |actions|
  {
    if actions == [] then 0
    else
      (if Verifies(digest, r, actions[0], path) then 1 else 0) +
      Verifications(digest, Step(digest, r, actions[0]).after, actions[1..], path)
  }

  ghost predicate NeverResets(digest: Digest, r: Receiver, actions: seq<Action>, path: string)
    decreases |actions|
  {
    actions != [] ==>
      && !Resets(r, actions[0], path)
      && NeverResets(digest, Step(digest, r, actions[0]).after, actions[1..], path)
  }

  /** Over a run without resets the received chunks are those at its start plus one for each verification. */
  lemma {:induction false} RunProgress(digest: Digest, r: Receiver, actions: seq<Action>, path: string)
    requires Sound(r) && FindEntry(r.index, path).Some?
    requires NeverResets(digest, r, actions, path)
    ensures SameFile(r, Run(digest, r, actions), path, Got(r, path) + Verifications(digest, r, actions, path))
    decreases |actions|
  {
    if actions != [] {
      StepProgress(digest, r, actions[0], path);
      StepSound(digest, r, actions[0]);
      RunProgress(digest, Step(digest, r, actions[0]).after, actions[1..], path);
    }
  }

  /**
   * A download finishes after exactly as many verified chunks as were missing at the start, across any number of
   * stops, failures, restarts and resumes: a step is reported as finishing the file if and only if it verifies a
   * chunk and the verifications before it were one fewer than the chunks that were missing.
   */
  lemma FinishesAfterAllVerified(digest: Digest, r: Receiver, history: seq<Action>, last: Action, path: string)
    requires Sound(r) && FindEntry(r.index, path).Some?
    requires NeverResets(digest, r, history, path)
    ensures var now := Run(digest, r, history);
            Finished(path) in Step(digest, now, last).out <==>
            && Verifies(digest, now, last, path)
            && Verifications(digest, r, history, path) + 1 ==
               |FindEntry(r.index, path).value.meta.chunks| - Got(r, path)
  {
    RunSound(digest, r, history);
    RunProgress(digest, r, history, path);
    var now := Run(digest, r, history);
    if Resets(now, last, path) {
      ResetLosesAll(digest, now, last, path);
    } else {
      StepProgress(digest, now, last, path);
    }
  }

  // ---- Where the progress goes: the cases in which the program does less than one might hope ----

  /** A file without chunks (an empty file) can never be downloaded: every request for it fails, and resuming too. */
  lemma EmptyFileNeverFinishes(digest: Digest, r: Receiver, path: string, localPath: string)
    requires Sound(r) && r.state == Idle && FindEntry(r.index, path).Some?
    ensures RequestFile(r, path, localPath).verdict == Err(NoSuchChunk) <==>
            FindEntry(r.index, path).value.meta.chunks == []
    ensures FindEntry(r.index, path).value.meta.chunks == [] ==>
              ResumeFile(r, path).verdict == Err(FileIsDownloaded)
    ensures var m := FindEntry(r.index, path).value.meta;
            Tiled(m.chunks, m.size) ==> (m.chunks == [] <==> m.size == 0)
  {
    var i := Find(r.index, path).value;
    var m := r.index[i].meta;
    if Tiled(m.chunks, m.size) {
      EdgesAscend(m.chunks, m.size, 0, |m.chunks|);
    }
    ReplaceFind(r.index, i, r.index[i].(localPath := localPath, received := {}));
  }

  /**
   * The time of the last known update is fixed when the program starts. After a start, a notice asks for metadata if
   * and only if it arrives while the Receiver is idle and is newer than that; it asks again for everything since the
   * start, so the reply loses the progress of files announced since. In any other state a notice that is newer is
   * refused: it changes nothing and is not remembered.
   */
  lemma NoticeAsksFromTheStart(digest: Digest, r: Receiver, actions: seq<Action>, stamp: i64)
    requires Restart !in actions
    ensures var now := Run(digest, r, actions);
            var noticed := NotifyUpdatedArrives(now, stamp);
            && now.lastUpdated == r.lastUpdated && noticed.after == now
            && noticed.out ==
               (if now.state == Idle && stamp > r.lastUpdated then [Send(RequestMeta(r.lastUpdated))] else [])
            && (noticed.verdict == Err(WrongState) <==>
                  now.state == RequestedChunk || now.state == ReceivingMeta
                  || (now.state == Initializing && stamp > r.lastUpdated))
  {
    LastUpdatedFixed(digest, r, actions);
  }

  lemma StepKeepsLastUpdated(digest: Digest, r: Receiver, a: Action)
    requires a != Restart
    ensures Step(digest, r, a).after.lastUpdated == r.lastUpdated
  {
    match a
    case Message(TransmitChunk(data), fate) =>
      if r.state == RequestedChunk && r.requesting.Some? && FindEntry(r.index, r.requesting.value.path).Some? {
        var q := r.requesting.value;
        var e := FindEntry(r.index, q.path).value;
        var disk := AfterWrite(r.disk, e.localPath, e.meta.size, q.offset, data, fate);
        if q.chunk < |e.meta.chunks| {
          CountKeepsLastUpdated(digest, r.(disk := disk, requesting := Some(Absorb(q, data))), e.meta.chunks[q.chunk]);
        }
      }
    case _ =>
  }

  lemma CountKeepsLastUpdated(digest: Digest, r: Receiver, c: Chunk)
    requires r.requesting.Some?
    ensures CountBlock(digest, r, r.requesting.value, c).after.lastUpdated == r.lastUpdated
  {
  }

  lemma {:induction false} LastUpdatedFixed(digest: Digest, r: Receiver, actions: seq<Action>)
    requires Restart !in actions
    ensures Run(digest, r, actions).lastUpdated == r.lastUpdated
    decreases |actions|
  {
    if actions != [] {
      StepKeepsLastUpdated(digest, r, actions[0]);
      LastUpdatedFixed(digest, Step(digest, r, actions[0]).after, actions[1..]);
    }
  }
}
