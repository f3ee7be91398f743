/** The Receiver as the program has it: an object whose methods update its fields, its index and the local files. */
module ReceiverClient {
  import opened Base
  import opened Metadata
  import opened EntryList
  import opened MetaIndexes
  import opened Messages
  import opened ReceiverSafety
  import R = ReceiverModel

  class Receiver {
    const digest: Digest
    const index: MetaIndex
    /** The index file in the data directory. */
    var saved: seq<Entry>
    /** The local files that downloads are written to. */
    var disk: R.Disk
    var state: R.State
    var lastUpdated: i64
    var requesting: Option<R.Requesting>
    /** Everything put into the internal channel so far. */
    var events: seq<R.Event>

    ghost function View(): R.Receiver
      reads this, index
    {
      R.Receiver(index.entries, saved, disk, state, lastUpdated, requesting)
    }

    ghost predicate Valid()
      reads this, index
    {
      Sound(View())
    }

    /** The object has become what `result` says, has emitted its events, and `verdict` is its verdict. */
    ghost predicate Did(emitted: seq<R.Event>, result: R.Result, verdict: R.Verdict)
      reads this, index
    {
      View() == result.after && events == emitted + result.out && verdict == result.verdict
    }

    constructor (digest: Digest, saved: seq<Entry>, disk: R.Disk)
      ensures index.entries == saved && this.saved == saved && this.disk == disk && state == R.Initializing
      ensures lastUpdated == LastUpdated(saved) && requesting == None && events == [] && this.digest == digest
      ensures View() == R.Start(saved, disk) && fresh(index)
    {
      this.digest := digest;
      this.index := new MetaIndex(saved);
      this.saved := saved;
      this.disk := disk;
      this.state := R.Initializing;
      this.lastUpdated := LastUpdated(saved);
      this.requesting := None;
      this.events := [];
    }

    method SendEvent(event: R.Event)
      modifies this`events
      ensures events == old(events) + [event]
    {
      events := events + [event];
    }

    method SaveIndex()
      modifies this`saved
      ensures saved == index.entries
    {
      saved := index.entries;
    }

    method RequestMeta(after: i64) returns (verdict: R.Verdict)
      modifies this
      ensures Did(old(events), R.RequestNewMeta(old(View()), after), verdict)
    {
      if state != R.Idle {
        return R.Err(R.WrongState);
      }
      SendEvent(R.Send(Payload.RequestMeta(after)));
      return R.Ok;
    }

    method RequestNewMeta() returns (verdict: R.Verdict)
      modifies this
      ensures Did(old(events), R.RequestNewMeta(old(View()), LastUpdated(old(index.entries))), verdict)
    {
      verdict := RequestMeta(LastUpdated(index.entries));
    }

    method RequestFile(remotePath: string, localPath: string) returns (verdict: R.Verdict)
      requires Valid()
      modifies this, index
      ensures Valid() && Did(old(events), R.RequestFile(old(View()), remotePath, localPath), verdict)
    {
      RequestFileSound(View(), remotePath, localPath);
      if state != R.Idle {
        return R.Err(R.WrongState);
      }
      var found := FindEntry(index.entries, remotePath);
      if found.None? {
        return R.Err(R.NoSuchFile(remotePath));
      }
      var size := found.value.meta.size;
      ghost var i := Find(index.entries, remotePath).value;
      var changed := index.ChangeLocal(remotePath, localPath);
      assert changed == Done;
      SaveIndex();
      ReplaceFind(old(index.entries), i, index.entries[i]);
      assert FirstNats(0) == {};
      verdict := RequestChunk(remotePath, 0);
      if verdict == R.Ok {
        SendEvent(R.Started(remotePath, size));
      }
    }

    method ResumeFile(remotePath: string) returns (verdict: R.Verdict)
      requires Valid()
      modifies this
      ensures Valid() && Did(old(events), R.ResumeFile(old(View()), remotePath), verdict)
    {
      ResumeFileSound(View(), remotePath);
      if state != R.Idle {
        return R.Err(R.WrongState);
      }
      var found := FindEntry(index.entries, remotePath);
      if found.None? {
        return R.Err(R.NoSuchFile(remotePath));
      }
      var size := found.value.meta.size;
      var firstNotDownloaded := FindFirstUndownloaded(found.value);
      if firstNotDownloaded.None? {
        return R.Err(R.FileIsDownloaded);
      }
      verdict := RequestChunk(remotePath, firstNotDownloaded.value);
      if verdict == R.Ok {
        SendEvent(R.Started(remotePath, size));
      }
    }

    method RequestChunk(remotePath: string, chunkIndex: nat) returns (verdict: R.Verdict)
      requires forall e :: e in index.entries ==> Segment(e)
      modifies this
      ensures Did(old(events), R.StartChunk(old(View()), remotePath, chunkIndex), verdict)
    {
      var found := FindEntry(index.entries, remotePath);
      if found.None? {
        return R.Err(R.NoSuchFile(remotePath));
      }
      var entry := found.value;
      if |entry.meta.chunks| <= chunkIndex {
        return R.Err(R.NoSuchChunk);
      }
      var chunk := entry.meta.chunks[chunkIndex];
      SendEvent(R.Send(Payload.RequestChunk(remotePath, chunkIndex, chunk.hash)));
      var totalDownloaded := CalculateDownloaded(entry);
      requesting := Some(R.Requesting(remotePath, totalDownloaded, chunkIndex, chunk.offset, []));
      state := R.RequestedChunk;
      return R.Ok;
    }

    method StopTransmission() returns (verdict: R.Verdict)
      modifies this
      ensures Did(old(events), R.StopTransmission(old(View())), verdict)
      ensures old(Valid()) ==> Valid()
    {
      if state != R.RequestedChunk {
        return R.Err(R.WrongState);
      }
      SendEvent(R.Send(Payload.StopChunk));
      state := R.Idle;
      SendEvent(R.FilesChanged);
      return R.Ok;
    }

    method ProcessMessage(payload: Payload, fate: R.WriteFate) returns (verdict: R.Verdict)
      requires Valid()
      modifies this, index
      ensures Valid() && Did(old(events), R.ProcessMessage(digest, old(View()), payload, fate), verdict)
    {
      ghost var result := ProcessMessageSound(digest, View(), payload, fate);
      verdict := Dispatch(payload, fate);
      assert View() == result.after;
    }

    static lemma ProcessMessageSound(digest: Digest, r: R.Receiver, payload: Payload, fate: R.WriteFate)
      returns (result: R.Result)
      requires Sound(r)
      ensures result == R.ProcessMessage(digest, r, payload, fate) && Sound(result.after)
    {
      MessageSound(digest, r, payload, fate);
      result := R.ProcessMessage(digest, r, payload, fate);
    }

    /** The handler for a message, if the state is one in which the message is expected. */
    method Dispatch(payload: Payload, fate: R.WriteFate) returns (verdict: R.Verdict)
      requires Valid()
      modifies this, index
      ensures Did(old(events), R.ProcessMessage(digest, old(View()), payload, fate), verdict)
    {
      match payload {
        case NotifyUpdated(lastModified) =>
          if state != R.Idle && state != R.Initializing {
            return R.Err(R.WrongState);
          }
          verdict := ProcessNotifyUpdated(lastModified);
        case TransmitMeta(metas) =>
          if state != R.Idle {
            return R.Err(R.WrongState);
          }
          verdict := ProcessTransmitMeta(metas);
        case TransmitChunk(data) =>
          if state != R.RequestedChunk {
            return R.Err(R.WrongState);
          }
          verdict := ProcessTransmitChunk(data, fate);
        case LoginSuccess =>
          if state != R.Initializing {
            return R.Err(R.WrongState);
          }
          state := R.Idle;
          SendEvent(R.LoggedIn);
          verdict := R.Ok;
        case NotifySenderStatus(status) =>
          SendEvent(if status.Connected? then R.SenderConnected else R.SenderDisconnected);
          verdict := R.Ok;
        case _ =>
          verdict := R.Err(R.NotSupported);
      }
    }

    method ProcessNotifyUpdated(lastModified: i64) returns (verdict: R.Verdict)
      requires state == R.Idle || state == R.Initializing
      modifies this
      ensures Did(old(events), R.NotifyUpdatedArrives(old(View()), lastModified), verdict)
    {
      verdict := R.Ok;
      if lastModified > lastUpdated {
        verdict := RequestMeta(lastUpdated);
      }
    }

    method ProcessTransmitMeta(metas: seq<Meta>) returns (verdict: R.Verdict)
      requires state == R.Idle
      modifies this, index
      ensures Did(old(events), R.ReceiveMeta(old(View()), metas), verdict)
    {
      state := R.ReceivingMeta;
      for i := 0 to |metas|
        invariant state == R.ReceivingMeta && events == old(events) && saved == old(saved) && disk == old(disk)
        invariant lastUpdated == old(lastUpdated) && requesting == old(requesting)
        invariant AddAll(index.entries, metas[i..]) == AddAll(old(index.entries), metas)
      {
        assert metas[i..][1..] == metas[i + 1..];
        index.AddForMeta(metas[i]);
      }
      SaveIndex();
      SendEvent(R.FilesChanged);
      state := R.Idle;
      return R.Ok;
    }

    /** Writes one block to a local file; where the write stops, if it does, is `fate`. */
    method WriteBlock(localPath: string, size: nat, offset: nat, data: Bytes, fate: R.WriteFate) returns (written: bool)
      modifies this`disk
      ensures disk == R.AfterWrite(old(disk), localPath, size, offset, data, fate)
      ensures written == R.Succeeds(localPath, fate)
    {
      if localPath == "" || fate.NotOpened? {
        return false;
      }
      var file := if localPath in disk then disk[localPath] else [];
      if !fate.NotResized? {
        file := R.SetLen(file, size);
        file := R.Splice(file, offset, if fate.Torn? then data[..Min(fate.kept, |data|)] else data);
      }
      disk := disk[localPath := file];
      return fate.Written?;
    }

    method ProcessTransmitChunk(data: Bytes, fate: R.WriteFate) returns (verdict: R.Verdict)
      requires Valid()
      modifies this, index
      ensures Did(old(events), R.ReceiveBlock(digest, old(View()), data, fate), verdict)
    {
      if state != R.RequestedChunk {
        return R.Err(R.WrongState);
      }
      BlockIs(digest, View(), data, fate);
      var current := requesting.value;
      var entry := FindEntry(index.entries, current.path).value;

      var written := WriteBlock(entry.localPath, entry.meta.size, current.offset, data, fate);
      if !written {
        return R.Err(R.IOError);
      }
      AbsorbSound(old(View()), disk, data);
      requesting := Some(R.Absorb(current, data));
      verdict := CheckChunk(entry.meta.chunks[current.chunk]);
    }

    /** A block has been written and hashed: if it was the last of its chunk, check the digest. */
    method CheckChunk(chunk: Chunk) returns (verdict: R.Verdict)
      requires Valid() && state == R.RequestedChunk
      modifies this, index
      ensures Did(old(events), R.CountBlock(digest, old(View()), old(requesting).value, chunk), verdict)
    {
      var current := requesting.value;
      if current.offset < chunk.offset + chunk.size {
        return R.Ok;
      }
      var resultHash := digest(current.fed);
      if chunk.hash != resultHash {
        return R.Err(R.InvalidHash(chunk.hash, resultHash));
      }
      verdict := FinishChunk(current.path, current.chunk);
    }

    /** The chunk is complete and right: record it, and request the next one or report the file finished. */
    method FinishChunk(remotePath: string, chunkIndex: nat) returns (verdict: R.Verdict)
      requires Valid() && state == R.RequestedChunk
      requires requesting.value.path == remotePath && requesting.value.chunk == chunkIndex
      modifies this, index
      ensures Did(old(events), R.CompleteChunk(old(View()), remotePath, chunkIndex), verdict)
    {
      ghost var before := View();
      CompleteChunkIs(before, Find(index.entries, remotePath).value);
      var marked := index.MarkReceived(remotePath, chunkIndex);
      assert marked == Done;
      SaveIndex();
      requesting := None;
      assert View() == before.(index := index.entries, saved := index.entries, requesting := None);
      var entry := FindEntry(index.entries, remotePath).value;
      assert entry == Grown(before);
      var firstUndownloaded := FindFirstUndownloaded(entry);
      if firstUndownloaded.Some? {
        verdict := RequestChunk(remotePath, firstUndownloaded.value);
      } else {
        state := R.Idle;
        events := events + [R.Finished(remotePath), R.FilesChanged];
        verdict := R.Ok;
      }
    }

    /** Adds up the sizes of the received chunks, in whatever order the set yields them. */
    static method CalculateDownloaded(entry: Entry) returns (downloadedSize: nat)
      requires forall c :: c in entry.received ==> c < |entry.meta.chunks|
      ensures downloadedSize == R.Downloaded(entry)
    {
      var left := entry.received;
      downloadedSize := 0;
      while left != {}
        invariant left <= entry.received
        invariant downloadedSize + SizeOf(entry.meta.chunks, left, |entry.meta.chunks|) == R.Downloaded(entry)
        decreases left
      {
        var c :| c in left;
        SizeWithout(entry.meta.chunks, left, c, |entry.meta.chunks|);
        downloadedSize := downloadedSize + entry.meta.chunks[c].size;
        left := left - {c};
      }
      SizeOfNone(entry.meta.chunks, |entry.meta.chunks|);
    }

    static lemma {:induction false} SizeWithout(chunks: seq<Chunk>, chosen: set<nat>, c: nat, n: nat)
      requires c in chosen && n <= |chunks|
      ensures SizeOf(chunks, chosen, n) == SizeOf(chunks, chosen - {c}, n) + if c < n then chunks[c].size else 0
    {
      if n > 0 {
        SizeWithout(chunks, chosen, c, n - 1);
      }
    }

    static lemma {:induction false} SizeOfNone(chunks: seq<Chunk>, n: nat)
      requires n <= |chunks|
      ensures SizeOf(chunks, {}, n) == 0
    {
      if n > 0 {
        SizeOfNone(chunks, n - 1);
      }
    }

    static method FindFirstUndownloaded(entry: Entry) returns (first: Option<nat>)
      ensures first == R.FirstMissing(entry)
    {
      var chunkCount := |entry.meta.chunks|;
      for i := 0 to chunkCount
        invariant R.FirstMissing(entry) == R.FirstMissingFrom(entry, i)
      {
        if i !in entry.received {
          return Some(i);
        }
      }
      return None;
    }
  }
}
