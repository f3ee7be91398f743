/**
 * The hash of the whole file, which metadata carries, is never looked at by the Receiver: metadata that differs in
 * nothing else leads to the same messages, the same verdicts, the same files and the same progress.
 */
module WholeHash {
  import opened Base
  import opened Metadata
  import opened EntryList
  import opened Messages
  import opened ReceiverModel
  import SharedPath

  /** Another hash for the whole file of each metadata. */
  type Forgery = Meta -> u64

  function Forge(f: Forgery, m: Meta): Meta {
    m.(hash := f(m))
  }

  function ForgeEntry(f: Forgery, e: Entry): Entry {
    e.(meta := Forge(f, e.meta))
  }

  function ForgeEntries(f: Forgery, entries: seq<Entry>): (r: seq<Entry>)
    ensures |r| == |entries|
    ensures forall i :: 0 <= i < |r| ==> r[i] == ForgeEntry(f, entries[i])
  {
    if entries == [] then [] else [ForgeEntry(f, entries[0])] + ForgeEntries(f, entries[1..])
  }

  function ForgeMetas(f: Forgery, metas: seq<Meta>): (r: seq<Meta>)
    ensures |r| == |metas|
  {
    if metas == [] then [] else [Forge(f, metas[0])] + ForgeMetas(f, metas[1..])
  }

  function ForgeReceiver(f: Forgery, r: Receiver): Receiver {
    r.(index := ForgeEntries(f, r.index), saved := ForgeEntries(f, r.saved))
  }

  function ForgeResult(f: Forgery, r: Result): Result {
    r.(after := ForgeReceiver(f, r.after))
  }

  function ForgeAction(f: Forgery, a: Action): Action {
    match a
    case Message(TransmitMeta(metas), fate) => Message(TransmitMeta(ForgeMetas(f, metas)), fate)
    case _ => a
  }

  function ForgeActions(f: Forgery, actions: seq<Action>): seq<Action> {
    if actions == [] then [] else [ForgeAction(f, actions[0])] + ForgeActions(f, actions[1..])
  }

  // ---- The index ----

  lemma {:induction false} FindForged(f: Forgery, entries: seq<Entry>, path: string)
    ensures Find(ForgeEntries(f, entries), path) == Find(entries, path)
  {
    if entries != [] {
      assert ForgeEntries(f, entries)[1..] == ForgeEntries(f, entries[1..]);
      FindForged(f, entries[1..], path);
    }
  }

  lemma AddForged(f: Forgery, entries: seq<Entry>, e: Entry)
    ensures AddEntry(ForgeEntries(f, entries), ForgeEntry(f, e)) == ForgeEntries(f, AddEntry(entries, e))
  {
    FindForged(f, entries, e.meta.path);
  }

  lemma {:induction false} AddAllForged(f: Forgery, entries: seq<Entry>, metas: seq<Meta>)
    ensures AddAll(ForgeEntries(f, entries), ForgeMetas(f, metas)) == ForgeEntries(f, AddAll(entries, metas))
    decreases |metas|
  {
    if metas != [] {
      AddForged(f, entries, FreshEntry(metas[0]));
      assert ForgeEntry(f, FreshEntry(metas[0])) == FreshEntry(Forge(f, metas[0]));
      AddAllForged(f, AddForMeta(entries, metas[0]), metas[1..]);
    }
  }

  lemma MarkForged(f: Forgery, entries: seq<Entry>, path: string, chunk: nat)
    ensures var marked := MarkReceived(entries, path, chunk);
            MarkReceived(ForgeEntries(f, entries), path, chunk) == (ForgeEntries(f, marked.0), marked.1)
  {
    FindForged(f, entries, path);
    assert MarkReceived(ForgeEntries(f, entries), path, chunk).0 ==
           ForgeEntries(f, MarkReceived(entries, path, chunk).0);
  }

  lemma MoveForged(f: Forgery, entries: seq<Entry>, path: string, localPath: string)
    ensures ChangeLocal(ForgeEntries(f, entries), path, localPath).0 ==
            ForgeEntries(f, ChangeLocal(entries, path, localPath).0)
  {
    FindForged(f, entries, path);
  }

  lemma {:induction false} LastForged(f: Forgery, entries: seq<Entry>)
    ensures LastUpdated(ForgeEntries(f, entries)) == LastUpdated(entries)
  {
    if entries != [] {
      LastForged(f, entries[1..]);
    }
  }

  lemma {:induction false} MissingForged(f: Forgery, e: Entry, i: nat)
    requires i <= |e.meta.chunks|
    ensures FirstMissingFrom(ForgeEntry(f, e), i) == FirstMissingFrom(e, i)
    decreases |e.meta.chunks| - i
  {
    if i < |e.meta.chunks| {
      MissingForged(f, e, i + 1);
    }
  }

  // ---- The operations ----

  lemma StartForged(f: Forgery, r: Receiver, path: string, chunk: nat)
    ensures StartChunk(ForgeReceiver(f, r), path, chunk) == ForgeResult(f, StartChunk(r, path, chunk))
  {
    FindForged(f, r.index, path);
  }

  lemma DownloadForged(f: Forgery, r: Receiver, path: string, chunk: nat, size: nat)
    ensures StartDownload(ForgeReceiver(f, r), path, chunk, size) == ForgeResult(f, StartDownload(r, path, chunk, size))
  {
    StartForged(f, r, path, chunk);
  }

  /** The Receiver with another index, saved. */
  function With(r: Receiver, index: seq<Entry>): Receiver {
    r.(index := index, saved := index)
  }

  lemma RequestForged(f: Forgery, r: Receiver, path: string, localPath: string)
    ensures RequestFile(ForgeReceiver(f, r), path, localPath) == ForgeResult(f, RequestFile(r, path, localPath))
  {
    FindForged(f, r.index, path);
    MoveForged(f, r.index, path, localPath);
    if FindEntry(r.index, path).Some? {
      var moved := With(r, ChangeLocal(r.index, path, localPath).0);
      var size := FindEntry(r.index, path).value.meta.size;
      DownloadForged(f, moved, path, 0, size);
      assert ForgeReceiver(f, moved) ==
             With(ForgeReceiver(f, r), ChangeLocal(ForgeEntries(f, r.index), path, localPath).0);
    }
  }

  lemma ResumeForged(f: Forgery, r: Receiver, path: string)
    ensures ResumeFile(ForgeReceiver(f, r), path) == ForgeResult(f, ResumeFile(r, path))
  {
    FindForged(f, r.index, path);
    if FindEntry(r.index, path).Some? {
      var e := FindEntry(r.index, path).value;
      MissingForged(f, e, 0);
      if FirstMissing(e).Some? {
        StartForged(f, r, path, FirstMissing(e).value);
      }
    }
  }

  lemma CompleteForged(f: Forgery, r: Receiver, path: string, chunk: nat)
    ensures CompleteChunk(ForgeReceiver(f, r), path, chunk) == ForgeResult(f, CompleteChunk(r, path, chunk))
  {
    MarkForged(f, r.index, path, chunk);
    var index := MarkReceived(r.index, path, chunk).0;
    FindForged(f, index, path);
    if FindEntry(index, path).Some? {
      var e := FindEntry(index, path).value;
      MissingForged(f, e, 0);
      if FirstMissing(e).Some? {
        StartForged(f, r.(index := index, saved := index, requesting := None), path, FirstMissing(e).value);
      }
    }
  }

  lemma CountForged(f: Forgery, digest: Digest, r: Receiver, q: Requesting, c: Chunk)
    ensures CountBlock(digest, ForgeReceiver(f, r), q, c) == ForgeResult(f, CountBlock(digest, r, q, c))
  {
    CompleteForged(f, r, q.path, q.chunk);
  }

  lemma BlockForged(f: Forgery, digest: Digest, r: Receiver, data: Bytes, fate: WriteFate)
    ensures ReceiveBlock(digest, ForgeReceiver(f, r), data, fate) == ForgeResult(f, ReceiveBlock(digest, r, data, fate))
  {
    if r.state == RequestedChunk && r.requesting.Some? {
      var q := r.requesting.value;
      FindForged(f, r.index, q.path);
      if FindEntry(r.index, q.path).Some? {
        var e := FindEntry(r.index, q.path).value;
        var disk := AfterWrite(r.disk, e.localPath, e.meta.size, q.offset, data, fate);
        if q.chunk < |e.meta.chunks| {
          CountForged(f, digest, r.(disk := disk, requesting := Some(Absorb(q, data))), Absorb(q, data),
            e.meta.chunks[q.chunk]);
        }
      }
    }
  }

  lemma MessageForged(f: Forgery, digest: Digest, r: Receiver, payload: Payload, fate: WriteFate)
    requires !payload.TransmitMeta?
    ensures ProcessMessage(digest, ForgeReceiver(f, r), payload, fate) ==
            ForgeResult(f, ProcessMessage(digest, r, payload, fate))
  {
    if payload.TransmitChunk? {
      BlockForged(f, digest, r, payload.data, fate);
    }
  }

  lemma MetaForged(f: Forgery, r: Receiver, metas: seq<Meta>)
    ensures ReceiveMeta(ForgeReceiver(f, r), ForgeMetas(f, metas)) == ForgeResult(f, ReceiveMeta(r, metas))
  {
    AddAllForged(f, r.index, metas);
  }

  lemma ArrivalForged(f: Forgery, digest: Digest, r: Receiver, payload: Payload, fate: WriteFate)
    ensures Step(digest, ForgeReceiver(f, r), ForgeAction(f, Message(payload, fate))) ==
            ForgeResult(f, ProcessMessage(digest, r, payload, fate))
  {
    if payload.TransmitMeta? {
      MetaForged(f, r, payload.metas);
    } else {
      MessageForged(f, digest, r, payload, fate);
    }
  }

  /** One step on forged metadata is the forged step: same messages, same verdict, same disk, same progress. */
  lemma StepForged(f: Forgery, digest: Digest, r: Receiver, a: Action)
    ensures Step(digest, ForgeReceiver(f, r), ForgeAction(f, a)) == ForgeResult(f, Step(digest, r, a))
  {
    match a
    case UserRequest(path, localPath) => RequestForged(f, r, path, localPath);
    case UserResume(path) => ResumeForged(f, r, path);
    case Message(payload, fate) => ArrivalForged(f, digest, r, payload, fate);
    case AskForMeta => LastForged(f, r.index);
    case Restart => LastForged(f, r.saved);
    case UserStop =>
  }

  lemma {:induction false} RunForged(f: Forgery, digest: Digest, r: Receiver, actions: seq<Action>)
    ensures Run(digest, ForgeReceiver(f, r), ForgeActions(f, actions)) == ForgeReceiver(f, Run(digest, r, actions))
    decreases |actions|
  {
    if actions != [] {
      StepForged(f, digest, r, actions[0]);
      RunForged(f, digest, Step(digest, r, actions[0]).after, actions[1..]);
    }
  }

  /**
   * Nothing that the Receiver ever says or stores depends on the hash of a whole file: after any history from the first
   * start, with every such hash replaced by anything, every step has the same output and verdict and leaves the same
   * local files.
   */
  lemma WholeHashUnchecked(f: Forgery, digest: Digest, disk: Disk, history: seq<Action>, last: Action)
    ensures var told := Step(digest, Run(digest, Start([], disk), history), last);
            var forged := Step(digest, Run(digest, Start([], disk), ForgeActions(f, history)), ForgeAction(f, last));
            forged.out == told.out && forged.verdict == told.verdict && forged.after.disk == told.after.disk
  {
    assert ForgeReceiver(f, Start([], disk)) == Start([], disk);
    RunForged(f, digest, Start([], disk), history);
    StepForged(f, digest, Run(digest, Start([], disk), history), last);
  }

  /** So there is a history in which a file is reported finished, whatever whole-file hashes its metadata carries. */
  lemma WrongHashFinishes(f: Forgery) returns (history: seq<Action>)
    ensures var resumed := Run(SharedPath.FirstByte, Start([], map[]), ForgeActions(f, history));
            && Finished("a") in Step(SharedPath.FirstByte, resumed, SharedPath.LAST).out
            && FindEntry(resumed.index, "a").Some? && FindEntry(resumed.index, "a").value.meta.hash == f(SharedPath.A)
  {
    history := SharedPath.WholeHistory();
    SharedPath.Ended();
    var start := Start([], map[]);
    assert ForgeReceiver(f, start) == start == SharedPath.START;
    RunForged(f, SharedPath.FirstByte, start, history);
    StepForged(f, SharedPath.FirstByte, SharedPath.RESUMED, SharedPath.LAST);
    FindForged(f, SharedPath.RESUMED.index, "a");
    SharedPath.FindTwo(Entry("x", {0}, SharedPath.A), Entry("x", {}, SharedPath.B));
  }
}
