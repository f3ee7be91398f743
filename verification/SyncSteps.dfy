/**
 * Synchronisation is what the two programs do: every step of the server and of the Receiver acts on the indices, and on
 * the requests and replies between them, as a step of the synchronisation system or not at all.
 */
module SyncSteps {
  import opened Base
  import opened Metadata
  import opened EntryList
  import opened Messages
  import R = ReceiverModel
  import RS = ReceiverSafety
  import RP = ReceiverProgress
  import V = ServerModel
  import Y = Sync

  // ---- The server ----

  /** What an input to the server is for synchronisation; a request of the Sender for metadata is nothing to it. */
  function OfServer(s: V.Server, i: V.Input): Option<Y.Action> {
    match i
    case Incoming(a, p, now) =>
      if !s.running || a !in s.clients then None
      else (match p
            case PublishMeta(m) => if s.clients[a].role == V.Sender then Some(Y.Publish(m, now)) else None
            case RemoveMeta(path) => if s.clients[a].role == V.Sender then Some(Y.Withdraw(path)) else None
            case RequestMeta(_) => if s.clients[a].role == V.Receiver && s.clients[a].open then Some(Y.Answer) else None
            case _ => None)
    case _ => None
  }

  /** The message that carries the newest reply of `y`. */
  function Carried(y: Y.System): Payload
    requires y.replies != []
  {
    TransmitMeta(Y.Contents(y.replies[|y.replies| - 1]))
  }

  lemma ServerStepSyncs(s: V.Server, i: V.Input, y: Y.System)
    requires y.server == s.index
    requires OfServer(s, i) == Some(Y.Answer) ==> y.requests != [] && y.requests[0] == i.payload.after
    ensures var after := V.Step(s, i);
            match OfServer(s, i)
            case None => after.index == s.index
            case Some(b) =>
              && after.index == Y.Step(y, b).server
              && (b.Answer? ==>
                    after.clients == s.clients[i.addr := V.Append(s.clients[i.addr], Carried(Y.Step(y, b)))])
  {
    if i.Incoming? && i.addr in s.clients {
      MessageSyncs(s, i.addr, i.payload, i.now, y);
    }
  }

  lemma MessageSyncs(s: V.Server, a: V.Addr, p: Payload, now: i64, y: Y.System)
    requires a in s.clients && y.server == s.index
    requires OfServer(s, V.Incoming(a, p, now)) == Some(Y.Answer) ==> y.requests != [] && y.requests[0] == p.after
    ensures var done := V.HandleMessage(s, a, p, now);
            s.running ==>
              match OfServer(s, V.Incoming(a, p, now))
              case None => done.after.index == s.index
              case Some(b) =>
                && done.after.index == Y.Step(y, b).server
                && (b.Answer? ==>
                      && done.verdict == V.Ok
                      && done.after.clients == s.clients[a := V.Append(s.clients[a], Carried(Y.Step(y, b)))])
  {
    match p
    case Login(t, _, key) => LoginKeepsIndex(s, a, t, key);
    case _ =>
  }

  lemma LoginKeepsIndex(s: V.Server, a: V.Addr, t: LoginType, key: string)
    requires a in s.clients
    ensures V.HandleLogin(s, a, t, key).after.index == s.index
  {
  }

  // ---- The Receiver ----

  /** The requests for metadata among what a step of the Receiver emits. */
  function Asked(out: seq<R.Event>): seq<i64> {
    if out == [] then []
    else (if out[0].Send? && out[0].payload.RequestMeta? then [out[0].payload.after] else []) + Asked(out[1..])
  }

  /** What a step of the Receiver is for synchronisation: a block matters only if it completes and verifies a chunk. */
  ghost function OfReceiver(digest: Digest, r: R.Receiver, a: R.Action): Option<Y.Action> {
    match a
    case UserRequest(path, localPath) => if r.state == R.Idle then Some(Y.Download(Relocate(path, localPath))) else None
    case AskForMeta => if r.state == R.Idle then Some(Y.AskForNews) else None
    case Restart => Some(Y.Restart)
    case Message(NotifyUpdated(t), _) => if r.state == R.Idle && t > r.lastUpdated then Some(Y.AskAfterNotice) else None
    case Message(TransmitMeta(_), _) => Some(if r.state == R.Idle then Y.FoldIn else Y.Ignore)
    case Message(TransmitChunk(_), _) =>
      if r.requesting.Some? && RP.Verifies(digest, r, a, r.requesting.value.path)
      then Some(Y.Download(Mark(r.requesting.value.path, r.requesting.value.chunk)))
      else None
    case _ => None
  }

  /** The Receiver's side of `y` is what `r` has. */
  predicate Mirrors(y: Y.System, r: R.Receiver) {
    y.receiver == r.index && y.started == r.lastUpdated
  }

  /** The result of a Receiver's step is that of the synchronisation step `b` of `y`, requests included. */
  predicate Syncs(y: Y.System, b: Option<Y.Action>, result: R.Result)
    requires b.Some? ==> Y.Ready(y, b.value)
  {
    match b
    case None => Mirrors(y, result.after) && Asked(result.out) == []
    case Some(b) =>
      && Mirrors(Y.Step(y, b), result.after)
      && (b == Y.Restart || Y.Step(y, b).requests == y.requests + Asked(result.out))
  }

  lemma ReceiverStepSyncs(digest: Digest, r: R.Receiver, a: R.Action, y: Y.System)
    requires RS.Sound(r) && Mirrors(y, r)
    requires a.Message? && a.payload.TransmitMeta? ==> y.replies != [] && a.payload.metas == Y.Contents(y.replies[0])
    ensures Syncs(y, OfReceiver(digest, r, a), R.Step(digest, r, a))
  {
    match a
    case Message(payload, fate) => MessageStepSyncs(digest, r, payload, fate, y);
    case UserRequest(path, localPath) =>
      if r.state == R.Idle {
        RequestSyncs(r, path, localPath, y);
      }
    case UserResume(path) => ResumeSyncs(r, path, y);
    case UserStop => StopSyncs(r, y);
    case AskForMeta => AskSyncs(r, y);
    case Restart => assert Asked([]) == [];
  }

  lemma MessageStepSyncs(digest: Digest, r: R.Receiver, payload: Payload, fate: R.WriteFate, y: Y.System)
    requires RS.Sound(r) && Mirrors(y, r)
    requires payload.TransmitMeta? ==> y.replies != [] && payload.metas == Y.Contents(y.replies[0])
    ensures Syncs(y, OfReceiver(digest, r, R.Message(payload, fate)), R.ProcessMessage(digest, r, payload, fate))
  {
    if payload.TransmitChunk? {
      BlockSyncs(digest, r, payload.data, fate, y);
    } else {
      OtherMessageSyncs(digest, r, payload, fate, y);
    }
  }

  lemma StopSyncs(r: R.Receiver, y: Y.System)
    requires Mirrors(y, r)
    ensures Syncs(y, None, R.StopTransmission(r))
  {
    AsksNothing(R.StopTransmission(r).out);
  }

  lemma AskSyncs(r: R.Receiver, y: Y.System)
    requires Mirrors(y, r)
    ensures Syncs(y, if r.state == R.Idle then Some(Y.AskForNews) else None, R.RequestNewMeta(r, LastUpdated(r.index)))
  {
    var out := R.RequestNewMeta(r, LastUpdated(r.index)).out;
    if r.state == R.Idle {
      assert Asked(out) == [LastUpdated(r.index)] + Asked(out[1..]) && out[1..] == [];
    }
  }

  lemma {:induction false} AsksNothing(out: seq<R.Event>)
    requires forall e :: e in out ==> !(e.Send? && e.payload.RequestMeta?)
    ensures Asked(out) == []
  {
    if out != [] {
      assert out[0] in out;
      AsksNothing(out[1..]);
    }
  }

  /** Requesting a chunk is nothing to synchronisation. */
  lemma StartSyncs(r: R.Receiver, path: string, chunk: nat, size: nat)
    ensures var started := R.StartChunk(r, path, chunk);
            started.after.index == r.index && started.after.lastUpdated == r.lastUpdated && Asked(started.out) == []
    ensures var started := R.StartDownload(r, path, chunk, size);
            started.after.index == r.index && started.after.lastUpdated == r.lastUpdated && Asked(started.out) == []
  {
    AsksNothing(R.StartChunk(r, path, chunk).out);
    AsksNothing(R.StartDownload(r, path, chunk, size).out);
  }

  lemma ResumeSyncs(r: R.Receiver, path: string, y: Y.System)
    requires Mirrors(y, r)
    ensures Syncs(y, None, R.ResumeFile(r, path))
  {
    if FindEntry(r.index, path).Some? {
      var e := FindEntry(r.index, path).value;
      if R.FirstMissing(e).Some? {
        StartSyncs(r, path, R.FirstMissing(e).value, e.meta.size);
      }
    }
  }

  lemma OtherMessageSyncs(digest: Digest, r: R.Receiver, payload: Payload, fate: R.WriteFate, y: Y.System)
    requires RS.Sound(r) && Mirrors(y, r) && !payload.TransmitChunk?
    requires payload.TransmitMeta? ==> y.replies != [] && payload.metas == Y.Contents(y.replies[0])
    ensures Syncs(y, OfReceiver(digest, r, R.Message(payload, fate)), R.ProcessMessage(digest, r, payload, fate))
  {
  }

  /** A result that changes the index as `op` does, and asks for nothing. */
  lemma DownloadSyncs(y: Y.System, op: Op, result: R.Result)
    requires result.after.index == Apply(y.receiver, op) && result.after.lastUpdated == y.started
    requires Asked(result.out) == []
    ensures Syncs(y, Some(Y.Download(op)), result)
  {
    assert y.requests + [] == y.requests;
  }

  lemma RequestSyncs(r: R.Receiver, path: string, localPath: string, y: Y.System)
    requires Mirrors(y, r) && r.state == R.Idle
    ensures Syncs(y, Some(Y.Download(Relocate(path, localPath))), R.RequestFile(r, path, localPath))
  {
    var index := ChangeLocal(r.index, path, localPath).0;
    if FindEntry(r.index, path).Some? {
      StartSyncs(r.(index := index, saved := index), path, 0, FindEntry(r.index, path).value.meta.size);
    }
    DownloadSyncs(y, Relocate(path, localPath), R.RequestFile(r, path, localPath));
  }

  lemma CompleteSyncs(r: R.Receiver, y: Y.System)
    requires RS.Sound(r) && Mirrors(y, r) && r.state == R.RequestedChunk
    ensures var q := r.requesting.value;
            Syncs(y, Some(Y.Download(Mark(q.path, q.chunk))), R.CompleteChunk(r, q.path, q.chunk))
  {
    var q := r.requesting.value;
    var i := Find(r.index, q.path).value;
    var index := r.index[i := RS.Grown(r)];
    RS.CompleteChunkIs(r, i);
    RS.CompleteChunkShape(r);
    var done := R.CompleteChunk(r, q.path, q.chunk);
    AsksNothing(done.out);
    if R.FirstMissing(RS.Grown(r)).Some? {
      StartSyncs(r.(index := index, saved := index, requesting := None), q.path, R.FirstMissing(RS.Grown(r)).value, 0);
    }
    DownloadSyncs(y, Mark(q.path, q.chunk), done);
  }

  lemma CountSyncs(digest: Digest, r: R.Receiver, c: Chunk, y: Y.System)
    requires RS.Sound(r) && Mirrors(y, r) && r.state == R.RequestedChunk
    ensures var q := r.requesting.value;
            var b := if q.offset >= c.offset + c.size && digest(q.fed) == c.hash
                     then Some(Y.Download(Mark(q.path, q.chunk))) else None;
            Syncs(y, b, R.CountBlock(digest, r, q, c))
  {
    CompleteSyncs(r, y);
  }

  /** A block is something to synchronisation when it is written, completes its chunk, and the digest is right. */
  lemma OfBlock(digest: Digest, r: R.Receiver, data: Bytes, fate: R.WriteFate, b: Option<Y.Action>)
    requires RS.Sound(r) && r.state == R.RequestedChunk
    requires var q := r.requesting.value;
             var e := FindEntry(r.index, q.path).value;
             var c, absorbed := e.meta.chunks[q.chunk], R.Absorb(q, data);
             b == if R.Succeeds(e.localPath, fate) && absorbed.offset >= c.offset + c.size &&
               digest(absorbed.fed) == c.hash
                  then Some(Y.Download(Mark(q.path, q.chunk))) else None
    ensures OfReceiver(digest, r, R.Message(TransmitChunk(data), fate)) == b
  {
  }

  lemma BlockSyncs(digest: Digest, r: R.Receiver, data: Bytes, fate: R.WriteFate, y: Y.System)
    requires RS.Sound(r) && Mirrors(y, r)
    ensures Syncs(y, OfReceiver(digest, r, R.Message(TransmitChunk(data), fate)), R.ReceiveBlock(digest, r, data, fate))
  {
    if r.state == R.RequestedChunk {
      var b := WrittenSyncs(digest, r, data, fate, y);
      OfBlock(digest, r, data, fate, b);
    }
  }

  lemma WrittenSyncs(digest: Digest, r: R.Receiver, data: Bytes, fate: R.WriteFate, y: Y.System)
    returns (b: Option<Y.Action>)
    requires RS.Sound(r) && Mirrors(y, r) && r.state == R.RequestedChunk
    ensures var q := r.requesting.value;
            var e := FindEntry(r.index, q.path).value;
            var c, absorbed := e.meta.chunks[q.chunk], R.Absorb(q, data);
            b == if R.Succeeds(e.localPath, fate) && absorbed.offset >= c.offset + c.size &&
              digest(absorbed.fed) == c.hash
                 then Some(Y.Download(Mark(q.path, q.chunk))) else None
    ensures Syncs(y, b, R.ReceiveBlock(digest, r, data, fate))
  {
    var q := r.requesting.value;
    var e := FindEntry(r.index, q.path).value;
    var c, absorbed := e.meta.chunks[q.chunk], R.Absorb(q, data);
    b := if R.Succeeds(e.localPath, fate) && absorbed.offset >= c.offset + c.size && digest(absorbed.fed) == c.hash
         then Some(Y.Download(Mark(q.path, q.chunk))) else None;
    var disk := R.AfterWrite(r.disk, e.localPath, e.meta.size, q.offset, data, fate);
    RS.BlockIs(digest, r, data, fate);
    RS.AbsorbSound(r, disk, data);
    CountSyncs(digest, r.(disk := disk, requesting := Some(R.Absorb(q, data))), e.meta.chunks[q.chunk], y);
  }
}
