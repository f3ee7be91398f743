/**
 * What the Receiver answers and tells, for every step in every state it can be in: when each error occurs and what it
 * leaves behind, which messages and events a step emits, and that the status shown to the user is the Sender's.
 */
module ReceiverLaws {
  import opened Base
  import opened Metadata
  import opened EntryList
  import opened Messages
  import opened ReceiverModel
  import opened ReceiverSafety
  import opened ReceiverPrefix
  import V = ServerModel
  import VS = ServerSafety

  // ---- A block ----

  /** The entry and the chunk that are being downloaded. */
  function Current(r: Receiver): Entry
    requires Sound(r) && r.state == RequestedChunk
  {
    FindEntry(r.index, r.requesting.value.path).value
  }

  function CurrentChunk(r: Receiver): Chunk
    requires Sound(r) && r.state == RequestedChunk
  {
    Current(r).meta.chunks[r.requesting.value.chunk]
  }

  /** The block is on disk, hashed and counted, and nothing else has changed. */
  ghost predicate CountedIn(r: Receiver, data: Bytes, fate: WriteFate, after: Receiver)
    requires Sound(r) && r.state == RequestedChunk
  {
    var q, e := r.requesting.value, Current(r);
    && after == r.(disk := after.disk, requesting := after.requesting)
    && after.disk == AfterWrite(r.disk, e.localPath, e.meta.size, q.offset, data, fate)
    && after.requesting.Some?
    && after.requesting.value.path == q.path && after.requesting.value.chunk == q.chunk
    && after.requesting.value.offset == q.offset + |data|
    && after.requesting.value.downloaded == q.downloaded + |data|
    && after.requesting.value.fed == q.fed + data
  }

  /** The block reaches the end of the chunk. */
  predicate ReachesEnd(r: Receiver, data: Bytes)
    requires Sound(r) && r.state == RequestedChunk
  {
    r.requesting.value.offset + |data| >= CurrentChunk(r).offset + CurrentChunk(r).size
  }

  /**
   * What a block does. If its write fails it is forgotten: an error, and nothing but the disk has changed. If it does
   * not reach the end of the chunk it is counted in. If it does, and the digest is wrong, it is counted in as well, and
   * the error names both digests; the Receiver goes on waiting, with nothing recorded. Otherwise the chunk is recorded.
   */
  lemma BlockLaw(digest: Digest, r: Receiver, data: Bytes, fate: WriteFate)
    requires Sound(r) && r.state == RequestedChunk
    ensures var step := ReceiveBlock(digest, r, data, fate);
            var q, e, c := r.requesting.value, Current(r), CurrentChunk(r);
            var d := digest(q.fed + data);
            && (step.verdict == Err(IOError) <==> !(fate.Written? && e.localPath != ""))
            && (step.verdict == Err(IOError) ==>
                  step.out == [] && step.after == r.(disk := step.after.disk)
                  && step.after.disk == AfterWrite(r.disk, e.localPath, e.meta.size, q.offset, data, fate))
            && (Succeeds(e.localPath, fate) ==>
                  && (ReachesEnd(r, data) && d != c.hash <==> step.verdict == Err(InvalidHash(c.hash, d)))
                  && (!ReachesEnd(r, data) || d != c.hash ==> step.out == [] && CountedIn(r, data, fate, step.after))
                  && (!ReachesEnd(r, data) || d == c.hash ==> step.verdict == Ok)
                  && (ReachesEnd(r, data) && d == c.hash ==>
                        step.out != [] && |FindEntry(step.after.index, q.path).value.received| == |e.received| + 1))
  {
    var q, e := r.requesting.value, Current(r);
    BlockIs(digest, r, data, fate);
    if Succeeds(e.localPath, fate) {
      var disk := AfterWrite(r.disk, e.localPath, e.meta.size, q.offset, data, fate);
      AbsorbSound(r, disk, data);
      CountLaw(digest, r.(disk := disk, requesting := Some(Absorb(q, data))), CurrentChunk(r));
    }
  }

  lemma CountLaw(digest: Digest, r: Receiver, c: Chunk)
    requires Sound(r) && r.state == RequestedChunk && c == CurrentChunk(r)
    ensures var q := r.requesting.value;
            var step := CountBlock(digest, r, q, c);
            var reaches := q.offset >= c.offset + c.size;
            && (reaches && digest(q.fed) != c.hash <==> step.verdict == Err(InvalidHash(c.hash, digest(q.fed))))
            && (!reaches || digest(q.fed) != c.hash ==> step.out == [] && step.after == r)
            && (!reaches || digest(q.fed) == c.hash ==> step.verdict == Ok)
            && (reaches && digest(q.fed) == c.hash ==>
                  && step.out != [] && FindEntry(step.after.index, q.path) == Some(Grown(r))
                  && |Grown(r).received| == |Current(r).received| + 1)
  {
    CompleteChunkShape(r);
  }

  // ---- Errors ----

  /** The states in which an action is expected. */
  predicate Expected(state: State, a: Action) {
    match a
    case UserRequest(_, _) => state == Idle
    case UserResume(_) => state == Idle
    case AskForMeta => state == Idle
    case UserStop => state == RequestedChunk
    case Restart => true
    case Message(NotifyUpdated(_), _) => state == Idle || state == Initializing
    case Message(TransmitMeta(_), _) => state == Idle
    case Message(TransmitChunk(_), _) => state == RequestedChunk
    case Message(LoginSuccess, _) => state == Initializing
    case Message(_, _) => true
  }

  /** A newer update notice that comes before the login is answered is expected, but cannot be followed. */
  predicate TooEarly(r: Receiver, a: Action) {
    r.state == Initializing && a.Message? && a.payload.NotifyUpdated? && a.payload.lastModified > r.lastUpdated
  }

  /** The messages that a Receiver understands. */
  predicate Understood(p: Payload) {
    p.NotifyUpdated? || p.TransmitMeta? || p.TransmitChunk? || p.LoginSuccess? || p.NotifySenderStatus?
  }

  /** The file that the user wishes for, if any. */
  function Wished(a: Action): Option<string> {
    match a
    case UserRequest(path, _) => Some(path)
    case UserResume(path) => Some(path)
    case _ => None
  }

  /** An action that is not expected in the state is refused, and changes nothing. */
  lemma RefusalLaw(digest: Digest, r: Receiver, a: Action)
    requires Sound(r)
    ensures Step(digest, r, a).verdict == Err(WrongState) <==> !Expected(r.state, a) || TooEarly(r, a)
    ensures !Expected(r.state, a) || TooEarly(r, a) ==> Step(digest, r, a).after == r && Step(digest, r, a).out == []
  {
    match a
    case Message(TransmitChunk(data), fate) =>
      if r.state == RequestedChunk {
        BlockVerdicts(digest, r, data, fate);
      }
    case Message(payload, fate) => RefusedMessage(digest, r, payload, fate);
    case UserRequest(path, localPath) => RequestLaw(r, path, localPath);
    case UserResume(path) => ResumeLaw(r, path);
    case _ =>
  }

  lemma RefusedMessage(digest: Digest, r: Receiver, p: Payload, fate: WriteFate)
    requires Sound(r) && !p.TransmitChunk?
    ensures var step := ProcessMessage(digest, r, p, fate);
            var a := Message(p, fate);
            && (step.verdict == Err(WrongState) <==> !Expected(r.state, a) || TooEarly(r, a))
            && (step.verdict == Err(WrongState) ==> step.after == r && step.out == [])
            && (step.verdict == Err(NotSupported) <==> !Understood(p))
            && (step.verdict == Err(NotSupported) ==> step.after == r && step.out == [])
            && (step.verdict == Ok || step.verdict == Err(WrongState) || step.verdict == Err(NotSupported))
  {
  }

  lemma BlockVerdicts(digest: Digest, r: Receiver, data: Bytes, fate: WriteFate)
    requires Sound(r) && r.state == RequestedChunk
    ensures var step := ReceiveBlock(digest, r, data, fate);
            step.verdict == Ok || step.verdict == Err(IOError)
            || (step.verdict.Err? && step.verdict.error.InvalidHash?)
  {
    BlockLaw(digest, r, data, fate);
  }

  /**
   * A message is answered by one of four errors, or none: unexpected, not understood, a failed write, a wrong digest.
   */
  lemma MessageErrors(digest: Digest, r: Receiver, p: Payload, fate: WriteFate)
    requires Sound(r)
    ensures var verdict := ProcessMessage(digest, r, p, fate).verdict;
            && (verdict == Err(NotSupported) <==> !Understood(p))
            && (verdict == Err(IOError) <==>
                  p.TransmitChunk? && r.state == RequestedChunk && !Succeeds(Current(r).localPath, fate))
            && (verdict.Err? && verdict.error.InvalidHash? <==>
                  && p.TransmitChunk? && r.state == RequestedChunk && Succeeds(Current(r).localPath, fate)
                  && ReachesEnd(r, p.data) && digest(r.requesting.value.fed + p.data) != CurrentChunk(r).hash)
            && (verdict.Err? ==>
                  verdict.error in {WrongState, NotSupported, IOError} || verdict.error.InvalidHash?)
            && verdict != Panic
  {
    if p.TransmitChunk? {
      if r.state == RequestedChunk {
        BlockLaw(digest, r, p.data, fate);
      }
    } else {
      RefusedMessage(digest, r, p, fate);
    }
  }

  /**
   * A request in Idle: an unknown file and a file without chunks are errors, and after the second the file has moved
   * all the same. Otherwise the first chunk is asked for, and the user is told the file's name and size.
   */
  lemma RequestLaw(r: Receiver, path: string, localPath: string)
    requires Sound(r)
    ensures var step := RequestFile(r, path, localPath);
            if r.state != Idle then step == Fail(r, WrongState)
            else match FindEntry(r.index, path)
              case None => step == Fail(r, NoSuchFile(path))
              case Some(e) =>
                && FindEntry(step.after.index, path) == Some(e.(localPath := localPath, received := {}))
                && step.after.saved == step.after.index && step.after.disk == r.disk
                && if e.meta.chunks == [] then
                     step.verdict == Err(NoSuchChunk) && step.out == [] && step.after.state == Idle
                   else
                     && step.verdict == Ok && step.after.state == RequestedChunk
                     && step.after.requesting == Some(Requesting(path, 0, 0, e.meta.chunks[0].offset, []))
                     && step.out == [Send(RequestChunk(path, 0, e.meta.chunks[0].hash)), Started(path, e.meta.size)]
  {
    if r.state == Idle && FindEntry(r.index, path).Some? {
      var i := Find(r.index, path).value;
      ReplaceFind(r.index, i, r.index[i].(localPath := localPath, received := {}));
      NothingDownloaded(r.index[i].(localPath := localPath, received := {}), |r.index[i].meta.chunks|);
    }
  }

  lemma {:induction false} NothingDownloaded(e: Entry, n: nat)
    requires e.received == {} && n <= |e.meta.chunks|
    ensures SizeOf(e.meta.chunks, e.received, n) == 0
  {
    if n > 0 {
      NothingDownloaded(e, n - 1);
    }
  }

  /** A resume in Idle asks for the chunk after those received, or says that the file is complete. */
  lemma ResumeLaw(r: Receiver, path: string)
    requires Sound(r)
    ensures var step := ResumeFile(r, path);
            if r.state != Idle then step == Fail(r, WrongState)
            else match FindEntry(r.index, path)
              case None => step == Fail(r, NoSuchFile(path))
              case Some(e) =>
                var k := |e.received|;
                if k == |e.meta.chunks| then step == Fail(r, FileIsDownloaded)
                else
                  && step.verdict == Ok && step.after.state == RequestedChunk
                  && step.after == r.(state := RequestedChunk, requesting := step.after.requesting)
                  && step.after.requesting == Some(Requesting(path, Downloaded(e), k, e.meta.chunks[k].offset, []))
                  && step.out == [Send(RequestChunk(path, k, e.meta.chunks[k].hash)), Started(path, e.meta.size)]
  {
    if r.state == Idle && FindEntry(r.index, path).Some? {
      SegmentNext(FindEntry(r.index, path).value);
    }
  }

  // ---- Messages and events ----

  /** A stop says so to the Sender, and shows the file list; a request for news is sent; a restart says nothing. */
  lemma OwnLaw(digest: Digest, r: Receiver)
    ensures r.state == RequestedChunk ==>
              Step(digest, r, UserStop) == Result(r.(state := Idle), [Send(StopChunk), FilesChanged], Ok)
    ensures r.state == Idle ==>
              Step(digest, r, AskForMeta) == Result(r, [Send(RequestMeta(LastUpdated(r.index)))], Ok)
    ensures var started := Step(digest, r, Restart);
            && started.out == [] && started.verdict == Ok
            && started.after.index == r.saved && started.after.saved == r.saved && started.after.disk == r.disk
            && started.after.state == Initializing && started.after.requesting == None
            && started.after.lastUpdated == LastUpdated(r.saved)
  {
  }

  /** What is shown for a message that is neither a block nor a notice: one event, in the states that expect it. */
  lemma ShownLaw(digest: Digest, r: Receiver, metas: seq<Meta>, status: UserStatus, fate: WriteFate)
    requires Sound(r)
    ensures r.state == Initializing ==>
              ProcessMessage(digest, r, LoginSuccess, fate) == Result(r.(state := Idle), [LoggedIn], Ok)
    ensures r.state == Idle ==>
              && ProcessMessage(digest, r, TransmitMeta(metas), fate).out == [FilesChanged]
              && ProcessMessage(digest, r, TransmitMeta(metas), fate).verdict == Ok
              && ProcessMessage(digest, r, TransmitMeta(metas), fate).after.state == Idle
    ensures ProcessMessage(digest, r, NotifySenderStatus(Connected), fate) == Result(r, [SenderConnected], Ok)
    ensures ProcessMessage(digest, r, NotifySenderStatus(Disconnected), fate) == Result(r, [SenderDisconnected], Ok)
  {
  }

  // ---- The Sender's status, as the user sees it ----

  predicate IsStatus(e: Event) {
    e.SenderConnected? || e.SenderDisconnected?
  }

  /** What the user is shown after these events, who was shown `shown` before. */
  function Show(out: seq<Event>, shown: UserStatus): UserStatus {
    if out == [] then shown
    else Show(out[1..], if out[0].SenderConnected? then Connected
                        else if out[0].SenderDisconnected? then Disconnected else shown)
  }

  lemma {:induction false} ShowNothing(out: seq<Event>, shown: UserStatus)
    requires forall e :: e in out ==> !IsStatus(e)
    ensures Show(out, shown) == shown
  {
    if out != [] {
      assert out[0] in out;
      ShowNothing(out[1..], shown);
    }
  }

  /** Only a status message shows a status. */
  lemma OnlyStatusShows(digest: Digest, r: Receiver, a: Action)
    requires Sound(r) && !(a.Message? && a.payload.NotifySenderStatus?)
    ensures forall e :: e in Step(digest, r, a).out ==> !IsStatus(e)
  {
    match a
    case Message(TransmitChunk(data), fate) =>
      if r.state == RequestedChunk {
        BlockShows(digest, r, data, fate);
      }
    case UserRequest(path, localPath) => RequestLaw(r, path, localPath);
    case UserResume(path) => ResumeLaw(r, path);
    case _ =>
  }

  lemma BlockShows(digest: Digest, r: Receiver, data: Bytes, fate: WriteFate)
    requires Sound(r) && r.state == RequestedChunk
    ensures forall e :: e in ReceiveBlock(digest, r, data, fate).out ==> !IsStatus(e)
  {
    var q, e := r.requesting.value, Current(r);
    var disk := AfterWrite(r.disk, e.localPath, e.meta.size, q.offset, data, fate);
    BlockIs(digest, r, data, fate);
    AbsorbSound(r, disk, data);
    CompleteChunkShape(r.(disk := disk, requesting := Some(Absorb(q, data))));
  }

  /** What the user is shown after a run. */
  ghost function ShownAfter(digest: Digest, r: Receiver, actions: seq<Action>, shown: UserStatus): UserStatus
    decreases |actions|
  {
    if actions == [] then shown
    else
      var step := Step(digest, r, actions[0]);
      ShownAfter(digest, step.after, actions[1..], Show(step.out, shown))
  }

  /** The messages that arrive in a run. */
  function Arrivals(actions: seq<Action>): seq<Payload> {
    if actions == [] then []
    else (if actions[0].Message? then [actions[0].payload] else []) + Arrivals(actions[1..])
  }

  lemma StepShows(digest: Digest, r: Receiver, a: Action, shown: UserStatus)
    requires Sound(r)
    ensures Show(Step(digest, r, a).out, shown) ==
            if a.Message? && a.payload.NotifySenderStatus? then a.payload.status else shown
  {
    if a.Message? && a.payload.NotifySenderStatus? {
      ShownLaw(digest, r, [], a.payload.status, a.fate);
      assert [SenderConnected][1..] == [] && [SenderDisconnected][1..] == [];
    } else {
      OnlyStatusShows(digest, r, a);
      ShowNothing(Step(digest, r, a).out, shown);
    }
  }

  /** The last status so far, whichever way the next action adds to what has arrived. */
  lemma ArrivalsNext(actions: seq<Action>, before: seq<Payload>) returns (now: seq<Payload>)
    requires actions != []
    ensures now == before + if actions[0].Message? then [actions[0].payload] else []
    ensures now + Arrivals(actions[1..]) == before + Arrivals(actions)
    ensures VS.LastStatus(now) ==
            if actions[0].Message? && actions[0].payload.NotifySenderStatus? then actions[0].payload.status
            else VS.LastStatus(before)
  {
    if actions[0].Message? {
      now := before + [actions[0].payload];
      VS.LastStatusAppend(before, actions[0].payload);
      ConcatAssociates(before, [actions[0].payload], Arrivals(actions[1..]));
    } else {
      now := before;
      assert before + [] == before;
      assert Arrivals(actions) == Arrivals(actions[1..]);
    }
  }

  /** Over every run the user is shown the last status that has arrived. */
  lemma {:induction false} RunShows(digest: Digest, r: Receiver, actions: seq<Action>, before: seq<Payload>)
    requires Sound(r)
    ensures ShownAfter(digest, r, actions, VS.LastStatus(before)) == VS.LastStatus(before + Arrivals(actions))
    decreases |actions|
  {
    if actions == [] {
      assert before + [] == before;
    } else {
      StepSound(digest, r, actions[0]);
      StepShows(digest, r, actions[0], VS.LastStatus(before));
      var now := ArrivalsNext(actions, before);
      RunShows(digest, Step(digest, r, actions[0]).after, actions[1..], now);
    }
  }

  /**
   * From the server's channel to the user: after any announced run of the server, once a connected Receiver has been
   * delivered what was sent to it, whatever else it did meanwhile, its user is shown that the Sender is connected if
   * and only if a Sender is logged in.
   */
  lemma StatusReachesUser(
    s: V.Server, inputs: seq<V.Input>, x: V.Addr, digest: Digest, r: Receiver, actions: seq<Action>)
    requires VS.Safe(s) && VS.StatusTrue(s) && VS.AllAnnounced(s, inputs) && VS.OpenReceiver(V.Run(s, inputs), x)
    requires Sound(r) && Arrivals(actions) == V.Run(s, inputs).clients[x].sent
    ensures ShownAfter(digest, r, actions, Disconnected) == Connected <==>
            V.Exists(V.Run(s, inputs).clients, V.Sender)
  {
    VS.RunStatus(s, inputs);
    RunShows(digest, r, actions, []);
    assert [] + Arrivals(actions) == Arrivals(actions);
  }
}
