/**
 * A transfer delivers the file: the Receiver's local file ends up as the file that its metadata was made from, byte for
 * byte, whatever is published meanwhile. If no remote path is ever made of two files, nothing is assumed of the digest.
 */
module TransferExact {
  import opened Base
  import opened Metadata
  import opened EntryList
  import opened Messages
  import opened Pipeline
  import opened PipelineFlow
  import opened ReceiverPrefix
  import opened ReceiverIntegrity
  import opened TransferEnds
  import R = ReceiverModel
  import RS = ReceiverSafety
  import RP = ReceiverProgress
  import V = ServerModel

  /** The Sender's file that some metadata is about. */
  ghost function Original(w: World, m: Meta): Bytes {
    if Clear(w) && Genuine(w, m) then Content(w, m) else []
  }

  ghost function Originals(w: World): Origin {
    m => Original(w, m)
  }

  /** The Receiver's files are what its index says of them. */
  ghost predicate Faithful(w: World, s: System) {
    Trusted(w.digest, Originals(w), s.receiver)
  }

  /** The user starts no download into a file where another file's chunks are. */
  ghost predicate Considerate(s: System, a: Action) {
    match a
    case Request(path, localPath) => !InUse(s.receiver.index, path, localPath)
    case Resume(path) => ResumeFree(s.receiver.index, path)
    case _ => true
  }

  /** So it is when the Receiver is started for the first time. */
  lemma FaithfulBegins(w: World, s: System, disk: R.Disk)
    requires s.receiver == R.Start([], disk)
    ensures Faithful(w, s)
  {
  }

  // ---- The Receiver's files stay what its index says ----

  /** No block that is delivered completes a hash collision: when a chunk is complete, its bytes are the Sender's. */
  lemma BlockHonest(w: World, r: R.Receiver, f: Flight, data: Bytes, more: Bytes)
    requires Clear(w) && RS.Sound(r) && Phase(w, r, f) && data != [] && f.queued == data + more
    ensures NoCollision(w.digest, Originals(w), r, data)
  {
    var q, e, c, part := WhileMoving(w, r, f);
    Fed(f, f.(queued := more), q, data, part);
    assert Originals(w)(e.meta) == Content(w, e.meta);
  }

  lemma MessageAllowed(w: World, s: System)
    requires Flow(w, s) && RQueue(w, s) != []
    ensures Allowed(w.digest, Originals(w), s.receiver, R.Message(RQueue(w, s)[0], R.Written))
  {
    var p := RQueue(w, s)[0];
    assert p in RQueue(w, s);
    match p
    case TransmitChunk(data) =>
      assert Data(RQueue(w, s)) == data + Data(RQueue(w, s)[1..]);
      BlockHonest(w, s.receiver, InFlight(w, s), data, Data(RQueue(w, s)[1..]));
    case TransmitMeta(metas) =>
      forall m | m in metas
        ensures Describes(w.digest, m, Originals(w)(m))
      {
        GenuineDescribes(w, m);
      }
    case _ =>
  }

  lemma ReceiverFaithful(w: World, s: System, a: R.Action)
    requires Faithful(w, s) && Allowed(w.digest, Originals(w), s.receiver, a)
    ensures Faithful(w, ReceiverDoes(s, R.Step(w.digest, s.receiver, a)))
  {
    StepTrusted(w.digest, Originals(w), s.receiver, a);
  }

  lemma DeliveryFaithful(w: World, s: System)
    requires Flow(w, s) && Faithful(w, s) && RQueue(w, s) != []
    ensures Faithful(w, ReceiverDoes(s, Delivery(w, s)).(rRead := s.rRead + 1))
  {
    MessageAllowed(w, s);
    var a := R.Message(RQueue(w, s)[0], R.Written);
    ReceiverFaithful(w, s, a);
    assert Delivery(w, s) == R.Step(w.digest, s.receiver, a);
  }

  lemma StepFaithful(w: World, s: System, a: Action)
    requires Flow(w, s) && Faithful(w, s) && Enabled(w, s, a) && Considerate(s, a)
    ensures Faithful(w, Step(w, s, a))
  {
    match a
    case Request(path, localPath) => ReceiverFaithful(w, s, R.UserRequest(path, localPath));
    case Resume(path) => ReceiverFaithful(w, s, R.UserResume(path));
    case AskForMeta => ReceiverFaithful(w, s, R.AskForMeta);
    case ToReceiver => DeliveryFaithful(w, s);
    case _ => assert Step(w, s, a).receiver == s.receiver;
  }

  ghost predicate AllConsiderate(w: World, s: System, actions: seq<Action>)
    requires Possible(w, s, actions)
    decreases |actions|
  {
    actions != [] ==> Considerate(s, actions[0]) && AllConsiderate(w, Step(w, s, actions[0]), actions[1..])
  }

  lemma {:induction false} RunFaithful(w: World, s: System, actions: seq<Action>)
    requires Flow(w, s) && Faithful(w, s) && Possible(w, s, actions) && AllConsiderate(w, s, actions)
    ensures Flow(w, Run(w, s, actions)) && Faithful(w, Run(w, s, actions))
    decreases |actions|
  {
    if actions != [] {
      StepFlow(w, s, actions[0]);
      StepFaithful(w, s, actions[0]);
      RunFaithful(w, Step(w, s, actions[0]), actions[1..]);
    }
  }

  lemma CompleteIsExact(w: World, r: R.Receiver, e: Entry)
    requires Clear(w) && Trusted(w.digest, Originals(w), r) && Genuine(w, e.meta)
    requires e in r.index && e.meta.chunks != [] && |e.received| == |e.meta.chunks|
    ensures R.FileAt(r.disk, e.localPath) == Content(w, e.meta)
  {
    assert Segment(e);
    RS.SegmentNext(e);
    DownloadedIsExact(w.digest, Originals(w), r, e);
  }

  /** Whatever is completely received, at any point of any run, equals the Sender's file. */
  lemma DownloadsMatch(w: World, s: System, actions: seq<Action>, e: Entry)
    requires Flow(w, s) && Faithful(w, s) && Possible(w, s, actions) && AllConsiderate(w, s, actions)
    ensures var end := Run(w, s, actions).receiver;
            e in end.index && e.meta.chunks != [] && |e.received| == |e.meta.chunks| ==>
              Genuine(w, e.meta) && R.FileAt(end.disk, e.localPath) == Content(w, e.meta)
  {
    RunFaithful(w, s, actions);
    var end := Run(w, s, actions).receiver;
    if e in end.index && e.meta.chunks != [] && |e.received| == |e.meta.chunks| {
      CompleteIsExact(w, end, e);
    }
  }

  // ---- From the request to the file ----

  /** The entry at `path` is about `m` and stored at `localPath`. */
  ghost predicate Target(r: R.Receiver, path: string, m: Meta, localPath: string) {
    match FindEntry(r.index, path)
    case None => false
    case Some(e) => e.meta == m && e.localPath == localPath
  }

  /** The file that `m` is about is being downloaded to `localPath`, or is there. */
  ghost predicate Towards(w: World, r: R.Receiver, m: Meta, localPath: string)
    requires Clear(w) && Genuine(w, m)
  {
    if r.state == R.RequestedChunk then
      r.requesting.Some? && r.requesting.value.path == m.path && Target(r, m.path, m, localPath)
    else
      R.FileAt(r.disk, localPath) == Content(w, m)
  }

  /** After a block the same download goes on, or all its chunks are there. */
  lemma BlockTowards(digest: Digest, r: R.Receiver, data: Bytes, m: Meta, localPath: string)
    requires RS.Sound(r) && r.state == R.RequestedChunk && r.requesting.value.path == m.path &&
             Target(r, m.path, m, localPath)
    ensures var after := R.ReceiveBlock(digest, r, data, R.Written).after;
            && Target(after, m.path, m, localPath)
            && if after.state == R.RequestedChunk then after.requesting.Some? && after.requesting.value.path == m.path
               else |FindEntry(after.index, m.path).value.received| == |m.chunks| > 0
  {
    var q := r.requesting.value;
    var e := FindEntry(r.index, q.path).value;
    var h := HashedIn(r, q, e, data);
    RP.BlockProgress(digest, r, data, R.Written, m.path);
    RS.BlockIs(digest, r, data, R.Written);
    RS.AbsorbSound(r, h.disk, data);
    CountTowards(digest, h, e.meta.chunks[q.chunk]);
  }

  lemma CountTowards(digest: Digest, h: R.Receiver, c: Chunk)
    requires RS.Sound(h) && h.state == R.RequestedChunk
    ensures var q := h.requesting.value;
            var after := R.CountBlock(digest, h, q, c).after;
            if after.state == R.RequestedChunk then after.requesting.Some? && after.requesting.value.path == q.path
            else FindEntry(after.index, q.path) == Some(RS.Grown(h)) &&
                 |RS.Grown(h).received| == |RS.Grown(h).meta.chunks| > 0
  {
    RS.CompleteChunkShape(h);
  }

  lemma BlockKeepsTowards(w: World, s: System, after: R.Receiver, m: Meta, localPath: string)
    requires Flow(w, s) && RQueue(w, s) != [] && RQueue(w, s)[0].TransmitChunk?
    requires after == Delivery(w, s).after && Trusted(w.digest, Originals(w), after)
    requires Genuine(w, m) && Towards(w, s.receiver, m, localPath)
    ensures Towards(w, after, m, localPath)
  {
    var queue := RQueue(w, s);
    assert queue[0] in queue;
    assert Data(queue) == queue[0].data + Data(queue[1..]);
    var q, e, c, part := WhileMoving(w, s.receiver, InFlight(w, s));
    BlockTowards(w.digest, s.receiver, queue[0].data, m, localPath);
    if after.state != R.RequestedChunk {
      CompleteIsExact(w, after, FindEntry(after.index, m.path).value);
    }
  }

  lemma NoticeKeepsTowards(w: World, r: R.Receiver, p: Payload, after: R.Receiver, m: Meta, localPath: string)
    requires Clear(w) && RS.Sound(r) && !p.TransmitChunk? && after == R.ProcessMessage(w.digest, r, p, R.Written).after
    requires Genuine(w, m) && Towards(w, r, m, localPath)
    ensures Towards(w, after, m, localPath)
  {
    OtherMessage(w.digest, r, p);
  }

  lemma StepTowards(w: World, s: System, a: Action, m: Meta, localPath: string)
    requires Flow(w, s) && Faithful(w, s) && Enabled(w, s, a) && !a.Request? && !a.Resume?
    requires Genuine(w, m) && Towards(w, s.receiver, m, localPath)
    ensures Towards(w, Step(w, s, a).receiver, m, localPath)
  {
    var after := Step(w, s, a).receiver;
    if a.ToReceiver? {
      if RQueue(w, s)[0].TransmitChunk? {
        DeliveryFaithful(w, s);
        BlockKeepsTowards(w, s, after, m, localPath);
      } else {
        NoticeKeepsTowards(w, s.receiver, RQueue(w, s)[0], after, m, localPath);
      }
    } else {
      assert after == s.receiver;
    }
  }

  lemma {:induction false} RunTowards(w: World, s: System, actions: seq<Action>, m: Meta, localPath: string)
    requires Flow(w, s) && Faithful(w, s) && Possible(w, s, actions) && NoWishes(actions)
    requires Genuine(w, m) && Towards(w, s.receiver, m, localPath)
    ensures Towards(w, Run(w, s, actions).receiver, m, localPath)
    decreases |actions|
  {
    if actions != [] {
      assert actions[0] in actions;
      StepFlow(w, s, actions[0]);
      StepFaithful(w, s, actions[0]);
      StepTowards(w, s, actions[0], m, localPath);
      RunTowards(w, Step(w, s, actions[0]), actions[1..], m, localPath);
    }
  }

  /**
   * A download delivers the file. However its steps interleave with publications, withdrawals and traffic about
   * metadata: once the machinery is at rest, the Receiver has the Sender's file, unless the Sender refused a request on
   * the way.
   */
  lemma TransferDelivers(w: World, s: System, actions: seq<Action>, m: Meta, localPath: string)
    requires Flow(w, s) && Faithful(w, s) && Possible(w, s, actions) && NoWishes(actions)
    requires Genuine(w, m) && Towards(w, s.receiver, m, localPath) && !Stalled(w, s)
    requires AtRest(w, Run(w, s, actions))
    ensures var end := Run(w, s, actions);
            if RefusedOnTheWay(w, s, actions) then Stalled(w, end)
            else R.FileAt(end.receiver.disk, localPath) == Content(w, m)
  {
    RunSettles(w, s, actions);
    DownloadStallsIff(w, s, actions);
    RunTowards(w, s, actions, m, localPath);
  }

  lemma RequestAsks(r: R.Receiver, path: string, localPath: string)
    requires RS.Sound(r) && r.state == R.Idle
    requires FindEntry(r.index, path).Some? && FindEntry(r.index, path).value.meta.chunks != []
    ensures var result := R.RequestFile(r, path, localPath);
            && result.after.state == R.RequestedChunk
            && result.after.requesting.Some? && result.after.requesting.value.path == path
            && Target(result.after, path, FindEntry(r.index, path).value.meta, localPath)
            && Asks(Sends(result.out)) != []
  {
    var i := Find(r.index, path).value;
    ReplaceFind(r.index, i, r.index[i].(localPath := localPath, received := {}));
    var result := R.RequestFile(r, path, localPath);
    SendsOne(result.out, result.out[0].payload);
  }

  /** Requesting a file that is not empty puts its download under way. */
  lemma RequestStarts(w: World, s: System, path: string, localPath: string)
    requires Flow(w, s) && s.receiver.state == R.Idle && localPath != ""
    requires FindEntry(s.receiver.index, path).Some? && FindEntry(s.receiver.index, path).value.meta.chunks != []
    ensures var t := ReceiverDoes(s, R.RequestFile(s.receiver, path, localPath));
            var m := FindEntry(s.receiver.index, path).value.meta;
            Genuine(w, m) && Towards(w, t.receiver, m, localPath) && !Stalled(w, t)
  {
    assert FindEntry(s.receiver.index, path).value in s.receiver.index;
    RequestAsks(s.receiver, path, localPath);
    DoesFlight(w, s, R.RequestFile(s.receiver, path, localPath));
  }

  /**
   * The user asks for a file, and gets it: after the request, in any interleaving, once the machinery is at rest the
   * file under the name that the user chose is the Sender's, unless the Sender refused a request on the way.
   */
  lemma RequestDelivers(w: World, s: System, path: string, localPath: string, actions: seq<Action>)
    requires Flow(w, s) && Faithful(w, s) && s.receiver.state == R.Idle
    requires Enabled(w, s, Request(path, localPath)) && Considerate(s, Request(path, localPath))
    requires FindEntry(s.receiver.index, path).Some? && FindEntry(s.receiver.index, path).value.meta.chunks != []
    requires Possible(w, Step(w, s, Request(path, localPath)), actions) && NoWishes(actions)
    requires AtRest(w, Run(w, Step(w, s, Request(path, localPath)), actions))
    ensures var m := FindEntry(s.receiver.index, path).value.meta;
            var t := Step(w, s, Request(path, localPath));
            var end := Run(w, t, actions);
            Genuine(w, m) &&
            if RefusedOnTheWay(w, t, actions) then Stalled(w, end)
            else R.FileAt(end.receiver.disk, localPath) == Content(w, m)
  {
    var a := Request(path, localPath);
    StepFlow(w, s, a);
    StepFaithful(w, s, a);
    RequestStarts(w, s, path, localPath);
    TransferDelivers(w, Step(w, s, a), actions, FindEntry(s.receiver.index, path).value.meta, localPath);
  }

  // ---- When the Sender keeps offering the file ----

  /** The library has every chunk of `m` under its digest. */
  ghost predicate Offers(library: seq<Entry>, m: Meta) {
    forall k :: 0 <= k < |m.chunks| ==> Offered(library, m.path, k, m.chunks[k].hash)
  }

  ghost predicate OffersThroughout(w: World, s: System, actions: seq<Action>, m: Meta)
    requires Possible(w, s, actions)
    decreases |actions|
  {
    Offers(s.library, m) && (actions != [] ==> OffersThroughout(w, Step(w, s, actions[0]), actions[1..], m))
  }

  lemma NoRefusal(w: World, s: System, a: Action, m: Meta, localPath: string)
    requires Flow(w, s) && Enabled(w, s, a) && Genuine(w, m) && Towards(w, s.receiver, m, localPath) &&
             Offers(s.library, m)
    ensures !Refusal(w, s, a)
  {
    if a.ToSender? && SQueue(w, s)[0].RequestChunk? {
      assert Asks(SQueue(w, s)) == [SQueue(w, s)[0]] + Asks(SQueue(w, s)[1..]);
      var q, e, c, part := WhileAsking(w, s.receiver, InFlight(w, s));
      AskTaken(s.rUp, SQueue(w, s), InFlight(w, s).asks[0]);
    }
  }

  /** Publications of other files, or of the same one with the same chunk hashes, never get in the way of a download. */
  lemma {:induction false} OfferedNeverRefused(w: World, s: System, actions: seq<Action>, m: Meta, localPath: string)
    requires Flow(w, s) && Faithful(w, s) && Possible(w, s, actions) && NoWishes(actions)
    requires Genuine(w, m) && Towards(w, s.receiver, m, localPath) && OffersThroughout(w, s, actions, m)
    ensures !RefusedOnTheWay(w, s, actions)
    decreases |actions|
  {
    if actions != [] {
      assert actions[0] in actions;
      NoRefusal(w, s, actions[0], m, localPath);
      StepFlow(w, s, actions[0]);
      StepFaithful(w, s, actions[0]);
      StepTowards(w, s, actions[0], m, localPath);
      OfferedNeverRefused(w, Step(w, s, actions[0]), actions[1..], m, localPath);
    }
  }

  // ---- It can be done ----

  lemma MachineKeepsLibrary(w: World, s: System, a: Action)
    requires Enabled(w, s, a) && Machine(a)
    ensures Step(w, s, a).library == s.library
  {
  }

  lemma {:induction false} MachineOffers(w: World, s: System, actions: seq<Action>, m: Meta)
    requires Possible(w, s, actions) && AllMachine(actions) && Offers(s.library, m)
    ensures OffersThroughout(w, s, actions, m)
    decreases |actions|
  {
    if actions != [] {
      assert actions[0] in actions;
      MachineKeepsLibrary(w, s, actions[0]);
      MachineOffers(w, Step(w, s, actions[0]), actions[1..], m);
    }
  }

  /** A download under way, of a file that the Sender offers, is brought to its end by the machinery alone. */
  lemma TransferCanDeliver(w: World, s: System, m: Meta, localPath: string) returns (actions: seq<Action>)
    requires Flow(w, s) && Faithful(w, s) && !Stalled(w, s)
    requires Genuine(w, m) && Towards(w, s.receiver, m, localPath) && Offers(s.library, m)
    ensures Possible(w, s, actions) && AllMachine(actions) && AtRest(w, Run(w, s, actions))
    ensures R.FileAt(Run(w, s, actions).receiver.disk, localPath) == Content(w, m)
  {
    PotentialNat(w, s);
    actions := ComesToRest(w, s, Potential(w, s));
    OfferedArrives(w, s, actions, m, localPath);
  }

  lemma OfferedArrives(w: World, s: System, actions: seq<Action>, m: Meta, localPath: string)
    requires Flow(w, s) && Faithful(w, s) && !Stalled(w, s) && Possible(w, s, actions) && AllMachine(actions)
    requires Genuine(w, m) && Towards(w, s.receiver, m, localPath) && Offers(s.library, m)
    requires AtRest(w, Run(w, s, actions))
    ensures R.FileAt(Run(w, s, actions).receiver.disk, localPath) == Content(w, m)
  {
    assert NoWishes(actions);
    MachineOffers(w, s, actions, m);
    OfferedNeverRefused(w, s, actions, m, localPath);
    TransferDelivers(w, s, actions, m, localPath);
  }

  /** A file that the Sender offers can be had: a request, and then the machinery alone, bring it. */
  lemma RequestCanDeliver(w: World, s: System, path: string, localPath: string) returns (actions: seq<Action>)
    requires Flow(w, s) && Faithful(w, s) && s.receiver.state == R.Idle
    requires Enabled(w, s, Request(path, localPath)) && Considerate(s, Request(path, localPath))
    requires FindEntry(s.receiver.index, path).Some? && FindEntry(s.receiver.index, path).value.meta.chunks != []
    requires Offers(s.library, FindEntry(s.receiver.index, path).value.meta)
    ensures var t := Step(w, s, Request(path, localPath));
            && Possible(w, t, actions) && AllMachine(actions) && AtRest(w, Run(w, t, actions))
            && Genuine(w, FindEntry(s.receiver.index, path).value.meta)
            && R.FileAt(Run(w, t, actions).receiver.disk, localPath) ==
               Content(w, FindEntry(s.receiver.index, path).value.meta)
  {
    var a := Request(path, localPath);
    StepFlow(w, s, a);
    StepFaithful(w, s, a);
    RequestStarts(w, s, path, localPath);
    actions := TransferCanDeliver(w, Step(w, s, a), FindEntry(s.receiver.index, path).value.meta, localPath);
  }

  /**
   * From the first start of the Receiver, on a new server with whatever index was saved: whatever is completely
   * received, at any point of any run, equals the Sender's file.
   */
  lemma DownloadsMatchFromStart(
    w: World, server: V.Server, disk: R.Disk, library: seq<Entry>, now: i64, actions: seq<Action>, e: Entry)
    requires Clear(w) && server.clients == map[] && server.saved == server.index && server.running
    requires AllGenuine(w, server.index) && forall f :: f in library ==> f in w.catalog
    requires var s := System(R.Start([], disk), [], V.Run(server, Logins(w, server, now)), 0, 0, library, [], []);
             Possible(w, s, actions) && AllConsiderate(w, s, actions)
    ensures var s := System(R.Start([], disk), [], V.Run(server, Logins(w, server, now)), 0, 0, library, [], []);
            var end := Run(w, s, actions).receiver;
            e in end.index && e.meta.chunks != [] && |e.received| == |e.meta.chunks| ==>
              Genuine(w, e.meta) && R.FileAt(end.disk, e.localPath) == Content(w, e.meta)
  {
    RS.EmptyStartSound(disk);
    FlowBegins(w, server, R.Start([], disk), library, now);
    var s := System(R.Start([], disk), [], V.Run(server, Logins(w, server, now)), 0, 0, library, [], []);
    FaithfulBegins(w, s, disk);
    DownloadsMatch(w, s, actions, e);
  }
}
