/**
 * Conservation: every step of the system keeps the bytes of the requested chunk together, in order, whatever traffic
 * about metadata mixes with them.
 */
module PipelineFlow {
  import opened Base
  import opened Metadata
  import opened EntryList
  import opened Messages
  import opened Pipeline
  import R = ReceiverModel
  import RS = ReceiverSafety
  import V = ServerModel
  import VS = ServerSafety
  import W = ServerRelay
  import S = Sender

  // ---- The Receiver's wishes ----

  lemma {:induction false} SendsNone(out: seq<R.Event>)
    requires forall e :: e in out ==> !e.Send?
    ensures Sends(out) == []
  {
    if out != [] {
      assert out[0] in out;
      SendsNone(out[1..]);
    }
  }

  lemma SendsOne(out: seq<R.Event>, p: Payload)
    requires out != [] && out[0] == R.Send(p) && forall e :: e in out[1..] ==> !e.Send?
    ensures Sends(out) == [p]
    ensures Asks(Sends(out)) == if p.RequestChunk? then [p] else []
  {
    SendsNone(out[1..]);
    assert [p][1..] == [];
  }

  /** What a step of the Receiver puts in flight. */
  lemma DoesFlight(w: World, s: System, result: R.Result)
    ensures var t := ReceiverDoes(s, result);
            && RQueue(w, t) == RQueue(w, s) && SQueue(w, t) == SQueue(w, s)
            && InFlight(w, t) == InFlight(w, s).(asks := Asks(s.rUp) + Asks(Sends(result.out)) + Asks(SQueue(w, s)))
  {
    AsksConcat(s.rUp, Sends(result.out));
  }

  /** A step of the Receiver that sends no chunk request leaves everything in flight as it was. */
  lemma NothingAsked(w: World, s: System, result: R.Result)
    requires Asks(Sends(result.out)) == []
    ensures InFlight(w, ReceiverDoes(s, result)) == InFlight(w, s)
  {
    DoesFlight(w, s, result);
    assert Asks(s.rUp) + [] == Asks(s.rUp);
  }

  /** A download that starts asks for its chunk, and nothing is in flight yet; or it does not start. */
  lemma StartPhase(w: World, r: R.Receiver, f: Flight, path: string, chunk: nat, size: nat) returns (p: Payload)
    requires Clear(w) && r.state == R.Idle && f.asks == [] && Still(f)
    requires match FindEntry(r.index, path) case None => true case Some(e) => Genuine(w, e.meta) && e.localPath != ""
    ensures var started := R.StartDownload(r, path, chunk, size);
            && Phase(w, started.after, f.(asks := Asks(Sends(started.out))))
            && (Sends(started.out) == [] || Sends(started.out) == [p]) && MayAsk(p)
            && started.after.index == r.index
  {
    var started := R.StartDownload(r, path, chunk, size);
    p := RequestMeta(0);
    if started.verdict == R.Ok {
      p := RequestChunk(path, chunk, FindEntry(r.index, path).value.meta.chunks[chunk].hash);
      assert started.out == [R.Send(p), R.Started(path, size)];
      SendsOne(started.out, p);
    } else {
      assert started.out == [];
    }
  }

  /** The Receiver's side of a step. */
  lemma DoneOrderly(w: World, s: System, result: R.Result, p: Payload)
    requires Orderly(w, s) && AllGenuine(w, result.after.index)
    requires Sends(result.out) == [] || (Sends(result.out) == [p] && MayAsk(p))
    ensures Orderly(w, ReceiverDoes(s, result))
  {
    DoesFlight(w, s, result);
  }

  lemma DoneFlow(w: World, s: System, result: R.Result, p: Payload)
    requires Clear(w) && Linked(w, s) && Orderly(w, s) && AllGenuine(w, result.after.index)
    requires Sends(result.out) == [] || (Sends(result.out) == [p] && MayAsk(p))
    requires RS.Sound(result.after)
    requires Phase(w, result.after, InFlight(w, ReceiverDoes(s, result)))
    ensures Flow(w, ReceiverDoes(s, result))
  {
    DoneOrderly(w, s, result, p);
  }

  lemma StartedFlow(w: World, s: System, started: R.Result, p: Payload)
    requires Flow(w, s) && s.receiver.state == R.Idle && AllGenuine(w, started.after.index) && RS.Sound(started.after)
    requires Sends(started.out) == [] || (Sends(started.out) == [p] && MayAsk(p))
    requires Phase(w, started.after, InFlight(w, s).(asks := Asks(Sends(started.out))))
    ensures Flow(w, ReceiverDoes(s, started))
  {
    DoesFlight(w, s, started);
    assert Asks(s.rUp) == [] && Asks(SQueue(w, s)) == [];
    assert [] + Asks(Sends(started.out)) + [] == Asks(Sends(started.out));
    DoneFlow(w, s, started, p);
  }

  /** A wish of the user that leaves the Receiver idle, or starts a download. */
  lemma WishFlow(w: World, s: System, r: R.Receiver, path: string, chunk: nat, size: nat)
    requires Flow(w, s) && s.receiver.state == R.Idle && r.state == R.Idle && AllGenuine(w, r.index)
    requires match FindEntry(r.index, path) case None => true case Some(e) => e.localPath != ""
    requires RS.Sound(R.StartDownload(r, path, chunk, size).after)
    ensures Flow(w, ReceiverDoes(s, R.StartDownload(r, path, chunk, size)))
  {
    var p := StartPhase(w, r, InFlight(w, s), path, chunk, size);
    StartedFlow(w, s, R.StartDownload(r, path, chunk, size), p);
  }

  lemma FailFlow(w: World, s: System, error: R.ClientError)
    requires Flow(w, s)
    ensures Flow(w, ReceiverDoes(s, R.Fail(s.receiver, error)))
  {
    assert ReceiverDoes(s, R.Fail(s.receiver, error)) == s;
  }

  lemma MovedFlow(w: World, s: System, i: nat, moved: Entry, r: R.Receiver)
    requires Flow(w, s) && s.receiver.state == R.Idle && i < |s.receiver.index| && moved.localPath != ""
    requires moved == s.receiver.index[i].(localPath := moved.localPath, received := {})
    requires r == s.receiver.(index := s.receiver.index[i := moved], saved := s.receiver.index[i := moved])
    requires Unique(r.index)
    requires RS.Sound(R.StartDownload(r, moved.meta.path, 0, moved.meta.size).after)
    ensures Flow(w, ReceiverDoes(s, R.StartDownload(r, moved.meta.path, 0, moved.meta.size)))
  {
    FindUnique(r.index, i);
    MovedGenuine(w, s.receiver.index, i, moved);
    WishFlow(w, s, r, moved.meta.path, 0, moved.meta.size);
  }

  lemma MovedGenuine(w: World, entries: seq<Entry>, i: nat, moved: Entry)
    requires AllGenuine(w, entries) && i < |entries| && moved.meta == entries[i].meta
    ensures AllGenuine(w, entries[i := moved])
  {
    assert entries[i] in entries;
  }

  lemma RequestFlow(w: World, s: System, path: string, localPath: string)
    requires Flow(w, s) && localPath != ""
    ensures Flow(w, ReceiverDoes(s, R.RequestFile(s.receiver, path, localPath)))
  {
    var r := s.receiver;
    RS.RequestFileSound(r, path, localPath);
    if r.state != R.Idle {
      FailFlow(w, s, R.WrongState);
    } else if FindEntry(r.index, path).None? {
      FailFlow(w, s, R.NoSuchFile(path));
    } else {
      var i := Find(r.index, path).value;
      var moved := r.index[i].(localPath := localPath, received := {});
      ReplaceFind(r.index, i, moved);
      MovedFlow(w, s, i, moved, r.(index := r.index[i := moved], saved := r.index[i := moved]));
    }
  }

  lemma ResumeFlow(w: World, s: System, path: string)
    requires Flow(w, s) && Enabled(w, s, Resume(path))
    ensures Flow(w, ReceiverDoes(s, R.ResumeFile(s.receiver, path)))
  {
    var r := s.receiver;
    RS.ResumeFileSound(r, path);
    if r.state != R.Idle {
      FailFlow(w, s, R.WrongState);
    } else if FindEntry(r.index, path).None? {
      FailFlow(w, s, R.NoSuchFile(path));
    } else {
      var e := FindEntry(r.index, path).value;
      if R.FirstMissing(e).None? {
        FailFlow(w, s, R.FileIsDownloaded);
      } else {
        WishFlow(w, s, r, path, R.FirstMissing(e).value, e.meta.size);
      }
    }
  }

  lemma AskForMetaFlow(w: World, s: System, after: i64)
    requires Flow(w, s)
    ensures Flow(w, ReceiverDoes(s, R.RequestNewMeta(s.receiver, after)))
  {
    if s.receiver.state != R.Idle {
      FailFlow(w, s, R.WrongState);
    } else {
      var result := R.RequestNewMeta(s.receiver, after);
      SendsOne(result.out, RequestMeta(after));
      NothingAsked(w, s, result);
      DoneFlow(w, s, result, RequestMeta(after));
    }
  }

  // ---- The Sender's wishes ----

  lemma CreateFlow(w: World, s: System, e: Entry)
    requires Flow(w, s) && e in w.catalog
    ensures Flow(w, s.(library := AddEntry(s.library, e)))
  {
    CreatedIn(w, s.library, e);
    var t := s.(library := AddEntry(s.library, e));
    assert RQueue(w, t) == RQueue(w, s) && SQueue(w, t) == SQueue(w, s);
  }

  lemma OfferFlow(w: World, s: System, p: Payload)
    requires Flow(w, s) && MaySend(w, p) && !p.TransmitChunk?
    ensures Flow(w, s.(sUp := s.sUp + [p]))
  {
    NoiseAppend(s.sUp, p);
    var t := s.(sUp := s.sUp + [p]);
    assert RQueue(w, t) == RQueue(w, s) && SQueue(w, t) == SQueue(w, s);
    SentOrderly(w, s, t, p);
  }

  lemma PublishFlow(w: World, s: System, path: string)
    requires Flow(w, s)
    ensures Flow(w, s.(sUp := s.sUp + Published(s, path)))
  {
    if FindEntry(s.library, path).Some? {
      OfferFlow(w, s, PublishMeta(FindEntry(s.library, path).value.meta));
    } else {
      assert s.sUp + [] == s.sUp;
    }
  }

  // ---- The server's steps ----

  /** Messages that pass on in their queues, with at most one more in each, leave the queues in order. */
  lemma PassedOrderly(w: World, s: System, t: System, r: seq<Payload>, x: seq<Payload>)
    requires Orderly(w, s) && t.receiver == s.receiver && t.library == s.library && AllGenuine(w, t.server.index)
    requires (forall p :: p in r ==> MayReceive(w, p)) && (forall p :: p in x ==> MayCommand(p))
    requires RQueue(w, t) == RQueue(w, s) + r && SQueue(w, t) == SQueue(w, s) + x
    requires t.rUp == s.rUp || (s.rUp != [] && t.rUp == s.rUp[1..])
    requires t.sUp == s.sUp || (s.sUp != [] && t.sUp == s.sUp[1..])
    ensures Orderly(w, t)
  {
  }

  lemma ServeReceiverFlow(w: World, s: System, now: i64)
    requires Flow(w, s) && Enabled(w, s, ServeReceiver(now))
    ensures Flow(w, Step(w, s, ServeReceiver(now)))
  {
    var p := s.rUp[0];
    assert p in s.rUp;
    ServeRequest(w, s, p, now);
    var t := Step(w, s, ServeReceiver(now));
    var reply := if p.RequestMeta? then [Reply(s.server.index, p.after)] else [];
    ReplyGenuine(w, s.server.index, if p.RequestMeta? then p.after else 0);
    PassedOrderly(w, s, t, reply, if p.RequestChunk? then [p] else []);
    ServedInFlight(w, s, t, now);
  }

  lemma ServedInFlight(w: World, s: System, t: System, now: i64)
    requires Clear(w) && Phase(w, s.receiver, InFlight(w, s))
    requires s.rUp != [] && MayAsk(s.rUp[0]) && t.rUp == s.rUp[1..] && t.sUp == s.sUp && t.tasks == s.tasks
    requires RQueue(w, t) ==
             RQueue(w, s) + (if s.rUp[0].RequestMeta? then [Reply(s.server.index, s.rUp[0].after)] else [])
    requires SQueue(w, t) == SQueue(w, s) + (if s.rUp[0].RequestChunk? then [s.rUp[0]] else [])
    ensures InFlight(w, t) == InFlight(w, s)
  {
    var p := s.rUp[0];
    if p.RequestChunk? {
      assert Asks(s.rUp) == [p] + Asks(s.rUp[1..]);
      var ask := InFlight(w, s).asks[0];
      AskMoves(s.rUp, SQueue(w, s), ask);
      assert RQueue(w, s) + [] == RQueue(w, s);
    } else {
      NoiseAppend(RQueue(w, s), Reply(s.server.index, p.after));
      assert SQueue(w, s) + [] == SQueue(w, s);
      assert Asks(s.rUp) == [] + Asks(s.rUp[1..]);
    }
  }

  /** Bytes that move from one queue to the next. */
  lemma RelayConserves(to: seq<Payload>, from: seq<Payload>, rest: Bytes)
    requires from != [] && from[0].TransmitChunk?
    ensures Data(to + [from[0]]) + (Data(from[1..]) + rest) == Data(to) + (Data(from) + rest)
  {
    QueueAppend(to, from[0]);
    ConcatAssociates(from[0].data, Data(from[1..]), rest);
    ConcatAssociates(Data(to), from[0].data, Data(from[1..]) + rest);
  }

  /** What a step needs of the phase when it moves bytes about: a download is under way, and its bytes are conserved. */
  lemma WhileMoving(w: World, r: R.Receiver, f: Flight) returns (q: R.Requesting, e: Entry, c: Chunk, part: Bytes)
    requires Clear(w) && RS.Sound(r) && Phase(w, r, f) && !Still(f)
    ensures r.state == R.RequestedChunk && r.requesting == Some(q) && FindEntry(r.index, q.path) == Some(e)
    ensures e.localPath != "" && Genuine(w, e.meta) && q.chunk < |e.meta.chunks| && c == e.meta.chunks[q.chunk]
    ensures part == Part(Content(w, e.meta), c) && |part| == c.size && c.hash == w.digest(part)
    ensures Conserved(f, q, part) && q.offset == c.offset + |q.fed|
  {
    q := r.requesting.value;
    e := FindEntry(r.index, q.path).value;
    c := e.meta.chunks[q.chunk];
    part := Part(Content(w, e.meta), c);
    GenuineDescribes(w, e.meta);
    assert c in e.meta.chunks;
  }

  /** While a request is on its way. */
  lemma WhileAsking(w: World, r: R.Receiver, f: Flight) returns (q: R.Requesting, e: Entry, c: Chunk, part: Bytes)
    requires Clear(w) && RS.Sound(r) && Phase(w, r, f) && f.asks != []
    ensures r.state == R.RequestedChunk && r.requesting == Some(q) && FindEntry(r.index, q.path) == Some(e)
    ensures e.localPath != "" && Genuine(w, e.meta) && q.chunk < |e.meta.chunks| && c == e.meta.chunks[q.chunk]
    ensures part == Part(Content(w, e.meta), c) && |part| == c.size > 0
    ensures Asking(f, q, c)
  {
    q := r.requesting.value;
    e := FindEntry(r.index, q.path).value;
    c := e.meta.chunks[q.chunk];
    part := Part(Content(w, e.meta), c);
    GenuineDescribes(w, e.meta);
    assert c in e.meta.chunks;
  }

  /** With the bytes of the chunk conserved, so is the phase. */
  lemma StaysMoving(w: World, r: R.Receiver, f: Flight, q: R.Requesting, e: Entry)
    requires Clear(w) && r.state == R.RequestedChunk && r.requesting == Some(q) && FindEntry(r.index, q.path) == Some(e)
    requires e.localPath != "" && Genuine(w, e.meta) && q.chunk < |e.meta.chunks|
    requires Conserved(f, q, Part(Content(w, e.meta), e.meta.chunks[q.chunk]))
    ensures Phase(w, r, f)
  {
  }

  lemma ServeSenderFlow(w: World, s: System, now: i64)
    requires Flow(w, s) && Enabled(w, s, ServeSender(now))
    ensures Flow(w, Step(w, s, ServeSender(now)))
  {
    var p := s.sUp[0];
    assert p in s.sUp;
    ServeOffer(w, s, p, now);
    IndexGenuine(w, s.server.index, p, now);
    var t := Step(w, s, ServeSender(now));
    assert SQueue(w, s) + [] == SQueue(w, s);
    PassedOrderly(w, s, t, Passed(p, now), []);
    OfferedInFlight(w, s, t, now);
  }

  lemma OfferedInFlight(w: World, s: System, t: System, now: i64)
    requires Clear(w) && RS.Sound(s.receiver) && Phase(w, s.receiver, InFlight(w, s))
    requires s.sUp != [] && MaySend(w, s.sUp[0])
    requires t.rUp == s.rUp && t.sUp == s.sUp[1..] && t.tasks == s.tasks && SQueue(w, t) == SQueue(w, s)
    requires RQueue(w, t) == RQueue(w, s) + Passed(s.sUp[0], now)
    ensures Phase(w, s.receiver, InFlight(w, t))
  {
    if s.sUp[0].TransmitChunk? {
      BlockOffered(w, s, t);
    } else {
      OtherOffered(w, s, t, now);
    }
  }

  lemma BlockOffered(w: World, s: System, t: System)
    requires Clear(w) && RS.Sound(s.receiver) && Phase(w, s.receiver, InFlight(w, s))
    requires s.sUp != [] && s.sUp[0].TransmitChunk? && s.sUp[0].data != []
    requires t.rUp == s.rUp && t.sUp == s.sUp[1..] && t.tasks == s.tasks && SQueue(w, t) == SQueue(w, s)
    requires RQueue(w, t) == RQueue(w, s) + [s.sUp[0]]
    ensures Phase(w, s.receiver, InFlight(w, t))
  {
    var f := InFlight(w, s);
    assert Data(s.sUp) == s.sUp[0].data + Data(s.sUp[1..]);
    var q, e, c, part := WhileMoving(w, s.receiver, f);
    RelayConserves(RQueue(w, s), s.sUp, Unread(f.tasks[|f.tasks| - 1]));
    StaysMoving(w, s.receiver, InFlight(w, t), q, e);
  }

  lemma OtherOffered(w: World, s: System, t: System, now: i64)
    requires s.sUp != [] && !s.sUp[0].TransmitChunk?
    requires t.rUp == s.rUp && t.sUp == s.sUp[1..] && t.tasks == s.tasks && SQueue(w, t) == SQueue(w, s)
    requires RQueue(w, t) == RQueue(w, s) + Passed(s.sUp[0], now)
    ensures InFlight(w, t) == InFlight(w, s)
  {
    if s.sUp[0].PublishMeta? {
      NoiseAppend(RQueue(w, s), NotifyUpdated(now));
    } else {
      assert RQueue(w, s) + [] == RQueue(w, s);
    }
    assert Data(s.sUp) == [] + Data(s.sUp[1..]);
  }

  lemma OtherFlow(w: World, s: System, input: V.Input)
    requires Flow(w, s) && Enabled(w, s, Other(input))
    ensures Flow(w, Step(w, s, Other(input)))
  {
    ServeOther(w, s, input);
    assert InFlight(w, Step(w, s, Other(input))) == InFlight(w, s);
  }

  // ---- The Sender's transmissions ----

  /** The Sender's library has the requested chunk under the requested digest. */
  predicate Offered(library: seq<Entry>, path: string, chunk: nat, hash: u64) {
    match FindEntry(library, path)
    case None => false
    case Some(f) => chunk < |f.meta.chunks| && f.meta.chunks[chunk].hash == hash
  }

  /**
   * A transmission that begins reads exactly the bytes that the Receiver has asked for, whichever file they come from.
   */
  lemma BeginsRight(w: World, library: seq<Entry>, q: R.Requesting, e: Entry) returns (begin: S.Task)
    requires Clear(w) && (forall f :: f in library ==> f in w.catalog)
    requires Genuine(w, e.meta) && e.meta.path == q.path && q.chunk < |e.meta.chunks|
    requires Offered(library, q.path, q.chunk, e.meta.chunks[q.chunk].hash)
    ensures S.ProcessRequest(library, w.files, q.path, q.chunk, e.meta.chunks[q.chunk].hash) == S.Spawned(begin)
    ensures Sane(begin) && !S.Over(begin) && Unread(begin) == Part(Content(w, e.meta), e.meta.chunks[q.chunk])
  {
    var f, g := FindEntry(library, q.path).value, Source(w, Bare(e.meta));
    assert Sourced(w, f) && Sourced(w, g) && Agree(w, f, g);
    assert g.meta.chunks == e.meta.chunks;
    GenuineDescribes(w, e.meta);
    var c, d := e.meta.chunks[q.chunk], f.meta.chunks[q.chunk];
    assert d in f.meta.chunks && c in e.meta.chunks;
    assert Part(w.files[f.localPath], d) == Part(Content(w, e.meta), c);
    begin := S.Begin(w.files[f.localPath], d.offset, d.size);
    assert d.size == |Part(w.files[f.localPath], d)|;
  }

  lemma BeginConserved(f: Flight, g: Flight, q: R.Requesting, c: Chunk, part: Bytes, begin: S.Task)
    requires Asking(f, q, c) && part != [] && Sane(begin) && Unread(begin) == part
    requires g == Flight([], f.queued, f.sent, f.tasks + [begin])
    ensures Conserved(g, q, part)
  {
    assert g.tasks[..|g.tasks| - 1] == f.tasks;
    assert [] + ([] + ([] + part)) == part;
  }

  lemma ToSenderFlow(w: World, s: System)
    requires Flow(w, s) && Enabled(w, s, ToSender)
    ensures Flow(w, Step(w, s, ToSender))
  {
    var t := Step(w, s, ToSender);
    var queue := SQueue(w, s);
    assert SQueue(w, t) == queue[1..] && RQueue(w, t) == RQueue(w, s);
    if queue[0].RequestChunk? {
      RequestArrives(w, s, t);
    } else {
      assert Asks(queue) == [] + Asks(queue[1..]);
      assert InFlight(w, t) == InFlight(w, s);
    }
  }

  /** The request arrives: a transmission of just that chunk begins, or, if the chunk is not on offer, it is refused. */
  lemma RequestArrives(w: World, s: System, t: System)
    requires Clear(w) && RS.Sound(s.receiver) && Phase(w, s.receiver, InFlight(w, s))
    requires forall f :: f in s.library ==> f in w.catalog
    requires SQueue(w, s) != [] && SQueue(w, s)[0].RequestChunk? && SQueue(w, t) == SQueue(w, s)[1..]
    requires t.rUp == s.rUp && t.sUp == s.sUp && RQueue(w, t) == RQueue(w, s)
    requires t.tasks == SenderDoes(w, s, SQueue(w, s)[0])
    ensures s.receiver.requesting.Some? && Phase(w, s.receiver, InFlight(w, t))
    ensures var p := SQueue(w, s)[0];
            Refused(InFlight(w, t), s.receiver.requesting.value) <==> !Offered(s.library, p.path, p.index, p.hash)
  {
    var f, g := InFlight(w, s), InFlight(w, t);
    assert Asks(SQueue(w, s)) == [SQueue(w, s)[0]] + Asks(SQueue(w, s)[1..]);
    var q, e, c, part := WhileAsking(w, s.receiver, f);
    AskTaken(s.rUp, SQueue(w, s), f.asks[0]);
    assert g.asks == [] + [] == [];
    if Offered(s.library, q.path, q.chunk, c.hash) {
      var begin := BeginsRight(w, s.library, q, e);
      BeginConserved(f, g, q, c, part, begin);
      StaysMoving(w, s.receiver, g, q, e);
      assert g.tasks[|g.tasks| - 1] == begin && begin in g.tasks;
    } else {
      assert g.tasks == f.tasks;
    }
  }

  /** Reading a block moves its bytes from the file to the connection. */
  lemma ReadConserves(t: S.Task, n: nat)
    requires S.CanRead(t, n) && Sane(t)
    ensures n > 0 && S.Payload(t, n) != [] && Sane(S.Read(t, n))
    ensures S.Payload(t, n) + Unread(S.Read(t, n)) == Unread(t)
  {
    var end := t.pos + (t.size - t.count);
    var upto := t.pos + Min(t.size - t.count, n);
    assert S.Payload(t, n) == S.Span(t.file, t.pos, upto);
    S.SpansJoin(t.file, t.pos, upto, end);
  }

  /** No transmission but the last one can still read. */
  lemma EarlierOver(tasks: seq<S.Task>, j: nat)
    requires Reading(tasks) && j < |tasks|
    ensures j < |tasks| - 1 ==> S.Over(tasks[j])
  {
    if j < |tasks| - 1 {
      assert tasks[..|tasks| - 1][j] in tasks[..|tasks| - 1];
    }
  }

  lemma ReadFlight(f: Flight, g: Flight, q: R.Requesting, part: Bytes, j: nat, n: nat)
    requires Conserved(f, q, part) && j < |f.tasks| && S.CanRead(f.tasks[j], n)
    requires g == f.(sent := f.sent + S.Payload(f.tasks[j], n), tasks := f.tasks[j := S.Read(f.tasks[j], n)])
    ensures Conserved(g, q, part)
  {
    EarlierOver(f.tasks, j);
    ReadConserves(f.tasks[j], n);
    ConcatAssociates(f.sent, S.Payload(f.tasks[j], n), Unread(g.tasks[j]));
    assert g.tasks[..j] == f.tasks[..j];
  }

  lemma ReadPhase(w: World, r: R.Receiver, f: Flight, g: Flight, j: nat, n: nat)
    requires Clear(w) && RS.Sound(r) && Phase(w, r, f) && j < |f.tasks| && S.CanRead(f.tasks[j], n)
    requires g == f.(sent := f.sent + S.Payload(f.tasks[j], n), tasks := f.tasks[j := S.Read(f.tasks[j], n)])
    ensures Phase(w, r, g) && S.Payload(f.tasks[j], n) != []
  {
    assert f.tasks[j] in f.tasks;
    var q, e, c, part := WhileMoving(w, r, f);
    EarlierOver(f.tasks, j);
    ReadConserves(f.tasks[j], n);
    ReadFlight(f, g, q, part, j, n);
    StaysMoving(w, r, g, q, e);
  }

  lemma ReadBlockFlow(w: World, s: System, j: nat, n: nat)
    requires Flow(w, s) && Enabled(w, s, ReadBlock(j, n))
    ensures Flow(w, Step(w, s, ReadBlock(j, n)))
  {
    var p := TransmitChunk(S.Payload(s.tasks[j], n));
    QueueAppend(s.sUp, p);
    var t := Step(w, s, ReadBlock(j, n));
    assert RQueue(w, t) == RQueue(w, s) && SQueue(w, t) == SQueue(w, s);
    ReadPhase(w, s.receiver, InFlight(w, s), InFlight(w, t), j, n);
    SentOrderly(w, s, t, p);
  }

  lemma SentOrderly(w: World, s: System, t: System, p: Payload)
    requires Orderly(w, s) && MaySend(w, p)
    requires t == s.(sUp := s.sUp + [p], tasks := t.tasks)
    ensures Orderly(w, t)
  {
    assert RQueue(w, t) == RQueue(w, s) && SQueue(w, t) == SQueue(w, s);
  }

  // ---- Messages without blocks are delivered ----

  /** A message that is not a block does not touch the download: it neither starts, moves, nor ends one. */
  lemma OtherMessage(digest: Digest, r: R.Receiver, p: Payload)
    requires RS.Sound(r) && !p.TransmitChunk?
    ensures var result := R.ProcessMessage(digest, r, p, R.Written);
            && result.after.disk == r.disk && result.after.requesting == r.requesting
            && (r.state == R.RequestedChunk ==> result.after == r)
            && (r.state != R.RequestedChunk ==> result.after.state != R.RequestedChunk)
            && (result.out == [] || Sends(result.out) == [] || Sends(result.out) == [RequestMeta(r.lastUpdated)])
            && (forall e :: e in result.out ==> !e.Finished?)
            && (result.verdict == R.Ok || result.verdict == R.Err(R.WrongState) ||
               result.verdict == R.Err(R.NotSupported))
  {
    var result := R.ProcessMessage(digest, r, p, R.Written);
    if p.NotifyUpdated? && r.state == R.Idle && p.lastModified > r.lastUpdated {
      SendsOne(result.out, RequestMeta(r.lastUpdated));
    } else {
      SendsNone(result.out);
    }
  }

  lemma OtherGenuine(w: World, r: R.Receiver, p: Payload)
    requires RS.Sound(r) && !p.TransmitChunk? && MayReceive(w, p) && AllGenuine(w, r.index)
    ensures AllGenuine(w, R.ProcessMessage(w.digest, r, p, R.Written).after.index)
  {
    if p.TransmitMeta? && r.state == R.Idle {
      RS.AddAllMembers(r.index, p.metas);
    }
  }

  lemma NoticeFlow(w: World, s: System, t: System)
    requires Flow(w, s) && RQueue(w, s) != [] && !RQueue(w, s)[0].TransmitChunk?
    requires t == ReceiverDoes(s, Delivery(w, s)).(rRead := s.rRead + 1)
    ensures Flow(w, t)
  {
    var p := RQueue(w, s)[0];
    assert p in RQueue(w, s);
    OtherMessage(w.digest, s.receiver, p);
    OtherGenuine(w, s.receiver, p);
    RS.MessageSound(w.digest, s.receiver, p, R.Written);
    OtherDelivered(w, s, t, Delivery(w, s));
  }

  lemma OtherDelivered(w: World, s: System, t: System, result: R.Result)
    requires Flow(w, s) && RQueue(w, s) != [] && !RQueue(w, s)[0].TransmitChunk?
    requires t == ReceiverDoes(s, result).(rRead := s.rRead + 1)
    requires RS.Sound(result.after) && AllGenuine(w, result.after.index)
    requires s.receiver.state == R.RequestedChunk ==> result.after == s.receiver
    requires s.receiver.state != R.RequestedChunk ==> result.after.state != R.RequestedChunk
    requires Sends(result.out) == [] || Sends(result.out) == [RequestMeta(s.receiver.lastUpdated)]
    ensures Flow(w, t)
  {
    var u := ReceiverDoes(s, result);
    AsksNone(Sends(result.out), s.receiver.lastUpdated);
    NothingAsked(w, s, result);
    DoneFlow(w, s, result, RequestMeta(s.receiver.lastUpdated));
    ReadOn(w, u, t);
    assert Data(RQueue(w, u)) == [] + Data(RQueue(w, u)[1..]);
    assert InFlight(w, t) == InFlight(w, u);
  }

  lemma AsksNone(sends: seq<Payload>, after: i64)
    requires sends == [] || sends == [RequestMeta(after)]
    ensures Asks(sends) == []
  {
  }

  /** The Receiver's channel moves on by a message. */
  lemma ReadOn(w: World, u: System, t: System)
    requires Linked(w, u) && Orderly(w, u) && RQueue(w, u) != [] && t == u.(rRead := u.rRead + 1)
    ensures Linked(w, t) && Orderly(w, t) && RQueue(w, t) == RQueue(w, u)[1..] && SQueue(w, t) == SQueue(w, u)
  {
  }

  // ---- Blocks are delivered ----

  /** Bytes that are a prefix of the chunk and at least as long are the chunk, and nothing is left anywhere else. */
  lemma AllThere(fed: Bytes, queued: Bytes, relayed: Bytes, unread: Bytes, part: Bytes)
    requires fed + (queued + (relayed + unread)) == part && |fed| >= |part|
    ensures fed == part && queued == [] && relayed == [] && unread == []
  {
    assert |part| == |fed| + |queued| + |relayed| + |unread|;
    assert fed == (fed + (queued + (relayed + unread)))[..|fed|];
  }

  /** With nothing unread, every transmission is over. */
  lemma AllRead(tasks: seq<S.Task>)
    requires Reading(tasks) && Unread(tasks[|tasks| - 1]) == []
    ensures AllOver(tasks)
  {
    forall t | t in tasks
      ensures S.Over(t)
    {
      var j :| 0 <= j < |tasks| && tasks[j] == t;
      EarlierOver(tasks, j);
    }
  }

  /** The bytes of a block go from the channel to the hash. */
  lemma Fed(f: Flight, g: Flight, q: R.Requesting, data: Bytes, part: Bytes)
    requires Conserved(f, q, part) && f.queued == data + g.queued && g == f.(queued := g.queued)
    ensures var h := R.Absorb(q, data);
            if |h.fed| < |part| then Conserved(g, h, part) else h.fed == part && Still(g)
  {
    var h := R.Absorb(q, data);
    var rest := f.sent + Unread(f.tasks[|f.tasks| - 1]);
    ConcatAssociates(data, g.queued, rest);
    ConcatAssociates(q.fed, data, g.queued + rest);
    if |h.fed| >= |part| {
      AllThere(h.fed, g.queued, g.sent, Unread(g.tasks[|g.tasks| - 1]), part);
      AllRead(g.tasks);
    }
  }

  /** The Receiver once the block is on disk and hashed, before it looks whether the chunk is complete. */
  function HashedIn(r: R.Receiver, q: R.Requesting, e: Entry, data: Bytes): R.Receiver {
    r.(disk := R.AfterWrite(r.disk, e.localPath, e.meta.size, q.offset, data, R.Written),
       requesting := Some(R.Absorb(q, data)))
  }

  /** Recording a chunk leaves the metadata of every entry as it was. */
  lemma StillGenuine(w: World, h: R.Receiver, after: R.Receiver)
    requires h.requesting.Some? && FindEntry(h.index, h.requesting.value.path).Some? && AllGenuine(w, h.index)
    requires Unique(after.index)
    requires forall p :: FindEntry(after.index, p) ==
                         if p == h.requesting.value.path then Some(RS.Grown(h)) else FindEntry(h.index, p)
    ensures AllGenuine(w, after.index)
  {
    forall x | x in after.index
      ensures Genuine(w, x.meta)
    {
      var i :| 0 <= i < |after.index| && after.index[i] == x;
      FindUnique(after.index, i);
      assert FindEntry(after.index, x.meta.path) == Some(x);
    }
  }

  /**
   * After its last byte a chunk is recorded, and the next one asked for, or the file is finished; nothing is in flight.
   */
  lemma ChunkDone(w: World, h: R.Receiver, e: Entry, g: Flight) returns (p: Payload)
    requires Clear(w) && RS.Sound(h) && h.state == R.RequestedChunk && AllGenuine(w, h.index)
    requires FindEntry(h.index, h.requesting.value.path) == Some(e) && e.localPath != ""
    requires g.asks == [] && Still(g)
    ensures var done := R.CompleteChunk(h, h.requesting.value.path, h.requesting.value.chunk);
            && done.verdict == R.Ok && RS.Sound(done.after) && AllGenuine(w, done.after.index)
            && (Sends(done.out) == [] || Sends(done.out) == [p]) && MayAsk(p)
            && Phase(w, done.after, g.(asks := Asks(Sends(done.out))))
  {
    var q := h.requesting.value;
    var done := R.CompleteChunk(h, q.path, q.chunk);
    RS.CompleteChunkShape(h);
    StillGenuine(w, h, done.after);
    if q.chunk + 1 < |e.meta.chunks| {
      p := RequestChunk(q.path, q.chunk + 1, e.meta.chunks[q.chunk + 1].hash);
      assert done.out == [R.Send(p)];
      SendsOne(done.out, p);
      NextAsked(w, done.after, RS.Grown(h), g.(asks := [p]));
    } else {
      p := RequestMeta(0);
      SendsNone(done.out);
    }
  }

  /** The Receiver that has just asked for a chunk. */
  lemma NextAsked(w: World, r: R.Receiver, e: Entry, g: Flight)
    requires Clear(w) && RS.Sound(r) && r.state == R.RequestedChunk && AllGenuine(w, r.index)
    requires FindEntry(r.index, r.requesting.value.path) == Some(e) && e.localPath != "" && Still(g)
    requires var q := r.requesting.value;
             q.fed == [] && g.asks == [RequestChunk(q.path, q.chunk, e.meta.chunks[q.chunk].hash)]
    ensures Phase(w, r, g)
  {
    assert e in r.index;
  }

  /** What a block makes of the Receiver: it is hashed in, or completes its chunk; it never fails. */
  lemma BlockDelivered(w: World, r: R.Receiver, f: Flight, g: Flight, data: Bytes) returns (p: Payload)
    requires Clear(w) && RS.Sound(r) && AllGenuine(w, r.index) && Phase(w, r, f)
    requires data != [] && f.queued == data + g.queued && g == f.(queued := g.queued)
    ensures var result := R.ReceiveBlock(w.digest, r, data, R.Written);
            && result.verdict == R.Ok && RS.Sound(result.after) && AllGenuine(w, result.after.index)
            && (Sends(result.out) == [] || Sends(result.out) == [p]) && MayAsk(p)
            && Phase(w, result.after, g.(asks := Asks(Sends(result.out)))) && f.asks == []
  {
    var q, e, c, part := WhileMoving(w, r, f);
    var h := HashedIn(r, q, e, data);
    RS.BlockIs(w.digest, r, data, R.Written);
    RS.AbsorbSound(r, h.disk, data);
    Fed(f, g, q, data, part);
    p := BlockCounted(w, r, h, g, q, e, c, part, R.Absorb(q, data));
  }

  lemma BlockCounted(
    w: World, r: R.Receiver, h: R.Receiver, g: Flight, q: R.Requesting, e: Entry, c: Chunk, part: Bytes,
    a: R.Requesting)
    returns (p: Payload)
    requires Clear(w) && RS.Sound(h) && AllGenuine(w, h.index) && h.state == R.RequestedChunk
    requires h.requesting == Some(a) && FindEntry(h.index, a.path) == Some(e) && a.path == q.path && a.chunk == q.chunk
    requires e.localPath != "" && Genuine(w, e.meta) && q.chunk < |e.meta.chunks| && c == e.meta.chunks[q.chunk]
    requires part == Part(Content(w, e.meta), c) && |part| == c.size && c.hash == w.digest(part)
    requires g.asks == [] && if |a.fed| < |part| then Conserved(g, a, part) else a.fed == part && Still(g)
    ensures var result := R.CountBlock(w.digest, h, a, c);
            && result.verdict == R.Ok && RS.Sound(result.after) && AllGenuine(w, result.after.index)
            && (Sends(result.out) == [] || Sends(result.out) == [p]) && MayAsk(p)
            && Phase(w, result.after, g.(asks := Asks(Sends(result.out))))
  {
    if |a.fed| < |part| {
      p := RequestMeta(0);
      StaysMoving(w, h, g, a, e);
      assert g.(asks := []) == g;
    } else {
      p := ChunkDone(w, h, e, g);
    }
  }

  lemma BlockFlow(w: World, s: System, t: System)
    requires Flow(w, s) && RQueue(w, s) != [] && RQueue(w, s)[0].TransmitChunk?
    requires t == ReceiverDoes(s, Delivery(w, s)).(rRead := s.rRead + 1)
    ensures Flow(w, t) && Delivery(w, s).verdict == R.Ok
  {
    var queue := RQueue(w, s);
    var data := queue[0].data;
    assert queue[0] in queue;
    assert Data(queue) == data + Data(queue[1..]);
    var f := InFlight(w, s);
    var p := BlockDelivered(w, s.receiver, f, f.(queued := Data(queue[1..])), data);
    BlockTaken(w, s, t, Delivery(w, s), p);
  }

  /** What is in flight when nothing was asked for, a message has been taken, and `result` done. */
  lemma TakenInFlight(w: World, s: System, t: System, result: R.Result)
    requires Linked(w, s) && RQueue(w, s) != [] && InFlight(w, s).asks == []
    requires t == ReceiverDoes(s, result).(rRead := s.rRead + 1)
    ensures InFlight(w, t) == InFlight(w, s).(queued := Data(RQueue(w, s)[1..]), asks := Asks(Sends(result.out)))
  {
    DoesFlight(w, s, result);
    assert Asks(s.rUp) == [] && Asks(SQueue(w, s)) == [];
    assert [] + Asks(Sends(result.out)) + [] == Asks(Sends(result.out));
    assert RQueue(w, t) == RQueue(w, s)[1..] && SQueue(w, t) == SQueue(w, s);
  }

  lemma BlockTaken(w: World, s: System, t: System, result: R.Result, p: Payload)
    requires Clear(w) && Linked(w, s) && Orderly(w, s) && RQueue(w, s) != []
    requires t == ReceiverDoes(s, result).(rRead := s.rRead + 1)
    requires InFlight(w, s).asks == [] && RS.Sound(result.after) && AllGenuine(w, result.after.index)
    requires Sends(result.out) == [] || (Sends(result.out) == [p] && MayAsk(p))
    requires Phase(w, result.after,
                   InFlight(w, s).(queued := Data(RQueue(w, s)[1..]), asks := Asks(Sends(result.out))))
    ensures Flow(w, t)
  {
    DoneOrderly(w, s, result, p);
    ReadOn(w, ReceiverDoes(s, result), t);
    TakenInFlight(w, s, t, result);
  }

  lemma ToReceiverFlow(w: World, s: System)
    requires Flow(w, s) && Enabled(w, s, ToReceiver)
    ensures Flow(w, Step(w, s, ToReceiver))
  {
    if RQueue(w, s)[0].TransmitChunk? {
      BlockFlow(w, s, Step(w, s, ToReceiver));
    } else {
      NoticeFlow(w, s, Step(w, s, ToReceiver));
    }
  }

  // ---- Every run ----

  lemma StepFlow(w: World, s: System, a: Action)
    requires Flow(w, s) && Enabled(w, s, a)
    ensures Flow(w, Step(w, s, a))
  {
    match a
    case Request(path, localPath) => RequestFlow(w, s, path, localPath);
    case Resume(path) => ResumeFlow(w, s, path);
    case AskForMeta => AskForMetaFlow(w, s, LastUpdated(s.receiver.index));
    case Create(e) => CreateFlow(w, s, e);
    case Publish(path) => PublishFlow(w, s, path);
    case Withdraw(path) => OfferFlow(w, s, RemoveMeta(path));
    case ServeReceiver(now) => ServeReceiverFlow(w, s, now);
    case ServeSender(now) => ServeSenderFlow(w, s, now);
    case ToReceiver => ToReceiverFlow(w, s);
    case ToSender => ToSenderFlow(w, s);
    case ReadBlock(j, n) => ReadBlockFlow(w, s, j, n);
    case Other(input) => OtherFlow(w, s, input);
  }

  ghost predicate Possible(w: World, s: System, actions: seq<Action>)
    decreases |actions|
  {
    actions != [] ==> Enabled(w, s, actions[0]) && Possible(w, Step(w, s, actions[0]), actions[1..])
  }

  ghost function Run(w: World, s: System, actions: seq<Action>): System
    requires Possible(w, s, actions)
    decreases |actions|
  {
    if actions == [] then s else Run(w, Step(w, s, actions[0]), actions[1..])
  }

  /**
   * Over every run and interleaving: while a chunk is downloaded, its one request is on its way and no data is
   * anywhere; or the bytes hashed, in the two queues and not yet read are exactly the chunk, in order; or the Sender
   * has refused it. When the next chunk is requested, and when the Receiver is idle, no queue holds a byte.
   */
  lemma {:induction false} RunFlow(w: World, s: System, actions: seq<Action>)
    requires Flow(w, s) && Possible(w, s, actions)
    ensures Flow(w, Run(w, s, actions))
    decreases |actions|
  {
    if actions != [] {
      StepFlow(w, s, actions[0]);
      RunFlow(w, Step(w, s, actions[0]), actions[1..]);
    }
  }

  /**
   * On such a run no block fails: no digest is ever found wrong. Another message fails at most because it comes in a
   * state in which it is not expected, such as an update notice during a download, and then it changes nothing.
   */
  lemma DeliveriesSucceed(w: World, s: System, actions: seq<Action>)
    requires Flow(w, s) && Possible(w, s, actions)
    requires RQueue(w, Run(w, s, actions)) != []
    ensures var now := Run(w, s, actions);
            var verdict := Delivery(w, now).verdict;
            if RQueue(w, now)[0].TransmitChunk? then verdict == R.Ok
            else verdict == R.Ok || verdict == R.Err(R.WrongState) || verdict == R.Err(R.NotSupported)
  {
    RunFlow(w, s, actions);
    var now := Run(w, s, actions);
    if RQueue(w, now)[0].TransmitChunk? {
      BlockFlow(w, now, Step(w, now, ToReceiver));
    } else {
      OtherMessage(w.digest, now.receiver, RQueue(w, now)[0]);
    }
  }

  // ---- The beginning ----

  /** Two clients connect to a new server and log in, one as Receiver and one as Sender. */
  function Logins(w: World, s: V.Server, now: i64): seq<V.Input> {
    [V.Joined(w.ra), V.Incoming(w.ra, Login(AsReceiver, "", s.receiverToken), now),
     V.Joined(w.sa), V.Incoming(w.sa, Login(AsSender, "", s.senderToken), now)]
  }

  lemma RunFour(s: V.Server, i: V.Input, j: V.Input, k: V.Input, l: V.Input)
    ensures V.Run(s, [i, j, k, l]) == V.Step(V.Step(V.Step(V.Step(s, i), j), k), l)
  {
    RunOne(s, i, [j, k, l]);
    RunOne(V.Step(s, i), j, [k, l]);
    RunOne(V.Step(V.Step(s, i), j), k, [l]);
    RunOne(V.Step(V.Step(V.Step(s, i), j), k), l, []);
    assert [i] + [j, k, l] == [i, j, k, l] && [j] + [k, l] == [j, k, l] && [k] + [l] == [k, l] && [l] + [] == [l];
  }

  lemma RunOne(s: V.Server, i: V.Input, rest: seq<V.Input>)
    ensures V.Run(s, [i] + rest) == V.Run(V.Step(s, i), rest)
  {
    assert ([i] + rest)[1..] == rest;
  }

  /** The two are welcome, and the Receiver is told of the Sender. */
  lemma LoginsAccepted(w: World, s: V.Server, now: i64)
    requires s.clients == map[] && s.saved == s.index && s.running && w.ra != w.sa
    ensures var t := V.Run(s, Logins(w, s, now));
            && VS.Safe(t) && W.LoggedIn(t, w.ra, V.Receiver) && W.LoggedIn(t, w.sa, V.Sender) && t.index == s.index
            && t.clients[w.ra].sent == [LoginSuccess, NotifySenderStatus(Connected)]
            && t.clients[w.sa].sent == [LoginSuccess]
  {
    var a := V.Step(s, V.Joined(w.ra));
    var b := V.Step(a, V.Incoming(w.ra, Login(AsReceiver, "", s.receiverToken), now));
    var c := V.Step(b, V.Joined(w.sa));
    VS.StepSafe(s, V.Joined(w.ra));
    VS.StepSafe(a, V.Incoming(w.ra, Login(AsReceiver, "", s.receiverToken), now));
    assert a.clients == map[w.ra := V.Client(w.ra, V.Unidentified, [], true, false)];
    ReceiverAccepted(w, a, now);
    assert b.clients == map[w.ra := V.Client(w.ra, V.Receiver, [LoginSuccess], true, false)];
    VS.StepSafe(b, V.Joined(w.sa));
    SenderAccepted(w, c, now);
    RunFour(s, V.Joined(w.ra), V.Incoming(w.ra, Login(AsReceiver, "", s.receiverToken), now),
            V.Joined(w.sa), V.Incoming(w.sa, Login(AsSender, "", s.senderToken), now));
  }

  lemma ReceiverAccepted(w: World, a: V.Server, now: i64)
    requires a.running && a.clients == map[w.ra := V.Client(w.ra, V.Unidentified, [], true, false)]
    ensures V.Step(a, V.Incoming(w.ra, Login(AsReceiver, "", a.receiverToken), now)) ==
            a.(clients := map[w.ra := V.Client(w.ra, V.Receiver, [LoginSuccess], true, false)])
  {
    var identified := a.(clients := a.clients[w.ra := a.clients[w.ra].(role := V.Receiver)]);
    assert !V.Exists(a.clients, V.Receiver) && !V.Exists(identified.clients, V.Sender);
    assert [] + [LoginSuccess] == [LoginSuccess];
    assert V.SendTo(identified, w.ra, LoginSuccess).after.clients ==
           map[w.ra := V.Client(w.ra, V.Receiver, [LoginSuccess], true, false)];
  }

  lemma SenderAccepted(w: World, c: V.Server, now: i64)
    requires VS.Safe(c) && c.running && w.ra != w.sa
    requires c.clients == map[w.ra := V.Client(w.ra, V.Receiver, [LoginSuccess], true, false),
                              w.sa := V.Client(w.sa, V.Unidentified, [], true, false)]
    ensures var t := V.Step(c, V.Incoming(w.sa, Login(AsSender, "", c.senderToken), now));
            && VS.Safe(t) && W.LoggedIn(t, w.ra, V.Receiver) && W.LoggedIn(t, w.sa, V.Sender) && t.index == c.index
            && t.clients[w.ra].sent == [LoginSuccess, NotifySenderStatus(Connected)]
            && t.clients[w.sa].sent == [LoginSuccess]
  {
    var i := V.Incoming(w.sa, Login(AsSender, "", c.senderToken), now);
    VS.StepSafe(c, i);
    assert !V.Exists(c.clients, V.Sender);
    var identified := c.(clients := c.clients[w.sa := c.clients[w.sa].(role := V.Sender)]);
    assert VS.Safe(identified);
    var welcomed := V.SendTo(identified, w.sa, LoginSuccess).after;
    VS.SendToSafe(identified, w.sa, LoginSuccess);
    VS.ByRoleIs(welcomed, w.ra);
    assert welcomed.clients[w.ra].sent + [NotifySenderStatus(Connected)] ==
           [LoginSuccess, NotifySenderStatus(Connected)];
    assert [] + [LoginSuccess] == [LoginSuccess];
  }

  lemma GreetingsQuiet(queue: seq<Payload>)
    requires queue == [LoginSuccess] || queue == [LoginSuccess, NotifySenderStatus(Connected)]
    ensures Data(queue) == [] && Asks(queue) == []
    ensures forall p :: p in queue ==> p.LoginSuccess? || p.NotifySenderStatus?
  {
    assert Data(queue) == [] + Data(queue[1..]) && Asks(queue) == [] + Asks(queue[1..]);
    if |queue| == 2 {
      assert queue[1..] == [NotifySenderStatus(Connected)];
      assert Data(queue[1..]) == [] + Data(queue[1..][1..]) && Asks(queue[1..]) == [] + Asks(queue[1..][1..]);
    }
  }

  /** So there is a beginning: a program that has just started, on a new server with whatever index was saved. */
  lemma FlowBegins(w: World, s: V.Server, r: R.Receiver, library: seq<Entry>, now: i64)
    requires Clear(w) && s.clients == map[] && s.saved == s.index && s.running && AllGenuine(w, s.index)
    requires RS.Sound(r) && r.state == R.Initializing && AllGenuine(w, r.index)
    requires forall f :: f in library ==> f in w.catalog
    ensures var t := System(r, [], V.Run(s, Logins(w, s, now)), 0, 0, library, [], []);
            && Flow(w, t) && t.server.index == s.index
            && RQueue(w, t) == [LoginSuccess, NotifySenderStatus(Connected)]
  {
    LoginsAccepted(w, s, now);
    Begins(w, V.Run(s, Logins(w, s, now)), r, library);
  }

  lemma Begins(w: World, server: V.Server, r: R.Receiver, library: seq<Entry>)
    requires Clear(w) && VS.Safe(server) && AllGenuine(w, server.index)
    requires W.LoggedIn(server, w.ra, V.Receiver) && W.LoggedIn(server, w.sa, V.Sender)
    requires server.clients[w.ra].sent == [LoginSuccess, NotifySenderStatus(Connected)]
    requires server.clients[w.sa].sent == [LoginSuccess]
    requires RS.Sound(r) && r.state == R.Initializing && AllGenuine(w, r.index)
    requires forall f :: f in library ==> f in w.catalog
    ensures var t := System(r, [], server, 0, 0, library, [], []);
            Flow(w, t) && RQueue(w, t) == [LoginSuccess, NotifySenderStatus(Connected)]
  {
    var t := System(r, [], server, 0, 0, library, [], []);
    GreetingsQuiet(RQueue(w, t));
    GreetingsQuiet(SQueue(w, t));
    assert InFlight(w, t) == Flight([], [], [], []);
  }
}
