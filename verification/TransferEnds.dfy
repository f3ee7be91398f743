/**
 * A transfer always ends: every step of the machinery uses up work that is fixed when the download starts, but for what
 * users add by publishing and asking; and when the machinery has nothing left to do, the download is over: finished, or
 * refused by the Sender.
 */
module TransferEnds {
  import opened Base
  import opened Metadata
  import opened EntryList
  import opened Messages
  import opened Pipeline
  import opened PipelineFlow
  import R = ReceiverModel
  import RS = ReceiverSafety
  import V = ServerModel
  import S = Sender

  /** The steps that happen by themselves: serving, delivering and reading. */
  predicate Machine(a: Action) {
    a.ServeReceiver? || a.ServeSender? || a.ToReceiver? || a.ToSender? || a.ReadBlock?
  }

  // ---- The work left ----

  /** The steps that a message beside blocks and chunk requests can still cause. */
  function Weight(p: Payload): nat {
    match p
    case PublishMeta(_) => 4
    case NotifyUpdated(_) => 3
    case RequestMeta(_) => 2
    case RequestChunk(_, _, _) => 0
    case TransmitChunk(_) => 0
    case _ => 1
  }

  function Noise(messages: seq<Payload>): nat {
    if messages == [] then 0 else Weight(messages[0]) + Noise(messages[1..])
  }

  function Chatter(w: World, s: System): nat {
    Noise(s.rUp) + Noise(s.sUp) + Noise(RQueue(w, s)) + Noise(SQueue(w, s))
  }

  /** How far chunk requests still have to go. */
  function Hops(w: World, s: System): nat {
    2 * |Asks(s.rUp)| + |Asks(SQueue(w, s))|
  }

  /** The work left for a chunk: three steps for every byte to be read, two once it is sent, one once it is relayed. */
  function Local(f: Flight, hops: nat, c: Chunk): nat {
    if f.asks != [] then 3 * c.size + hops
    else |f.queued| + 2 * |f.sent| + if f.tasks == [] then 0 else 3 * |Unread(f.tasks[|f.tasks| - 1])|
  }

  /** The work left for the chunks after chunk `k`: their bytes, and a request each. */
  function Later(m: Meta, k: nat): int
    requires k < |m.chunks|
  {
    3 * (m.size - (m.chunks[k].offset + m.chunks[k].size)) + 3 * (|m.chunks| - 1 - k)
  }

  /** The work left until the download in progress is finished. */
  function Work(r: R.Receiver, f: Flight, hops: nat): int {
    if r.state != R.RequestedChunk || r.requesting.None? then 0
    else
      var q := r.requesting.value;
      match FindEntry(r.index, q.path)
      case None => 0
      case Some(e) =>
        if q.chunk < |e.meta.chunks| then Later(e.meta, q.chunk) + Local(f, hops, e.meta.chunks[q.chunk]) else 0
  }

  function Potential(w: World, s: System): int {
    Work(s.receiver, InFlight(w, s), Hops(w, s)) + Chatter(w, s)
  }

  lemma LaterNat(m: Meta, k: nat)
    requires Tiled(m.chunks, m.size) && k < |m.chunks|
    ensures Later(m, k) >= 0
    ensures k + 1 < |m.chunks| ==> Later(m, k) == Later(m, k + 1) + 3 * m.chunks[k + 1].size + 3
  {
    assert Abuts(m.chunks, m.size, k);
    EdgesAscend(m.chunks, m.size, k + 1, |m.chunks|);
    if k + 1 < |m.chunks| {
      assert Abuts(m.chunks, m.size, k + 1);
    }
  }

  lemma PotentialNat(w: World, s: System)
    requires Flow(w, s)
    ensures Potential(w, s) >= 0
  {
    if s.receiver.state == R.RequestedChunk {
      var q := s.receiver.requesting.value;
      var e := FindEntry(s.receiver.index, q.path).value;
      GenuineDescribes(w, e.meta);
      LaterNat(e.meta, q.chunk);
    }
  }

  lemma {:induction false} NoiseConcat(a: seq<Payload>, b: seq<Payload>)
    ensures Noise(a + b) == Noise(a) + Noise(b)
  {
    if a == [] {
      assert a + b == b;
    } else {
      NoiseConcat(a[1..], b);
      assert (a + b)[0] == a[0] && (a + b)[1..] == a[1..] + b;
    }
  }

  lemma NoiseOne(p: Payload)
    ensures Noise([p]) == Weight(p) && Noise([]) == 0
  {
    assert [p][1..] == [];
  }

  lemma WorkIs(r: R.Receiver, f: Flight, hops: nat, q: R.Requesting, e: Entry)
    requires r.state == R.RequestedChunk && r.requesting == Some(q) && FindEntry(r.index, q.path) == Some(e)
    requires q.chunk < |e.meta.chunks|
    ensures Work(r, f, hops) == Later(e.meta, q.chunk) + Local(f, hops, e.meta.chunks[q.chunk])
  {
  }

  lemma NoiseTaken(queue: seq<Payload>)
    requires queue != []
    ensures Noise(queue) == Weight(queue[0]) + Noise(queue[1..])
    ensures Data(queue) == (if queue[0].TransmitChunk? then queue[0].data else []) + Data(queue[1..])
    ensures Asks(queue) == (if queue[0].RequestChunk? then [queue[0]] else []) + Asks(queue[1..])
  {
  }

  lemma NoiseGiven(queue: seq<Payload>, p: Payload)
    ensures Noise(queue + [p]) == Noise(queue) + Weight(p)
    ensures Data(queue + [p]) == Data(queue) + if p.TransmitChunk? then p.data else []
    ensures Asks(queue + [p]) == Asks(queue) + if p.RequestChunk? then [p] else []
  {
    NoiseConcat(queue, [p]);
    NoiseOne(p);
    QueueAppend(queue, p);
  }

  // ---- Serving ----

  lemma ServeReceiverWorks(w: World, s: System, now: i64)
    requires Flow(w, s) && Enabled(w, s, ServeReceiver(now))
    ensures Potential(w, Step(w, s, ServeReceiver(now))) < Potential(w, s)
  {
    var p := s.rUp[0];
    assert p in s.rUp;
    ServeRequest(w, s, p, now);
    var t := Step(w, s, ServeReceiver(now));
    if p.RequestChunk? {
      assert RQueue(w, t) == RQueue(w, s);
      AskServed(w, s, t);
    } else {
      assert SQueue(w, t) == SQueue(w, s);
      MetaServed(w, s, t);
    }
  }

  lemma AskServed(w: World, s: System, t: System)
    requires Clear(w) && RS.Sound(s.receiver) && Phase(w, s.receiver, InFlight(w, s))
    requires s.rUp != [] && s.rUp[0].RequestChunk? && t.rUp == s.rUp[1..]
    requires t.receiver == s.receiver && t.sUp == s.sUp && t.tasks == s.tasks
    requires RQueue(w, t) == RQueue(w, s) && SQueue(w, t) == SQueue(w, s) + [s.rUp[0]]
    ensures Potential(w, t) < Potential(w, s)
  {
    var f, g := InFlight(w, s), InFlight(w, t);
    NoiseTaken(s.rUp);
    NoiseGiven(SQueue(w, s), s.rUp[0]);
    var q, e, c, part := WhileAsking(w, s.receiver, f);
    AskMoves(s.rUp, SQueue(w, s), f.asks[0]);
    WorkIs(s.receiver, f, Hops(w, s), q, e);
    WorkIs(s.receiver, g, Hops(w, t), q, e);
    assert g == f && Hops(w, t) == Hops(w, s) - 1;
  }

  lemma MetaServed(w: World, s: System, t: System)
    requires s.rUp != [] && s.rUp[0].RequestMeta? && t.rUp == s.rUp[1..]
    requires t.receiver == s.receiver && t.sUp == s.sUp && t.tasks == s.tasks
    requires RQueue(w, t) == RQueue(w, s) + [Reply(s.server.index, s.rUp[0].after)] && SQueue(w, t) == SQueue(w, s)
    ensures Potential(w, t) < Potential(w, s)
  {
    NoiseTaken(s.rUp);
    assert Asks(s.rUp) == Asks(t.rUp);
    ReplyGiven(RQueue(w, s), s.server.index, s.rUp[0].after);
    assert InFlight(w, t) == InFlight(w, s) && Hops(w, t) == Hops(w, s);
  }

  lemma ReplyGiven(queue: seq<Payload>, index: seq<Entry>, after: i64)
    ensures var longer := queue + [Reply(index, after)];
            Noise(longer) == Noise(queue) + 1 && Data(longer) == Data(queue)
  {
    NoiseGiven(queue, Reply(index, after));
  }

  lemma ServeSenderWorks(w: World, s: System, now: i64)
    requires Flow(w, s) && Enabled(w, s, ServeSender(now))
    ensures Potential(w, Step(w, s, ServeSender(now))) < Potential(w, s)
  {
    var p := s.sUp[0];
    assert p in s.sUp;
    ServeOffer(w, s, p, now);
    var t := Step(w, s, ServeSender(now));
    if p.TransmitChunk? {
      BlockServed(w, s, t);
    } else {
      OfferServed(w, s, t, now);
    }
  }

  lemma BlockServed(w: World, s: System, t: System)
    requires Clear(w) && RS.Sound(s.receiver) && Phase(w, s.receiver, InFlight(w, s))
    requires s.sUp != [] && s.sUp[0].TransmitChunk? && s.sUp[0].data != [] && t.sUp == s.sUp[1..]
    requires t.receiver == s.receiver && t.rUp == s.rUp && t.tasks == s.tasks
    requires RQueue(w, t) == RQueue(w, s) + [s.sUp[0]] && SQueue(w, t) == SQueue(w, s)
    ensures Potential(w, t) < Potential(w, s)
  {
    var f, g := InFlight(w, s), InFlight(w, t);
    NoiseTaken(s.sUp);
    NoiseGiven(RQueue(w, s), s.sUp[0]);
    var q, e, c, part := WhileMoving(w, s.receiver, f);
    WorkIs(s.receiver, f, Hops(w, s), q, e);
    WorkIs(s.receiver, g, Hops(w, t), q, e);
    assert |g.sent| == |f.sent| - |s.sUp[0].data| && |g.queued| == |f.queued| + |s.sUp[0].data|;
  }

  lemma OfferServed(w: World, s: System, t: System, now: i64)
    requires s.sUp != [] && (s.sUp[0].PublishMeta? || s.sUp[0].RemoveMeta?) && t.sUp == s.sUp[1..]
    requires t.receiver == s.receiver && t.rUp == s.rUp && t.tasks == s.tasks
    requires RQueue(w, t) == RQueue(w, s) + Passed(s.sUp[0], now) && SQueue(w, t) == SQueue(w, s)
    ensures Potential(w, t) < Potential(w, s)
  {
    NoiseTaken(s.sUp);
    NoiseGiven(RQueue(w, s), NotifyUpdated(now));
    assert RQueue(w, s) + [] == RQueue(w, s);
    assert InFlight(w, t) == InFlight(w, s) && Hops(w, t) == Hops(w, s);
  }

  // ---- The Sender's steps ----

  lemma ArrivalIs(w: World, s: System)
    requires Linked(w, s) && SQueue(w, s) != []
    ensures var t := Step(w, s, ToSender);
            && SQueue(w, t) == SQueue(w, s)[1..] && RQueue(w, t) == RQueue(w, s)
            && t.receiver == s.receiver && t.rUp == s.rUp && t.sUp == s.sUp && t.library == s.library
            && t.tasks == SenderDoes(w, s, SQueue(w, s)[0])
  {
  }

  lemma ToSenderWorks(w: World, s: System)
    requires Flow(w, s) && Enabled(w, s, ToSender)
    ensures Potential(w, Step(w, s, ToSender)) < Potential(w, s)
  {
    var p := SQueue(w, s)[0];
    assert p in SQueue(w, s);
    ArrivalIs(w, s);
    if p.RequestChunk? {
      AskArrived(w, s, Step(w, s, ToSender));
    } else {
      OtherArrived(w, s, Step(w, s, ToSender));
    }
  }

  lemma OtherArrived(w: World, s: System, t: System)
    requires SQueue(w, s) != [] && SQueue(w, t) == SQueue(w, s)[1..] && RQueue(w, t) == RQueue(w, s)
    requires Weight(SQueue(w, s)[0]) > 0
    requires t.receiver == s.receiver && t.rUp == s.rUp && t.sUp == s.sUp && t.tasks == s.tasks
    ensures Potential(w, t) < Potential(w, s)
  {
    NoiseTaken(SQueue(w, s));
    assert InFlight(w, t) == InFlight(w, s) && Hops(w, t) == Hops(w, s);
  }

  lemma AskArrived(w: World, s: System, t: System)
    requires Clear(w) && RS.Sound(s.receiver) && Phase(w, s.receiver, InFlight(w, s))
    requires forall f :: f in s.library ==> f in w.catalog
    requires SQueue(w, s) != [] && SQueue(w, s)[0].RequestChunk?
    requires SQueue(w, t) == SQueue(w, s)[1..] && RQueue(w, t) == RQueue(w, s)
    requires t.receiver == s.receiver && t.rUp == s.rUp && t.sUp == s.sUp &&
             t.tasks == SenderDoes(w, s, SQueue(w, s)[0])
    ensures Potential(w, t) < Potential(w, s)
  {
    var f, g := InFlight(w, s), InFlight(w, t);
    NoiseTaken(SQueue(w, s));
    var q, e, c, part := WhileAsking(w, s.receiver, f);
    AskTaken(s.rUp, SQueue(w, s), f.asks[0]);
    WorkIs(s.receiver, f, Hops(w, s), q, e);
    WorkIs(s.receiver, g, Hops(w, t), q, e);
    if Offered(s.library, q.path, q.chunk, c.hash) {
      var begin := BeginsRight(w, s.library, q, e);
      assert g.tasks[|g.tasks| - 1] == begin;
    } else {
      assert g.tasks == f.tasks;
      assert g.tasks != [] ==> g.tasks[|g.tasks| - 1] in g.tasks;
    }
  }

  /** What a read changes: the block goes out, and only that. */
  lemma ReadIs(w: World, s: System, j: nat, n: nat)
    requires Enabled(w, s, ReadBlock(j, n))
    ensures var t := Step(w, s, ReadBlock(j, n));
            && t.receiver == s.receiver && Hops(w, t) == Hops(w, s) && Chatter(w, t) == Chatter(w, s)
            && InFlight(w, t) == InFlight(w, s).(sent := Data(s.sUp) + S.Payload(s.tasks[j], n),
                                                 tasks := s.tasks[j := S.Read(s.tasks[j], n)])
  {
    var t := Step(w, s, ReadBlock(j, n));
    assert RQueue(w, t) == RQueue(w, s) && SQueue(w, t) == SQueue(w, s);
    NoiseGiven(s.sUp, TransmitChunk(S.Payload(s.tasks[j], n)));
  }

  lemma ReadBlockWorks(w: World, s: System, j: nat, n: nat)
    requires Flow(w, s) && Enabled(w, s, ReadBlock(j, n))
    ensures Potential(w, Step(w, s, ReadBlock(j, n))) < Potential(w, s)
  {
    ReadIs(w, s, j, n);
    ReadFlightWorks(w, s.receiver, InFlight(w, s), InFlight(w, Step(w, s, ReadBlock(j, n))), j, n, Hops(w, s));
  }

  lemma ReadFlightWorks(w: World, r: R.Receiver, f: Flight, g: Flight, j: nat, n: nat, hops: nat)
    requires Clear(w) && RS.Sound(r) && Phase(w, r, f) && j < |f.tasks| && S.CanRead(f.tasks[j], n)
    requires g == f.(sent := f.sent + S.Payload(f.tasks[j], n), tasks := f.tasks[j := S.Read(f.tasks[j], n)])
    ensures Work(r, g, hops) < Work(r, f, hops)
  {
    assert f.tasks[j] in f.tasks;
    var q, e, c, part := WhileMoving(w, r, f);
    EarlierOver(f.tasks, j);
    ReadConserves(f.tasks[j], n);
    WorkIs(r, f, hops, q, e);
    WorkIs(r, g, hops, q, e);
    ReadLocal(f, g, c, S.Payload(f.tasks[j], n), hops);
  }

  lemma ReadLocal(f: Flight, g: Flight, c: Chunk, block: Bytes, hops: nat)
    requires f.asks == [] == g.asks && |f.tasks| == |g.tasks| > 0 && block != []
    requires g.queued == f.queued && g.sent == f.sent + block
    requires block + Unread(g.tasks[|g.tasks| - 1]) == Unread(f.tasks[|f.tasks| - 1])
    ensures Local(g, hops, c) < Local(f, hops, c)
  {
    assert |block| + |Unread(g.tasks[|g.tasks| - 1])| == |Unread(f.tasks[|f.tasks| - 1])|;
  }

  // ---- Delivery to the Receiver ----

  lemma NoticeWorks(w: World, s: System, t: System)
    requires Flow(w, s) && RQueue(w, s) != [] && !RQueue(w, s)[0].TransmitChunk?
    requires t == ReceiverDoes(s, Delivery(w, s)).(rRead := s.rRead + 1)
    ensures Potential(w, t) < Potential(w, s)
  {
    var p := RQueue(w, s)[0];
    assert p in RQueue(w, s);
    OtherMessage(w.digest, s.receiver, p);
    NoticeWeighs(w.digest, s.receiver, p);
    NoticedWorks(w, s, t, Delivery(w, s));
  }

  /** A message causes at most a request for metadata, and that only as an update notice. */
  lemma NoticeWeighs(digest: Digest, r: R.Receiver, p: Payload)
    requires RS.Sound(r) && !p.TransmitChunk? && !p.RequestChunk?
    ensures Noise(Sends(R.ProcessMessage(digest, r, p, R.Written).out)) < Weight(p)
  {
    var out := R.ProcessMessage(digest, r, p, R.Written).out;
    if p.NotifyUpdated? {
      OtherMessage(digest, r, p);
      NoiseOne(RequestMeta(r.lastUpdated));
    } else {
      SendsNone(out);
    }
  }

  lemma NoticedWorks(w: World, s: System, t: System, result: R.Result)
    requires Linked(w, s) && RQueue(w, s) != [] && !RQueue(w, s)[0].TransmitChunk?
    requires t == ReceiverDoes(s, result).(rRead := s.rRead + 1)
    requires s.receiver.state == R.RequestedChunk ==> result.after == s.receiver
    requires s.receiver.state != R.RequestedChunk ==> result.after.state != R.RequestedChunk
    requires Sends(result.out) == [] || Sends(result.out) == [RequestMeta(s.receiver.lastUpdated)]
    requires Noise(Sends(result.out)) < Weight(RQueue(w, s)[0])
    ensures Potential(w, t) < Potential(w, s)
  {
    assert RQueue(w, t) == RQueue(w, s)[1..] && SQueue(w, t) == SQueue(w, s);
    NoiseConcat(s.rUp, Sends(result.out));
    AsksConcat(s.rUp, Sends(result.out));
    AsksNone(Sends(result.out), s.receiver.lastUpdated);
    assert Asks(s.rUp) + [] == Asks(s.rUp);
    NoiseTaken(RQueue(w, s));
    assert InFlight(w, t) == InFlight(w, s) && Hops(w, t) == Hops(w, s);
    assert Work(result.after, InFlight(w, s), Hops(w, s)) == Work(s.receiver, InFlight(w, s), Hops(w, s));
  }

  lemma BlockWorks(w: World, s: System, t: System)
    requires Flow(w, s) && RQueue(w, s) != [] && RQueue(w, s)[0].TransmitChunk?
    requires t == ReceiverDoes(s, Delivery(w, s)).(rRead := s.rRead + 1)
    ensures Potential(w, t) < Potential(w, s)
  {
    var queue := RQueue(w, s);
    assert queue[0] in queue;
    NoiseTaken(queue);
    var f := InFlight(w, s);
    var g := f.(queued := Data(queue[1..]));
    var p, less := DeliveredWorks(w, s.receiver, f, g, queue[0].data, Hops(w, s));
    TakenWorks(w, s, t, Delivery(w, s), p, less);
  }

  /** A block uses up the work of its own delivery. */
  lemma DeliveredWorks(w: World, r: R.Receiver, f: Flight, g: Flight, data: Bytes, hops: nat)
    returns (p: Payload, less: int)
    requires Clear(w) && RS.Sound(r) && Phase(w, r, f)
    requires data != [] && f.queued == data + g.queued && g == f.(queued := g.queued)
    ensures f.asks == []
    ensures var result := R.ReceiveBlock(w.digest, r, data, R.Written);
            && (Sends(result.out) == [] || (Sends(result.out) == [p] && p.RequestChunk?))
            && Work(result.after, g.(asks := Asks(Sends(result.out))), 2 * |Asks(Sends(result.out))|) <= less
    ensures less < Work(r, f, hops)
  {
    var q, e, c, part := WhileMoving(w, r, f);
    var h := HashedIn(r, q, e, data);
    RS.BlockIs(w.digest, r, data, R.Written);
    RS.AbsorbSound(r, h.disk, data);
    Fed(f, g, q, data, part);
    GenuineDescribes(w, e.meta);
    WorkIs(r, f, hops, q, e);
    less := Later(e.meta, q.chunk) + Local(g, 0, c);
    p := CountedWorks(w.digest, h, g, e, c, part, R.Absorb(q, data));
  }

  /** After the block, the work left is what was left without the block. */
  lemma CountedWorks(digest: Digest, h: R.Receiver, g: Flight, e: Entry, c: Chunk, part: Bytes, a: R.Requesting)
    returns (p: Payload)
    requires RS.Sound(h) && h.state == R.RequestedChunk && h.requesting == Some(a)
    requires FindEntry(h.index, a.path) == Some(e) && c == e.meta.chunks[a.chunk] && Tiled(e.meta.chunks, e.meta.size)
    requires |part| == c.size && c.hash == digest(part)
    requires g.asks == [] && if |a.fed| < |part| then true else a.fed == part && Still(g)
    ensures var result := R.CountBlock(digest, h, a, c);
            && (Sends(result.out) == [] || (Sends(result.out) == [p] && p.RequestChunk?))
            && Work(result.after, g.(asks := Asks(Sends(result.out))), 2 * |Asks(Sends(result.out))|)
               <= Later(e.meta, a.chunk) + Local(g, 0, c)
  {
    if |a.fed| < |part| {
      p := RequestChunk("", 0, 0);
      assert g.(asks := []) == g;
    } else {
      p := CompletedWorks(h, g, e, a);
    }
  }

  lemma CompletedWorks(h: R.Receiver, g: Flight, e: Entry, a: R.Requesting) returns (p: Payload)
    requires RS.Sound(h) && h.state == R.RequestedChunk && h.requesting == Some(a)
    requires FindEntry(h.index, a.path) == Some(e) && Tiled(e.meta.chunks, e.meta.size)
    ensures var result := R.CompleteChunk(h, a.path, a.chunk);
            && (Sends(result.out) == [] || (Sends(result.out) == [p] && p.RequestChunk?))
            && Work(result.after, g.(asks := Asks(Sends(result.out))), 2 * |Asks(Sends(result.out))|)
               <= Later(e.meta, a.chunk)
  {
    var done := R.CompleteChunk(h, a.path, a.chunk);
    RS.CompleteChunkShape(h);
    LaterNat(e.meta, a.chunk);
    if a.chunk + 1 < |e.meta.chunks| {
      p := RequestChunk(a.path, a.chunk + 1, e.meta.chunks[a.chunk + 1].hash);
      assert done.out == [R.Send(p)];
      SendsOne(done.out, p);
      NextWork(done.after, RS.Grown(h), g.(asks := [p]));
    } else {
      p := RequestChunk("", 0, 0);
      SendsNone(done.out);
    }
  }

  lemma NextWork(r: R.Receiver, e: Entry, g: Flight)
    requires RS.Sound(r) && r.state == R.RequestedChunk && FindEntry(r.index, r.requesting.value.path) == Some(e)
    requires Tiled(e.meta.chunks, e.meta.size) && 0 < r.requesting.value.chunk && g.asks != []
    ensures Work(r, g, 2) < Later(e.meta, r.requesting.value.chunk - 1)
  {
    LaterNat(e.meta, r.requesting.value.chunk - 1);
  }

  lemma TakenWorks(w: World, s: System, t: System, result: R.Result, p: Payload, less: int)
    requires Linked(w, s) && RQueue(w, s) != [] && RQueue(w, s)[0].TransmitChunk?
    requires t == ReceiverDoes(s, result).(rRead := s.rRead + 1)
    requires Sends(result.out) == [] || (Sends(result.out) == [p] && p.RequestChunk?)
    requires InFlight(w, s).asks == []
    requires Work(result.after, InFlight(w, s).(queued := Data(RQueue(w, s)[1..]), asks := Asks(Sends(result.out))),
                  2 * |Asks(Sends(result.out))|) <= less < Work(s.receiver, InFlight(w, s), Hops(w, s))
    ensures Potential(w, t) < Potential(w, s)
  {
    TakenInFlight(w, s, t, result);
    assert RQueue(w, t) == RQueue(w, s)[1..] && SQueue(w, t) == SQueue(w, s);
    NoiseTaken(RQueue(w, s));
    NoiseConcat(s.rUp, Sends(result.out));
    NoiseOne(p);
    AsksConcat(s.rUp, Sends(result.out));
    assert Asks(s.rUp) == [] && Asks(SQueue(w, s)) == [];
    assert Hops(w, t) == 2 * |Asks(Sends(result.out))|;
  }

  lemma ToReceiverWorks(w: World, s: System)
    requires Flow(w, s) && Enabled(w, s, ToReceiver)
    ensures Potential(w, Step(w, s, ToReceiver)) < Potential(w, s)
  {
    if RQueue(w, s)[0].TransmitChunk? {
      BlockWorks(w, s, Step(w, s, ToReceiver));
    } else {
      NoticeWorks(w, s, Step(w, s, ToReceiver));
    }
  }

  // ---- Every step ----

  /** Every step of the machinery leaves less to do. */
  lemma MachineWorks(w: World, s: System, a: Action)
    requires Flow(w, s) && Enabled(w, s, a) && Machine(a)
    ensures Potential(w, Step(w, s, a)) < Potential(w, s)
  {
    match a
    case ServeReceiver(now) => ServeReceiverWorks(w, s, now);
    case ServeSender(now) => ServeSenderWorks(w, s, now);
    case ToReceiver => ToReceiverWorks(w, s);
    case ToSender => ToSenderWorks(w, s);
    case ReadBlock(j, n) => ReadBlockWorks(w, s, j, n);
  }

  lemma OfferAdds(w: World, s: System, p: Payload)
    requires !p.TransmitChunk? && Weight(p) <= 4
    ensures Potential(w, s.(sUp := s.sUp + [p])) <= Potential(w, s) + 4
  {
    var t := s.(sUp := s.sUp + [p]);
    NoiseGiven(s.sUp, p);
    assert RQueue(w, t) == RQueue(w, s) && SQueue(w, t) == SQueue(w, s);
    assert InFlight(w, t) == InFlight(w, s) && Hops(w, t) == Hops(w, s);
  }

  lemma AskForMetaAdds(w: World, s: System, after: i64)
    requires s.receiver.state == R.Idle
    ensures Potential(w, ReceiverDoes(s, R.RequestNewMeta(s.receiver, after))) <= Potential(w, s) + 4
  {
    var result := R.RequestNewMeta(s.receiver, after);
    var t := ReceiverDoes(s, result);
    SendsOne(result.out, RequestMeta(after));
    NoiseGiven(s.rUp, RequestMeta(after));
    assert RQueue(w, t) == RQueue(w, s) && SQueue(w, t) == SQueue(w, s);
    assert Asks(s.rUp) + [] == Asks(s.rUp);
    assert InFlight(w, t) == InFlight(w, s) && Hops(w, t) == Hops(w, s);
  }

  lemma AskAdds(w: World, s: System)
    ensures Potential(w, Step(w, s, AskForMeta)) <= Potential(w, s) + 4
  {
    if s.receiver.state == R.Idle {
      AskForMetaAdds(w, s, LastUpdated(s.receiver.index));
    } else {
      assert Step(w, s, AskForMeta) == s;
    }
  }

  lemma PublishAdds(w: World, s: System, path: string)
    ensures Potential(w, Step(w, s, Publish(path))) <= Potential(w, s) + 4
  {
    PublishedAdds(w, s, Published(s, path));
  }

  lemma PublishedAdds(w: World, s: System, sent: seq<Payload>)
    requires sent == [] || (|sent| == 1 && sent[0].PublishMeta?)
    ensures Potential(w, s.(sUp := s.sUp + sent)) <= Potential(w, s) + 4
  {
    if sent == [] {
      assert s.sUp + [] == s.sUp;
    } else {
      assert sent == [sent[0]];
      OfferAdds(w, s, sent[0]);
    }
  }

  lemma OtherAdds(w: World, s: System, input: V.Input)
    requires Linked(w, s) && input.addr != w.ra && input.addr != w.sa
    ensures Potential(w, Step(w, s, Other(input))) == Potential(w, s)
  {
    ServeOther(w, s, input);
    SameWork(w, s, Step(w, s, Other(input)));
  }

  lemma CreateAdds(w: World, s: System, e: Entry)
    requires e in w.catalog
    ensures Potential(w, Step(w, s, Create(e))) == Potential(w, s)
  {
    SameWork(w, s, Step(w, s, Create(e)));
  }

  /** What a user does about metadata. */
  predicate AboutMeta(a: Action) {
    a.Publish? || a.Withdraw? || a.AskForMeta?
  }

  /**
   * A user who publishes, withdraws or asks for metadata adds at most four steps; new entries and other clients none.
   */
  lemma UserAdds(w: World, s: System, a: Action)
    requires Flow(w, s) && Enabled(w, s, a) && !Machine(a) && !a.Request? && !a.Resume?
    ensures Potential(w, Step(w, s, a)) <= Potential(w, s) + if AboutMeta(a) then 4 else 0
  {
    match a
    case AskForMeta => AskAdds(w, s);
    case Publish(path) => PublishAdds(w, s, path);
    case Withdraw(path) => OfferAdds(w, s, RemoveMeta(path));
    case Create(e) => CreateAdds(w, s, e);
    case Other(input) => OtherAdds(w, s, input);
  }

  lemma SameWork(w: World, s: System, t: System)
    requires t.receiver == s.receiver && t.rUp == s.rUp && t.sUp == s.sUp && t.tasks == s.tasks
    requires RQueue(w, t) == RQueue(w, s) && SQueue(w, t) == SQueue(w, s)
    ensures Potential(w, t) == Potential(w, s)
  {
    assert InFlight(w, t) == InFlight(w, s) && Hops(w, t) == Hops(w, s);
  }

  // ---- When nothing is left to do ----

  /** No step of the machinery can be taken. */
  ghost predicate AtRest(w: World, s: System) {
    forall a :: Machine(a) ==> !Enabled(w, s, a)
  }

  /** The current download has been refused by the Sender. */
  ghost predicate Stalled(w: World, s: System) {
    s.receiver.state == R.RequestedChunk && s.receiver.requesting.Some? &&
      Refused(InFlight(w, s), s.receiver.requesting.value)
  }

  /** As long as a transmission is not over, it can read. */
  lemma CanGoOn(tasks: seq<S.Task>)
    requires Reading(tasks)
    requires forall a :: Machine(a) && a.ReadBlock? ==> !(a.task < |tasks| && S.CanRead(tasks[a.task], a.size))
    ensures Unread(tasks[|tasks| - 1]) == []
  {
    var last := |tasks| - 1;
    if !S.Over(tasks[last]) {
      var a := ReadBlock(last, 1);
      assert S.CanRead(tasks[a.task], a.size);
      assert Machine(a);
    }
  }

  lemma RestEmpty(w: World, s: System)
    requires AtRest(w, s)
    ensures s.rUp == [] && s.sUp == [] && RQueue(w, s) == [] && SQueue(w, s) == []
    ensures Reading(s.tasks) ==> Unread(s.tasks[|s.tasks| - 1]) == []
  {
    assert Machine(ServeReceiver(0)) && Machine(ServeSender(0)) && Machine(ToReceiver) && Machine(ToSender);
    if Reading(s.tasks) {
      forall a | Machine(a) && a.ReadBlock?
        ensures !(a.task < |s.tasks| && S.CanRead(s.tasks[a.task], a.size))
      {
        assert !Enabled(w, s, a);
      }
      CanGoOn(s.tasks);
    }
  }

  /** A system at rest is not downloading, or its download is refused; and all its queues are empty. */
  lemma RestIsOver(w: World, s: System)
    requires Flow(w, s) && AtRest(w, s)
    ensures s.receiver.state != R.RequestedChunk || Stalled(w, s)
    ensures s.rUp == [] && s.sUp == [] && RQueue(w, s) == [] && SQueue(w, s) == []
  {
    RestEmpty(w, s);
    if s.receiver.state == R.RequestedChunk {
      NotMoving(w, s.receiver, InFlight(w, s));
    }
  }

  lemma NotMoving(w: World, r: R.Receiver, f: Flight)
    requires Clear(w) && Phase(w, r, f) && r.state == R.RequestedChunk
    requires f.asks == [] && f.queued == [] && f.sent == []
    requires Reading(f.tasks) ==> Unread(f.tasks[|f.tasks| - 1]) == []
    ensures Refused(f, r.requesting.value)
  {
    var q := r.requesting.value;
    assert q.fed + ([] + ([] + [])) == q.fed;
  }

  // ---- When a download stalls ----

  /**
   * The request of a chunk is refused if and only if the Sender's library, when it arrives, has no such chunk, or one
   * with another digest. Until then the download is not stalled.
   */
  lemma StallsIff(w: World, s: System)
    requires Flow(w, s) && SQueue(w, s) != [] && SQueue(w, s)[0].RequestChunk?
    ensures !Stalled(w, s)
    ensures var p := SQueue(w, s)[0];
            Stalled(w, Step(w, s, ToSender)) <==> !Offered(s.library, p.path, p.index, p.hash)
    ensures var p := SQueue(w, s)[0];
            !Offered(s.library, p.path, p.index, p.hash) <==>
              S.ProcessRequest(s.library, w.files, p.path, p.index, p.hash).Rejected?
  {
    var t := Step(w, s, ToSender);
    assert SQueue(w, t) == SQueue(w, s)[1..] && RQueue(w, t) == RQueue(w, s);
    assert Asks(SQueue(w, s)) == [SQueue(w, s)[0]] + Asks(SQueue(w, s)[1..]);
    var q, e, c, part := WhileAsking(w, s.receiver, InFlight(w, s));
    RequestArrives(w, s, t);
    NeverDies(w, s.library, SQueue(w, s)[0]);
  }

  lemma NeverDies(w: World, library: seq<Entry>, p: Payload)
    requires Clear(w) && (forall f :: f in library ==> f in w.catalog) && p.RequestChunk?
    ensures !Offered(library, p.path, p.index, p.hash) <==>
            S.ProcessRequest(library, w.files, p.path, p.index, p.hash).Rejected?
  {
    if FindEntry(library, p.path).Some? {
      assert Sourced(w, FindEntry(library, p.path).value);
    }
  }

  /** Only a request that arrives is ever refused: a block on its way, or just delivered, shows that it was not. */
  lemma BlockKeepsMoving(w: World, s: System, t: System)
    requires Flow(w, s) && RQueue(w, s) != [] && RQueue(w, s)[0].TransmitChunk?
    requires t == ReceiverDoes(s, Delivery(w, s)).(rRead := s.rRead + 1)
    ensures !Stalled(w, s) && !Stalled(w, t)
  {
    var queue := RQueue(w, s);
    var data := queue[0].data;
    assert queue[0] in queue;
    NoiseTaken(queue);
    var f := InFlight(w, s);
    var q, e, c, part := WhileMoving(w, s.receiver, f);
    var h := HashedIn(s.receiver, q, e, data);
    RS.BlockIs(w.digest, s.receiver, data, R.Written);
    RS.AbsorbSound(s.receiver, h.disk, data);
    BlockFlow(w, s, t);
    CountedLive(w.digest, h, R.Absorb(q, data), c);
    TakenInFlight(w, s, t, Delivery(w, s));
  }

  lemma CountedLive(digest: Digest, h: R.Receiver, a: R.Requesting, c: Chunk)
    requires RS.Sound(h) && h.state == R.RequestedChunk && h.requesting == Some(a) && a.fed != []
    requires R.CountBlock(digest, h, a, c).verdict == R.Ok
    ensures var result := R.CountBlock(digest, h, a, c);
            result.after.state == R.RequestedChunk ==>
              result.after.requesting.value.fed != [] || Asks(Sends(result.out)) != []
  {
    var result := R.CountBlock(digest, h, a, c);
    if a.offset >= c.offset + c.size {
      RS.CompleteChunkShape(h);
      if result.after.state == R.RequestedChunk {
        SendsOne(result.out, result.out[0].payload);
      }
    }
  }

  lemma NoticeKeepsStall(w: World, s: System, t: System)
    requires Flow(w, s) && RQueue(w, s) != [] && !RQueue(w, s)[0].TransmitChunk?
    requires t == ReceiverDoes(s, Delivery(w, s)).(rRead := s.rRead + 1)
    ensures (Stalled(w, t) <==> Stalled(w, s)) && (Stalled(w, s) ==> t.receiver == s.receiver)
  {
    var result := Delivery(w, s);
    OtherMessage(w.digest, s.receiver, RQueue(w, s)[0]);
    AsksNone(Sends(result.out), s.receiver.lastUpdated);
    NoticedStays(w, s, t, result);
  }

  lemma NoticedStays(w: World, s: System, t: System, result: R.Result)
    requires Linked(w, s) && RQueue(w, s) != [] && !RQueue(w, s)[0].TransmitChunk? && Asks(Sends(result.out)) == []
    requires t == ReceiverDoes(s, result).(rRead := s.rRead + 1)
    requires s.receiver.state == R.RequestedChunk ==> result.after == s.receiver
    requires s.receiver.state != R.RequestedChunk ==> result.after.state != R.RequestedChunk
    ensures (Stalled(w, t) <==> Stalled(w, s)) && (Stalled(w, s) ==> t.receiver == s.receiver)
  {
    DoesFlight(w, s, result);
    assert Asks(s.rUp) + [] == Asks(s.rUp);
    NoiseTaken(RQueue(w, s));
    assert RQueue(w, t) == RQueue(w, s)[1..] && SQueue(w, t) == SQueue(w, s);
    assert InFlight(w, t) == InFlight(w, s);
  }

  lemma ReadKeepsMoving(w: World, s: System, j: nat, n: nat)
    requires Flow(w, s) && Enabled(w, s, ReadBlock(j, n))
    ensures !Stalled(w, s) && !Stalled(w, Step(w, s, ReadBlock(j, n)))
  {
    assert s.tasks[j] in s.tasks;
    ReadIs(w, s, j, n);
    ReadPhase(w, s.receiver, InFlight(w, s), InFlight(w, Step(w, s, ReadBlock(j, n))), j, n);
  }

  lemma ServeReceiverStays(w: World, s: System, now: i64)
    requires Flow(w, s) && Enabled(w, s, ServeReceiver(now))
    ensures InFlight(w, Step(w, s, ServeReceiver(now))) == InFlight(w, s)
  {
    assert s.rUp[0] in s.rUp;
    ServeRequest(w, s, s.rUp[0], now);
    ServedInFlight(w, s, Step(w, s, ServeReceiver(now)), now);
  }

  lemma ServeSenderStays(w: World, s: System, now: i64)
    requires Flow(w, s) && Enabled(w, s, ServeSender(now))
    ensures Stalled(w, Step(w, s, ServeSender(now))) <==> Stalled(w, s)
  {
    var p := s.sUp[0];
    assert p in s.sUp;
    ServeOffer(w, s, p, now);
    OfferedStays(w, s, Step(w, s, ServeSender(now)), now);
  }

  lemma OfferedStays(w: World, s: System, t: System, now: i64)
    requires s.sUp != [] && MaySend(w, s.sUp[0])
    requires t.receiver == s.receiver && t.rUp == s.rUp && t.sUp == s.sUp[1..] && t.tasks == s.tasks
    requires RQueue(w, t) == RQueue(w, s) + Passed(s.sUp[0], now) && SQueue(w, t) == SQueue(w, s)
    ensures Stalled(w, t) <==> Stalled(w, s)
  {
    var p := s.sUp[0];
    NoiseTaken(s.sUp);
    if p.TransmitChunk? {
      NoiseGiven(RQueue(w, s), p);
    } else {
      NoiseGiven(RQueue(w, s), NotifyUpdated(now));
      assert RQueue(w, s) + [] == RQueue(w, s);
    }
  }

  lemma ToSenderStays(w: World, s: System)
    requires Linked(w, s) && SQueue(w, s) != [] && !SQueue(w, s)[0].RequestChunk?
    ensures InFlight(w, Step(w, s, ToSender)) == InFlight(w, s)
  {
    var t := Step(w, s, ToSender);
    NoiseTaken(SQueue(w, s));
    assert SQueue(w, t) == SQueue(w, s)[1..] && RQueue(w, t) == RQueue(w, s);
  }

  lemma UserStays(w: World, s: System, a: Action)
    requires Flow(w, s) && Enabled(w, s, a) && !Machine(a) && !a.Request? && !a.Resume?
    ensures InFlight(w, Step(w, s, a)) == InFlight(w, s) && Step(w, s, a).receiver == s.receiver
  {
    match a
    case AskForMeta => AskStays(w, s, LastUpdated(s.receiver.index));
    case Publish(path) => PublishStays(w, s, path);
    case Withdraw(path) => WithdrawStays(w, s, path);
    case Create(e) => CreateStays(w, s, e);
    case Other(input) => OtherStays(w, s, input);
  }

  lemma WithdrawStays(w: World, s: System, path: string)
    ensures InFlight(w, s.(sUp := s.sUp + [RemoveMeta(path)])) == InFlight(w, s)
  {
    NoiseGiven(s.sUp, RemoveMeta(path));
  }

  lemma CreateStays(w: World, s: System, e: Entry)
    ensures InFlight(w, s.(library := AddEntry(s.library, e))) == InFlight(w, s)
  {
  }

  lemma OtherStays(w: World, s: System, input: V.Input)
    requires Linked(w, s) && input.addr != w.ra && input.addr != w.sa
    ensures InFlight(w, s.(server := V.Step(s.server, input))) == InFlight(w, s)
  {
    ServeOther(w, s, input);
  }

  lemma AskStays(w: World, s: System, after: i64)
    ensures var t := ReceiverDoes(s, R.RequestNewMeta(s.receiver, after));
            InFlight(w, t) == InFlight(w, s) && t.receiver == s.receiver
  {
    var result := R.RequestNewMeta(s.receiver, after);
    if s.receiver.state == R.Idle {
      SendsOne(result.out, RequestMeta(after));
    }
    NothingAsked(w, s, result);
  }

  lemma PublishStays(w: World, s: System, path: string)
    ensures InFlight(w, s.(sUp := s.sUp + Published(s, path))) == InFlight(w, s)
  {
    if FindEntry(s.library, path).Some? {
      NoiseGiven(s.sUp, PublishMeta(FindEntry(s.library, path).value.meta));
    } else {
      assert s.sUp + [] == s.sUp;
    }
  }

  /**
   * Except where a request reaches the Sender no download stalls; and a stalled one stays as it is, whatever happens.
   */
  lemma StallOnlyThere(w: World, s: System, a: Action)
    requires Flow(w, s) && Enabled(w, s, a) && !a.Request? && !a.Resume?
    requires !(a.ToSender? && SQueue(w, s)[0].RequestChunk?)
    ensures Stalled(w, Step(w, s, a)) <==> Stalled(w, s)
    ensures Stalled(w, s) ==> Step(w, s, a).receiver == s.receiver
  {
    match a
    case ToReceiver =>
      if RQueue(w, s)[0].TransmitChunk? {
        BlockKeepsMoving(w, s, Step(w, s, a));
      } else {
        NoticeKeepsStall(w, s, Step(w, s, a));
      }
    case ReadBlock(j, n) => ReadKeepsMoving(w, s, j, n);
    case ServeReceiver(now) => ServeReceiverStays(w, s, now);
    case ServeSender(now) => ServeSenderStays(w, s, now);
    case ToSender => ToSenderStays(w, s);
    case _ => UserStays(w, s, a);
  }

  // ---- Every run ----

  /** The number of steps of the machinery among `actions`. */
  function Machines(actions: seq<Action>): nat {
    if actions == [] then 0 else (if Machine(actions[0]) then 1 else 0) + Machines(actions[1..])
  }

  /** The number of publications, withdrawals and requests for metadata among `actions`. */
  function Errands(actions: seq<Action>): nat {
    if actions == [] then 0 else (if AboutMeta(actions[0]) then 1 else 0) + Errands(actions[1..])
  }

  /** Nobody asks for another download. */
  predicate NoWishes(actions: seq<Action>) {
    forall a :: a in actions ==> !a.Request? && !a.Resume?
  }

  /**
   * The machinery comes to rest. Over every run it takes at most as many steps as there was to do at the start, and
   * four for every publication, withdrawal and request for metadata; and once it is at rest no download is under way,
   * unless the Sender has refused it.
   */
  lemma {:induction false} RunSettles(w: World, s: System, actions: seq<Action>)
    requires Flow(w, s) && Possible(w, s, actions) && NoWishes(actions)
    ensures var end := Run(w, s, actions);
            && Flow(w, end) && 0 <= Potential(w, end)
            && Machines(actions) + Potential(w, end) <= Potential(w, s) + 4 * Errands(actions)
            && (AtRest(w, end) ==> end.receiver.state != R.RequestedChunk || Stalled(w, end))
    decreases |actions|
  {
    if actions == [] {
      PotentialNat(w, s);
      if AtRest(w, s) {
        RestIsOver(w, s);
      }
    } else {
      var a := actions[0];
      assert a in actions;
      StepFlow(w, s, a);
      if Machine(a) {
        MachineWorks(w, s, a);
      } else {
        UserAdds(w, s, a);
      }
      RunSettles(w, Step(w, s, a), actions[1..]);
    }
  }

  predicate AllMachine(actions: seq<Action>) {
    forall a :: a in actions ==> Machine(a)
  }

  /** As long as the system is not at rest, there is a step of the machinery, and less to do after it. */
  lemma SomeStep(w: World, s: System) returns (a: Action)
    requires Flow(w, s) && !AtRest(w, s)
    ensures Machine(a) && Enabled(w, s, a) && Flow(w, Step(w, s, a))
    ensures 0 <= Potential(w, Step(w, s, a)) < Potential(w, s)
  {
    a :| Machine(a) && Enabled(w, s, a);
    MachineWorks(w, s, a);
    StepFlow(w, s, a);
    PotentialNat(w, Step(w, s, a));
  }

  /** From every state the machinery reaches rest by itself, whichever steps it takes first. */
  lemma {:induction false} ComesToRest(w: World, s: System, bound: nat) returns (actions: seq<Action>)
    requires Flow(w, s) && Potential(w, s) <= bound
    ensures Possible(w, s, actions) && AllMachine(actions) && AtRest(w, Run(w, s, actions))
    decreases bound
  {
    actions := [];
    if !AtRest(w, s) {
      var a := SomeStep(w, s);
      var rest := ComesToRest(w, Step(w, s, a), bound - 1);
      actions := [a] + rest;
      assert actions[1..] == rest;
    }
  }

  /** The step brings the Sender a request for a chunk that it does not have, or has with another digest. */
  ghost predicate Refusal(w: World, s: System, a: Action) {
    a.ToSender? && SQueue(w, s) != [] &&
    match SQueue(w, s)[0]
    case RequestChunk(path, chunk, hash) => !Offered(s.library, path, chunk, hash)
    case _ => false
  }

  ghost predicate RefusedOnTheWay(w: World, s: System, actions: seq<Action>)
    requires Possible(w, s, actions)
    decreases |actions|
  {
    actions != [] && (Refusal(w, s, actions[0]) || RefusedOnTheWay(w, Step(w, s, actions[0]), actions[1..]))
  }

  lemma StallsWith(w: World, s: System, a: Action)
    requires Flow(w, s) && Enabled(w, s, a) && !a.Request? && !a.Resume?
    ensures Stalled(w, Step(w, s, a)) <==> Stalled(w, s) || Refusal(w, s, a)
  {
    if a.ToSender? && SQueue(w, s)[0].RequestChunk? {
      StallsIff(w, s);
    } else {
      StallOnlyThere(w, s, a);
    }
  }

  /** A download stalls exactly on the runs on which the Sender refuses a request; then it stays stalled. */
  lemma {:induction false} DownloadStallsIff(w: World, s: System, actions: seq<Action>)
    requires Flow(w, s) && Possible(w, s, actions) && NoWishes(actions)
    ensures Stalled(w, Run(w, s, actions)) <==> Stalled(w, s) || RefusedOnTheWay(w, s, actions)
    decreases |actions|
  {
    if actions != [] {
      assert actions[0] in actions;
      StepFlow(w, s, actions[0]);
      StallsWith(w, s, actions[0]);
      DownloadStallsIff(w, Step(w, s, actions[0]), actions[1..]);
    }
  }

  // ---- A request that cannot be met ----

  /** A request is on its way for a chunk that the library does not offer. */
  ghost predicate Hopeless(w: World, s: System) {
    && InFlight(w, s).asks != [] && InFlight(w, s).asks[0].RequestChunk?
    && var p := InFlight(w, s).asks[0];
       !Offered(s.library, p.path, p.index, p.hash)
  }

  lemma NoticeStays(w: World, s: System)
    requires Flow(w, s) && RQueue(w, s) != [] && InFlight(w, s).asks != []
    ensures var t := Step(w, s, ToReceiver);
            InFlight(w, t).asks == InFlight(w, s).asks && t.library == s.library
  {
    var result := Delivery(w, s);
    var t := Step(w, s, ToReceiver);
    var queue := RQueue(w, s);
    assert queue[0] in queue;
    NoiseTaken(queue);
    var q, e, c, part := WhileAsking(w, s.receiver, InFlight(w, s));
    OtherMessage(w.digest, s.receiver, queue[0]);
    AsksNone(Sends(result.out), s.receiver.lastUpdated);
    DoesFlight(w, s, result);
    assert Asks(s.rUp) + [] == Asks(s.rUp);
    assert SQueue(w, t) == SQueue(w, s);
  }

  lemma OfferStays(w: World, s: System, now: i64)
    requires Flow(w, s) && Enabled(w, s, ServeSender(now)) && InFlight(w, s).asks != []
    ensures InFlight(w, Step(w, s, ServeSender(now))).asks == InFlight(w, s).asks
  {
    assert s.sUp[0] in s.sUp;
    ServeOffer(w, s, s.sUp[0], now);
  }

  lemma StillOver(f: Flight, j: nat)
    requires Still(f) && j < |f.tasks|
    ensures S.Over(f.tasks[j])
  {
    assert f.tasks[j] in f.tasks;
  }

  /** While the machinery goes on, a request that cannot be met stays on its way, until it arrives and stalls. */
  lemma HopelessStep(w: World, s: System, a: Action)
    requires Flow(w, s) && Enabled(w, s, a) && Machine(a) && Hopeless(w, s)
    ensures Hopeless(w, Step(w, s, a)) || Stalled(w, Step(w, s, a))
  {
    match a
    case ServeReceiver(now) => ServeReceiverStays(w, s, now);
    case ServeSender(now) => OfferStays(w, s, now);
    case ToReceiver => NoticeStays(w, s);
    case ToSender =>
      if SQueue(w, s)[0].RequestChunk? {
        var q, e, c, part := WhileAsking(w, s.receiver, InFlight(w, s));
        AskTaken(s.rUp, SQueue(w, s), InFlight(w, s).asks[0]);
        StallsIff(w, s);
      } else {
        ToSenderStays(w, s);
      }
    case ReadBlock(j, n) =>
      var q, e, c, part := WhileAsking(w, s.receiver, InFlight(w, s));
      StillOver(InFlight(w, s), j);
  }

  lemma {:induction false} HopelessRun(w: World, s: System, actions: seq<Action>)
    requires Flow(w, s) && Possible(w, s, actions) && AllMachine(actions) && (Hopeless(w, s) || Stalled(w, s))
    ensures Hopeless(w, Run(w, s, actions)) || Stalled(w, Run(w, s, actions))
    decreases |actions|
  {
    if actions != [] {
      assert actions[0] in actions;
      StepFlow(w, s, actions[0]);
      if Stalled(w, s) {
        StallsWith(w, s, actions[0]);
      } else {
        HopelessStep(w, s, actions[0]);
      }
      HopelessRun(w, Step(w, s, actions[0]), actions[1..]);
    }
  }

  /** The machinery alone brings such a download to a stall. */
  lemma HopelessStalls(w: World, s: System) returns (actions: seq<Action>)
    requires Flow(w, s) && Hopeless(w, s)
    ensures Possible(w, s, actions) && AllMachine(actions)
    ensures AtRest(w, Run(w, s, actions)) && Stalled(w, Run(w, s, actions))
  {
    PotentialNat(w, s);
    actions := ComesToRest(w, s, Potential(w, s));
    HopelessRun(w, s, actions);
    RestEmpty(w, Run(w, s, actions));
  }
}
