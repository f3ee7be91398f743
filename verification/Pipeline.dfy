/**
 * The whole system: a Receiver, the server with its two channels, the Sender with its library and its transmissions,
 * and the connections between them. Every interleaving of downloads, publications, withdrawals, update notices,
 * metadata requests and replies is a run; nobody stops, disconnects or fails to write. Other clients may do as they
 * please.
 */
module Pipeline {
  import opened Base
  import opened Metadata
  import opened EntryList
  import opened Messages
  import Chunker
  import R = ReceiverModel
  import RS = ReceiverSafety
  import V = ServerModel
  import VS = ServerSafety
  import W = ServerRelay
  import S = Sender

  /**
   * What stays fixed: who is where, the files on the Sender's disk, and the entries that the Sender may ever make of
   * them. A remote path may be made anew of another file, any number of times.
   */
  datatype World = World(digest: Digest, ra: V.Addr, sa: V.Addr, files: map<string, Bytes>, catalog: set<Entry>)

  /**
   * `rUp` and `sUp` are on their way from the Receiver and the Sender to the server; `rRead` and `sRead` count the
   * messages of the two server channels that have been delivered. `library` is the Sender's index.
   */
  datatype System = System(
    receiver: R.Receiver, rUp: seq<Payload>,
    server: V.Server, rRead: nat, sRead: nat,
    library: seq<Entry>, sUp: seq<Payload>, tasks: seq<S.Task>)

  datatype Action =
    | Request(path: string, localPath: string)
    | Resume(path: string)
    | AskForMeta
    | Create(entry: Entry)
    | Publish(path: string)
    | Withdraw(path: string)
    | ServeReceiver(now: i64)
    | ServeSender(now: i64)
    | ToReceiver
    | ToSender
    | ReadBlock(task: nat, size: nat)
    | Other(input: V.Input)

  // ---- The queues ----

  function Channel(s: System, a: V.Addr): seq<Payload> {
    if a in s.server.clients then s.server.clients[a].sent else []
  }

  /** What the server has sent to the Receiver and not been delivered yet. */
  function RQueue(w: World, s: System): seq<Payload> {
    var c := Channel(s, w.ra);
    if s.rRead <= |c| then c[s.rRead..] else []
  }

  function SQueue(w: World, s: System): seq<Payload> {
    var c := Channel(s, w.sa);
    if s.sRead <= |c| then c[s.sRead..] else []
  }

  function Sends(out: seq<R.Event>): seq<Payload> {
    if out == [] then [] else (if out[0].Send? then [out[0].payload] else []) + Sends(out[1..])
  }

  /** The file bytes in a queue. */
  function Data(messages: seq<Payload>): Bytes {
    if messages == [] then []
    else (if messages[0].TransmitChunk? then messages[0].data else []) + Data(messages[1..])
  }

  /** The chunk requests in a queue. */
  function Asks(messages: seq<Payload>): seq<Payload> {
    if messages == [] then []
    else (if messages[0].RequestChunk? then [messages[0]] else []) + Asks(messages[1..])
  }

  // ---- The steps ----

  ghost predicate Enabled(w: World, s: System, a: Action) {
    match a
    case Request(_, localPath) => localPath != ""
    case Resume(path) => (match FindEntry(s.receiver.index, path) case None => true case Some(e) => e.localPath != "")
    case Create(e) => e in w.catalog
    case ServeReceiver(_) => s.rUp != []
    case ServeSender(_) => s.sUp != []
    case ToReceiver => RQueue(w, s) != []
    case ToSender => SQueue(w, s) != []
    case ReadBlock(j, n) => j < |s.tasks| && S.CanRead(s.tasks[j], n)
    case Other(input) => input.addr != w.ra && input.addr != w.sa
    case _ => true
  }

  function ReceiverDoes(s: System, result: R.Result): System {
    s.(receiver := result.after, rUp := s.rUp + Sends(result.out))
  }

  /** What the Receiver makes of the next message in its channel. */
  function Delivery(w: World, s: System): R.Result
    requires RQueue(w, s) != []
  {
    R.ProcessMessage(w.digest, s.receiver, RQueue(w, s)[0], R.Written)
  }

  /** The Sender's transmissions after the next message in its channel. */
  function SenderDoes(w: World, s: System, p: Payload): seq<S.Task> {
    match p
    case RequestChunk(path, chunk, hash) =>
      (match S.ProcessRequest(s.library, w.files, path, chunk, hash)
       case Spawned(t) => s.tasks + [t]
       case _ => s.tasks)
    case _ => s.tasks
  }

  function Published(s: System, path: string): seq<Payload> {
    match FindEntry(s.library, path)
    case None => []
    case Some(f) => [PublishMeta(f.meta)]
  }

  ghost function Step(w: World, s: System, a: Action): System
    requires Enabled(w, s, a)
  {
    match a
    case Request(path, localPath) => ReceiverDoes(s, R.RequestFile(s.receiver, path, localPath))
    case Resume(path) => ReceiverDoes(s, R.ResumeFile(s.receiver, path))
    case AskForMeta => ReceiverDoes(s, R.RequestNewMeta(s.receiver, LastUpdated(s.receiver.index)))
    case Create(e) => s.(library := AddEntry(s.library, e))
    case Publish(path) => s.(sUp := s.sUp + Published(s, path))
    case Withdraw(path) => s.(sUp := s.sUp + [RemoveMeta(path)])
    case ServeReceiver(now) =>
      s.(rUp := s.rUp[1..], server := V.Step(s.server, V.Incoming(w.ra, s.rUp[0], now)))
    case ServeSender(now) =>
      s.(sUp := s.sUp[1..], server := V.Step(s.server, V.Incoming(w.sa, s.sUp[0], now)))
    case ToReceiver => ReceiverDoes(s, Delivery(w, s)).(rRead := s.rRead + 1)
    case ToSender => s.(tasks := SenderDoes(w, s, SQueue(w, s)[0]), sRead := s.sRead + 1)
    case ReadBlock(j, n) =>
      s.(sUp := s.sUp + [TransmitChunk(S.Payload(s.tasks[j], n))], tasks := s.tasks[j := S.Read(s.tasks[j], n)])
    case Other(input) => s.(server := V.Step(s.server, input))
  }

  // ---- What metadata is about ----

  /**
   * An entry that the Sender may make: metadata of a file on its disk, in chunks for which the transmit loop is exact.
   */
  ghost predicate Sourced(w: World, f: Entry) {
    && f.localPath in w.files
    && Describes(w.digest, f.meta, w.files[f.localPath])
    && forall c :: c in f.meta.chunks ==> c.size <= S.SAFE_SIZE
  }

  /** Two files made under one remote path: where their chunks have the same digest, they have the same bytes. */
  ghost predicate Agree(w: World, f: Entry, g: Entry)
    requires Sourced(w, f) && Sourced(w, g)
  {
    forall k :: 0 <= k < |f.meta.chunks| && k < |g.meta.chunks| && f.meta.chunks[k].hash == g.meta.chunks[k].hash ==>
                  Part(w.files[f.localPath], f.meta.chunks[k]) == Part(w.files[g.localPath], g.meta.chunks[k])
  }

  /** All that is assumed of the world. If no remote path is ever made of two files, it says nothing of the digest. */
  ghost predicate Clear(w: World) {
    && w.ra != w.sa
    && (forall f :: f in w.catalog ==> Sourced(w, f))
    && (forall f, g :: f in w.catalog && g in w.catalog && f.meta.path == g.meta.path ==> Agree(w, f, g))
  }

  /** Metadata without the stamp, which the server sets. */
  function Bare(m: Meta): Meta {
    m.(metaModified := 0)
  }

  /** Metadata that the Sender made, but for the stamp. */
  ghost predicate Genuine(w: World, m: Meta) {
    exists f :: f in w.catalog && Bare(f.meta) == Bare(m)
  }

  ghost function Source(w: World, bare: Meta): (f: Entry)
    requires exists f :: f in w.catalog && Bare(f.meta) == bare
    ensures f in w.catalog && Bare(f.meta) == bare
  {
    var f :| f in w.catalog && Bare(f.meta) == bare;
    f
  }

  /** The bytes of the file that some metadata is about. */
  ghost function Content(w: World, m: Meta): Bytes
    requires Clear(w) && Genuine(w, m)
  {
    w.files[Source(w, Bare(m)).localPath]
  }

  lemma GenuineDescribes(w: World, m: Meta)
    requires Clear(w) && Genuine(w, m)
    ensures Describes(w.digest, m, Content(w, m))
    ensures forall c :: c in m.chunks ==>
                          0 < c.size <= S.SAFE_SIZE && |Part(Content(w, m), c)| == c.size
                          && c.hash == w.digest(Part(Content(w, m), c))
  {
    assert Sourced(w, Source(w, Bare(m)));
    forall c | c in m.chunks
      ensures c.size > 0
    {
      var i :| 0 <= i < |m.chunks| && m.chunks[i] == c;
      assert Abuts(m.chunks, m.size, i);
    }
  }

  /** What the chunker makes of a file of the Sender may be in the catalog: its chunks are far below the safe size. */
  lemma ChunkedIsSourced(w: World, f: Entry)
    requires f.localPath in w.files
    requires Describes(w.digest, f.meta, w.files[f.localPath]) && Chunker.WellSized(f.meta.chunks)
    ensures Sourced(w, f)
  {
  }

  // ---- What is in flight ----

  /**
   * Chunk requests on their way to the Sender, bytes in the Receiver's channel and towards the server, transmissions.
   */
  datatype Flight = Flight(asks: seq<Payload>, queued: Bytes, sent: Bytes, tasks: seq<S.Task>)

  function InFlight(w: World, s: System): Flight {
    Flight(Asks(s.rUp) + Asks(SQueue(w, s)), Data(RQueue(w, s)), Data(s.sUp), s.tasks)
  }

  ghost predicate AllOver(tasks: seq<S.Task>) {
    forall t :: t in tasks ==> S.Over(t)
  }

  /** No byte is on its way, and no transmission is under way. */
  ghost predicate Still(f: Flight) {
    f.queued == [] && f.sent == [] && AllOver(f.tasks)
  }

  /** What a transmission still has to read. */
  function Unread(t: S.Task): Bytes {
    if S.Over(t) then [] else S.Span(t.file, t.pos, t.pos + (t.size - t.count))
  }

  /** A transmission of a chunk that is all there. */
  predicate Sane(t: S.Task) {
    t.size <= S.SAFE_SIZE && !t.ended && (S.Over(t) || t.pos + (t.size - t.count) <= |t.file|)
  }

  /** Only the last transmission may be under way. */
  ghost predicate Reading(tasks: seq<S.Task>) {
    tasks != [] && AllOver(tasks[..|tasks| - 1]) && Sane(tasks[|tasks| - 1])
  }

  // ---- The invariant ----

  /** The one request of the current chunk is on its way to the Sender. */
  ghost predicate Asking(f: Flight, q: R.Requesting, c: Chunk) {
    f.asks == [RequestChunk(q.path, q.chunk, c.hash)] && Still(f) && q.fed == []
  }

  /** Bytes hashed, bytes in the two queues and bytes not yet read make up the chunk, in this order. */
  ghost predicate Conserved(f: Flight, q: R.Requesting, part: Bytes) {
    && f.asks == [] && Reading(f.tasks)
    && q.fed + (f.queued + (f.sent + Unread(f.tasks[|f.tasks| - 1]))) == part
    && |q.fed| < |part|
  }

  /** The Sender has refused the request: nothing is, or will be, on its way. */
  ghost predicate Refused(f: Flight, q: R.Requesting) {
    f.asks == [] && Still(f) && q.fed == []
  }

  ghost predicate Downloading(f: Flight, q: R.Requesting, c: Chunk, part: Bytes) {
    Asking(f, q, c) || Conserved(f, q, part) || Refused(f, q)
  }

  ghost predicate Phase(w: World, r: R.Receiver, f: Flight)
    requires Clear(w)
  {
    match r.state
    case RequestedChunk =>
      r.requesting.Some? &&
      (match FindEntry(r.index, r.requesting.value.path)
       case None => false
       case Some(e) => InPlace(w, r.requesting.value, e, f))
    case ReceivingMeta => false
    case _ => f.asks == [] && Still(f)
  }

  ghost predicate InPlace(w: World, q: R.Requesting, e: Entry, f: Flight)
    requires Clear(w)
  {
    && e.localPath != "" && Genuine(w, e.meta) && q.chunk < |e.meta.chunks|
    && Downloading(f, q, e.meta.chunks[q.chunk], Part(Content(w, e.meta), e.meta.chunks[q.chunk]))
  }

  /** Both clients are logged in on live connections, and the delivered counts are in range. */
  ghost predicate Linked(w: World, s: System) {
    && w.ra != w.sa
    && VS.Safe(s.server)
    && W.LoggedIn(s.server, w.ra, V.Receiver) && W.LoggedIn(s.server, w.sa, V.Sender)
    && s.rRead <= |Channel(s, w.ra)| && s.sRead <= |Channel(s, w.sa)|
  }

  /** What each queue may hold. Beside blocks and chunk requests there may be any traffic about metadata. */
  ghost predicate MayAsk(p: Payload) {
    p.RequestChunk? || p.RequestMeta?
  }

  ghost predicate MaySend(w: World, p: Payload) {
    match p
    case TransmitChunk(data) => data != []
    case PublishMeta(m) => Genuine(w, m)
    case RemoveMeta(_) => true
    case _ => false
  }

  ghost predicate MayReceive(w: World, p: Payload) {
    match p
    case TransmitChunk(data) => data != []
    case TransmitMeta(metas) => forall m :: m in metas ==> Genuine(w, m)
    case RequestChunk(_, _, _) => false
    case _ => true
  }

  ghost predicate MayCommand(p: Payload) {
    !p.StopChunk? && !p.TransmitChunk?
  }

  ghost predicate AllGenuine(w: World, entries: seq<Entry>) {
    forall e :: e in entries ==> Genuine(w, e.meta)
  }

  ghost predicate Orderly(w: World, s: System) {
    && (forall p :: p in s.rUp ==> MayAsk(p))
    && (forall p :: p in s.sUp ==> MaySend(w, p))
    && (forall p :: p in RQueue(w, s) ==> MayReceive(w, p))
    && (forall p :: p in SQueue(w, s) ==> MayCommand(p))
    && (forall f :: f in s.library ==> f in w.catalog)
    && AllGenuine(w, s.server.index)
    && AllGenuine(w, s.receiver.index)
  }

  ghost predicate Flow(w: World, s: System) {
    && Clear(w)
    && Linked(w, s)
    && Orderly(w, s)
    && RS.Sound(s.receiver)
    && Phase(w, s.receiver, InFlight(w, s))
  }

  // ---- Queues ----

  lemma {:induction false} QueueAppend(queue: seq<Payload>, p: Payload)
    ensures Data(queue + [p]) == Data(queue) + if p.TransmitChunk? then p.data else []
    ensures Asks(queue + [p]) == Asks(queue) + if p.RequestChunk? then [p] else []
  {
    if queue == [] {
      assert [] + [p] == [p] && Data([p]) == (if p.TransmitChunk? then p.data else []) + Data([]);
      assert Asks([p]) == (if p.RequestChunk? then [p] else []) + Asks([]);
    } else {
      QueueAppend(queue[1..], p);
      assert (queue + [p])[1..] == queue[1..] + [p];
      ConcatAssociates(if queue[0].TransmitChunk? then queue[0].data else [], Data(queue[1..]),
                       if p.TransmitChunk? then p.data else []);
      ConcatAssociates(if queue[0].RequestChunk? then [queue[0]] else [], Asks(queue[1..]),
                       if p.RequestChunk? then [p] else []);
    }
  }

  /** A message that is appended and is neither a block nor a chunk request. */
  lemma NoiseAppend(queue: seq<Payload>, p: Payload)
    requires !p.TransmitChunk? && !p.RequestChunk?
    ensures Data(queue + [p]) == Data(queue) && Asks(queue + [p]) == Asks(queue)
  {
    QueueAppend(queue, p);
  }

  lemma Singleton<T>(a: seq<T>, b: seq<T>, x: T)
    requires a + b == [x]
    ensures a != [] ==> a == [x] && b == []
    ensures a == [] ==> b == [x]
  {
    assert |a| + |b| == 1;
    assert a != [] ==> (a + b)[0] == a[0];
    assert a == [] ==> a + b == b;
  }

  lemma {:induction false} AsksConcat(a: seq<Payload>, b: seq<Payload>)
    ensures Asks(a + b) == Asks(a) + Asks(b)
  {
    if a == [] {
      assert a + b == b;
    } else {
      AsksConcat(a[1..], b);
      assert (a + b)[0] == a[0] && (a + b)[1..] == a[1..] + b;
      ConcatAssociates(if a[0].RequestChunk? then [a[0]] else [], Asks(a[1..]), Asks(b));
    }
  }

  /** The one request in two queues moves from the front of the first to the end of the second. */
  lemma AskMoves(from: seq<Payload>, to: seq<Payload>, ask: Payload)
    requires Asks(from) + Asks(to) == [ask] && from != [] && from[0].RequestChunk?
    ensures from[0] == ask && Asks(from[1..]) + Asks(to + [ask]) == [ask]
  {
    assert Asks(from) == [from[0]] + Asks(from[1..]);
    Singleton(Asks(from), Asks(to), ask);
    QueueAppend(to, ask);
  }

  /** The one request in two queues is taken from the front of the second. */
  lemma AskTaken(before: seq<Payload>, queue: seq<Payload>, ask: Payload)
    requires Asks(before) + Asks(queue) == [ask] && queue != [] && queue[0].RequestChunk?
    ensures queue[0] == ask && Asks(before) == [] && Asks(queue[1..]) == []
  {
    assert Asks(queue) == [queue[0]] + Asks(queue[1..]);
    Singleton(Asks(before), Asks(queue), ask);
  }

  // ---- The server's steps ----

  /** The reply to a request for metadata. */
  function Reply(index: seq<Entry>, after: i64): Payload {
    TransmitMeta(V.MetasOf(ModifiedAfter(index, after)))
  }

  /** A request from the Receiver: passed on, or answered; the index stays, and nothing else changes for the two. */
  lemma ServeRequest(w: World, s: System, p: Payload, now: i64)
    requires Linked(w, s) && MayAsk(p)
    ensures var t := s.(server := V.Step(s.server, V.Incoming(w.ra, p, now)));
            && Linked(w, t) && t.server.index == s.server.index
            && RQueue(w, t) == RQueue(w, s) + (if p.RequestMeta? then [Reply(s.server.index, p.after)] else [])
            && SQueue(w, t) == SQueue(w, s) + (if p.RequestChunk? then [p] else [])
  {
    VS.ByRoleIs(s.server, w.sa);
    VS.StepSafe(s.server, V.Incoming(w.ra, p, now));
    var t := V.Step(s.server, V.Incoming(w.ra, p, now));
    if p.RequestChunk? {
      assert t.clients[w.sa] == V.Append(s.server.clients[w.sa], p) && t.clients[w.ra] == s.server.clients[w.ra];
    } else {
      assert t.clients[w.ra] == V.Append(s.server.clients[w.ra], Reply(s.server.index, p.after));
      assert t.clients[w.sa] == s.server.clients[w.sa];
    }
  }

  /** What the server puts into the Receiver's channel for a message of the Sender. */
  function Passed(p: Payload, now: i64): seq<Payload> {
    if p.TransmitChunk? then [p] else if p.PublishMeta? then [NotifyUpdated(now)] else []
  }

  function IndexAfter(index: seq<Entry>, p: Payload, now: i64): seq<Entry> {
    match p
    case PublishMeta(m) => AddForMeta(index, m.(metaModified := now))
    case RemoveMeta(path) => Remove(index, path)
    case _ => index
  }

  /** A block, a publication or a withdrawal of the Sender. */
  lemma ServeOffer(w: World, s: System, p: Payload, now: i64)
    requires Linked(w, s) && (p.TransmitChunk? || p.PublishMeta? || p.RemoveMeta?)
    ensures var t := s.(server := V.Step(s.server, V.Incoming(w.sa, p, now)));
            && Linked(w, t) && t.server.index == IndexAfter(s.server.index, p, now)
            && RQueue(w, t) == RQueue(w, s) + Passed(p, now) && SQueue(w, t) == SQueue(w, s)
  {
    VS.ByRoleIs(s.server, w.ra);
    VS.StepSafe(s.server, V.Incoming(w.sa, p, now));
    var t := V.Step(s.server, V.Incoming(w.sa, p, now));
    assert t.clients[w.sa] == s.server.clients[w.sa];
    if p.RemoveMeta? {
      assert t.clients[w.ra] == s.server.clients[w.ra];
    } else {
      assert t.clients[w.ra] == V.Append(s.server.clients[w.ra], Passed(p, now)[0]);
    }
  }

  /** Whatever other clients do, the two channels and the index stay as they are. */
  lemma ServeOther(w: World, s: System, input: V.Input)
    requires Linked(w, s) && input.addr != w.ra && input.addr != w.sa
    ensures var t := s.(server := V.Step(s.server, input));
            && Linked(w, t) && t.server.index == s.server.index
            && RQueue(w, t) == RQueue(w, s) && SQueue(w, t) == SQueue(w, s)
  {
    VS.StepSafe(s.server, input);
    var a := input.addr;
    if a in s.server.clients {
      assert s.server.clients[a].role == V.Unidentified;
      assert V.Exists(s.server.clients, V.Receiver) && V.Exists(s.server.clients, V.Sender);
    }
    var t := V.Step(s.server, input);
    assert t.clients[w.ra] == s.server.clients[w.ra] && t.clients[w.sa] == s.server.clients[w.sa];
  }

  // ---- What stays genuine ----

  lemma Restamped(w: World, m: Meta, stamp: i64)
    requires Genuine(w, m)
    ensures Genuine(w, m.(metaModified := stamp))
  {
    var f :| f in w.catalog && Bare(f.meta) == Bare(m);
    assert Bare(m.(metaModified := stamp)) == Bare(m);
  }

  lemma IndexGenuine(w: World, index: seq<Entry>, p: Payload, now: i64)
    requires AllGenuine(w, index) && (p.PublishMeta? ==> Genuine(w, p.meta))
    ensures AllGenuine(w, IndexAfter(index, p, now))
  {
    if p.PublishMeta? {
      Restamped(w, p.meta, now);
    }
  }

  lemma {:induction false} ReplyGenuine(w: World, index: seq<Entry>, after: i64)
    requires AllGenuine(w, index)
    ensures forall m :: m in V.MetasOf(ModifiedAfter(index, after)) ==> Genuine(w, m)
  {
    if index != [] {
      assert index[0] in index;
      ReplyGenuine(w, index[1..], after);
      if index[0].meta.metaModified > after {
        var rest := ModifiedAfter(index[1..], after);
        assert ([index[0]] + rest)[1..] == rest;
        assert V.MetasOf([index[0]] + rest) == [index[0].meta] + V.MetasOf(rest);
      } else {
        assert [] + ModifiedAfter(index[1..], after) == ModifiedAfter(index[1..], after);
      }
    }
  }

  lemma CreatedIn(w: World, library: seq<Entry>, e: Entry)
    requires (forall f :: f in library ==> f in w.catalog) && e in w.catalog
    ensures forall f :: f in AddEntry(library, e) ==> f in w.catalog
  {
  }
}
