/**
 * From the first start of everything to the first file: a history in which two programs that know nothing log in, the
 * Sender publishes a file, and the Receiver learns of it, asks for it, and gets it; and one in which the Sender makes
 * the file anew in between, and the download stalls.
 */
module FirstDownload {
  import opened Base
  import opened Metadata
  import opened EntryList
  import opened Messages
  import opened Pipeline
  import opened PipelineFlow
  import opened TransferEnds
  import opened TransferExact
  import SyncReplies
  import R = ReceiverModel
  import RS = ReceiverSafety
  import V = ServerModel

  /** What the history is about. */
  datatype View = View(
    receiver: R.Receiver, rUp: seq<Payload>, index: seq<Entry>, rQueue: seq<Payload>, sUp: seq<Payload>,
    library: seq<Entry>)

  function ViewOf(w: World, s: System): View {
    View(s.receiver, s.rUp, s.server.index, RQueue(w, s), s.sUp, s.library)
  }

  /** `s` is a system in flow of which `v` is the view. */
  ghost predicate Shows(w: World, s: System, v: View) {
    Flow(w, s) && ViewOf(w, s) == v
  }

  lemma Delivers(w: World, s: System, v: View, after: R.Receiver, sent: seq<Payload>)
    requires Shows(w, s, v) && v.rQueue != []
    requires var result := R.ProcessMessage(w.digest, v.receiver, v.rQueue[0], R.Written);
             after == result.after && sent == Sends(result.out)
    ensures Enabled(w, s, ToReceiver)
    ensures Shows(w, Step(w, s, ToReceiver), v.(receiver := after, rUp := v.rUp + sent, rQueue := v.rQueue[1..]))
  {
    StepFlow(w, s, ToReceiver);
    SyncReplies.DeliveredQueue(w, s);
  }

  lemma Publishes(w: World, s: System, v: View, path: string, f: Entry)
    requires Shows(w, s, v) && FindEntry(v.library, path) == Some(f)
    ensures Shows(w, Step(w, s, Publish(path)), v.(sUp := v.sUp + [PublishMeta(f.meta)]))
  {
    StepFlow(w, s, Publish(path));
  }

  lemma Announces(w: World, s: System, v: View, m: Meta, now: i64)
    requires Shows(w, s, v) && v.sUp == [PublishMeta(m)]
    ensures Enabled(w, s, ServeSender(now))
    ensures Shows(w, Step(w, s, ServeSender(now)),
                  v.(sUp := [], index := AddForMeta(v.index, m.(metaModified := now)),
                     rQueue := v.rQueue + [NotifyUpdated(now)]))
  {
    StepFlow(w, s, ServeSender(now));
    ServeOffer(w, s, PublishMeta(m), now);
  }

  lemma Answers(w: World, s: System, v: View, after: i64, now: i64)
    requires Shows(w, s, v) && v.rUp == [RequestMeta(after)]
    ensures Enabled(w, s, ServeReceiver(now))
    ensures Shows(w, Step(w, s, ServeReceiver(now)), v.(rUp := [], rQueue := v.rQueue + [Reply(v.index, after)]))
  {
    StepFlow(w, s, ServeReceiver(now));
    ServeRequest(w, s, RequestMeta(after), now);
  }

  // ---- What the Receiver makes of the messages ----

  lemma Greeted(digest: Digest, r: R.Receiver)
    requires r.state == R.Initializing
    ensures var result := R.ProcessMessage(digest, r, LoginSuccess, R.Written);
            result.after == r.(state := R.Idle) && Sends(result.out) == []
  {
  }

  lemma Told(digest: Digest, r: R.Receiver)
    ensures var result := R.ProcessMessage(digest, r, NotifySenderStatus(Connected), R.Written);
            result.after == r && Sends(result.out) == []
  {
  }

  lemma Noticed(digest: Digest, r: R.Receiver, now: i64)
    requires r.state == R.Idle && now > r.lastUpdated
    ensures var result := R.ProcessMessage(digest, r, NotifyUpdated(now), R.Written);
            result.after == r && Sends(result.out) == [RequestMeta(r.lastUpdated)]
  {
    SendsOne(R.ProcessMessage(digest, r, NotifyUpdated(now), R.Written).out, RequestMeta(r.lastUpdated));
  }

  lemma Taught(digest: Digest, r: R.Receiver, m: Meta)
    requires r.state == R.Idle && r.index == []
    ensures var result := R.ProcessMessage(digest, r, TransmitMeta([m]), R.Written);
            result.after == r.(index := [FreshEntry(m)], saved := [FreshEntry(m)]) && Sends(result.out) == []
  {
    assert AddForMeta([], m) == [FreshEntry(m)] && [m][1..] == [];
    assert AddAll([], [m]) == AddAll([FreshEntry(m)], []);
  }

  lemma OneAdded(m: Meta)
    ensures AddForMeta([], m) == [FreshEntry(m)]
  {
  }

  lemma OneAnswer(m: Meta)
    requires m.metaModified > I64_MIN
    ensures AddForMeta([], m) == [FreshEntry(m)]
    ensures Reply([FreshEntry(m)], I64_MIN) == TransmitMeta([m])
  {
    var index := [FreshEntry(m)];
    assert ModifiedAfter(index, I64_MIN) == index + ModifiedAfter(index[1..], I64_MIN);
    assert V.MetasOf(index) == [m] + V.MetasOf(index[1..]);
    assert ModifiedAfter(index, I64_MIN) == index && V.MetasOf(index) == [m];
  }

  // ---- The history ----

  lemma Prepend(w: World, s: System, a: Action, t: System, rest: seq<Action>)
    requires Enabled(w, s, a) && t == Step(w, s, a) && Possible(w, t, rest)
    ensures Possible(w, s, [a] + rest) && Run(w, s, [a] + rest) == Run(w, t, rest)
  {
    assert ([a] + rest)[1..] == rest;
  }

  lemma {:induction false} Joined(w: World, s: System, xs: seq<Action>, ys: seq<Action>) returns (both: seq<Action>)
    requires Possible(w, s, xs) && Possible(w, Run(w, s, xs), ys)
    ensures Possible(w, s, both) && Run(w, s, both) == Run(w, Run(w, s, xs), ys)
    decreases |xs|
  {
    if xs == [] {
      both := ys;
    } else {
      var t := Step(w, s, xs[0]);
      var rest := Joined(w, t, xs[1..], ys);
      Prepend(w, s, xs[0], t, rest);
      both := [xs[0]] + rest;
    }
  }

  lemma One(w: World, s: System, a: Action)
    requires Enabled(w, s, a)
    ensures Possible(w, s, [a]) && Run(w, s, [a]) == Step(w, s, a)
  {
    assert [a][1..] == [];
    assert Run(w, Step(w, s, a), []) == Step(w, s, a);
  }

  lemma Two(w: World, s: System, a: Action, t: System, b: Action)
    requires Enabled(w, s, a) && t == Step(w, s, a) && Enabled(w, t, b)
    ensures Possible(w, s, [a, b]) && Run(w, s, [a, b]) == Step(w, t, b)
  {
    One(w, t, b);
    assert [a, b][1..] == [b];
  }

  /** The beginning: nobody knows anything, and the two greetings are on their way to the Receiver. */
  function Beginning(disk: R.Disk, library: seq<Entry>): View {
    View(R.Start([], disk), [], [], [LoginSuccess, NotifySenderStatus(Connected)], [], library)
  }

  /** It is how two programs and a server that are all started for the first time begin. */
  lemma Begins(w: World, server: V.Server, disk: R.Disk, library: seq<Entry>, now: i64)
    requires Clear(w) && server.clients == map[] && server.saved == server.index == [] && server.running
    requires forall f :: f in library ==> f in w.catalog
    ensures Shows(w, System(R.Start([], disk), [], V.Run(server, Logins(w, server, now)), 0, 0, library, [], []),
                  Beginning(disk, library))
  {
    RS.EmptyStartSound(disk);
    FlowBegins(w, server, R.Start([], disk), library, now);
  }

  /** The Receiver is welcome. */
  function Welcome(disk: R.Disk): R.Receiver {
    R.Start([], disk).(state := R.Idle)
  }

  /** The Receiver is idle, and knows of one file. */
  function Knowing(disk: R.Disk, library: seq<Entry>, m: Meta): View {
    var r := Welcome(disk).(index := [FreshEntry(m)], saved := [FreshEntry(m)]);
    View(r, [], [FreshEntry(m)], [], [], library)
  }

  lemma LogsIn(w: World, s: System, disk: R.Disk, library: seq<Entry>)
    requires Shows(w, s, Beginning(disk, library))
    ensures Possible(w, s, [ToReceiver, ToReceiver])
    ensures Shows(w, Run(w, s, [ToReceiver, ToReceiver]), View(Welcome(disk), [], [], [], [], library))
  {
    var v := Beginning(disk, library);
    var idle := Welcome(disk);
    Greeted(w.digest, v.receiver);
    Delivers(w, s, v, idle, []);
    var u := v.(receiver := idle, rQueue := [NotifySenderStatus(Connected)]);
    assert v.rQueue[1..] == u.rQueue && v.rUp + [] == v.rUp;
    Told(w.digest, idle);
    var t := Step(w, s, ToReceiver);
    Delivers(w, t, u, idle, []);
    assert u.rQueue[1..] == [];
    Two(w, s, ToReceiver, t, ToReceiver);
  }

  /** A file is published, and the Receiver is about to be told. */
  lemma Publication(w: World, s: System, r: R.Receiver, library: seq<Entry>, f: Entry, now: i64)
    requires Shows(w, s, View(r, [], [], [], [], library)) && FindEntry(library, f.meta.path) == Some(f)
    ensures Possible(w, s, [Publish(f.meta.path), ServeSender(now)])
    ensures Shows(w, Run(w, s, [Publish(f.meta.path), ServeSender(now)]),
                  View(r, [], [FreshEntry(f.meta.(metaModified := now))], [NotifyUpdated(now)], [], library))
  {
    var v := View(r, [], [], [], [], library);
    var u := v.(sUp := [PublishMeta(f.meta)]);
    Publishes(w, s, v, f.meta.path, f);
    assert v.sUp + [PublishMeta(f.meta)] == u.sUp;
    var t := Step(w, s, Publish(f.meta.path));
    Announces(w, t, u, f.meta, now);
    OneAdded(f.meta.(metaModified := now));
    assert u.rQueue + [NotifyUpdated(now)] == [NotifyUpdated(now)];
    Two(w, s, Publish(f.meta.path), t, ServeSender(now));
  }

  /** It is told, and asks. */
  lemma Hears(w: World, s: System, v: View, index: seq<Entry>, now: i64)
    requires v.rQueue == [NotifyUpdated(now)] && v.rUp == [] && v.index == index && Shows(w, s, v)
    requires v.receiver.state == R.Idle && v.receiver.lastUpdated < now
    ensures Enabled(w, s, ToReceiver)
    ensures Shows(w, Step(w, s, ToReceiver), v.(rUp := [RequestMeta(v.receiver.lastUpdated)], rQueue := []))
  {
    Noticed(w.digest, v.receiver, now);
    Delivers(w, s, v, v.receiver, [RequestMeta(v.receiver.lastUpdated)]);
    assert v.rQueue[1..] == [];
    assert v.rUp + [RequestMeta(v.receiver.lastUpdated)] == [RequestMeta(v.receiver.lastUpdated)];
  }

  /** The server answers. */
  lemma HearsAndAsks(w: World, s: System, v: View, index: seq<Entry>, now: i64, reply: Payload)
    requires v.rQueue == [NotifyUpdated(now)] && v.rUp == [] && v.index == index && Shows(w, s, v)
    requires v.receiver.state == R.Idle && v.receiver.lastUpdated < now && reply == Reply(index, v.receiver.lastUpdated)
    ensures Possible(w, s, [ToReceiver, ServeReceiver(now)])
    ensures Shows(w, Run(w, s, [ToReceiver, ServeReceiver(now)]), v.(rQueue := [reply]))
  {
    Hears(w, s, v, index, now);
    var t := Step(w, s, ToReceiver);
    var u := v.(rUp := [RequestMeta(v.receiver.lastUpdated)], rQueue := []);
    Answers(w, t, u, v.receiver.lastUpdated, now);
    assert u.rQueue + [reply] == [reply] && u.(rUp := [], rQueue := [reply]) == v.(rQueue := [reply]);
    Two(w, s, ToReceiver, t, ServeReceiver(now));
  }

  /** The reply comes: the Receiver knows the file. */
  lemma Learns(w: World, s: System, disk: R.Disk, library: seq<Entry>, m: Meta)
    requires m.metaModified > I64_MIN
    requires Shows(w, s, View(Welcome(disk), [], [FreshEntry(m)], [Reply([FreshEntry(m)], I64_MIN)], [], library))
    ensures Possible(w, s, [ToReceiver]) && Shows(w, Run(w, s, [ToReceiver]), Knowing(disk, library, m))
  {
    var v := View(Welcome(disk), [], [FreshEntry(m)], [Reply([FreshEntry(m)], I64_MIN)], [], library);
    OneAnswer(m);
    Taught(w.digest, v.receiver, m);
    Delivers(w, s, v, Knowing(disk, library, m).receiver, []);
    assert v.rQueue[1..] == [] && v.rUp + [] == [];
    One(w, s, ToReceiver);
  }

  /** From the first start of everything, the Receiver comes to know any file that the Sender has. */
  lemma Knows(w: World, s: System, disk: R.Disk, library: seq<Entry>, f: Entry, now: i64) returns (actions: seq<Action>)
    requires Shows(w, s, Beginning(disk, library)) && FindEntry(library, f.meta.path) == Some(f) && now > I64_MIN
    ensures Possible(w, s, actions)
    ensures Shows(w, Run(w, s, actions), Knowing(disk, library, f.meta.(metaModified := now)))
  {
    var m := f.meta.(metaModified := now);
    actions := [ToReceiver, ToReceiver];
    LogsIn(w, s, disk, library);
    var t := Run(w, s, actions);
    Publication(w, t, Welcome(disk), library, f, now);
    actions := Joined(w, s, actions, [Publish(f.meta.path), ServeSender(now)]);
    t := Run(w, s, actions);
    var told := View(Welcome(disk), [], [FreshEntry(m)], [NotifyUpdated(now)], [], library);
    HearsAndAsks(w, t, told, [FreshEntry(m)], now, Reply([FreshEntry(m)], I64_MIN));
    actions := Joined(w, s, actions, [ToReceiver, ServeReceiver(now)]);
    t := Run(w, s, actions);
    Learns(w, t, disk, library, m);
    actions := Joined(w, s, actions, [ToReceiver]);
  }

  // ---- The file, or the stall ----

  /** Two files with the same chunks that agree chunk by chunk are the same. */
  lemma {:induction false} SamePrefix(chunks: seq<Chunk>, size: nat, a: Bytes, b: Bytes, i: nat)
    requires Tiled(chunks, size) && |a| == |b| == size && i <= |chunks|
    requires forall k :: 0 <= k < |chunks| ==> Part(a, chunks[k]) == Part(b, chunks[k])
    ensures Edge(chunks, size, i) <= size && a[..Edge(chunks, size, i)] == b[..Edge(chunks, size, i)]
  {
    EdgesAscend(chunks, size, i, |chunks|);
    if i > 0 {
      SamePrefix(chunks, size, a, b, i - 1);
      assert Abuts(chunks, size, i - 1);
      var lo, hi := Edge(chunks, size, i - 1), Edge(chunks, size, i);
      assert a[..hi] == a[..lo] + a[lo..hi] && b[..hi] == b[..lo] + b[lo..hi];
      assert a[lo..hi] == Part(a, chunks[i - 1]) && b[lo..hi] == Part(b, chunks[i - 1]);
    }
  }

  /** The file that published metadata is about is the one that it was made of. */
  lemma ContentIs(w: World, f: Entry, now: i64)
    requires Clear(w) && f in w.catalog
    ensures Genuine(w, f.meta.(metaModified := now))
    ensures Content(w, f.meta.(metaModified := now)) == w.files[f.localPath]
  {
    var m := f.meta.(metaModified := now);
    assert Bare(f.meta) == Bare(m);
    var g := Source(w, Bare(m));
    assert Sourced(w, f) && Sourced(w, g) && Agree(w, f, g);
    assert g.meta.chunks == f.meta.chunks && g.meta.size == f.meta.size;
    var a, b, n := w.files[f.localPath], w.files[g.localPath], |f.meta.chunks|;
    SamePrefix(f.meta.chunks, f.meta.size, a, b, n);
    assert a[..|a|] == a && b[..|b|] == b;
  }

  lemma KnownEntry(w: World, s: System, disk: R.Disk, library: seq<Entry>, m: Meta)
    requires Shows(w, s, Knowing(disk, library, m))
    ensures FindEntry(s.receiver.index, m.path) == Some(FreshEntry(m)) && s.receiver.state == R.Idle
    ensures Faithful(w, s) && !OthersReceived(s, m.path)
  {
    var e := FreshEntry(m);
    assert s.receiver.index == [e] && e in s.receiver.index;
    GenuineDescribes(w, m);
    assert RS.Sound(s.receiver);
  }

  /** Some other file has received chunks. */
  ghost predicate OthersReceived(s: System, path: string) {
    exists e :: e in s.receiver.index && e.meta.path != path && e.received != {}
  }

  lemma FoundIn(library: seq<Entry>, f: Entry)
    requires FindEntry(library, f.meta.path) == Some(f)
    ensures f in library
  {
  }

  /** The library offers what was made of its own entries. */
  lemma OwnOffered(library: seq<Entry>, f: Entry, now: i64)
    requires FindEntry(library, f.meta.path) == Some(f)
    ensures Offers(library, f.meta.(metaModified := now))
  {
  }

  /**
   * The first file: two programs that know nothing, and any file of the Sender that is not empty. There is a history at
   * whose end the Receiver has the file, byte for byte, under any name.
   */
  lemma FileArrives(w: World, s: System, disk: R.Disk, library: seq<Entry>, f: Entry, localPath: string, now: i64)
    returns (actions: seq<Action>)
    requires Shows(w, s, Beginning(disk, library)) && FindEntry(library, f.meta.path) == Some(f) && now > I64_MIN
    requires f.meta.chunks != [] && localPath != ""
    ensures Possible(w, s, actions) && AtRest(w, Run(w, s, actions))
    ensures f.localPath in w.files && R.FileAt(Run(w, s, actions).receiver.disk, localPath) == w.files[f.localPath]
  {
    var m := f.meta.(metaModified := now);
    FoundIn(library, f);
    assert Sourced(w, f);
    var before := Knows(w, s, disk, library, f, now);
    var t := Run(w, s, before);
    KnownEntry(w, t, disk, library, m);
    ContentIs(w, f, now);
    OwnOffered(library, f, now);
    var a := Request(f.meta.path, localPath);
    var after := RequestCanDeliver(w, t, f.meta.path, localPath);
    One(w, t, a);
    actions := Joined(w, s, before, [a]);
    actions := Joined(w, s, actions, after);
  }

  /**
   * The first stall: in the same history the Sender makes the file anew, with another hash for its first chunk or with
   * no chunk at all, before the Receiver asks for it. Then the download stalls.
   */
  lemma FileStalls(
    w: World, s: System, disk: R.Disk, library: seq<Entry>, f: Entry, g: Entry, localPath: string, now: i64)
    returns (actions: seq<Action>)
    requires Shows(w, s, Beginning(disk, library)) && FindEntry(library, f.meta.path) == Some(f) && now > I64_MIN
    requires f.meta.chunks != [] && localPath != "" && g in w.catalog && g.meta.path == f.meta.path
    requires g.meta.chunks == [] || g.meta.chunks[0].hash != f.meta.chunks[0].hash
    ensures Possible(w, s, actions) && AtRest(w, Run(w, s, actions)) && Stalled(w, Run(w, s, actions))
  {
    var m := f.meta.(metaModified := now);
    var before := Knows(w, s, disk, library, f, now);
    var t := Run(w, s, before);
    KnownEntry(w, t, disk, library, m);
    StepFlow(w, t, Create(g));
    var u := Step(w, t, Create(g));
    AddedFound(library, g);
    assert FindEntry(u.library, f.meta.path) == Some(g);
    var a := Request(f.meta.path, localPath);
    StepFlow(w, u, a);
    RequestPends(w, u, f.meta.path, localPath);
    PotentialNat(w, Step(w, u, a));
    var after := HopelessStalls(w, Step(w, u, a));
    Two(w, t, Create(g), u, a);
    actions := Joined(w, s, before, [Create(g), a]);
    actions := Joined(w, s, actions, after);
  }

  lemma AddedFound(library: seq<Entry>, g: Entry)
    ensures FindEntry(AddEntry(library, g), g.meta.path) == Some(g)
  {
    var after := AddEntry(library, g);
    if Find(library, g.meta.path).Some? {
      assert after[Find(library, g.meta.path).value] == g;
      FirstAt(after, g.meta.path, Find(library, g.meta.path).value);
    } else {
      assert after[|library|] == g;
      FirstAt(after, g.meta.path, |library|);
    }
  }

  lemma FirstAt(entries: seq<Entry>, path: string, i: nat)
    requires i < |entries| && entries[i].meta.path == path
    requires forall j :: 0 <= j < i ==> entries[j].meta.path != path
    ensures Find(entries, path) == Some(i)
  {
  }

  lemma RequestSends(r: R.Receiver, path: string, localPath: string, p: Payload)
    requires RS.Sound(r) && r.state == R.Idle && FindEntry(r.index, path).Some?
    requires var chunks := FindEntry(r.index, path).value.meta.chunks;
             chunks != [] && p == RequestChunk(path, 0, chunks[0].hash)
    ensures Sends(R.RequestFile(r, path, localPath).out) == [p]
    ensures Asks(Sends(R.RequestFile(r, path, localPath).out)) == [p]
  {
    var i := Find(r.index, path).value;
    ReplaceFind(r.index, i, r.index[i].(localPath := localPath, received := {}));
    SendsOne(R.RequestFile(r, path, localPath).out, p);
  }

  lemma RequestPends(w: World, s: System, path: string, localPath: string)
    requires Flow(w, s) && s.receiver.state == R.Idle && localPath != "" && FindEntry(s.receiver.index, path).Some?
    requires var chunks := FindEntry(s.receiver.index, path).value.meta.chunks;
             chunks != [] && !Offered(s.library, path, 0, chunks[0].hash)
    ensures Hopeless(w, Step(w, s, Request(path, localPath)))
  {
    var p := RequestChunk(path, 0, FindEntry(s.receiver.index, path).value.meta.chunks[0].hash);
    RequestSends(s.receiver, path, localPath, p);
    PendsAfter(w, s, R.RequestFile(s.receiver, path, localPath), p);
  }

  lemma PendsAfter(w: World, s: System, result: R.Result, p: Payload)
    requires Flow(w, s) && s.receiver.state == R.Idle && Asks(Sends(result.out)) == [p] && p.RequestChunk?
    requires !Offered(s.library, p.path, p.index, p.hash)
    ensures Hopeless(w, ReceiverDoes(s, result))
  {
    DoesFlight(w, s, result);
  }
}
