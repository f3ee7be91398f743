/**
 * Stopping a download and going on later: after a stop the system comes to rest with not a byte in flight, whatever of
 * the stopped transmission still arrives, and a resume from there delivers the file.
 */
module StopAndResume {
  import opened Base
  import opened Metadata
  import opened EntryList
  import opened Messages
  import opened Pipeline
  import opened PipelineFlow
  import opened TransferEnds
  import opened TransferExact
  import opened ReceiverPrefix
  import opened ReceiverIntegrity
  import R = ReceiverModel
  import RS = ReceiverSafety
  import V = ServerModel
  import VS = ServerSafety
  import S = Sender

  /** The system, and whether the token of the Sender's last transmission has been cancelled. */
  datatype Halting = Halting(sys: System, cancelled: bool)

  /** `Cut` is the end of a transmission whose token has been cancelled; it comes some time after the cancellation. */
  datatype Move = Do(action: Action) | Cut

  /** What the Sender makes of the next message, as to the token: a new one, or a cancellation. */
  ghost function Token(w: World, h: Halting, a: Action): bool
    requires Enabled(w, h.sys, a)
  {
    if !a.ToSender? then h.cancelled
    else if SQueue(w, h.sys)[0].StopChunk? then h.cancelled || h.sys.tasks != []
    else if |SenderDoes(w, h.sys, SQueue(w, h.sys)[0])| > |h.sys.tasks| then false
    else h.cancelled
  }

  ghost predicate Can(w: World, h: Halting, m: Move) {
    match m
    case Do(a) => Enabled(w, h.sys, a) && !a.Request? && !a.Resume?
    case Cut => h.cancelled && h.sys.tasks != [] && !S.Over(h.sys.tasks[|h.sys.tasks| - 1])
  }

  function CutTasks(tasks: seq<S.Task>): seq<S.Task>
    requires tasks != []
  {
    tasks[|tasks| - 1 := tasks[|tasks| - 1].(ended := true)]
  }

  ghost function After(w: World, h: Halting, m: Move): Halting
    requires Can(w, h, m)
  {
    match m
    case Do(a) => Halting(Step(w, h.sys, a), Token(w, h, a))
    case Cut => h.(sys := h.sys.(tasks := CutTasks(h.sys.tasks)))
  }

  // ---- The invariant of a system that is being drained ----

  ghost predicate MayUp(p: Payload) {
    MayAsk(p) || p.StopChunk?
  }

  ghost predicate Kinds(w: World, s: System) {
    && (forall p :: p in s.rUp ==> MayUp(p))
    && (forall p :: p in s.sUp ==> MaySend(w, p))
    && (forall p :: p in RQueue(w, s) ==> MayReceive(w, p))
    && (forall p :: p in SQueue(w, s) ==> !p.TransmitChunk?)
    && (forall f :: f in s.library ==> f in w.catalog)
    && AllGenuine(w, s.server.index)
    && AllGenuine(w, s.receiver.index)
  }

  /** At most one request is on its way, or one transmission under way. */
  ghost predicate Loose(asks: seq<Payload>, tasks: seq<S.Task>) {
    && |asks| <= 1 && (asks != [] ==> AllOver(tasks))
    && (tasks != [] ==> AllOver(tasks[..|tasks| - 1]))
    && (tasks != [] ==> S.Over(tasks[|tasks| - 1]) || Sane(tasks[|tasks| - 1]))
  }

  ghost predicate Draining(w: World, s: System) {
    && Clear(w) && Linked(w, s) && Kinds(w, s)
    && RS.Sound(s.receiver) && s.receiver.state == R.Idle
    && Loose(InFlight(w, s).asks, s.tasks)
  }

  // ---- The stop ----

  /** The user stops the download. */
  function Stopped(s: System): System {
    ReceiverDoes(s, R.StopTransmission(s.receiver))
  }

  lemma StopSends(r: R.Receiver)
    requires r.state == R.RequestedChunk
    ensures Sends(R.StopTransmission(r).out) == [StopChunk] && Asks(Sends(R.StopTransmission(r).out)) == []
  {
    SendsOne(R.StopTransmission(r).out, StopChunk);
  }

  lemma FlowIsLoose(w: World, s: System)
    requires Flow(w, s)
    ensures Loose(InFlight(w, s).asks, s.tasks)
  {
    var f := InFlight(w, s);
    if f.tasks != [] && AllOver(f.tasks) {
      assert f.tasks[|f.tasks| - 1] in f.tasks;
      assert forall t :: t in f.tasks[..|f.tasks| - 1] ==> t in f.tasks;
    }
  }

  lemma StopDrains(w: World, s: System)
    requires Flow(w, s) && s.receiver.state == R.RequestedChunk
    ensures Draining(w, Stopped(s)) && Stopped(s).receiver == s.receiver.(state := R.Idle)
  {
    var result := R.StopTransmission(s.receiver);
    StopSends(s.receiver);
    DoesFlight(w, s, result);
    NothingAsked(w, s, result);
    FlowIsLoose(w, s);
  }

  // ---- Every step keeps draining ----

  /** A stop from the Receiver is passed on. */
  lemma ServeStop(w: World, s: System, now: i64)
    requires Linked(w, s)
    ensures var t := s.(server := V.Step(s.server, V.Incoming(w.ra, StopChunk, now)));
            && Linked(w, t) && t.server.index == s.server.index
            && RQueue(w, t) == RQueue(w, s) && SQueue(w, t) == SQueue(w, s) + [StopChunk]
  {
    VS.ByRoleIs(s.server, w.sa);
    VS.StepSafe(s.server, V.Incoming(w.ra, StopChunk, now));
    var t := V.Step(s.server, V.Incoming(w.ra, StopChunk, now));
    assert t.clients[w.sa] == V.Append(s.server.clients[w.sa], StopChunk);
    assert t.clients[w.ra] == s.server.clients[w.ra];
  }

  /** What a message from the Receiver adds to the two channels. */
  function ToR(s: System, p: Payload): seq<Payload> {
    if p.RequestMeta? then [Reply(s.server.index, p.after)] else []
  }

  function ToS(p: Payload): seq<Payload> {
    if p.RequestMeta? then [] else [p]
  }

  /** The system after the server has handled the Receiver's next message. */
  ghost predicate Handled(w: World, s: System, t: System) {
    && s.rUp != [] && t.receiver == s.receiver && t.library == s.library && t.sUp == s.sUp && t.tasks == s.tasks
    && Linked(w, t) && t.rUp == s.rUp[1..] && t.server.index == s.server.index
    && RQueue(w, t) == RQueue(w, s) + ToR(s, s.rUp[0]) && SQueue(w, t) == SQueue(w, s) + ToS(s.rUp[0])
  }

  lemma HandleUp(w: World, s: System, now: i64, t: System)
    requires Linked(w, s) && s.rUp != [] && MayUp(s.rUp[0])
    requires t == s.(rUp := s.rUp[1..], server := V.Step(s.server, V.Incoming(w.ra, s.rUp[0], now)))
    ensures Handled(w, s, t)
  {
    var p := s.rUp[0];
    if p.StopChunk? {
      ServeStop(w, s, now);
      assert RQueue(w, s) + [] == RQueue(w, s);
    } else {
      ServeRequest(w, s, p, now);
    }
  }

  /** A request moves from the front of one queue to the end of the other; the number of requests stays. */
  lemma AsksPass(from: seq<Payload>, to: seq<Payload>)
    requires from != []
    ensures |Asks(from[1..]) + Asks(to + ToS(from[0]))| == |Asks(from) + Asks(to)|
  {
    QueueAppend(to, from[0]);
    assert Asks(from) == (if from[0].RequestChunk? then [from[0]] else []) + Asks(from[1..]);
    assert to + [] == to;
  }

  lemma HandledDrains(w: World, s: System, t: System)
    requires Draining(w, s) && Handled(w, s, t)
    ensures Draining(w, t)
  {
    var p := s.rUp[0];
    assert p in s.rUp;
    ReplyGenuine(w, s.server.index, if p.RequestMeta? then p.after else 0);
    AsksPass(s.rUp, SQueue(w, s));
    HandledKinds(w, s, t);
  }

  lemma HandledKinds(w: World, s: System, t: System)
    requires Kinds(w, s) && Handled(w, s, t) && MayUp(s.rUp[0])
    requires s.rUp[0].RequestMeta? ==> MayReceive(w, Reply(s.server.index, s.rUp[0].after))
    ensures Kinds(w, t)
  {
  }

  /** The system after the server has handled the Sender's next message. */
  ghost predicate Relayed(w: World, s: System, t: System, now: i64) {
    && s.sUp != [] && t.receiver == s.receiver && t.library == s.library && t.rUp == s.rUp && t.tasks == s.tasks
    && Linked(w, t) && t.sUp == s.sUp[1..] && t.server.index == IndexAfter(s.server.index, s.sUp[0], now)
    && RQueue(w, t) == RQueue(w, s) + Passed(s.sUp[0], now) && SQueue(w, t) == SQueue(w, s)
  }

  lemma HandleOffer(w: World, s: System, now: i64, t: System)
    requires Linked(w, s) && s.sUp != [] && MaySend(w, s.sUp[0])
    requires t == s.(sUp := s.sUp[1..], server := V.Step(s.server, V.Incoming(w.sa, s.sUp[0], now)))
    ensures Relayed(w, s, t, now)
  {
    ServeOffer(w, s, s.sUp[0], now);
  }

  lemma RelayedDrains(w: World, s: System, t: System, now: i64)
    requires Draining(w, s) && Relayed(w, s, t, now)
    ensures Draining(w, t)
  {
    assert s.sUp[0] in s.sUp;
    IndexGenuine(w, s.server.index, s.sUp[0], now);
  }

  /** A block that comes after the stop is refused, and changes nothing. */
  lemma BlockRefused(digest: Digest, r: R.Receiver, p: Payload)
    requires r.state != R.RequestedChunk && p.TransmitChunk?
    ensures R.ProcessMessage(digest, r, p, R.Written) == R.Fail(r, R.WrongState)
  {
  }

  /** What a delivery does while nothing is downloaded. */
  lemma DeliveryIdle(w: World, r: R.Receiver, p: Payload)
    requires RS.Sound(r) && r.state == R.Idle && MayReceive(w, p) && AllGenuine(w, r.index)
    ensures var result := R.ProcessMessage(w.digest, r, p, R.Written);
            && RS.Sound(result.after) && AllGenuine(w, result.after.index) && result.after.state == R.Idle
            && result.after.disk == r.disk
            && (Sends(result.out) == [] || (p.NotifyUpdated? && Sends(result.out) == [RequestMeta(r.lastUpdated)]))
  {
    if p.TransmitChunk? {
      BlockRefused(w.digest, r, p);
    } else {
      RS.MessageSound(w.digest, r, p, R.Written);
      OtherMessage(w.digest, r, p);
      OtherGenuine(w, r, p);
      StaysIdle(w.digest, r, p);
    }
  }

  lemma StaysIdle(digest: Digest, r: R.Receiver, p: Payload)
    requires r.state == R.Idle && !p.TransmitChunk?
    ensures R.ProcessMessage(digest, r, p, R.Written).after.state == R.Idle
    ensures p.NotifyUpdated? || Sends(R.ProcessMessage(digest, r, p, R.Written).out) == []
  {
    if !p.NotifyUpdated? {
      SendsNone(R.ProcessMessage(digest, r, p, R.Written).out);
    }
  }

  /** The system after the Receiver has done `result` and taken a message. */
  lemma DeliveredDrains(w: World, s: System, t: System, result: R.Result)
    requires Draining(w, s) && RQueue(w, s) != [] && t == ReceiverDoes(s, result).(rRead := s.rRead + 1)
    requires RS.Sound(result.after) && AllGenuine(w, result.after.index) && result.after.state == R.Idle
    requires Sends(result.out) == [] || Sends(result.out) == [RequestMeta(s.receiver.lastUpdated)]
    ensures Draining(w, t)
  {
    AsksNone(Sends(result.out), s.receiver.lastUpdated);
    NothingAsked(w, s, result);
    var u := ReceiverDoes(s, result);
    DoesFlight(w, s, result);
    DoneKinds(w, s, u, s.receiver.lastUpdated);
    NextRead(w, u, t);
  }

  lemma DoneKinds(w: World, s: System, u: System, after: i64)
    requires Kinds(w, s) && u == s.(receiver := u.receiver, rUp := u.rUp) && AllGenuine(w, u.receiver.index)
    requires u.rUp == s.rUp + [] || u.rUp == s.rUp + [RequestMeta(after)]
    ensures Kinds(w, u)
  {
    SameQueues(w, s, u);
  }

  lemma NextRead(w: World, u: System, t: System)
    requires Linked(w, u) && Kinds(w, u) && RQueue(w, u) != [] && t == u.(rRead := u.rRead + 1)
    ensures Linked(w, t) && Kinds(w, t) && InFlight(w, t).asks == InFlight(w, u).asks
  {
    assert RQueue(w, t) == RQueue(w, u)[1..] && SQueue(w, t) == SQueue(w, u);
  }

  lemma DeliverDrains(w: World, s: System, t: System)
    requires Draining(w, s) && RQueue(w, s) != [] && t == ReceiverDoes(s, Delivery(w, s)).(rRead := s.rRead + 1)
    ensures Draining(w, t)
  {
    assert RQueue(w, s)[0] in RQueue(w, s);
    DeliveryIdle(w, s.receiver, RQueue(w, s)[0]);
    DeliveredDrains(w, s, t, Delivery(w, s));
  }

  lemma AskDrains(w: World, s: System, after: i64)
    requires Draining(w, s)
    ensures Draining(w, ReceiverDoes(s, R.RequestNewMeta(s.receiver, after)))
  {
    var result := R.RequestNewMeta(s.receiver, after);
    SendsOne(result.out, RequestMeta(after));
    NothingAsked(w, s, result);
    DoneKinds(w, s, ReceiverDoes(s, result), after);
  }

  /** A message that joins the Sender's, beside blocks. */
  lemma SentDrains(w: World, s: System, p: Payload)
    requires Draining(w, s) && MaySend(w, p)
    ensures Draining(w, s.(sUp := s.sUp + [p]))
  {
    var t := s.(sUp := s.sUp + [p]);
    assert RQueue(w, t) == RQueue(w, s) && SQueue(w, t) == SQueue(w, s);
  }

  lemma CreateDrains(w: World, s: System, e: Entry)
    requires Draining(w, s) && e in w.catalog
    ensures Draining(w, s.(library := AddEntry(s.library, e)))
  {
    CreatedIn(w, s.library, e);
    var t := s.(library := AddEntry(s.library, e));
    assert RQueue(w, t) == RQueue(w, s) && SQueue(w, t) == SQueue(w, s);
  }

  lemma OtherDrains(w: World, s: System, input: V.Input)
    requires Draining(w, s) && input.addr != w.ra && input.addr != w.sa
    ensures Draining(w, s.(server := V.Step(s.server, input)))
  {
    ServeOther(w, s, input);
  }

  // ---- The Sender's side ----

  /** The transmissions may change as long as they stay loose. */
  lemma TasksDrain(w: World, s: System, tasks: seq<S.Task>)
    requires Draining(w, s) && Loose(InFlight(w, s).asks, tasks)
    ensures Draining(w, s.(tasks := tasks))
  {
    var t := s.(tasks := tasks);
    assert RQueue(w, t) == RQueue(w, s) && SQueue(w, t) == SQueue(w, s);
  }

  /** A transmission that begins is of a chunk that is all there. */
  lemma SpawnedSane(w: World, library: seq<Entry>, p: Payload, task: S.Task)
    requires Clear(w) && (forall f :: f in library ==> f in w.catalog) && p.RequestChunk?
    requires S.ProcessRequest(library, w.files, p.path, p.index, p.hash) == S.Spawned(task)
    ensures Sane(task)
  {
    var f := FindEntry(library, p.path).value;
    assert Sourced(w, f) && f.meta.chunks[p.index] in f.meta.chunks;
  }

  /** What the Sender makes of a message leaves the transmissions loose, with the message gone. */
  lemma ArrivalLoose(w: World, s: System, p: Payload, before: seq<Payload>, rest: seq<Payload>)
    requires Clear(w) && forall f :: f in s.library ==> f in w.catalog
    requires Loose(before + ((if p.RequestChunk? then [p] else []) + rest), s.tasks)
    ensures Loose(before + rest, SenderDoes(w, s, p))
  {
    if p.RequestChunk? {
      assert |before + ([p] + rest)| == |before| + 1 + |rest|;
      match S.ProcessRequest(s.library, w.files, p.path, p.index, p.hash)
      case Spawned(task) =>
        SpawnedSane(w, s.library, p, task);
        assert (s.tasks + [task])[..|s.tasks|] == s.tasks;
      case _ =>
    } else {
      assert before + ([] + rest) == before + rest;
    }
  }

  lemma ArriveDrains(w: World, s: System, t: System)
    requires Draining(w, s) && SQueue(w, s) != []
    requires t == s.(tasks := SenderDoes(w, s, SQueue(w, s)[0]), sRead := s.sRead + 1)
    ensures Draining(w, t)
  {
    var queue := SQueue(w, s);
    assert Asks(queue) == (if queue[0].RequestChunk? then [queue[0]] else []) + Asks(queue[1..]);
    ArrivalLoose(w, s, queue[0], Asks(s.rUp), Asks(queue[1..]));
    assert SQueue(w, t) == queue[1..] && RQueue(w, t) == RQueue(w, s);
  }

  /** A read, and the end of a transmission, leave at most the last transmission under way. */
  lemma ChangeLast(asks: seq<Payload>, tasks: seq<S.Task>, task: S.Task)
    requires Loose(asks, tasks) && tasks != [] && (S.Over(task) || (Sane(task) && asks == []))
    ensures Loose(asks, tasks[|tasks| - 1 := task])
  {
    var last := |tasks| - 1;
    var after := tasks[last := task];
    assert after[..last] == tasks[..last];
    if asks != [] {
      assert forall t :: t in after ==> t == task || t in tasks;
    }
  }

  lemma OnlyLastReads(asks: seq<Payload>, tasks: seq<S.Task>, j: nat)
    requires Loose(asks, tasks) && j < |tasks|
    ensures !S.Over(tasks[j]) ==> j == |tasks| - 1 && asks == [] && Sane(tasks[j])
  {
    assert tasks[j] in tasks;
    assert j < |tasks| - 1 ==> tasks[..|tasks| - 1][j] == tasks[j] && tasks[j] in tasks[..|tasks| - 1];
  }

  lemma ReadDrains(w: World, s: System, j: nat, n: nat)
    requires Draining(w, s) && j < |s.tasks| && S.CanRead(s.tasks[j], n)
    ensures Draining(w, s.(sUp := s.sUp + [TransmitChunk(S.Payload(s.tasks[j], n))],
                           tasks := s.tasks[j := S.Read(s.tasks[j], n)]))
  {
    OnlyLastReads(InFlight(w, s).asks, s.tasks, j);
    ReadConserves(s.tasks[j], n);
    ChangeLast(InFlight(w, s).asks, s.tasks, S.Read(s.tasks[j], n));
    TasksDrain(w, s, s.tasks[j := S.Read(s.tasks[j], n)]);
    SentDrains(w, s.(tasks := s.tasks[j := S.Read(s.tasks[j], n)]), TransmitChunk(S.Payload(s.tasks[j], n)));
  }

  lemma CutDrains(w: World, s: System)
    requires Draining(w, s) && s.tasks != []
    ensures Draining(w, s.(tasks := CutTasks(s.tasks)))
  {
    ChangeLast(InFlight(w, s).asks, s.tasks, s.tasks[|s.tasks| - 1].(ended := true));
    TasksDrain(w, s, CutTasks(s.tasks));
  }

  /** Draining goes on, whatever happens but a new download. */
  lemma UserDrains(w: World, s: System, a: Action)
    requires Draining(w, s) && Enabled(w, s, a) && !Machine(a) && !a.Request? && !a.Resume?
    ensures Draining(w, Step(w, s, a))
  {
    match a
    case AskForMeta => AskDrains(w, s, LastUpdated(s.receiver.index));
    case Create(e) => CreateDrains(w, s, e);
    case Publish(path) => PublishDrains(w, s, path);
    case Withdraw(path) => SentDrains(w, s, RemoveMeta(path));
    case Other(input) => OtherDrains(w, s, input);
  }

  lemma PublishDrains(w: World, s: System, path: string)
    requires Draining(w, s)
    ensures Draining(w, s.(sUp := s.sUp + Published(s, path)))
  {
    if FindEntry(s.library, path).Some? {
      SentDrains(w, s, PublishMeta(FindEntry(s.library, path).value.meta));
    } else {
      assert s.sUp + [] == s.sUp;
    }
  }

  lemma MachineDrains(w: World, s: System, a: Action)
    requires Draining(w, s) && Enabled(w, s, a) && Machine(a)
    ensures Draining(w, Step(w, s, a))
  {
    match a
    case ServeReceiver(now) =>
      assert s.rUp[0] in s.rUp;
      HandleUp(w, s, now, Step(w, s, a));
      HandledDrains(w, s, Step(w, s, a));
    case ServeSender(now) =>
      assert s.sUp[0] in s.sUp;
      HandleOffer(w, s, now, Step(w, s, a));
      RelayedDrains(w, s, Step(w, s, a), now);
    case ToReceiver => DeliverDrains(w, s, Step(w, s, a));
    case ToSender => ArriveDrains(w, s, Step(w, s, a));
    case ReadBlock(j, n) => ReadDrains(w, s, j, n);
  }

  lemma MoveDrains(w: World, h: Halting, m: Move)
    requires Draining(w, h.sys) && Can(w, h, m)
    ensures Draining(w, After(w, h, m).sys)
  {
    match m
    case Cut => CutDrains(w, h.sys);
    case Do(a) =>
      if Machine(a) {
        MachineDrains(w, h.sys, a);
      } else {
        UserDrains(w, h.sys, a);
      }
  }

  // ---- Draining ends ----

  function Sum(weigh: Payload -> nat, messages: seq<Payload>): nat {
    if messages == [] then 0 else weigh(messages[0]) + Sum(weigh, messages[1..])
  }

  lemma {:induction false} SumAppend(weigh: Payload -> nat, queue: seq<Payload>, p: Payload)
    ensures Sum(weigh, queue + [p]) == Sum(weigh, queue) + weigh(p)
  {
    if queue == [] {
      assert [] + [p] == [p] && [p][1..] == [];
    } else {
      SumAppend(weigh, queue[1..], p);
      assert (queue + [p])[0] == queue[0] && (queue + [p])[1..] == queue[1..] + [p];
    }
  }

  lemma SumConcat(weigh: Payload -> nat, queue: seq<Payload>, more: seq<Payload>)
    requires |more| <= 1
    ensures Sum(weigh, queue + more) == Sum(weigh, queue) + if more == [] then 0 else weigh(more[0])
  {
    if more == [] {
      assert queue + more == queue;
    } else {
      assert more == [more[0]];
      SumAppend(weigh, queue, more[0]);
    }
  }

  /** More than a whole transmission can still cause. */
  const WHOLE: nat := 3 * S.SAFE_SIZE + 1

  /** The steps that a message can still cause, by the queue it is in. */
  function Up(p: Payload): nat {
    match p
    case RequestChunk(_, _, _) => WHOLE + 1
    case RequestMeta(_) => 2
    case StopChunk => 2
    case _ => 1
  }

  function Down(p: Payload): nat {
    if p.RequestChunk? then WHOLE else 1
  }

  function Off(p: Payload): nat {
    match p
    case TransmitChunk(data) => 2 * |data|
    case PublishMeta(_) => 4
    case _ => 1
  }

  function On(p: Payload): nat {
    match p
    case TransmitChunk(data) => |data|
    case NotifyUpdated(_) => 3
    case _ => 1
  }

  function Toil(tasks: seq<S.Task>): nat {
    if tasks == [] then 0 else 3 * |Unread(tasks[|tasks| - 1])|
  }

  function Remaining(w: World, s: System): nat {
    Sum(Up, s.rUp) + Sum(Off, s.sUp) + Sum(On, RQueue(w, s)) + Sum(Down, SQueue(w, s)) + Toil(s.tasks)
  }

  lemma HandledWorks(w: World, s: System, t: System)
    requires Handled(w, s, t) && MayUp(s.rUp[0])
    ensures Remaining(w, t) < Remaining(w, s)
  {
    SumConcat(On, RQueue(w, s), ToR(s, s.rUp[0]));
    SumConcat(Down, SQueue(w, s), ToS(s.rUp[0]));
  }

  lemma RelayedWorks(w: World, s: System, t: System, now: i64)
    requires Relayed(w, s, t, now) && MaySend(w, s.sUp[0])
    ensures Remaining(w, t) < Remaining(w, s)
  {
    SumConcat(On, RQueue(w, s), Passed(s.sUp[0], now));
  }

  lemma DeliverWorks(w: World, s: System, t: System)
    requires Draining(w, s) && RQueue(w, s) != [] && t == ReceiverDoes(s, Delivery(w, s)).(rRead := s.rRead + 1)
    ensures Remaining(w, t) < Remaining(w, s)
  {
    var p := RQueue(w, s)[0];
    assert p in RQueue(w, s);
    DeliveryIdle(w, s.receiver, p);
    DeliveredLess(w, s, t, Delivery(w, s));
  }

  lemma DeliveredLess(w: World, s: System, t: System, result: R.Result)
    requires Linked(w, s) && RQueue(w, s) != [] && t == ReceiverDoes(s, result).(rRead := s.rRead + 1)
    requires var p := RQueue(w, s)[0];
             && MayReceive(w, p)
             && (Sends(result.out) == []
                 || (p.NotifyUpdated? && Sends(result.out) == [RequestMeta(s.receiver.lastUpdated)]))
    ensures Remaining(w, t) < Remaining(w, s)
  {
    SumConcat(Up, s.rUp, Sends(result.out));
    assert RQueue(w, t) == RQueue(w, s)[1..] && SQueue(w, t) == SQueue(w, s);
  }

  lemma ArriveWorks(w: World, s: System, t: System)
    requires Draining(w, s) && SQueue(w, s) != []
    requires t == s.(tasks := SenderDoes(w, s, SQueue(w, s)[0]), sRead := s.sRead + 1)
    ensures Remaining(w, t) < Remaining(w, s)
  {
    var p := SQueue(w, s)[0];
    assert SQueue(w, t) == SQueue(w, s)[1..] && RQueue(w, t) == RQueue(w, s);
    if p.RequestChunk? {
      SpawnedToil(w, s, p);
    }
  }

  lemma SpawnedToil(w: World, s: System, p: Payload)
    requires Clear(w) && (forall f :: f in s.library ==> f in w.catalog) && p.RequestChunk?
    ensures Toil(SenderDoes(w, s, p)) < Toil(s.tasks) + WHOLE
  {
    match S.ProcessRequest(s.library, w.files, p.path, p.index, p.hash)
    case Spawned(task) =>
      SpawnedSane(w, s.library, p, task);
      assert (s.tasks + [task])[|s.tasks|] == task;
      assert |Unread(task)| <= task.size;
    case _ =>
  }

  lemma ToilFalls(tasks: seq<S.Task>, n: nat)
    requires tasks != [] && S.CanRead(tasks[|tasks| - 1], n) && Sane(tasks[|tasks| - 1])
    ensures var last := |tasks| - 1;
            Toil(tasks) == Toil(tasks[last := S.Read(tasks[last], n)]) + 3 * |S.Payload(tasks[last], n)|
            && |S.Payload(tasks[last], n)| > 0
  {
    var task := tasks[|tasks| - 1];
    ReadConserves(task, n);
    assert |S.Payload(task, n)| + |Unread(S.Read(task, n))| == |Unread(task)|;
  }

  lemma SentLess(w: World, s: System, t: System, p: Payload)
    requires t == s.(sUp := s.sUp + [p], tasks := t.tasks) && Off(p) + Toil(t.tasks) < Toil(s.tasks)
    ensures Remaining(w, t) < Remaining(w, s)
  {
    SumAppend(Off, s.sUp, p);
    SameQueues(w, s, t);
  }

  lemma ReadLess(w: World, s: System, t: System, block: Bytes, tasks: seq<S.Task>)
    requires t == s.(sUp := s.sUp + [TransmitChunk(block)], tasks := tasks)
    requires Toil(s.tasks) == Toil(tasks) + 3 * |block| && |block| > 0
    ensures Remaining(w, t) < Remaining(w, s)
  {
    SentLess(w, s, t, TransmitChunk(block));
  }

  lemma SameQueues(w: World, s: System, t: System)
    requires t.rRead == s.rRead && t.sRead == s.sRead && t.server.clients == s.server.clients
    ensures RQueue(w, t) == RQueue(w, s) && SQueue(w, t) == SQueue(w, s)
  {
  }

  lemma CutLess(w: World, s: System)
    requires Draining(w, s) && s.tasks != [] && !S.Over(s.tasks[|s.tasks| - 1])
    ensures Remaining(w, s.(tasks := CutTasks(s.tasks))) < Remaining(w, s)
  {
    var t := s.(tasks := CutTasks(s.tasks));
    OnlyLastReads(InFlight(w, s).asks, s.tasks, |s.tasks| - 1);
    assert |Unread(s.tasks[|s.tasks| - 1])| > 0;
    assert RQueue(w, t) == RQueue(w, s) && SQueue(w, t) == SQueue(w, s);
  }

  /** A step of the machinery, or the end of a cancelled transmission. */
  predicate ByItself(m: Move) {
    m.Cut? || Machine(m.action)
  }

  /** While the system is drained, every step of the machinery, and the end of a transmission, leaves less to do. */
  lemma MoveWorks(w: World, h: Halting, m: Move)
    requires Draining(w, h.sys) && Can(w, h, m) && ByItself(m)
    ensures Remaining(w, After(w, h, m).sys) < Remaining(w, h.sys)
  {
    match m
    case Cut => CutLess(w, h.sys);
    case Do(a) => StepLess(w, h.sys, a);
  }

  lemma StepLess(w: World, s: System, a: Action)
    requires Draining(w, s) && Enabled(w, s, a) && Machine(a)
    ensures Remaining(w, Step(w, s, a)) < Remaining(w, s)
  {
    var t := Step(w, s, a);
    match a
    case ServeReceiver(now) =>
      assert s.rUp[0] in s.rUp;
      HandleUp(w, s, now, t);
      HandledWorks(w, s, t);
    case ServeSender(now) =>
      assert s.sUp[0] in s.sUp;
      HandleOffer(w, s, now, t);
      RelayedWorks(w, s, t, now);
    case ToReceiver => DeliverWorks(w, s, t);
    case ToSender => ArriveWorks(w, s, t);
    case ReadBlock(j, n) =>
      OnlyLastReads(InFlight(w, s).asks, s.tasks, j);
      ToilFalls(s.tasks, n);
      ReadLess(w, s, t, S.Payload(s.tasks[j], n), s.tasks[j := S.Read(s.tasks[j], n)]);
  }

  // ---- Rest ----

  /** At rest everything is quiet: no message is anywhere, and no transmission is under way. */
  lemma RestIsQuiet(w: World, s: System)
    requires Draining(w, s) && AtRest(w, s)
    ensures s.rUp == [] && s.sUp == [] && RQueue(w, s) == [] && SQueue(w, s) == [] && AllOver(s.tasks)
    ensures Flow(w, s)
  {
    RestEmpty(w, s);
    LooseOver(InFlight(w, s).asks, s.tasks);
  }

  lemma LooseOver(asks: seq<Payload>, tasks: seq<S.Task>)
    requires Loose(asks, tasks) && (Reading(tasks) ==> Unread(tasks[|tasks| - 1]) == [])
    ensures AllOver(tasks)
  {
    forall t | t in tasks
      ensures S.Over(t)
    {
      var j :| 0 <= j < |tasks| && tasks[j] == t;
      OnlyLastReads(asks, tasks, j);
    }
  }

  // ---- Runs after a stop ----

  ghost predicate Feasible(w: World, h: Halting, moves: seq<Move>)
    decreases |moves|
  {
    moves != [] ==> Can(w, h, moves[0]) && Feasible(w, After(w, h, moves[0]), moves[1..])
  }

  ghost function End(w: World, h: Halting, moves: seq<Move>): Halting
    requires Feasible(w, h, moves)
    decreases |moves|
  {
    if moves == [] then h else End(w, After(w, h, moves[0]), moves[1..])
  }

  /** The receiver's files are left alone while the system is drained, and stay what its index says. */
  lemma MoveFaithful(w: World, h: Halting, m: Move)
    requires Draining(w, h.sys) && Faithful(w, h.sys) && Can(w, h, m)
    ensures Faithful(w, After(w, h, m).sys) && After(w, h, m).sys.receiver.disk == h.sys.receiver.disk
  {
    if m == Do(ToReceiver) {
      IdleFaithful(w, h.sys, RQueue(w, h.sys)[0]);
    } else if m == Do(AskForMeta) {
      ReceiverFaithful(w, h.sys, R.AskForMeta);
    } else {
      SameReceiver(w, h, m);
    }
  }

  lemma SameReceiver(w: World, h: Halting, m: Move)
    requires Can(w, h, m) && m != Do(ToReceiver) && m != Do(AskForMeta)
    ensures After(w, h, m).sys.receiver == h.sys.receiver
  {
  }

  lemma IdleFaithful(w: World, s: System, p: Payload)
    requires Draining(w, s) && Faithful(w, s) && p in RQueue(w, s)
    ensures var after := R.ProcessMessage(w.digest, s.receiver, p, R.Written).after;
            Trusted(w.digest, Originals(w), after) && after.disk == s.receiver.disk
  {
    DeliveryIdle(w, s.receiver, p);
    if p.TransmitMeta? {
      forall m | m in p.metas
        ensures Describes(w.digest, m, Originals(w)(m))
      {
        GenuineDescribes(w, m);
      }
    }
    MessageTrusted(w.digest, Originals(w), s.receiver, p, R.Written);
  }

  lemma {:induction false} RunDrains(w: World, h: Halting, moves: seq<Move>)
    requires Draining(w, h.sys) && Faithful(w, h.sys) && Feasible(w, h, moves)
    ensures Draining(w, End(w, h, moves).sys) && Faithful(w, End(w, h, moves).sys)
    ensures End(w, h, moves).sys.receiver.disk == h.sys.receiver.disk
    decreases |moves|
  {
    if moves != [] {
      MoveDrains(w, h, moves[0]);
      MoveFaithful(w, h, moves[0]);
      RunDrains(w, After(w, h, moves[0]), moves[1..]);
    }
  }

  lemma StoppedFaithful(w: World, s: System)
    requires Faithful(w, s)
    ensures Faithful(w, Stopped(s)) && Stopped(s).receiver.disk == s.receiver.disk
  {
    ReceiverFaithful(w, s, R.UserStop);
  }

  /**
   * A stop takes effect. After it, whatever still arrives of the stopped transmission, and whenever the cancellation of
   * it takes effect, if ever: the Receiver's files stay as they are, and once the machinery is at rest the Receiver is
   * idle, no message is anywhere and no transmission under way, so that downloads can go on.
   */
  lemma StopSettles(w: World, s: System, cancelled: bool, moves: seq<Move>)
    requires Flow(w, s) && Faithful(w, s) && s.receiver.state == R.RequestedChunk
    requires Feasible(w, Halting(Stopped(s), cancelled), moves)
    requires AtRest(w, End(w, Halting(Stopped(s), cancelled), moves).sys)
    ensures var end := End(w, Halting(Stopped(s), cancelled), moves).sys;
            && Flow(w, end) && Faithful(w, end)
            && end.receiver.state == R.Idle && end.receiver.disk == s.receiver.disk
            && end.rUp == [] && end.sUp == [] && RQueue(w, end) == [] && SQueue(w, end) == [] && AllOver(end.tasks)
  {
    var h := Halting(Stopped(s), cancelled);
    StopDrains(w, s);
    StoppedFaithful(w, s);
    RunDrains(w, h, moves);
    RestIsQuiet(w, End(w, h, moves).sys);
  }

  lemma SomeMove(w: World, s: System) returns (a: Action)
    requires Draining(w, s) && !AtRest(w, s)
    ensures Machine(a) && Enabled(w, s, a)
  {
    a :| Machine(a) && Enabled(w, s, a);
  }

  /** And it comes to rest, by itself. */
  lemma {:induction false} DrainsToRest(w: World, h: Halting) returns (moves: seq<Move>)
    requires Draining(w, h.sys)
    ensures Feasible(w, h, moves) && (forall m :: m in moves ==> ByItself(m)) && AtRest(w, End(w, h, moves).sys)
    decreases Remaining(w, h.sys)
  {
    moves := [];
    if !AtRest(w, h.sys) {
      var a := SomeMove(w, h.sys);
      var m := Do(a);
      MoveWorks(w, h, m);
      MoveDrains(w, h, m);
      var rest := DrainsToRest(w, After(w, h, m));
      moves := [m] + rest;
      assert moves[1..] == rest;
    }
  }

  // ---- Going on ----

  lemma ResumeAsks(r: R.Receiver, path: string)
    requires RS.Sound(r) && r.state == R.Idle
    requires FindEntry(r.index, path).Some? && R.FirstMissing(FindEntry(r.index, path).value).Some?
    ensures var result := R.ResumeFile(r, path);
            && result.after.state == R.RequestedChunk && result.after.index == r.index
            && result.after.requesting.Some? && result.after.requesting.value.path == path
            && result.after.requesting.value.chunk == |FindEntry(r.index, path).value.received|
            && Asks(Sends(result.out)) != []
  {
    RS.SegmentNext(FindEntry(r.index, path).value);
    var result := R.ResumeFile(r, path);
    SendsOne(result.out, result.out[0].payload);
  }

  lemma ResumeStarts(w: World, s: System, path: string)
    requires Flow(w, s) && s.receiver.state == R.Idle && Enabled(w, s, Resume(path))
    requires FindEntry(s.receiver.index, path).Some? && R.FirstMissing(FindEntry(s.receiver.index, path).value).Some?
    ensures var t := ReceiverDoes(s, R.ResumeFile(s.receiver, path));
            var e := FindEntry(s.receiver.index, path).value;
            Genuine(w, e.meta) && Towards(w, t.receiver, e.meta, e.localPath) && !Stalled(w, t)
  {
    assert FindEntry(s.receiver.index, path).value in s.receiver.index;
    ResumeAsks(s.receiver, path);
    DoesFlight(w, s, R.ResumeFile(s.receiver, path));
  }

  /** A download that is resumed delivers the file, unless the Sender refuses a request on the way. */
  lemma ResumeDelivers(w: World, s: System, path: string, actions: seq<Action>)
    requires Flow(w, s) && Faithful(w, s) && s.receiver.state == R.Idle
    requires Enabled(w, s, Resume(path)) && Considerate(s, Resume(path))
    requires FindEntry(s.receiver.index, path).Some? && R.FirstMissing(FindEntry(s.receiver.index, path).value).Some?
    requires Possible(w, Step(w, s, Resume(path)), actions) && NoWishes(actions)
    requires AtRest(w, Run(w, Step(w, s, Resume(path)), actions))
    ensures var e := FindEntry(s.receiver.index, path).value;
            var t := Step(w, s, Resume(path));
            var end := Run(w, t, actions);
            Genuine(w, e.meta) &&
            if RefusedOnTheWay(w, t, actions) then Stalled(w, end)
            else R.FileAt(end.receiver.disk, e.localPath) == Content(w, e.meta)
  {
    var e := FindEntry(s.receiver.index, path).value;
    StepFlow(w, s, Resume(path));
    StepFaithful(w, s, Resume(path));
    ResumeStarts(w, s, path);
    TransferDelivers(w, Step(w, s, Resume(path)), actions, e.meta, e.localPath);
  }

  /**
   * Stop and resume: a download is stopped, the system comes to rest, the download is resumed, the system comes to rest
   * again; then the file is there, unless the Sender refused a request on the way.
   */
  lemma StopThenResume(
    w: World, s: System, cancelled: bool, moves: seq<Move>, u: System, path: string, actions: seq<Action>)
    requires Flow(w, s) && Faithful(w, s) && s.receiver.state == R.RequestedChunk
    requires Feasible(w, Halting(Stopped(s), cancelled), moves)
    requires u == End(w, Halting(Stopped(s), cancelled), moves).sys && AtRest(w, u)
    requires Enabled(w, u, Resume(path)) && Considerate(u, Resume(path))
    requires FindEntry(u.receiver.index, path).Some? && R.FirstMissing(FindEntry(u.receiver.index, path).value).Some?
    requires Possible(w, Step(w, u, Resume(path)), actions) && NoWishes(actions)
    requires AtRest(w, Run(w, Step(w, u, Resume(path)), actions))
    ensures var e := FindEntry(u.receiver.index, path).value;
            var t := Step(w, u, Resume(path));
            var end := Run(w, t, actions);
            Clear(w) && Genuine(w, e.meta) &&
            if RefusedOnTheWay(w, t, actions) then Stalled(w, end)
            else R.FileAt(end.receiver.disk, e.localPath) == Content(w, e.meta)
  {
    StopSettles(w, s, cancelled, moves);
    ResumeDelivers(w, u, path, actions);
  }
}
