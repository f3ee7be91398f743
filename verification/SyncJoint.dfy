/**
 * Synchronisation of the two programs: every run of the whole system, with its downloads and its queues, is a run of
 * the synchronisation system, so the Receiver's index converges to the server's.
 */
module SyncJoint {
  import opened Base
  import opened Metadata
  import opened EntryList
  import opened Messages
  import opened Pipeline
  import opened PipelineFlow
  import R = ReceiverModel
  import RS = ReceiverSafety
  import V = ServerModel
  import Y = Sync
  import SyncSteps

  /** The requests for metadata in a queue. */
  function MetaAsks(messages: seq<Payload>): seq<i64> {
    if messages == [] then []
    else (if messages[0].RequestMeta? then [messages[0].after] else []) + MetaAsks(messages[1..])
  }

  /** The replies in a queue. */
  function Replies(messages: seq<Payload>): seq<seq<Meta>> {
    if messages == [] then []
    else (if messages[0].TransmitMeta? then [messages[0].metas] else []) + Replies(messages[1..])
  }

  function Carried(replies: seq<Y.Reply>): seq<seq<Meta>> {
    if replies == [] then [] else [Y.Contents(replies[0])] + Carried(replies[1..])
  }

  /** `y` is what `s` is for synchronisation: the indices, and the requests and replies on their way. */
  ghost predicate Coupled(w: World, s: System, y: Y.System) {
    && y.server == s.server.index && y.receiver == s.receiver.index && y.started == s.receiver.lastUpdated
    && y.requests == MetaAsks(s.rUp)
    && Carried(y.replies) == Replies(RQueue(w, s))
  }

  // ---- Queues ----

  lemma {:induction false} MetaAsksConcat(a: seq<Payload>, b: seq<Payload>)
    ensures MetaAsks(a + b) == MetaAsks(a) + MetaAsks(b)
    ensures Replies(a + b) == Replies(a) + Replies(b)
  {
    if a == [] {
      assert a + b == b;
    } else {
      MetaAsksConcat(a[1..], b);
      assert (a + b)[0] == a[0] && (a + b)[1..] == a[1..] + b;
      ConcatAssociates(if a[0].RequestMeta? then [a[0].after] else [], MetaAsks(a[1..]), MetaAsks(b));
      ConcatAssociates(if a[0].TransmitMeta? then [a[0].metas] else [], Replies(a[1..]), Replies(b));
    }
  }

  /** A message at the end of a queue. */
  lemma Given(queue: seq<Payload>, p: Payload)
    ensures MetaAsks(queue + [p]) == MetaAsks(queue) + if p.RequestMeta? then [p.after] else []
    ensures Replies(queue + [p]) == Replies(queue) + if p.TransmitMeta? then [p.metas] else []
  {
    MetaAsksConcat(queue, [p]);
    assert [p][1..] == [];
  }

  lemma {:induction false} CarriedAppend(replies: seq<Y.Reply>, r: Y.Reply)
    ensures Carried(replies + [r]) == Carried(replies) + [Y.Contents(r)]
  {
    if replies == [] {
      assert [] + [r] == [r] && [r][1..] == [];
    } else {
      CarriedAppend(replies[1..], r);
      assert (replies + [r])[1..] == replies[1..] + [r];
    }
  }

  lemma {:induction false} AskedSends(out: seq<R.Event>)
    ensures MetaAsks(Sends(out)) == SyncSteps.Asked(out)
  {
    if out != [] {
      AskedSends(out[1..]);
      if out[0].Send? {
        assert ([out[0].payload] + Sends(out[1..]))[1..] == Sends(out[1..]);
      } else {
        assert [] + Sends(out[1..]) == Sends(out[1..]);
      }
    }
  }

  /** The reply at the front of the Receiver's channel is the first one on its way. */
  lemma FirstReply(replies: seq<Y.Reply>, queue: seq<Payload>)
    requires Carried(replies) == Replies(queue) && queue != [] && queue[0].TransmitMeta?
    ensures replies != [] && Y.Contents(replies[0]) == queue[0].metas && Carried(replies[1..]) == Replies(queue[1..])
  {
    assert Replies(queue) == [queue[0].metas] + Replies(queue[1..]);
    assert replies != [] && Carried(replies) == [Y.Contents(replies[0])] + Carried(replies[1..]);
    assert Replies(queue)[1..] == Replies(queue[1..]) && Carried(replies)[1..] == Carried(replies[1..]);
  }

  // ---- The Receiver's steps ----

  /** What happens to the replies on their way, and what must be there for it. */
  ghost predicate Takes(y: Y.System, z: Y.System, b: Option<Y.Action>) {
    if b.None? then z == y else Y.Enabled(y, b.value) && b != Some(Y.Restart) && z == Y.Step(y, b.value)
  }

  /** Only a message with a reply is a reply to synchronisation. */
  lemma NotAReply(digest: Digest, r: R.Receiver, a: R.Action)
    requires a != R.Restart && !(a.Message? && a.payload.TransmitMeta?)
    ensures var b := SyncSteps.OfReceiver(digest, r, a);
            b.None? || b.value.Download? || b.value.AskForNews? || b.value.AskAfterNotice?
    ensures var b := SyncSteps.OfReceiver(digest, r, a);
            b.Some? && b.value.Download? ==> b.value.op.Mark? || b.value.op.Relocate?
  {
  }

  /** A step of the Receiver that takes nothing, or a message that is not a reply, from its channel. */
  lemma ReceiverCoupled(w: World, s: System, a: R.Action, y: Y.System, rRead: nat)
    returns (z: Y.System, b: Option<Y.Action>)
    requires RS.Sound(s.receiver) && Coupled(w, s, y) && a != R.Restart && !(a.Message? && a.payload.TransmitMeta?)
    requires var t := ReceiverDoes(s, R.Step(w.digest, s.receiver, a)).(rRead := rRead);
             Replies(RQueue(w, t)) == Replies(RQueue(w, s))
    ensures Takes(y, z, b)
    ensures Coupled(w, ReceiverDoes(s, R.Step(w.digest, s.receiver, a)).(rRead := rRead), z)
    ensures b.None? || !b.value.Publish?
  {
    b := SyncSteps.OfReceiver(w.digest, s.receiver, a);
    SyncSteps.ReceiverStepSyncs(w.digest, s.receiver, a, y);
    NotAReply(w.digest, s.receiver, a);
    z := DoneCoupled(w, s, R.Step(w.digest, s.receiver, a), y, b, rRead);
  }

  lemma DoneCoupled(w: World, s: System, result: R.Result, y: Y.System, b: Option<Y.Action>, rRead: nat)
    returns (z: Y.System)
    requires Coupled(w, s, y) && Replies(RQueue(w, ReceiverDoes(s, result).(rRead := rRead))) == Replies(RQueue(w, s))
    requires b.None? || b.value.Download? || b.value.AskForNews? || b.value.AskAfterNotice?
    requires b.Some? && b.value.Download? ==> b.value.op.Mark? || b.value.op.Relocate?
    requires SyncSteps.Syncs(y, b, result)
    ensures Takes(y, z, b) && Coupled(w, ReceiverDoes(s, result).(rRead := rRead), z)
  {
    z := if b.None? then y else Y.Step(y, b.value);
    Requests(w, s, result, y, z, b);
    assert z.replies == y.replies;
  }

  lemma Requests(w: World, s: System, result: R.Result, y: Y.System, z: Y.System, b: Option<Y.Action>)
    requires y.requests == MetaAsks(s.rUp)
    requires b.Some? ==> Y.Ready(y, b.value)
    requires SyncSteps.Syncs(y, b, result) && b != Some(Y.Restart)
    requires z == if b.None? then y else Y.Step(y, b.value)
    ensures z.requests == MetaAsks(ReceiverDoes(s, result).rUp)
  {
    MetaAsksConcat(s.rUp, Sends(result.out));
    AskedSends(result.out);
    assert y.requests + [] == y.requests;
  }

  /** A reply arrives: it is folded in, or refused, and in both cases gone. */
  lemma ReplyCoupled(w: World, s: System, t: System, y: Y.System) returns (z: Y.System, b: Option<Y.Action>)
    requires RS.Sound(s.receiver) && Coupled(w, s, y) && RQueue(w, s) != [] && RQueue(w, s)[0].TransmitMeta?
    requires t == ReceiverDoes(s, Delivery(w, s)).(rRead := s.rRead + 1) && RQueue(w, t) == RQueue(w, s)[1..]
    ensures Takes(y, z, b) && Coupled(w, t, z)
    ensures b.None? || !b.value.Publish?
  {
    var p := RQueue(w, s)[0];
    var a := R.Message(p, R.Written);
    FirstReply(y.replies, RQueue(w, s));
    SyncSteps.ReceiverStepSyncs(w.digest, s.receiver, a, y);
    b := SyncSteps.OfReceiver(w.digest, s.receiver, a);
    z := Y.Step(y, b.value);
    Requests(w, s, Delivery(w, s), y, z, b);
  }

  lemma DeliveryIs(w: World, s: System, t: System, a: R.Action)
    requires Linked(w, s) && RQueue(w, s) != [] && t == Step(w, s, ToReceiver) &&
             a == R.Message(RQueue(w, s)[0], R.Written)
    ensures t == ReceiverDoes(s, R.Step(w.digest, s.receiver, a)).(rRead := s.rRead + 1)
    ensures RQueue(w, t) == RQueue(w, s)[1..]
  {
  }

  lemma DeliveryCoupled(w: World, s: System, y: Y.System) returns (z: Y.System, b: Option<Y.Action>)
    requires Flow(w, s) && Enabled(w, s, ToReceiver) && Coupled(w, s, y)
    ensures Takes(y, z, b) && Coupled(w, Step(w, s, ToReceiver), z)
    ensures b.None? || !b.value.Publish?
  {
    var t := Step(w, s, ToReceiver);
    var a := R.Message(RQueue(w, s)[0], R.Written);
    DeliveryIs(w, s, t, a);
    if RQueue(w, s)[0].TransmitMeta? {
      z, b := ReplyCoupled(w, s, t, y);
    } else {
      assert Replies(RQueue(w, s)) == [] + Replies(RQueue(w, s)[1..]);
      z, b := ReceiverCoupled(w, s, a, y, s.rRead + 1);
    }
  }

  // ---- The server's steps ----

  lemma ServeReceiverCoupled(w: World, s: System, now: i64, y: Y.System) returns (z: Y.System, b: Option<Y.Action>)
    requires Flow(w, s) && Enabled(w, s, ServeReceiver(now)) && Coupled(w, s, y)
    ensures Takes(y, z, b) && Coupled(w, Step(w, s, ServeReceiver(now)), z)
    ensures b.None? || !b.value.Publish?
  {
    var p := s.rUp[0];
    assert p in s.rUp;
    ServeRequest(w, s, p, now);
    z, b := AnswerCoupled(w, s, Step(w, s, ServeReceiver(now)), y);
  }

  lemma AnswerCoupled(w: World, s: System, t: System, y: Y.System) returns (z: Y.System, b: Option<Y.Action>)
    requires Coupled(w, s, y) && s.rUp != [] && MayAsk(s.rUp[0])
    requires t.receiver == s.receiver && t.rUp == s.rUp[1..] && t.server.index == s.server.index
    requires RQueue(w, t) ==
             RQueue(w, s) + (if s.rUp[0].RequestMeta? then [Reply(s.server.index, s.rUp[0].after)] else [])
    ensures Takes(y, z, b) && Coupled(w, t, z)
    ensures b.None? || !b.value.Publish?
  {
    var p := s.rUp[0];
    assert MetaAsks(s.rUp) == (if p.RequestMeta? then [p.after] else []) + MetaAsks(s.rUp[1..]);
    if p.RequestMeta? {
      b := Some(Y.Answer);
      z := Y.Step(y, Y.Answer);
      Given(RQueue(w, s), Reply(s.server.index, p.after));
      CarriedAppend(y.replies, Y.Reply(p.after, y.server, y.clock));
    } else {
      z, b := y, None;
      assert RQueue(w, s) + [] == RQueue(w, s);
    }
  }

  /** A publication that the server stamps is stamped later than all before. */
  ghost predicate Stamped(s: System, a: Action, clock: i64) {
    a.ServeSender? && s.sUp != [] && s.sUp[0].PublishMeta? ==> a.now > clock
  }

  lemma ServeSenderCoupled(w: World, s: System, now: i64, y: Y.System) returns (z: Y.System, b: Option<Y.Action>)
    requires Flow(w, s) && Enabled(w, s, ServeSender(now)) && Coupled(w, s, y) && Stamped(s, ServeSender(now), y.clock)
    ensures Takes(y, z, b) && Coupled(w, Step(w, s, ServeSender(now)), z)
    ensures z.clock == if s.sUp[0].PublishMeta? then now else y.clock
  {
    var p := s.sUp[0];
    assert p in s.sUp;
    ServeOffer(w, s, p, now);
    z, b := OfferCoupled(w, s, Step(w, s, ServeSender(now)), now, y);
  }

  lemma OfferCoupled(w: World, s: System, t: System, now: i64, y: Y.System) returns (z: Y.System, b: Option<Y.Action>)
    requires Coupled(w, s, y) && s.sUp != [] && (s.sUp[0].TransmitChunk? || s.sUp[0].PublishMeta? ||
             s.sUp[0].RemoveMeta?)
    requires s.sUp[0].PublishMeta? ==> now > y.clock
    requires t.receiver == s.receiver && t.rUp == s.rUp && t.server.index == IndexAfter(s.server.index, s.sUp[0], now)
    requires RQueue(w, t) == RQueue(w, s) + Passed(s.sUp[0], now)
    ensures Takes(y, z, b) && Coupled(w, t, z)
    ensures z.clock == if s.sUp[0].PublishMeta? then now else y.clock
  {
    var p := s.sUp[0];
    b := match p
      case PublishMeta(m) => Some(Y.Publish(m, now))
      case RemoveMeta(path) => Some(Y.Withdraw(path))
      case _ => None;
    z := if b.None? then y else Y.Step(y, b.value);
    if p.RemoveMeta? {
      assert RQueue(w, s) + [] == RQueue(w, s);
    } else {
      Given(RQueue(w, s), Passed(p, now)[0]);
    }
  }

  // ---- Every step, every run ----

  /** A step that touches neither index and neither requests nor replies. */
  lemma QuietCoupled(w: World, s: System, t: System, y: Y.System)
    requires Coupled(w, s, y) && t.receiver == s.receiver && t.rUp == s.rUp && t.server.index == s.server.index
    requires RQueue(w, t) == RQueue(w, s)
    ensures Coupled(w, t, y)
  {
  }

  /** What a wish of the Receiver's user is for the Receiver. */
  ghost predicate Wish(a: Action, ra: R.Action) {
    match a
    case Request(path, localPath) => ra == R.UserRequest(path, localPath)
    case Resume(path) => ra == R.UserResume(path)
    case AskForMeta => ra == R.AskForMeta
    case _ => false
  }

  lemma WishIs(w: World, s: System, a: Action, ra: R.Action)
    requires Enabled(w, s, a) && Wish(a, ra)
    ensures Step(w, s, a) == ReceiverDoes(s, R.Step(w.digest, s.receiver, ra))
  {
  }

  lemma WishCoupled(w: World, s: System, a: R.Action, y: Y.System) returns (z: Y.System, b: Option<Y.Action>)
    requires RS.Sound(s.receiver) && Coupled(w, s, y) && !a.Message? && !a.Restart?
    ensures Takes(y, z, b) && Coupled(w, ReceiverDoes(s, R.Step(w.digest, s.receiver, a)), z)
    ensures b.None? || !b.value.Publish?
  {
    DoesFlight(w, s, R.Step(w.digest, s.receiver, a));
    z, b := ReceiverCoupled(w, s, a, y, s.rRead);
  }

  lemma UserCoupled(w: World, s: System, a: Action, y: Y.System) returns (z: Y.System, b: Option<Y.Action>)
    requires Flow(w, s) && Enabled(w, s, a) && Coupled(w, s, y) && (a.Request? || a.Resume? || a.AskForMeta?)
    ensures Takes(y, z, b) && Coupled(w, Step(w, s, a), z)
    ensures b.None? || !b.value.Publish?
  {
    var ra := match a
      case Request(path, localPath) => R.UserRequest(path, localPath)
      case Resume(path) => R.UserResume(path)
      case _ => R.AskForMeta;
    WishIs(w, s, a, ra);
    z, b := WishCoupled(w, s, ra, y);
  }

  lemma OtherCoupled(w: World, s: System, input: V.Input, y: Y.System)
    requires Flow(w, s) && Enabled(w, s, Other(input)) && Coupled(w, s, y)
    ensures Coupled(w, Step(w, s, Other(input)), y)
  {
    ServeOther(w, s, input);
  }

  /** Every step of the system is a step of the synchronisation system, or nothing to it. */
  lemma StepCoupled(w: World, s: System, a: Action, y: Y.System) returns (z: Y.System, b: Option<Y.Action>)
    requires Flow(w, s) && Enabled(w, s, a) && Coupled(w, s, y) && Stamped(s, a, y.clock)
    ensures Takes(y, z, b) && Coupled(w, Step(w, s, a), z)
    ensures z.clock == Clock(s, a, y.clock)
  {
    z, b := y, None;
    if a.Request? || a.Resume? || a.AskForMeta? {
      z, b := UserCoupled(w, s, a, y);
      ReceiverClock(y, z, b);
    } else if a.ServeReceiver? {
      z, b := ServeReceiverCoupled(w, s, a.now, y);
      ReceiverClock(y, z, b);
    } else if a.ServeSender? {
      z, b := ServeSenderCoupled(w, s, a.now, y);
    } else if a.ToReceiver? {
      z, b := DeliveryCoupled(w, s, y);
      ReceiverClock(y, z, b);
    } else if a.Other? {
      OtherCoupled(w, s, a.input, y);
    } else {
      SenderQuiet(w, s, a, y);
    }
  }

  /** Only a publication moves the clock. */
  lemma ReceiverClock(y: Y.System, z: Y.System, b: Option<Y.Action>)
    requires Takes(y, z, b)
    ensures b.None? || !b.value.Publish? ==> z.clock == y.clock
  {
  }

  lemma SenderQuiet(w: World, s: System, a: Action, y: Y.System)
    requires Enabled(w, s, a) && Coupled(w, s, y)
    requires a.Create? || a.Publish? || a.Withdraw? || a.ToSender? || a.ReadBlock?
    ensures Coupled(w, Step(w, s, a), y)
  {
    QuietCoupled(w, s, Step(w, s, a), y);
  }

  /** The stamp of the last publication. */
  function Clock(s: System, a: Action, clock: i64): i64 {
    if a.ServeSender? && s.sUp != [] && s.sUp[0].PublishMeta? then a.now else clock
  }

  /** The stamps that the server gives over a run are strictly increasing, from `clock` on. */
  ghost predicate Increasing(w: World, s: System, actions: seq<Action>, clock: i64)
    requires Possible(w, s, actions)
    decreases |actions|
  {
    actions != [] ==>
      Stamped(s, actions[0], clock) && Increasing(w, Step(w, s, actions[0]), actions[1..], Clock(s, actions[0], clock))
  }

  lemma {:induction false} RunCoupled(w: World, s: System, actions: seq<Action>, y: Y.System) returns (z: Y.System)
    requires Flow(w, s) && Possible(w, s, actions) && Increasing(w, s, actions, y.clock)
    requires Coupled(w, s, y) && Y.Synced(y)
    ensures Coupled(w, Run(w, s, actions), z) && Y.Synced(z)
    decreases |actions|
  {
    z := y;
    if actions != [] {
      var next, b := StepCoupled(w, s, actions[0], y);
      if b.Some? {
        Y.StepSynced(y, b.value);
      }
      StepFlow(w, s, actions[0]);
      z := RunCoupled(w, Step(w, s, actions[0]), actions[1..], next);
    }
  }

  /** A first start: nothing is known and nothing is on its way. */
  ghost predicate Fresh(w: World, s: System) {
    && s.server.index == [] && s.receiver.index == [] && s.receiver.lastUpdated == I64_MIN
    && MetaAsks(s.rUp) == [] && Replies(RQueue(w, s)) == []
  }

  /** So it is when both programs are started for the first time. */
  lemma FreshBegins(w: World, s: V.Server, disk: R.Disk, library: seq<Entry>, now: i64)
    requires Clear(w) && s.clients == map[] && s.saved == s.index == [] && s.running
    requires forall f :: f in library ==> f in w.catalog
    ensures var t := System(R.Start([], disk), [], V.Run(s, Logins(w, s, now)), 0, 0, library, [], []);
            Flow(w, t) && Fresh(w, t)
  {
    RS.EmptyStartSound(disk);
    FlowBegins(w, s, R.Start([], disk), library, now);
    NoReplies([LoginSuccess, NotifySenderStatus(Connected)]);
  }

  lemma NoReplies(queue: seq<Payload>)
    requires queue == [LoginSuccess, NotifySenderStatus(Connected)]
    ensures Replies(queue) == []
  {
    Given([LoginSuccess], NotifySenderStatus(Connected));
    Given([], LoginSuccess);
    assert [LoginSuccess] + [NotifySenderStatus(Connected)] == queue && [] + [LoginSuccess] == [LoginSuccess];
  }

  /**
   * The whole system converges. After any run from a first start, with stamps that increase: the Receiver has
   * everything on the server up to the newest stamp it knows, and it agrees with the server on all that the server
   * holds if and only if the server's newest stamp is not newer than its own.
   */
  lemma SystemConverges(w: World, s: System, actions: seq<Action>, clock: i64)
    requires Flow(w, s) && Fresh(w, s) && Possible(w, s, actions) && Increasing(w, s, actions, clock)
    ensures var end := Run(w, s, actions);
            var known, held := end.receiver.index, end.server.index;
            && Y.CompleteUpTo(known, held, LastUpdated(known))
            && (Y.Agrees(known, held) <==> LastUpdated(held) <= LastUpdated(known))
  {
    var z := RunCoupled(w, s, actions, Y.Begin(clock));
    Y.NewestBelowMark(z);
    Y.AgreesIff(z);
  }
}
