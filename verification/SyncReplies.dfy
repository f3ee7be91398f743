/**
 * What a reply is worth: folded in by an idle Receiver, it makes the Receiver agree with the index that the server had
 * at the very step at which it answered. The step is found by the place of the reply in the Receiver's channel.
 */
module SyncReplies {
  import opened Base
  import opened Metadata
  import opened EntryList
  import opened Messages
  import opened Pipeline
  import opened PipelineFlow
  import opened SyncJoint
  import R = ReceiverModel
  import V = ServerModel
  import Y = Sync

  /** The states of a run: before each step, and after the last. */
  ghost function Trace(w: World, s: System, actions: seq<Action>): (states: seq<System>)
    requires Possible(w, s, actions)
    ensures |states| == |actions| + 1 && states[0] == s
    decreases |actions|
  {
    [s] + if actions == [] then [] else Trace(w, Step(w, s, actions[0]), actions[1..])
  }

  /** Step `k` is the server answering the Receiver, with the message at place `n` of its channel. */
  ghost predicate AnswersAt(w: World, states: seq<System>, actions: seq<Action>, k: nat, n: nat) {
    && k < |actions| && |states| == |actions| + 1 && actions[k].ServeReceiver?
    && |Channel(states[k], w.ra)| == n && |Channel(states[k + 1], w.ra)| == n + 1
  }

  // ---- The Receiver's channel, step by step ----

  lemma ChannelLength(w: World, s: System)
    requires Linked(w, s)
    ensures |Channel(s, w.ra)| == s.rRead + |RQueue(w, s)|
  {
  }

  /** What `t` has in the Receiver's channel that `s` had not, when nothing was delivered. */
  ghost predicate Longer(w: World, s: System, t: System, more: seq<Payload>) {
    t.rRead == s.rRead && RQueue(w, t) == RQueue(w, s) + more && |more| <= 1
  }

  lemma SameQueue(w: World, s: System, t: System)
    requires t.rRead == s.rRead && t.server.clients == s.server.clients
    ensures Longer(w, s, t, [])
  {
    assert RQueue(w, s) + [] == RQueue(w, s);
  }

  lemma ServedQueue(w: World, s: System, now: i64) returns (more: seq<Payload>)
    requires Flow(w, s) && Enabled(w, s, ServeReceiver(now))
    ensures Longer(w, s, Step(w, s, ServeReceiver(now)), more)
    ensures more != [] ==> s.rUp[0].RequestMeta? && more == [Reply(s.server.index, s.rUp[0].after)]
  {
    var p := s.rUp[0];
    assert p in s.rUp;
    ServeRequest(w, s, p, now);
    more := if p.RequestMeta? then [Reply(s.server.index, p.after)] else [];
  }

  lemma OfferedQueue(w: World, s: System, now: i64) returns (more: seq<Payload>)
    requires Flow(w, s) && Enabled(w, s, ServeSender(now))
    ensures Longer(w, s, Step(w, s, ServeSender(now)), more)
    ensures forall p :: p in more ==> !p.TransmitMeta?
  {
    var p := s.sUp[0];
    assert p in s.sUp;
    ServeOffer(w, s, p, now);
    more := Passed(p, now);
    PassedNoReply(p, now);
  }

  lemma PassedNoReply(p: Payload, now: i64)
    ensures |Passed(p, now)| <= 1 && forall x :: x in Passed(p, now) ==> !x.TransmitMeta?
  {
  }

  /** A delivery shortens the channel at its front; every other step leaves it, or appends one message to it. */
  lemma StepQueue(w: World, s: System, a: Action) returns (more: seq<Payload>)
    requires Flow(w, s) && Enabled(w, s, a)
    ensures var t := Step(w, s, a);
            if a.ToReceiver? then t.rRead == s.rRead + 1 && RQueue(w, t) == RQueue(w, s)[1..] else Longer(w, s, t, more)
    ensures !a.ToReceiver? && !a.ServeReceiver? ==> forall p :: p in more ==> !p.TransmitMeta?
    ensures a.ServeReceiver? && more != [] ==> s.rUp[0].RequestMeta? && more == [Reply(s.server.index, s.rUp[0].after)]
  {
    more := [];
    if a.ToReceiver? {
      DeliveredQueue(w, s);
    } else if a.ServeReceiver? {
      more := ServedQueue(w, s, a.now);
    } else if a.ServeSender? {
      more := OfferedQueue(w, s, a.now);
    } else if a.Other? {
      OtherQueue(w, s, a.input);
    } else {
      OwnQueue(w, s, a);
    }
  }

  lemma DeliveredQueue(w: World, s: System)
    requires Linked(w, s) && Enabled(w, s, ToReceiver)
    ensures var t := Step(w, s, ToReceiver);
            t.rRead == s.rRead + 1 && RQueue(w, t) == RQueue(w, s)[1..]
  {
  }

  lemma OtherQueue(w: World, s: System, input: V.Input)
    requires Linked(w, s) && Enabled(w, s, Other(input))
    ensures Longer(w, s, Step(w, s, Other(input)), [])
  {
    ServeOther(w, s, input);
    assert RQueue(w, s) + [] == RQueue(w, s);
  }

  lemma OwnQueue(w: World, s: System, a: Action)
    requires Enabled(w, s, a) && !a.ToReceiver? && !a.ServeReceiver? && !a.ServeSender? && !a.Other?
    ensures Longer(w, s, Step(w, s, a), [])
  {
    SameQueue(w, s, Step(w, s, a));
  }

  lemma {:induction false} ReadGrows(w: World, s: System, actions: seq<Action>)
    requires Flow(w, s) && Possible(w, s, actions)
    ensures s.rRead <= Run(w, s, actions).rRead
    decreases |actions|
  {
    if actions != [] {
      var more := StepQueue(w, s, actions[0]);
      StepFlow(w, s, actions[0]);
      ReadGrows(w, Step(w, s, actions[0]), actions[1..]);
    }
  }

  // ---- A message keeps its place until it is delivered ----

  lemma {:induction false} Persists(w: World, s: System, actions: seq<Action>, m: nat)
    requires Flow(w, s) && Possible(w, s, actions)
    requires m < |RQueue(w, s)| && Run(w, s, actions).rRead == s.rRead + m
    ensures var end := Run(w, s, actions);
            RQueue(w, end) != [] && RQueue(w, end)[0] == RQueue(w, s)[m]
    decreases |actions|
  {
    if actions != [] {
      var t := Step(w, s, actions[0]);
      var more := StepQueue(w, s, actions[0]);
      StepFlow(w, s, actions[0]);
      ReadGrows(w, t, actions[1..]);
      Persists(w, t, actions[1..], if actions[0].ToReceiver? then m - 1 else m);
    }
  }

  /** The message at place `m` of the Receiver's queue is a reply, made when the server held `held`. */
  ghost predicate Marked(w: World, s: System, y: Y.System, m: nat, held: seq<Entry>) {
    && m < |RQueue(w, s)| && RQueue(w, s)[m].TransmitMeta?
    && var j := |Replies(RQueue(w, s)[..m])|;
       j < |y.replies| && y.replies[j].held == held
  }

  lemma {:induction false} CarriedLength(replies: seq<Y.Reply>)
    ensures |Carried(replies)| == |replies|
  {
    if replies != [] {
      CarriedLength(replies[1..]);
    }
  }

  /** A step takes the first reply, or adds one, or leaves them all. */
  lemma RepliesMove(y: Y.System, z: Y.System, b: Option<Y.Action>)
    requires Takes(y, z, b)
    ensures if |z.replies| < |y.replies| then z.replies == y.replies[1..] else y.replies <= z.replies
  {
  }

  lemma MarkedStays(
    w: World, s: System, t: System, y: Y.System, z: Y.System, m: nat, held: seq<Entry>, more: seq<Payload>)
    requires Marked(w, s, y, m, held) && Longer(w, s, t, more)
    requires Carried(y.replies) == Replies(RQueue(w, s)) && Carried(z.replies) == Replies(RQueue(w, t))
    requires if |z.replies| < |y.replies| then z.replies == y.replies[1..] else y.replies <= z.replies
    ensures Marked(w, t, z, m, held)
  {
    CarriedLength(y.replies);
    CarriedLength(z.replies);
    MetaAsksConcat(RQueue(w, s), more);
    assert RQueue(w, t)[..m] == RQueue(w, s)[..m];
  }

  lemma MarkedNext(w: World, s: System, t: System, y: Y.System, z: Y.System, m: nat, held: seq<Entry>)
    requires m > 0 && Marked(w, s, y, m, held) && RQueue(w, t) == RQueue(w, s)[1..]
    requires Carried(y.replies) == Replies(RQueue(w, s)) && Carried(z.replies) == Replies(RQueue(w, t))
    requires if |z.replies| < |y.replies| then z.replies == y.replies[1..] else y.replies <= z.replies
    ensures Marked(w, t, z, m - 1, held)
  {
    var queue := RQueue(w, s);
    CarriedLength(y.replies);
    CarriedLength(z.replies);
    assert queue[..m][0] == queue[0] && queue[..m][1..] == queue[1..][..m - 1];
    var one := if queue[0].TransmitMeta? then [queue[0].metas] else [];
    assert Replies(queue) == one + Replies(queue[1..]);
    assert Replies(queue[..m]) == one + Replies(queue[1..][..m - 1]);
  }

  /** Over a run, the reply keeps what the server held. */
  lemma {:induction false} RunMarked(w: World, s: System, actions: seq<Action>, y: Y.System, m: nat, held: seq<Entry>)
    returns (z: Y.System)
    requires Flow(w, s) && Possible(w, s, actions) && Increasing(w, s, actions, y.clock)
    requires Coupled(w, s, y) && Y.Synced(y) && Marked(w, s, y, m, held)
    requires Run(w, s, actions).rRead == s.rRead + m
    ensures Coupled(w, Run(w, s, actions), z) && Y.Synced(z) && Marked(w, Run(w, s, actions), z, 0, held)
    decreases |actions|
  {
    z := y;
    if actions != [] {
      var a, t := actions[0], Step(w, s, actions[0]);
      var next, b := StepCoupled(w, s, a, y);
      var more := StepQueue(w, s, a);
      RepliesMove(y, next, b);
      if b.Some? {
        Y.StepSynced(y, b.value);
      }
      StepFlow(w, s, a);
      ReadGrows(w, t, actions[1..]);
      if a.ToReceiver? {
        MarkedNext(w, s, t, y, next, m, held);
        z := RunMarked(w, t, actions[1..], next, m - 1, held);
      } else {
        MarkedStays(w, s, t, y, next, m, held, more);
        z := RunMarked(w, t, actions[1..], next, m, held);
      }
    }
  }

  // ---- The step that answered ----

  /** The one step that adds a reply is an answer, made of the index that the server has. */
  lemma OnlyAnswerAdds(y: Y.System, z: Y.System, b: Option<Y.Action>)
    requires Takes(y, z, b) && |z.replies| > |y.replies|
    ensures |z.replies| == |y.replies| + 1 && z.replies[|y.replies|].held == y.server
  {
  }

  /** The server answers: the reply at the end of the channel was made of the index that the server has. */
  lemma AnswerMarked(w: World, s: System, t: System, y: Y.System, z: Y.System, b: Option<Y.Action>, after: i64)
    requires Coupled(w, s, y) && Coupled(w, t, z) && Takes(y, z, b)
    requires Longer(w, s, t, [Reply(s.server.index, after)])
    ensures Marked(w, t, z, |RQueue(w, s)|, s.server.index)
  {
    var queue := RQueue(w, s);
    CarriedLength(y.replies);
    CarriedLength(z.replies);
    Given(queue, Reply(s.server.index, after));
    OnlyAnswerAdds(y, z, b);
    assert RQueue(w, t)[..|queue|] == queue;
  }

  /** An answer in the tail of a run is an answer in the run. */
  lemma AnswersLater(w: World, s: System, states: seq<System>, actions: seq<Action>, k: nat, n: nat)
    requires actions != [] && |states| == |actions|
    ensures AnswersAt(w, [s] + states, actions, k + 1, n) <==> AnswersAt(w, states, actions[1..], k, n)
    ensures k < |states| ==> ([s] + states)[k + 1] == states[k]
  {
  }

  lemma FirstReplied(w: World, s: System, a: Action, rest: seq<Action>, y: Y.System) returns (z: Y.System)
    requires Flow(w, s) && a.ServeReceiver? && Enabled(w, s, a) && Stamped(s, a, y.clock)
    requires Coupled(w, s, y) && Y.Synced(y)
    requires var t := Step(w, s, a);
             && Possible(w, t, rest) && Increasing(w, t, rest, Clock(s, a, y.clock))
             && |Channel(t, w.ra)| == |Channel(s, w.ra)| + 1 && Run(w, t, rest).rRead == |Channel(s, w.ra)|
    ensures var end := Run(w, Step(w, s, a), rest);
            Coupled(w, end, z) && Y.Synced(z) && Marked(w, end, z, 0, s.server.index)
  {
    var t := Step(w, s, a);
    var next, b := StepCoupled(w, s, a, y);
    if b.Some? {
      Y.StepSynced(y, b.value);
    }
    StepFlow(w, s, a);
    var more := StepQueue(w, s, a);
    ChannelLength(w, s);
    ChannelLength(w, t);
    AnswerMarked(w, s, t, y, next, b, s.rUp[0].after);
    z := RunMarked(w, t, rest, next, |RQueue(w, s)|, s.server.index);
  }

  lemma {:induction false} RunReplied(w: World, s: System, actions: seq<Action>, y: Y.System, k: nat, n: nat)
    returns (z: Y.System)
    requires Flow(w, s) && Possible(w, s, actions) && Increasing(w, s, actions, y.clock)
    requires Coupled(w, s, y) && Y.Synced(y)
    requires AnswersAt(w, Trace(w, s, actions), actions, k, n) && Run(w, s, actions).rRead == n
    ensures Coupled(w, Run(w, s, actions), z) && Y.Synced(z)
    ensures Marked(w, Run(w, s, actions), z, 0, Trace(w, s, actions)[k].server.index)
    decreases k
  {
    var t := Step(w, s, actions[0]);
    var states := Trace(w, t, actions[1..]);
    assert Trace(w, s, actions) == [s] + states;
    if k == 0 {
      z := FirstReplied(w, s, actions[0], actions[1..], y);
    } else {
      var next := Coupling(w, s, actions[0], y);
      AnswersLater(w, s, states, actions, k - 1, n);
      z := RunReplied(w, t, actions[1..], next, k - 1, n);
    }
  }

  /** One step, with all that is needed to go on. */
  lemma Coupling(w: World, s: System, a: Action, y: Y.System) returns (z: Y.System)
    requires Flow(w, s) && Enabled(w, s, a) && Coupled(w, s, y) && Y.Synced(y) && Stamped(s, a, y.clock)
    ensures Flow(w, Step(w, s, a)) && Coupled(w, Step(w, s, a), z) && Y.Synced(z) && z.clock == Clock(s, a, y.clock)
  {
    var b;
    z, b := StepCoupled(w, s, a, y);
    if b.Some? {
      Y.StepSynced(y, b.value);
    }
    StepFlow(w, s, a);
  }

  /**
   * A reply that a step puts into the channel, and that is next after the run, is put there by the server answering.
   */
  lemma AnswerHere(w: World, s: System, a: Action, rest: seq<Action>)
    requires Flow(w, s) && Enabled(w, s, a) && Possible(w, Step(w, s, a), rest)
    requires var end := Run(w, Step(w, s, a), rest);
             && RQueue(w, end) != [] && RQueue(w, end)[0].TransmitMeta?
             && |Channel(s, w.ra)| <= end.rRead < |Channel(Step(w, s, a), w.ra)|
    ensures var n := Run(w, Step(w, s, a), rest).rRead;
            a.ServeReceiver? && |Channel(s, w.ra)| == n && |Channel(Step(w, s, a), w.ra)| == n + 1
  {
    var t := Step(w, s, a);
    var more := StepQueue(w, s, a);
    StepFlow(w, s, a);
    ChannelLength(w, s);
    ChannelLength(w, t);
    assert |more| == 1 && RQueue(w, t)[|RQueue(w, s)|] == more[0];
    Persists(w, t, rest, |RQueue(w, s)|);
  }

  /** The reply that is next was put into the channel by a step of the run, unless it was there at its start. */
  lemma {:induction false} FindAnswer(w: World, s: System, actions: seq<Action>, n: nat) returns (k: nat)
    requires Flow(w, s) && Possible(w, s, actions)
    requires RQueue(w, Run(w, s, actions)) != [] && RQueue(w, Run(w, s, actions))[0].TransmitMeta?
    requires Run(w, s, actions).rRead == n >= |Channel(s, w.ra)|
    ensures AnswersAt(w, Trace(w, s, actions), actions, k, n)
    decreases |actions|
  {
    k := 0;
    if actions == [] {
      ChannelLength(w, s);
    } else {
      var t := Step(w, s, actions[0]);
      var states := Trace(w, t, actions[1..]);
      assert Trace(w, s, actions) == [s] + states;
      StepFlow(w, s, actions[0]);
      if n >= |Channel(t, w.ra)| {
        k := FindAnswer(w, t, actions[1..], n);
        AnswersLater(w, s, states, actions, k, n);
        k := k + 1;
      } else {
        AnswerHere(w, s, actions[0], actions[1..]);
      }
    }
  }

  lemma {:induction false} NoReplyIn(queue: seq<Payload>, m: nat)
    requires Replies(queue) == [] && m < |queue|
    ensures !queue[m].TransmitMeta?
  {
    if m > 0 {
      NoReplyIn(queue[1..], m - 1);
    }
  }

  // ---- The reply arrives ----

  lemma ReplyFolded(digest: Digest, r: R.Receiver, p: Payload)
    requires r.state == R.Idle && p.TransmitMeta?
    ensures R.ProcessMessage(digest, r, p, R.Written).after.index == AddAll(r.index, p.metas)
  {
  }

  lemma MarkedAgrees(w: World, s: System, y: Y.System, held: seq<Entry>)
    requires Coupled(w, s, y) && Y.Synced(y) && Marked(w, s, y, 0, held) && s.receiver.state == R.Idle
    ensures Y.Agrees(Delivery(w, s).after.index, held)
  {
    var p := RQueue(w, s)[0];
    assert RQueue(w, s)[..0] == [];
    FirstReply(y.replies, RQueue(w, s));
    FoldIs(y, s.receiver.index, p.metas);
    ReplyFolded(w.digest, s.receiver, p);
  }

  lemma FoldIs(y: Y.System, known: seq<Entry>, metas: seq<Meta>)
    requires Y.Synced(y) && y.receiver == known && y.replies != [] && Y.Contents(y.replies[0]) == metas
    ensures Y.Agrees(AddAll(known, metas), y.replies[0].held)
  {
    Y.FoldInSynced(y);
    assert Y.Step(y, Y.FoldIn).receiver == AddAll(known, metas);
  }

  /** A reply that is next after a run was not in the channel when it started, if no reply was. */
  lemma NotThere(w: World, s: System, actions: seq<Action>, end: System)
    requires Flow(w, s) && Replies(RQueue(w, s)) == [] && Possible(w, s, actions) && end == Run(w, s, actions)
    requires RQueue(w, end) != [] && RQueue(w, end)[0].TransmitMeta?
    ensures end.rRead >= |Channel(s, w.ra)|
  {
    ReadGrows(w, s, actions);
    ChannelLength(w, s);
    if end.rRead < |Channel(s, w.ra)| {
      var m := end.rRead - s.rRead;
      NoReplyIn(RQueue(w, s), m);
      Persists(w, s, actions, m);
    }
  }

  /** The next message makes the Receiver agree with all that the server holds in the state `held`. */
  ghost predicate NextAgrees(w: World, s: System, held: System) {
    RQueue(w, s) != [] && Y.Agrees(Delivery(w, s).after.index, held.server.index)
  }

  lemma AnswerAgrees(w: World, s: System, actions: seq<Action>, clock: i64, k: nat, end: System)
    requires Flow(w, s) && Fresh(w, s) && Possible(w, s, actions) && Increasing(w, s, actions, clock)
    requires end == Run(w, s, actions) && end.receiver.state == R.Idle
    requires AnswersAt(w, Trace(w, s, actions), actions, k, end.rRead)
    ensures NextAgrees(w, end, Trace(w, s, actions)[k])
  {
    var held := Trace(w, s, actions)[k].server.index;
    var z := RunReplied(w, s, actions, Y.Begin(clock), k, end.rRead);
    MarkedAgrees(w, end, z, held);
  }

  /**
   * After any run of the whole system from a first start, with stamps that increase: a reply that reaches an idle
   * Receiver was made at some step of the run, which its place in the channel tells; and it makes the Receiver agree
   * with all that the server held at that step.
   */
  lemma ReplyAgrees(w: World, s: System, actions: seq<Action>, clock: i64, states: seq<System>, end: System)
    requires Flow(w, s) && Fresh(w, s) && Possible(w, s, actions) && Increasing(w, s, actions, clock)
    requires states == Trace(w, s, actions) && end == Run(w, s, actions) && end.receiver.state == R.Idle
    requires RQueue(w, end) != [] && RQueue(w, end)[0].TransmitMeta?
    ensures exists k: nat :: AnswersAt(w, states, actions, k, end.rRead)
    ensures forall k: nat :: AnswersAt(w, states, actions, k, end.rRead) ==> NextAgrees(w, end, states[k])
  {
    NotThere(w, s, actions, end);
    var found := FindAnswer(w, s, actions, end.rRead);
    forall k: nat | AnswersAt(w, states, actions, k, end.rRead)
      ensures NextAgrees(w, end, states[k])
    {
      AnswerAgrees(w, s, actions, clock, k, end);
    }
  }
}
