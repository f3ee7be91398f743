/**
 * Incremental metadata synchronisation: a Receiver asks for what changed after the newest stamp it knows, and folds
 * the replies in. Requests and replies travel in order; the server goes on publishing and removing meanwhile.
 */
module Sync {
  import opened Base
  import opened Metadata
  import opened EntryList
  import opened ServerModel

  /** A reply under way: the stamp asked with, what the server held when it replied, and its clock then. */
  datatype Reply = Reply(after: i64, held: seq<Entry>, at: i64)

  function Contents(r: Reply): seq<Meta> {
    MetasOf(ModifiedAfter(r.held, r.after))
  }

  /**
   * `clock` is at or after every stamp given so far; `started` is the stamp that the Receiver knew when its program
   * started, which is what it asks with after a notice; `mark` records when the last reply folded in was made.
   */
  datatype System = System(
    server: seq<Entry>, clock: i64, receiver: seq<Entry>, started: i64, mark: i64,
    requests: seq<i64>, replies: seq<Reply>)

  datatype Action =
    | Publish(meta: Meta, stamp: i64)
    | Withdraw(path: string)
    | AskForNews
    | AskAfterNotice
    | Answer
    | FoldIn
    | Ignore
    | Download(op: Op)
    | Restart

  /** The stamps that the server gives are strictly increasing; a download changes no metadata. */
  ghost predicate Enabled(s: System, a: Action) {
    Ready(s, a) &&
    match a
    case Publish(_, stamp) => stamp > s.clock
    case Download(op) => op.Mark? || op.Relocate?
    case _ => true
  }

  /** There is something for the step to take. */
  predicate Ready(s: System, a: Action) {
    (a.Answer? ==> s.requests != []) && (a.FoldIn? || a.Ignore? ==> s.replies != [])
  }

  function Step(s: System, a: Action): System
    requires Ready(s, a)
  {
    match a
    case Publish(m, stamp) => s.(server := AddForMeta(s.server, m.(metaModified := stamp)), clock := stamp)
    case Withdraw(path) => s.(server := Remove(s.server, path))
    case AskForNews => s.(requests := s.requests + [LastUpdated(s.receiver)])
    case AskAfterNotice => s.(requests := s.requests + [s.started])
    case Answer =>
      s.(requests := s.requests[1..],
         replies := s.replies + [Reply(s.requests[0], s.server, s.clock)])
    case FoldIn =>
      s.(receiver := AddAll(s.receiver, Contents(s.replies[0])), mark := s.replies[0].at, replies := s.replies[1..])
    case Ignore => s.(replies := s.replies[1..])
    case Download(op) => s.(receiver := Apply(s.receiver, op))
    case Restart => s.(started := LastUpdated(s.receiver), requests := [], replies := [])
  }

  // ---- What a Receiver knows ----

  /** The metadata at `path`. */
  function MetaAt(entries: seq<Entry>, path: string): Option<Meta> {
    match FindEntry(entries, path)
    case None => None
    case Some(e) => Some(e.meta)
  }

  /** `known` has the metadata of everything in `held` that is stamped up to `t`. */
  ghost predicate CompleteUpTo(known: seq<Entry>, held: seq<Entry>, t: i64) {
    forall p :: MetaAt(held, p).Some? && MetaAt(held, p).value.metaModified <= t ==> MetaAt(known, p) == MetaAt(held, p)
  }

  /** `known` agrees with `held` on every path of `held`. */
  ghost predicate Agrees(known: seq<Entry>, held: seq<Entry>) {
    forall p :: MetaAt(held, p).Some? ==> MetaAt(known, p) == MetaAt(held, p)
  }

  /** `later` came from `earlier` by withdrawals and publications stamped after `t`. */
  ghost predicate NewsAfter(earlier: seq<Entry>, later: seq<Entry>, t: i64) {
    forall p :: MetaAt(later, p).Some? && MetaAt(later, p).value.metaModified <= t ==>
                  MetaAt(later, p) == MetaAt(earlier, p)
  }

  /** A bound on every stamp in `entries`. */
  ghost predicate StampedUpTo(entries: seq<Entry>, t: i64) {
    forall e :: e in entries ==> e.meta.metaModified <= t
  }

  lemma {:induction false} MetasOfMembers(entries: seq<Entry>)
    ensures forall m :: m in MetasOf(entries) <==> exists e :: e in entries && e.meta == m
  {
    if entries != [] {
      MetasOfMembers(entries[1..]);
      assert entries == [entries[0]] + entries[1..];
      assert MetasOf(entries) == [entries[0].meta] + MetasOf(entries[1..]);
    }
  }

  /** The reply to a request holds, for each path, exactly the metadata stamped after the request's stamp. */
  lemma ReplyHolds(held: seq<Entry>, after: i64, m: Meta)
    requires Unique(held)
    ensures m in MetasOf(ModifiedAfter(held, after)) <==> MetaAt(held, m.path) == Some(m) && m.metaModified > after
  {
    ModifiedAfterMembers(held, after);
    MetasOfMembers(ModifiedAfter(held, after));
    if MetaAt(held, m.path) == Some(m) {
      assert FindEntry(held, m.path).value in held;
    }
    if m in MetasOf(ModifiedAfter(held, after)) {
      var e :| e in held && e.meta == m;
      var i :| 0 <= i < |held| && held[i] == e;
      FindUnique(held, i);
    }
  }

  /** Folding in a reply: its metadata where it has one for the path (they cannot differ), the old one elsewhere. */
  lemma {:induction false} FoldMeta(known: seq<Entry>, metas: seq<Meta>, p: string, m: Option<Meta>)
    requires Unique(known)
    requires forall x :: x in metas && x.path == p ==> m == Some(x)
    requires m.Some? ==> m.value in metas && m.value.path == p
    ensures Unique(AddAll(known, metas))
    ensures MetaAt(AddAll(known, metas), p) == if m.Some? then m else MetaAt(known, p)
    decreases |metas|
  {
    if metas != [] {
      var added := AddForMeta(known, metas[0]);
      OpRefines(known, Announce(metas[0]));
      FindEntryRefines(known, p);
      FindEntryRefines(added, p);
      assert metas == [metas[0]] + metas[1..];
      if m.Some? && m.value !in metas[1..] {
        FoldMeta(added, metas[1..], p, None);
      } else {
        FoldMeta(added, metas[1..], p, m);
      }
    }
  }

  lemma FoldAt(known: seq<Entry>, held: seq<Entry>, after: i64, p: string)
    requires Unique(known) && Unique(held)
    ensures var folded := AddAll(known, MetasOf(ModifiedAfter(held, after)));
            && Unique(folded)
            && MetaAt(folded, p) == if MetaAt(held, p).Some? && MetaAt(held, p).value.metaModified > after
                                    then MetaAt(held, p) else MetaAt(known, p)
  {
    var metas := MetasOf(ModifiedAfter(held, after));
    var m := if MetaAt(held, p).Some? && MetaAt(held, p).value.metaModified > after then MetaAt(held, p) else None;
    forall x | x in metas && x.path == p
      ensures m == Some(x)
    {
      ReplyHolds(held, after, x);
    }
    if m.Some? {
      ReplyHolds(held, after, m.value);
    }
    FoldMeta(known, metas, p, m);
  }

  /**
   * A file reaches the Receiver with a reply exactly when it is stamped after the stamp asked with, or was known in
   * that form already: of two files published under one stamp, the second is never delivered once the first is known.
   */
  lemma DeliveredIff(known: seq<Entry>, held: seq<Entry>, after: i64, p: string)
    requires Unique(known) && Unique(held) && MetaAt(held, p).Some?
    ensures MetaAt(AddAll(known, MetasOf(ModifiedAfter(held, after))), p) == MetaAt(held, p) <==>
            MetaAt(held, p).value.metaModified > after || MetaAt(known, p) == MetaAt(held, p)
  {
    FoldAt(known, held, after, p);
  }

  /** A file stamped like the newest one that the Receiver knows is in no reply to the Receiver asking for news. */
  lemma SameStampNeverSent(known: seq<Entry>, held: seq<Entry>, p: string)
    requires Unique(known) && Unique(held) && MetaAt(held, p).Some?
    requires MetaAt(held, p).value.metaModified == LastUpdated(known) && MetaAt(known, p) != MetaAt(held, p)
    ensures MetaAt(AddAll(known, MetasOf(ModifiedAfter(held, LastUpdated(known)))), p) != MetaAt(held, p)
  {
    DeliveredIff(known, held, LastUpdated(known), p);
  }

  /** A file that the server has withdrawn stays with the Receiver: no reply takes it away. */
  lemma WithdrawalNeverArrives(known: seq<Entry>, held: seq<Entry>, after: i64, p: string)
    requires Unique(known) && Unique(held) && MetaAt(held, p).None?
    ensures MetaAt(AddAll(known, MetasOf(ModifiedAfter(held, after))), p) == MetaAt(known, p)
  {
    FoldAt(known, held, after, p);
  }

  /**
   * A Receiver complete up to the stamp it asked with agrees, once it has folded in the reply, with everything the
   * server held when replying.
   */
  lemma FoldAgrees(known: seq<Entry>, held: seq<Entry>, after: i64)
    requires Unique(known) && Unique(held) && CompleteUpTo(known, held, after)
    ensures Unique(AddAll(known, MetasOf(ModifiedAfter(held, after))))
    ensures Agrees(AddAll(known, MetasOf(ModifiedAfter(held, after))), held)
  {
    FoldAt(known, held, after, "");
    forall p | MetaAt(held, p).Some?
      ensures MetaAt(AddAll(known, MetasOf(ModifiedAfter(held, after))), p) == MetaAt(held, p)
    {
      FoldAt(known, held, after, p);
    }
  }

  // ---- The invariant ----

  /** A reply under way can still be folded in, and nothing newer than it is known yet. */
  ghost predicate Pending(s: System, r: Reply) {
    && Unique(r.held) && StampedUpTo(r.held, r.at)
    && s.mark <= r.at <= s.clock && r.after <= s.mark
    && CompleteUpTo(s.receiver, r.held, r.after)
    && NewsAfter(r.held, s.server, r.at)
  }

  /** Replies were made in the order in which they travel. */
  ghost predicate InOrder(replies: seq<Reply>) {
    forall i, j :: 0 <= i < j < |replies| ==>
                     replies[i].at <= replies[j].at && NewsAfter(replies[i].held, replies[j].held, replies[i].at)
  }

  ghost predicate Synced(s: System) {
    && Unique(s.server) && Unique(s.receiver)
    && StampedUpTo(s.server, s.clock) && StampedUpTo(s.receiver, s.mark)
    && s.started <= s.mark <= s.clock
    && CompleteUpTo(s.receiver, s.server, s.mark)
    && (forall a :: a in s.requests ==> a <= s.mark)
    && (forall r :: r in s.replies ==> Pending(s, r))
    && InOrder(s.replies)
  }

  lemma PublishSynced(s: System, m: Meta, stamp: i64)
    requires Synced(s) && stamp > s.clock
    ensures Synced(Step(s, Publish(m, stamp)))
  {
    var stamped := m.(metaModified := stamp);
    var server := AddForMeta(s.server, stamped);
    OpRefines(s.server, Announce(stamped));
    forall p
      ensures MetaAt(server, p) == if p == m.path then Some(stamped) else MetaAt(s.server, p)
    {
      FindEntryRefines(s.server, p);
      FindEntryRefines(server, p);
    }
  }

  lemma WithdrawSynced(s: System, path: string)
    requires Synced(s)
    ensures Synced(Step(s, Withdraw(path)))
  {
    var server := Remove(s.server, path);
    RemoveMembers(s.server, path);
    OpRefines(s.server, Drop(path));
    forall p
      ensures MetaAt(server, p) == if p == path then None else MetaAt(s.server, p)
    {
      FindEntryRefines(s.server, p);
      FindEntryRefines(server, p);
    }
  }

  /** Marking a chunk or moving a file changes no metadata. */
  lemma DownloadKeepsMetas(entries: seq<Entry>, op: Op, t: i64)
    requires Unique(entries) && (op.Mark? || op.Relocate?)
    ensures Unique(Apply(entries, op))
    ensures forall p :: MetaAt(Apply(entries, op), p) == MetaAt(entries, p)
    ensures StampedUpTo(entries, t) ==> StampedUpTo(Apply(entries, op), t)
  {
    if Find(entries, op.path).Some? {
      var i := Find(entries, op.path).value;
      var e := entries[i];
      assert e in entries;
      ReplaceFind(entries, i,
                  if op.Mark? then e.(received := e.received + {op.chunk})
                  else e.(localPath := op.localPath, received := {}));
    }
  }

  lemma DownloadSynced(s: System, op: Op)
    requires Synced(s) && (op.Mark? || op.Relocate?)
    ensures Synced(Step(s, Download(op)))
  {
    DownloadKeepsMetas(s.receiver, op, s.mark);
    var t := Step(s, Download(op));
    assert forall r :: r in t.replies ==> Pending(s, r);
  }

  lemma AskSynced(s: System, after: i64)
    requires Synced(s) && after <= s.mark
    ensures Synced(s.(requests := s.requests + [after]))
  {
    var t := s.(requests := s.requests + [after]);
    assert forall r :: r in t.replies ==> Pending(s, r);
  }

  /** The newest known stamp is one that the mark covers. */
  lemma NewestBelowMark(s: System)
    requires StampedUpTo(s.receiver, s.mark)
    ensures LastUpdated(s.receiver) <= s.mark
  {
  }

  lemma AnswerSynced(s: System)
    requires Synced(s) && s.requests != []
    ensures Synced(Step(s, Answer))
  {
    var t := Step(s, Answer);
    assert s.requests[0] in s.requests;
    assert forall a :: a in t.requests ==> a in s.requests;
    forall r | r in t.replies
      ensures Pending(t, r)
    {
      if r in s.replies {
        assert Pending(s, r);
      }
    }
    forall i, j | 0 <= i < j < |t.replies|
      ensures t.replies[i].at <= t.replies[j].at
      ensures NewsAfter(t.replies[i].held, t.replies[j].held, t.replies[i].at)
    {
      assert s.replies[i] in s.replies;
    }
  }

  /** The stamps known after folding are covered by the moment at which the reply was made. */
  lemma FoldStamped(s: System, r: Reply)
    requires Unique(s.receiver) && StampedUpTo(s.receiver, s.mark) && Pending(s, r)
    ensures StampedUpTo(AddAll(s.receiver, Contents(r)), r.at)
  {
    var folded := AddAll(s.receiver, Contents(r));
    forall e | e in folded
      ensures e.meta.metaModified <= r.at
    {
      FoldAt(s.receiver, r.held, r.after, e.meta.path);
      var i :| 0 <= i < |folded| && folded[i] == e;
      FindUnique(folded, i);
      assert MetaAt(folded, e.meta.path) == Some(e.meta);
    }
  }

  /** A reply made later is still complete for the Receiver once it has folded in an earlier one. */
  lemma FoldKeepsPending(s: System, t: System, r: Reply, later: Reply)
    requires Unique(s.receiver) && Pending(s, r) && Pending(s, later)
    requires r.at <= later.at && NewsAfter(r.held, later.held, r.at)
    requires t == s.(receiver := AddAll(s.receiver, Contents(r)), mark := r.at, replies := t.replies)
    ensures Pending(t, later)
  {
    forall p | MetaAt(later.held, p).Some? && MetaAt(later.held, p).value.metaModified <= later.after
      ensures MetaAt(t.receiver, p) == MetaAt(later.held, p)
    {
      FoldAt(s.receiver, r.held, r.after, p);
    }
  }

  /** What agrees with the server as it was has everything of the server as it is that is stamped up to then. */
  lemma AgreesComplete(known: seq<Entry>, held: seq<Entry>, server: seq<Entry>, t: i64)
    requires Agrees(known, held) && NewsAfter(held, server, t)
    ensures CompleteUpTo(known, server, t)
  {
  }

  lemma FoldKeepsReplies(s: System, t: System)
    requires Synced(s) && s.replies != [] && t == Step(s, FoldIn)
    ensures forall later :: later in t.replies ==> Pending(t, later)
    ensures InOrder(t.replies)
  {
    var r := s.replies[0];
    assert r in s.replies;
    forall later | later in t.replies
      ensures Pending(t, later)
    {
      var j :| 0 < j < |s.replies| && s.replies[j] == later;
      FoldKeepsPending(s, t, r, later);
    }
  }

  lemma FoldInSynced(s: System)
    requires Synced(s) && s.replies != []
    ensures Synced(Step(s, FoldIn))
    ensures Agrees(Step(s, FoldIn).receiver, s.replies[0].held)
  {
    var r := s.replies[0];
    var t := Step(s, FoldIn);
    assert r in s.replies && Pending(s, r);
    FoldAgrees(s.receiver, r.held, r.after);
    FoldStamped(s, r);
    FoldKeepsReplies(s, t);
    assert t.receiver == AddAll(s.receiver, Contents(r)) && t.mark == r.at;
    AgreesComplete(t.receiver, r.held, s.server, r.at);
  }

  lemma StepSynced(s: System, a: Action)
    requires Synced(s) && Enabled(s, a)
    ensures Synced(Step(s, a))
  {
    NewestBelowMark(s);
    match a
    case Publish(m, stamp) => PublishSynced(s, m, stamp);
    case Withdraw(path) => WithdrawSynced(s, path);
    case AskForNews => AskSynced(s, LastUpdated(s.receiver));
    case AskAfterNotice => AskSynced(s, s.started);
    case Answer => AnswerSynced(s);
    case FoldIn => FoldInSynced(s);
    case Ignore =>
      var t := Step(s, Ignore);
      assert forall r :: r in t.replies ==> r in s.replies && Pending(s, r);
    case Download(op) => DownloadSynced(s, op);
    case Restart =>
  }

  ghost predicate Possible(s: System, actions: seq<Action>)
    decreases |actions|
  {
    actions != [] ==> Enabled(s, actions[0]) && Possible(Step(s, actions[0]), actions[1..])
  }

  ghost function Run(s: System, actions: seq<Action>): System
    requires Possible(s, actions)
    decreases |actions|
  {
    if actions == [] then s else Run(Step(s, actions[0]), actions[1..])
  }

  /** A server and a Receiver that know nothing yet. */
  function Begin(clock: i64): System {
    System([], clock, [], I64_MIN, I64_MIN, [], [])
  }

  lemma {:induction false} RunSynced(s: System, actions: seq<Action>)
    requires Synced(s) && Possible(s, actions)
    ensures Synced(Run(s, actions))
    decreases |actions|
  {
    if actions != [] {
      StepSynced(s, actions[0]);
      RunSynced(Step(s, actions[0]), actions[1..]);
    }
  }

  /**
   * Synchronisation converges. After any run of publications with increasing stamps, withdrawals, requests, answers,
   * replies folded in or ignored, downloads and restarts, the Receiver has everything that the server holds stamped up
   * to the newest stamp it knows; and folding in the next reply makes it agree with all that the server held when it
   * replied.
   */
  lemma Converges(clock: i64, actions: seq<Action>)
    requires Possible(Begin(clock), actions)
    ensures var s := Run(Begin(clock), actions);
            && CompleteUpTo(s.receiver, s.server, LastUpdated(s.receiver))
            && (s.replies != [] ==> Agrees(Step(s, FoldIn).receiver, s.replies[0].held))
            && (s.replies != [] && s.replies[0].held == s.server ==> Agrees(Step(s, FoldIn).receiver, s.server))
  {
    RunSynced(Begin(clock), actions);
    var s := Run(Begin(clock), actions);
    NewestBelowMark(s);
    if s.replies != [] {
      FoldInSynced(s);
    }
  }

  /**
   * Exactly when the Receiver agrees with the server: when the server's newest stamp is not newer than its own. Nothing
   * else makes it so, not even empty queues, since an update notice that arrives during a download is refused and not
   * remembered.
   */
  lemma AgreesIff(s: System)
    requires Synced(s)
    ensures Agrees(s.receiver, s.server) <==> LastUpdated(s.server) <= LastUpdated(s.receiver)
  {
    NewestBelowMark(s);
    assert LastUpdated(s.server) <= LastUpdated(s.receiver) ==> Agrees(s.receiver, s.server) by {
      assert forall p :: MetaAt(s.server, p).Some? ==> FindEntry(s.server, p).value in s.server;
    }
    forall e | e in s.server
      ensures Agrees(s.receiver, s.server) ==> e.meta.metaModified <= LastUpdated(s.receiver)
    {
      var i :| 0 <= i < |s.server| && s.server[i] == e;
      FindUnique(s.server, i);
      assert MetaAt(s.server, e.meta.path) == Some(e.meta);
    }
  }
}
