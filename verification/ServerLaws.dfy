/**
 * What the server does, told from outside: not by handler, but by what becomes of each client. Together with the laws
 * of the index these say all that a step does.
 */
module ServerLaws {
  import opened Base
  import opened Metadata
  import opened Messages
  import opened ServerModel
  import opened ServerSafety
  import EntryList

  // ---- Who is there ----

  /** The login gives its client a role: the key is the token of the role, and nobody has the role yet. */
  ghost predicate Accepted(s: Server, a: Addr, t: LoginType, key: string) {
    && s.running && a in s.clients && s.clients[a].role == Unidentified
    && match t
       case AsReceiver => key == s.receiverToken && forall b :: b in s.clients ==> s.clients[b].role != Receiver
       case AsSender => key == s.senderToken && forall b :: b in s.clients ==> s.clients[b].role != Sender
  }

  /** The role of client `r` after the input. */
  ghost function RoleAfter(s: Server, i: Input, r: Addr): Role
    requires r in s.clients
  {
    match i
    case Incoming(a, Login(t, _, key), _) =>
      if a == r && Accepted(s, a, t, key) then (if t == AsReceiver then Receiver else Sender) else s.clients[r].role
    case _ => s.clients[r].role
  }

  /** One who connects is there, one who leaves is gone, and nobody else comes or goes. */
  lemma StepKeys(s: Server, i: Input)
    requires s.running
    ensures Step(s, i).clients.Keys ==
            match i
            case Joined(a) => s.clients.Keys + {a}
            case Left(a) => s.clients.Keys - {a}
            case _ => s.clients.Keys
  {
    match i
    case Incoming(a, p, now) =>
      if a in s.clients {
        MessageRoles(s, a, p, now);
      }
    case _ =>
  }

  /** A handler changes the role of nobody but its client, and that only by an accepted login. */
  lemma MessageRoles(s: Server, a: Addr, p: Payload, now: i64)
    requires s.running && a in s.clients
    ensures var after := HandleMessage(s, a, p, now).after;
            && after.clients.Keys == s.clients.Keys
            && forall r :: r in s.clients ==>
                             && after.clients[r].role == RoleAfter(s, Incoming(a, p, now), r)
                             && after.clients[r].open == s.clients[r].open
                             && after.clients[r].addr == s.clients[r].addr
                             && after.clients[r].cancelled == s.clients[r].cancelled
  {
    match p
    case Login(t, _, key) => LoginRoles(s, a, t, key);
    case _ =>
  }

  lemma LoginRoles(s: Server, a: Addr, t: LoginType, key: string)
    requires s.running && a in s.clients
    ensures var after := HandleLogin(s, a, t, key).after;
            && after.clients.Keys == s.clients.Keys
            && forall r :: r in s.clients ==>
                             && after.clients[r].role ==
                                (if r == a && Accepted(s, a, t, key)
                                 then if t == AsReceiver then Receiver else Sender
                                 else s.clients[r].role)
                             && after.clients[r].open == s.clients[r].open
                             && after.clients[r].addr == s.clients[r].addr
                             && after.clients[r].cancelled == s.clients[r].cancelled
  {
    if Accepted(s, a, t, key) {
      var identified := s.(clients := s.clients[a := s.clients[a].(role := RoleOf(t))]);
      var welcomed := SendTo(identified, a, LoginSuccess).after;
      SendKeeps(identified, a, LoginSuccess);
      TellKeeps(welcomed, Connected);
    }
  }

  /** Sending changes channels only. */
  ghost predicate ChannelsOnly(s: Server, t: Server) {
    && t.clients.Keys == s.clients.Keys
    && forall r :: r in s.clients ==> t.clients[r].(sent := []) == s.clients[r].(sent := [])
  }

  lemma SendKeeps(s: Server, a: Addr, p: Payload)
    requires a in s.clients
    ensures ChannelsOnly(s, SendTo(s, a, p).after)
  {
  }

  lemma TellKeeps(s: Server, status: UserStatus)
    ensures ChannelsOnly(s, TellStatus(s, status).after)
  {
    if ByRole(s.clients, Receiver).Some? {
      SendKeeps(s, ByRole(s.clients, Receiver).value, NotifySenderStatus(status));
    }
  }

  /** A client that was there and still is keeps its address; its role changes by an accepted login of its own only. */
  lemma StepRecord(s: Server, i: Input, r: Addr)
    requires s.running && r in s.clients && i != Joined(r) && i != Left(r)
    ensures r in Step(s, i).clients
    ensures var after := Step(s, i).clients[r];
            && after.addr == s.clients[r].addr
            && after.role == RoleAfter(s, i, r)
            && (after.open <==> s.clients[r].open && i != Closed(r))
  {
    match i
    case Incoming(a, p, now) =>
      if a in s.clients {
        MessageRoles(s, a, p, now);
      }
    case _ =>
  }

  /** One who connects is new: unidentified, with an empty channel, whoever had the address before. */
  lemma StepJoins(s: Server, a: Addr)
    requires s.running
    ensures var c := Step(s, Joined(a)).clients[a];
            c.addr == a && c.role == Unidentified && c.sent == [] && c.open && !c.cancelled
  {
  }

  // ---- What is sent ----

  /** What client `r`, whose connection lives, is sent for the input. */
  ghost function Due(s: Server, i: Input, r: Addr): seq<Payload>
    requires r in s.clients
  {
    match i
    case Left(a) =>
      if a in s.clients && s.clients[a].role == Sender && s.clients[r].role == Receiver
      then [NotifySenderStatus(Disconnected)] else []
    case Incoming(a, p, now) => if a in s.clients then DueFor(s, a, p, now, r) else []
    case _ => []
  }

  ghost function DueFor(s: Server, a: Addr, p: Payload, now: i64, r: Addr): seq<Payload>
    requires a in s.clients && r in s.clients
  {
    var from, to := s.clients[a].role, s.clients[r].role;
    match p
    case Login(t, _, key) =>
      if !Accepted(s, a, t, key) then []
      else if r == a then
        [LoginSuccess] + if t == AsReceiver && Exists(s.clients, Sender) then [NotifySenderStatus(Connected)] else []
      else if t == AsSender && to == Receiver && s.clients[a].open then [NotifySenderStatus(Connected)]
      else []
    case PublishMeta(_) => if from == Sender && to == Receiver then [NotifyUpdated(now)] else []
    case RequestMeta(after) =>
      if a == r && from != Unidentified then [TransmitMeta(MetasOf(EntryList.ModifiedAfter(s.index, after)))] else []
    case RequestChunk(_, _, _) => if from == Receiver && to == Sender then [p] else []
    case StopChunk => if from == Receiver && to == Sender then [p] else []
    case TransmitChunk(_) =>
      if from != Sender then []
      else if to == Receiver then [p]
      else if a == r && !Exists(s.clients, Receiver) then [StopChunk]
      else []
    case _ => []
  }

  /** Sending puts one message at the end of one channel, if its connection lives. */
  lemma SendToIs(s: Server, x: Addr, p: Payload, r: Addr)
    requires x in s.clients && r in s.clients
    ensures SendTo(s, x, p).after.clients[r].sent ==
            s.clients[r].sent + if x == r && s.clients[r].open then [p] else []
  {
  }

  lemma LoginSends(s: Server, a: Addr, t: LoginType, user: string, key: string, now: i64, r: Addr)
    requires Safe(s) && s.running && a in s.clients && r in s.clients
    ensures HandleLogin(s, a, t, key).after.clients[r].sent ==
            s.clients[r].sent + if s.clients[r].open then DueFor(s, a, Login(t, user, key), now, r) else []
  {
    if Accepted(s, a, t, key) {
      var identified := s.(clients := s.clients[a := s.clients[a].(role := RoleOf(t))]);
      assert Safe(identified);
      SendToIs(identified, a, LoginSuccess, r);
      if s.clients[a].open {
        WelcomedSends(s, a, t, identified, r);
      }
    }
  }

  lemma WelcomedSends(s: Server, a: Addr, t: LoginType, identified: Server, r: Addr)
    requires Safe(s) && a in s.clients && r in s.clients && s.clients[a].role == Unidentified && s.clients[a].open
    requires identified == s.(clients := s.clients[a := s.clients[a].(role := RoleOf(t))]) && Safe(identified)
    ensures var welcomed := SendTo(identified, a, LoginSuccess).after;
            var told := TellStatus(welcomed, Connected).after;
            && (Exists(identified.clients, Sender) <==> Exists(s.clients, Sender) || t == AsSender)
            && welcomed.clients[r].sent == s.clients[r].sent + (if r == a then [LoginSuccess] else [])
            && told.clients[r].sent ==
               welcomed.clients[r].sent + (if welcomed.clients[r].role == Receiver && s.clients[r].open
                                           then [NotifySenderStatus(Connected)] else [])
  {
    var welcomed := SendTo(identified, a, LoginSuccess).after;
    SendToSafe(identified, a, LoginSuccess);
    SendToIs(identified, a, LoginSuccess, r);
    if Exists(s.clients, Sender) {
      var b :| b in s.clients && s.clients[b].role == Sender;
      assert identified.clients[b].role == Sender;
    }
    if t == AsSender {
      assert identified.clients[a].role == Sender;
    }
    RoleSends(welcomed, Receiver, NotifySenderStatus(Connected), r);
  }

  /** Sending to a role reaches the one client that has it. */
  lemma RoleSends(s: Server, role: Role, p: Payload, r: Addr)
    requires Safe(s) && r in s.clients && role != Unidentified
    ensures SendToRole(s, role, p).after.clients[r].sent ==
            s.clients[r].sent + if s.clients[r].role == role && s.clients[r].open then [p] else []
  {
    if s.clients[r].role == role {
      ByRoleIs(s, r);
    }
    if ByRole(s.clients, role).Some? {
      SendToIs(s, ByRole(s.clients, role).value, p, r);
    }
  }

  lemma MessageSends(s: Server, a: Addr, p: Payload, now: i64, r: Addr)
    requires Safe(s) && s.running && a in s.clients && r in s.clients
    ensures HandleMessage(s, a, p, now).after.clients[r].sent ==
            s.clients[r].sent + if s.clients[r].open then DueFor(s, a, p, now, r) else []
  {
    match p
    case Login(t, user, key) => LoginSends(s, a, t, user, key, now, r);
    case PublishMeta(m) => PublishSends(s, a, m, now, r);
    case RequestMeta(after) => SendToIs(s, a, TransmitMeta(MetasOf(EntryList.ModifiedAfter(s.index, after))), r);
    case RequestChunk(_, _, _) => RoleSends(s, Sender, p, r);
    case StopChunk => RoleSends(s, Sender, p, r);
    case TransmitChunk(_) => BlockSends(s, a, p, now, r);
    case _ =>
  }

  lemma PublishSends(s: Server, a: Addr, m: Meta, now: i64, r: Addr)
    requires Safe(s) && s.running && a in s.clients && r in s.clients
    ensures HandlePublishMeta(s, a, m, now).after.clients[r].sent ==
            s.clients[r].sent + if s.clients[r].open then DueFor(s, a, PublishMeta(m), now, r) else []
  {
    if s.clients[a].role == Sender {
      var index := EntryList.AddForMeta(s.index, m.(metaModified := now));
      RoleSends(s.(index := index, saved := index), Receiver, NotifyUpdated(now), r);
    }
  }

  lemma BlockSends(s: Server, a: Addr, p: Payload, now: i64, r: Addr)
    requires Safe(s) && s.running && a in s.clients && r in s.clients && p.TransmitChunk?
    ensures HandleTransmitChunk(s, a, p.data).after.clients[r].sent ==
            s.clients[r].sent + if s.clients[r].open then DueFor(s, a, p, now, r) else []
  {
    if s.clients[a].role == Sender {
      RoleSends(s, Receiver, p, r);
      SendToIs(s, a, StopChunk, r);
    }
  }

  /** A client that stays is sent exactly what is due to it, as long as its connection lives. */
  lemma StepSends(s: Server, i: Input, r: Addr)
    requires Safe(s) && s.running && r in s.clients && i != Joined(r) && i != Left(r)
    ensures r in Step(s, i).clients
    ensures Step(s, i).clients[r].sent == s.clients[r].sent + if s.clients[r].open then Due(s, i, r) else []
  {
    StepRecord(s, i, r);
    match i
    case Incoming(a, p, now) =>
      if a in s.clients {
        MessageSends(s, a, p, now, r);
      }
    case Left(a) =>
      if a in s.clients && s.clients[a].role == Sender {
        RoleSends(s, Receiver, NotifySenderStatus(Disconnected), r);
      }
    case _ =>
  }

  // ---- Who is cut off ----

  /** No message can be passed on to the holder of the role: there is none, or its connection has ended. */
  ghost predicate OutOfReach(s: Server, role: Role) {
    forall b :: b in s.clients && s.clients[b].role == role ==> !s.clients[b].open
  }

  /** The message costs its client the connection. */
  ghost predicate Offends(s: Server, a: Addr, p: Payload)
    requires a in s.clients
  {
    var role := s.clients[a].role;
    match p
    case ErrorText(_) => false
    case Login(t, _, key) => !Accepted(s, a, t, key) || !s.clients[a].open
    case PublishMeta(_) => role != Sender
    case RemoveMeta(_) => role != Sender
    case RequestMeta(_) => role == Unidentified || !s.clients[a].open
    case RequestChunk(_, _, _) => role != Receiver || OutOfReach(s, Sender)
    case StopChunk => role != Receiver || OutOfReach(s, Sender)
    case TransmitChunk(_) =>
      role != Sender || if Exists(s.clients, Receiver) then OutOfReach(s, Receiver) else !s.clients[a].open
    case _ => true
  }

  lemma RoleReached(s: Server, role: Role, p: Payload)
    requires Safe(s) && role != Unidentified
    ensures SendToRole(s, role, p).verdict ==
            if !OutOfReach(s, role) then Ok
            else if Exists(s.clients, role) then Err(SendFailed)
            else Err(ClientNotFound)
  {
    if Exists(s.clients, role) {
      var b :| b in s.clients && s.clients[b].role == role;
      ByRoleIs(s, b);
    }
  }

  lemma LoginVerdict(s: Server, a: Addr, t: LoginType, key: string)
    requires Safe(s) && s.running && a in s.clients
    ensures HandleLogin(s, a, t, key).verdict != Panic
    ensures HandleLogin(s, a, t, key).verdict == Ok <==> Accepted(s, a, t, key) && s.clients[a].open
    ensures HandleLogin(s, a, t, key).verdict == Err(Unsupported) <==> s.clients[a].role != Unidentified
    ensures HandleLogin(s, a, t, key).verdict == Err(InvalidToken) <==>
            && s.clients[a].role == Unidentified
            && (t == AsReceiver ==> key != s.receiverToken) && (t == AsSender ==> key != s.senderToken)
    ensures HandleLogin(s, a, t, key).verdict == Err(SendFailed) <==> Accepted(s, a, t, key) && !s.clients[a].open
  {
    if Accepted(s, a, t, key) && s.clients[a].open {
      var identified := s.(clients := s.clients[a := s.clients[a].(role := RoleOf(t))]);
      assert Safe(identified);
      var welcomed := SendTo(identified, a, LoginSuccess).after;
      SendToSafe(identified, a, LoginSuccess);
      ByRoleIs(welcomed, a);
    }
  }

  lemma MessageVerdict(s: Server, a: Addr, p: Payload, now: i64)
    requires Safe(s) && s.running && a in s.clients
    ensures HandleMessage(s, a, p, now).verdict.Err? <==> Offends(s, a, p)
    ensures HandleMessage(s, a, p, now).verdict == Err(UnknownMessage) <==> p == Unknown
  {
    match p
    case Login(t, _, key) => LoginVerdict(s, a, t, key);
    case RequestChunk(_, _, _) => RoleReached(s, Sender, p);
    case StopChunk => RoleReached(s, Sender, p);
    case TransmitChunk(_) => RoleReached(s, Receiver, p);
    case _ =>
  }

  /** A connection is cut off exactly for an offence of its own client; nothing else cuts one, and nothing mends one. */
  lemma StepCuts(s: Server, i: Input, r: Addr)
    requires Safe(s) && s.running && r in s.clients && i != Joined(r) && i != Left(r)
    ensures r in Step(s, i).clients
    ensures Step(s, i).clients[r].cancelled <==>
            s.clients[r].cancelled || (i.Incoming? && i.addr == r && Offends(s, r, i.payload))
  {
    StepRecord(s, i, r);
    match i
    case Incoming(a, p, now) =>
      if a in s.clients {
        MessageRoles(s, a, p, now);
        MessageVerdict(s, a, p, now);
      }
    case _ =>
  }

  // ---- The rest of the state ----

  lemma LoginTokens(s: Server, a: Addr, t: LoginType, key: string)
    requires a in s.clients
    ensures var after := HandleLogin(s, a, t, key).after;
            after.receiverToken == s.receiverToken && after.senderToken == s.senderToken
  {
  }

  lemma MessageTokens(s: Server, a: Addr, p: Payload, now: i64)
    requires a in s.clients
    ensures var after := HandleMessage(s, a, p, now).after;
            after.receiverToken == s.receiverToken && after.senderToken == s.senderToken
  {
    match p
    case Login(t, _, key) => LoginTokens(s, a, t, key);
    case _ =>
  }

  /** The tokens never change; a dead server does nothing. */
  lemma StepTokens(s: Server, i: Input)
    ensures Step(s, i).receiverToken == s.receiverToken && Step(s, i).senderToken == s.senderToken
    ensures !s.running ==> Step(s, i) == s
  {
    if i.Incoming? && i.addr in s.clients {
      MessageTokens(s, i.addr, i.payload, i.now);
    }
  }

  /** The index changes by a publication or a withdrawal of the Sender only, and is saved each time. */
  lemma StepIndex(s: Server, i: Input)
    requires Safe(s) && s.running
    ensures Step(s, i).index == Step(s, i).saved
    ensures Step(s, i).index ==
            if i.Incoming? && i.addr in s.clients && s.clients[i.addr].role == Sender then
              match i.payload
              case PublishMeta(m) => EntryList.AddForMeta(s.index, m.(metaModified := i.now))
              case RemoveMeta(path) => EntryList.Remove(s.index, path)
              case _ => s.index
            else s.index
  {
    StepSafe(s, i);
  }

  // ---- Over runs ----

  /** Among the inputs is a login of the client at `a` with the token of the role. */
  ghost predicate Presented(s: Server, inputs: seq<Input>, a: Addr, role: Role) {
    exists i :: i in inputs && Presents(s, i, a, role)
  }

  ghost predicate Presents(s: Server, i: Input, a: Addr, role: Role) {
    && i.Incoming? && i.addr == a && i.payload.Login?
    && (role == Receiver ==> i.payload.loginType == AsReceiver && i.payload.key == s.receiverToken)
    && (role == Sender ==> i.payload.loginType == AsSender && i.payload.key == s.senderToken)
  }

  lemma StepPresented(s: Server, done: seq<Input>, i: Input)
    requires forall a :: a in s.clients && s.clients[a].role != Unidentified ==>
                           Presented(s, done, a, s.clients[a].role)
    ensures var t := Step(s, i);
            forall a :: a in t.clients && t.clients[a].role != Unidentified ==>
                          Presented(t, done + [i], a, t.clients[a].role)
  {
    StepTokens(s, i);
    var t := Step(s, i);
    forall a | a in t.clients && t.clients[a].role != Unidentified
      ensures Presented(t, done + [i], a, t.clients[a].role)
    {
      if s.running {
        StepKeys(s, i);
        StepJoins(s, a);
        StepRecord(s, i, a);
      }
      if t.clients[a].role == s.clients[a].role {
        var j :| j in done && Presents(s, j, a, t.clients[a].role);
        assert j in done + [i] && Presents(t, j, a, t.clients[a].role);
      } else {
        assert i in done + [i] && Presents(t, i, a, t.clients[a].role);
      }
    }
  }

  lemma {:induction false} RunPresented(s: Server, done: seq<Input>, inputs: seq<Input>)
    requires forall a :: a in s.clients && s.clients[a].role != Unidentified ==>
                           Presented(s, done, a, s.clients[a].role)
    ensures var t := Run(s, inputs);
            && t.receiverToken == s.receiverToken && t.senderToken == s.senderToken
            && forall a :: a in t.clients && t.clients[a].role != Unidentified ==>
                             Presented(t, done + inputs, a, t.clients[a].role)
    decreases |inputs|
  {
    if inputs == [] {
      assert done + inputs == done;
    } else {
      StepPresented(s, done, inputs[0]);
      StepTokens(s, inputs[0]);
      RunPresented(Step(s, inputs[0]), done + [inputs[0]], inputs[1..]);
      assert done + [inputs[0]] + inputs[1..] == done + inputs;
    }
  }

  /**
   * Over every run of a started server, whoever is Receiver or Sender has presented the token that was configured for
   * it.
   */
  lemma NobodyWithoutToken(saved: seq<Entry>, receiverToken: string, senderToken: string, inputs: seq<Input>, a: Addr)
    ensures var t := Run(Start(saved, receiverToken, senderToken), inputs);
            && (a in t.clients && t.clients[a].role == Receiver ==>
                  exists i :: i in inputs && PresentsKey(i, a, AsReceiver, receiverToken))
            && (a in t.clients && t.clients[a].role == Sender ==>
                  exists i :: i in inputs && PresentsKey(i, a, AsSender, senderToken))
  {
    var s := Start(saved, receiverToken, senderToken);
    RunPresented(s, [], inputs);
    assert [] + inputs == inputs;
    var t := Run(s, inputs);
    if a in t.clients && t.clients[a].role != Unidentified {
      var i :| i in inputs && Presents(t, i, a, t.clients[a].role);
      assert t.clients[a].role == Receiver ==> PresentsKey(i, a, AsReceiver, receiverToken);
      assert t.clients[a].role == Sender ==> PresentsKey(i, a, AsSender, senderToken);
    }
  }

  ghost predicate PresentsKey(i: Input, a: Addr, t: LoginType, key: string) {
    i.Incoming? && i.addr == a && i.payload.Login? && i.payload.loginType == t && i.payload.key == key
  }

  // ---- Leaving, and coming back ----

  lemma RunThree(s: Server, i: Input, j: Input, k: Input)
    ensures Run(s, [i, j, k]) == Step(Step(Step(s, i), j), k)
  {
    assert [i, j, k][1..] == [j, k] && [j, k][1..] == [k] && [k][1..] == [];
    assert Run(Step(Step(s, i), j), [k]) == Run(Step(Step(Step(s, i), j), k), []);
  }

  /**
   * A role that is given up can be had again: once its holder has left, whoever connects with the right key is
   * accepted, and welcome.
   */
  lemma RoleFreed(s: Server, a: Addr, b: Addr, t: LoginType, user: string, key: string, now: i64)
    requires Safe(s) && s.running && a in s.clients && (b !in s.clients || b == a)
    requires s.clients[a].role == if t == AsReceiver then Receiver else Sender
    requires key == if t == AsReceiver then s.receiverToken else s.senderToken
    ensures var after := Run(s, [Left(a), Joined(b), Incoming(b, Login(t, user, key), now)]);
            && after.running && b in after.clients && after.clients[b].role == s.clients[a].role
            && [LoginSuccess] <= after.clients[b].sent && after.clients[b].open && !after.clients[b].cancelled
  {
    var left := Step(s, Left(a));
    var joined := Step(left, Joined(b));
    LeavesRoom(s, a, b, t, key);
    Admitted(joined, b, t, user, key, now);
    RunThree(s, Left(a), Joined(b), Incoming(b, Login(t, user, key), now));
  }

  lemma LeavesRoom(s: Server, a: Addr, b: Addr, t: LoginType, key: string)
    requires Safe(s) && s.running && a in s.clients && (b !in s.clients || b == a)
    requires s.clients[a].role == if t == AsReceiver then Receiver else Sender
    requires key == if t == AsReceiver then s.receiverToken else s.senderToken
    ensures var joined := Step(Step(s, Left(a)), Joined(b));
            && Safe(joined) && joined.running && Accepted(joined, b, t, key)
            && joined.clients[b].open && !joined.clients[b].cancelled && joined.clients[b].sent == []
  {
    var left := Step(s, Left(a));
    var joined := Step(left, Joined(b));
    StepSafe(s, Left(a));
    StepSafe(left, Joined(b));
    StepKeys(s, Left(a));
    StepKeys(left, Joined(b));
    StepJoins(left, b);
    forall c | c in joined.clients && c != b
      ensures joined.clients[c].role == s.clients[c].role && c != a
    {
      StepRecord(s, Left(a), c);
      StepRecord(left, Joined(b), c);
    }
  }

  lemma Admitted(s: Server, b: Addr, t: LoginType, user: string, key: string, now: i64)
    requires Safe(s) && s.running && Accepted(s, b, t, key)
    requires s.clients[b].open && !s.clients[b].cancelled && s.clients[b].sent == []
    ensures var after := Step(s, Incoming(b, Login(t, user, key), now));
            && after.running && b in after.clients
            && after.clients[b].role == (if t == AsReceiver then Receiver else Sender)
            && [LoginSuccess] <= after.clients[b].sent && after.clients[b].open && !after.clients[b].cancelled
  {
    var i := Incoming(b, Login(t, user, key), now);
    StepRecord(s, i, b);
    StepSends(s, i, b);
    StepCuts(s, i, b);
    StillRuns(s, i);
  }

  // ---- Restart ----

  /** A server that is started holds what was saved, all of it, and nobody is there. */
  lemma Started(saved: seq<Entry>, receiverToken: string, senderToken: string)
    ensures var s := Start(saved, receiverToken, senderToken);
            && s.index == saved && s.saved == saved && s.clients.Keys == {} && s.running
            && s.receiverToken == receiverToken && s.senderToken == senderToken
  {
  }

  /**
   * A restart loses nothing that was published: a Receiver that logs in afterwards and asks for metadata is answered
   * with what the server held before, for every stamp that it may ask with.
   */
  lemma RestartAnswers(s: Server, a: Addr, user: string, after: i64, now: i64)
    requires Safe(s)
    ensures var anew := Start(s.saved, s.receiverToken, s.senderToken);
            var t := Run(anew, [Joined(a), Incoming(a, Login(AsReceiver, user, s.receiverToken), now),
                                 Incoming(a, RequestMeta(after), now)]);
            && t.index == s.index
            && a in t.clients
            && t.clients[a].sent == [LoginSuccess, TransmitMeta(MetasOf(EntryList.ModifiedAfter(s.index, after)))]
  {
    var anew := Start(s.saved, s.receiverToken, s.senderToken);
    var login := Incoming(a, Login(AsReceiver, user, s.receiverToken), now);
    var ask := Incoming(a, RequestMeta(after), now);
    var joined := Step(anew, Joined(a));
    var known := Step(joined, login);
    Started(s.saved, s.receiverToken, s.senderToken);
    StepSafe(anew, Joined(a));
    StepSafe(joined, login);
    StepJoins(anew, a);
    StepKeys(anew, Joined(a));
    assert joined.clients.Keys == {a} && Accepted(joined, a, AsReceiver, s.receiverToken);
    assert !Exists(joined.clients, Sender);
    StepRecord(joined, login, a);
    StepSends(joined, login, a);
    StepIndex(anew, Joined(a));
    StepIndex(joined, login);
    StillRuns(anew, Joined(a));
    StillRuns(joined, login);
    StepSends(known, ask, a);
    StepIndex(known, ask);
    RunThree(anew, Joined(a), login, ask);
  }

  lemma StillRuns(s: Server, i: Input)
    requires s.running && (i.Incoming? ==> !i.payload.PublishMeta?)
    ensures Step(s, i).running
  {
  }
}
