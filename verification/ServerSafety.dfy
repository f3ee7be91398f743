/** What the relay server keeps over every run of its event loop, and what its clients can rely on. */
module ServerSafety {
  import opened Base
  import EntryList
  import opened Metadata
  import opened Messages
  import opened ServerModel

  // ---- Roles ----

  /**
   * Clients are keyed by their own address, each role is held by one client at most, a client that has not logged in
   * was never sent anything, and the saved index is the index in use.
   */
  ghost predicate Safe(s: Server) {
    && (forall a :: a in s.clients ==> s.clients[a].addr == a)
    && (forall a, b :: a in s.clients && b in s.clients && s.clients[a].role == s.clients[b].role != Unidentified ==>
                         a == b)
    && (forall a :: a in s.clients && s.clients[a].role == Unidentified ==> s.clients[a].sent == [])
    && s.saved == s.index
  }

  lemma SendToSafe(s: Server, a: Addr, p: Payload)
    requires Safe(s) && a in s.clients && s.clients[a].role != Unidentified
    ensures Safe(SendTo(s, a, p).after)
  {
  }

  lemma SendToRoleSafe(s: Server, role: Role, p: Payload)
    requires Safe(s) && role != Unidentified
    ensures Safe(SendToRole(s, role, p).after)
  {
  }

  lemma LoginSafe(s: Server, a: Addr, t: LoginType, key: string)
    requires Safe(s) && a in s.clients
    ensures Safe(HandleLogin(s, a, t, key).after)
  {
    if s.clients[a].role == Unidentified && !Exists(s.clients, RoleOf(t)) {
      var identified := s.(clients := s.clients[a := s.clients[a].(role := RoleOf(t))]);
      assert Safe(identified);
      var welcomed := SendTo(identified, a, LoginSuccess).after;
      SendToSafe(identified, a, LoginSuccess);
      SendToRoleSafe(welcomed, Receiver, NotifySenderStatus(Connected));
    }
  }

  lemma MessageSafe(s: Server, a: Addr, p: Payload, now: i64)
    requires Safe(s) && a in s.clients
    ensures Safe(HandleMessage(s, a, p, now).after)
  {
    match p
    case Login(t, _, key) => LoginSafe(s, a, t, key);
    case PublishMeta(m) => PublishSafe(s, a, m, now);
    case RequestMeta(after) =>
      if s.clients[a].role != Unidentified {
        SendToSafe(s, a, TransmitMeta(MetasOf(EntryList.ModifiedAfter(s.index, after))));
      }
    case RequestChunk(_, _, _) => SendToRoleSafe(s, Sender, p);
    case StopChunk => SendToRoleSafe(s, Sender, p);
    case TransmitChunk(data) =>
      if s.clients[a].role == Sender {
        SendToSafe(s, a, StopChunk);
        SendToRoleSafe(s, Receiver, p);
      }
    case _ =>
  }

  lemma PublishSafe(s: Server, a: Addr, m: Meta, now: i64)
    requires Safe(s) && a in s.clients
    ensures Safe(HandlePublishMeta(s, a, m, now).after)
  {
    if s.clients[a].role == Sender {
      var index := EntryList.AddForMeta(s.index, m.(metaModified := now));
      SendToRoleSafe(s.(index := index, saved := index), Receiver, NotifyUpdated(now));
    }
  }

  lemma ConcludeSafe(r: Result, a: Addr)
    requires Safe(r.after)
    ensures Safe(Conclude(r, a))
  {
  }

  lemma DepartSafe(s: Server, a: Addr)
    requires Safe(s) && a in s.clients
    ensures Safe(Depart(s, a))
  {
    SendToRoleSafe(s, Receiver, NotifySenderStatus(Disconnected));
  }

  lemma StepSafe(s: Server, i: Input)
    requires Safe(s)
    ensures Safe(Step(s, i))
  {
    match i
    case Incoming(a, p, now) =>
      if a in s.clients {
        MessageSafe(s, a, p, now);
        ConcludeSafe(HandleMessage(s, a, p, now), a);
      }
    case Left(a) =>
      if a in s.clients {
        DepartSafe(s, a);
      }
    case _ =>
  }

  /** Role safety over every run, whoever connects, under whatever address, and whatever they send. */
  lemma {:induction false} RunSafe(s: Server, inputs: seq<Input>)
    requires Safe(s)
    ensures Safe(Run(s, inputs))
    decreases |inputs|
  {
    if inputs != [] {
      StepSafe(s, inputs[0]);
      RunSafe(Step(s, inputs[0]), inputs[1..]);
    }
  }

  /** In a safe server, the client with a role is found. */
  lemma ByRoleIs(s: Server, a: Addr)
    requires Safe(s) && a in s.clients && s.clients[a].role != Unidentified
    ensures ByRole(s.clients, s.clients[a].role) == Some(a)
  {
  }

  // ---- The Sender's status as the Receiver sees it ----

  /** The last status in a channel; none counts as disconnected. */
  function LastStatus(sent: seq<Payload>): UserStatus {
    if sent == [] then Disconnected
    else if sent[|sent| - 1].NotifySenderStatus? then sent[|sent| - 1].status
    else LastStatus(sent[..|sent| - 1])
  }

  lemma LastStatusAppend(sent: seq<Payload>, p: Payload)
    ensures LastStatus(sent + [p]) == if p.NotifySenderStatus? then p.status else LastStatus(sent)
  {
    assert (sent + [p])[..|sent|] == sent;
  }

  ghost predicate OpenReceiver(s: Server, r: Addr) {
    r in s.clients && s.clients[r].role == Receiver && s.clients[r].open
  }

  /** A connected Receiver was last told Connected exactly when a Sender is logged in. */
  ghost predicate StatusTrue(s: Server) {
    forall r :: OpenReceiver(s, r) ==> (LastStatus(s.clients[r].sent) == Connected <==> Exists(s.clients, Sender))
  }

  /**
   * The two events of which a connected Receiver is not told: a new connection under the address of the Sender, and a
   * Sender's login, otherwise in order, whose connection has already ended.
   */
  ghost predicate Unannounced(s: Server, i: Input) {
    s.running && (exists r :: OpenReceiver(s, r)) &&
    match i
    case Joined(a) => a in s.clients && s.clients[a].role == Sender
    case Incoming(a, Login(AsSender, _, key), _) =>
      && a in s.clients && s.clients[a].role == Unidentified && !s.clients[a].open
      && key == s.senderToken && !Exists(s.clients, Sender)
    case _ => false
  }

  /** What one client sees of a step that sends it at most `p` and changes nobody's role. */
  lemma SendKeepsStatus(s: Server, a: Addr, p: Payload)
    requires Safe(s) && StatusTrue(s) && a in s.clients && !p.NotifySenderStatus?
    ensures StatusTrue(SendTo(s, a, p).after)
  {
    var after := SendTo(s, a, p).after;
    LastStatusAppend(s.clients[a].sent, p);
    assert Exists(after.clients, Sender) <==> Exists(s.clients, Sender) by {
      SameRoles(s, after);
    }
  }

  /** Servers whose clients have the same roles agree on which roles are held. */
  lemma SameRoles(s: Server, t: Server)
    requires s.clients.Keys == t.clients.Keys
    requires forall a :: a in s.clients ==> s.clients[a].role == t.clients[a].role
    ensures forall role :: Exists(s.clients, role) <==> Exists(t.clients, role)
  {
    forall role
      ensures Exists(s.clients, role) <==> Exists(t.clients, role)
    {
      if Exists(s.clients, role) {
        var a :| a in s.clients && s.clients[a].role == role;
        assert a in t.clients && t.clients[a].role == role;
      }
      if Exists(t.clients, role) {
        var a :| a in t.clients && t.clients[a].role == role;
        assert a in s.clients && s.clients[a].role == role;
      }
    }
  }

  /** Telling the Receiver a status makes it the last one it was told, if it is still connected. */
  lemma NotifySets(s: Server, status: UserStatus)
    requires Safe(s)
    ensures var after := TellStatus(s, status).after;
            && after.clients.Keys == s.clients.Keys
            && (forall a :: a in s.clients ==>
                  after.clients[a].role == s.clients[a].role && after.clients[a].open == s.clients[a].open)
            && (forall r :: OpenReceiver(after, r) ==> LastStatus(after.clients[r].sent) == status)
  {
    forall r | OpenReceiver(s, r)
      ensures ByRole(s.clients, Receiver) == Some(r)
    {
      ByRoleIs(s, r);
      LastStatusAppend(s.clients[r].sent, NotifySenderStatus(status));
    }
  }

  /** A Receiver that has just been given its role is welcomed, and told of the Sender if there is one. */
  lemma WelcomeStatus(s: Server, a: Addr)
    requires Safe(s) && OpenReceiver(s, a) && s.clients[a].sent == []
    ensures var welcomed := SendTo(s, a, LoginSuccess).after;
            StatusTrue(if Exists(s.clients, Sender) then TellStatus(welcomed, Connected).after else welcomed)
  {
    var welcomed := SendTo(s, a, LoginSuccess).after;
    LastStatusAppend([], LoginSuccess);
    SameRoles(s, welcomed);
    SendToSafe(s, a, LoginSuccess);
    NotifySets(welcomed, Connected);
    SameRoles(welcomed, TellStatus(welcomed, Connected).after);
    assert forall r :: OpenReceiver(welcomed, r) ==> r == a;
  }

  lemma ReceiverLoginStatus(s: Server, a: Addr, key: string)
    requires Safe(s) && StatusTrue(s) && a in s.clients
    ensures StatusTrue(HandleLogin(s, a, AsReceiver, key).after)
  {
    if s.clients[a].role == Unidentified && key == s.receiverToken && !Exists(s.clients, Receiver) {
      var identified := s.(clients := s.clients[a := s.clients[a].(role := Receiver)]);
      if s.clients[a].open {
        WelcomeStatus(identified, a);
      } else {
        assert forall r :: !OpenReceiver(identified, r);
      }
    }
  }

  lemma SenderLoginStatus(s: Server, a: Addr, key: string)
    requires Safe(s) && StatusTrue(s) && s.running && a in s.clients
    ensures StatusTrue(HandleLogin(s, a, AsSender, key).after) <==>
            !Unannounced(s, Incoming(a, Login(AsSender, "", key), 0))
  {
    if s.clients[a].role == Unidentified && key == s.senderToken && !Exists(s.clients, Sender) {
      var identified := s.(clients := s.clients[a := s.clients[a].(role := Sender)]);
      assert identified.clients[a].role == Sender;
      assert forall r :: OpenReceiver(identified, r) <==> OpenReceiver(s, r);
      if s.clients[a].open {
        var welcomed := SendTo(identified, a, LoginSuccess).after;
        SendToSafe(identified, a, LoginSuccess);
        NotifySets(welcomed, Connected);
        var after := TellStatus(welcomed, Connected).after;
        assert after.clients[a].role == Sender;
      } else if exists r :: OpenReceiver(s, r) {
        var r :| OpenReceiver(s, r);
        assert OpenReceiver(identified, r) && identified.clients[r].sent == s.clients[r].sent;
      }
    }
  }

  lemma MessageStatus(s: Server, a: Addr, p: Payload, now: i64)
    requires Safe(s) && StatusTrue(s) && s.running && a in s.clients
    ensures StatusTrue(HandleMessage(s, a, p, now).after) <==> !Unannounced(s, Incoming(a, p, now))
  {
    match p
    case Login(AsReceiver, _, key) => ReceiverLoginStatus(s, a, key);
    case Login(AsSender, _, key) => SenderLoginStatus(s, a, key);
    case PublishMeta(m) =>
      if s.clients[a].role == Sender && ByRole(s.clients, Receiver).Some? {
        SendKeepsStatus(s, ByRole(s.clients, Receiver).value, NotifyUpdated(now));
      }
    case RequestMeta(after) =>
      if s.clients[a].role != Unidentified {
        SendKeepsStatus(s, a, TransmitMeta(MetasOf(EntryList.ModifiedAfter(s.index, after))));
      }
    case RequestChunk(_, _, _) => RelayStatus(s, a, p);
    case StopChunk => RelayStatus(s, a, p);
    case TransmitChunk(data) =>
      if s.clients[a].role == Sender {
        SendKeepsStatus(s, a, StopChunk);
        if ByRole(s.clients, Receiver).Some? {
          SendKeepsStatus(s, ByRole(s.clients, Receiver).value, p);
        }
      }
    case _ =>
  }

  lemma RelayStatus(s: Server, a: Addr, p: Payload)
    requires Safe(s) && StatusTrue(s) && a in s.clients && !p.NotifySenderStatus?
    ensures StatusTrue(RelayToSender(s, a, p).after)
  {
    if ByRole(s.clients, Sender).Some? {
      SendKeepsStatus(s, ByRole(s.clients, Sender).value, p);
    }
  }

  lemma JoinStatus(s: Server, a: Addr)
    requires Safe(s) && StatusTrue(s) && s.running
    ensures StatusTrue(Step(s, Joined(a))) <==> !Unannounced(s, Joined(a))
  {
    var after := Step(s, Joined(a));
    if a in s.clients && s.clients[a].role == Sender {
      assert !Exists(after.clients, Sender);
      if exists r :: OpenReceiver(s, r) {
        var r :| OpenReceiver(s, r);
        assert OpenReceiver(after, r) && after.clients[r] == s.clients[r];
      } else {
        assert forall r :: OpenReceiver(after, r) ==> OpenReceiver(s, r);
      }
    } else {
      if Exists(s.clients, Sender) {
        var b :| b in s.clients && s.clients[b].role == Sender;
        assert b in after.clients && after.clients[b].role == Sender;
      }
      if Exists(after.clients, Sender) {
        var b :| b in after.clients && after.clients[b].role == Sender;
        assert b in s.clients && s.clients[b].role == Sender;
      }
      assert forall r :: OpenReceiver(after, r) ==> OpenReceiver(s, r) && after.clients[r] == s.clients[r];
    }
  }

  lemma LeaveStatus(s: Server, a: Addr)
    requires Safe(s) && StatusTrue(s) && s.running && a in s.clients
    ensures StatusTrue(Step(s, Left(a)))
  {
    var after := Step(s, Left(a));
    if s.clients[a].role == Sender {
      NotifySets(s, Disconnected);
      var told := TellStatus(s, Disconnected).after;
      assert !Exists(after.clients, Sender);
      assert forall r :: OpenReceiver(after, r) ==> OpenReceiver(told, r) && after.clients[r] == told.clients[r];
    } else {
      if Exists(s.clients, Sender) {
        var b :| b in s.clients && s.clients[b].role == Sender;
        assert b in after.clients && after.clients[b].role == Sender;
      }
      if Exists(after.clients, Sender) {
        var b :| b in after.clients && after.clients[b].role == Sender;
        assert b in s.clients && s.clients[b].role == Sender;
      }
      assert forall r :: OpenReceiver(after, r) ==> OpenReceiver(s, r) && after.clients[r] == s.clients[r];
    }
  }

  /** Closing a connection and marking a client as cut off change neither roles nor channels. */
  lemma CloseStatus(s: Server, t: Server)
    requires s.clients.Keys == t.clients.Keys
    requires forall a :: a in s.clients ==> t.clients[a].role == s.clients[a].role
    requires forall a :: a in s.clients ==> t.clients[a].sent == s.clients[a].sent
    requires forall a :: a in s.clients && t.clients[a].open ==> s.clients[a].open
    ensures StatusTrue(s) ==> StatusTrue(t)
  {
    SameRoles(s, t);
    assert forall r :: OpenReceiver(t, r) ==> OpenReceiver(s, r);
  }

  lemma ConcludeStatus(r: Result, a: Addr)
    ensures StatusTrue(Conclude(r, a)) <==> StatusTrue(r.after)
  {
    CloseStatus(r.after, Conclude(r, a));
    CloseStatus(Conclude(r, a), r.after);
  }

  /**
   * The Receiver's picture of the Sender is true after a step if and only if the step is not one of the two events it
   * is not told of.
   */
  lemma StepStatus(s: Server, i: Input)
    requires Safe(s) && StatusTrue(s)
    ensures StatusTrue(Step(s, i)) <==> !Unannounced(s, i)
  {
    if s.running {
      match i
      case Joined(a) => JoinStatus(s, a);
      case Closed(a) => CloseStatus(s, Step(s, i));
      case Incoming(a, p, now) =>
        if a in s.clients {
          MessageStatus(s, a, p, now);
          ConcludeStatus(HandleMessage(s, a, p, now), a);
        }
      case Left(a) =>
        if a in s.clients {
          LeaveStatus(s, a);
        }
    }
  }

  ghost predicate AllAnnounced(s: Server, inputs: seq<Input>)
    decreases |inputs|
  {
    inputs != [] ==> !Unannounced(s, inputs[0]) && AllAnnounced(Step(s, inputs[0]), inputs[1..])
  }

  /**
   * Over every run from the server's start in which addresses are not reused and a Sender logs in on a live connection,
   * a connected Receiver was last told that the Sender is there exactly when one is logged in.
   */
  lemma {:induction false} RunStatus(s: Server, inputs: seq<Input>)
    requires Safe(s) && StatusTrue(s) && AllAnnounced(s, inputs)
    ensures StatusTrue(Run(s, inputs))
    decreases |inputs|
  {
    if inputs != [] {
      StepSafe(s, inputs[0]);
      StepStatus(s, inputs[0]);
      RunStatus(Step(s, inputs[0]), inputs[1..]);
    }
  }
}
