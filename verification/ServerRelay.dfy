/** Relay fidelity: what the server passes on is what it was given, in order, for as long as the recipient stays. */
module ServerRelay {
  import opened Base
  import EntryList
  import opened Messages
  import opened ServerModel
  import opened ServerSafety

  /** The blocks in a channel. */
  function Blocks(sent: seq<Payload>): seq<Bytes> {
    if sent == [] then []
    else Blocks(sent[..|sent| - 1]) + (if sent[|sent| - 1].TransmitChunk? then [sent[|sent| - 1].data] else [])
  }

  /** The chunk requests and stops in a channel. */
  function Commands(sent: seq<Payload>): seq<Payload> {
    if sent == [] then []
    else Commands(sent[..|sent| - 1]) +
         (if sent[|sent| - 1].RequestChunk? || sent[|sent| - 1].StopChunk? then [sent[|sent| - 1]] else [])
  }

  lemma ChannelAppend(sent: seq<Payload>, p: Payload)
    ensures Blocks(sent + [p]) == Blocks(sent) + if p.TransmitChunk? then [p.data] else []
    ensures Commands(sent + [p]) == Commands(sent) + if p.RequestChunk? || p.StopChunk? then [p] else []
  {
    assert (sent + [p])[..|sent|] == sent;
  }

  /** The client at `a` stays through the input: it neither leaves, nor is its connection cut or its address taken. */
  predicate Stays(i: Input, a: Addr) {
    i != Joined(a) && i != Closed(a) && i != Left(a)
  }

  ghost predicate LoggedIn(s: Server, a: Addr, role: Role) {
    s.running && a in s.clients && s.clients[a].role == role && s.clients[a].open
  }

  /** The block that an input asks the server to relay: one from the Sender. */
  ghost function BlockIn(s: Server, i: Input): seq<Bytes> {
    match i
    case Incoming(a, TransmitChunk(data), _) =>
      if s.running && a in s.clients && s.clients[a].role == Sender then [data] else []
    case _ => []
  }

  /**
   * The command that an input makes the server give to the Sender `x`: one from the Receiver, or a stop of the server's
   * own when `x` sends a block and nobody is there to receive it.
   */
  ghost function CommandIn(s: Server, i: Input, x: Addr): seq<Payload> {
    match i
    case Incoming(a, p, _) =>
      if !s.running || a !in s.clients then []
      else if (p.RequestChunk? || p.StopChunk?) && s.clients[a].role == Receiver then [p]
      else if p.TransmitChunk? && a == x && !Exists(s.clients, Receiver) then [StopChunk]
      else []
    case _ => []
  }

  /** The client `r` is as it was but for what was appended to its channel, of which `blocks` and `commands` tell. */
  ghost predicate Appended(s: Server, t: Server, r: Addr, blocks: seq<Bytes>, commands: seq<Payload>)
    requires r in s.clients
  {
    && r in t.clients && t.clients[r].role == s.clients[r].role && t.clients[r].open == s.clients[r].open
    && s.clients[r].sent <= t.clients[r].sent
    && Blocks(t.clients[r].sent) == Blocks(s.clients[r].sent) + blocks
    && Commands(t.clients[r].sent) == Commands(s.clients[r].sent) + commands
  }

  lemma SendAppends(s: Server, a: Addr, p: Payload, r: Addr)
    requires a in s.clients && r in s.clients
    ensures Appended(s, SendTo(s, a, p).after, r,
                     if a == r && s.clients[r].open && p.TransmitChunk? then [p.data] else [],
                     if a == r && s.clients[r].open && (p.RequestChunk? || p.StopChunk?) then [p] else [])
  {
    ChannelAppend(s.clients[r].sent, p);
  }

  lemma QuietAppends(s: Server, r: Addr)
    requires r in s.clients
    ensures Appended(s, s, r, [], [])
  {
  }

  lemma LoginRelay(s: Server, a: Addr, t: LoginType, key: string, r: Addr)
    requires Safe(s) && a in s.clients && r in s.clients && s.clients[r].role != Unidentified
    ensures Appended(s, HandleLogin(s, a, t, key).after, r, [], [])
  {
    if s.clients[a].role == Unidentified && !Exists(s.clients, RoleOf(t)) {
      var identified := s.(clients := s.clients[a := s.clients[a].(role := RoleOf(t))]);
      var welcomed := SendTo(identified, a, LoginSuccess).after;
      assert welcomed.clients[r] == s.clients[r];
      TellRelay(welcomed, Connected, r);
      QuietAppends(s, r);
    }
  }

  lemma TellRelay(s: Server, status: UserStatus, r: Addr)
    requires r in s.clients
    ensures Appended(s, TellStatus(s, status).after, r, [], [])
  {
    if ByRole(s.clients, Receiver).Some? {
      SendAppends(s, ByRole(s.clients, Receiver).value, NotifySenderStatus(status), r);
    }
  }

  /** What a handler adds to the channel of a client with a role that stays. */
  lemma MessageRelay(s: Server, a: Addr, p: Payload, now: i64, r: Addr)
    requires Safe(s) && a in s.clients
    requires LoggedIn(s, r, Receiver) || LoggedIn(s, r, Sender)
    ensures Appended(s, HandleMessage(s, a, p, now).after, r,
                     if s.clients[r].role == Receiver then BlockIn(s, Incoming(a, p, now)) else [],
                     if s.clients[r].role == Sender then CommandIn(s, Incoming(a, p, now), r) else [])
  {
    ByRoleIs(s, r);
    QuietAppends(s, r);
    match p
    case Login(t, _, key) => LoginRelay(s, a, t, key, r);
    case PublishMeta(m) =>
      if s.clients[a].role == Sender && ByRole(s.clients, Receiver).Some? {
        SendAppends(s, ByRole(s.clients, Receiver).value, NotifyUpdated(now), r);
      }
    case RequestMeta(after) => SendAppends(s, a, TransmitMeta(MetasOf(EntryList.ModifiedAfter(s.index, after))), r);
    case RequestChunk(_, _, _) => CommandRelay(s, a, p, now, r);
    case StopChunk => CommandRelay(s, a, p, now, r);
    case TransmitChunk(data) => BlockRelay(s, a, data, now, r);
    case _ =>
  }

  lemma CommandRelay(s: Server, a: Addr, p: Payload, now: i64, r: Addr)
    requires Safe(s) && a in s.clients && (p.RequestChunk? || p.StopChunk?)
    requires LoggedIn(s, r, Receiver) || LoggedIn(s, r, Sender)
    ensures Appended(s, RelayToSender(s, a, p).after, r, [],
                     if s.clients[r].role == Sender then CommandIn(s, Incoming(a, p, now), r) else [])
  {
    ByRoleIs(s, r);
    if ByRole(s.clients, Sender).Some? {
      SendAppends(s, ByRole(s.clients, Sender).value, p, r);
    }
  }

  lemma BlockRelay(s: Server, a: Addr, data: Bytes, now: i64, r: Addr)
    requires Safe(s) && a in s.clients
    requires LoggedIn(s, r, Receiver) || LoggedIn(s, r, Sender)
    ensures Appended(s, HandleTransmitChunk(s, a, data).after, r,
                     if s.clients[r].role == Receiver then BlockIn(s, Incoming(a, TransmitChunk(data), now)) else [],
                     if s.clients[r].role == Sender then CommandIn(s, Incoming(a, TransmitChunk(data), now), r) else [])
  {
    ByRoleIs(s, r);
    if s.clients[a].role == Sender {
      ByRoleIs(s, a);
      match ByRole(s.clients, Receiver)
      case None => SendAppends(s, a, StopChunk, r);
      case Some(x) => SendAppends(s, x, TransmitChunk(data), r);
    }
  }

  lemma DepartRelay(s: Server, a: Addr, r: Addr)
    requires a in s.clients && r in s.clients && a != r
    ensures Appended(s, Depart(s, a), r, [], [])
  {
    TellRelay(s, Disconnected, r);
    QuietAppends(s, r);
  }

  /** One input adds to the Receiver's channel exactly its block, and to the Sender's exactly its command. */
  lemma StepRelay(s: Server, i: Input, r: Addr)
    requires Safe(s) && Stays(i, r)
    requires LoggedIn(s, r, Receiver) || LoggedIn(s, r, Sender)
    ensures Appended(s, Step(s, i), r,
                     if s.clients[r].role == Receiver then BlockIn(s, i) else [],
                     if s.clients[r].role == Sender then CommandIn(s, i, r) else [])
  {
    QuietAppends(s, r);
    match i
    case Incoming(a, p, now) =>
      if a in s.clients {
        MessageRelay(s, a, p, now, r);
      }
    case Left(a) =>
      if a in s.clients {
        DepartRelay(s, a, r);
      }
    case _ =>
  }

  /** The loop dies exactly when metadata is published while the connection of a logged-in Receiver has ended. */
  lemma PanicsIff(s: Server, i: Input)
    requires Safe(s) && s.running
    ensures !Step(s, i).running <==>
            && i.Incoming? && i.payload.PublishMeta?
            && i.addr in s.clients && s.clients[i.addr].role == Sender
            && exists r :: r in s.clients && s.clients[r].role == Receiver && !s.clients[r].open
  {
    if i.Incoming? && i.addr in s.clients && i.payload.PublishMeta? && s.clients[i.addr].role == Sender {
      if exists r :: r in s.clients && s.clients[r].role == Receiver && !s.clients[r].open {
        var r :| r in s.clients && s.clients[r].role == Receiver && !s.clients[r].open;
        ByRoleIs(s, r);
      }
    }
  }

  predicate AllStay(inputs: seq<Input>, a: Addr) {
    forall i :: i in inputs ==> Stays(i, a)
  }

  /** The blocks that the Senders submit over a run. */
  ghost function BlocksIn(s: Server, inputs: seq<Input>): seq<Bytes>
    decreases |inputs|
  {
    if inputs == [] then [] else BlockIn(s, inputs[0]) + BlocksIn(Step(s, inputs[0]), inputs[1..])
  }

  /** The commands that a run gives to the Sender `x`. */
  ghost function CommandsIn(s: Server, inputs: seq<Input>, x: Addr): seq<Payload>
    decreases |inputs|
  {
    if inputs == [] then [] else CommandIn(s, inputs[0], x) + CommandsIn(Step(s, inputs[0]), inputs[1..], x)
  }

  /**
   * While one Receiver stays logged in, the blocks put into its channel are exactly the blocks that Senders submit, in
   * the order of submission, whatever else happens on the server.
   */
  lemma {:induction false} BlocksRelayed(s: Server, inputs: seq<Input>, r: Addr)
    requires Safe(s) && LoggedIn(s, r, Receiver) && AllStay(inputs, r)
    ensures LoggedIn(Run(s, inputs), r, Receiver)
    ensures Blocks(Run(s, inputs).clients[r].sent) == Blocks(s.clients[r].sent) + BlocksIn(s, inputs)
    decreases |inputs|
  {
    if inputs != [] {
      var next := Step(s, inputs[0]);
      assert inputs[0] in inputs;
      StepRelay(s, inputs[0], r);
      StepSafe(s, inputs[0]);
      StillRunning(s, inputs[0], r);
      BlocksRelayed(next, inputs[1..], r);
      ConcatAssociates(Blocks(s.clients[r].sent), BlockIn(s, inputs[0]), BlocksIn(next, inputs[1..]));
    }
  }

  lemma StillRunning(s: Server, i: Input, r: Addr)
    requires Safe(s) && LoggedIn(s, r, Receiver)
    ensures Step(s, i).running
  {
    PanicsIff(s, i);
  }

  /**
   * While one Sender stays logged in, the requests and stops put into its channel are exactly those that Receivers
   * issue, in order, and the server's own stops for blocks that nobody can receive.
   */
  lemma {:induction false} CommandsRelayed(s: Server, inputs: seq<Input>, x: Addr)
    requires Safe(s) && x in s.clients && AllStay(inputs, x)
    requires s.running ==> LoggedIn(s, x, Sender)
    ensures x in Run(s, inputs).clients
    ensures Commands(Run(s, inputs).clients[x].sent) == Commands(s.clients[x].sent) + CommandsIn(s, inputs, x)
    decreases |inputs|
  {
    if inputs != [] {
      var next := Step(s, inputs[0]);
      if s.running {
        assert inputs[0] in inputs;
        StepRelay(s, inputs[0], x);
        StepSafe(s, inputs[0]);
      }
      CommandsRelayed(next, inputs[1..], x);
      ConcatAssociates(Commands(s.clients[x].sent), CommandIn(s, inputs[0], x), CommandsIn(next, inputs[1..], x));
    }
  }
}
