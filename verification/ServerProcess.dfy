/** The server as the program has it: an object whose event loop updates its clients, their channels and its index. */
module ServerProcess {
  import opened Base
  import opened Metadata
  import opened EntryList
  import opened MetaIndexes
  import opened Messages
  import opened ServerSafety
  import M = ServerModel

  class Server {
    var clients: map<M.Addr, M.Client>
    const index: MetaIndex
    /** The index file in the data directory. */
    var saved: seq<Entry>
    var running: bool
    const receiverToken: string
    const senderToken: string

    ghost function View(): M.Server
      reads this, index
    {
      M.Server(clients, index.entries, saved, receiverToken, senderToken, running)
    }

    ghost predicate Valid()
      reads this, index
    {
      Safe(View())
    }

    /** The object has become what `result` says, and `verdict` is its verdict. */
    ghost predicate Did(result: M.Result, verdict: M.Verdict)
      reads this, index
    {
      View() == result.after && verdict == result.verdict
    }

    constructor (saved: seq<Entry>, receiverToken: string, senderToken: string)
      ensures index.entries == saved && this.saved == saved && clients == map[] && running
      ensures this.receiverToken == receiverToken && this.senderToken == senderToken
      ensures View() == M.Start(saved, receiverToken, senderToken) && Valid() && fresh(index)
    {
      this.clients := map[];
      this.index := new MetaIndex(saved);
      this.saved := saved;
      this.running := true;
      this.receiverToken := receiverToken;
      this.senderToken := senderToken;
    }

    /** Looks through the clients, in whatever order the map yields them, for one with the given role. */
    method GetByType(role: M.Role) returns (found: Option<M.Addr>)
      requires Valid() && role != M.Unidentified
      ensures found == M.ByRole(clients, role)
      ensures found.Some? <==> M.Exists(clients, role)
    {
      var left := clients.Keys;
      while left != {}
        invariant left <= clients.Keys
        invariant forall a :: a in clients.Keys - left ==> clients[a].role != role
        decreases left
      {
        Inhabited(left);
        var a :| a in left;
        if clients[a].role == role {
          ByRoleIs(View(), a);
          return Some(a);
        }
        left := left - {a};
      }
      return None;
    }

    method Send(a: M.Addr, p: Payload) returns (verdict: M.Verdict)
      requires a in clients
      modifies this`clients
      ensures Did(M.SendTo(old(View()), a, p), verdict)
    {
      var client := clients[a];
      if !client.open {
        return M.Err(M.SendFailed);
      }
      clients := clients[a := client.(sent := client.sent + [p])];
      return M.Ok;
    }

    method SendToType(role: M.Role, p: Payload) returns (verdict: M.Verdict)
      requires Valid() && role != M.Unidentified
      modifies this`clients
      ensures Did(M.SendToRole(old(View()), role, p), verdict)
    {
      var found := GetByType(role);
      if found.None? {
        return M.Err(M.ClientNotFound);
      }
      verdict := Send(found.value, p);
    }

    method SaveIndex()
      modifies this`saved
      ensures saved == index.entries
    {
      saved := index.entries;
    }

    method HandleLogin(a: M.Addr, loginType: LoginType, key: string) returns (verdict: M.Verdict)
      requires Valid() && a in clients
      modifies this`clients
      ensures Did(M.HandleLogin(old(View()), a, loginType, key), verdict)
    {
      if clients[a].role != M.Unidentified {
        return M.Err(M.Unsupported);
      }
      var matchedType;
      match loginType {
        case AsReceiver =>
          if key != receiverToken {
            return M.Err(M.InvalidToken);
          }
          matchedType := M.Receiver;
        case AsSender =>
          if key != senderToken {
            return M.Err(M.InvalidToken);
          }
          matchedType := M.Sender;
      }
      var occupied := GetByType(matchedType);
      if occupied.Some? {
        return M.Err(M.ClientOccupied);
      }
      ghost var before := View();
      clients := clients[a := clients[a].(role := matchedType)];
      ghost var identified := View();
      assert Safe(identified);
      SendToSafe(identified, a, LoginSuccess);
      verdict := Send(a, LoginSuccess);
      if verdict != M.Ok {
        return;
      }
      if matchedType == M.Receiver {
        var sender := GetByType(M.Sender);
        SameRoles(identified, View());
        if sender.Some? {
          verdict := SendToType(M.Receiver, NotifySenderStatus(Connected));
        }
      } else {
        var _ := SendToType(M.Receiver, NotifySenderStatus(Connected));
      }
    }

    method HandlePublishMeta(a: M.Addr, meta: Meta, now: i64) returns (verdict: M.Verdict)
      requires Valid() && a in clients
      modifies this, index
      ensures Did(M.HandlePublishMeta(old(View()), a, meta, now), verdict)
    {
      if clients[a].role != M.Sender {
        return M.Err(M.Unsupported);
      }
      index.AddForMeta(meta.(metaModified := now));
      SaveIndex();
      var receiver := GetByType(M.Receiver);
      if receiver.Some? {
        var told := Send(receiver.value, NotifyUpdated(now));
        if told != M.Ok {
          return M.Panic;
        }
      }
      return M.Ok;
    }

    method HandleRemoveMeta(a: M.Addr, path: string) returns (verdict: M.Verdict)
      requires a in clients
      modifies this, index
      ensures Did(M.HandleRemoveMeta(old(View()), a, path), verdict)
    {
      if clients[a].role != M.Sender {
        return M.Err(M.Unsupported);
      }
      index.Remove(path);
      SaveIndex();
      return M.Ok;
    }

    method HandleRequestMeta(a: M.Addr, after: i64) returns (verdict: M.Verdict)
      requires a in clients
      modifies this`clients
      ensures Did(M.HandleRequestMeta(old(View()), a, after), verdict)
    {
      if clients[a].role == M.Unidentified {
        return M.Err(M.Unsupported);
      }
      verdict := Send(a, TransmitMeta(M.MetasOf(ModifiedAfter(index.entries, after))));
    }

    /** Passes a chunk request or a stop on from the Receiver. */
    method HandleCommand(a: M.Addr, p: Payload) returns (verdict: M.Verdict)
      requires Valid() && a in clients
      modifies this`clients
      ensures Did(M.RelayToSender(old(View()), a, p), verdict)
    {
      if clients[a].role != M.Receiver {
        return M.Err(M.Unsupported);
      }
      verdict := SendToType(M.Sender, p);
    }

    method HandleTransmitChunk(a: M.Addr, data: Bytes) returns (verdict: M.Verdict)
      requires Valid() && a in clients
      modifies this`clients
      ensures Did(M.HandleTransmitChunk(old(View()), a, data), verdict)
    {
      if clients[a].role != M.Sender {
        return M.Err(M.Unsupported);
      }
      var receiver := GetByType(M.Receiver);
      if receiver.None? {
        verdict := Send(a, StopChunk);
      } else {
        verdict := Send(receiver.value, TransmitChunk(data));
      }
    }

    method HandleMessage(a: M.Addr, p: Payload, now: i64) returns (verdict: M.Verdict)
      requires Valid() && a in clients
      modifies this, index
      ensures Did(M.HandleMessage(old(View()), a, p, now), verdict)
    {
      match p {
        case Unknown => verdict := M.Err(M.UnknownMessage);
        case ErrorText(_) => verdict := M.Ok;
        case Login(loginType, _, key) => verdict := HandleLogin(a, loginType, key);
        case PublishMeta(meta) => verdict := HandlePublishMeta(a, meta, now);
        case RemoveMeta(path) => verdict := HandleRemoveMeta(a, path);
        case RequestMeta(after) => verdict := HandleRequestMeta(a, after);
        case RequestChunk(_, _, _) => verdict := HandleCommand(a, p);
        case TransmitChunk(data) => verdict := HandleTransmitChunk(a, data);
        case StopChunk => verdict := HandleCommand(a, p);
        case _ => verdict := M.Err(M.Unsupported);
      }
    }

    method HandleInput(input: M.Input)
      requires Valid() && running
      modifies this, index
      ensures View() == M.Step(old(View()), input)
    {
      match input {
        case Joined(a) => clients := clients[a := M.Client(a, M.Unidentified, [], true, false)];
        case Closed(a) =>
          if a in clients {
            clients := clients[a := clients[a].(open := false)];
          }
        case Incoming(a, p, now) =>
          if a in clients {
            var verdict := HandleMessage(a, p, now);
            if verdict.Panic? {
              running := false;
            } else if verdict.Err? && a in clients {
              clients := clients[a := clients[a].(cancelled := true)];
            }
          }
        case Left(a) =>
          if a in clients {
            if clients[a].role == M.Sender {
              var _ := SendToType(M.Receiver, NotifySenderStatus(Disconnected));
            }
            clients := clients - {a};
          }
      }
    }

    /** The event loop, over everything that reaches it; a panic ends it. */
    method HandleClients(inputs: seq<M.Input>)
      requires Valid()
      modifies this, index
      ensures Valid() && View() == M.Run(old(View()), inputs)
    {
      var i := 0;
      while i < |inputs| && running
        invariant i <= |inputs| && Valid()
        invariant M.Run(View(), inputs[i..]) == M.Run(old(View()), inputs)
      {
        StepSafe(View(), inputs[i]);
        assert inputs[i..][1..] == inputs[i + 1..];
        HandleInput(inputs[i]);
        i := i + 1;
      }
      if !running {
        DeadRun(View(), inputs[i..]);
      }
    }

    static lemma Inhabited(addrs: set<M.Addr>)
      ensures addrs == {} || exists a :: a in addrs
    {
      if !exists a :: a in addrs {
        assert addrs == {};
      }
    }

    static lemma {:induction false} DeadRun(s: M.Server, inputs: seq<M.Input>)
      requires !s.running
      ensures M.Run(s, inputs) == s
      decreases |inputs|
    {
      if inputs != [] {
        DeadRun(s, inputs[1..]);
      }
    }
  }
}
