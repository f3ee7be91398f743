/**
 * The relay server as a state machine on values: one function per handler. `sent` is everything ever put into a
 * client's outgoing channel; a send fails when the connection behind the channel has ended.
 */
module ServerModel {
  import opened Base
  import opened Metadata
  import opened EntryList
  import opened Messages

  /** A socket address. */
  type Addr = int

  datatype Role = Unidentified | Receiver | Sender

  datatype Client = Client(addr: Addr, role: Role, sent: seq<Payload>, open: bool, cancelled: bool)

  /** `saved` is the index as last written to the data directory; `running` ends with a panic of the event loop. */
  datatype Server = Server(
    clients: map<Addr, Client>, index: seq<Entry>, saved: seq<Entry>,
    receiverToken: string, senderToken: string, running: bool)

  datatype HandlerError =
    | UnknownMessage
    | Unsupported
    | InvalidToken
    | ClientOccupied
    | ClientNotFound
    | SendFailed

  datatype Verdict = Ok | Err(error: HandlerError) | Panic

  datatype Result = Result(after: Server, verdict: Verdict)

  /** What reaches the server's event loop; `Closed` is the end of a connection, of which it is told only later. */
  datatype Input =
    | Joined(addr: Addr)
    | Closed(addr: Addr)
    | Incoming(addr: Addr, payload: Payload, now: i64)
    | Left(addr: Addr)

  // ---- Clients ----

  ghost predicate Exists(clients: map<Addr, Client>, role: Role) {
    exists a :: a in clients && clients[a].role == role
  }

  /** Some client with the given role. */
  ghost function ByRole(clients: map<Addr, Client>, role: Role): (r: Option<Addr>)
    ensures r.Some? ==> r.value in clients && clients[r.value].role == role
    ensures r.None? ==> forall a :: a in clients ==> clients[a].role != role
  {
    if Exists(clients, role) then
      var a :| a in clients && clients[a].role == role;
      Some(a)
    else None
  }

  function Append(c: Client, p: Payload): Client {
    c.(sent := c.sent + [p])
  }

  /** Puts `p` into the channel of the client at `a`. */
  function SendTo(s: Server, a: Addr, p: Payload): Result
    requires a in s.clients
  {
    if s.clients[a].open then Result(s.(clients := s.clients[a := Append(s.clients[a], p)]), Ok)
    else Result(s, Err(SendFailed))
  }

  ghost function SendToRole(s: Server, role: Role, p: Payload): Result {
    match ByRole(s.clients, role)
    case None => Result(s, Err(ClientNotFound))
    case Some(a) => SendTo(s, a, p)
  }

  ghost function TellStatus(s: Server, status: UserStatus): Result {
    SendToRole(s, Receiver, NotifySenderStatus(status))
  }

  // ---- Handlers; `a` is the client that the message came from ----

  function RoleOf(t: LoginType): Role {
    if t.AsReceiver? then Receiver else Sender
  }

  function TokenOf(s: Server, t: LoginType): string {
    if t.AsReceiver? then s.receiverToken else s.senderToken
  }

  ghost function HandleLogin(s: Server, a: Addr, t: LoginType, key: string): Result
    requires a in s.clients
  {
    if s.clients[a].role != Unidentified then Result(s, Err(Unsupported))
    else if key != TokenOf(s, t) then Result(s, Err(InvalidToken))
    else if Exists(s.clients, RoleOf(t)) then Result(s, Err(ClientOccupied))
    else
      var identified := s.(clients := s.clients[a := s.clients[a].(role := RoleOf(t))]);
      var welcomed := SendTo(identified, a, LoginSuccess);
      if welcomed.verdict != Ok then welcomed
      else if t.AsReceiver? then
        if Exists(identified.clients, Sender) then TellStatus(welcomed.after, Connected) else welcomed
      else welcomed.(after := TellStatus(welcomed.after, Connected).after)
  }

  ghost function HandlePublishMeta(s: Server, a: Addr, m: Meta, now: i64): Result
    requires a in s.clients
  {
    if s.clients[a].role != Sender then Result(s, Err(Unsupported))
    else
      var index := AddForMeta(s.index, m.(metaModified := now));
      var published := s.(index := index, saved := index);
      match ByRole(s.clients, Receiver)
      case None => Result(published, Ok)
      case Some(r) =>
        var told := SendTo(published, r, NotifyUpdated(now));
        if told.verdict == Ok then told else told.(verdict := Panic)
  }

  function HandleRemoveMeta(s: Server, a: Addr, path: string): Result
    requires a in s.clients
  {
    if s.clients[a].role != Sender then Result(s, Err(Unsupported))
    else
      var index := Remove(s.index, path);
      Result(s.(index := index, saved := index), Ok)
  }

  function MetasOf(entries: seq<Entry>): seq<Meta> {
    if entries == [] then [] else [entries[0].meta] + MetasOf(entries[1..])
  }

  function HandleRequestMeta(s: Server, a: Addr, after: i64): Result
    requires a in s.clients
  {
    if s.clients[a].role == Unidentified then Result(s, Err(Unsupported))
    else SendTo(s, a, TransmitMeta(MetasOf(ModifiedAfter(s.index, after))))
  }

  /** A chunk request or a stop: from the Receiver to the Sender. */
  ghost function RelayToSender(s: Server, a: Addr, p: Payload): Result
    requires a in s.clients
  {
    if s.clients[a].role != Receiver then Result(s, Err(Unsupported))
    else SendToRole(s, Sender, p)
  }

  /** A block: from the Sender to the Receiver; without a Receiver the Sender is told to stop. */
  ghost function HandleTransmitChunk(s: Server, a: Addr, data: Bytes): Result
    requires a in s.clients
  {
    if s.clients[a].role != Sender then Result(s, Err(Unsupported))
    else match ByRole(s.clients, Receiver)
      case None => SendTo(s, a, StopChunk)
      case Some(r) => SendTo(s, r, TransmitChunk(data))
  }

  ghost function HandleMessage(s: Server, a: Addr, p: Payload, now: i64): Result
    requires a in s.clients
  {
    match p
    case Unknown => Result(s, Err(UnknownMessage))
    case ErrorText(_) => Result(s, Ok)
    case Login(t, _, key) => HandleLogin(s, a, t, key)
    case PublishMeta(m) => HandlePublishMeta(s, a, m, now)
    case RemoveMeta(path) => HandleRemoveMeta(s, a, path)
    case RequestMeta(after) => HandleRequestMeta(s, a, after)
    case RequestChunk(_, _, _) => RelayToSender(s, a, p)
    case StopChunk => RelayToSender(s, a, p)
    case TransmitChunk(data) => HandleTransmitChunk(s, a, data)
    case _ => Result(s, Err(Unsupported))
  }

  // ---- The event loop ----

  /** A failed handler cuts the connection of the client whose message it was; a panic ends the loop. */
  function Conclude(r: Result, a: Addr): Server {
    match r.verdict
    case Ok => r.after
    case Err(_) =>
      if a in r.after.clients then
        r.after.(clients := r.after.clients[a := r.after.clients[a].(cancelled := true)])
      else r.after
    case Panic => r.after.(running := false)
  }

  ghost function Depart(s: Server, a: Addr): Server
    requires a in s.clients
  {
    var told := if s.clients[a].role == Sender then TellStatus(s, Disconnected).after else s;
    told.(clients := told.clients - {a})
  }

  ghost function Step(s: Server, i: Input): Server {
    if !s.running then s
    else match i
      case Joined(a) => s.(clients := s.clients[a := Client(a, Unidentified, [], true, false)])
      case Closed(a) => if a in s.clients then s.(clients := s.clients[a := s.clients[a].(open := false)]) else s
      case Incoming(a, p, now) => if a in s.clients then Conclude(HandleMessage(s, a, p, now), a) else s
      case Left(a) => if a in s.clients then Depart(s, a) else s
  }

  ghost function Run(s: Server, inputs: seq<Input>): Server
    decreases |inputs|
  {
    if inputs == [] then s else Run(Step(s, inputs[0]), inputs[1..])
  }

  /** A server as it starts: no clients, and the index that was saved. */
  function Start(saved: seq<Entry>, receiverToken: string, senderToken: string): Server {
    Server(map[], saved, saved, receiverToken, senderToken, true)
  }
}
