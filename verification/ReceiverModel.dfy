/**
 * The Receiver as a state machine on values: one function per operation of the program, giving the new state, the
 * messages and events it emits, and whether it fails. The local file system is part of the state.
 */
module ReceiverModel {
  import opened Base
  import opened Metadata
  import opened EntryList
  import opened Messages

  datatype State = Initializing | Idle | ReceivingMeta | RequestedChunk

  /** The download in progress: `fed` is what the running hash of the chunk has seen. */
  datatype Requesting = Requesting(path: string, downloaded: nat, chunk: nat, offset: nat, fed: Bytes)

  type Disk = map<string, Bytes>

  /** `saved` is the index as last written to the data directory. */
  datatype Receiver = Receiver(
    index: seq<Entry>, saved: seq<Entry>, disk: Disk,
    state: State, lastUpdated: i64, requesting: Option<Requesting>)

  datatype Event =
    | Send(payload: Payload)
    | LoggedIn
    | FilesChanged
    | SenderConnected
    | SenderDisconnected
    | Started(path: string, size: nat)
    | Finished(path: string)

  datatype ClientError =
    | NotSupported
    | WrongState
    | IOError
    | InvalidHash(expected: u64, actual: u64)
    | NoSuchFile(path: string)
    | NoSuchChunk
    | FileIsDownloaded
    | FileNotRequested

  /** `Panic` is an `unwrap` that fails. */
  datatype Verdict = Ok | Err(error: ClientError) | Panic

  datatype Result = Result(after: Receiver, out: seq<Event>, verdict: Verdict)

  // ---- The local file system ----

  /**
   * How far a block's write gets: it may fail before the file is opened, before it is resized, or at any later point,
   * with any part of the block already on disk.
   */
  datatype WriteFate = Written | NotOpened | NotResized | Torn(kept: nat)

  function Zeros(n: nat): (z: Bytes)
    ensures |z| == n
  {
    seq(n, _ => 0 as byte)
  }

  function SetLen(file: Bytes, n: nat): (f: Bytes)
    ensures |f| == n
    ensures forall i :: 0 <= i < n && i < |file| ==> f[i] == file[i]
  {
    if n <= |file| then file[..n] else file + Zeros(n - |file|)
  }

  /** Writes `data` at `at`; a gap beyond the end of the file fills with zeros, and writing nothing changes nothing. */
  function Splice(file: Bytes, at: nat, data: Bytes): (f: Bytes)
    ensures data != [] ==> |f| == if |file| < at + |data| then at + |data| else |file|
    ensures |f| >= |file|
    ensures forall i :: 0 <= i < at && i < |file| ==> f[i] == file[i]
    ensures data != [] ==> forall i :: 0 <= i < |data| ==> f[at + i] == data[i]
  {
    if data == [] then file
    else
      var wide := if |file| < at + |data| then SetLen(file, at + |data|) else file;
      wide[..at] + data + wide[at + |data|..]
  }

  function FileAt(disk: Disk, path: string): Bytes {
    if path in disk then disk[path] else []
  }

  /** No file can be opened at the empty path. */
  predicate Succeeds(localPath: string, fate: WriteFate) {
    fate.Written? && localPath != ""
  }

  /** The file after a write that got past opening it. */
  function FileAfter(file: Bytes, size: nat, at: nat, data: Bytes, fate: WriteFate): Bytes {
    match fate
    case NotOpened => file
    case NotResized => file
    case Torn(kept) => Splice(SetLen(file, size), at, data[..Min(kept, |data|)])
    case Written => Splice(SetLen(file, size), at, data)
  }

  function AfterWrite(disk: Disk, localPath: string, size: nat, at: nat, data: Bytes, fate: WriteFate): Disk {
    if localPath == "" || fate.NotOpened? then disk
    else disk[localPath := FileAfter(FileAt(disk, localPath), size, at, data, fate)]
  }

  // ---- Searches in an entry ----

  /** The first chunk from `i` on that has not been received. */
  function FirstMissingFrom(e: Entry, i: nat): (r: Option<nat>)
    requires i <= |e.meta.chunks|
    ensures r.Some? ==> i <= r.value < |e.meta.chunks| && r.value !in e.received
    ensures r.Some? ==> forall j :: i <= j < r.value ==> j in e.received
    ensures r.None? ==> forall j :: i <= j < |e.meta.chunks| ==> j in e.received
    decreases |e.meta.chunks| - i
  {
    if i == |e.meta.chunks| then None
    else if i !in e.received then Some(i)
    else FirstMissingFrom(e, i + 1)
  }

  function FirstMissing(e: Entry): Option<nat> {
    FirstMissingFrom(e, 0)
  }

  function Downloaded(e: Entry): nat {
    SizeOf(e.meta.chunks, e.received, |e.meta.chunks|)
  }

  // ---- Operations ----

  function Fail(r: Receiver, error: ClientError): Result {
    Result(r, [], Err(error))
  }

  function RequestNewMeta(r: Receiver, after: i64): Result {
    if r.state != Idle then Fail(r, WrongState) else Result(r, [Send(RequestMeta(after))], Ok)
  }

  function StartChunk(r: Receiver, path: string, chunk: nat): Result {
    match FindEntry(r.index, path)
    case None => Fail(r, NoSuchFile(path))
    case Some(e) =>
      if |e.meta.chunks| <= chunk then Fail(r, NoSuchChunk)
      else
        var c := e.meta.chunks[chunk];
        Result(
          r.(requesting := Some(Requesting(path, Downloaded(e), chunk, c.offset, [])), state := RequestedChunk),
          [Send(RequestChunk(path, chunk, c.hash))],
          Ok)
  }

  /** `StartChunk` on behalf of the user, who is told the file's name and size once the request is out. */
  function StartDownload(r: Receiver, path: string, chunk: nat, size: nat): Result {
    var started := StartChunk(r, path, chunk);
    if started.verdict == Ok then started.(out := started.out + [Started(path, size)]) else started
  }

  function RequestFile(r: Receiver, path: string, localPath: string): Result {
    if r.state != Idle then Fail(r, WrongState)
    else match FindEntry(r.index, path)
      case None => Fail(r, NoSuchFile(path))
      case Some(e) =>
        var index := ChangeLocal(r.index, path, localPath).0;
        StartDownload(r.(index := index, saved := index), path, 0, e.meta.size)
  }

  function ResumeFile(r: Receiver, path: string): Result {
    if r.state != Idle then Fail(r, WrongState)
    else match FindEntry(r.index, path)
      case None => Fail(r, NoSuchFile(path))
      case Some(e) =>
        match FirstMissing(e)
        case None => Fail(r, FileIsDownloaded)
        case Some(k) => StartDownload(r, path, k, e.meta.size)
  }

  function StopTransmission(r: Receiver): Result {
    if r.state != RequestedChunk then Fail(r, WrongState)
    else Result(r.(state := Idle), [Send(StopChunk), FilesChanged], Ok)
  }

  function ReceiveMeta(r: Receiver, metas: seq<Meta>): Result {
    if r.state != Idle then Fail(r, WrongState)
    else
      var index := AddAll(r.index, metas);
      Result(r.(index := index, saved := index), [FilesChanged], Ok)
  }

  /** The requested chunk is complete and its digest is right: record it and go on to the next one missing. */
  function CompleteChunk(r: Receiver, path: string, chunk: nat): Result {
    var (index, outcome) := MarkReceived(r.index, path, chunk);
    var marked := r.(index := index, saved := index, requesting := None);
    match FindEntry(index, path)
    case None => Result(r, [], Panic)
    case Some(e) =>
      if outcome != Done then Result(r, [], Panic)
      else match FirstMissing(e)
        case Some(k) => StartChunk(marked, path, k)
        case None => Result(marked.(state := Idle), [Finished(path), FilesChanged], Ok)
  }

  /** What a block does once it is on disk. */
  function CountBlock(digest: Digest, r: Receiver, q: Requesting, c: Chunk): Result {
    if q.offset < c.offset + c.size then Result(r, [], Ok)
    else if c.hash != digest(q.fed) then Fail(r, InvalidHash(c.hash, digest(q.fed)))
    else CompleteChunk(r, q.path, q.chunk)
  }

  function Absorb(q: Requesting, data: Bytes): Requesting {
    q.(offset := q.offset + |data|, downloaded := q.downloaded + |data|, fed := q.fed + data)
  }

  function ReceiveBlock(digest: Digest, r: Receiver, data: Bytes, fate: WriteFate): Result {
    if r.state != RequestedChunk then Fail(r, WrongState)
    else if r.requesting.None? then Fail(r, FileNotRequested)
    else
      var q := r.requesting.value;
      match FindEntry(r.index, q.path)
      case None => Result(r, [], Panic)
      case Some(e) =>
        var written := r.(disk := AfterWrite(r.disk, e.localPath, e.meta.size, q.offset, data, fate));
        if !Succeeds(e.localPath, fate) then Fail(written, IOError)
        else if |e.meta.chunks| <= q.chunk then Result(written, [], Panic)
        else
          var absorbed := Absorb(q, data);
          CountBlock(digest, written.(requesting := Some(absorbed)), absorbed, e.meta.chunks[q.chunk])
  }

  function NotifyUpdatedArrives(r: Receiver, lastModified: i64): Result {
    if r.state != Idle && r.state != Initializing then Fail(r, WrongState)
    else if lastModified > r.lastUpdated then RequestNewMeta(r, r.lastUpdated)
    else Result(r, [], Ok)
  }

  function ProcessMessage(digest: Digest, r: Receiver, payload: Payload, fate: WriteFate): Result {
    match payload
    case NotifyUpdated(t) => NotifyUpdatedArrives(r, t)
    case TransmitMeta(metas) => ReceiveMeta(r, metas)
    case TransmitChunk(data) => ReceiveBlock(digest, r, data, fate)
    case LoginSuccess =>
      if r.state != Initializing then Fail(r, WrongState) else Result(r.(state := Idle), [LoggedIn], Ok)
    case NotifySenderStatus(status) =>
      Result(r, [if status.Connected? then SenderConnected else SenderDisconnected], Ok)
    case _ => Fail(r, NotSupported)
  }

  /** A newly started program: it knows what the last one saved, and finds the files as that one left them. */
  function Start(saved: seq<Entry>, disk: Disk): Receiver {
    Receiver(saved, saved, disk, Initializing, LastUpdated(saved), None)
  }

  // ---- Runs ----

  /** Anything that can happen to a Receiver: a wish of its user, a message, or the end of the program and a restart. */
  datatype Action =
    | UserRequest(path: string, localPath: string)
    | UserResume(path: string)
    | UserStop
    | AskForMeta
    | Message(payload: Payload, fate: WriteFate)
    | Restart

  function Step(digest: Digest, r: Receiver, a: Action): Result {
    match a
    case UserRequest(path, localPath) => RequestFile(r, path, localPath)
    case UserResume(path) => ResumeFile(r, path)
    case UserStop => StopTransmission(r)
    case AskForMeta => RequestNewMeta(r, LastUpdated(r.index))
    case Message(payload, fate) => ProcessMessage(digest, r, payload, fate)
    case Restart => Result(Start(r.saved, r.disk), [], Ok)
  }

  /** The state after all of `actions`. */
  function Run(digest: Digest, r: Receiver, actions: seq<Action>): Receiver
    decreases |actions|
  {
    if actions == [] then r else Run(digest, Step(digest, r, actions[0]).after, actions[1..])
  }
}
