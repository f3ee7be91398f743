/**
 * The Sender's side of a chunk: checking the request, and the loop that reads the chunk and sends it block by block.
 */
module Sender {
  import opened Base
  import opened Metadata
  import opened EntryList

  /** The capacity of the Sender's file reader. */
  const BUFFER: nat := 65536

  /** The largest chunk for which the loop's 32-bit count cannot wrap around. */
  const SAFE_SIZE: nat := U32_LIMIT - BUFFER

  /** A transmission under way: `count` bytes of a chunk of `size` have been read, up to `pos` in the file. */
  datatype Task = Task(file: Bytes, pos: nat, count: u32, size: u32, ended: bool)

  /** The bytes of `file` from `from` up to `to`, as far as the file reaches. */
  function Span(file: Bytes, from: nat, to: nat): Bytes {
    var hi := Min(to, |file|);
    if from < hi then file[from..hi] else []
  }

  predicate Over(t: Task) {
    t.count >= t.size || t.ended
  }

  /** A read may bring any number of bytes up to the capacity of the buffer, and none exactly at the end of the file. */
  predicate CanRead(t: Task, n: nat) {
    && !Over(t)
    && if t.pos < |t.file| then 1 <= n <= BUFFER && t.pos + n <= |t.file| else n == 0
  }

  /** The block sent for a read of `n` bytes: what the chunk still lacks of them. */
  function Payload(t: Task, n: nat): Bytes
    requires CanRead(t, n)
  {
    var boundary := Min(t.size - t.count, n);
    if n == 0 then [] else t.file[t.pos..t.pos + boundary]
  }

  function Read(t: Task, n: nat): Task
    requires CanRead(t, n)
  {
    t.(pos := t.pos + n, count := AsU32(t.count + n), ended := n == 0)
  }

  /** The reader's buffer: any nonempty run of the bytes at `pos`, up to its capacity, or nothing at the end. */
  method FillBuf(file: Bytes, pos: nat) returns (buf: Bytes)
    ensures Filled(file, pos, buf)
  {
    if pos < |file| {
      var n :| 1 <= n <= BUFFER && pos + n <= |file|;
      buf := file[pos..pos + n];
    } else {
      buf := [];
    }
  }

  /**
   * Sends chunk [offset, offset + size) of `file`, whatever the sizes of the reads. It always ends, and the bytes of
   * the chunk always come first; for sizes up to SAFE_SIZE nothing follows them.
   */
  method Transmit(file: Bytes, offset: nat, size: u32) returns (payloads: seq<Bytes>)
    ensures Span(file, offset, offset + size) <= Flat(payloads)
    ensures size <= SAFE_SIZE ==> Flat(payloads) == Span(file, offset, offset + size)
    ensures Buffered(payloads)
    ensures size <= SAFE_SIZE ==> ([] in payloads <==> size > 0 && |file| < offset + size)
    ensures [] in payloads ==> payloads[|payloads| - 1] == [] && [] !in payloads[..|payloads| - 1]
  {
    payloads := [];
    var pos, count: u32, ended := offset, 0, false;
    ghost var task := Begin(file, offset, size);
    SendingBegins(file, offset, size);
    while count < size && !ended
      invariant task == Task(file, pos, count, size, ended)
      invariant InLoop(offset, task, payloads)
      decreases |file| - pos, !ended
    {
      var readBuf := FillBuf(file, pos);
      var length := |readBuf|;
      var boundary := Min(size - count, length);
      var outgoing := readBuf[..boundary];
      LoopGoesOn(offset, task, payloads, readBuf, outgoing);
      task := Read(task, length);
      payloads := payloads + [outgoing];
      pos := pos + length;
      count := AsU32(count + length);
      if length <= 0 {
        ended := true;
      }
    }
    LoopOver(offset, task, payloads);
  }

  /** What holds whenever the loop looks at its condition. */
  ghost predicate InLoop(offset: nat, t: Task, payloads: seq<Bytes>) {
    && Buffered(payloads)
    && Sending(offset, t, Flat(payloads))
    && Marked(payloads, t.ended)
    && (t.ended ==> t.count < t.size && |t.file| <= t.pos)
    && (t.pos == offset || t.pos <= |t.file|)
  }

  lemma LoopGoesOn(offset: nat, t: Task, payloads: seq<Bytes>, buf: Bytes, block: Bytes)
    requires !Over(t) && Filled(t.file, t.pos, buf) && InLoop(offset, t, payloads)
    requires block == buf[..Min(t.size - t.count, |buf|)]
    ensures CanRead(t, |buf|) && InLoop(offset, Read(t, |buf|), payloads + [block])
  {
    SendBlock(offset, t, payloads, buf);
    MarkBlock(payloads, block);
  }

  lemma LoopOver(offset: nat, t: Task, payloads: seq<Bytes>)
    requires Over(t) && InLoop(offset, t, payloads)
    ensures Span(t.file, offset, offset + t.size) <= Flat(payloads)
    ensures t.size <= SAFE_SIZE ==> Flat(payloads) == Span(t.file, offset, offset + t.size)
    ensures Buffered(payloads)
    ensures t.size <= SAFE_SIZE ==> ([] in payloads <==> t.size > 0 && |t.file| < offset + t.size)
    ensures [] in payloads ==> payloads[|payloads| - 1] == [] && [] !in payloads[..|payloads| - 1]
  {
    SendingOver(offset, t, Flat(payloads));
    assert [] in payloads <==> t.ended;
  }

  /** The empty block that says that the file is at its end comes last, and once. */
  ghost predicate Marked(payloads: seq<Bytes>, ended: bool) {
    if ended then payloads != [] && payloads[|payloads| - 1] == [] && [] !in payloads[..|payloads| - 1]
    else [] !in payloads
  }

  lemma MarkBlock(payloads: seq<Bytes>, block: Bytes)
    requires Marked(payloads, false)
    ensures Marked(payloads + [block], block == [])
  {
    assert (payloads + [block])[..|payloads|] == payloads;
  }

  ghost predicate Buffered(payloads: seq<Bytes>) {
    forall p :: p in payloads ==> |p| <= BUFFER
  }

  /** What the reader's buffer may hold. */
  ghost predicate Filled(file: Bytes, pos: nat, buf: Bytes) {
    && |buf| <= BUFFER && buf == Span(file, pos, pos + |buf|)
    && if buf == [] then |file| <= pos else pos + |buf| <= |file|
  }

  lemma SendBlock(offset: nat, t: Task, payloads: seq<Bytes>, buf: Bytes)
    requires !Over(t) && Filled(t.file, t.pos, buf)
    requires Sending(offset, t, Flat(payloads)) && Buffered(payloads)
    ensures CanRead(t, |buf|)
    ensures var block := buf[..Min(t.size - t.count, |buf|)];
            Sending(offset, Read(t, |buf|), Flat(payloads + [block])) && Buffered(payloads + [block])
  {
    var block := buf[..Min(t.size - t.count, |buf|)];
    assert block == Payload(t, |buf|);
    SendingStep(offset, t, Flat(payloads), |buf|);
    FlatAppend(payloads, block);
  }

  /** The count has not wrapped: exactly the bytes read so far, cut off at the end of the chunk, have been sent. */
  ghost predicate Straight(offset: nat, t: Task, sent: Bytes) {
    && t.pos == offset + t.count
    && sent == Span(t.file, offset, offset + Min(t.count, t.size))
    && (t.ended ==> |t.file| <= t.pos)
  }

  /** The count has wrapped around: by then the whole chunk had been sent. */
  ghost predicate Wrapped(offset: nat, t: Task, sent: Bytes) {
    t.size > SAFE_SIZE && Span(t.file, offset, offset + t.size) <= sent
  }

  ghost predicate Sending(offset: nat, t: Task, sent: Bytes) {
    Straight(offset, t, sent) || Wrapped(offset, t, sent)
  }

  lemma SpansJoin(file: Bytes, a: nat, b: nat, c: nat)
    requires a <= b <= c
    ensures Span(file, a, b) + Span(file, b, c) == Span(file, a, c)
  {
  }

  lemma StraightStep(offset: nat, t: Task, sent: Bytes, n: nat)
    requires CanRead(t, n) && Straight(offset, t, sent)
    ensures Sending(offset, Read(t, n), sent + Payload(t, n))
  {
    var upto := offset + Min(t.count + n, t.size);
    assert upto == t.pos + Min(t.size - t.count, n);
    PayloadIs(t, n);
    SpansJoin(t.file, offset, t.pos, upto);
    if t.count + n >= U32_LIMIT {
      assert Wrapped(offset, Read(t, n), Span(t.file, offset, upto));
    } else {
      assert Straight(offset, Read(t, n), Span(t.file, offset, upto));
    }
  }

  /** A block is a part of the file. */
  lemma PayloadIs(t: Task, n: nat)
    requires CanRead(t, n)
    ensures Payload(t, n) == Span(t.file, t.pos, t.pos + Min(t.size - t.count, n))
  {
  }

  lemma SendingStep(offset: nat, t: Task, sent: Bytes, n: nat)
    requires CanRead(t, n) && Sending(offset, t, sent)
    ensures Sending(offset, Read(t, n), sent + Payload(t, n))
  {
    if Straight(offset, t, sent) {
      StraightStep(offset, t, sent, n);
    } else {
      assert Span(t.file, offset, offset + t.size) <= sent <= sent + Payload(t, n);
    }
  }

  /** When the loop is over, the chunk has been sent, and for safe sizes nothing else. */
  lemma SendingOver(offset: nat, t: Task, sent: Bytes)
    requires Sending(offset, t, sent) && Over(t)
    ensures Span(t.file, offset, offset + t.size) <= sent
    ensures t.size <= SAFE_SIZE ==> sent == Span(t.file, offset, offset + t.size)
  {
  }

  lemma SendingPart(offset: nat, t: Task, sent: Bytes)
    requires Sending(offset, t, sent) && t.size <= SAFE_SIZE
    ensures sent <= Span(t.file, offset, offset + t.size)
  {
    var upto := offset + Min(t.count, t.size);
    SpansJoin(t.file, offset, upto, offset + t.size);
  }

  lemma SendingBegins(file: Bytes, offset: nat, size: u32)
    ensures Sending(offset, Begin(file, offset, size), [])
  {
    assert Straight(offset, Begin(file, offset, size), []);
  }

  // ---- Every schedule of reads ----

  /** The reads `ns`, one after the other, are possible from `t` on. */
  ghost predicate Schedule(t: Task, ns: seq<nat>)
    decreases |ns|
  {
    ns != [] ==> CanRead(t, ns[0]) && Schedule(Read(t, ns[0]), ns[1..])
  }

  ghost function SentBy(t: Task, ns: seq<nat>): Bytes
    requires Schedule(t, ns)
    decreases |ns|
  {
    if ns == [] then [] else Payload(t, ns[0]) + SentBy(Read(t, ns[0]), ns[1..])
  }

  ghost function Reached(t: Task, ns: seq<nat>): Task
    requires Schedule(t, ns)
    decreases |ns|
  {
    if ns == [] then t else Reached(Read(t, ns[0]), ns[1..])
  }

  function Begin(file: Bytes, offset: nat, size: u32): Task {
    Task(file, offset, 0, size, false)
  }

  lemma {:induction false} ScheduleSending(offset: nat, t: Task, sent: Bytes, ns: seq<nat>)
    requires Schedule(t, ns) && Sending(offset, t, sent)
    ensures Reached(t, ns).file == t.file && Reached(t, ns).size == t.size
    ensures Sending(offset, Reached(t, ns), sent + SentBy(t, ns))
    decreases |ns|
  {
    if ns == [] {
      assert sent + SentBy(t, ns) == sent;
    } else {
      var next, block := Read(t, ns[0]), Payload(t, ns[0]);
      SendingStep(offset, t, sent, ns[0]);
      ScheduleSending(offset, next, sent + block, ns[1..]);
      ConcatAssociates(sent, block, SentBy(next, ns[1..]));
    }
  }

  /** Whatever the file and the reads, the loop sends a part of the chunk, and all of it once it is over. */
  ghost predicate AlwaysExact(size: u32) {
    forall file: Bytes, offset: nat, ns: seq<nat> :: Schedule(Begin(file, offset, size), ns) ==>
                                                        Exact(file, offset, size, ns)
  }

  ghost predicate Exact(file: Bytes, offset: nat, size: u32, ns: seq<nat>)
    requires Schedule(Begin(file, offset, size), ns)
  {
    var sent := SentBy(Begin(file, offset, size), ns);
    var chunk := Span(file, offset, offset + size);
    sent <= chunk && (Over(Reached(Begin(file, offset, size), ns)) ==> sent == chunk)
  }

  /** The transmit loop is exact for every file and every schedule of reads exactly up to the safe chunk size. */
  lemma ExactUpToSafeSize(size: u32)
    ensures AlwaysExact(size) <==> size <= SAFE_SIZE
    ensures AlwaysExact(size) <==> size <= 0x1_0000_0000 - 65536
  {
    if size <= SAFE_SIZE {
      forall file: Bytes, offset: nat, ns: seq<nat> | Schedule(Begin(file, offset, size), ns)
        ensures Exact(file, offset, size, ns)
      {
        SafeIsExact(file, offset, size, ns);
      }
    } else {
      var file := seq(size + BUFFER, _ => 0 as byte);
      var ns := Overrun(file, size);
      assert !Exact(file, 0, size, ns);
    }
  }

  lemma SafeIsExact(file: Bytes, offset: nat, size: u32, ns: seq<nat>)
    requires size <= SAFE_SIZE && Schedule(Begin(file, offset, size), ns)
    ensures Exact(file, offset, size, ns)
  {
    var begin := Begin(file, offset, size);
    var sent, end := SentBy(begin, ns), Reached(begin, ns);
    SendingBegins(file, offset, size);
    ScheduleSending(offset, begin, [], ns);
    assert [] + sent == sent;
    SendingPart(offset, end, sent);
    if Over(end) {
      SendingOver(offset, end, sent);
    }
  }

  /** The loop after `i` reads of one byte each from the start of the file. */
  function After(file: Bytes, size: u32, i: nat): Task
    requires i < size
  {
    Task(file, i, i, size, false)
  }

  /** `k` reads of one byte each, put before the reads `more`. */
  lemma {:induction false} OnesReach(file: Bytes, size: u32, i: nat, k: nat, more: seq<nat>) returns (ns: seq<nat>)
    requires i + k < size && i + k <= |file|
    requires Schedule(After(file, size, i + k), more)
    ensures Schedule(After(file, size, i), ns)
    ensures |SentBy(After(file, size, i), ns)| == k + |SentBy(After(file, size, i + k), more)|
    decreases k
  {
    if k == 0 {
      ns := more;
    } else {
      var rest := OnesReach(file, size, i + 1, k - 1, more);
      OneMore(file, size, i, rest);
      ns := [1] + rest;
    }
  }

  lemma OneMore(file: Bytes, size: u32, i: nat, rest: seq<nat>)
    requires i + 1 < size && i < |file| && Schedule(After(file, size, i + 1), rest)
    ensures Schedule(After(file, size, i), [1] + rest)
    ensures |SentBy(After(file, size, i), [1] + rest)| == 1 + |SentBy(After(file, size, i + 1), rest)|
  {
    assert ([1] + rest)[1..] == rest;
    assert Read(After(file, size, i), 1) == After(file, size, i + 1);
  }

  /** Reading all but one byte of an unsafe chunk and then a full buffer wraps the count, and the loop goes on. */
  lemma Overrun(file: Bytes, size: u32) returns (ns: seq<nat>)
    requires size > SAFE_SIZE && |file| == size + BUFFER
    ensures Schedule(Begin(file, 0, size), ns)
    ensures |SentBy(Begin(file, 0, size), ns)| == size + 1
  {
    var near := After(file, size, size - 1);
    var wrapped := Task(file, size - 1 + BUFFER, size - 1 + BUFFER - U32_LIMIT, size, false);
    assert Read(near, BUFFER) == wrapped;
    var more := [BUFFER, 1];
    assert more[1..] == [1] && [1][1..] == [];
    assert Schedule(Read(wrapped, 1), []);
    assert Schedule(wrapped, [1 as nat]) && |SentBy(wrapped, [1])| == 1;
    assert Schedule(near, more) && |SentBy(near, more)| == 2;
    ns := OnesReach(file, size, 0, size - 1, more);
  }

  // ---- The request ----

  datatype SenderError = NoSuchFile | NoSuchChunk | InvalidHash(expected: u64, actual: u64)

  /** `Died` is a transmission that cannot open its file: it panics on its own, and the Sender is not told. */
  datatype Reply = Spawned(task: Task) | Died | Rejected(error: SenderError)

  /** The Sender starts a transmission only for a chunk that it has and whose digest the Receiver knows. */
  function ProcessRequest(index: seq<Entry>, files: map<string, Bytes>, path: string, chunk: nat, hash: u64): Reply {
    match FindEntry(index, path)
    case None => Rejected(NoSuchFile)
    case Some(e) =>
      if |e.meta.chunks| <= chunk then Rejected(NoSuchChunk)
      else
        var c := e.meta.chunks[chunk];
        if c.hash != hash then Rejected(InvalidHash(c.hash, hash))
        else if e.localPath !in files then Died
        else Spawned(Begin(files[e.localPath], c.offset, c.size))
  }

  /**
   * A request is met if and only if the Sender knows the file, the file has the chunk, and the Receiver knows its hash;
   * it is then for the bytes that the metadata says. Otherwise the first of these that fails is the error.
   */
  lemma RequestLaw(index: seq<Entry>, files: map<string, Bytes>, path: string, chunk: nat, hash: u64)
    ensures var reply := ProcessRequest(index, files, path, chunk, hash);
            var known := exists e :: e in index && e.meta.path == path;
            var e := FindEntry(index, path);
            && (reply == Rejected(NoSuchFile) <==> !known)
            && (reply == Rejected(NoSuchChunk) <==> known && chunk >= |e.value.meta.chunks|)
            && (known && chunk < |e.value.meta.chunks| ==>
                  var c := e.value.meta.chunks[chunk];
                  && (c.hash != hash <==> reply == Rejected(InvalidHash(c.hash, hash)))
                  && (c.hash == hash ==>
                        if e.value.localPath in files
                        then reply == Spawned(Task(files[e.value.localPath], c.offset, 0, c.size, false))
                        else reply == Died))
  {
  }
}
