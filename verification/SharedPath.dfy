/**
 * When two files share a local name: starting a download can damage what was received of another file exactly when
 * received chunks of another file are stored under the name; and a history in which the program then reports a file
 * finished whose bytes are not those of the file.
 */
module SharedPath {
  import opened Base
  import opened Metadata
  import opened EntryList
  import opened Messages
  import opened ReceiverModel
  import opened ReceiverSafety
  import opened ReceiverPrefix
  import opened ReceiverIntegrity

  // ---- Exactly when a download can do damage ----

  /**
   * A block that arrives in `start` destroys the verified part of the entry `e` of `r`, which is not the one at `path`.
   */
  ghost predicate Harmed(
    digest: Digest, origin: Origin, r: Receiver, start: Receiver, path: string, data: Bytes, fate: WriteFate, e: Entry)
  {
    && e in r.index && e.meta.path != path
    && !Kept(ReceiveBlock(digest, start, data, fate).after.disk, e, origin(e.meta))
  }

  lemma InUseHarms(digest: Digest, origin: Origin, r: Receiver, start: Receiver, path: string, localPath: string)
    returns (data: Bytes, e: Entry)
    requires Trusted(digest, origin, r) && InUse(r.index, path, localPath)
    requires Sound(start) && start.disk == r.disk && start.state == RequestedChunk
    requires start.requesting.value.path == path && start.requesting.value.offset == 0
    requires FindEntry(start.index, path).value.localPath == localPath
    ensures Harmed(digest, origin, r, start, path, data, Written, e)
  {
    e :| e in r.index && e.localPath == localPath && e.meta.path != path && e.received != {};
    var content, x := origin(e.meta), FindEntry(start.index, path).value;
    assert Segment(e) && Kept(r.disk, e, content);
    EdgesAscend(e.meta.chunks, e.meta.size, 0, |e.received|);
    data := [if content[0] == 0 then 1 else 0];
    BlockDisk(digest, start, data, Written);
    FileAfterStores(FileAt(r.disk, localPath), x.meta.size, 0, data);
    var file := FileAt(ReceiveBlock(digest, start, data, Written).after.disk, localPath);
    assert file[0..1] == data;
    var done := Edge(e.meta.chunks, e.meta.size, |e.received|);
    assert done <= |file| ==> file[..done][0] == file[0..1][0] != content[..done][0];
  }

  lemma FreeHarmsNone(digest: Digest, origin: Origin, r: Receiver, start: Receiver, path: string)
    requires Trusted(digest, origin, start) && start.state == RequestedChunk
    requires forall e :: e in r.index && e.meta.path != path ==> e in start.index
    ensures forall data, fate, e :: !Harmed(digest, origin, r, start, path, data, fate, e)
  {
    forall data, fate, e
      ensures !Harmed(digest, origin, r, start, path, data, fate, e)
    {
      BlockTrusted(digest, origin, start, data, fate);
      BlockDisk(digest, start, data, fate);
    }
  }

  /** A requested download can damage another file exactly when the file chosen is in use. */
  lemma RequestDamagesIff(digest: Digest, origin: Origin, r: Receiver, path: string, localPath: string)
    requires Trusted(digest, origin, r) && r.state == Idle
    requires FindEntry(r.index, path).Some? && FindEntry(r.index, path).value.meta.chunks != []
    ensures InUse(r.index, path, localPath) <==>
            exists data, fate, e ::
              Harmed(digest, origin, r, RequestFile(r, path, localPath).after, path, data, fate, e)
  {
    var start := RequestFile(r, path, localPath).after;
    var i := Find(r.index, path).value;
    assert r.index[i] in r.index;
    RequestFileSound(r, path, localPath);
    ReplaceFind(r.index, i, r.index[i].(localPath := localPath, received := {}));
    OthersStay(r.index, i, r.index[i].(localPath := localPath, received := {}));
    if InUse(r.index, path, localPath) {
      var data, e := InUseHarms(digest, origin, r, start, path, localPath);
    } else {
      RequestFileTrusted(digest, origin, r, path, localPath);
      FreeHarmsNone(digest, origin, r, start, path);
    }
  }

  /** So can one that is resumed: then nothing of the file itself has been received, and it starts at its beginning. */
  lemma ResumeDamagesIff(digest: Digest, origin: Origin, r: Receiver, path: string)
    requires Trusted(digest, origin, r) && r.state == Idle
    requires FindEntry(r.index, path).Some? && FirstMissing(FindEntry(r.index, path).value).Some?
    ensures InUse(r.index, path, FindEntry(r.index, path).value.localPath) <==>
            exists data, fate, e :: Harmed(digest, origin, r, ResumeFile(r, path).after, path, data, fate, e)
  {
    var x := FindEntry(r.index, path).value;
    var start := ResumeFile(r, path).after;
    ResumeFileSound(r, path);
    SegmentNext(x);
    if InUse(r.index, path, x.localPath) {
      assert x.received == {};
      assert Edge(x.meta.chunks, x.meta.size, 0) == 0;
      var data, e := InUseHarms(digest, origin, r, start, path, x.localPath);
    } else {
      ResumeFileTrusted(digest, origin, r, path);
      FreeHarmsNone(digest, origin, r, start, path);
    }
  }

  lemma OthersStay(entries: seq<Entry>, i: nat, e: Entry)
    requires i < |entries| && entries[i].meta.path == e.meta.path
    ensures forall x :: x in entries && x.meta.path != e.meta.path ==> x in entries[i := e]
  {
    forall x | x in entries && x.meta.path != e.meta.path
      ensures x in entries[i := e]
    {
      var j :| 0 <= j < |entries| && entries[j] == x;
      assert entries[i := e][j] == x;
    }
  }

  // ---- A history from the first start on ----

  /** A digest under which the contents below do not collide. */
  function FirstByte(b: Bytes): u64 {
    if b == [] then 0 else b[0] as int
  }

  const A := Meta("a", 1, 2, 0, 1, [Chunk(1, 0, 1), Chunk(1, 1, 1)])

  const B := Meta("b", 2, 2, 0, 2, [Chunk(2, 0, 2)])

  function Contents(m: Meta): Bytes {
    if m == A then [1, 1] else if m == B then [2, 2] else []
  }

  /** A Receiver that was started first without an index, and has these two entries now. */
  function Two(e: Entry, f: Entry, file: Bytes, state: State, requesting: Requesting): Receiver {
    Receiver([e, f], [e, f], map["x" := file], state, I64_MIN, Some(requesting))
  }

  const START := Receiver([], [], map[], Initializing, I64_MIN, None)

  const KNOWN := Receiver(
    [Entry("", {}, A), Entry("", {}, B)], [Entry("", {}, A), Entry("", {}, B)], map[], Idle, I64_MIN, None)

  const ASKED := Receiver(
    [Entry("x", {}, A), Entry("", {}, B)], [Entry("x", {}, A), Entry("", {}, B)], map[], RequestedChunk, I64_MIN,
    Some(Requesting("a", 0, 0, 0, [])))

  const HALFWAY := Two(Entry("x", {0}, A), Entry("", {}, B), [1, 0], Idle, Requesting("a", 1, 1, 1, []))

  const SHARED := Two(Entry("x", {0}, A), Entry("x", {}, B), [1, 0], RequestedChunk, Requesting("b", 0, 0, 0, []))

  const SPOILT := Two(Entry("x", {0}, A), Entry("x", {}, B), [2, 0], RequestedChunk, Requesting("b", 1, 0, 1, [2]))

  const RESUMED := Two(Entry("x", {0}, A), Entry("x", {}, B), [2, 0], RequestedChunk, Requesting("a", 1, 1, 1, []))

  /** The metadata of two files arrives; the first chunk of "a" is downloaded to "x", and the download stopped. */
  const BEFORE: seq<Action> := [
    Message(LoginSuccess, Written), Message(TransmitMeta([A, B]), Written),
    UserRequest("a", "x"), Message(TransmitChunk([1]), Written), UserStop]

  /** The one step that the hypotheses of integrity exclude. */
  const MISTAKE := UserRequest("b", "x")

  /** One byte of "b" arrives, its download is stopped and that of "a" resumed. */
  const AFTERWARDS: seq<Action> := [Message(TransmitChunk([2]), Written), UserStop, UserResume("a")]

  const LAST := Message(TransmitChunk([1]), Written)

  lemma FindTwo(e: Entry, f: Entry)
    requires e.meta.path == "a" && f.meta.path == "b"
    ensures Find([e, f], "a") == Some(0) && Find([e, f], "b") == Some(1)
  {
    assert [e, f][1..] == [f];
  }

  lemma Known()
    ensures Step(FirstByte, START.(state := Idle), BEFORE[1]).after == KNOWN
  {
    var a, b := FreshEntry(A), FreshEntry(B);
    assert AddForMeta([], A) == [a];
    assert Find([a], "b") == None && AddForMeta([a], B) == [a] + [b] == [a, b];
    assert [A, B][1..] == [B] && [B][1..] == [];
    assert AddAll([a], [B]) == AddAll([a, b], []) == [a, b];
  }

  lemma Asked()
    ensures Step(FirstByte, KNOWN, BEFORE[2]).after == ASKED
  {
    FindTwo(Entry("", {}, A), Entry("", {}, B));
    FindTwo(Entry("x", {}, A), Entry("", {}, B));
    assert KNOWN.index[0 := Entry("x", {}, A)] == ASKED.index;
    assert SizeOf(A.chunks, {}, 1) == 0;
  }

  /**
   * A block that is written makes of `r` what counting it makes of `h`, the Receiver with the block on disk and hashed.
   */
  lemma BlockCounts(r: Receiver, data: Bytes, q: Requesting, e: Entry, disk: Disk, absorbed: Requesting, h: Receiver)
    requires r.state == RequestedChunk && r.requesting == Some(q) && FindEntry(r.index, q.path) == Some(e)
    requires e.localPath != "" && q.chunk < |e.meta.chunks|
    requires disk == AfterWrite(r.disk, e.localPath, e.meta.size, q.offset, data, Written) &&
             absorbed == Absorb(q, data)
    requires h == r.(disk := disk, requesting := Some(absorbed))
    ensures ReceiveBlock(FirstByte, r, data, Written) == CountBlock(FirstByte, h, absorbed, e.meta.chunks[q.chunk])
  {
  }

  /** The Receiver with the first block on disk and hashed. */
  const FETCHING := ASKED.(disk := map["x" := [1, 0]], requesting := Some(Requesting("a", 1, 0, 1, [1])))

  lemma FirstWritten()
    ensures FETCHING.disk == AfterWrite(ASKED.disk, "x", 2, 0, [1], Written)
    ensures FETCHING.requesting == Some(Absorb(ASKED.requesting.value, [1]))
  {
    assert [] + [1 as byte] == [1];
    assert SetLen([], 2) == [0, 0] && Splice([0, 0], 0, [1]) == [1, 0];
    assert ASKED.disk["x" := [1, 0]] == map["x" := [1, 0]];
  }

  lemma FirstReceived()
    ensures Step(FirstByte, ASKED, BEFORE[3]).after == HALFWAY.(state := RequestedChunk)
  {
    FindTwo(Entry("x", {}, A), Entry("", {}, B));
    FirstWritten();
    FirstCounted();
    BlockCounts(ASKED, [1], Requesting("a", 0, 0, 0, []), Entry("x", {}, A), FETCHING.disk,
      FETCHING.requesting.value, FETCHING);
  }

  lemma FirstCounted()
    ensures CountBlock(FirstByte, FETCHING, FETCHING.requesting.value, A.chunks[0]).after ==
            HALFWAY.(state := RequestedChunk)
  {
    var e, f := Entry("x", {0}, A), Entry("", {}, B);
    FindTwo(Entry("x", {}, A), f);
    FindTwo(e, f);
    assert {} + {0 as nat} == {0};
    assert ASKED.index[0 := e] == [e, f];
    assert FirstMissingFrom(e, 1) == Some(1) && FirstMissing(e) == Some(1);
    assert SizeOf(A.chunks, {0}, 1) == 1;
  }

  lemma SecondRequested()
    ensures Step(FirstByte, HALFWAY, MISTAKE).after == SHARED
  {
    FindTwo(Entry("x", {0}, A), Entry("", {}, B));
    FindTwo(Entry("x", {0}, A), Entry("x", {}, B));
    assert HALFWAY.index[1 := Entry("x", {}, B)] == SHARED.index;
  }

  lemma Spoilt()
    ensures Step(FirstByte, SHARED, AFTERWARDS[0]).after == SPOILT
  {
    FindTwo(Entry("x", {0}, A), Entry("x", {}, B));
    assert [] + [2 as byte] == [2];
    assert SetLen([1, 0], 2) == [1, 0] && Splice([1, 0], 0, [2]) == [2, 0];
    assert SHARED.disk["x" := [2, 0]] == map["x" := [2, 0]];
  }

  lemma Resumed()
    ensures Step(FirstByte, SPOILT.(state := Idle), AFTERWARDS[2]).after == RESUMED
  {
    var e := Entry("x", {0}, A);
    FindTwo(e, Entry("x", {}, B));
    assert FirstMissingFrom(e, 1) == Some(1) && FirstMissing(e) == Some(1);
    assert SizeOf(A.chunks, {0}, 1) == 1;
  }

  /** The Receiver with the last block on disk and hashed. */
  const ENDING := RESUMED.(disk := map["x" := [2, 1]], requesting := Some(Requesting("a", 2, 1, 2, [1])))

  lemma LastWritten()
    ensures ENDING.disk == AfterWrite(RESUMED.disk, "x", 2, 1, [1], Written)
    ensures ENDING.requesting == Some(Absorb(RESUMED.requesting.value, [1]))
  {
    assert [] + [1 as byte] == [1];
    assert SetLen([2, 0], 2) == [2, 0] && Splice([2, 0], 1, [1]) == [2, 1];
    assert RESUMED.disk["x" := [2, 1]] == map["x" := [2, 1]];
  }

  lemma Ended()
    ensures var end := Step(FirstByte, RESUMED, LAST);
            && end.out == [Finished("a"), FilesChanged] && end.after.disk == map["x" := [2, 1]]
            && FindEntry(end.after.index, "a") == Some(Entry("x", {0, 1}, A))
  {
    FindTwo(Entry("x", {0}, A), Entry("x", {}, B));
    LastWritten();
    LastCounted();
    BlockCounts(RESUMED, [1], Requesting("a", 1, 1, 1, []), Entry("x", {0}, A), ENDING.disk, ENDING.requesting.value,
      ENDING);
  }

  lemma LastCounted()
    ensures var end := CountBlock(FirstByte, ENDING, ENDING.requesting.value, A.chunks[1]);
            && end.out == [Finished("a"), FilesChanged] && end.after.disk == ENDING.disk
            && FindEntry(end.after.index, "a") == Some(Entry("x", {0, 1}, A))
  {
    var e, f := Entry("x", {0, 1}, A), Entry("x", {}, B);
    FindTwo(Entry("x", {0}, A), f);
    FindTwo(e, f);
    assert {0} + {1} == {0, 1};
    assert RESUMED.index[0 := e] == [e, f];
    assert FirstMissingFrom(e, 2) == None && FirstMissingFrom(e, 1) == None && FirstMissing(e) == None;
  }

  lemma Honest()
    ensures Describes(FirstByte, A, Contents(A)) && Describes(FirstByte, B, Contents(B))
  {
    assert A.path == "a" && B.path == "b";
    assert Abuts(A.chunks, 2, 0) && Abuts(A.chunks, 2, 1) && Abuts(B.chunks, 2, 0);
    assert Contents(A)[0..1] == [1] && Contents(A)[1..2] == [1] && Contents(B)[0..2] == [2, 2];
  }

  /** `actions` are allowed from `r` on, and lead to `end`. */
  ghost predicate Leads(r: Receiver, actions: seq<Action>, end: Receiver) {
    AllowedRun(FirstByte, Contents, r, actions) && Run(FirstByte, r, actions) == end
  }

  lemma Single(r: Receiver, a: Action, next: Receiver)
    requires Allowed(FirstByte, Contents, r, a) && Step(FirstByte, r, a).after == next
    ensures Leads(r, [a], next)
  {
    assert Run(FirstByte, next, [a][1..]) == next;
  }

  lemma {:induction false} Compose(r: Receiver, xs: seq<Action>, mid: Receiver, ys: seq<Action>, end: Receiver)
    requires Leads(r, xs, mid) && Leads(mid, ys, end)
    ensures Leads(r, xs + ys, end)
    decreases |xs|
  {
    if xs == [] {
      assert xs + ys == ys;
    } else {
      Compose(Step(FirstByte, r, xs[0]).after, xs[1..], mid, ys, end);
      assert (xs + ys)[0] == xs[0] && (xs + ys)[1..] == xs[1..] + ys;
    }
  }

  lemma LeadsKnown()
    ensures Leads(START, BEFORE[..2], KNOWN)
  {
    Known();
    Honest();
    var idle := START.(state := Idle);
    Single(START, BEFORE[0], idle);
    Single(idle, BEFORE[1], KNOWN);
    Compose(START, [BEFORE[0]], idle, [BEFORE[1]], KNOWN);
    assert [BEFORE[0]] + [BEFORE[1]] == BEFORE[..2];
  }

  lemma LeadsAsked()
    ensures Leads(KNOWN, [BEFORE[2]], ASKED)
  {
    Asked();
    Single(KNOWN, BEFORE[2], ASKED);
  }

  lemma LeadsFetched()
    ensures Leads(ASKED, [BEFORE[3]], HALFWAY.(state := RequestedChunk))
  {
    FirstReceived();
    FirstAllowed();
    Single(ASKED, BEFORE[3], HALFWAY.(state := RequestedChunk));
  }

  lemma LeadsStopped(r: Receiver)
    requires r.state == RequestedChunk
    ensures Leads(r, [UserStop], r.(state := Idle))
  {
    Single(r, UserStop, r.(state := Idle));
  }

  lemma Glue(start: Receiver, known: Receiver, asked: Receiver, fetched: Receiver, end: Receiver, before: seq<Action>)
    requires |before| == 5 && Leads(start, before[..2], known) && Leads(known, [before[2]], asked)
    requires Leads(asked, [before[3]], fetched) && Leads(fetched, [before[4]], end)
    ensures Leads(start, before, end)
  {
    Compose(start, before[..2], known, [before[2]], asked);
    Compose(start, before[..2] + [before[2]], asked, [before[3]], fetched);
    Compose(start, before[..2] + [before[2]] + [before[3]], fetched, [before[4]], end);
    assert before[..2] + [before[2]] + [before[3]] + [before[4]] == before;
  }

  lemma HistoryBefore()
    ensures Leads(START, BEFORE, HALFWAY)
  {
    LeadsKnown();
    LeadsAsked();
    LeadsFetched();
    LeadsStopped(HALFWAY.(state := RequestedChunk));
    Glue(START, KNOWN, ASKED, HALFWAY.(state := RequestedChunk), HALFWAY, BEFORE);
  }

  lemma FirstAllowed()
    ensures Allowed(FirstByte, Contents, ASKED, BEFORE[3])
  {
    FindTwo(Entry("x", {}, A), Entry("", {}, B));
    assert [] + [1 as byte] == [1] && Contents(A)[0..1] == [1];
  }

  lemma LeadsSpoilt()
    ensures Leads(SHARED, [AFTERWARDS[0]], SPOILT)
  {
    Spoilt();
    RestAllowed();
    Single(SHARED, AFTERWARDS[0], SPOILT);
  }

  lemma LeadsResumed()
    ensures Leads(SPOILT.(state := Idle), [AFTERWARDS[2]], RESUMED)
  {
    Resumed();
    RestAllowed();
    Single(SPOILT.(state := Idle), AFTERWARDS[2], RESUMED);
  }

  lemma HistoryAfterwards()
    ensures Leads(SHARED, AFTERWARDS, RESUMED)
  {
    LeadsSpoilt();
    LeadsStopped(SPOILT);
    LeadsResumed();
    Compose(SHARED, [AFTERWARDS[0]], SPOILT, [UserStop], SPOILT.(state := Idle));
    Compose(SHARED, [AFTERWARDS[0]] + [UserStop], SPOILT.(state := Idle), [AFTERWARDS[2]], RESUMED);
    assert [AFTERWARDS[0]] + [UserStop] + [AFTERWARDS[2]] == AFTERWARDS;
  }

  lemma RestAllowed()
    ensures Allowed(FirstByte, Contents, SHARED, AFTERWARDS[0])
    ensures Allowed(FirstByte, Contents, SPOILT.(state := Idle), AFTERWARDS[2])
    ensures Allowed(FirstByte, Contents, RESUMED, LAST)
  {
    FindTwo(Entry("x", {0}, A), Entry("x", {}, B));
    assert [] + [1 as byte] == [1] && Contents(A)[1..2] == [1];
  }

  /**
   * From the first start on, with every step but one allowed: "a" is reported finished although its file holds a byte
   * of "b". The one step is the request of "b" into the file that holds the first chunk of "a".
   */
  lemma SharedPathBreaksIntegrity()
    ensures START == Start([], map[]) && Leads(START, BEFORE, HALFWAY)
    ensures InUse(HALFWAY.index, "b", "x") && !Allowed(FirstByte, Contents, HALFWAY, MISTAKE)
    ensures Leads(Step(FirstByte, HALFWAY, MISTAKE).after, AFTERWARDS, RESUMED)
    ensures Allowed(FirstByte, Contents, RESUMED, LAST)
    ensures var end := Step(FirstByte, RESUMED, LAST);
            && Finished("a") in end.out
            && FindEntry(end.after.index, "a") == Some(Entry("x", {0, 1}, A))
            && FileAt(end.after.disk, "x") == [2, 1] && Contents(A) == [1, 1] && FirstByte([2, 1]) != A.hash
  {
    HistoryBefore();
    SecondRequested();
    HistoryAfterwards();
    RestAllowed();
    Ended();
    MistakeExcluded();
  }

  lemma MistakeExcluded()
    ensures InUse(HALFWAY.index, "b", "x") && !Allowed(FirstByte, Contents, HALFWAY, MISTAKE)
  {
    assert HALFWAY.index[0] in HALFWAY.index;
  }

  /** One run after another. */
  lemma {:induction false} RunJoined(digest: Digest, r: Receiver, xs: seq<Action>, ys: seq<Action>)
    returns (both: seq<Action>)
    ensures Run(digest, r, both) == Run(digest, Run(digest, r, xs), ys)
    decreases |xs|
  {
    if xs == [] {
      both := ys;
    } else {
      var next := Step(digest, r, xs[0]).after;
      var rest := RunJoined(digest, next, xs[1..], ys);
      RunPrepend(digest, r, xs[0], next, rest);
      both := [xs[0]] + rest;
    }
  }

  lemma RunPrepend(digest: Digest, r: Receiver, a: Action, next: Receiver, rest: seq<Action>)
    requires next == Step(digest, r, a).after
    ensures Run(digest, r, [a] + rest) == Run(digest, next, rest)
  {
    assert ([a] + rest)[1..] == rest;
  }

  lemma WholeHistory() returns (history: seq<Action>)
    ensures Run(FirstByte, START, history) == RESUMED
  {
    HistoryBefore();
    SecondRequested();
    HistoryAfterwards();
    RunPrepend(FirstByte, HALFWAY, MISTAKE, SHARED, AFTERWARDS);
    history := RunJoined(FirstByte, START, BEFORE, [MISTAKE] + AFTERWARDS);
  }
}
