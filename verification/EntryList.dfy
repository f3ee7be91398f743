/**
 * The operations of the metadata index on its list of entries, and the view of a caller, for whom the index is a map
 * from remote path to entry.
 */
module EntryList {
  import opened Base
  import opened Metadata

  datatype Error = FileNotFound | ChunkNotFound

  datatype Outcome = Done | Failed(error: Error)

  // ---- Specification of each operation, on the list of entries ----

  /** The position of the first entry at `path`. */
  function Find(entries: seq<Entry>, path: string): (r: Option<nat>)
    ensures r.Some? ==> r.value < |entries| && entries[r.value].meta.path == path
    ensures r.Some? ==> forall i :: 0 <= i < r.value ==> entries[i].meta.path != path
    ensures r.None? ==> forall i :: 0 <= i < |entries| ==> entries[i].meta.path != path
  {
    if entries == [] then None
    else if entries[0].meta.path == path then Some(0)
    else match Find(entries[1..], path)
      case None => None
      case Some(i) => Some(i + 1)
  }

  function FindEntry(entries: seq<Entry>, path: string): (r: Option<Entry>)
    ensures r.Some? ==> r.value in entries && r.value.meta.path == path
    ensures r.None? ==> forall e :: e in entries ==> e.meta.path != path
  {
    match Find(entries, path)
    case None => None
    case Some(i) => Some(entries[i])
  }

  function AddEntry(entries: seq<Entry>, e: Entry): seq<Entry> {
    match Find(entries, e.meta.path)
    case None => entries + [e]
    case Some(i) => entries[i := e]
  }

  /** A freshly announced file: no local path, nothing received. */
  function FreshEntry(m: Meta): Entry {
    Entry("", {}, m)
  }

  function AddForMeta(entries: seq<Entry>, m: Meta): seq<Entry> {
    AddEntry(entries, FreshEntry(m))
  }

  function AddAll(entries: seq<Entry>, metas: seq<Meta>): seq<Entry>
    decreases |metas|
  {
    if metas == [] then entries else AddAll(AddForMeta(entries, metas[0]), metas[1..])
  }

  function Remove(entries: seq<Entry>, path: string): seq<Entry> {
    match Find(entries, path)
    case None => entries
    case Some(i) => entries[..i] + entries[i + 1..]
  }

  function MarkReceived(entries: seq<Entry>, path: string, chunk: nat): (seq<Entry>, Outcome) {
    match Find(entries, path)
    case None => (entries, Failed(FileNotFound))
    case Some(i) =>
      if |entries[i].meta.chunks| <= chunk then (entries, Failed(ChunkNotFound))
      else (entries[i := entries[i].(received := entries[i].received + {chunk})], Done)
  }

  function ChangeLocal(entries: seq<Entry>, path: string, localPath: string): (seq<Entry>, Outcome) {
    match Find(entries, path)
    case None => (entries, Failed(FileNotFound))
    case Some(i) => (entries[i := entries[i].(localPath := localPath, received := {})], Done)
  }

  function ChangeRemote(entries: seq<Entry>, path: string, newPath: string): (seq<Entry>, Outcome) {
    match Find(entries, path)
    case None => (entries, Failed(FileNotFound))
    case Some(i) => (entries[i := entries[i].(meta := entries[i].meta.(path := newPath))], Done)
  }

  function ModifiedAfter(entries: seq<Entry>, after: i64): seq<Entry> {
    if entries == [] then []
    else (if entries[0].meta.metaModified > after then [entries[0]] else []) + ModifiedAfter(entries[1..], after)
  }

  function LastUpdated(entries: seq<Entry>): (t: i64)
    ensures forall e :: e in entries ==> e.meta.metaModified <= t
    ensures t == I64_MIN || exists e :: e in entries && e.meta.metaModified == t
  {
    if entries == [] then I64_MIN
    else
      var rest := LastUpdated(entries[1..]);
      if entries[0].meta.metaModified > rest then entries[0].meta.metaModified else rest
  }

  // ---- The index as a map from remote path to entry ----

  ghost predicate Unique(entries: seq<Entry>) {
    forall i, j :: 0 <= i < j < |entries| ==> entries[i].meta.path != entries[j].meta.path
  }

  function Paths(entries: seq<Entry>): set<string> {
    set e | e in entries :: e.meta.path
  }

  function AsMap(entries: seq<Entry>): map<string, Entry> {
    map p | p in Paths(entries) :: (assert FindEntry(entries, p).Some?; FindEntry(entries, p).value)
  }

  lemma FindUnique(entries: seq<Entry>, i: nat)
    requires Unique(entries) && i < |entries|
    ensures Find(entries, entries[i].meta.path) == Some(i)
  {
  }

  /** Membership in the map is membership in the list. */
  lemma AsMapHas(entries: seq<Entry>, e: Entry)
    requires Unique(entries)
    ensures e in entries <==> e.meta.path in AsMap(entries) && AsMap(entries)[e.meta.path] == e
  {
    if e in entries {
      var i :| 0 <= i < |entries| && entries[i] == e;
      FindUnique(entries, i);
      assert e.meta.path in Paths(entries);
    }
  }

  /** A caller's request to change the index. */
  datatype Op =
    | Add(entry: Entry)
    | Announce(meta: Meta)
    | Drop(path: string)
    | Mark(path: string, chunk: nat)
    | Relocate(path: string, localPath: string)

  function Apply(entries: seq<Entry>, op: Op): seq<Entry> {
    match op
    case Add(e) => AddEntry(entries, e)
    case Announce(m) => AddForMeta(entries, m)
    case Drop(p) => Remove(entries, p)
    case Mark(p, c) => MarkReceived(entries, p, c).0
    case Relocate(p, l) => ChangeLocal(entries, p, l).0
  }

  /** What each operation means to a caller who sees a map. */
  function ApplyToMap(m: map<string, Entry>, op: Op): map<string, Entry> {
    match op
    case Add(e) => m[e.meta.path := e]
    case Announce(meta) => m[meta.path := FreshEntry(meta)]
    case Drop(p) => m - {p}
    case Mark(p, c) =>
      if p in m && c < |m[p].meta.chunks| then m[p := m[p].(received := m[p].received + {c})] else m
    case Relocate(p, l) =>
      if p in m then m[p := m[p].(localPath := l, received := {})] else m
  }

  function ApplyAll(entries: seq<Entry>, ops: seq<Op>): seq<Entry>
    decreases |ops|
  {
    if ops == [] then entries else ApplyAll(Apply(entries, ops[0]), ops[1..])
  }

  function ApplyAllToMap(m: map<string, Entry>, ops: seq<Op>): map<string, Entry>
    decreases |ops|
  {
    if ops == [] then m else ApplyAllToMap(ApplyToMap(m, ops[0]), ops[1..])
  }

  /** A list with unique paths is determined, as a map, by its members. */
  lemma MembersMakeMap(entries: seq<Entry>, m: map<string, Entry>)
    requires Unique(entries)
    requires forall e :: e in entries ==> e.meta.path in m && m[e.meta.path] == e
    requires forall p :: p in m ==> m[p].meta.path == p && m[p] in entries
    ensures AsMap(entries) == m
  {
    forall p
      ensures p in AsMap(entries) <==> p in m
      ensures p in m ==> AsMap(entries)[p] == m[p]
    {
      if p in m {
        assert m[p].meta.path in Paths(entries);
        AsMapHas(entries, m[p]);
      }
      if p in AsMap(entries) {
        assert AsMap(entries)[p] in entries;
      }
    }
  }

  lemma AsMapMembers(entries: seq<Entry>)
    requires Unique(entries)
    ensures forall e :: e in entries ==> e.meta.path in AsMap(entries) && AsMap(entries)[e.meta.path] == e
    ensures forall p :: p in AsMap(entries) ==> AsMap(entries)[p].meta.path == p && AsMap(entries)[p] in entries
  {
    forall e | e in entries
      ensures e.meta.path in AsMap(entries) && AsMap(entries)[e.meta.path] == e
    {
      AsMapHas(entries, e);
    }
  }

  lemma ReplaceRefines(entries: seq<Entry>, i: nat, e: Entry)
    requires Unique(entries) && i < |entries| && entries[i].meta.path == e.meta.path
    ensures Unique(entries[i := e])
    ensures AsMap(entries[i := e]) == AsMap(entries)[e.meta.path := e]
  {
    AsMapMembers(entries);
    var after := entries[i := e];
    assert after[i] == e;
    forall p | p in AsMap(entries) && p != e.meta.path
      ensures AsMap(entries)[p] in after
    {
      var j :| 0 <= j < |entries| && entries[j] == AsMap(entries)[p];
      assert after[j] == entries[j];
    }
    MembersMakeMap(after, AsMap(entries)[e.meta.path := e]);
  }

  lemma AppendRefines(entries: seq<Entry>, e: Entry)
    requires Unique(entries) && Find(entries, e.meta.path).None?
    ensures Unique(entries + [e])
    ensures AsMap(entries + [e]) == AsMap(entries)[e.meta.path := e]
  {
    AsMapMembers(entries);
    MembersMakeMap(entries + [e], AsMap(entries)[e.meta.path := e]);
  }

  lemma RemoveMembers(entries: seq<Entry>, path: string)
    requires Unique(entries)
    ensures forall e :: e in Remove(entries, path) <==> e in entries && e.meta.path != path
  {
    if Find(entries, path).Some? {
      var i := Find(entries, path).value;
      var head, tail := entries[..i], entries[i + 1..];
      assert entries == head + [entries[i]] + tail;
      assert forall e :: e in head ==> e.meta.path != path;
      assert forall e :: e in tail ==> e.meta.path != path;
    }
  }

  lemma RemoveUnique(entries: seq<Entry>, path: string)
    requires Unique(entries)
    ensures Unique(Remove(entries, path))
  {
    if Find(entries, path).Some? {
      var i := Find(entries, path).value;
      var after := Remove(entries, path);
      forall j, k | 0 <= j < k < |after|
        ensures after[j].meta.path != after[k].meta.path
      {
        assert after[j] == entries[if j < i then j else j + 1];
        assert after[k] == entries[if k < i then k else k + 1];
      }
    }
  }

  lemma RemoveRefines(entries: seq<Entry>, path: string)
    requires Unique(entries)
    ensures Unique(Remove(entries, path))
    ensures AsMap(Remove(entries, path)) == AsMap(entries) - {path}
  {
    AsMapMembers(entries);
    RemoveMembers(entries, path);
    RemoveUnique(entries, path);
    MembersMakeMap(Remove(entries, path), AsMap(entries) - {path});
  }

  /** One operation keeps paths unique and does to the list what it means on the map. */
  lemma OpRefines(entries: seq<Entry>, op: Op)
    requires Unique(entries)
    ensures Unique(Apply(entries, op))
    ensures AsMap(Apply(entries, op)) == ApplyToMap(AsMap(entries), op)
  {
    var path := match op
      case Add(e) => e.meta.path
      case Announce(m) => m.path
      case Drop(p) => p
      case Mark(p, _) => p
      case Relocate(p, _) => p;
    assert path in Paths(entries) <==> Find(entries, path).Some? by {
      if Find(entries, path).Some? {
        assert entries[Find(entries, path).value] in entries;
      }
    }
    if op.Drop? {
      RemoveRefines(entries, path);
    } else if Find(entries, path).Some? {
      var i := Find(entries, path).value;
      var e := match op
        case Add(e) => e
        case Announce(m) => FreshEntry(m)
        case Mark(_, c) => entries[i].(received := entries[i].received + {c})
        case Relocate(_, l) => entries[i].(localPath := l, received := {});
      ReplaceRefines(entries, i, e);
    } else if op.Add? || op.Announce? {
      AppendRefines(entries, if op.Add? then op.entry else FreshEntry(op.meta));
    }
  }

  /** Every sequence of operations keeps paths unique and acts on the list as it does on a map from paths. */
  lemma {:induction false} RunRefines(entries: seq<Entry>, ops: seq<Op>)
    requires Unique(entries)
    ensures Unique(ApplyAll(entries, ops))
    ensures AsMap(ApplyAll(entries, ops)) == ApplyAllToMap(AsMap(entries), ops)
    decreases |ops|
  {
    if ops != [] {
      OpRefines(entries, ops[0]);
      RunRefines(Apply(entries, ops[0]), ops[1..]);
    }
  }

  /** Searching the list is looking the path up in the map. */
  lemma FindEntryRefines(entries: seq<Entry>, path: string)
    ensures FindEntry(entries, path) == if path in AsMap(entries) then Some(AsMap(entries)[path]) else None
  {
    if FindEntry(entries, path).Some? {
      assert FindEntry(entries, path).value.meta.path in Paths(entries);
    }
  }

  /** The incremental query returns exactly the map's entries stamped after `after`, each of them once. */
  lemma {:induction false} ModifiedAfterRefines(entries: seq<Entry>, after: i64)
    requires Unique(entries)
    ensures Unique(ModifiedAfter(entries, after))
    ensures forall e :: e in ModifiedAfter(entries, after) <==>
                          e.meta.path in AsMap(entries) && AsMap(entries)[e.meta.path] == e &&
                            e.meta.metaModified > after
  {
    ModifiedAfterMembers(entries, after);
    forall e
      ensures e in ModifiedAfter(entries, after) <==>
                e.meta.path in AsMap(entries) && AsMap(entries)[e.meta.path] == e && e.meta.metaModified > after
    {
      AsMapHas(entries, e);
    }
  }

  lemma {:induction false} ModifiedAfterMembers(entries: seq<Entry>, after: i64)
    ensures forall e :: e in ModifiedAfter(entries, after) <==> e in entries && e.meta.metaModified > after
    ensures Unique(entries) ==> Unique(ModifiedAfter(entries, after))
  {
    if entries != [] {
      ModifiedAfterMembers(entries[1..], after);
      assert entries == [entries[0]] + entries[1..];
      if Unique(entries) {
        assert Unique(entries[1..]);
        assert forall e :: e in entries[1..] ==> e.meta.path != entries[0].meta.path;
        var rest := ModifiedAfter(entries[1..], after);
        assert forall i :: 0 <= i < |rest| ==> rest[i] in rest;
      }
    }
  }

  /** The newest stamp of the list is the newest stamp of the map, and the least value when there is none. */
  lemma LastUpdatedRefines(entries: seq<Entry>)
    requires Unique(entries)
    ensures forall p :: p in AsMap(entries) ==> AsMap(entries)[p].meta.metaModified <= LastUpdated(entries)
    ensures if AsMap(entries) == map[] then LastUpdated(entries) == I64_MIN
            else exists p :: p in AsMap(entries) && AsMap(entries)[p].meta.metaModified == LastUpdated(entries)
  {
    if entries == [] {
    } else {
      var i := LastUpdatedAt(entries);
      AsMapHas(entries, entries[i]);
    }
  }

  lemma {:induction false} LastUpdatedAt(entries: seq<Entry>) returns (i: nat)
    requires entries != []
    ensures i < |entries| && entries[i].meta.metaModified == LastUpdated(entries)
  {
    if |entries| > 1 && LastUpdated(entries[1..]) >= entries[0].meta.metaModified {
      var j := LastUpdatedAt(entries[1..]);
      i := j + 1;
    } else {
      i := 0;
    }
  }

  /** Replacing the entry at a path is seen at that path only. */
  lemma ReplaceFind(entries: seq<Entry>, i: nat, e: Entry)
    requires Unique(entries) && i < |entries| && entries[i].meta.path == e.meta.path
    ensures Unique(entries[i := e])
    ensures forall p :: FindEntry(entries[i := e], p) == if p == e.meta.path then Some(e) else FindEntry(entries, p)
    ensures forall x :: x in entries[i := e] ==> x == e || x in entries
  {
    var after := entries[i := e];
    forall p
      ensures FindEntry(after, p) == if p == e.meta.path then Some(e) else FindEntry(entries, p)
    {
      if p == e.meta.path {
        FindUnique(after, i);
      } else if FindEntry(entries, p).Some? {
        FindUnique(after, Find(entries, p).value);
      }
    }
  }

  /** Renaming keeps paths unique exactly when the new path is free (or nothing is renamed, or the path stays). */
  lemma RenameKeepsUniqueIff(entries: seq<Entry>, path: string, newPath: string)
    requires Unique(entries)
    ensures Unique(ChangeRemote(entries, path, newPath).0) <==>
            (Find(entries, path).None? || newPath == path || Find(entries, newPath).None?)
  {
    if Find(entries, path).Some? && newPath != path {
      var i := Find(entries, path).value;
      var after := ChangeRemote(entries, path, newPath).0;
      if Find(entries, newPath).Some? {
        var j := Find(entries, newPath).value;
        assert after[j].meta.path == newPath && after[i].meta.path == newPath && i != j;
      }
    }
  }

  /** A rename to a free path moves the entry there, changes its path only, and leaves all others alone. */
  lemma RenameRefines(entries: seq<Entry>, path: string, newPath: string)
    requires Unique(entries) && Find(entries, path).Some? && (newPath == path || Find(entries, newPath).None?)
    ensures var e := AsMap(entries)[path];
            AsMap(ChangeRemote(entries, path, newPath).0) ==
            (AsMap(entries) - {path})[newPath := e.(meta := e.meta.(path := newPath))]
  {
    var i := Find(entries, path).value;
    var e := entries[i];
    var renamed := e.(meta := e.meta.(path := newPath));
    var after := entries[i := renamed];
    AsMapHas(entries, e);
    AsMapMembers(entries);
    RenameKeepsUniqueIff(entries, path, newPath);
    assert after[i] == renamed;
    forall p | p in AsMap(entries) && p != path
      ensures AsMap(entries)[p] in after && p != newPath
    {
      var j :| 0 <= j < |entries| && entries[j] == AsMap(entries)[p];
      assert after[j] == entries[j];
    }
    MembersMakeMap(after, (AsMap(entries) - {path})[newPath := renamed]);
  }

  /** The operations that can fail do so exactly for an unknown path or chunk, and then change nothing. */
  lemma Outcomes(entries: seq<Entry>, path: string, chunk: nat, other: string)
    ensures var known := exists e :: e in entries && e.meta.path == path;
            && (ChangeLocal(entries, path, other).1 == if known then Done else Failed(FileNotFound))
            && (ChangeRemote(entries, path, other).1 == if known then Done else Failed(FileNotFound))
            && (MarkReceived(entries, path, chunk).1 == Failed(FileNotFound) <==> !known)
            && (MarkReceived(entries, path, chunk).1 == Failed(ChunkNotFound) <==>
                  known && chunk >= |FindEntry(entries, path).value.meta.chunks|)
            && (!known ==> ChangeLocal(entries, path, other).0 == ChangeRemote(entries, path, other).0 == entries)
            && (MarkReceived(entries, path, chunk).1 != Done ==> MarkReceived(entries, path, chunk).0 == entries)
  {
  }

  /** Adding keeps the order of the list: an entry at the path is replaced in its place, a new one comes last. */
  lemma AddKeepsPlaces(entries: seq<Entry>, e: Entry)
    ensures var after := AddEntry(entries, e);
            match Find(entries, e.meta.path)
            case None => |after| == |entries| + 1 && after[..|entries|] == entries && after[|entries|] == e
            case Some(i) =>
              |after| == |entries| && after[i] == e && forall j :: 0 <= j < |after| && j != i ==> after[j] == entries[j]
  {
  }

  /** Removing keeps the order of the rest. */
  lemma RemoveKeepsPlaces(entries: seq<Entry>, path: string)
    ensures var after := Remove(entries, path);
            match Find(entries, path)
            case None => after == entries
            case Some(i) =>
              && |after| == |entries| - 1
              && forall j :: 0 <= j < |after| ==> after[j] == entries[if j < i then j else j + 1]
  {
  }

  /** Marking, moving and renaming change one entry in its place. */
  lemma ChangesKeepPlaces(entries: seq<Entry>, path: string, chunk: nat, other: string)
    ensures forall after :: after in [MarkReceived(entries, path, chunk).0, ChangeLocal(entries, path, other).0,
                                      ChangeRemote(entries, path, other).0] ==>
                              && |after| == |entries|
                              && forall j :: 0 <= j < |after| && Find(entries, path) != Some(j) ==>
                                               after[j] == entries[j]
  {
  }

  /** The incremental query keeps the order of the list. */
  lemma {:induction false} ModifiedAfterConcat(a: seq<Entry>, b: seq<Entry>, after: i64)
    ensures ModifiedAfter(a + b, after) == ModifiedAfter(a, after) + ModifiedAfter(b, after)
    decreases |a|
  {
    if a == [] {
      assert a + b == b;
    } else {
      ModifiedAfterConcat(a[1..], b, after);
      ModifiedAfterFirst(a[0], a[1..] + b, after);
      ModifiedAfterFirst(a[0], a[1..], after);
      assert a + b == [a[0]] + (a[1..] + b) && a == [a[0]] + a[1..];
      ConcatAssociates(Newer(a[0], after), ModifiedAfter(a[1..], after), ModifiedAfter(b, after));
    }
  }

  /** What the query makes of one entry. */
  function Newer(e: Entry, after: i64): seq<Entry> {
    if e.meta.metaModified > after then [e] else []
  }

  lemma ModifiedAfterFirst(e: Entry, rest: seq<Entry>, after: i64)
    ensures ModifiedAfter([e] + rest, after) == Newer(e, after) + ModifiedAfter(rest, after)
  {
    assert ([e] + rest)[1..] == rest;
  }
}
