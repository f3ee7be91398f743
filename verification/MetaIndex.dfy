/** The metadata index as the program keeps it: a list of entries, updated in place. */
module MetaIndexes {
  import opened Base
  import opened Metadata
  import opened EntryList

  class MetaIndex {
    var entries: seq<Entry>

    constructor (entries: seq<Entry>)
      ensures this.entries == entries
    {
      this.entries := entries;
    }

    method AddEntry(entry: Entry)
      modifies this
      ensures entries == EntryList.AddEntry(old(entries), entry)
    {
      var existing: Option<nat> := None;
      for i := 0 to |entries|
        invariant existing == None
        invariant entries == old(entries)
        invariant forall j :: 0 <= j < i ==> entries[j].meta.path != entry.meta.path
      {
        if entries[i].meta.path == entry.meta.path {
          existing := Some(i);
          break;
        }
      }
      if existing.Some? {
        entries := entries[existing.value := entry];
      } else {
        entries := entries + [entry];
      }
    }

    method AddForMeta(meta: Meta)
      modifies this
      ensures entries == EntryList.AddForMeta(old(entries), meta)
    {
      AddEntry(Entry("", {}, meta));
    }

    method Remove(path: string)
      modifies this
      ensures entries == EntryList.Remove(old(entries), path)
    {
      for i := 0 to |entries|
        invariant entries == old(entries)
        invariant forall j :: 0 <= j < i ==> entries[j].meta.path != path
      {
        if entries[i].meta.path == path {
          entries := entries[..i] + entries[i + 1..];
          break;
        }
      }
    }

    method MarkReceived(path: string, chunk: nat) returns (outcome: Outcome)
      modifies this
      ensures (entries, outcome) == EntryList.MarkReceived(old(entries), path, chunk)
    {
      var found := Find(entries, path);
      if found.None? {
        return Failed(FileNotFound);
      }
      var entry := entries[found.value];
      if |entry.meta.chunks| <= chunk {
        return Failed(ChunkNotFound);
      }
      entries := entries[found.value := entry.(received := entry.received + {chunk})];
      return Done;
    }

    method ChangeLocal(path: string, localPath: string) returns (outcome: Outcome)
      modifies this
      ensures (entries, outcome) == EntryList.ChangeLocal(old(entries), path, localPath)
    {
      var found := Find(entries, path);
      if found.None? {
        return Failed(FileNotFound);
      }
      var entry := entries[found.value];
      entries := entries[found.value := entry.(localPath := localPath, received := {})];
      return Done;
    }

    method ChangeRemote(path: string, newPath: string) returns (outcome: Outcome)
      modifies this
      ensures (entries, outcome) == EntryList.ChangeRemote(old(entries), path, newPath)
    {
      var found := Find(entries, path);
      if found.None? {
        return Failed(FileNotFound);
      }
      var entry := entries[found.value];
      entries := entries[found.value := entry.(meta := entry.meta.(path := newPath))];
      return Done;
    }
  }
}
