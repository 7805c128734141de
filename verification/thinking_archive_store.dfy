/** The archive of reflections (src/stores/thinking-archive.store.ts): the
    entries in memory, merged in week by week, and the stored list of each
    week (`weeks/<weekId>/thinking-archive.json`), kept in the map
    `archives` by week id. */
module ThinkingArchiveStores {
  import opened Types
  import Seqs

  /** The ids of a list of entries. */
  function IdSet(entries: seq<ThinkingArchiveEntry>): set<string>
  {
    set i | 0 <= i < |entries| :: entries[i].id
  }

  /** The loaded entries whose ids are not among the given ones, in order;
      repeats inside the loaded list are kept. */
  function NewEntries(existing: set<string>, data: seq<ThinkingArchiveEntry>): seq<ThinkingArchiveEntry>
  {
    Seqs.Filter(data, (e: ThinkingArchiveEntry) => e.id !in existing)
  }

  /** One more loaded entry. */
  lemma NewEntriesSnoc(existing: set<string>, data: seq<ThinkingArchiveEntry>, e: ThinkingArchiveEntry)
    ensures NewEntries(existing, data + [e]) == NewEntries(existing, data) + (if e.id !in existing then [e] else [])
  {
    Seqs.FilterAppend(data, [e], (x: ThinkingArchiveEntry) => x.id !in existing);
    assert [e][1..] == [];
  }

  /** The merge keeps the entries already there and adds only entries whose
      ids were absent before the call. */
  lemma MergeAddsOnlyAbsent(entries: seq<ThinkingArchiveEntry>, data: seq<ThinkingArchiveEntry>)
    ensures var merged := entries + NewEntries(IdSet(entries), data);
            merged[..|entries|] == entries &&
            forall i :: |entries| <= i < |merged| ==> merged[i].id !in IdSet(entries) && merged[i] in data
  {
    var merged := entries + NewEntries(IdSet(entries), data);
    forall i | |entries| <= i < |merged|
      ensures merged[i].id !in IdSet(entries) && merged[i] in data
    {
      assert merged[i] in NewEntries(IdSet(entries), data);
    }
  }

  /** An entry loaded twice under a new id is added twice. */
  lemma RepeatsNotDeduplicated(entries: seq<ThinkingArchiveEntry>, e: ThinkingArchiveEntry)
    requires e.id !in IdSet(entries)
    ensures NewEntries(IdSet(entries), [e, e]) == [e, e]
  {
    assert [e, e] == [e] + [e];
    NewEntriesSnoc(IdSet(entries), [e], e);
    assert [e] == [] + [e];
    NewEntriesSnoc(IdSet(entries), [], e);
  }

  /** The stored list after `addEntry`: every entry with that id removed,
      the new one appended. */
  function Upserted(current: seq<ThinkingArchiveEntry>, entry: ThinkingArchiveEntry): seq<ThinkingArchiveEntry>
  {
    Seqs.Filter(current, (e: ThinkingArchiveEntry) => e.id != entry.id) + [entry]
  }

  /** The stored list then holds the entry exactly once under its id, at
      the end, and every other entry keeps its place. */
  lemma UpsertedHasOneCopy(current: seq<ThinkingArchiveEntry>, entry: ThinkingArchiveEntry)
    ensures var r := Upserted(current, entry);
            r[|r| - 1] == entry &&
            (forall i :: 0 <= i < |r| - 1 ==> r[i].id != entry.id) &&
            (forall i :: 0 <= i < |current| && current[i].id != entry.id ==> current[i] in r)
  {
    var kept := Seqs.Filter(current, (e: ThinkingArchiveEntry) => e.id != entry.id);
    var r := Upserted(current, entry);
    forall i | 0 <= i < |r| - 1 ensures r[i].id != entry.id {
      assert r[i] == kept[i] && kept[i] in kept;
    }
  }

  /** The stored lists of the weeks, one after another, missing weeks skipped. */
  function Concatenated(archives: map<string, seq<ThinkingArchiveEntry>>, weekIds: seq<string>): seq<ThinkingArchiveEntry>
  {
    if weekIds == [] then []
    else
      var before := Concatenated(archives, weekIds[..|weekIds| - 1]);
      var w := weekIds[|weekIds| - 1];
      if w in archives then before + archives[w] else before
  }

  /** Loading two runs of weeks is loading each and joining the results. */
  lemma {:induction false} ConcatenatedAppend(archives: map<string, seq<ThinkingArchiveEntry>>, a: seq<string>, b: seq<string>)
    ensures Concatenated(archives, a + b) == Concatenated(archives, a) + Concatenated(archives, b)
    decreases |b|
  {
    if b == [] {
      assert a + b == a;
    } else {
      assert (a + b)[..|a + b| - 1] == a + b[..|b| - 1];
      ConcatenatedAppend(archives, a, b[..|b| - 1]);
    }
  }

  class ThinkingArchiveStore {
    var entries: seq<ThinkingArchiveEntry>
    /** The stored list of each week. */
    var archives: map<string, seq<ThinkingArchiveEntry>>

    constructor (archives: map<string, seq<ThinkingArchiveEntry>>)
      ensures entries == [] && this.archives == archives
    {
      entries := [];
      this.archives := archives;
    }

    /** `loadWeek`: the week's stored entries whose ids were not loaded
        before the call are appended, in order. */
    method LoadWeek(weekId: string)
      modifies this
      ensures weekId !in archives ==> entries == old(entries)
      ensures weekId in archives ==> entries == old(entries) + NewEntries(IdSet(old(entries)), archives[weekId])
      ensures archives == old(archives)
    {
      if weekId !in archives {
        return;
      }
      var data := archives[weekId];
      var existingIds := IdSet(entries);
      ghost var before := entries;
      for i := 0 to |data|
        invariant entries == before + NewEntries(existingIds, data[..i])
        invariant archives == old(archives)
      {
        var entry := data[i];
        assert data[..i + 1] == data[..i] + [entry];
        NewEntriesSnoc(existingIds, data[..i], entry);
        if entry.id !in existingIds {
          entries := entries + [entry];
        }
      }
      assert data[..|data|] == data;
    }

    /** `addEntry`: the week's stored list upserted; in memory the first
        entry with the id replaced in place, or the entry appended. */
    method AddEntry(weekId: string, entry: ThinkingArchiveEntry)
      modifies this
      ensures archives == old(archives)[weekId := Upserted(if weekId in old(archives) then old(archives)[weekId] else [], entry)]
      ensures var k := Seqs.FirstIndex(old(entries), (e: ThinkingArchiveEntry) => e.id == entry.id);
              entries == if k >= 0 then old(entries)[k := entry] else old(entries) + [entry]
      ensures |old(entries)| <= |entries| <= |old(entries)| + 1 && entry in entries
    {
      var current := if weekId in archives then archives[weekId] else [];
      var filtered := Seqs.Filter(current, (e: ThinkingArchiveEntry) => e.id != entry.id);
      filtered := filtered + [entry];
      archives := archives[weekId := filtered];
      var idx := Seqs.FirstIndex(entries, (e: ThinkingArchiveEntry) => e.id == entry.id);
      if idx >= 0 {
        entries := entries[idx := entry];
        assert entries[idx] == entry;
      } else {
        entries := entries + [entry];
      }
    }

    /** `loadAll`: the stored lists of the weeks, joined in order. */
    method LoadAll(weekIds: seq<string>)
      modifies this
      ensures entries == Concatenated(archives, weekIds)
      ensures archives == old(archives)
    {
      entries := [];
      for i := 0 to |weekIds|
        invariant entries == Concatenated(archives, weekIds[..i])
        invariant archives == old(archives)
      {
        assert weekIds[..i + 1][..i] == weekIds[..i];
        var weekId := weekIds[i];
        if weekId in archives {
          entries := entries + archives[weekId];
        }
      }
      assert weekIds[..|weekIds|] == weekIds;
    }
  }
}
