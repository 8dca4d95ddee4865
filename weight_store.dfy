/** WeightEntryManager (WeightEntry.swift): a stateless manager whose every operation
    loads the stored entries, changes the loaded list and writes it back. */
module WeightStore {
  import opened Base
  import opened Weights
  import opened Sequences
  import opened Sorting
  import opened Storage

  const EntriesKey: string := "weightEntries"
  /** The separate "current weight" slot that `addEntry` also writes. */
  const UserWeightKey: string := "userWeight"

  /** The entries as stored; empty when absent or undecodable. */
  function StoredEntries(data: Snapshot): seq<WeightEntry> {
    if EntriesKey in data && data[EntriesKey].WeightListData? then data[EntriesKey].entries else []
  }

  /** `loadEntries`: the stored entries rearranged newest first. */
  function LoadEntries(data: Snapshot): (entries: seq<WeightEntry>)
    ensures multiset(entries) == multiset(StoredEntries(data))
    ensures Ordered(entries, EntryDate, Descending)
    ensures !(EntriesKey in data && data[EntriesKey].WeightListData?) ==> entries == []
  {
    SortBy(StoredEntries(data), EntryDate, Descending)
  }

  /** The store after `addEntry`: the loaded list with the new entry appended, unsorted,
      and the weight's text in the current-weight slot. */
  function AfterAdd(data: Snapshot, entry: WeightEntry): Snapshot {
    data[EntriesKey := WeightListData(LoadEntries(data) + [entry])][UserWeightKey := Text(entry.weight.text)]
  }

  /** The store after `deleteEntry`: the loaded list without the entries of `id`. */
  function AfterDelete(data: Snapshot, id: Id): Snapshot {
    data[EntriesKey := WeightListData(RemoveKey(LoadEntries(data), EntryId, id))]
  }

  /** `saveEntries`. */
  method SaveEntries(defaults: Defaults, entries: seq<WeightEntry>)
    modifies defaults
    ensures defaults.data == old(defaults.data)[EntriesKey := WeightListData(entries)]
  {
    defaults.data := defaults.data[EntriesKey := WeightListData(entries)];
  }

  /** `addEntry(weight:note:)`, with the fresh identifier and the current time given. */
  method AddEntry(defaults: Defaults, weight: Weight, note: Option<string>, id: Id, now: Timestamp)
    modifies defaults
    ensures defaults.data == AfterAdd(old(defaults.data), WeightEntry(id, weight, now, note))
  {
    var entries := LoadEntries(defaults.data);
    var newEntry := WeightEntry(id, weight, now, note);
    entries := entries + [newEntry];
    SaveEntries(defaults, entries);
    defaults.data := defaults.data[UserWeightKey := Text(weight.text)];
  }

  /** `deleteEntry(id:)`. */
  method DeleteEntry(defaults: Defaults, id: Id)
    modifies defaults
    ensures defaults.data == AfterDelete(old(defaults.data), id)
  {
    var entries := LoadEntries(defaults.data);
    entries := RemoveKey(entries, EntryId, id);
    SaveEntries(defaults, entries);
  }

  /** Saving a list and loading it again gives its entries newest first, and a list
      already newest first comes back unchanged. */
  lemma SaveThenLoad(data: Snapshot, entries: seq<WeightEntry>)
    ensures multiset(LoadEntries(data[EntriesKey := WeightListData(entries)])) == multiset(entries)
    ensures Ordered(LoadEntries(data[EntriesKey := WeightListData(entries)]), EntryDate, Descending)
    ensures Ordered(entries, EntryDate, Descending) ==> LoadEntries(data[EntriesKey := WeightListData(entries)]) == entries
  {
    if Ordered(entries, EntryDate, Descending) {
      OrderedChained(entries, EntryDate, Descending);
      SortByChainedIdentity(entries, EntryDate, Descending);
    }
  }

  /** After an add, the stored list is the earlier loaded list followed by the new entry,
      a later load holds exactly one entry more, the current-weight slot holds the new
      weight, and every other key is untouched. */
  lemma AddThenLoad(data: Snapshot, entry: WeightEntry)
    ensures StoredEntries(AfterAdd(data, entry)) == LoadEntries(data) + [entry]
    ensures multiset(LoadEntries(AfterAdd(data, entry))) == multiset(StoredEntries(data)) + multiset{entry}
    ensures |LoadEntries(AfterAdd(data, entry))| == |StoredEntries(data)| + 1
    ensures AfterAdd(data, entry)[UserWeightKey] == Text(entry.weight.text)
    ensures forall k :: k != EntriesKey && k != UserWeightKey ==>
              (k in AfterAdd(data, entry) <==> k in data) &&
              (k in data ==> AfterAdd(data, entry)[k] == data[k])
  {
    var after := AfterAdd(data, entry);
    assert StoredEntries(after) == LoadEntries(data) + [entry];
    assert multiset(LoadEntries(data) + [entry]) == multiset(LoadEntries(data)) + multiset{entry};
    assert |LoadEntries(after)| == |multiset(LoadEntries(after))|;
    assert |StoredEntries(data)| == |multiset(StoredEntries(data))|;
  }

  /** A delete keeps the loaded order: loading afterwards gives exactly the earlier loaded
      list without the entries of `id`. */
  lemma DeleteThenLoad(data: Snapshot, id: Id)
    ensures LoadEntries(AfterDelete(data, id)) == RemoveKey(LoadEntries(data), EntryId, id)
    ensures forall e :: e in LoadEntries(AfterDelete(data, id)) <==> e in StoredEntries(data) && e.id != id
  {
    var kept := RemoveKey(LoadEntries(data), EntryId, id);
    RemoveKeyOrdered(LoadEntries(data), EntryId, id, EntryDate, Descending);
    SaveThenLoad(data, kept);
    forall e ensures e in LoadEntries(data) <==> e in StoredEntries(data) {
      assert e in LoadEntries(data) <==> e in multiset(LoadEntries(data));
    }
  }

  /** Deleting an identifier no stored entry carries leaves the same entries, in the
      loaded order. */
  lemma DeleteAbsent(data: Snapshot, id: Id)
    requires forall e :: e in StoredEntries(data) ==> e.id != id
    ensures LoadEntries(AfterDelete(data, id)) == LoadEntries(data)
    ensures multiset(StoredEntries(AfterDelete(data, id))) == multiset(StoredEntries(data))
  {
    forall e | e in LoadEntries(data) ensures EntryId(e) != id {
      assert e in multiset(LoadEntries(data));
    }
    RemoveKeyAbsent(LoadEntries(data), EntryId, id);
    DeleteThenLoad(data, id);
  }
}
