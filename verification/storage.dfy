/**
 Per-user record history in the browser's key-value storage.  One key per
 user, `khatalens_data_` followed by the username, holding the whole list,
 newest first.  The store is a map from key to what reading that key yields.
 */
module Storage {
  import opened Types

  const KeyPrefix: string := "khatalens_data_"

  function StorageKey(username: string): string {
    KeyPrefix + username
  }

  /** Different users never share a storage key. */
  lemma StorageKeyInjective(u: string, v: string)
    requires StorageKey(u) == StorageKey(v)
    ensures u == v
  {
    assert u == StorageKey(u)[|KeyPrefix|..];
    assert v == StorageKey(v)[|KeyPrefix|..];
  }

  /** A stored value either decodes to a record list or does not (empty text, broken JSON). */
  datatype StoredValue = Unreadable | Records(records: seq<KhataRecord>)

  type Store = map<string, StoredValue>

  /** getRecords: the stored list, or the empty list when the key is missing or unreadable. */
  function GetRecords(store: Store, username: string): (r: seq<KhataRecord>)
    ensures StorageKey(username) !in store ==> r == []
    ensures StorageKey(username) in store && store[StorageKey(username)].Unreadable? ==> r == []
    ensures r != [] ==> store[StorageKey(username)] == Records(r)
    ensures StorageKey(username) in store && store[StorageKey(username)].Records? ==> r == store[StorageKey(username)].records
  {
    var key := StorageKey(username);
    if key in store && store[key].Records? then store[key].records else []
  }

  datatype SaveResult = SaveResult(store: Store, records: seq<KhataRecord>)

  /**
   saveRecord: prepend the record to the current list and write it back.  A
   failing write (`writeOk` false, e.g. quota exceeded) leaves the store as it
   was and yields the empty list.
   */
  function SaveRecord(store: Store, username: string, record: KhataRecord, writeOk: bool): (r: SaveResult)
    ensures writeOk ==> r.records == [record] + GetRecords(store, username)
    ensures writeOk ==> GetRecords(r.store, username) == r.records
    ensures !writeOk ==> r.records == [] && r.store == store
    ensures forall k :: k != StorageKey(username) ==> (k in r.store <==> k in store)
    ensures forall k :: k != StorageKey(username) && k in store ==> r.store[k] == store[k]
  {
    var updated := [record] + GetRecords(store, username);
    if writeOk then SaveResult(store[StorageKey(username) := Records(updated)], updated)
    else SaveResult(store, [])
  }

  /** A successful save grows the user's list by exactly one, with the record at its head. */
  lemma SaveGrowsByOne(store: Store, username: string, record: KhataRecord)
    ensures var after := GetRecords(SaveRecord(store, username, record, true).store, username);
      |after| == |GetRecords(store, username)| + 1 && after[0] == record && after[1..] == GetRecords(store, username)
  {
  }

  /** Saving for one user leaves what every other user reads unchanged. */
  lemma SaveLeavesOtherUsers(store: Store, username: string, other: string, record: KhataRecord, writeOk: bool)
    requires other != username
    ensures GetRecords(SaveRecord(store, username, record, writeOk).store, other) == GetRecords(store, other)
  {
    if StorageKey(other) == StorageKey(username) {
      StorageKeyInjective(other, username);
    }
  }

  /** An unreadable list is replaced, not repaired: after a save the user has only the new record. */
  lemma SaveOverUnreadableKeepsOnlyNew(store: Store, username: string, record: KhataRecord)
    requires StorageKey(username) in store && store[StorageKey(username)].Unreadable?
    ensures GetRecords(SaveRecord(store, username, record, true).store, username) == [record]
  {
  }
}
