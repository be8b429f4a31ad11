/** The browser's origin-scoped key-value store (`localStorage`).
    Values are kept as records: serialising to JSON and parsing back is
    taken to be the identity. */
module WebStorage {
  import opened Records

  type Items = map<string, Character>

  /** `getItem`: the stored record, or nothing for a key never written. */
  function GetItem(items: Items, key: string): Option<Character>
  {
    if key in items then Some(items[key]) else None
  }

  class Storage {
    var items: Items

    constructor ()
      ensures items == map[]
    {
      items := map[];
    }

    /** `setItem`: overwrites the entry for `key` and touches no other. */
    method SetItem(key: string, value: Character)
      modifies this
      ensures items == old(items)[key := value]
    {
      items := items[key := value];
    }
  }
}
