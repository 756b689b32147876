/**
 * The device's key-value store. Values are kept as the JSON they were
 * serialised from: writing with `JSON.stringify` and reading back with
 * `JSON.parse` is taken to return the value that was written.
 */
module DeviceStorage {
  import opened Wrappers
  import opened JsonValues

  class Storage {
    var entries: map<string, Json>

    constructor ()
      ensures entries == map[]
    {
      entries := map[];
    }

    /** `getItem`, parsed: the stored value, or None when the key is absent. */
    function Get(key: string): Option<Json>
      reads this
    {
      if key in entries then Some(entries[key]) else None
    }

    method SetItem(key: string, value: Json)
      modifies this
      ensures entries == old(entries)[key := value]
    {
      entries := entries[key := value];
    }

    method RemoveItem(key: string)
      modifies this
      ensures entries == old(entries) - {key}
    {
      entries := entries - {key};
    }
  }
}
