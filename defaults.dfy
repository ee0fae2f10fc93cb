/**
 * `UserDefaults.standard` as the app uses it: a flat dictionary from string
 * keys to string values, read with `string(forKey:)` and written with
 * `set(_:forKey:)`.
 */
module Defaults {
  import opened Wrappers

  class UserDefaults {
    var entries: map<string, string>

    constructor (initial: map<string, string>)
      ensures entries == initial
    {
      entries := initial;
    }

    /** `string(forKey:)`: the stored string, or nil for a key never set. */
    function StringForKey(key: string): (r: Option<string>)
      reads this
      ensures r.Some? <==> key in entries
      ensures r.Some? ==> r.value == entries[key]
    {
      if key in entries then Some(entries[key]) else None
    }

    /** `set(_:forKey:)`: stores `value` under `key`, every other entry unchanged. */
    method Set(value: string, key: string)
      modifies this
      ensures entries == old(entries)[key := value]
    {
      entries := entries[key := value];
    }
  }
}
