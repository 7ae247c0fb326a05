/**
 * The browser's local storage, reduced to what the client uses: one shared
 * map from string keys to string values, holding the two credential tokens.
 */
module Storage {
  import opened Wrappers

  const AccessTokenKey: string := "access_token"
  const RefreshTokenKey: string := "refresh_token"

  class TokenStore {
    var entries: map<string, string>

    constructor ()
      ensures entries == map[]
    {
      entries := map[];
    }

    /** `localStorage.getItem(key)`: `null` when the key is missing. */
    function GetItem(key: string): (v: Option<string>)
      reads this
      ensures v.Some? <==> key in entries
      ensures v.Some? ==> v.value == entries[key]
    {
      if key in entries then Some(entries[key]) else None
    }

    /** `localStorage.setItem(key, value)` */
    method SetItem(key: string, value: string)
      modifies this
      ensures entries == old(entries)[key := value]
    {
      entries := entries[key := value];
    }

    /** `localStorage.removeItem(key)` */
    method RemoveItem(key: string)
      modifies this
      ensures entries == old(entries) - {key}
    {
      entries := entries - {key};
    }
  }

  /** The store after both tokens are removed, as every sign-out path does. */
  function Cleared(entries: map<string, string>): (r: map<string, string>)
    ensures AccessTokenKey !in r && RefreshTokenKey !in r
    ensures forall k :: k in entries && k != AccessTokenKey && k != RefreshTokenKey ==> k in r && r[k] == entries[k]
    ensures r.Keys <= entries.Keys
  {
    entries - {AccessTokenKey, RefreshTokenKey}
  }
}
