/** The browser's persisted key/value store (`localStorage`) as far as the
    client uses it: string keys to string values. */
module Storage {
  import opened Types

  /** The key the session provider keeps its access token under. */
  const TokenKey := "token"
  /** The key the request and response interceptors read and write. */
  const AccessTokenKey := "accessToken"
  const RefreshTokenKey := "refreshToken"

  /** `getItem`: the stored value, or `null`. */
  function Get(items: map<string, string>, key: string): (v: Option<string>)
    ensures v.Some? <==> key in items
    ensures v.Some? ==> v.value == items[key]
  {
    if key in items then Some(items[key]) else None
  }

  class TokenStore {
    var items: map<string, string>

    constructor (initial: map<string, string>)
      ensures items == initial
    {
      items := initial;
    }

    method GetItem(key: string) returns (v: Option<string>)
      ensures v == Get(items, key)
    {
      v := if key in items then Some(items[key]) else None;
    }

    method SetItem(key: string, value: string)
      modifies this
      ensures items == old(items)[key := value]
    {
      items := items[key := value];
    }

    method RemoveItem(key: string)
      modifies this
      ensures items == old(items) - {key}
    {
      items := items - {key};
    }
  }
}
