/**
 * The browser's `sessionStorage`, shared by the API layer (which clears it
 * on an expired session), the login form (which writes the tokens) and the
 * route guard (which reads the access token). Keys and values are strings.
 */
module Session {
  import opened Js

  const AccessTokenKey := "accessToken"
  const RefreshTokenKey := "refreshToken"

  class SessionStore {
    var items: map<string, string>

    /** A store at the start of a browser session holds nothing. */
    constructor ()
      ensures items == map[]
    {
      items := map[];
    }

    /** `sessionStorage.getItem(key)`: `null` (here `None`) for a key never set. */
    function GetItem(key: string): (r: Option<string>)
      reads this
      ensures r.Some? <==> key in items
      ensures r.Some? ==> r.value == items[key]
    {
      if key in items then Some(items[key]) else None
    }

    /** `sessionStorage.setItem(key, value)` replaces or adds one entry. */
    method SetItem(key: string, value: string)
      modifies this
      ensures items == old(items)[key := value]
    {
      items := items[key := value];
    }

    /** `sessionStorage.clear()` removes every entry. */
    method Clear()
      modifies this
      ensures items == map[]
    {
      items := map[];
    }
  }
}
