/** The browser's `localStorage`, as the two components use it: a map from
    string keys to string values, read with `getItem` (null when absent). */
module BrowserStorage {
  import opened Outcomes

  type Storage = map<string, string>

  /** The four keys the dashboard writes on login. */
  const AccessTokenKey := "accesstoken"
  const UsernameKey := "username"
  const EmailKey := "email"
  const ProfilePicKey := "profilepic"

  /** `localStorage.getItem(key)`: the stored string, or null. */
  function GetItem(st: Storage, key: string): Option<string> {
    if key in st then Some(st[key]) else None
  }

  /** JavaScript truthiness of a `getItem` result: null and "" are falsy. */
  predicate Truthy(v: Option<string>) {
    v.Some? && v.value != ""
  }

  /** `localStorage.getItem(key) || ""`. */
  function GetOrEmpty(st: Storage, key: string): (v: string)
    ensures Truthy(GetItem(st, key)) ==> v == st[key]
    ensures !Truthy(GetItem(st, key)) ==> v == ""
  {
    match GetItem(st, key)
    case Some(s) => s
    case None => ""
  }

  /** Whether `if (token)` passes for the stored access token. */
  predicate HasToken(st: Storage) {
    Truthy(GetItem(st, AccessTokenKey))
  }
}
