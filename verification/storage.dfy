/** The browser's key-value store, with JSON kept abstract.

    A stored value is either plain text (a token, the string "true", or text
    that does not parse as the expected JSON) or the encoding of a value the
    application wrote: a list of scan records or a user object. Decoding the
    encoding of a value gives that value back; decoding plain text fails. */
module Storage {
  import opened Types

  datatype Value =
    | Text(s: string)
    | ScanList(scans: seq<ScanRecord>)
    | UserObject(user: User)

  type Store = map<string, Value>

  const PendingScansKey: string := "snapfood_pending_scans"
  const OfflineModeKey: string := "snapfood_offline_mode"
  const UserKey: string := "snapfood_user"
  const TokenKey: string := "snapfood_token"

  /** `localStorage.getItem`: null for a missing key. */
  function GetItem(st: Store, key: string): (r: Option<Value>)
    ensures r.Some? <==> key in st
    ensures r.Some? ==> r.value == st[key]
  {
    if key in st then Some(st[key]) else None
  }

  /** `localStorage.setItem`: overwrites one key, leaves every other key. */
  function SetItem(st: Store, key: string, v: Value): (r: Store)
    ensures key in r && r[key] == v
    ensures forall k :: k != key ==> (k in r <==> k in st)
    ensures forall k :: k != key && k in st ==> r[k] == st[k]
  {
    st[key := v]
  }

  /** `localStorage.removeItem`: removing a missing key changes nothing. */
  function RemoveItem(st: Store, key: string): (r: Store)
    ensures key !in r
    ensures forall k :: k != key ==> (k in r <==> k in st)
    ensures forall k :: k != key && k in st ==> r[k] == st[k]
    ensures key !in st ==> r == st
  {
    st - {key}
  }

  /** JavaScript truthiness of a `getItem` result: null and the empty string
      are falsy. Every JSON encoding is non-empty text, hence truthy. */
  predicate Truthy(v: Option<Value>) {
    v.Some? && v.value != Text("")
  }

  /** `JSON.parse` of the pending-scans snapshot. */
  function ParseScans(v: Value): (r: Option<seq<ScanRecord>>)
    ensures r.Some? <==> v.ScanList?
  {
    match v
    case ScanList(q) => Some(q)
    case _ => None
  }

  /** `JSON.parse` of the stored user. */
  function ParseUser(v: Value): (r: Option<User>)
    ensures r.Some? <==> v.UserObject?
  {
    match v
    case UserObject(u) => Some(u)
    case _ => None
  }

  /** Decoding undoes encoding, and plain text never decodes. */
  lemma ParseRoundTrip(q: seq<ScanRecord>, u: User, s: string)
    ensures ParseScans(ScanList(q)) == Some(q)
    ensures ParseUser(UserObject(u)) == Some(u)
    ensures ParseScans(Text(s)).None? && ParseUser(Text(s)).None?
    ensures Truthy(Some(ScanList(q))) && Truthy(Some(UserObject(u)))
  {
  }
}
