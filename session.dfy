/** The user document the pages exchange with the remote API, the process-wide
    session store that holds the signed-in user, and the browser's local storage. */
module Session {
  import opened Common

  /** One emergency contact as the dashboard edits it. */
  datatype Contact = Contact(name: string, phone: string)

  /** A latitude or longitude as the page holds it: `null` before any fix, otherwise a
      number. Only its JavaScript truthiness matters to the pages. */
  datatype Coord = NoFix | Degrees(value: real)

  /** `!coord`: `null` and `0` are falsy. */
  predicate Falsy(c: Coord) {
    c.NoFix? || c.value == 0.0
  }

  datatype Location = Location(lat: Coord, lon: Coord)

  /** The user document returned by the API (`_id` is `id` here). */
  datatype User = User(
    id: string,
    name: string,
    email: string,
    bloodType: string,
    medicalHistory: string,
    emergencyContacts: seq<Contact>,
    qrCode: Option<string>,
    location: Option<Location>)

  /** The persisted store: one `user` slot that `setUser` replaces (last writer wins). */
  class SessionStore {
    var user: Option<User>

    /** A page load restores whatever the persisted copy held. */
    constructor (restored: Option<User>)
      ensures user == restored
    {
      user := restored;
    }

    method SetUser(u: Option<User>)
      modifies this
      ensures user == u
    {
      user := u;
    }
  }

  /** `window.localStorage`: string keys to string values. */
  class LocalStorage {
    var items: map<string, string>

    constructor (initial: map<string, string>)
      ensures items == initial
    {
      items := initial;
    }

    /** `getItem(key)`: `null` (here `None`) for a key never set. */
    function GetItem(key: string): (r: Option<string>)
      reads this
      ensures r.Some? <==> key in items
      ensures r.Some? ==> r.value == items[key]
    {
      if key in items then Some(items[key]) else None
    }

    method SetItem(key: string, value: string)
      modifies this
      ensures items == old(items)[key := value]
      ensures GetItem(key) == Some(value)
    {
      items := items[key := value];
    }
  }
}
