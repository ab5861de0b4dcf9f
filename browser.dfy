/** The two pieces of browser state the client code touches: `localStorage`
    (where the login token is kept under the key "token") and
    `window.location.href`. */
module Browser {
  import opened Wrappers

  const TokenKey: string := "token"

  class LocalStorage {
    var items: map<string, string>

    constructor (items: map<string, string>)
      ensures this.items == items
    {
      this.items := items;
    }

    /** `localStorage.getItem(key)`: `null` when the key is absent. */
    function GetItem(key: string): (r: Option<string>)
      reads this
      ensures r.Some? <==> key in items
      ensures r.Some? ==> r.value == items[key]
    {
      if key in items then Some(items[key]) else None
    }

    /** `localStorage.removeItem(key)`: every other entry is kept. */
    method RemoveItem(key: string)
      modifies this
      ensures items == old(items) - {key}
    {
      items := items - {key};
    }
  }

  class Location {
    var href: string

    constructor (href: string)
      ensures this.href == href
    {
      this.href := href;
    }
  }
}
