/**
 * What the components can observe or change outside React state: the browser's
 * `localStorage`, and an ordered log of the outward actions they take (HTTP requests,
 * router navigation, `window.location` changes, alerts, and calls of a parent's `close`).
 */
module Browser {
  import opened Js

  datatype Method = GET | POST | PUT | PATCH | DELETE

  /** One query parameter, in the order the object literal lists it. */
  datatype Param = Param(name: string, value: JsValue)

  datatype Request = Request(verb: Method, path: string, params: seq<Param>, body: JsValue)

  datatype Effect =
    | Send(request: Request)
    | Navigate(to: string)      // react-router `navigate(to)`
    | SetHref(href: string)     // `window.location.href = href`
    | Reload                    // `window.location.reload()`
    | Alert(message: string)
    | Close                     // the `close` callback a form receives from its parent

  /** `localStorage` holds the parsed value stored under each key. */
  class Browser {
    var storage: map<string, JsValue>
    var effects: seq<Effect>

    constructor (storage: map<string, JsValue>)
      ensures this.storage == storage && effects == []
    {
      this.storage := storage;
      effects := [];
    }
  }

  /** A GET request with query parameters and no body. */
  function Get(path: string, params: seq<Param>): Request {
    Request(GET, path, params, Undefined)
  }

  /** `localStorage.getItem("user")` followed by `JSON.parse`, `null` when absent. */
  function StoredUser(storage: map<string, JsValue>): JsValue {
    if "user" in storage then storage["user"] else Null
  }
}
