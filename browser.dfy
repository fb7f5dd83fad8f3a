/**
 * The pieces of browser state the frontend reads and writes: `localStorage`
 * and the `authorization` cookie holding the bearer token, and the toasts
 * the pages show.
 */
module BrowserState {
  import opened JsText
  import opened JsValues

  /** A toast notification: its title, the value shown as its description, and whether it is the destructive variant. */
  datatype Toast = Toast(title: string, description: JsValue, destructive: bool)

  class Browser {
    /** `typeof window !== 'undefined'`: false while rendering on the server. */
    const hasWindow: bool
    /** `localStorage`, key to value. */
    var storage: map<string, string>
    /** The `authorization` cookie; `setToken` overwrites it. */
    var token: Option<string>

    constructor(hasWindow: bool, storage: map<string, string>, token: Option<string>)
      ensures this.hasWindow == hasWindow && this.storage == storage && this.token == token
    {
      this.hasWindow := hasWindow;
      this.storage := storage;
      this.token := token;
    }

    /** `setToken(t)` */
    method SetToken(t: string)
      modifies this
      ensures token == Some(t) && storage == old(storage)
    {
      token := Some(t);
    }
  }
}
