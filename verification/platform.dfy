/**
 * The two browser globals the session layer touches: the `token` entry of
 * `localStorage` (the credential store) and `window.location.href`.
 */
module Platform {
  import opened Js

  class Browser {
    /** `localStorage.getItem('token')`: the stored token, or missing. */
    var token: Option<string>
    /** The page the browser was last sent to by assigning `window.location.href`. */
    var href: string

    constructor (stored: Option<string>, page: string)
      ensures token == stored && href == page
    {
      token := stored;
      href := page;
    }

    /** `localStorage.setItem('token', t)` overwrites the slot. */
    method SetToken(t: string)
      modifies this`token
      ensures token == Some(t)
    {
      token := Some(t);
    }

    /** `localStorage.removeItem('token')` empties the slot; removing twice is removing once. */
    method RemoveToken()
      modifies this`token
      ensures token == None
    {
      token := None;
    }

    /** `window.location.href = url` */
    method Assign(url: string)
      modifies this`href
      ensures href == url
    {
      href := url;
    }
  }
}
