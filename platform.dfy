/** The browser globals the client touches: whether `window` exists (it does
    not while rendering on the server), `localStorage` as a map from keys to
    strings, and every assignment to `window.location.href`. Toast
    notifications are recorded as values. */
module Platform {
  import opened Wrappers

  datatype Toast = ToastSuccess(message: string) | ToastError(message: string) | ToastInfo(message: string)

  class Browser {
    const hasWindow: bool
    var localStorage: map<string, string>
    var navigations: seq<string>

    constructor (hasWindow: bool, localStorage: map<string, string>)
      ensures this.hasWindow == hasWindow && this.localStorage == localStorage && navigations == []
    {
      this.hasWindow := hasWindow;
      this.localStorage := localStorage;
      navigations := [];
    }

    /** `localStorage.getItem(key)`: `null` for a missing key. */
    function GetItem(key: string): Option<string>
      reads this
    {
      if key in localStorage then Some(localStorage[key]) else None
    }

    /** `window.location.href = href`. */
    method Navigate(href: string)
      modifies this
      ensures navigations == old(navigations) + [href] && localStorage == old(localStorage)
    {
      navigations := navigations + [href];
    }
  }
}
