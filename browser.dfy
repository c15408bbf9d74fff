/**
 * The host environment the client code runs in: whether a browser `window`
 * exists (it does not during server rendering), and the browser's
 * `localStorage`, a string-to-string store that outlives page loads.
 */
module Browser {
  import opened Wrappers

  class Host {
    /** `typeof window !== 'undefined'`. */
    const hasWindow: bool
    /** The contents of `localStorage`. */
    var localStorage: map<string, string>

    constructor (hasWindow: bool, initial: map<string, string>)
      ensures this.hasWindow == hasWindow && localStorage == initial
    {
      this.hasWindow := hasWindow;
      localStorage := initial;
    }

    /** What `localStorage.getItem(key)` answers: the stored value, or `null`. */
    function Item(key: string): (v: Option<string>)
      reads this
      ensures v.Some? <==> key in localStorage
      ensures v.Some? ==> v.value == localStorage[key]
    {
      if key in localStorage then Some(localStorage[key]) else None
    }

    /** `localStorage.getItem(key)`; `localStorage` only exists where there is a window. */
    method GetItem(key: string) returns (v: Option<string>)
      requires hasWindow
      ensures v == Item(key)
    {
      v := if key in localStorage then Some(localStorage[key]) else None;
    }

    /** `localStorage.setItem(key, value)`. */
    method SetItem(key: string, value: string)
      requires hasWindow
      modifies this
      ensures localStorage == old(localStorage)[key := value]
    {
      localStorage := localStorage[key := value];
    }

    /** `localStorage.removeItem(key)`; removing an absent key changes nothing. */
    method RemoveItem(key: string)
      requires hasWindow
      modifies this
      ensures localStorage == old(localStorage) - {key}
    {
      localStorage := localStorage - {key};
    }
  }
}
