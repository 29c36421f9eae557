/**
 * The disclaimer wrapper (frontend/src/pages/alertmessage.tsx): on mount it
 * reads `disclaimer_shown` from local storage and shows a popup when the
 * key is unset; accepting stores `"true"` and hides the popup. Nothing is
 * rendered before the mount check.
 */
module Disclaimer {
  import opened Common

  const ShownKey := "disclaimer_shown"

  /** The browser's `localStorage`. */
  class LocalStorage {
    var items: map<string, string>

    constructor (initial: map<string, string>)
      ensures items == initial
    {
      items := initial;
    }

    /** `localStorage.setItem(key, value)`. */
    method SetItem(key: string, value: string)
      modifies this
      ensures items == old(items)[key := value]
    {
      items := items[key := value];
    }
  }

  /** What the wrapper renders: nothing, or the children with or without the popup over them. */
  datatype View = Nothing | Children(withPopup: bool)

  class DisclaimerWrapper {
    var loaded: bool
    var showPopup: bool

    constructor ()
      ensures !loaded && !showPopup
    {
      loaded, showPopup := false, false;
    }

    /**
     * The mount effect. `readFails` is a throwing `getItem`: the popup then
     * stays hidden, but the wrapper still counts as loaded, so the children
     * are shown.
     */
    method Mount(storage: LocalStorage, readFails: bool)
      requires !loaded && !showPopup
      modifies this
      ensures loaded
      ensures showPopup <==> !readFails && (ShownKey !in storage.items || storage.items[ShownKey] == "")
      ensures Render() == Children(!readFails && (ShownKey !in storage.items || storage.items[ShownKey] == ""))
    {
      if !readFails {
        var shown := if ShownKey in storage.items then Some(storage.items[ShownKey]) else None;
        if shown.None? || shown.value == "" {
          showPopup := true;
        }
      }
      loaded := true;
    }

    /**
     * `handleAccept`. `writeFails` is a throwing `setItem` (storage full or
     * disabled): the handler then stops before hiding the popup.
     */
    method Accept(storage: LocalStorage, writeFails: bool)
      modifies this, storage
      ensures writeFails ==> storage.items == old(storage.items) && showPopup == old(showPopup)
      ensures !writeFails ==> storage.items == old(storage.items)[ShownKey := "true"] && !showPopup
      ensures loaded == old(loaded)
      ensures !writeFails && loaded ==> Render() == Children(false)
    {
      if writeFails {
        return;
      }
      storage.SetItem(ShownKey, "true");
      showPopup := false;
    }

    /** The wrapper's output: nothing before the mount check, then the children, with the popup while it is shown. */
    function Render(): View
      reads this
    {
      if !loaded then Nothing else Children(showPopup)
    }
  }

  /** Once accepted, a later mount of a fresh wrapper (a reload) shows the children without the popup. */
  method AcceptThenReload(storage: LocalStorage, readFails: bool) returns (first: View, second: View)
    modifies storage
    ensures first == Children(!readFails && (ShownKey !in old(storage.items) || old(storage.items)[ShownKey] == ""))
    ensures second == Children(false)
    ensures storage.items == old(storage.items)[ShownKey := "true"]
  {
    var w := new DisclaimerWrapper();
    w.Mount(storage, readFails);
    first := w.Render();
    w.Accept(storage, false);
    var w2 := new DisclaimerWrapper();
    w2.Mount(storage, false);
    second := w2.Render();
  }
}
