/**
 * The toast hook (frontend/src/pages/Toast/useToast.tsx): a list of toasts,
 * appended to by `addToast` with the clock reading as id, filtered by
 * `removeToast`, and rendered one toast per entry.
 */
module Toast {
  import opened Common

  datatype ToastKind = Success | Error | Info | Warning

  datatype ToastItem = ToastItem(id: int, message: string, kind: ToastKind)

  /** What the container renders for one entry: its message and type, and the id its close button removes. */
  datatype ToastView = ToastView(message: string, kind: ToastKind, closes: int)

  function ViewOf(t: ToastItem): ToastView
  {
    ToastView(t.message, t.kind, t.id)
  }

  /** `toasts.map(t => <Toast …/>)`. */
  function Render(toasts: seq<ToastItem>): (views: seq<ToastView>)
  {
    if toasts == [] then [] else Render(toasts[..|toasts| - 1]) + [ViewOf(toasts[|toasts| - 1])]
  }

  /** One view per entry, in list order, each closing its own entry's id. */
  lemma {:induction false} RenderOnePerEntry(toasts: seq<ToastItem>)
    ensures |Render(toasts)| == |toasts|
    ensures forall i :: 0 <= i < |toasts| ==>
      Render(toasts)[i].message == toasts[i].message && Render(toasts)[i].kind == toasts[i].kind
      && Render(toasts)[i].closes == toasts[i].id
  {
    if toasts != [] {
      var init := toasts[..|toasts| - 1];
      RenderOnePerEntry(init);
      assert forall i :: 0 <= i < |init| ==> toasts[i] == init[i];
    }
  }

  /** `prev.filter(t => t.id !== id)`. */
  function Without(toasts: seq<ToastItem>, id: int): seq<ToastItem>
  {
    Filter(toasts, (t: ToastItem) => t.id != id)
  }

  /** Two toasts added in the same millisecond share an id, and one close removes both. */
  lemma SameMillisecondToastsCloseTogether(toasts: seq<ToastItem>, now: int, m1: string, m2: string)
    requires forall i :: 0 <= i < |toasts| ==> toasts[i].id != now
    ensures Without(toasts + [ToastItem(now, m1, Info)] + [ToastItem(now, m2, Info)], now) == toasts
  {
    var keep := (t: ToastItem) => t.id != now;
    var added := [ToastItem(now, m1, Info)] + [ToastItem(now, m2, Info)];
    assert toasts + [ToastItem(now, m1, Info)] + [ToastItem(now, m2, Info)] == toasts + added;
    FilterAppend(toasts, added, keep);
    FilterAppend([ToastItem(now, m1, Info)], [ToastItem(now, m2, Info)], keep);
    FilterSingle(ToastItem(now, m1, Info), keep);
    FilterSingle(ToastItem(now, m2, Info), keep);
    FilterKeepsAll(toasts, keep);
  }

  /** The hook's state. */
  class Toaster {
    var toasts: seq<ToastItem>

    constructor ()
      ensures toasts == []
    {
      toasts := [];
    }

    /** `addToast(message, type = "info")`, with `Date.now()` as the parameter `now`. */
    method AddToast(now: int, message: string, kind: Option<ToastKind>)
      modifies this
      ensures toasts == old(toasts) + [ToastItem(now, message, kind.GetOr(Info))]
    {
      toasts := toasts + [ToastItem(now, message, kind.GetOr(Info))];
    }

    /** `removeToast(id)`. */
    method RemoveToast(id: int)
      modifies this
      ensures toasts == Without(old(toasts), id)
    {
      toasts := Without(toasts, id);
    }

    function Container(): seq<ToastView>
      reads this
    {
      Render(toasts)
    }
  }
}
