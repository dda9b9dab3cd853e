/**
 * The objects a TWImageBrowser displays, and how the browser duplicates
 * them when it builds the wrap-around list of banner mode.
 */
module Items {

  /** A Swift optional: either no value, or exactly one. */
  datatype Option<+T> = None | Some(value: T)

  /**
   * One entry of the data source's object list. The list is `[AnyObject]` in
   * the browser: an entry is either a host-supplied view, placed as it is,
   * or an image payload, wrapped in a zoomable image view. Only identities
   * matter to the planning logic.
   */
  datatype Item = View(id: nat) | Image(id: nat)

  /**
   * `UIView.copyView()`: maps the identity of a view to the identity of an
   * independent copy of it, or to None when the copy cannot be made. Its
   * internals are not part of this model.
   */
  type CopyView = nat -> Option<nat>

  /**
   * `d` may stand in for `orig` at a wrap slot: an image payload is reused
   * by reference, a view is replaced by the copy that `copyView` makes.
   */
  predicate IsCopyOf(d: Item, orig: Item, copyView: CopyView)
  {
    match orig
    case Image(_) => d == orig
    case View(v) => d.View? && copyView(v) == Some(d.id)
  }

  /** The duplicate the banner list uses for `orig`, if one can be made. */
  function Duplicate(orig: Item, copyView: CopyView): (r: Option<Item>)
    ensures r.Some? ==> IsCopyOf(r.value, orig, copyView)
    ensures r.None? <==> orig.View? && copyView(orig.id).None?
  {
    match orig
    case Image(_) => Some(orig)
    case View(v) =>
      match copyView(v)
      case Some(c) => Some(View(c))
      case None => None
  }

  /** The last element of a non-empty list (`objectList.last`). */
  function Last<T>(s: seq<T>): (last: T)
    requires |s| > 0
  {
    s[|s| - 1]
  }
}
