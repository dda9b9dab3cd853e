# TWImageBrowser page planning, in Dafny

TWImageBrowser is a UIKit carousel. It shows a horizontally paging list of
images or host-supplied views, either plainly (NORMAL) or as an endless
banner (BANNER). A banner pads the list with a copy of the last entry in
front and a copy of the first entry behind. This project models the part of
the widget that is not UIKit glue. It is the planning in `loadBrowser`:

- clamping the requested default page;
- building the render list, including the wrap-around banner list;
- choosing the slot the scroll view lands on;
- deciding whether the page control is hidden;
- tagging the placed views;
- the empty-list and nil-list fallbacks.

It also models the load-once guard of `layoutSubviews`, the rotation
machine driven by the orientation notifications (one flag, `isOrientation`,
and one stored page, `lastPage`), and the clamping
setters of `maximumScale` and `viewPadding`.

The model has three modules:

- `Items` (items.dfy): what the browser displays. `Item = View(id) | Image(id)`,
  and the duplicate a banner uses for an entry. An image is reused by
  reference. A view is replaced by the result of `copyView`, which is a
  parameter of type `nat -> Option<nat>` because its internals are outside
  the model.
- `Planning` (planning.dfy): pure functions for the clamp, the render list,
  the initial slot, the page-control flag and the tags.
- `Browser` (browser.dfy): the browser's state as a record, and the callbacks
  that change it. The scroll position is kept as the index of the slot shown.
  `self.currentPage` is a parameter of the will-change event. `movePage` is
  the move request that the did-change event returns.

Behaviour that follows the code closely:

- The banner page control is tested against the padded list
  (`objectList.count > 3` after the wrap). With both copies made, it is
  therefore shown exactly when the host allows it and there are at least two
  real pages.
- A one-item banner does not trap when the copy is made: the list becomes
  `a' | a | a'`.
- `objectList[1]` is read out of range only when the single item is a view
  whose copy fails. The model returns `Trapped` for that case.
- When the copy of the last view fails, the initial slot is still shifted by
  one (`Planning.InitialSlotWithoutHeadCopy`). Below the last page it shows
  the object after the default page. On the last page it shows the appended
  duplicate of the second object, or lies one past the end of the list when
  that view cannot be copied either.

## Model

| member | source | states |
|---|---|---|
| Items.Duplicate | TWImageBrowser/Classes/TWImageBrowser.swift:166-183 | A wrap duplicate is the same image, or a view copy made by `copyView`. No duplicate exists exactly when the entry is a view whose copy fails. |
| Planning.ClampPage | TWImageBrowser/Classes/TWImageBrowser.swift:140-149 | The default page is a valid index of a non-empty list, and it is the valid index nearest the host's request. |
| Planning.ClampPageCases | TWImageBrowser/Classes/TWImageBrowser.swift:142-148 | Negative requests give 0, requests at or past the end give n-1, and valid requests are kept. |
| Planning.PrependLast | TWImageBrowser/Classes/TWImageBrowser.swift:165-174 | The list gains one leading duplicate of the last object exactly when that duplicate can be made. Otherwise it is unchanged. |
| Planning.BannerList | TWImageBrowser/Classes/TWImageBrowser.swift:160-185 | With both copies made, the list has n+2 entries: slot 0 duplicates the last object, slots 1..n are the objects in order, slot n+1 duplicates the first. It traps only for one uncopyable view. With a head copy, the tail is appended iff the first object can be duplicated. Without a head copy, the list starts with the objects unchanged and gains at most one entry, a tail duplicate of the second object, exactly when that object can be duplicated. |
| Planning.RenderList | TWImageBrowser/Classes/TWImageBrowser.swift:153-185 | The render list has between n and n+2 entries and traps only for a banner of one uncopyable view. NORMAL keeps exactly the n objects. In NORMAL, and in BANNER with both copies made, the objects sit in order from the slot that page 0 lands on. A complete banner adds the two wrap duplicates around them. |
| Planning.InitialSlot | TWImageBrowser/Classes/TWImageBrowser.swift:151-188 | The first slot is the default page or the one after it, and it equals the default page exactly in NORMAL. |
| Planning.InitialSlotShowsDefaultPage | TWImageBrowser/Classes/TWImageBrowser.swift:151-188 | With a head duplicate (or in NORMAL), the initial slot is a valid index that shows the clamped default page's object. In BANNER it lies in [1, n], never on a wrap slot, whether or not the tail copy was made. |
| Planning.InitialSlotWithoutHeadCopy | TWImageBrowser/Classes/TWImageBrowser.swift:166-188 | If the last view cannot be copied, the banner's initial slot shows the object after the default page when that page is not the last. On the last page it shows the duplicate of the second object, or lies one past the list's end when that copy fails too. |
| Planning.PageControlHidden | TWImageBrowser/Classes/TWImageBrowser.swift:153-198 | The page control is shown iff the mode is BANNER, the host does not hide it, and the rendered list has at least four entries. |
| Planning.BannerPageControlShown | TWImageBrowser/Classes/TWImageBrowser.swift:194-198 | With a complete wrap, the page control is shown iff the host does not hide it and there are at least two pages. |
| Planning.TagFor | TWImageBrowser/Classes/TWImageBrowser.swift:214-231 | A tag is its slot index offset by the mode's first tag, so it is never negative and recovers the index. |
| Planning.Render | TWImageBrowser/Classes/TWImageBrowser.swift:207-240 | One placed view per render-list entry, in order. The view at index i is tagged i+1 in NORMAL and i in BANNER. |
| Planning.RenderTagsContiguous | TWImageBrowser/Classes/TWImageBrowser.swift:208-236 | Tags are pairwise distinct and cover exactly 1..n in NORMAL and 0..n-1 in BANNER, where n is the render-list length. |
| Browser.Place | TWImageBrowser/Classes/TWImageBrowser.swift:185-244 | Placing a render list makes it `imageObjects` and leaves the rotation fields alone. Placed into an empty browser, every view shows its slot's object. |
| Browser.LoadObjects | TWImageBrowser/Classes/TWImageBrowser.swift:139-244 | Loading a non-empty list traps exactly for a banner of one view that cannot be copied. Otherwise `imageObjects` becomes the render list and its tagged views are added. The offset goes to the initial slot of the clamped page, and the page control gets that page and the mode's hidden flag. The rotation fields are kept. |
| Browser.LoadBrowser | TWImageBrowser/Classes/TWImageBrowser.swift:130-268 | A load traps exactly on a banner of one uncopyable view. A non-empty list becomes the render list and its tagged views are added. The offset goes to the clamped page's initial slot, and the page control gets that page and the mode's hidden flag. A nil list with a background shows that image alone, tagged 1, with the page control hidden and its page and the offset untouched. Empty lists and nil lists without a background change nothing. Rotation fields are never touched. A load into an empty, consistent browser leaves every placed view showing its slot's object. |
| Browser.Layout | TWImageBrowser/Classes/TWImageBrowser.swift:82-97 | A layout pass leaves a browser with objects unchanged. From an empty browser it traps exactly when the load traps. It puts the render list, or the background image for a nil list, in `imageObjects`, or else changes nothing. The rotation fields are kept. |
| Browser.LayoutKeepsConsistent | TWImageBrowser/Classes/TWImageBrowser.swift:91-94 | Layout preserves the invariant that the placed views match `imageObjects` slot by slot. |
| Browser.LayoutLoadsOnce | TWImageBrowser/Classes/TWImageBrowser.swift:91-94 | After a pass that puts objects in place, another pass changes nothing, whatever the data source returns. |
| Browser.LoadNormal | TWImageBrowser/Classes/TWImageBrowser.swift:154-158 | NORMAL keeps the list unchanged, hides the page control, and starts on the clamped default page. That page is also the page control's current page. The new views are the tagged render list. |
| Browser.LoadBanner | TWImageBrowser/Classes/TWImageBrowser.swift:159-244 | BANNER with both copies made yields n+2 entries with the objects at 1..n. The first slot shows the default page. The page control gets the unshifted page, and it is hidden iff the host asks or n < 2. |
| Browser.LoadBackground | TWImageBrowser/Classes/TWImageBrowser.swift:245-267 | A nil list shows only the background image, tagged 1, with the page control hidden and the offset untouched. |
| Browser.FirstLayoutPlacesRenderList | TWImageBrowser/Classes/TWImageBrowser.swift:82-240 | The first layout of a fresh browser makes `imageObjects` the render list. Its placed views are exactly that list's tagged views, and their tags are contiguous from the mode's first tag. |
| Browser.WillChange | TWImageBrowser/Classes/TWImageBrowser.swift:290-294 | Will-change raises `isOrientation`, stores the current page in `lastPage`, and changes nothing else. |
| Browser.DidChange | TWImageBrowser/Classes/TWImageBrowser.swift:296-315 | Did-change is a no-op while the flag is down. Otherwise it lowers the flag and requests a move to `lastPage`, with nothing else changed. |
| Browser.RotationRoundTrip | TWImageBrowser/Classes/TWImageBrowser.swift:290-315 | Will-change then did-change requests the page shown at the start and lowers the flag. A second did-change does nothing. |
| Browser.WillChangeRecaptures | TWImageBrowser/Classes/TWImageBrowser.swift:290-294 | A second will-change simply re-captures the page. |
| Browser.SetMaximumScale | TWImageBrowser/Classes/TWImageBrowser.swift:46-52 | The stored zoom scale is the larger of the value and 1, and no other setting changes. |
| Browser.SetViewPadding | TWImageBrowser/Classes/TWImageBrowser.swift:54-60 | The stored padding is the larger of the value and 0, and no other setting changes. |
| Browser.SettersKeepAdmissibleValues | TWImageBrowser/Classes/TWImageBrowser.swift:46-60 | An already admissible scale or padding is stored unchanged. |

## Left out

- Geometry is not modelled: frames, content sizes, and the offsets in points
  at lines 102, 158, 188, 202-205, 248-249 and 301-310. These are
  floating-point layout; the model keeps only the slot index.
- Browser.SetMaximumScale: the value is a `real`, not a `CGFloat`, so neither
  rounding nor NaN is modelled. A NaN fails the test at line 48 and is
  stored, so "stored scale >= 1" does not hold for NaN in the source.
- Browser.SetViewPadding: the value is a `real`, not a `CGFloat`, so neither
  rounding nor NaN is modelled. A NaN fails the test at line 56 and is
  stored, so "stored padding >= 0" does not hold for NaN in the source.
- The auto-scroll timer is left out: `performSelector` and
  `cancelPreviousPerformRequestsWithTarget` at lines 86-89 and 328-334. It is
  run-loop plumbing with no state the browser keeps.
- Notification registration and removal (lines 271-288) are left out. The
  two handlers are modelled as events.
- UIKit construction is left out: `initializeScrollView`,
  `initializePageControl`, `setPageControlColor`, `scrollView.bounces`, and
  the zoom and content-mode settings of `TWImageView`. This is view
  configuration with nothing to state.
- `getImage` and `getBrowserViewList` are left out. They walk live subviews.
  `getImage` returns nil unless `0 < page <= totalPage` (line 355), and then
  returns the first image it finds among the subviews, whichever page was
  asked for.
- `currentPage`, `totalPage`, `movePage` and `nextPage` are defined outside
  this file, so their behaviour is not specified. `currentPage` is an input.
  `movePage` is the returned request. `numberOfPages := totalPage` (line 243)
  is not modelled.
- `UIView.copyView()` is an opaque parameter. Which copies fail, and whether
  a copy is a distinct object, is not modelled. Because the parameter is a
  function of the view's id, two copies of the same view always agree in the
  model. In a one-view banner, the copies at lines 168 and 178 are of the same
  view, so they both succeed or both fail, and the list never ends up with a
  head copy but no tail copy.
- Browser.Place: the model assumes the view objects in a list are distinct
  and new to the scroll view. Each placed image gets a new image view, but a
  host view is placed as itself (lines 210-216). A view object listed twice,
  or placed again on a reload after the host empties the public
  `imageObjects`, is one subview carrying the tag and frame of its last
  slot. The model instead records one slot per entry, so `Consistent` and
  the contiguous tags are promised only for distinct view objects.
- Placed slots are appended to the previously placed ones. Other subviews the
  scroll view may hold are not modelled.
