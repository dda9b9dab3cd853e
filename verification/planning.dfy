/**
 * The page and index planning that `loadBrowser` performs before it hands
 * anything to the view hierarchy: clamping the requested default page,
 * building the list to render, choosing the slot to land on, deciding
 * whether the page control shows, and numbering the placed views.
 */
module Planning {
  import opened Items

  /** TWImageBrowserType: the display mode, fixed for a browser's lifetime. */
  datatype Mode = Normal | Banner

  /** Distance between two integers. */
  function Dist(a: int, b: int): (d: nat)
  {
    if a >= b then a - b else b - a
  }

  /**
   * The default page the browser starts on: the host's request moved into
   * `[0, count - 1]`. Only called for a non-empty object list; the empty
   * list returns before the clamp.
   */
  function ClampPage(requested: int, count: nat): (page: nat)
    requires count > 0
    ensures page < count
    ensures forall k :: 0 <= k < count ==> Dist(page, requested) <= Dist(k, requested)
  {
    if requested < 0 then 0
    else if requested >= count then count - 1
    else requested
  }

  /**
   * The clamped page is the one valid page nearest the request: negative
   * requests give page 0, requests past the end give the last page, and a
   * valid request is kept.
   */
  lemma ClampPageCases(requested: int, count: nat)
    requires count > 0
    ensures requested < 0 ==> ClampPage(requested, count) == 0
    ensures requested >= count ==> ClampPage(requested, count) == count - 1
    ensures 0 <= requested < count ==> ClampPage(requested, count) == requested
  {
  }

  /** Banner mode, first step: a duplicate of the last object goes in front. */
  function PrependLast(objects: seq<Item>, copyView: CopyView): (head: seq<Item>)
    requires |objects| > 0
    ensures |objects| <= |head| <= |objects| + 1
    ensures |head| == |objects| + 1 <==> Duplicate(Last(objects), copyView).Some?
    ensures |head| == |objects| + 1 ==> IsCopyOf(head[0], Last(objects), copyView) && head[1..] == objects
    ensures |head| == |objects| ==> head == objects
  {
    match Duplicate(Last(objects), copyView)
    case Some(d) => [d] + objects
    case None => objects
  }

  /**
   * Banner mode: the wrap-around list. For objects 1, 2, 3 it is
   * 3' | 1 | 2 | 3 | 1'. A duplicate of the last object is prepended, then
   * a duplicate of whatever sits at index 1 of that list is appended. When
   * a view cannot be copied its duplicate is skipped; if that leaves a list
   * of one entry, reading index 1 traps, which is None here.
   */
  function BannerList(objects: seq<Item>, copyView: CopyView): (r: Option<seq<Item>>)
    requires |objects| > 0
    ensures r.None? <==> |objects| == 1 && Duplicate(objects[0], copyView).None?
    ensures r.Some? ==> |objects| <= |r.value| <= |objects| + 2
    ensures WrapComplete(objects, copyView) ==>
              && r.Some?
              && |r.value| == |objects| + 2
              && IsCopyOf(r.value[0], Last(objects), copyView)
              && r.value[1..|objects| + 1] == objects
              && IsCopyOf(r.value[|objects| + 1], objects[0], copyView)
    ensures Duplicate(Last(objects), copyView).Some? ==>
              && r.Some?
              && |r.value| >= |objects| + 1
              && r.value[0] == Duplicate(Last(objects), copyView).value
              && r.value[1..|objects| + 1] == objects
              && (|r.value| == |objects| + 2 <==> Duplicate(objects[0], copyView).Some?)
              && (|r.value| == |objects| + 2 ==> r.value[|objects| + 1] == Duplicate(objects[0], copyView).value)
    ensures r.Some? && Duplicate(Last(objects), copyView).None? ==>
              && |objects| > 1
              && |r.value| <= |objects| + 1
              && r.value[..|objects|] == objects
              && (|r.value| == |objects| + 1 <==> Duplicate(objects[1], copyView).Some?)
              && (|r.value| == |objects| + 1 ==> r.value[|objects|] == Duplicate(objects[1], copyView).value)
  {
    var head := PrependLast(objects, copyView);
    if |head| < 2 then None
    else
      match Duplicate(head[1], copyView)
      case Some(d) => Some(head + [d])
      case None => Some(head)
  }

  /** Both wrap duplicates of the banner list can be made. */
  predicate WrapComplete(objects: seq<Item>, copyView: CopyView)
    requires |objects| > 0
  {
    Duplicate(Last(objects), copyView).Some? && Duplicate(objects[0], copyView).Some?
  }

  /**
   * The list the browser renders: unchanged in normal mode, wrapped in
   * banner mode. Either way the real objects sit, in order, from the slot a
   * default page of 0 lands on.
   */
  function RenderList(mode: Mode, objects: seq<Item>, copyView: CopyView): (r: Option<seq<Item>>)
    requires |objects| > 0
    ensures r.None? <==> mode == Banner && |objects| == 1 && Duplicate(objects[0], copyView).None?
    ensures r.Some? ==> |objects| <= |r.value| <= |objects| + 2
    ensures mode == Normal ==> r.Some? && |r.value| == |objects|
    ensures mode == Banner && WrapComplete(objects, copyView) ==>
              && r.Some?
              && |r.value| == |objects| + 2
              && IsCopyOf(r.value[0], Last(objects), copyView)
              && IsCopyOf(r.value[|objects| + 1], objects[0], copyView)
    ensures mode == Normal || WrapComplete(objects, copyView) ==>
              && r.Some?
              && InitialSlot(mode, 0) + |objects| <= |r.value|
              && r.value[InitialSlot(mode, 0)..InitialSlot(mode, 0) + |objects|] == objects
  {
    match mode
    case Normal => Some(objects)
    case Banner => BannerList(objects, copyView)
  }

  /** The slot the scroll view lands on first; banner mode skips the synthetic head. */
  function InitialSlot(mode: Mode, defaultPage: nat): (slot: nat)
    ensures defaultPage <= slot <= defaultPage + 1
    ensures slot == defaultPage <==> mode == Normal
  {
    match mode
    case Normal => defaultPage
    case Banner => defaultPage + 1
  }

  /**
   * Whenever the banner list has its synthetic head (whether or not the
   * tail could be made), the initial slot holds the object of the default
   * page itself, never a wrap slot; in normal mode it is the default page's
   * own slot. `InitialSlotWithoutHeadCopy` covers the remaining banner loads.
   */
  lemma InitialSlotShowsDefaultPage(mode: Mode, objects: seq<Item>, copyView: CopyView, requested: int)
    requires |objects| > 0
    requires mode == Banner ==> Duplicate(Last(objects), copyView).Some?
    ensures var list := RenderList(mode, objects, copyView).value;
            var page := ClampPage(requested, |objects|);
            var slot := InitialSlot(mode, page);
            && slot < |list|
            && list[slot] == objects[page]
            && (mode == Banner ==> 1 <= slot <= |objects|)
  {
  }

  /**
   * As written, when the last object is a view that cannot be copied the
   * banner list has no synthetic head, yet the initial slot is still
   * shifted by one. Below the last page it shows the object after the
   * default page. On the last page it shows the appended duplicate of the
   * second object, or, when that view cannot be copied either, it lies one
   * past the end of the list.
   */
  lemma InitialSlotWithoutHeadCopy(objects: seq<Item>, copyView: CopyView, requested: int)
    requires |objects| > 1
    requires Duplicate(Last(objects), copyView).None?
    ensures var list := BannerList(objects, copyView).value;
            var page := ClampPage(requested, |objects|);
            var slot := InitialSlot(Banner, page);
            && (page + 1 < |objects| ==> list[slot] == objects[page + 1])
            && (page + 1 == |objects| && Duplicate(objects[1], copyView).Some? ==>
                  slot < |list| && list[slot] == Duplicate(objects[1], copyView).value)
            && (page + 1 == |objects| && Duplicate(objects[1], copyView).None? ==> slot == |list|)
  {
  }

  /**
   * Whether the page control is hidden once the render list is built.
   * Normal mode always hides it; banner mode hides it on the host's request
   * or when the rendered (padded) list has at most three entries.
   */
  function PageControlHidden(mode: Mode, hiddenPageControl: bool, rendered: nat): (hidden: bool)
    ensures !hidden <==> mode == Banner && !hiddenPageControl && rendered >= 4
  {
    match mode
    case Normal => true
    case Banner => hiddenPageControl || rendered <= 3
  }

  /**
   * Because the threshold is applied to the padded list, a completely
   * wrapped banner shows its page control exactly when the host allows it
   * and there are at least two real pages.
   */
  lemma BannerPageControlShown(objects: seq<Item>, copyView: CopyView, hiddenPageControl: bool)
    requires |objects| > 0
    requires WrapComplete(objects, copyView)
    ensures var list := BannerList(objects, copyView).value;
            !PageControlHidden(Banner, hiddenPageControl, |list|) <==> !hiddenPageControl && |objects| >= 2
  {
  }

  /** A view placed by the browser, with the tag it receives. */
  datatype Slot = Slot(item: Item, tag: int)

  /** The tag of the view at `index`: 1-based in normal mode, 0-based in banner mode. */
  function TagFor(mode: Mode, index: nat): (tag: int)
    ensures tag - FirstTag(mode) == index
    ensures tag >= 0
  {
    match mode
    case Normal => index + 1
    case Banner => index
  }

  /** The lowest tag a mode hands out. */
  function FirstTag(mode: Mode): (tag: int)
  {
    match mode
    case Normal => 1
    case Banner => 0
  }

  /**
   * The placement loop over the render list: one view per entry, in order,
   * each tagged by its index.
   */
  function Render(objects: seq<Item>, mode: Mode): (slots: seq<Slot>)
    ensures |slots| == |objects|
    ensures forall i :: 0 <= i < |objects| ==> slots[i].item == objects[i]
    ensures forall i :: 0 <= i < |objects| ==> slots[i].tag == FirstTag(mode) + i
    decreases |objects|
  {
    if |objects| == 0 then []
    else
      var n := |objects| - 1;
      Render(objects[..n], mode) + [Slot(objects[n], TagFor(mode, n))]
  }

  /** The tags carried by a sequence of placed views. */
  function Tags(slots: seq<Slot>): (tags: set<int>)
  {
    set i | 0 <= i < |slots| :: slots[i].tag
  }

  /**
   * The tags of the placed views are pairwise distinct and cover exactly
   * the contiguous range 1..n in normal mode and 0..n-1 in banner mode.
   */
  lemma RenderTagsContiguous(objects: seq<Item>, mode: Mode)
    ensures var slots := Render(objects, mode);
            forall i, j :: 0 <= i < j < |slots| ==> slots[i].tag != slots[j].tag
    ensures forall t :: t in Tags(Render(objects, mode)) <==> FirstTag(mode) <= t < FirstTag(mode) + |objects|
  {
    var slots := Render(objects, mode);
    var base := FirstTag(mode);
    forall t | base <= t < base + |objects|
      ensures t in Tags(slots)
    {
      assert slots[t - base].tag == t;
    }
  }
}
