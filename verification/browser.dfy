/**
 * The state a TWImageBrowser keeps between UIKit callbacks, and the
 * callbacks that change it: `loadBrowser` (through the load-once guard in
 * `layoutSubviews`), the two rotation notifications, and the clamping
 * setters of the zoom scale and the view padding. Geometry is not modelled:
 * the scroll position is recorded as the index of the slot it shows.
 */
module Browser {
  import opened Items
  import opened Planning

  /** Host configuration of the browser. */
  datatype Config = Config(
    mode: Mode,
    hiddenPageControl: bool,
    maximumScale: real,
    viewPadding: real)

  /**
   * What the data source answers: the object list (nil allowed), the
   * requested first page and the background image used when the list is nil.
   */
  datatype DataSource = DataSource(
    objects: Option<seq<Item>>,
    defaultPage: int,
    background: Option<nat>)

  /**
   * The browser's mutable state: the objects it renders (`imageObjects`),
   * the views placed in the scroll view with their tags, the slot the
   * scroll view shows, the page control's hidden flag and current page, and
   * the two fields of the rotation machine.
   */
  datatype Browser = Browser(
    imageObjects: seq<Item>,
    slots: seq<Slot>,
    offsetSlot: int,
    pageControlHidden: bool,
    pageControlPage: int,
    lastPage: int,
    isOrientation: bool)

  /** The state of a freshly initialised browser. */
  const Initial: Browser := Browser([], [], 0, false, 0, 1, false)

  /** A load either finishes or traps on the out-of-range `objectList[1]`. */
  datatype LoadResult = Loaded(browser: Browser) | Trapped

  /** Every placed view shows the rendered object of its slot. */
  predicate Consistent(b: Browser)
  {
    && |b.slots| == |b.imageObjects|
    && forall i :: 0 <= i < |b.slots| ==> b.slots[i].item == b.imageObjects[i]
  }

  /** The data source delivers a non-empty object list. */
  predicate HasObjects(source: Option<DataSource>)
  {
    source.Some? && source.value.objects.Some? && |source.value.objects.value| > 0
  }

  /** The data source has no object list but does have a background image. */
  predicate NilListWithBackground(source: Option<DataSource>)
  {
    source.Some? && source.value.objects.None? && source.value.background.Some?
  }

  /** A banner load of a single view that cannot be copied: the one trapping case. */
  predicate TrapsOnLoad(cfg: Config, source: Option<DataSource>, copyView: CopyView)
  {
    && HasObjects(source)
    && cfg.mode == Banner
    && |source.value.objects.value| == 1
    && Duplicate(source.value.objects.value[0], copyView).None?
  }

  /**
   * Placing a render list: it becomes `imageObjects`, its views are added
   * with their tags, the scroll view moves to the initial slot and the page
   * control is set. The rotation fields are not touched.
   */
  function Place(b: Browser, cfg: Config, list: seq<Item>, page: nat): (r: Browser)
    ensures r.imageObjects == list
    ensures r.lastPage == b.lastPage && r.isOrientation == b.isOrientation
    ensures Consistent(b) && |b.imageObjects| == 0 ==> Consistent(r)
  {
    b.(
      imageObjects := list,
      slots := b.slots + Render(list, cfg.mode),
      offsetSlot := InitialSlot(cfg.mode, page),
      pageControlHidden := PageControlHidden(cfg.mode, cfg.hiddenPageControl, |list|),
      pageControlPage := page)
  }

  /**
   * The non-empty branch of `loadBrowser`: clamp the default page, build
   * the render list and place it; traps only where the banner list does.
   */
  function LoadObjects(b: Browser, cfg: Config, objects: seq<Item>, defaultPage: int, copyView: CopyView): (r: LoadResult)
    requires |objects| > 0
    ensures r.Trapped? <==> cfg.mode == Banner && |objects| == 1 && Duplicate(objects[0], copyView).None?
    ensures r.Loaded? ==> r.browser.lastPage == b.lastPage && r.browser.isOrientation == b.isOrientation
    ensures r.Loaded? ==>
              var page := ClampPage(defaultPage, |objects|);
              && r.browser.imageObjects == RenderList(cfg.mode, objects, copyView).value
              && r.browser.slots == b.slots + Render(r.browser.imageObjects, cfg.mode)
              && r.browser.offsetSlot == InitialSlot(cfg.mode, page)
              && r.browser.pageControlPage == page
              && r.browser.pageControlHidden == PageControlHidden(cfg.mode, cfg.hiddenPageControl, |r.browser.imageObjects|)
    ensures Consistent(b) && |b.imageObjects| == 0 && r.Loaded? ==> Consistent(r.browser)
  {
    match RenderList(cfg.mode, objects, copyView)
    case None => Trapped
    case Some(list) => Loaded(Place(b, cfg, list, ClampPage(defaultPage, |objects|)))
  }

  /**
   * `loadBrowser`. A non-empty list is clamped, turned into the render
   * list, placed and numbered; an empty list changes nothing; a nil list
   * shows the background image alone, or nothing when there is none.
   */
  function LoadBrowser(b: Browser, cfg: Config, source: Option<DataSource>, copyView: CopyView): (r: LoadResult)
    ensures r.Trapped? <==> TrapsOnLoad(cfg, source, copyView)
    ensures r.Loaded? ==> r.browser.lastPage == b.lastPage && r.browser.isOrientation == b.isOrientation
    ensures source.Some? && source.value.objects == Some([]) ==> r == Loaded(b)
    ensures (source.None? || source.value.background.None?) && !HasObjects(source) ==> r == Loaded(b)
    ensures HasObjects(source) && r.Loaded? ==>
              var objects := source.value.objects.value;
              var page := ClampPage(source.value.defaultPage, |objects|);
              && r.browser.imageObjects == RenderList(cfg.mode, objects, copyView).value
              && r.browser.slots == b.slots + Render(r.browser.imageObjects, cfg.mode)
              && r.browser.offsetSlot == InitialSlot(cfg.mode, page)
              && r.browser.pageControlPage == page
              && r.browser.pageControlHidden == PageControlHidden(cfg.mode, cfg.hiddenPageControl, |r.browser.imageObjects|)
    ensures NilListWithBackground(source) ==>
              var background := Image(source.value.background.value);
              && r.Loaded?
              && r.browser.imageObjects == [background]
              && r.browser.slots == b.slots + [Slot(background, 1)]
              && r.browser.pageControlHidden
              && r.browser.offsetSlot == b.offsetSlot
              && r.browser.pageControlPage == b.pageControlPage
    ensures Consistent(b) && |b.imageObjects| == 0 && r.Loaded? ==> Consistent(r.browser)
  {
    if source.Some? && source.value.objects.Some? then
      var objects := source.value.objects.value;
      if |objects| == 0 then Loaded(b)
      else LoadObjects(b, cfg, objects, source.value.defaultPage, copyView)
    else if source.Some? && source.value.background.Some? then
      var background := Image(source.value.background.value);
      Loaded(b.(
        imageObjects := [background],
        slots := b.slots + [Slot(background, 1)],
        pageControlHidden := true))
    else
      Loaded(b)
  }

  /**
   * `layoutSubviews`: the browser loads only while it renders nothing, so
   * once objects are in place further layout passes leave it as it is.
   */
  function Layout(b: Browser, cfg: Config, source: Option<DataSource>, copyView: CopyView): (r: LoadResult)
    ensures |b.imageObjects| > 0 ==> r == Loaded(b)
    ensures r.Trapped? <==> |b.imageObjects| == 0 && TrapsOnLoad(cfg, source, copyView)
    ensures r.Loaded? ==> r.browser.lastPage == b.lastPage && r.browser.isOrientation == b.isOrientation
    ensures |b.imageObjects| == 0 && HasObjects(source) && r.Loaded? ==>
              r.browser.imageObjects == RenderList(cfg.mode, source.value.objects.value, copyView).value
    ensures |b.imageObjects| == 0 && NilListWithBackground(source) ==>
              r.Loaded? && r.browser.imageObjects == [Image(source.value.background.value)]
    ensures |b.imageObjects| == 0 && !HasObjects(source) && !NilListWithBackground(source) ==> r == Loaded(b)
  {
    if |b.imageObjects| == 0 then LoadBrowser(b, cfg, source, copyView) else Loaded(b)
  }

  /** Layout keeps every placed view showing the object of its slot. */
  lemma LayoutKeepsConsistent(b: Browser, cfg: Config, source: Option<DataSource>, copyView: CopyView)
    requires Consistent(b)
    ensures Layout(b, cfg, source, copyView).Loaded? ==> Consistent(Layout(b, cfg, source, copyView).browser)
  {
  }

  /**
   * Load once: after a layout pass that leaves objects in place, a second
   * pass, whatever the data source now says, changes nothing.
   */
  lemma LayoutLoadsOnce(b: Browser, cfg: Config, source: Option<DataSource>, source': Option<DataSource>, copyView: CopyView)
    requires Layout(b, cfg, source, copyView).Loaded?
    requires |Layout(b, cfg, source, copyView).browser.imageObjects| > 0
    ensures var b' := Layout(b, cfg, source, copyView).browser;
            Layout(b', cfg, source', copyView) == Loaded(b')
  {
  }

  /**
   * A normal-mode load renders the list unchanged, hides the page control,
   * tags the views 1..n and starts on the clamped default page.
   */
  lemma LoadNormal(b: Browser, cfg: Config, source: Option<DataSource>, copyView: CopyView)
    requires cfg.mode == Normal && HasObjects(source)
    ensures var objects := source.value.objects.value;
            var page := ClampPage(source.value.defaultPage, |objects|);
            var r := LoadBrowser(b, cfg, source, copyView);
            && r.Loaded?
            && r.browser.imageObjects == objects
            && r.browser.pageControlHidden
            && r.browser.offsetSlot == page == r.browser.pageControlPage
            && r.browser.imageObjects[r.browser.offsetSlot] == objects[page]
            && r.browser.slots[|b.slots|..] == Render(objects, Normal)
  {
  }

  /**
   * A banner load whose wrap duplicates can be made renders n+2 entries
   * with the real objects at slots 1..n, lands on the real object of the
   * clamped default page, points the page control at that page (not the
   * shifted slot) and shows the page control iff the host allows it and
   * there are at least two pages.
   */
  lemma LoadBanner(b: Browser, cfg: Config, source: Option<DataSource>, copyView: CopyView)
    requires cfg.mode == Banner && HasObjects(source)
    requires WrapComplete(source.value.objects.value, copyView)
    ensures var objects := source.value.objects.value;
            var n := |objects|;
            var page := ClampPage(source.value.defaultPage, n);
            var r := LoadBrowser(b, cfg, source, copyView);
            && r.Loaded?
            && |r.browser.imageObjects| == n + 2
            && r.browser.imageObjects[1..n + 1] == objects
            && IsCopyOf(r.browser.imageObjects[0], Last(objects), copyView)
            && IsCopyOf(r.browser.imageObjects[n + 1], objects[0], copyView)
            && 1 <= r.browser.offsetSlot <= n
            && r.browser.imageObjects[r.browser.offsetSlot] == objects[page]
            && r.browser.pageControlPage == page
            && (r.browser.pageControlHidden <==> cfg.hiddenPageControl || n < 2)
  {
    var objects := source.value.objects.value;
    InitialSlotShowsDefaultPage(Banner, objects, copyView, source.value.defaultPage);
    BannerPageControlShown(objects, copyView, cfg.hiddenPageControl);
  }

  /**
   * A nil object list shows the background image alone, tagged 1, with the
   * page control hidden.
   */
  lemma LoadBackground(b: Browser, cfg: Config, source: Option<DataSource>, copyView: CopyView)
    requires NilListWithBackground(source)
    ensures var r := LoadBrowser(b, cfg, source, copyView);
            var background := Image(source.value.background.value);
            && r.Loaded?
            && r.browser.imageObjects == [background]
            && r.browser.slots == b.slots + [Slot(background, 1)]
            && r.browser.pageControlHidden
            && r.browser.offsetSlot == b.offsetSlot
  {
  }

  /**
   * From a fresh browser, a first layout pass that does not trap loads the
   * render list and places exactly its tagged views, tagged contiguously
   * from the mode's first tag.
   */
  lemma FirstLayoutPlacesRenderList(cfg: Config, source: Option<DataSource>, copyView: CopyView)
    requires HasObjects(source) && !TrapsOnLoad(cfg, source, copyView)
    ensures var b := Layout(Initial, cfg, source, copyView).browser;
            && b.imageObjects == RenderList(cfg.mode, source.value.objects.value, copyView).value
            && b.slots == Render(b.imageObjects, cfg.mode)
            && Consistent(b)
            && forall t :: t in Tags(b.slots) <==> FirstTag(cfg.mode) <= t < FirstTag(cfg.mode) + |b.imageObjects|
  {
    var b := Layout(Initial, cfg, source, copyView).browser;
    assert b.slots == [] + Render(b.imageObjects, cfg.mode);
    RenderTagsContiguous(b.imageObjects, cfg.mode);
  }

  /** `statusBarOrientationWillChange`: remember the current page and raise the flag. */
  function WillChange(b: Browser, currentPage: int): (r: Browser)
    ensures r.isOrientation && r.lastPage == currentPage
    ensures r.(lastPage := b.lastPage, isOrientation := b.isOrientation) == b
  {
    b.(lastPage := currentPage, isOrientation := true)
  }

  /**
   * `orientationDidChange`: only while the flag is raised, lower it and
   * request a move to the remembered page; the request is the second
   * component of the result.
   */
  function DidChange(b: Browser): (r: (Browser, Option<int>))
    ensures !b.isOrientation ==> r == (b, None)
    ensures b.isOrientation ==> !r.0.isOrientation && r.1 == Some(b.lastPage)
    ensures r.0.(isOrientation := b.isOrientation) == b
  {
    if b.isOrientation then (b.(isOrientation := false), Some(b.lastPage)) else (b, None)
  }

  /**
   * A rotation round trip requests a move back to the page shown when it
   * began, and leaves the flag lowered; a second did-change without a new
   * will-change does nothing.
   */
  lemma RotationRoundTrip(b: Browser, currentPage: int)
    ensures var (b', move) := DidChange(WillChange(b, currentPage));
            && move == Some(currentPage)
            && !b'.isOrientation
            && b'.(lastPage := b.lastPage, isOrientation := b.isOrientation) == b
            && DidChange(b') == (b', None)
  {
  }

  /** A will-change arriving while the flag is raised re-captures the page. */
  lemma WillChangeRecaptures(b: Browser, p: int, q: int)
    ensures WillChange(WillChange(b, p), q) == WillChange(b, q)
  {
  }

  /**
   * The `maximumScale` setter: values below 1 become 1. The stored scale is
   * the larger of the value and 1; nothing else changes.
   */
  function SetMaximumScale(cfg: Config, value: real): (r: Config)
    ensures r.maximumScale >= 1.0 && r.maximumScale >= value
    ensures r.maximumScale == value || r.maximumScale == 1.0
    ensures r.(maximumScale := cfg.maximumScale) == cfg
  {
    cfg.(maximumScale := if value < 1.0 then 1.0 else value)
  }

  /**
   * The `viewPadding` setter: negative values become 0. The stored padding
   * is the larger of the value and 0; nothing else changes.
   */
  function SetViewPadding(cfg: Config, value: real): (r: Config)
    ensures r.viewPadding >= 0.0 && r.viewPadding >= value
    ensures r.viewPadding == value || r.viewPadding == 0.0
    ensures r.(viewPadding := cfg.viewPadding) == cfg
  {
    cfg.(viewPadding := if value < 0.0 then 0.0 else value)
  }

  /** Setting an already admissible value stores it unchanged. */
  lemma SettersKeepAdmissibleValues(cfg: Config, scale: real, padding: real)
    requires scale >= 1.0 && padding >= 0.0
    ensures SetMaximumScale(cfg, scale).maximumScale == scale
    ensures SetViewPadding(cfg, padding).viewPadding == padding
  {
  }
}
