/** The comic pager (frontend/s/comic.js): a `Comic` lays its pages out on
    the canvas, keeps a bounded set of them loaded around the current page,
    and points the camera at the current page or at one of its viewpoints
    (panels), moving page by page or viewpoint by viewpoint. */
module ComicPager {
  import opened Common
  import opened ComicLayout
  import opened ComicCache
  import opened Canvas

  /** A viewpoint, as fractions of its page's element size. */
  datatype Viewpoint = Viewpoint(x: real, y: real, w: real, h: real)

  /** The metadata a comic is built from: the image size of every page
      (absent entries are pages still streaming in), the reading direction
      ("" when unset), and for every page its viewpoint list, if any. */
  datatype Meta = Meta(pages: Option<seq<Option<Size>>>, direction: string,
                       viewpoints: Option<seq<Option<seq<Viewpoint>>>>)

  /** The rectangle handed to the camera, and the scroll target. */
  datatype Focus = Focus(x1: real, y1: real, x2: real, y2: real, fx: real, fy: real)

  /** Every page image size is known and positive, and there is at least
      one page (the layout starts from page 0). */
  predicate PagesKnown(pages: seq<Option<Size>>) {
    && |pages| > 0
    && forall i :: 0 <= i < |pages| ==> pages[i].Some? && pages[i].value.w > 0.0 && pages[i].value.h > 0.0
  }

  /** Every viewpoint has a positive extent. */
  predicate ViewpointsPositive(vps: seq<Option<seq<Viewpoint>>>) {
    forall i, j :: 0 <= i < |vps| && vps[i].Some? && 0 <= j < |vps[i].value| ==>
      vps[i].value[j].w > 0.0 && vps[i].value[j].h > 0.0
  }

  /** `this._Viewpoints[page]`: an index outside the list reads as undefined. */
  function ViewpointsOf(vps: seq<Option<seq<Viewpoint>>>, page: int): Option<seq<Viewpoint>> {
    if 0 <= page < |vps| then vps[page] else None
  }

  /** The guards of `SetPage`: the page exists and, when a viewpoint is
      asked for, the page has a viewpoint list and the index is inside it. */
  predicate Accepts(total: int, vps: seq<Option<seq<Viewpoint>>>, page: int, vp: Option<int>) {
    && 0 <= page < total
    && (vp.Some? ==> ViewpointsOf(vps, page).Some? && 0 <= vp.value < |ViewpointsOf(vps, page).value|)
  }

  /** `_SetFocus`: the whole page, or the viewpoint scaled to the page's
      element size, shifted by the comic's canvas offset; the scroll target
      is the page's leading corner along the reading direction. */
  function FocusOf(r: Rect, s: Size, ox: real, oy: real, dx: int, dy: int, v: Option<Viewpoint>): (f: Focus)
    ensures v.None? ==> f.x2 - f.x1 == r.x2 - r.x1 && f.y2 - f.y1 == r.y2 - r.y1
    ensures v.Some? && s.w > 0.0 && v.value.w > 0.0 ==> f.x2 > f.x1
    ensures v.Some? && s.h > 0.0 && v.value.h > 0.0 ==> f.y2 > f.y1
  {
    var fx := (if dx >= 0 then r.x1 else r.x2) + ox;
    var fy := (if dy >= 0 then r.y1 else r.y2) + oy;
    match v
    case None => Focus(r.x1 + ox, r.y1 + oy, r.x2 + ox, r.y2 + oy, fx, fy)
    case Some(vp) =>
      var x := vp.x * s.w + (r.x1 + ox);
      var y := vp.y * s.h + (r.y1 + oy);
      Focus(x, y, x + vp.w * s.w, y + vp.h * s.h, fx, fy)
  }

  /** A viewpoint inside the unit square is focused inside its page, and
      the scroll target is the page corner the reading direction starts
      from (the right edge for right-to-left, the bottom for upwards). */
  lemma FocusInsidePage(r: Rect, s: Size, ox: real, oy: real, dx: int, dy: int, v: Viewpoint)
    requires r.x2 - r.x1 == s.w && r.y2 - r.y1 == s.h && s.w > 0.0 && s.h > 0.0
    requires 0.0 <= v.x && 0.0 < v.w && v.x + v.w <= 1.0
    requires 0.0 <= v.y && 0.0 < v.h && v.y + v.h <= 1.0
    ensures var f := FocusOf(r, s, ox, oy, dx, dy, Some(v));
            && r.x1 + ox <= f.x1 < f.x2 <= r.x2 + ox
            && r.y1 + oy <= f.y1 < f.y2 <= r.y2 + oy
            && f.fx == (if dx >= 0 then r.x1 + ox else r.x2 + ox)
            && f.fy == (if dy >= 0 then r.y1 + oy else r.y2 + oy)
  {
    FocusOfViewpoint(r, s, ox, oy, dx, dy, v);
    ScaledWithin(v.x, v.w, s.w, r.x1 + ox, r.x2 + ox);
    ScaledWithin(v.y, v.h, s.h, r.y1 + oy, r.y2 + oy);
  }

  /** The focus of a viewpoint, corner by corner. */
  lemma FocusOfViewpoint(r: Rect, s: Size, ox: real, oy: real, dx: int, dy: int, v: Viewpoint)
    ensures var f := FocusOf(r, s, ox, oy, dx, dy, Some(v));
            && f.x1 == v.x * s.w + (r.x1 + ox) && f.x2 == v.x * s.w + (r.x1 + ox) + v.w * s.w
            && f.y1 == v.y * s.h + (r.y1 + oy) && f.y2 == v.y * s.h + (r.y1 + oy) + v.h * s.h
            && f.fx == (if dx >= 0 then r.x1 else r.x2) + ox && f.fy == (if dy >= 0 then r.y1 else r.y2) + oy
  {
  }

  /** A span [a, a + b] of the unit interval, scaled by a positive size and
      placed at `lo`, stays a non-empty span inside [lo, hi] when hi - lo
      is that size. */
  lemma ScaledWithin(a: real, b: real, size: real, lo: real, hi: real)
    requires 0.0 <= a && 0.0 < b && a + b <= 1.0 && size > 0.0 && hi - lo == size
    ensures lo <= a * size + lo < a * size + lo + b * size <= hi
  {
    assert (1.0 - a - b) * size >= 0.0;
  }

  /** Whatever viewpoint of the unit square is focused, its focus lies
      inside the whole-page focus and scrolls to the same corner. */
  lemma ViewpointInsideWholePage(r: Rect, s: Size, ox: real, oy: real, dx: int, dy: int, v: Viewpoint)
    requires r.x2 - r.x1 == s.w && r.y2 - r.y1 == s.h && s.w > 0.0 && s.h > 0.0
    requires 0.0 <= v.x && 0.0 < v.w && v.x + v.w <= 1.0
    requires 0.0 <= v.y && 0.0 < v.h && v.y + v.h <= 1.0
    ensures var f, g := FocusOf(r, s, ox, oy, dx, dy, Some(v)), FocusOf(r, s, ox, oy, dx, dy, None);
            && g.x1 <= f.x1 < f.x2 <= g.x2 && g.y1 <= f.y1 < f.y2 <= g.y2
            && f.fx == g.fx && f.fy == g.fy
  {
    FocusInsidePage(r, s, ox, oy, dx, dy, v);
  }

  /** Round trip: measuring a viewpoint's focus against the page's position
      and element size gives back the viewpoint's fractions. */
  lemma ViewpointFocusRoundTrip(r: Rect, s: Size, ox: real, oy: real, dx: int, dy: int, v: Viewpoint)
    requires s.w > 0.0 && s.h > 0.0
    ensures var f := FocusOf(r, s, ox, oy, dx, dy, Some(v));
            && (f.x1 - (r.x1 + ox)) / s.w == v.x && (f.x2 - f.x1) / s.w == v.w
            && (f.y1 - (r.y1 + oy)) / s.h == v.y && (f.y2 - f.y1) / s.h == v.h
  {
    FocusOfViewpoint(r, s, ox, oy, dx, dy, v);
    assert v.x * s.w / s.w == v.x && v.w * s.w / s.w == v.w;
    assert v.y * s.h / s.h == v.y && v.h * s.h / s.h == v.h;
  }

  /** The step inside the current page when moving by viewpoint: from no
      viewpoint to the first (forwards) or last (backwards), otherwise to
      the neighbour; nothing when that leaves the page's list. */
  function StepWithinPage(vps: seq<Option<seq<Viewpoint>>>, page: int, vp: Option<int>, d: int): (r: Option<int>)
    ensures r.Some? ==> ViewpointsOf(vps, page).Some? && 0 <= r.value < |ViewpointsOf(vps, page).value|
    ensures ViewpointsOf(vps, page).None? ==> r.None?
    ensures var l := ViewpointsOf(vps, page);
            l.Some? && vp.Some? ==> r == (if 0 <= vp.value + d < |l.value| then Some(vp.value + d) else None)
    ensures var l := ViewpointsOf(vps, page);
            l.Some? && vp.None? ==> r == (if |l.value| == 0 then None else if d > 0 then Some(0) else Some(|l.value| - 1))
  {
    match ViewpointsOf(vps, page)
    case None => None
    case Some(list) =>
      var n := if vp.None? then (if d > 0 then 0 else |list| - 1) else vp.value + d;
      if n < 0 || n >= |list| then None else Some(n)
  }

  /** `GetFirstOrLastViewpoint` as written: any viewpoint list, even an
      empty one, yields 0 forwards and length - 1 backwards. */
  function FirstOrLastViewpointAsWritten(vps: Option<seq<Viewpoint>>, d: int): Option<int> {
    if vps.None? then None else Some(if d > 0 then 0 else |vps.value| - 1)
  }

  /** `GetFirstOrLastViewpoint` with an empty list treated like no list, so
      that moving onto such a page focuses the whole page. */
  function FirstOrLastViewpoint(vps: Option<seq<Viewpoint>>, d: int): (r: Option<int>)
    ensures r.Some? <==> vps.Some? && |vps.value| > 0
    ensures r.Some? ==> 0 <= r.value < |vps.value|
    ensures r.Some? && d > 0 ==> r.value == 0
    ensures r.Some? && d <= 0 ==> r.value == |vps.value| - 1
  {
    if vps.None? || |vps.value| == 0 then None else Some(if d > 0 then 0 else |vps.value| - 1)
  }

  /** The `SetPage` call `Move` ends in, with the source's choice of first
      or last viewpoint on the neighbouring page. */
  function MoveTargetAsWritten(vps: seq<Option<seq<Viewpoint>>>, page: int, vp: Option<int>, byViewpoint: bool, d: int): (int, Option<int>) {
    if !byViewpoint then (page + d, None)
    else match StepWithinPage(vps, page, vp, d)
      case Some(n) => (page, Some(n))
      case None => (page + d, FirstOrLastViewpointAsWritten(ViewpointsOf(vps, page + d), d))
  }

  /** The `SetPage` call `Move` ends in: by page, the neighbouring page as a
      whole; by viewpoint, the neighbouring viewpoint of the page, or else
      the first (forwards) or last (backwards) viewpoint of the neighbouring
      page, or that whole page when it has none. */
  function MoveTarget(vps: seq<Option<seq<Viewpoint>>>, page: int, vp: Option<int>, byViewpoint: bool, d: int): (int, Option<int>) {
    if !byViewpoint then (page + d, None)
    else match StepWithinPage(vps, page, vp, d)
      case Some(n) => (page, Some(n))
      case None => (page + d, FirstOrLastViewpoint(ViewpointsOf(vps, page + d), d))
  }

  /** The position is one `Move` by viewpoint can produce: an existing
      page, with a viewpoint inside its list exactly when the list is not
      empty. */
  predicate Consistent(total: int, vps: seq<Option<seq<Viewpoint>>>, page: int, vp: Option<int>) {
    && 0 <= page < total
    && match ViewpointsOf(vps, page)
       case None => vp.None?
       case Some(list) => if |list| == 0 then vp.None? else vp.Some? && 0 <= vp.value < |list|
  }

  /** Moving by viewpoint from a consistent position to an existing page
      lands on a consistent position, and moving back the other way
      returns exactly to where it started. */
  lemma MoveInverse(total: int, vps: seq<Option<seq<Viewpoint>>>, page: int, vp: Option<int>, d: int)
    requires d == 1 || d == -1
    requires Consistent(total, vps, page, vp)
    requires 0 <= MoveTarget(vps, page, vp, true, d).0 < total
    ensures var t := MoveTarget(vps, page, vp, true, d);
            && Consistent(total, vps, t.0, t.1)
            && Accepts(total, vps, t.0, t.1)
            && MoveTarget(vps, t.0, t.1, true, -d) == (page, vp)
  {
    var t := MoveTarget(vps, page, vp, true, d);
    match StepWithinPage(vps, page, vp, d)
    case Some(n) =>
      assert t == (page, Some(n));
      assert StepWithinPage(vps, page, Some(n), -d) == Some(n - d);
    case None =>
      var list := ViewpointsOf(vps, page);
      assert list.Some? && |list.value| > 0 ==> vp.Some? && (vp.value + d < 0 || vp.value + d >= |list.value|);
      assert StepWithinPage(vps, t.0, t.1, -d) == None;
  }

  /** Moving by page from any page to an existing page is undone by moving
      back. */
  lemma MovePageInverse(total: int, vps: seq<Option<seq<Viewpoint>>>, page: int, d: int)
    requires d == 1 || d == -1
    requires 0 <= page + d < total
    ensures var t := MoveTarget(vps, page, None, false, d);
            Accepts(total, vps, t.0, t.1) && MoveTarget(vps, t.0, t.1, false, -d) == (page, None)
  {
  }

  /** The source's `Move` cannot leave a page by viewpoint towards a page
      whose viewpoint list is empty: it asks `SetPage` for viewpoint 0 or
      -1 of an empty list, which `SetPage` refuses. The corrected target is
      that whole page, which `SetPage` accepts. */
  lemma MoveOntoEmptyListAsWritten(total: int, vps: seq<Option<seq<Viewpoint>>>, page: int, vp: Option<int>, d: int)
    requires d == 1 || d == -1
    requires StepWithinPage(vps, page, vp, d).None?
    requires 0 <= page + d < total && page + d < |vps| && vps[page + d] == Some([])
    ensures !Accepts(total, vps, MoveTargetAsWritten(vps, page, vp, true, d).0, MoveTargetAsWritten(vps, page, vp, true, d).1)
    ensures MoveTarget(vps, page, vp, true, d) == (page + d, None)
    ensures Accepts(total, vps, page + d, None)
  {
  }

  /** A two-page instance: on the last viewpoint of page 0, moving forwards
      onto page 1, whose list is empty, fails as written. */
  lemma MoveOntoEmptyListExample()
    ensures var vps := [Some([Viewpoint(0.0, 0.0, 1.0, 1.0)]), Some([])];
            && MoveTargetAsWritten(vps, 0, Some(0), true, 1) == (1, Some(0))
            && !Accepts(2, vps, 1, Some(0))
            && MoveTarget(vps, 0, Some(0), true, 1) == (1, None)
            && Accepts(2, vps, 1, None)
  {
    var vps := [Some([Viewpoint(0.0, 0.0, 1.0, 1.0)]), Some([])];
    assert StepWithinPage(vps, 0, Some(0), 1) == None;
    assert ViewpointsOf(vps, 1) == Some([]);
  }

  class Comic {
    /** The camera (the module-level `HLCanvas` of the source). */
    const Camera: HLCanvas
    /** `_X`, `_Y`: the canvas offset of the whole comic. */
    const X: real
    const Y: real
    const Total: int
    const ElementSizes: seq<Size>
    /** `_FW`, `_FH`: forced element sizes (never set in this code). */
    const FW: Option<real>
    const FH: Option<real>
    /** `_PDX`, `_PDY`: the direction pages are added in. */
    const PDX: int
    const PDY: int
    const Padding: real
    const ImageSizes: seq<Option<Size>>
    const Viewpoints: seq<Option<seq<Viewpoint>>>

    var ElementOffsets: seq<Rect>
    /** `_P`: the current page, -1 before the first `SetPage`. */
    var P: int
    /** `_VP`: the current viewpoint, null for the whole page. */
    var VP: Option<int>
    /** `_Loaded`: the loaded pages, oldest first. */
    var Loaded: seq<Entry>
    /** The serial number the next page slot gets. */
    var NextSlot: nat
    var MoveByViewpoint: bool
    var FillMode: bool

    ghost predicate Valid()
      reads this, Camera, Camera.LL
    {
      && Camera.Valid()
      && Total == |ElementSizes| == |ElementOffsets|
      && (forall i :: 0 <= i < |ElementSizes| ==> ElementSizes[i].w > 0.0 && ElementSizes[i].h > 0.0)
      && IsLayout(PDX, PDY, Padding, ElementSizes, ElementOffsets)
      && UnitDirection(PDX, PDY) && Padding >= 0.0
      && ViewpointsPositive(Viewpoints)
      && CacheInvariant(Loaded, Total, NextSlot)
      && (P == -1 || 0 <= P < Total)
      && (P >= 0 ==> forall q :: P - SafeNeighbours <= q <= P + SafeNeighbours && 0 <= q < Total ==> q in Pages(Loaded))
    }

    constructor (meta: Meta, camera: HLCanvas, x: real, y: real)
      requires camera.Valid()
      requires meta.pages.Some? ==> PagesKnown(meta.pages.value)
      requires meta.viewpoints.Some? ==> ViewpointsPositive(meta.viewpoints.value)
      ensures Valid() && Camera == camera && X == x && Y == y
      ensures P == -1 && VP == None && Loaded == [] && MoveByViewpoint && !FillMode
      ensures meta.pages.None? ==> Total == 0 && (PDX, PDY) == (1, 0)
      ensures meta.pages.Some? ==> (PDX, PDY) == DirectionVector(meta.direction)
      ensures meta.pages.Some? ==> Total == |meta.pages.value|
                                   && forall i :: 0 <= i < Total ==> ElementSizes[i] == meta.pages.value[i].value
      ensures Viewpoints == meta.viewpoints.GetOr([])
    {
      Camera := camera;
      X, Y := x, y;
      FW, FH := None, None;
      Padding := 0.0;
      var dir := (1, 0);
      var images: seq<Option<Size>> := [];
      var sizes: seq<Size> := [];
      if meta.pages.Some? {
        dir := DirectionVector(meta.direction);
        images := meta.pages.value;
        var i := 0;
        while i < |images|
          invariant 0 <= i <= |images| && |sizes| == i
          invariant forall j :: 0 <= j < i ==> sizes[j] == images[j].value
        {
          sizes := sizes + [CalcEleSize(None, None, images[i]).value];
          i := i + 1;
        }
      }
      PDX, PDY := dir.0, dir.1;
      ImageSizes := images;
      Total := |images|;
      ElementSizes := sizes;
      Viewpoints := meta.viewpoints.GetOr([]);
      ElementOffsets := [];
      P, VP := -1, None;
      Loaded, NextSlot := [], 0;
      MoveByViewpoint, FillMode := true, false;
      new;
      if meta.pages.Some? {
        CalcEleOffsets(0);
      }
    }

    /** `_CalcEleOffsets`: lay pages out from `start` on, each against the
        one before it; from 0, page 0 goes at the origin first. */
    method CalcEleOffsets(start: int)
      requires 0 <= start
      requires start == 0 ==> |ElementSizes| > 0 && |ElementOffsets| <= |ElementSizes|
      requires start > 0 ==> start <= |ElementOffsets| <= |ElementSizes|
      modifies this`ElementOffsets
      ensures |ElementOffsets| == |ElementSizes|
      ensures start == 0 ==> ElementOffsets[0] == FirstRect(ElementSizes[0])
      ensures start > 0 ==> ElementOffsets[..start] == old(ElementOffsets)[..start]
      ensures ChainsFrom(PDX, PDY, Padding, ElementSizes, ElementOffsets, if start == 0 then 1 else start)
    {
      var first := start;
      var prev: Rect;
      if first == 0 {
        prev := FirstRect(ElementSizes[0]);
        ElementOffsets := SetAt(ElementOffsets, 0, prev);
        first := first + 1;
      } else {
        prev := ElementOffsets[first - 1];
      }
      ghost var fixed := ElementOffsets[..first];
      var i := first;
      while i < |ElementSizes|
        invariant first <= i <= |ElementOffsets| <= |ElementSizes|
        invariant ElementOffsets[..first] == fixed
        invariant prev == ElementOffsets[i - 1]
        invariant forall j :: first <= j < i ==> ElementOffsets[j] == NextRect(PDX, PDY, Padding, ElementOffsets[j - 1], ElementSizes[j])
      {
        var next := NextRect(PDX, PDY, Padding, prev, ElementSizes[i]);
        ElementOffsets := SetAt(ElementOffsets, i, next);
        prev := next;
        i := i + 1;
      }
    }

    /** `_CullLoadedPages`: when more than `MaxLoaded` pages are loaded,
        delete the oldest unprotected ones until the excess is gone or none
        is left. */
    method CullLoadedPages()
      modifies this`Loaded
      ensures Loaded == Culled(old(Loaded), P, SafeNeighbours, MaxLoaded)
    {
      var toRemove := |Loaded| - MaxLoaded;
      if toRemove <= 0 {
        return;
      }
      ghost var target := CullFrom(Loaded, P, SafeNeighbours, toRemove);
      var i := 0;
      while i < |Loaded|
        invariant 0 <= i <= |Loaded| && toRemove > 0
        invariant Loaded[..i] + CullFrom(Loaded[i..], P, SafeNeighbours, toRemove) == target
        decreases |Loaded| - i
      {
        var diff := Loaded[i].page - P;
        if Abs(diff) <= SafeNeighbours {
          assert Loaded[..i + 1] == Loaded[..i] + [Loaded[i]];
          assert Loaded[i..][1..] == Loaded[i + 1..];
          i := i + 1;
          continue;
        }
        ghost var before := Loaded;
        Loaded := Loaded[..i] + Loaded[i + 1..];
        assert Loaded[..i] == before[..i] && Loaded[i..] == before[i + 1..];
        assert before[i..][1..] == before[i + 1..];
        toRemove := toRemove - 1;
        if toRemove <= 0 {
          assert Loaded == Loaded[..i] + Loaded[i..];
          return;
        }
      }
      assert Loaded[..i] == Loaded;
    }

    /** `LoadPage`: a page already loaded or outside the comic is ignored;
        otherwise eviction runs and the page gets a new slot as the newest
        entry. The cache invariant is kept. */
    method LoadPage(page: int)
      requires CacheInvariant(Loaded, Total, NextSlot)
      modifies this`Loaded, this`NextSlot
      ensures CacheInvariant(Loaded, Total, NextSlot)
      ensures Loaded == Load(old(Loaded), page, P, Total, old(NextSlot))
      ensures NextSlot == if Inserts(old(Loaded), page, Total) then old(NextSlot) + 1 else old(NextSlot)
    {
      LoadProperties(Loaded, page, P, Total, NextSlot);
      if page in Pages(Loaded) {
        return;
      }
      if page < 0 || page >= Total {
        return;
      }
      CullLoadedPages();
      Loaded := Loaded + [Entry(page, NextSlot)];
      NextSlot := NextSlot + 1;
    }

    /** The focus `_SetFocus` computes for a page and viewpoint. */
    function FocusFor(page: int, vp: Option<int>): Focus
      reads this
      requires Total == |ElementSizes| == |ElementOffsets| && Accepts(Total, Viewpoints, page, vp)
    {
      FocusOf(ElementOffsets[page], ElementSizes[page], X, Y, PDX, PDY,
              if vp.None? then None else Some(Viewpoints[page].value[vp.value]))
    }

    /** The camera is focused on `f` and framed as `_DoFocus` frames it,
        scrolled to f's target when scroll mode is on. */
    ghost predicate Shows(f: Focus, surf: Surface)
      reads Camera, Camera.LL, Camera.S
    {
      && Camera.Valid()
      && Camera.Focusing
      && Camera.FocusX == f.x1 && Camera.FocusY == f.y1 && Camera.FocusMaxX == f.x2 && Camera.FocusMaxY == f.y2
      && Camera.Plan(surf).ratio > 0.0
      && Camera.Framed(f.fx, f.fy, surf)
    }

    /** `_SetFocus`: focus the camera on the page or viewpoint. */
    method SetFocus(page: int, vp: Option<int>, surf: Surface)
      requires Valid() && Camera.Fits(surf) && Accepts(Total, Viewpoints, page, vp)
      modifies Camera, Camera.LL, Camera.S
      ensures Valid() && Camera.FillMode == old(Camera.FillMode)
      ensures Shows(FocusFor(page, vp), surf)
      ensures Camera.ResizeListening && Camera.Settings() == old(Camera.Settings())
    {
      var f := FocusFor(page, vp);
      LayoutSizes(PDX, PDY, Padding, ElementSizes, ElementOffsets, page);
      Camera.SetFocus(f.x1, f.y1, f.x2, f.y2, Some(f.fx), Some(f.fy), surf);
    }

    /** `SetPage`: refuse a page outside the comic or a viewpoint the page
        does not have; on a new page load it and its neighbours; then record
        the viewpoint and focus the camera. */
    method SetPage(page: int, vp: Option<int>, surf: Surface) returns (ok: bool)
      requires Valid() && Camera.Fits(surf)
      modifies this`P, this`VP, this`Loaded, this`NextSlot, Camera, Camera.LL, Camera.S
      ensures Valid() && Camera.FillMode == old(Camera.FillMode)
      ensures ok == Accepts(Total, Viewpoints, page, vp)
      ensures !ok ==> P == old(P) && VP == old(VP) && Loaded == old(Loaded) && NextSlot == old(NextSlot)
                      && unchanged(Camera, Camera.LL, Camera.S)
      ensures ok ==> P == page && VP == vp && Shows(FocusFor(page, vp), surf)
      ensures ok ==> Camera.ResizeListening && Camera.Settings() == old(Camera.Settings())
      ensures ok && page == old(P) ==> Loaded == old(Loaded) && NextSlot == old(NextSlot)
      ensures ok && page != old(P) ==>
                (Loaded, NextSlot) == LoadWindow(old(Loaded), old(NextSlot), page, Total,
                                                 page - SafeNeighbours, page + SafeNeighbours + 1)
    {
      if page < 0 || page >= Total {
        return false;
      }
      if vp.Some? {
        var vps := ViewpointsOf(Viewpoints, page);
        if vps.None? || vp.value < 0 || vp.value >= |vps.value| {
          return false;
        }
      }
      if page != P {
        P := page;
        LoadAround(page);
        LoadWindowProperties(old(Loaded), old(NextSlot), page, Total, page - SafeNeighbours, page + SafeNeighbours + 1);
      }
      VP := vp;
      SetFocus(page, vp, surf);
      return true;
    }

    /** `SetPage`'s loop: load the pages from `page - SafeNeighbours` to
        `page + SafeNeighbours`, in order, with `page` already current. */
    method LoadAround(page: int)
      requires CacheInvariant(Loaded, Total, NextSlot)
      modifies this`Loaded, this`NextSlot
      ensures CacheInvariant(Loaded, Total, NextSlot)
      ensures (Loaded, NextSlot) == LoadWindow(old(Loaded), old(NextSlot), P, Total,
                                               page - SafeNeighbours, page + SafeNeighbours + 1)
    {
      var i := page - SafeNeighbours;
      while i <= page + SafeNeighbours
        invariant page - SafeNeighbours <= i <= page + SafeNeighbours + 1
        invariant (Loaded, NextSlot) == LoadWindow(old(Loaded), old(NextSlot), P, Total, page - SafeNeighbours, i)
        invariant CacheInvariant(Loaded, Total, NextSlot)
      {
        LoadPage(i);
        i := i + 1;
      }
    }

    /** `Move`: only -1 and 1 are directions (anything else returns
        undefined, here `None`); the outcome is `SetPage` on `MoveTarget`. */
    method Move(d: int, surf: Surface) returns (r: Option<bool>)
      requires Valid() && Camera.Fits(surf)
      modifies this`P, this`VP, this`Loaded, this`NextSlot, Camera, Camera.LL, Camera.S
      ensures Valid()
      ensures d != 1 && d != -1 ==> r == None && P == old(P) && VP == old(VP) && Loaded == old(Loaded)
                                    && NextSlot == old(NextSlot) && unchanged(Camera, Camera.LL, Camera.S)
      ensures d == 1 || d == -1 ==>
                var t := MoveTarget(Viewpoints, old(P), old(VP), MoveByViewpoint, d);
                && r == Some(Accepts(Total, Viewpoints, t.0, t.1))
                && (r.value ==> P == t.0 && VP == t.1 && Shows(FocusFor(t.0, t.1), surf))
                && (r.value ==> Camera.ResizeListening && Camera.Settings() == old(Camera.Settings()))
                && (!r.value ==> P == old(P) && VP == old(VP) && Loaded == old(Loaded)
                                 && NextSlot == old(NextSlot) && unchanged(Camera, Camera.LL, Camera.S))
      ensures d == 1 || d == -1 ==>
                var t := MoveTarget(Viewpoints, old(P), old(VP), MoveByViewpoint, d);
                && (r.value && t.0 == old(P) ==> Loaded == old(Loaded) && NextSlot == old(NextSlot))
                && (r.value && t.0 != old(P) ==>
                      (Loaded, NextSlot) == LoadWindow(old(Loaded), old(NextSlot), t.0, Total,
                                                       t.0 - SafeNeighbours, t.0 + SafeNeighbours + 1))
    {
      if d != -1 && d != 1 {
        return None;
      }
      var page, vp, found := P + d, None, false;
      if MoveByViewpoint {
        var vps := ViewpointsOf(Viewpoints, P);
        if vps.Some? {
          var newVP := if VP.None? then (if d > 0 then 0 else |vps.value| - 1) else VP.value + d;
          if !(newVP < 0 || newVP >= |vps.value|) {
            page, vp, found := P, Some(newVP), true;
          }
        }
        if !found {
          vp := FirstOrLastViewpoint(ViewpointsOf(Viewpoints, page), d);
        }
      }
      assert (page, vp) == MoveTarget(Viewpoints, P, VP, MoveByViewpoint, d);
      var ok := SetPage(page, vp, surf);
      return Some(ok);
    }

    /** The `MoveByViewpoint` setter: a change clears the viewpoint, or
        picks viewpoint 0 when the current page has a viewpoint list, then
        re-applies the current page before recording the flag. */
    method SetMoveByViewpoint(value: bool, surf: Surface)
      requires Valid() && Camera.Fits(surf)
      modifies this`P, this`VP, this`Loaded, this`NextSlot, this`MoveByViewpoint, Camera, Camera.LL, Camera.S
      ensures Valid() && MoveByViewpoint == value && P == old(P)
      ensures Loaded == old(Loaded) && NextSlot == old(NextSlot)
      ensures value == old(MoveByViewpoint) ==> VP == old(VP) && unchanged(Camera, Camera.LL, Camera.S)
      ensures value != old(MoveByViewpoint) ==>
                VP == (if value && ViewpointsOf(Viewpoints, P).Some? then Some(0) else None)
      ensures value != old(MoveByViewpoint) && Accepts(Total, Viewpoints, P, VP) ==> Shows(FocusFor(P, VP), surf)
      ensures value != old(MoveByViewpoint) && Accepts(Total, Viewpoints, P, VP) ==>
                Camera.ResizeListening && Camera.Settings() == old(Camera.Settings())
      ensures value != old(MoveByViewpoint) && !Accepts(Total, Viewpoints, P, VP) ==>
                unchanged(Camera, Camera.LL, Camera.S)
    {
      if MoveByViewpoint == value {
        return;
      }
      if !value {
        VP := None;
      } else {
        VP := if ViewpointsOf(Viewpoints, P).Some? then Some(0) else None;
      }
      var _ := SetPage(P, VP, surf);
      MoveByViewpoint := value;
    }

    /** The `FillMode` setter: pass the mode to the camera and re-apply the
        current page. */
    method SetFillMode(value: bool, surf: Surface)
      requires Valid() && Camera.Fits(surf)
      modifies this`P, this`VP, this`Loaded, this`NextSlot, this`FillMode, Camera, Camera.LL, Camera.S
      ensures Valid() && FillMode == value && P == old(P) && VP == old(VP)
      ensures Loaded == old(Loaded) && NextSlot == old(NextSlot)
      ensures value == old(FillMode) ==> unchanged(Camera, Camera.LL, Camera.S)
      ensures value != old(FillMode) ==> Camera.FillMode == value
      ensures value != old(FillMode) && Accepts(Total, Viewpoints, P, VP) ==> Shows(FocusFor(P, VP), surf)
      ensures value != old(FillMode) && Accepts(Total, Viewpoints, P, VP) ==>
                Camera.ResizeListening && Camera.Settings() == old(Camera.Settings())
      ensures value != old(FillMode) && !Accepts(Total, Viewpoints, P, VP) ==>
                Camera.AllButMode() == old(Camera.AllButMode()) && unchanged(Camera.LL, Camera.S)
    {
      if FillMode == value {
        return;
      }
      Camera.SetFillMode(value);
      var _ := SetPage(P, VP, surf);
      FillMode := value;
    }
  }

  /** Writing `v` at index `i`, which may be one past the end (a
      JavaScript array assignment that grows the array). */
  function SetAt<T>(s: seq<T>, i: int, v: T): (r: seq<T>)
    requires 0 <= i <= |s|
    ensures |r| == (if i == |s| then |s| + 1 else |s|)
    ensures r[i] == v && forall j :: 0 <= j < |s| && j != i ==> r[j] == s[j]
  {
    if i == |s| then s + [v] else s[i := v]
  }
}
