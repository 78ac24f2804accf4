/** The camera of the viewer (frontend/s/canvas.js): `LLCanvas` holds the
    logical position and zoom and, in scroll mode, drives a native scrolling
    element instead of a transform; `Shade` is the mask around the focused
    rectangle; `HLCanvas` picks the zoom ratio that fits or fills a focus
    rectangle, reserving room for scrollbars when the rectangle overflows.

    Browser measurements are not read from a DOM here: a `Surface` value
    carries what a call reads (the canvas element's size, the scrollable
    range `scrollWidth - clientWidth` of the scrolling element, and its
    current scroll offsets). */
module Canvas {
  import opened Common

  /** What the browser reports during one call. */
  datatype Surface = Surface(width: real, height: real, rangeX: real, rangeY: real, scrollLeft: real, scrollTop: real) {
    /** The browser keeps the scroll offsets inside the scrollable range. */
    predicate Valid() {
      0.0 <= scrollLeft <= rangeX && 0.0 <= scrollTop <= rangeY
    }
  }

  /** `Clamp` inside `LLCanvas.SetPos`. */
  function Clamp(n: real, lo: real, hi: real): (r: real)
    ensures lo <= hi ==> lo <= r <= hi
    ensures lo <= n <= hi ==> r == n
    ensures lo <= hi && n < lo ==> r == lo
    ensures n > hi ==> r == hi
  {
    Min(Max(n, lo), hi)
  }

  /** The scroll offset `SetPos` asks for on one axis: the logical distance
      from the region's origin, in pixels, clamped to the scrollable range. */
  function ScrollOffset(target: real, origin: real, zoom: real, range: real): real {
    Clamp(-(origin - target) * zoom, 0.0, range)
  }

  /** The rounded comparison `SetPos` uses to decide that the scrolling
      element is already where it should be. */
  predicate AtScroll(sl: real, st: real, surf: Surface) {
    Round(sl) == Round(surf.scrollLeft) && Round(st) == Round(surf.scrollTop)
  }

  /** Round trip: a target the region can show is mapped to a scroll offset
      and back to exactly the same logical coordinate. */
  lemma ScrollRoundTrip(target: real, origin: real, zoom: real, range: real)
    requires zoom != 0.0 && 0.0 <= (target - origin) * zoom <= range
    ensures origin + ScrollOffset(target, origin, zoom, range) / zoom == target
  {
    assert -(origin - target) * zoom == (target - origin) * zoom;
    assert (target - origin) * zoom / zoom == target - origin;
  }

  /** A scrollable range no larger than the pixel size of the region
      [origin, max] ends, in logical units, inside that region. */
  lemma RangeFitsArea(origin: real, max: real, zoom: real, range: real)
    requires zoom > 0.0 && range <= (max - origin) * zoom
    ensures origin + range / zoom <= max
  {
    assert (max - origin) * zoom / zoom == max - origin;
    assert ((max - origin) * zoom - range) / zoom >= 0.0;
    assert (max - origin) * zoom / zoom - range / zoom == ((max - origin) * zoom - range) / zoom;
  }

  /** When the browser's scrollable range is no larger than the scroll area
      `_EnableScrollbars` sizes for [origin, max] (a scroll range never
      exceeds the scrolled content), whatever the target, the coordinate
      derived from the clamped offset stays inside [origin, max]. */
  lemma ScrollStaysInArea(target: real, origin: real, max: real, zoom: real, range: real)
    requires zoom > 0.0 && 0.0 <= range <= (max - origin) * zoom
    ensures origin <= origin + ScrollOffset(target, origin, zoom, range) / zoom <= max
  {
    ScrollStaysInRegion(target, origin, zoom, range);
    RangeFitsArea(origin, max, zoom, range);
  }

  /** Whatever the target, the logical coordinate derived from the clamped
      offset never leaves [origin, origin + range / zoom]. */
  lemma ScrollStaysInRegion(target: real, origin: real, zoom: real, range: real)
    requires zoom > 0.0 && range >= 0.0
    ensures origin <= origin + ScrollOffset(target, origin, zoom, range) / zoom <= origin + range / zoom
  {
    var s := ScrollOffset(target, origin, zoom, range);
    assert 0.0 <= s <= range;
    assert s / zoom <= range / zoom by {
      assert range / zoom - s / zoom == (range - s) / zoom;
    }
  }

  /** Low-level canvas: logical position `X`, `Y` and zoom, plus the scroll
      region [SX, SMX] x [SY, SMY] while scroll mode is on. */
  class LLCanvas {
    var X: real
    var Y: real
    var Zoom: real
    /** Whether the last transform was applied instantly (transition 0s)
        rather than over the 500ms transition. */
    var Instant: bool
    var ScrollBars: bool
    var SX: Option<real>
    var SY: Option<real>
    var SMX: Option<real>
    var SMY: Option<real>
    /** Pixel size given to the scroll area inside the scrolling element. */
    var AreaWidth: real
    var AreaHeight: real
    /** The offsets last requested of the scrolling element (`_FS.scroll`). */
    var ScrollRequest: Option<(real, real)>

    ghost predicate Valid()
      reads this
    {
      && Zoom != 0.0
      && (ScrollBars ==> SX.Some? && SY.Some? && SMX.Some? && SMY.Some?)
    }

    constructor ()
      ensures Valid()
      ensures X == 0.0 && Y == 0.0 && Zoom == 1.0 && !ScrollBars
      ensures SX == None && SY == None && SMX == None && SMY == None && ScrollRequest == None
    {
      X, Y, Zoom := 0.0, 0.0, 1.0;
      Instant := true;
      ScrollBars := false;
      SX, SY, SMX, SMY := None, None, None, None;
      AreaWidth, AreaHeight := 0.0, 0.0;
      ScrollRequest := None;
    }

    /** `_SetCanvas`: apply a transform and record the logical state. */
    method SetCanvas(newX: real, newY: real, newZoom: real, instant: bool)
      requires newZoom != 0.0
      modifies this`X, this`Y, this`Zoom, this`Instant
      ensures X == newX && Y == newY && Zoom == newZoom && Instant == instant
    {
      X, Y, Zoom := newX, newY, newZoom;
      Instant := instant;
    }

    /** The scroll offsets `SetPos` computes for a logical target. */
    function ScrollTarget(tx: real, ty: real, surf: Surface): (real, real)
      reads this
      requires Valid() && ScrollBars
    {
      (ScrollOffset(tx, SX.value, Zoom, surf.rangeX), ScrollOffset(ty, SY.value, Zoom, surf.rangeY))
    }

    /** The state `SetPos` leaves in scroll mode for target (tx, ty): the
        logical position is re-derived from the scroll offset actually used,
        the current one when it already rounds to the target, otherwise the
        clamped target, which is then requested of the scrolling element. */
    ghost predicate ScrolledTo(tx: real, ty: real, surf: Surface)
      reads this
      requires Valid() && ScrollBars
    {
      var t := ScrollTarget(tx, ty, surf);
      if AtScroll(t.0, t.1, surf) then
        X == SX.value + surf.scrollLeft / Zoom && Y == SY.value + surf.scrollTop / Zoom
      else
        X == SX.value + t.0 / Zoom && Y == SY.value + t.1 / Zoom && ScrollRequest == Some(t)
    }

    /** The browser's scrollable ranges, read back in logical units at the
        current (positive) zoom, end inside the scroll region. */
    ghost predicate AreaFits(surf: Surface)
      reads this
      requires Valid() && ScrollBars
    {
      && Zoom > 0.0
      && SX.value + surf.rangeX / Zoom <= SMX.value
      && SY.value + surf.rangeY / Zoom <= SMY.value
    }

    /** The scroll area measures the region at the current zoom:
        (SMX - SX) * Zoom by (SMY - SY) * Zoom pixels. */
    ghost predicate AreaSized()
      reads this
      requires Valid() && ScrollBars
    {
      AreaWidth == (SMX.value - SX.value) * Zoom && AreaHeight == (SMY.value - SY.value) * Zoom
    }

    /** The logical position lies inside the scroll region. */
    ghost predicate InRegion()
      reads this
      requires Valid() && ScrollBars
    {
      SX.value <= X <= SMX.value && SY.value <= Y <= SMY.value
    }

    /** The scroll-mode branch of `SetPos` at an unchanged zoom: clamp the
        target's offsets to the scrollable range; when they already round to
        the element's offsets, follow the element, otherwise move there and
        ask the element to scroll. */
    method ScrollTo(tx: real, ty: real, instant: bool, surf: Surface)
      requires Valid() && ScrollBars && surf.Valid()
      modifies this`X, this`Y, this`Zoom, this`Instant, this`ScrollRequest
      ensures Valid() && Zoom == old(Zoom) && Instant == instant
      ensures ScrolledTo(tx, ty, surf)
      ensures AtScroll(ScrollTarget(tx, ty, surf).0, ScrollTarget(tx, ty, surf).1, surf) ==>
                ScrollRequest == old(ScrollRequest)
      ensures AreaFits(surf) ==> InRegion()
    {
      var t := ScrollTarget(tx, ty, surf);
      var sl, st := t.0, t.1;
      if Round(sl) == Round(surf.scrollLeft) && Round(st) == Round(surf.scrollTop) {
        SetCanvas(SX.value + surf.scrollLeft / Zoom, SY.value + surf.scrollTop / Zoom, Zoom, instant);
        if AreaFits(surf) { ScrolledInRegion(this, tx, ty, surf); }
        return;
      }
      SetCanvas(SX.value + sl / Zoom, SY.value + st / Zoom, Zoom, instant);
      ScrollRequest := Some((sl, st));
      if AreaFits(surf) { ScrolledInRegion(this, tx, ty, surf); }
    }

    /** `SetPos`. Without scroll mode: move there. In scroll mode with a new
        zoom: re-enable the region at that zoom, which comes back here once.
        Otherwise: scroll to the target. */
    method SetPos(newX: real, newY: real, newZoom: real, instant: bool, surf: Surface)
      requires Valid() && surf.Valid() && newZoom != 0.0
      modifies this
      decreases if ScrollBars && newZoom != Zoom then 2 else 0
      ensures Valid() && Zoom == newZoom
      ensures ScrollBars == old(ScrollBars) && SX == old(SX) && SY == old(SY) && SMX == old(SMX) && SMY == old(SMY)
      ensures !ScrollBars ==> X == newX && Y == newY && Instant == instant
      ensures !ScrollBars ==> ScrollRequest == old(ScrollRequest)
      ensures !ScrollBars || newZoom == old(Zoom) ==> AreaWidth == old(AreaWidth) && AreaHeight == old(AreaHeight)
      ensures ScrollBars && newZoom != old(Zoom) ==> AreaSized()
      ensures ScrollBars ==> Instant == (instant && newZoom == old(Zoom))
      ensures ScrollBars ==> ScrolledTo(newX, newY, surf)
      ensures ScrollBars && AtScroll(ScrollTarget(newX, newY, surf).0, ScrollTarget(newX, newY, surf).1, surf) ==>
                ScrollRequest == old(ScrollRequest)
    {
      if !ScrollBars {
        SetCanvas(newX, newY, newZoom, instant);
      } else if newZoom != Zoom {
        var sx, sy, smx, smy := SX.value, SY.value, SMX.value, SMY.value;
        EnableScrollbars(sx, sy, smx, smy, Some(newX), Some(newY), newZoom, surf);
        RegionSized(this, sx, sy, smx, smy);
      } else {
        ScrollTo(newX, newY, instant, surf);
      }
    }

    /** `EnableScrollbars` (with `_EnableScrollbars`): store the zoom and the
        region, size the scroll area, then position inside the region. A
        missing target keeps the current logical position. */
    method EnableScrollbars(minX: real, minY: real, maxX: real, maxY: real,
                            newX: Option<real>, newY: Option<real>, newZoom: real, surf: Surface)
      requires Valid() && surf.Valid() && newZoom != 0.0
      modifies this
      decreases 1
      ensures Valid() && ScrollBars && Zoom == newZoom
      ensures SX == Some(minX) && SY == Some(minY) && SMX == Some(maxX) && SMY == Some(maxY)
      ensures AreaWidth == (maxX - minX) * newZoom && AreaHeight == (maxY - minY) * newZoom
      ensures ScrolledTo(newX.GetOr(old(X)), newY.GetOr(old(Y)), surf) && !Instant
      ensures var t := ScrollTarget(newX.GetOr(old(X)), newY.GetOr(old(Y)), surf);
              AtScroll(t.0, t.1, surf) ==> ScrollRequest == old(ScrollRequest)
    {
      var tx, ty := newX.GetOr(X), newY.GetOr(Y);
      Zoom := newZoom;
      ScrollBars := true;
      AreaWidth := (maxX - minX) * newZoom;
      AreaHeight := (maxY - minY) * newZoom;
      SX, SMX := Some(minX), Some(maxX);
      SY, SMY := Some(minY), Some(maxY);
      SetPos(tx, ty, Zoom, false, surf);
    }

    /** The camera as `_DoFocus` leaves it: at zoom `zoom`; without scroll
        mode exactly at (x, y); with it, over the region [x, maxX] x [y, maxY]
        and positioned at (tx, ty). */
    ghost predicate Placed(x: real, y: real, maxX: real, maxY: real, zoom: real, scroll: bool,
                           tx: real, ty: real, surf: Surface)
      reads this
    {
      && Valid()
      && Zoom == zoom
      && ScrollBars == scroll
      && (!scroll ==> SX == None && SY == None && X == x && Y == y)
      && (scroll ==> SX == Some(x) && SY == Some(y) && SMX == Some(maxX) && SMY == Some(maxY)
                     && ScrolledTo(tx, ty, surf))
    }

    /** `DisableScrollbars`: leave scroll mode (the region's far corner is
        left as it was, as in the source). */
    method DisableScrollbars()
      requires Valid()
      modifies this`ScrollBars, this`SX, this`SY
      ensures Valid() && !ScrollBars && SX == None && SY == None
    {
      ScrollBars := false;
      SX, SY := None, None;
    }

    /** `_UpdateRegion`: on a scroll, resize or load event in scroll mode,
        follow the scrolling element's offsets. */
    method UpdateRegion(surf: Surface)
      requires Valid()
      modifies this`X, this`Y, this`Zoom, this`Instant
      ensures Valid() && Zoom == old(Zoom)
      ensures ScrollBars ==> X == SX.value + surf.scrollLeft / Zoom && Y == SY.value + surf.scrollTop / Zoom && Instant
      ensures !ScrollBars ==> X == old(X) && Y == old(Y) && Instant == old(Instant)
    {
      if !ScrollBars {
        return;
      }
      SetCanvas(SX.value + surf.scrollLeft / Zoom, SY.value + surf.scrollTop / Zoom, Zoom, true);
    }
  }

  /** A canvas scrolled to any target stays inside its scroll region when
      the browser's scrollable range fits the scroll area. */
  lemma ScrolledInRegion(c: LLCanvas, tx: real, ty: real, surf: Surface)
    requires c.Valid() && c.ScrollBars && surf.Valid() && c.AreaFits(surf)
    requires c.ScrolledTo(tx, ty, surf)
    ensures c.InRegion()
  {
    var t := c.ScrollTarget(tx, ty, surf);
    var at := AtScroll(t.0, t.1, surf);
    CoordWithin(c.X, if at then surf.scrollLeft else t.0, c.SX.value, c.Zoom, surf.rangeX);
    CoordWithin(c.Y, if at then surf.scrollTop else t.1, c.SY.value, c.Zoom, surf.rangeY);
  }

  /** A scroll area sized from the region's bounds at the current zoom is
      the area `AreaSized` describes. */
  lemma RegionSized(c: LLCanvas, minX: real, minY: real, maxX: real, maxY: real)
    requires c.Valid() && c.ScrollBars
    requires c.SX == Some(minX) && c.SY == Some(minY) && c.SMX == Some(maxX) && c.SMY == Some(maxY)
    requires c.AreaWidth == (maxX - minX) * c.Zoom && c.AreaHeight == (maxY - minY) * c.Zoom
    ensures c.AreaSized()
  {
  }

  /** The scroll area `_EnableScrollbars` sizes, (SMX - SX) * Zoom by
      (SMY - SY) * Zoom pixels, bounds the browser's scrollable range, so the
      range fits the region. */
  lemma AreaSizedFits(c: LLCanvas, surf: Surface)
    requires c.Valid() && c.ScrollBars && c.Zoom > 0.0
    requires c.AreaWidth == (c.SMX.value - c.SX.value) * c.Zoom && c.AreaHeight == (c.SMY.value - c.SY.value) * c.Zoom
    requires surf.rangeX <= c.AreaWidth && surf.rangeY <= c.AreaHeight
    ensures c.AreaFits(surf)
  {
    RangeFitsArea(c.SX.value, c.SMX.value, c.Zoom, surf.rangeX);
    RangeFitsArea(c.SY.value, c.SMY.value, c.Zoom, surf.rangeY);
  }

  /** A coordinate derived from an offset in [0, range] lies in
      [origin, origin + range / zoom]. */
  lemma CoordWithin(x: real, s: real, origin: real, zoom: real, range: real)
    requires zoom > 0.0 && 0.0 <= s <= range && x == origin + s / zoom
    ensures origin <= x <= origin + range / zoom
  {
    assert range / zoom - s / zoom == (range - s) / zoom;
  }

  /** The mask with a hole the size of the focused rectangle. */
  class Shade {
    /** `_O`: extra size of the hole, and the mask's offset. */
    const Margin: real := 10.0
    var HoleWidth: real
    var HoleHeight: real
    var Left: real
    var Top: real
    var Opacity: real

    constructor ()
      ensures Opacity == 0.0
    {
      HoleWidth, HoleHeight, Left, Top := 0.0, 0.0, 0.0, 0.0;
      Opacity := 0.0;
    }

    /** `SetSize`: a hole `Margin` larger than the rectangle; a null or 0
        left/top offset counts as 0. */
    method SetSize(width: real, height: real, left: Option<real>, top: Option<real>)
      modifies this
      ensures HoleWidth == width + Margin && HoleHeight == height + Margin
      ensures Left == (if Truthy(left) then left.value else 0.0) - Margin
      ensures Top == (if Truthy(top) then top.value else 0.0) - Margin
      ensures Opacity == 0.8
    {
      HoleWidth := width + Margin;
      HoleHeight := height + Margin;
      Left := (if Truthy(left) then left.value else 0.0) + -Margin;
      Top := (if Truthy(top) then top.value else 0.0) + -Margin;
      Opacity := 0.8;
    }

    /** The mask shows a hole for a `width` x `height` rectangle whose
        corner is shifted by (left, top). */
    ghost predicate Shows(width: real, height: real, left: real, top: real)
      reads this
    {
      && HoleWidth == width + Margin && HoleHeight == height + Margin
      && Left == left - Margin && Top == top - Margin
      && Opacity == 0.8
    }

    method Hide()
      modifies this`Opacity
      ensures Opacity == 0.0
    {
      Opacity := 0.0;
    }
  }

  /** A logical length drawn at a zoom ratio, in pixels. */
  function Scale(size: real, ratio: real): real {
    size * ratio
  }

  /** Fill mode takes the larger axis ratio, fit mode the smaller. */
  function Pick(fill: bool, a: real, b: real): real {
    if fill then Max(a, b) else Min(a, b)
  }

  /** `NeedsScrollbars`: the focus extent, scaled and rounded to a whole
      pixel, is wider than the canvas extent. */
  predicate NeedsScrollbars(focusSize: real, ratio: real, canvasSize: real) {
    Round(focusSize * ratio) as real > canvasSize
  }

  /** Outcome of the do/while loop of `_DoFocus`: the ratio, the canvas
      extents after reserving scrollbar room, the two bits of `Scrollbars`
      (bit 1: the width overflows, so a horizontal scrollbar takes height;
      bit 2: the height overflows, so a vertical scrollbar takes width), and
      how many passes the loop ran. */
  datatype Fit = Fit(ratio: real, width: real, height: real, horizontal: bool, vertical: bool, passes: nat)

  /** The loop of `_DoFocus` from a given state: compute the ratio; flag
      each axis not flagged yet that overflows, shrinking the other extent
      by the scrollbar size and starting a new pass when that size is not
      zero; stop when a pass flags nothing new. */
  function FitFrom(fw: real, fh: real, width: real, height: real, ss: real, fill: bool,
                   horizontal: bool, vertical: bool, passes: nat): Fit
    requires fw > 0.0 && fh > 0.0
    decreases (if horizontal then 0 else 1) + (if vertical then 0 else 1)
  {
    var ratio := Pick(fill, width / fw, height / fh);
    if !horizontal && NeedsScrollbars(fw, ratio, width) then
      if ss != 0.0 then FitFrom(fw, fh, width, height - ss, ss, fill, true, vertical, passes + 1)
      else if !vertical && NeedsScrollbars(fh, ratio, height - ss) then
        Fit(ratio, width - ss, height - ss, true, true, passes + 1)
      else Fit(ratio, width, height - ss, true, vertical, passes + 1)
    else if !vertical && NeedsScrollbars(fh, ratio, height) then
      if ss != 0.0 then FitFrom(fw, fh, width - ss, height, ss, fill, horizontal, true, passes + 1)
      else Fit(ratio, width - ss, height, horizontal, true, passes + 1)
    else Fit(ratio, width, height, horizontal, vertical, passes + 1)
  }

  /** One pass of the loop of `_DoFocus`: the ratio for the current
      extents, the extents and flags after it, and whether another pass
      follows (the `continue`s of the loop body). */
  method FitPass(fw: real, fh: real, width: real, height: real, ss: real, fill: bool,
                 horizontal: bool, vertical: bool, ghost passes: nat)
    returns (ratio: real, width': real, height': real, horizontal': bool, vertical': bool, more: bool)
    requires fw > 0.0 && fh > 0.0
    ensures ratio == Pick(fill, width / fw, height / fh)
    ensures more ==> FitFrom(fw, fh, width', height', ss, fill, horizontal', vertical', passes + 1)
                     == FitFrom(fw, fh, width, height, ss, fill, horizontal, vertical, passes)
    ensures more ==> (if horizontal' then 0 else 1) + (if vertical' then 0 else 1)
                     < (if horizontal then 0 else 1) + (if vertical then 0 else 1)
    ensures !more ==> FitFrom(fw, fh, width, height, ss, fill, horizontal, vertical, passes)
                      == Fit(ratio, width', height', horizontal', vertical', passes + 1)
  {
    ratio := Pick(fill, width / fw, height / fh);
    width', height', horizontal', vertical' := width, height, horizontal, vertical;
    more := false;
    if !horizontal && NeedsScrollbars(fw, ratio, width) {
      height' := height - ss;
      horizontal' := true;
      if ss != 0.0 {
        more := true;
        return;
      }
    }
    if !vertical' && NeedsScrollbars(fh, ratio, height') {
      width' := width - ss;
      vertical' := true;
      if ss != 0.0 {
        more := true;
        return;
      }
    }
  }

  /** The loop as `_DoFocus` starts it: full canvas, nothing flagged. */
  function FitFocus(fw: real, fh: real, width: real, height: real, ss: real, fill: bool): Fit
    requires fw > 0.0 && fh > 0.0
  {
    FitFrom(fw, fh, width, height, ss, fill, false, false, 0)
  }

  function Newly(before: bool, after: bool): nat {
    if after && !before then 1 else 0
  }

  /** What the loop guarantees from any state: flags are only ever added;
      each extent is shrunk once for each scrollbar the other axis gained;
      the ratio is the fit or fill ratio of the final extents; an unflagged
      axis does not overflow at that ratio; every pass but the last flags a
      new axis when the scrollbar size is not zero, and there is a single
      pass when it is zero, in which case the flags say exactly which axes
      overflow. */
  lemma {:induction false} FitFromFacts(fw: real, fh: real, w: real, h: real, ss: real, fill: bool,
                                        hz: bool, vt: bool, p: nat)
    requires fw > 0.0 && fh > 0.0 && ss >= 0.0
    ensures var f := FitFrom(fw, fh, w, h, ss, fill, hz, vt, p);
            && (hz ==> f.horizontal) && (vt ==> f.vertical)
            && f.width == w - (if f.vertical && !vt then ss else 0.0)
            && f.height == h - (if f.horizontal && !hz then ss else 0.0)
            && f.ratio == Pick(fill, f.width / fw, f.height / fh)
            && (!f.horizontal ==> !NeedsScrollbars(fw, f.ratio, f.width))
            && (!f.vertical ==> !NeedsScrollbars(fh, f.ratio, f.height))
            && (ss == 0.0 ==> f.passes == p + 1)
            && (ss != 0.0 ==> f.passes == p + 1 + Newly(hz, f.horizontal) + Newly(vt, f.vertical))
            && (ss == 0.0 && !hz ==> (f.horizontal <==> NeedsScrollbars(fw, f.ratio, w)))
            && (ss == 0.0 && !vt ==> (f.vertical <==> NeedsScrollbars(fh, f.ratio, h)))
    decreases (if hz then 0 else 1) + (if vt then 0 else 1)
  {
    var ratio := Pick(fill, w / fw, h / fh);
    if !hz && NeedsScrollbars(fw, ratio, w) {
      if ss != 0.0 {
        FitFromFacts(fw, fh, w, h - ss, ss, fill, true, vt, p + 1);
      }
    } else if !vt && NeedsScrollbars(fh, ratio, h) {
      if ss != 0.0 {
        FitFromFacts(fw, fh, w - ss, h, ss, fill, hz, true, p + 1);
      }
    }
  }

  /** The loop of `_DoFocus` runs at most three passes, exactly one when
      the scrollbar size is zero, and its ratio is the fit (minimum) or fill
      (maximum) of the axis ratios over the canvas left after reserving
      scrollbar room. With a canvas larger than the scrollbar size the ratio
      is positive. */
  lemma FitFocusFacts(fw: real, fh: real, w: real, h: real, ss: real, fill: bool)
    requires fw > 0.0 && fh > 0.0 && ss >= 0.0
    ensures var f := FitFocus(fw, fh, w, h, ss, fill);
            && 1 <= f.passes <= 3
            && (ss == 0.0 ==> f.passes == 1)
            && f.width == w - (if f.vertical then ss else 0.0)
            && f.height == h - (if f.horizontal then ss else 0.0)
            && f.ratio == (if fill then Max(f.width / fw, f.height / fh) else Min(f.width / fw, f.height / fh))
            && (!f.horizontal ==> !NeedsScrollbars(fw, f.ratio, f.width))
            && (!f.vertical ==> !NeedsScrollbars(fh, f.ratio, f.height))
            && (w > ss && h > ss ==> f.ratio > 0.0)
  {
    FitFromFacts(fw, fh, w, h, ss, fill, false, false, 0);
    var f := FitFocus(fw, fh, w, h, ss, fill);
    if w > ss && h > ss {
      assert f.width > 0.0 && f.height > 0.0;
      assert f.width / fw > 0.0 && f.height / fh > 0.0;
    }
  }

  /** A ratio no larger than canvas / size scales `size` to a whole number
      of pixels that still fits a canvas of whole pixels. */
  lemma ScaledFits(size: real, canvas: real, ratio: real)
    requires size > 0.0 && canvas == canvas.Floor as real && ratio <= canvas / size
    ensures !NeedsScrollbars(size, ratio, canvas)
  {
    assert size * ratio <= canvas by {
      assert size * (canvas / size) == canvas;
      assert size * (canvas / size) - size * ratio == size * (canvas / size - ratio);
      assert canvas / size - ratio >= 0.0;
    }
    var n := Round(size * ratio);
    assert (n as real) < canvas.Floor as real + 1.0;
    assert n <= canvas.Floor;
  }

  /** In fit mode on a canvas of whole pixels the scaled rectangle always
      fits, so no scrollbar is ever flagged and the ratio is
      min(width / fw, height / fh) of the full canvas. */
  lemma FitModeNeedsNoScrollbars(fw: real, fh: real, w: real, h: real, ss: real)
    requires fw > 0.0 && fh > 0.0 && ss >= 0.0
    requires w == w.Floor as real && h == h.Floor as real
    ensures var f := FitFocus(fw, fh, w, h, ss, false);
            && !f.horizontal && !f.vertical && f.passes == 1
            && f.ratio == Min(w / fw, h / fh)
  {
    var ratio := Min(w / fw, h / fh);
    ScaledFits(fw, w, ratio);
    ScaledFits(fh, h, ratio);
  }

  /** `_DoFocus`'s clip of the ratio: below a set minimum it becomes the
      minimum, otherwise above a set maximum it becomes the maximum; a null
      or 0 bound is ignored. */
  function ClampRatio(ratio: real, minRatio: Option<real>, maxRatio: Option<real>): (r: real)
    ensures r == ratio || (Truthy(minRatio) && r == minRatio.value) || (Truthy(maxRatio) && r == maxRatio.value)
    ensures !Truthy(minRatio) && !Truthy(maxRatio) ==> r == ratio
    ensures Truthy(minRatio) && (!Truthy(maxRatio) || minRatio.value <= maxRatio.value) ==> r >= minRatio.value
    ensures Truthy(maxRatio) && (!Truthy(minRatio) || minRatio.value <= maxRatio.value) ==> r <= maxRatio.value
    ensures ratio != 0.0 ==> r != 0.0
  {
    if Truthy(minRatio) && ratio < minRatio.value then minRatio.value
    else if Truthy(maxRatio) && ratio > maxRatio.value then maxRatio.value
    else ratio
  }

  /** `CalcCenterOffset`: when the scaled extent is smaller than the canvas,
      the logical shift that puts the centre of the scaled rectangle at the
      centre of the canvas (a point at logical distance d from the focus
      origin is drawn at (d - offset) * ratio); otherwise no shift. */
  function CenterOffset(pixelSize: real, canvasSize: real, ratio: real): (r: real)
    requires ratio != 0.0
    ensures pixelSize < canvasSize ==> pixelSize / 2.0 - r * ratio == canvasSize / 2.0
    ensures pixelSize >= canvasSize ==> r == 0.0
  {
    if pixelSize < canvasSize then -((canvasSize / 2.0) - (pixelSize / 2.0)) / ratio else 0.0
  }

  /** The worked example: a 400 x 300 focus on an 800 x 600 canvas in fit
      mode gets ratio 2, no scrollbars, and no centring shift. */
  lemma FitExample(ss: real)
    requires ss >= 0.0
    ensures FitFocus(400.0, 300.0, 800.0, 600.0, ss, false) == Fit(2.0, 800.0, 600.0, false, false, 1)
    ensures CenterOffset(400.0 * 2.0, 800.0, 2.0) == 0.0 && CenterOffset(300.0 * 2.0, 600.0, 2.0) == 0.0
  {
    assert Round(400.0 * 2.0) == 800;
    assert Round(300.0 * 2.0) == 600;
  }

  /** High-level canvas: the focus rectangle, the fit/fill mode, the ratio
      limits and the debounced recomputation on window resizes. */
  class HLCanvas {
    const LL: LLCanvas
    const S: Shade
    /** `_ScrollbarSize`: the browser's scrollbar thickness, measured once. */
    const ScrollbarSize: real
    var Focusing: bool
    var FocusX: real
    var FocusY: real
    var FocusMaxX: real
    var FocusMaxY: real
    var FillMode: bool
    var MinRatio: Option<real>
    var MaxRatio: Option<real>
    var Ratio: Option<real>
    /** `_ResizeEvent` is registered as a window resize listener. */
    var ResizeListening: bool
    /** `_ResizeTimer`: the handle of the last timer scheduled. */
    var ResizeTimer: Option<nat>
    /** The handle the next `setTimeout` returns. */
    var NextTimer: nat
    /** Timers scheduled and neither fired nor cleared. */
    ghost var Pending: set<nat>

    ghost predicate Valid()
      reads this, LL
    {
      && LL.Valid()
      && ScrollbarSize >= 0.0
      && FocusMaxX > FocusX && FocusMaxY > FocusY
      && Pending <= (if ResizeTimer.Some? then {ResizeTimer.value} else {})
    }

    /** Everything the camera records apart from its fill mode. */
    ghost function AllButMode(): (bool, real, real, real, real, Option<real>, Option<real>, Option<real>,
                                  bool, Option<nat>, nat, set<nat>)
      reads this
    {
      (Focusing, FocusX, FocusY, FocusMaxX, FocusMaxY, MinRatio, MaxRatio, Ratio,
       ResizeListening, ResizeTimer, NextTimer, Pending)
    }

    /** The ratio limits and the resize timers: what focusing leaves alone. */
    ghost function Settings(): (Option<real>, Option<real>, Option<nat>, nat, set<nat>)
      reads this
    {
      (MinRatio, MaxRatio, ResizeTimer, NextTimer, Pending)
    }

    /** The surface is larger than the scrollbars, so every ratio is positive. */
    predicate Fits(surf: Surface)
      reads this
    {
      surf.Valid() && surf.width > ScrollbarSize && surf.height > ScrollbarSize
    }

    constructor (ll: LLCanvas, s: Shade, scrollbarSize: real)
      requires ll.Valid() && scrollbarSize >= 0.0
      ensures Valid() && LL == ll && S == s && ScrollbarSize == scrollbarSize
      ensures !Focusing && FocusX == 0.0 && FocusY == 0.0 && FocusMaxX == 100.0 && FocusMaxY == 100.0
      ensures !FillMode && MinRatio == None && MaxRatio == None && Ratio == None
      ensures !ResizeListening && ResizeTimer == None && Pending == {}
    {
      LL, S := ll, s;
      ScrollbarSize := scrollbarSize;
      Focusing := false;
      FocusX, FocusY := 0.0, 0.0;
      FocusMaxX, FocusMaxY := 100.0, 100.0;
      FillMode := false;
      MinRatio, MaxRatio, Ratio := None, None, None;
      ResizeListening := false;
      ResizeTimer := None;
      NextTimer := 1;
      Pending := {};
    }

    /** Width and height of the focus rectangle. */
    function FocusWidth(): real
      reads this`FocusX, this`FocusMaxX
    {
      FocusMaxX - FocusX
    }

    function FocusHeight(): real
      reads this`FocusY, this`FocusMaxY
    {
      FocusMaxY - FocusY
    }

    /** The outcome of the fixed-point loop for the current focus. */
    ghost function Plan(surf: Surface): Fit
      reads this`FocusX, this`FocusY, this`FocusMaxX, this`FocusMaxY, this`FillMode
      requires FocusMaxX > FocusX && FocusMaxY > FocusY
    {
      FitFocus(FocusWidth(), FocusHeight(), surf.width, surf.height, ScrollbarSize, FillMode)
    }

    /** The focus is shown at ratio `r` with its corner at logical (ox, oy):
        the ratio is recorded, the camera is placed there (in scroll mode
        over the focus rectangle shifted to that corner, positioned at
        (tx, ty), when an axis needs a scrollbar), and the shade's hole is
        the scaled focus, shifted by half a scrollbar on the axes that have
        one. */
    ghost predicate FramedAt(r: real, ox: real, oy: real, horizontal: bool, vertical: bool,
                             tx: real, ty: real, surf: Surface)
      reads this`Ratio, this`FocusX, this`FocusY, this`FocusMaxX, this`FocusMaxY, LL, S
    {
      && Ratio == Some(r)
      && LL.Placed(ox, oy, ox + FocusWidth(), oy + FocusHeight(), r, horizontal || vertical, tx, ty, surf)
      && S.Shows(Scale(FocusWidth(), r), Scale(FocusHeight(), r),
                 if vertical then -(ScrollbarSize / 2.0) else 0.0, if horizontal then -(ScrollbarSize / 2.0) else 0.0)
    }

    /** The ratio and the focus corner `_DoFocus` computes: the loop's ratio
        clipped to the limits, and the corner shifted so the scaled focus is
        centred on the canvas left after reserving scrollbar room. */
    ghost function FramePoint(surf: Surface): (p: (real, real, real))
      reads this`FocusX, this`FocusY, this`FocusMaxX, this`FocusMaxY, this`FillMode, this`MinRatio, this`MaxRatio
      requires FocusMaxX > FocusX && FocusMaxY > FocusY && Plan(surf).ratio != 0.0
    {
      var f := Plan(surf);
      var r := ClampRatio(f.ratio, MinRatio, MaxRatio);
      (r, FocusX + CenterOffset(Scale(FocusWidth(), r), f.width, r), FocusY + CenterOffset(Scale(FocusHeight(), r), f.height, r))
    }

    /** The state `_DoFocus` leaves for the current focus and surface. */
    ghost predicate Framed(tx: real, ty: real, surf: Surface)
      reads this`Ratio, this`FocusX, this`FocusY, this`FocusMaxX, this`FocusMaxY, this`FillMode,
            this`MinRatio, this`MaxRatio, LL, S
      requires FocusMaxX > FocusX && FocusMaxY > FocusY && Plan(surf).ratio != 0.0
    {
      var p := FramePoint(surf);
      FramedAt(p.0, p.1, p.2, Plan(surf).horizontal, Plan(surf).vertical, tx, ty, surf)
    }

    /** The camera half of `_DoFocus`'s last step: without scrollbars leave
        scroll mode and move to (x, y); otherwise enter scroll mode over
        [x, x + focus width] x [y, y + focus height]. */
    method PlaceCamera(x: real, y: real, zoom: real, scroll: bool, fx: Option<real>, fy: Option<real>, surf: Surface)
      requires LL.Valid() && surf.Valid() && zoom != 0.0
      modifies LL
      ensures LL.Placed(x, y, x + FocusWidth(), y + FocusHeight(), zoom, scroll, fx.GetOr(old(LL.X)), fy.GetOr(old(LL.Y)), surf)
    {
      if !scroll {
        LL.DisableScrollbars();
        LL.SetPos(x, y, zoom, false, surf);
      } else {
        LL.EnableScrollbars(x, y, x + FocusWidth(), y + FocusHeight(), fx, fy, zoom, surf);
      }
    }

    /** The part of `_DoFocus` after its loop: clip the ratio, centre,
        choose between plain positioning and scroll mode, size the shade. */
    method ApplyFit(fitRatio: real, canvasWidth: real, canvasHeight: real, horizontal: bool, vertical: bool,
                    fx: Option<real>, fy: Option<real>, surf: Surface)
      returns (ratio: real, offsetX: real, offsetY: real)
      requires Valid() && surf.Valid() && fitRatio != 0.0
      modifies this`Ratio, LL, S
      ensures Valid()
      ensures ratio == ClampRatio(fitRatio, MinRatio, MaxRatio) && ratio != 0.0
      ensures offsetX == FocusX + CenterOffset(Scale(FocusWidth(), ratio), canvasWidth, ratio)
      ensures offsetY == FocusY + CenterOffset(Scale(FocusHeight(), ratio), canvasHeight, ratio)
      ensures FramedAt(ratio, offsetX, offsetY, horizontal, vertical, fx.GetOr(old(LL.X)), fy.GetOr(old(LL.Y)), surf)
    {
      var fw := FocusWidth();
      var fh := FocusHeight();
      ratio := ClampRatio(fitRatio, MinRatio, MaxRatio);
      Ratio := Some(ratio);

      var pixelWidth := Scale(fw, ratio);
      var pixelHeight := Scale(fh, ratio);
      offsetX := FocusX + CenterOffset(pixelWidth, canvasWidth, ratio);
      offsetY := FocusY + CenterOffset(pixelHeight, canvasHeight, ratio);

      PlaceCamera(offsetX, offsetY, ratio, horizontal || vertical, fx, fy, surf);

      var left := if vertical then Some(-(ScrollbarSize / 2.0)) else None;
      var top := if horizontal then Some(-(ScrollbarSize / 2.0)) else None;
      S.SetSize(pixelWidth, pixelHeight, left, top);
      assert fw == FocusWidth() && fh == FocusHeight();
      assert pixelWidth == Scale(FocusWidth(), ratio) && pixelHeight == Scale(FocusHeight(), ratio);
    }

    /** The do/while loop of `_DoFocus`: recompute the ratio, and flag and
        make room for scrollbars, until a pass flags nothing new; its
        outcome is `Plan`. */
    method FitLoop(surf: Surface) returns (ratio: real, canvasWidth: real, canvasHeight: real,
                                           horizontal: bool, vertical: bool)
      requires Valid() && Fits(surf)
      modifies this`Ratio
      ensures Ratio == Some(ratio)
      ensures var f := Plan(surf);
              ratio == f.ratio && canvasWidth == f.width && canvasHeight == f.height
              && horizontal == f.horizontal && vertical == f.vertical
    {
      var fw := FocusWidth();
      var fh := FocusHeight();
      canvasWidth, canvasHeight := surf.width, surf.height;
      horizontal, vertical := false, false;
      ghost var passes: nat := 0;
      ghost var plan := Plan(surf);
      var fill := FillMode;
      ratio := 0.0;
      var more := true;
      while more
        invariant more ==> FitFrom(fw, fh, canvasWidth, canvasHeight, ScrollbarSize, fill, horizontal, vertical, passes) == plan
        invariant !more ==> plan == Fit(ratio, canvasWidth, canvasHeight, horizontal, vertical, passes)
        invariant !more ==> Ratio == Some(ratio)
        decreases more, (if horizontal then 0 else 1) + (if vertical then 0 else 1)
      {
        ratio, canvasWidth, canvasHeight, horizontal, vertical, more :=
          FitPass(fw, fh, canvasWidth, canvasHeight, ScrollbarSize, fill, horizontal, vertical, passes);
        passes := passes + 1;
        Ratio := Some(ratio);
      }
      assert plan == Fit(ratio, canvasWidth, canvasHeight, horizontal, vertical, passes);
    }

    /** `_DoFocus`: a no-op unless focusing; otherwise run the fixed-point
        loop and apply its outcome. A missing (fx, fy) keeps the camera's
        current position as the scroll target. */
    method DoFocus(fx: Option<real>, fy: Option<real>, surf: Surface)
      requires Valid() && Fits(surf)
      modifies this`Ratio, LL, S
      ensures Valid()
      ensures !Focusing ==> Ratio == old(Ratio) && unchanged(LL, S)
      ensures Focusing ==> Plan(surf).ratio > 0.0 && Framed(fx.GetOr(old(LL.X)), fy.GetOr(old(LL.Y)), surf)
    {
      if !Focusing {
        return;
      }
      var ratio, canvasWidth, canvasHeight, horizontal, vertical := FitLoop(surf);
      FitFocusFacts(FocusWidth(), FocusHeight(), surf.width, surf.height, ScrollbarSize, FillMode);
      ghost var plan := Plan(surf);
      var r, ox, oy := ApplyFit(ratio, canvasWidth, canvasHeight, horizontal, vertical, fx, fy, surf);
      assert Plan(surf) == plan;
      assert FramePoint(surf) == (r, ox, oy);
    }

    /** `SetFocus`: remember the rectangle, frame it, and listen for resizes. */
    method SetFocus(x1: real, y1: real, x2: real, y2: real, fx: Option<real>, fy: Option<real>, surf: Surface)
      requires Valid() && Fits(surf) && x2 > x1 && y2 > y1
      modifies this, LL, S
      ensures Valid()
      ensures Focusing && ResizeListening
      ensures FocusX == x1 && FocusY == y1 && FocusMaxX == x2 && FocusMaxY == y2
      ensures FillMode == old(FillMode) && MinRatio == old(MinRatio) && MaxRatio == old(MaxRatio)
      ensures ResizeTimer == old(ResizeTimer) && Pending == old(Pending) && NextTimer == old(NextTimer)
      ensures Plan(surf).ratio > 0.0 && Framed(fx.GetOr(old(LL.X)), fy.GetOr(old(LL.Y)), surf)
    {
      FocusOn(x1, y1, x2, y2, fx, fy, surf);
      ResizeListening := true;
    }

    /** The first half of `SetFocus`: record the rectangle and frame it. */
    method FocusOn(x1: real, y1: real, x2: real, y2: real, fx: Option<real>, fy: Option<real>, surf: Surface)
      requires Valid() && Fits(surf) && x2 > x1 && y2 > y1
      modifies this`Focusing, this`FocusX, this`FocusY, this`FocusMaxX, this`FocusMaxY, this`Ratio, LL, S
      ensures Valid() && Focusing
      ensures FocusX == x1 && FocusY == y1 && FocusMaxX == x2 && FocusMaxY == y2
      ensures Plan(surf).ratio > 0.0 && Framed(fx.GetOr(old(LL.X)), fy.GetOr(old(LL.Y)), surf)
    {
      Focusing := true;
      FocusX, FocusY := x1, y1;
      FocusMaxX, FocusMaxY := x2, y2;
      DoFocus(fx, fy, surf);
    }

    /** `RemoveFocus`: stop focusing, stop listening, clear the pending
        timer and hide the shade. */
    method RemoveFocus()
      requires Valid()
      modifies this`Focusing, this`ResizeListening, this`ResizeTimer, this`Pending, S`Opacity
      ensures Valid()
      ensures !Focusing && !ResizeListening && ResizeTimer == None && Pending == {}
      ensures S.Opacity == 0.0
      ensures FocusX == old(FocusX) && FocusY == old(FocusY) && FocusMaxX == old(FocusMaxX) && FocusMaxY == old(FocusMaxY)
      ensures FillMode == old(FillMode) && MinRatio == old(MinRatio) && MaxRatio == old(MaxRatio)
      ensures Ratio == old(Ratio) && NextTimer == old(NextTimer)
      ensures S.HoleWidth == old(S.HoleWidth) && S.HoleHeight == old(S.HoleHeight)
      ensures S.Left == old(S.Left) && S.Top == old(S.Top)
    {
      Focusing := false;
      ResizeListening := false;
      if ResizeTimer.Some? {
        Pending := Pending - {ResizeTimer.value};
      }
      ResizeTimer := None;
      S.Hide();
    }

    /** `_ResizeEvent`: clear the pending timer, if any, before scheduling a
        new one 500ms later, so at most one is ever pending. It runs only as
        the registered window resize listener. */
    method ResizeEvent()
      requires Valid() && ResizeListening
      modifies this`ResizeTimer, this`NextTimer, this`Pending
      ensures Valid()
      ensures ResizeTimer == Some(old(NextTimer)) && Pending == {old(NextTimer)}
      ensures NextTimer == old(NextTimer) + 1
    {
      if ResizeTimer.Some? {
        Pending := Pending - {ResizeTimer.value};
        ResizeTimer := None;
      }
      ResizeTimer := Some(NextTimer);
      Pending := Pending + {NextTimer};
      NextTimer := NextTimer + 1;
    }

    /** The pending timer fires and runs `_DoFocus` with no scroll target. */
    method ResizeTimerFires(timer: nat, surf: Surface)
      requires Valid() && Fits(surf) && timer in Pending
      modifies this`Ratio, this`Pending, LL, S
      ensures Valid() && Pending == {}
      ensures !Focusing ==> Ratio == old(Ratio) && unchanged(LL, S)
      ensures Focusing ==> Plan(surf).ratio > 0.0 && Framed(old(LL.X), old(LL.Y), surf)
    {
      Pending := Pending - {timer};
      DoFocus(None, None, surf);
    }

    /** `SetRatioLimits`: 0 leaves a limit as it is, null clears it. */
    method SetRatioLimits(minRatio: Option<real>, maxRatio: Option<real>)
      modifies this`MinRatio, this`MaxRatio
      ensures MinRatio == if minRatio == Some(0.0) then old(MinRatio) else minRatio
      ensures MaxRatio == if maxRatio == Some(0.0) then old(MaxRatio) else maxRatio
    {
      if minRatio != Some(0.0) {
        MinRatio := minRatio;
      }
      if maxRatio != Some(0.0) {
        MaxRatio := maxRatio;
      }
    }

    /** The `FillMode` setter. */
    method SetFillMode(fill: bool)
      modifies this`FillMode
      ensures FillMode == fill
    {
      FillMode := fill;
    }
  }
}
