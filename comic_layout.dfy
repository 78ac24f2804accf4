/** Page geometry of the comic viewer (frontend/s/comic.js): the size each
    page element gets, the direction pages are laid out in, and the chain of
    page rectangles that `_CalcEleOffsets` builds one page after the other. */
module ComicLayout {
  import opened Common

  /** Width and height of a page image or page element. */
  datatype Size = Size(w: real, h: real)

  /** A page rectangle on the canvas: corners (x1, y1) and (x2, y2). */
  datatype Rect = Rect(x1: real, y1: real, x2: real, y2: real)

  /** The direction vector decoded from the metadata's `Direction`: "Left",
      "Down" and "Up" have their own vectors, anything else (including a
      missing direction and "Right") lays pages out to the right. */
  function DirectionVector(name: string): (d: (int, int))
    ensures d == (1, 0) || d == (-1, 0) || d == (0, 1) || d == (0, -1)
    ensures d.0 == -1 <==> name == "Left"
    ensures d.1 == 1 <==> name == "Down"
    ensures d.1 == -1 <==> name == "Up"
  {
    if name == "Left" then (-1, 0)
    else if name == "Down" then (0, 1)
    else if name == "Up" then (0, -1)
    else (1, 0)
  }

  /** `_CalcEleSize`: the element size of a page. Forced sizes `fw`, `fh`
      (null or 0 when unset) override the image size; when only one of them
      is set, the other side is scaled by the same factor. With no forced
      pair and no image size (a page still streaming in) there is no size. */
  function CalcEleSize(fw: Option<real>, fh: Option<real>, image: Option<Size>): (r: Option<Size>)
    requires image.Some? && Truthy(fw) && !Truthy(fh) ==> image.value.w != 0.0
    requires image.Some? && !Truthy(fw) && Truthy(fh) ==> image.value.h != 0.0
    ensures Truthy(fw) && Truthy(fh) ==> r == Some(Size(fw.value, fh.value))
    ensures !(Truthy(fw) && Truthy(fh)) ==> (r.Some? <==> image.Some?)
    ensures Truthy(fw) && !Truthy(fh) && image.Some? ==>
              r.value.w == fw.value && r.value.h * image.value.w == image.value.h * fw.value
    ensures !Truthy(fw) && Truthy(fh) && image.Some? ==>
              r.value.h == fh.value && r.value.w * image.value.h == image.value.w * fh.value
    ensures !Truthy(fw) && !Truthy(fh) ==> r == image
  {
    if Truthy(fw) && Truthy(fh) then Some(Size(fw.value, fh.value))
    else if image.Some? then
      var w, h := image.value.w, image.value.h;
      if Truthy(fw) then Some(Size(fw.value, h * (fw.value / w)))
      else if Truthy(fh) then Some(Size(w * (fh.value / h), fh.value))
      else Some(Size(w, h))
    else None
  }

  /** Centre of the interval [lo, hi]. */
  function CalcCenter(lo: real, hi: real): real {
    (hi - lo) / 2.0 + lo
  }

  /** One axis of `_CalcPageBasePos`: the centre of the previous page on a
      0 axis, otherwise its far edge in the direction of travel, padded. */
  function HandleAxis(dir: int, lo: real, hi: real, padding: real): real {
    if dir == 0 then CalcCenter(lo, hi)
    else if dir < 0 then Min(lo - padding, hi + padding)
    else Max(lo - padding, hi + padding)
  }

  /** `_CalcPageBasePos`: the anchor point the next page is placed against. */
  function BasePos(dx: int, dy: int, padding: real, prev: Rect): (real, real) {
    (HandleAxis(dx, prev.x1, prev.x2, padding), HandleAxis(dy, prev.y1, prev.y2, padding))
  }

  /** `_CalcNewPagePos`: the shift from the anchor to the new page's corner,
      ((d - 1) / 2) times its size on each axis. */
  function NewPagePos(dx: int, dy: int, s: Size): (real, real) {
    (((dx - 1) as real / 2.0) * s.w, ((dy - 1) as real / 2.0) * s.h)
  }

  /** The rectangle of page 0. */
  function FirstRect(s: Size): Rect {
    Rect(0.0, 0.0, s.w, s.h)
  }

  /** One step of the loop in `_CalcEleOffsets`: the rectangle of the page
      of size `s` that follows the page at `prev`. */
  function NextRect(dx: int, dy: int, padding: real, prev: Rect, s: Size): (r: Rect)
    ensures r.x2 - r.x1 == s.w && r.y2 - r.y1 == s.h
  {
    var base := BasePos(dx, dy, padding, prev);
    var shift := NewPagePos(dx, dy, s);
    var x, y := base.0 + shift.0, base.1 + shift.1;
    Rect(x, y, x + s.w, y + s.h)
  }

  /** From index `k` on (and never for page 0), every rectangle is the
      successor of the one before it. */
  ghost predicate ChainsFrom(dx: int, dy: int, padding: real, sizes: seq<Size>, r: seq<Rect>, k: int)
    requires |r| == |sizes|
  {
    forall i :: 0 < i < |r| && k <= i ==> r[i] == NextRect(dx, dy, padding, r[i - 1], sizes[i])
  }

  /** `r` is the complete layout of pages of the given sizes. */
  ghost predicate IsLayout(dx: int, dy: int, padding: real, sizes: seq<Size>, r: seq<Rect>) {
    && |r| == |sizes|
    && (|r| > 0 ==> r[0] == FirstRect(sizes[0]))
    && ChainsFrom(dx, dy, padding, sizes, r, 1)
  }

  /** One of the four direction vectors. */
  predicate UnitDirection(dx: int, dy: int) {
    (dx, dy) == (1, 0) || (dx, dy) == (-1, 0) || (dx, dy) == (0, 1) || (dx, dy) == (0, -1)
  }

  ghost predicate NonNegative(sizes: seq<Size>) {
    forall i :: 0 <= i < |sizes| ==> sizes[i].w >= 0.0 && sizes[i].h >= 0.0
  }

  /** Every page's rectangle has exactly that page's size, and page 0 sits
      at the origin. */
  lemma LayoutSizes(dx: int, dy: int, padding: real, sizes: seq<Size>, r: seq<Rect>, i: int)
    requires IsLayout(dx, dy, padding, sizes, r) && 0 <= i < |r|
    ensures r[i].x2 - r[i].x1 == sizes[i].w && r[i].y2 - r[i].y1 == sizes[i].h
    ensures i == 0 ==> r[i].x1 == 0.0 && r[i].y1 == 0.0
  {
    if i > 0 {
      assert r[i] == NextRect(dx, dy, padding, r[i - 1], sizes[i]);
    }
  }

  /** Adjacency: on an axis with direction +1 the new page starts one
      padding after the previous page ends, with direction -1 it ends one
      padding before the previous page starts, and on a 0 axis both pages
      share their centre. */
  lemma LayoutAdjacent(dx: int, dy: int, padding: real, sizes: seq<Size>, r: seq<Rect>, i: int)
    requires IsLayout(dx, dy, padding, sizes, r) && NonNegative(sizes) && padding >= 0.0
    requires UnitDirection(dx, dy) && 0 < i < |r|
    ensures dx > 0 ==> r[i].x1 == r[i - 1].x2 + padding
    ensures dx < 0 ==> r[i].x2 == r[i - 1].x1 - padding
    ensures dx == 0 ==> r[i].x1 + r[i].x2 == r[i - 1].x1 + r[i - 1].x2
    ensures dy > 0 ==> r[i].y1 == r[i - 1].y2 + padding
    ensures dy < 0 ==> r[i].y2 == r[i - 1].y1 - padding
    ensures dy == 0 ==> r[i].y1 + r[i].y2 == r[i - 1].y1 + r[i - 1].y2
  {
    LayoutSizes(dx, dy, padding, sizes, r, i - 1);
    var p, s := r[i - 1], sizes[i];
    assert r[i] == NextRect(dx, dy, padding, p, s);
    assert p.x2 - p.x1 >= 0.0 && p.y2 - p.y1 >= 0.0;
  }

  /** With a purely horizontal direction every page is centred on the same
      horizontal line (and likewise for a vertical direction). */
  lemma {:induction false} LayoutCentresAligned(dx: int, dy: int, padding: real, sizes: seq<Size>, r: seq<Rect>, i: int)
    requires IsLayout(dx, dy, padding, sizes, r) && NonNegative(sizes) && padding >= 0.0
    requires UnitDirection(dx, dy) && 0 <= i < |r|
    ensures dy == 0 ==> r[i].y1 + r[i].y2 == sizes[0].h
    ensures dx == 0 ==> r[i].x1 + r[i].x2 == sizes[0].w
  {
    if i > 0 {
      LayoutCentresAligned(dx, dy, padding, sizes, r, i - 1);
      LayoutAdjacent(dx, dy, padding, sizes, r, i);
    }
  }

  /** Pages of one size laid out to the right: page i spans
      [i * (w + padding), i * (w + padding) + w] across and [0, h] down
      (five 100 x 100 pages without padding start at 0, 100, 200, 300, 400). */
  lemma {:induction false} UniformRowLayout(padding: real, sizes: seq<Size>, r: seq<Rect>, w: real, h: real, i: int)
    requires IsLayout(1, 0, padding, sizes, r) && w >= 0.0 && h >= 0.0 && padding >= 0.0
    requires forall j :: 0 <= j < |sizes| ==> sizes[j] == Size(w, h)
    requires 0 <= i < |r|
    ensures r[i] == Rect(i as real * (w + padding), 0.0, i as real * (w + padding) + w, h)
  {
    if i > 0 {
      UniformRowLayout(padding, sizes, r, w, h, i - 1);
      var p := r[i - 1];
      assert r[i] == NextRect(1, 0, padding, p, Size(w, h));
      assert (i - 1) as real * (w + padding) + w + padding == i as real * (w + padding);
    }
  }

  /** A layout is determined by the sizes: two layouts of the same pages
      agree on every rectangle. */
  lemma {:induction false} LayoutUnique(dx: int, dy: int, padding: real, sizes: seq<Size>, a: seq<Rect>, b: seq<Rect>, i: int)
    requires IsLayout(dx, dy, padding, sizes, a) && IsLayout(dx, dy, padding, sizes, b)
    requires 0 <= i < |a|
    ensures a[..i + 1] == b[..i + 1]
  {
    if i > 0 {
      LayoutUnique(dx, dy, padding, sizes, a, b, i - 1);
      assert a[i - 1] == a[..i][i - 1] == b[..i][i - 1] == b[i - 1];
      assert a[..i + 1] == a[..i] + [a[i]];
      assert b[..i + 1] == b[..i] + [b[i]];
    }
  }

  /** Incremental recompute: if the first `k` rectangles are a layout of the
      first `k` pages and every later rectangle follows the one before it,
      the whole sequence is the layout of all pages, hence the same as a
      recompute from page 0. */
  lemma IncrementalLayout(dx: int, dy: int, padding: real, sizes: seq<Size>, r: seq<Rect>, k: int, full: seq<Rect>)
    requires |r| == |sizes| && 0 < k <= |r|
    requires IsLayout(dx, dy, padding, sizes[..k], r[..k])
    requires ChainsFrom(dx, dy, padding, sizes, r, k)
    requires IsLayout(dx, dy, padding, sizes, full)
    ensures IsLayout(dx, dy, padding, sizes, r)
    ensures r == full
  {
    forall i | 0 < i < |r|
      ensures r[i] == NextRect(dx, dy, padding, r[i - 1], sizes[i])
    {
      if i < k {
        assert r[..k][i] == r[i] && r[..k][i - 1] == r[i - 1] && sizes[..k][i] == sizes[i];
      }
    }
    assert r[..k][0] == r[0];
    LayoutUnique(dx, dy, padding, sizes, r, full, |r| - 1);
    assert r == r[..|r|] && full == full[..|r|];
  }
}
