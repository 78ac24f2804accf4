# Rickert comic viewer: pager, camera and Dark Horse converter

This project is a Dafny model of the core of the Rickert comic viewer. It has three parts.

- **The pager** (`frontend/s/comic.js`, class `Comic`). It lays the pages of a comic out on one
  large canvas, one after the other in the reading direction. It keeps a bounded cache of loaded
  pages around the current page. It points the camera at a whole page or at one of the page's
  viewpoints (panels), and moves page by page or viewpoint by viewpoint.
- **The camera** (`frontend/s/canvas.js`).
  - `LLCanvas` applies a position and zoom to the canvas. In scroll mode it follows a native
    scrolling element.
  - `Shade` masks everything outside the focused rectangle.
  - `HLCanvas` fits (or fills) a focus rectangle into the window. Its fixed-point loop reserves
    room for scrollbars when the scaled rectangle overflows. It clips the zoom ratio to optional
    limits, centres the rectangle, and recomputes the framing 500 ms after a window resize.
- **The converter** (`scripts/DarkHorseToVPs.py`). It turns a Dark Horse Comics metadata file into
  the viewer's per-page viewpoint lists. It walks the pages in reading order (backwards for
  right-to-left books) and checks page and viewport sort orders. It normalises every viewport to
  fractions of its page, rounded to three decimals. A page whose only viewport covers the whole
  page gets no list.

## Modules

| file | module | models |
|---|---|---|
| `common.dfy` | `Common` | `Option`, `Result`, JavaScript `Math.round`, `Math.min`/`max`, and truthiness of a nullable number |
| `comic_layout.dfy` | `ComicLayout` | `_CalcEleSize`, `_CalcPageBasePos`, `_CalcNewPagePos`, and the chain of page rectangles of `_CalcEleOffsets` |
| `comic_cache.dfy` | `ComicCache` | `_CullLoadedPages` and `LoadPage` as functions on the insertion-ordered list of loaded pages |
| `comic.dfy` | `ComicPager` | `_SetFocus`, the move target of `Move`, and class `Comic` with its mutable state |
| `canvas.dfy` | `Canvas` | classes `LLCanvas`, `Shade` and `HLCanvas`; the `_DoFocus` loop as the function `FitFrom` |
| `dark_horse.dfy` | `DarkHorse` | `RoundDict` and `ProcessDHFile`, with the function `Process` that specifies them |

### Modelling choices

- **Numbers.** JavaScript numbers and Python floats are `real`.
  - `Math.round(x)` is `floor(x + 1/2)`.
  - Python's `round(v, 3)` rounds `v * 1000` to the nearest integer, ties to even.
- **The browser** is a `Surface` value passed to each call: the canvas size and the scrolling
  element's offsets and scrollable range. The scrollbar thickness is a constructor parameter of
  `HLCanvas`.
- **Timers.** `setTimeout` and `clearTimeout` are a counter of timer handles and a set of pending
  timers. A timer firing is the method `ResizeTimerFires`.
- **The page cache.** The source's `Map` of loaded pages is a sequence of `(page, slot)` entries,
  oldest first. A slot (the page's DOM element and image) is an opaque serial number.
- **The converter's inputs and outputs.**
  - The decoded JSON file is a `Book` value.
  - Everything printed to standard error is a sequence of `Warning`s.
  - The exceptions are an `Error` value. `Error` includes Python's own `TypeError` for a null
    sort order compared against a number, and `ZeroDivisionError` for a page of zero width or
    height.
- **The cache bound.** `_MaxLoaded` is documented at `frontend/s/comic.js:25` as the most pages
  kept loaded. Eviction runs before the new page is inserted, so the cache can hold
  `MaxLoaded + 1` pages after a load. The cache invariant states that bound.
- **Readings of the code.**
  - A `Direction` of `"Up"` falls through to the default case. That case keeps the vector
    (0, -1) already set.
  - `HLCanvas` initialises a field `_MaxRatio` but reads `MaxRatio`. Both are unset at first,
    so the model has a single `MaxRatio`.
- **`Comic.Move`** uses the corrected choice of the first or last viewpoint of the neighbouring
  page, described under Findings. The behaviour as written is kept beside it as
  `MoveTargetAsWritten`.

## Model

| member | source | states |
|---|---|---|
| ComicLayout.DirectionVector | frontend/s/comic.js:34-50 | the layout direction is one of the four unit vectors; it points left exactly for "Left", down exactly for "Down", up exactly for "Up", and right otherwise (including a missing direction) |
| ComicLayout.CalcEleSize | frontend/s/comic.js:114-129 | forced width and height win; a single forced side scales the other side by the same factor (the aspect ratio is kept); without forcing, the image size is used; a page still streaming in has no size |
| ComicLayout.HandleAxis | frontend/s/comic.js:318-322 | (no contract) one axis of the anchor: the centre of the previous page on a 0 axis, otherwise its padded far edge in the direction of travel; `LayoutAdjacent` states the result |
| ComicLayout.BasePos | frontend/s/comic.js:314-326 | (no contract) `HandleAxis` on both axes of the previous page's rectangle |
| ComicLayout.NewPagePos | frontend/s/comic.js:327-331 | (no contract) the shift from the anchor to the new page's corner, ((d - 1) / 2) times its size on each axis |
| ComicLayout.NextRect | frontend/s/comic.js:343-351 | the rectangle of the next page has exactly that page's size; `LayoutAdjacent` states where it sits |
| ComicLayout.LayoutSizes | frontend/s/comic.js:332-353 | every laid-out page rectangle has exactly its page's element size, and page 0 sits at the origin |
| ComicLayout.LayoutAdjacent | frontend/s/comic.js:314-331 | each page is placed one padding beyond the previous page's far edge in the reading direction, and centred on the previous page's centre on the other axis |
| ComicLayout.LayoutCentresAligned | frontend/s/comic.js:314-353 | in a horizontal layout every page shares page 0's horizontal centre line (likewise vertically) |
| ComicLayout.UniformRowLayout | frontend/s/comic.js:332-353 | pages of one size laid out to the right start at multiples of width plus padding |
| ComicLayout.LayoutUnique | frontend/s/comic.js:332-353 | the layout is determined by the page sizes, direction and padding |
| ComicLayout.IncrementalLayout | frontend/s/comic.js:340-352 | recomputing the offsets from a later start page gives the same layout as recomputing from page 0 |
| ComicCache.CullFrom | frontend/s/comic.js:166-178 | (no contract) the loop of `_CullLoadedPages`: oldest first, skip protected pages, delete the others until `toRemove` are gone; the lemmas below state its properties |
| ComicCache.Culled | frontend/s/comic.js:161-179 | (no contract) nothing happens unless more than `MaxLoaded` pages are loaded, then `CullFrom` with the excess; `CulledProperties` states its properties |
| ComicCache.Load | frontend/s/comic.js:197-238 | (no contract) a loaded or out-of-range page changes nothing; otherwise cull, then append the page with a fresh slot; `LoadProperties` states its properties |
| ComicCache.LoadWindow | frontend/s/comic.js:264-265 | (no contract) `Load` for every page of a window, in order; `LoadWindowProperties` states its properties |
| ComicCache.CullCount | frontend/s/comic.js:161-179 | eviction removes exactly min(excess, number of unprotected pages) entries |
| ComicCache.CullKeepsProtected | frontend/s/comic.js:166-170 | a page within `SafeNeighbours` of the current page is never evicted |
| ComicCache.CullIsSubsequence | frontend/s/comic.js:166-178 | the surviving entries keep their slots and their relative (insertion) order |
| ComicCache.CullSubset | frontend/s/comic.js:166-178 | eviction never adds an entry |
| ComicCache.CullEvictsOldestFirst | frontend/s/comic.js:166-178 | if an unprotected page is evicted, every unprotected page loaded before it is evicted too |
| ComicCache.ProtectedAtMost | frontend/s/comic.js:168-170 | at most 2 * SafeNeighbours + 1 distinct pages are protected, so all other loaded pages are candidates for eviction |
| ComicCache.CulledProperties | frontend/s/comic.js:161-179 | culling keeps only loaded entries, keeps every protected one, preserves order, and brings an over-full cache down to at most MaxLoaded |
| ComicCache.LoadProperties | frontend/s/comic.js:197-238 | loading keeps the cache invariant (distinct pages inside the comic, at most MaxLoaded + 1), never drops a protected page, loads any in-range page, and appends a newly loaded page as the newest entry with a fresh slot |
| ComicCache.LoadWindowProperties | frontend/s/comic.js:264-265 | loading the window around the current page keeps the invariant, keeps protected pages, and leaves every existing page of the window loaded |
| ComicPager.FocusOf | frontend/s/comic.js:131-149 | without a viewpoint the focus has the page's size; a viewpoint of positive extent gives a non-empty focus |
| ComicPager.ViewpointInsideWholePage | frontend/s/comic.js:131-149 | the focus of any viewpoint of the unit square lies inside the whole-page focus and scrolls to the same page corner |
| ComicPager.ViewpointFocusRoundTrip | frontend/s/comic.js:140-146 | measuring a viewpoint's focus against the page's position and element size gives back the viewpoint's fractions |
| ComicPager.FocusInsidePage | frontend/s/comic.js:131-149 | a viewpoint inside the unit square is focused inside its page, and the scroll target is the page corner the reading direction starts from |
| ComicPager.StepWithinPage | frontend/s/comic.js:288-299 | a page without a viewpoint list gives no step; from viewpoint v the step is v + d exactly when that is an index of the list, and none otherwise; from no viewpoint it is the first viewpoint forwards or the last backwards, and none for an empty list; a step always lands on an existing viewpoint of the page |
| ComicPager.FirstOrLastViewpointAsWritten | frontend/s/comic.js:302-306 | (no contract) the source's choice: 0 forwards and length - 1 backwards for any list, even an empty one; its failure is stated by `MoveOntoEmptyListAsWritten` |
| ComicPager.MoveTargetAsWritten | frontend/s/comic.js:284-310 | (no contract) the `SetPage` call `Move` makes as written: the neighbouring page by page; by viewpoint, `StepWithinPage`, else the neighbouring page with `FirstOrLastViewpointAsWritten` |
| ComicPager.MoveTarget | frontend/s/comic.js:284-310 | (no contract) the same with the corrected `FirstOrLastViewpoint`; `MoveInverse` and `MovePageInverse` state that it is undone by the opposite move, and `Comic.Move` that it is what `SetPage` receives |
| ComicPager.FirstOrLastViewpoint | frontend/s/comic.js:302-306 | the entry viewpoint of a neighbouring page exists exactly when the page has a non-empty list, and is its first viewpoint forwards or its last backwards |
| ComicPager.MoveInverse | frontend/s/comic.js:274-311 | moving by viewpoint from a consistent position onto an existing page reaches a position `SetPage` accepts, and moving back the other way returns exactly to the start |
| ComicPager.MovePageInverse | frontend/s/comic.js:284-285 | moving by page onto an existing page is accepted and undone by moving back |
| ComicPager.MoveOntoEmptyListAsWritten | frontend/s/comic.js:302-310 | with the source's choice, moving by viewpoint onto a page whose list is empty asks for a viewpoint `SetPage` refuses; the corrected target (the whole page) is accepted |
| ComicPager.MoveOntoEmptyListExample | frontend/s/comic.js:302-310 | a two-page instance of the failure above |
| ComicPager.Comic.constructor | frontend/s/comic.js:6-62 | the comic starts with no current page and an empty cache; the direction is decoded from the metadata; there is one element size per page image; viewpoints default to none; the layout invariant holds |
| ComicPager.Comic.CalcEleOffsets | frontend/s/comic.js:332-353 | recomputing from `start` keeps the offsets before it, puts page 0 at the origin when starting from 0, and chains every later page after the one before it |
| ComicPager.Comic.CullLoadedPages | frontend/s/comic.js:161-179 | the loop leaves exactly the cull specified by `Culled` (whose properties are the ComicCache lemmas) |
| ComicPager.Comic.LoadPage | frontend/s/comic.js:197-238 | the cache becomes `Load` of the old cache and keeps its invariant; the slot counter advances exactly when a page is inserted |
| ComicPager.Comic.SetFocus | frontend/s/comic.js:131-149 | the camera ends up focused on `FocusOf` the page (or viewpoint) and framed as `_DoFocus` frames it, listening for window resizes, with its ratio limits and resize timers untouched |
| ComicPager.Comic.SetPage | frontend/s/comic.js:250-272 | the call succeeds exactly when the page exists and the viewpoint (if any) is in the page's list; a refusal changes nothing; on success the page and viewpoint are current and shown; a new page loads its window of neighbours; on success the camera listens for window resizes and keeps its ratio limits and resize timers |
| ComicPager.Comic.LoadAround | frontend/s/comic.js:264-265 | the loop loads pages page-2 through page+2 in order, as `LoadWindow` specifies, keeping the cache invariant |
| ComicPager.Comic.Move | frontend/s/comic.js:274-311 | a direction other than -1 or 1 changes nothing, slot counter and camera included; otherwise the result is whether `SetPage` accepts the move target, which becomes current and is shown, while a refusal changes nothing (page, viewpoint, cache, slot counter and camera); after a successful move the cache is unchanged when the page stays and is `LoadWindow` around the new page when it changes, and the camera listens for window resizes and keeps its ratio limits and resize timers |
| ComicPager.Comic.SetMoveByViewpoint | frontend/s/comic.js:75-84 | the flag is recorded, the page stays and the cache and slot counter are unchanged; setting the same value leaves the viewpoint and the camera as they were; a change clears the viewpoint, or picks viewpoint 0 when the current page has a list, and then shows that position when `SetPage` accepts it, leaving the camera alone when it does not; when accepted, the camera listens for window resizes and keeps its ratio limits and resize timers |
| ComicPager.Comic.SetFillMode | frontend/s/comic.js:105-111 | the mode is recorded; page, viewpoint, cache and slot counter are unchanged; setting the same value leaves the camera as it was; a change passes the mode to the camera and re-shows the current page and viewpoint, and when `SetPage` refuses the position only the camera's mode changes; when accepted, the camera listens for window resizes and keeps its ratio limits and resize timers |
| Canvas.Clamp | frontend/s/canvas.js:60-62 | the result lies in the range, equals the input when the input is inside, and is the nearer bound otherwise |
| Canvas.ScrollRoundTrip | frontend/s/canvas.js:56-70 | a target inside the scroll region becomes a scroll offset that maps back to exactly the same logical coordinate |
| Canvas.ScrollOffset | frontend/s/canvas.js:56-64 | (no contract) the offset `SetPos` asks for: the target's distance from the region's origin in pixels, clamped to the scrollable range; `ScrollRoundTrip` and `ScrollStaysInRegion` state its properties |
| Canvas.ScrollStaysInRegion | frontend/s/canvas.js:56-70 | whatever the target, the position derived from the clamped offset stays within [origin, origin + range / zoom], the part of the region the scrollable range reaches |
| Canvas.RangeFitsArea | frontend/s/canvas.js:88-92 | a scrollable range no larger than the scroll area's pixel size ends, in logical units, inside the region |
| Canvas.ScrollStaysInArea | frontend/s/canvas.js:56-92 | when the scrollable range fits the scroll area sized for [origin, max], the position derived from any target stays inside [origin, max] |
| Canvas.AreaSizedFits | frontend/s/canvas.js:88-94 | a scroll area of (SMX - SX) * Zoom by (SMY - SY) * Zoom pixels that bounds the scrollable range makes the range fit the region |
| Canvas.CoordWithin | frontend/s/canvas.js:66-70 | a coordinate placed at an offset in [0, range], divided by a positive zoom, lies within [origin, origin + range / zoom] |
| Canvas.ScrolledInRegion | frontend/s/canvas.js:56-70 | a canvas in any state `SetPos` reaches in scroll mode lies inside [SX, SMX] x [SY, SMY] when the scrollable range fits the region |
| Canvas.LLCanvas.constructor | frontend/s/canvas.js:27-42 | the canvas starts at the origin, at zoom 1, without scroll mode or scroll region |
| Canvas.LLCanvas.SetCanvas | frontend/s/canvas.js:5-13 | records the new position and zoom, and whether the change is instant |
| Canvas.LLCanvas.ScrollTo | frontend/s/canvas.js:56-80 | in scroll mode at an unchanged zoom, the camera moves to the clamped target and requests that scroll, unless the element already shows it (rounded), in which case it follows the element; when the scrollable range fits the region the camera ends inside the region |
| Canvas.LLCanvas.SetPos | frontend/s/canvas.js:44-80 | without scroll mode the camera moves to the target; a zoom change in scroll mode rebuilds the scroll area at the new zoom; in every case the scroll region is kept and the target is scrolled to as `ScrollTo` does |
| Canvas.LLCanvas.EnableScrollbars | frontend/s/canvas.js:82-97 | scroll mode is on over the given region, the scroll area is the region's size at the new zoom, and the camera is scrolled to the target (the current position when none is given) |
| Canvas.LLCanvas.DisableScrollbars | frontend/s/canvas.js:99-103 | scroll mode is off and the region's origin is cleared |
| Canvas.LLCanvas.UpdateRegion | frontend/s/canvas.js:19-25 | in scroll mode the position follows the element's scroll offsets divided by the zoom; otherwise nothing changes |
| Canvas.Shade.constructor | frontend/s/canvas.js:108-112 | the shade starts at opacity 0, a model assumption (see Left out); the margin `Margin` is the source's 10 |
| Canvas.Shade.SetSize | frontend/s/canvas.js:114-120 | the hole is `Margin` larger than the rectangle; a missing or zero offset counts as 0; the shade becomes visible |
| Canvas.Shade.Hide | frontend/s/canvas.js:121-123 | the shade becomes invisible |
| Canvas.NeedsScrollbars | frontend/s/canvas.js:196-199 | (no contract) the scaled focus extent, rounded to a whole pixel, exceeds the canvas extent; `ScaledFits` states when it does not |
| Canvas.FitFrom | frontend/s/canvas.js:201-221 | (no contract) the outcome of the do/while loop from a given state; `FitPass`, `FitFromFacts` and `FitFocusFacts` state its properties |
| Canvas.FitPass | frontend/s/canvas.js:201-221 | one loop pass computes the fit or fill ratio; when another pass follows, the remaining loop has the same outcome and one more axis is flagged; otherwise this pass's state is the outcome |
| Canvas.FitFromFacts | frontend/s/canvas.js:201-221 | flags are only added; each extent shrinks by the scrollbar size once for each scrollbar the other axis gains; an unflagged axis does not overflow at the final ratio; pass counts; with a zero scrollbar size the flags say exactly which axes overflow |
| Canvas.FitFocusFacts | frontend/s/canvas.js:184-221 | the loop runs 1 to 3 passes (1 when scrollbars take no room); the ratio is the minimum (fit) or maximum (fill) of the axis ratios over the canvas left after reserving scrollbar room; it is positive on a canvas larger than a scrollbar |
| Canvas.ScaledFits | frontend/s/canvas.js:196-199 | a ratio at most canvas / size never calls for a scrollbar on a canvas of whole pixels |
| Canvas.FitModeNeedsNoScrollbars | frontend/s/canvas.js:201-221 | in fit mode on a whole-pixel canvas no scrollbar is ever added and the loop ends after one pass |
| Canvas.ClampRatio | frontend/s/canvas.js:223-227 | the ratio is raised to a set minimum or lowered to a set maximum; an unset or 0 limit is ignored; a non-zero ratio stays non-zero |
| Canvas.CenterOffset | frontend/s/canvas.js:229-234 | a scaled extent smaller than the canvas is shifted so that its centre is the canvas centre; a larger one is not shifted |
| Canvas.FitExample | frontend/s/canvas.js:184-240 | a 400 x 300 focus on an 800 x 600 canvas in fit mode gets ratio 2, no scrollbars and no centring shift |
| Canvas.HLCanvas.constructor | frontend/s/canvas.js:153-166 | the camera starts not focusing, with the focus (0, 0)-(100, 100), fit mode, no ratio limits and no pending resize timer |
| Canvas.HLCanvas.PlaceCamera | frontend/s/canvas.js:242-247 | without scrollbars the low-level canvas leaves scroll mode and moves to the corner; with scrollbars it scrolls over the focus rectangle at the new zoom |
| Canvas.HLCanvas.ApplyFit | frontend/s/canvas.js:223-252 | the ratio is clipped; the corner centres the scaled focus; the camera and the shade frame the focus at that ratio and corner |
| Canvas.HLCanvas.FitLoop | frontend/s/canvas.js:201-221 | the do/while loop ends with the outcome of `FitFocus` (its ratio, reduced canvas and scrollbar flags) and records the ratio |
| Canvas.HLCanvas.DoFocus | frontend/s/canvas.js:184-253 | without a focus nothing changes; otherwise the ratio is positive and the focus is framed for the current window size |
| Canvas.HLCanvas.SetFocus | frontend/s/canvas.js:168-175 | the rectangle is recorded, framed for the current window and scroll target, and resize events are listened to; the mode, limits and timers are kept |
| Canvas.HLCanvas.FocusOn | frontend/s/canvas.js:169-173 | the rectangle is recorded and framed as `_DoFocus` frames it, and only the focus fields, the ratio, the camera and the shade change |
| Canvas.HLCanvas.RemoveFocus | frontend/s/canvas.js:176-182 | focusing and listening stop, no resize timer remains pending, and the shade is hidden; the focus rectangle, mode, limits, ratio, timer counter and the shade's hole and offsets are kept |
| Canvas.HLCanvas.ResizeEvent | frontend/s/canvas.js:128-134 | runs only while the resize listener is registered; the pending timer is cleared before a new one is scheduled, so exactly one timer is pending |
| Canvas.HLCanvas.ResizeTimerFires | frontend/s/canvas.js:133 | the pending timer runs `_DoFocus` without a scroll target and nothing stays pending |
| Canvas.HLCanvas.SetRatioLimits | frontend/s/canvas.js:255-260 | 0 leaves a limit as it is; any other value, null included, replaces it |
| Canvas.HLCanvas.SetFillMode | frontend/s/canvas.js:261 | records the fill or fit mode |
| DarkHorse.RoundHalfEven | scripts/DarkHorseToVPs.py:11 | (no contract) Python's `round` to an integer, ties to even; `RoundHalfEvenFacts` states its properties |
| DarkHorse.Round3 | scripts/DarkHorseToVPs.py:11 | (no contract) `round(v, 3)`; `Round3Error`, `Round3Idempotent` and `Round3Unit` state its properties |
| DarkHorse.RoundHalfEvenFacts | scripts/DarkHorseToVPs.py:11 | rounding gives a nearest integer, the even one on a tie, and leaves an integer unchanged |
| DarkHorse.Round3Error | scripts/DarkHorseToVPs.py:11 | rounding to three decimals moves a value by at most half a thousandth |
| DarkHorse.Round3Idempotent | scripts/DarkHorseToVPs.py:11 | rounding an already rounded value changes nothing |
| DarkHorse.Round3Unit | scripts/DarkHorseToVPs.py:11 | rounding keeps a value in [0, 1] inside [0, 1] |
| DarkHorse.RoundDict | scripts/DarkHorseToVPs.py:9-12 | the dictionary keeps its keys and every value is rounded to three decimals |
| DarkHorse.Order | scripts/DarkHorseToVPs.py:24 | the k-th page (or viewport) visited is an index of the book; that right-to-left books are visited from the back is stated by `VisitedPages` and `ViewpointNumbering` |
| DarkHorse.SortAccepts | scripts/DarkHorseToVPs.py:37 | (no contract) the sort-order test: nothing recorded yet (null or 0), or a larger order (smaller for right-to-left books); `CheckSortOrder` and `SortOrdersIncrease` state its consequences |
| DarkHorse.PanelOf | scripts/DarkHorseToVPs.py:74-75 | (no contract) a viewport as rounded fractions of its page; `NormalisedInUnit` states its range |
| DarkHorse.Elided | scripts/DarkHorseToVPs.py:79 | (no contract) the single viewport of a page that is not skipped covers the page; `ConvertedPageFacts` and `ProcessOutput` state its effect |
| DarkHorse.ScanViewports | scripts/DarkHorseToVPs.py:54-76 | (no contract) the viewport loop after j viewports, stopping at the first exception; `ScanViewportsFacts` states its outcome |
| DarkHorse.ConvertedPage | scripts/DarkHorseToVPs.py:42-83 | (no contract) one accepted page's output or exception, warnings and viewport count; `ConvertedPageFacts` states its outcome |
| DarkHorse.PageStep | scripts/DarkHorseToVPs.py:33-83 | (no contract) one pass of the page loop, a no-op after an exception; `PageStepFacts` states its outcome |
| DarkHorse.ScanPages | scripts/DarkHorseToVPs.py:32-83 | (no contract) the page loop after k pages; `ScanPagesAccepted`, `ScanPagesCounts` and `ScanPagesContents` state its outcome |
| DarkHorse.Process | scripts/DarkHorseToVPs.py:14-88 | (no contract) what `ProcessDHFile` returns or raises and prints; `ProcessSucceeds`, `ProcessOutput`, `SortOrdersIncrease`, `ViewpointNumbering` and `ViewportCountWarning` state its properties |
| DarkHorse.ViewportErrorSticks | scripts/DarkHorseToVPs.py:66-67 | once the viewport loop has raised, later viewports change nothing |
| DarkHorse.PageErrorSticks | scripts/DarkHorseToVPs.py:37-40 | once the page loop has raised, later pages change nothing |
| DarkHorse.ProcessDHFile | scripts/DarkHorseToVPs.py:14-88 | the method returns or raises exactly what `Process` specifies, and prints the same warnings |
| DarkHorse.VisitPage | scripts/DarkHorseToVPs.py:33-83 | one pass of the page loop is one step of `ScanPages` |
| DarkHorse.CheckSortOrder | scripts/DarkHorseToVPs.py:37-40 | the check passes exactly when no order is recorded yet (null or 0) or the page's order is larger (smaller for right-to-left books); otherwise it raises the mismatch, or the type error for a null order |
| DarkHorse.NormaliseViewport | scripts/DarkHorseToVPs.py:74-75 | the viewport becomes its position and size as fractions of the page, rounded |
| DarkHorse.ConvertPage | scripts/DarkHorseToVPs.py:42-83 | the page's warnings, viewport loop and elision are as `ConvertedPage` specifies |
| DarkHorse.ConvertViewports | scripts/DarkHorseToVPs.py:54-76 | the viewport loop yields what `ScanViewports` specifies and counts every viewport |
| DarkHorse.VisitViewport | scripts/DarkHorseToVPs.py:61-76 | one pass of the viewport loop is one step of `ScanViewports` |
| DarkHorse.PanelsOf | scripts/DarkHorseToVPs.py:74-76 | the first j viewports visited, normalised, one panel each, in visiting order |
| DarkHorse.ScanViewportsWarnings | scripts/DarkHorseToVPs.py:54-76 | the viewport loop never prints the viewport-count warning |
| DarkHorse.ScanViewportsFacts | scripts/DarkHorseToVPs.py:54-76 | the viewport loop raises nothing exactly when the viewports visited are numbered 1, 2, ... and the page has a non-zero size, and then yields every viewport normalised in visiting order |
| DarkHorse.ConvertedPageFacts | scripts/DarkHorseToVPs.py:53-83 | a page converts exactly when its viewports are accepted; it then gives null for a single whole-page viewport and its panels otherwise |
| DarkHorse.PageStepFacts | scripts/DarkHorseToVPs.py:33-83 | an accepted page step records the page's sort order, adds its viewports to the total and appends its output |
| DarkHorse.ScanPagesSortOrder | scripts/DarkHorseToVPs.py:37-38 | the loop remembers the sort order of the last page visited |
| DarkHorse.ScanPagesAccepted | scripts/DarkHorseToVPs.py:32-83 | the page loop raises nothing exactly when every sort-order check and every page's viewport checks pass |
| DarkHorse.ScanPagesCounts | scripts/DarkHorseToVPs.py:62-83 | without an exception there is one output per page visited, and the total counts the viewports of those pages |
| DarkHorse.ScanPagesContents | scripts/DarkHorseToVPs.py:32-83 | without an exception, output i is the output of the i-th page visited |
| DarkHorse.ConvertedPageWarnings | scripts/DarkHorseToVPs.py:42-81 | a converted page never prints the viewport-count warning |
| DarkHorse.ScanPagesWarnings | scripts/DarkHorseToVPs.py:42-76 | the page loop never prints the viewport-count warning |
| DarkHorse.ProcessSucceeds | scripts/DarkHorseToVPs.py:14-88 | the conversion succeeds exactly when the page count matches, the sort orders are accepted in reading order, and every page's viewports are numbered in order on a page of non-zero size |
| DarkHorse.ProcessOutput | scripts/DarkHorseToVPs.py:14-88 | on success there is one output per page in reading order; an output is null exactly when the page is elided; otherwise it lists every viewport normalised in reading order |
| DarkHorse.SortOrdersIncrease | scripts/DarkHorseToVPs.py:24-40 | on success, non-zero page sort orders increase with the page index in either reading direction |
| DarkHorse.ViewpointNumbering | scripts/DarkHorseToVPs.py:55-67 | on success each page's viewports carry sort orders 1, 2, ... in index order, or n, ..., 1 for right-to-left books |
| DarkHorse.VisitedPages | scripts/DarkHorseToVPs.py:24-62 | the viewports counted after k pages are those of the first k pages, or of the last k for right-to-left books |
| DarkHorse.ViewportCountWarning | scripts/DarkHorseToVPs.py:85-86 | on success the count warning is printed, last, exactly when the declared viewport count differs from the real one |
| DarkHorse.NormalisedInUnit | scripts/DarkHorseToVPs.py:74-75 | a viewport inside a page of positive size is normalised to values in [0, 1] |
| DarkHorse.Fraction | scripts/DarkHorseToVPs.py:74-75 | a rounded part of a positive whole is a fraction in [0, 1] |

## Left out

- The DOM is left out: element creation, CSS transforms and transitions, images and their load
  and error handlers (`_LoadedImage`, `_LoadedImageError`), and console logging. A page slot is
  an opaque serial number.
- `HideNonFocusPages`, `_ShowHidePage`, `ShowVPs` and `_AddVPEles` only change element opacity
  or add debug overlays. They do not affect the state modelled here.
- The smooth-scroll listener juggling in `SetPos` (removing the scroll listener until
  `scrollend`) is left out. The model records only the scroll request.
- `_CalculateScrollbarSize` measures the browser. Its result is the `scrollbarSize` parameter of
  the `HLCanvas` constructor.
- ComicPager.Comic.Move: uses the corrected `FirstOrLastViewpoint` (see Findings). Moving by
  viewpoint onto a neighbouring page whose viewpoint list is empty therefore shows that whole page
  and returns true, where the source asks for viewpoint 0 or -1, is refused and returns false.
  `MoveTargetAsWritten` and `MoveOntoEmptyListAsWritten` keep the behaviour as written.
- Canvas.Shade.constructor: the source sets no opacity and leaves the shade's starting look to the
  page's stylesheet, which is not modelled. The model starts it at opacity 0 (hidden).
- Canvas.LLCanvas.SetPos: the camera is proved to stay inside the scroll region only when the
  browser's scrollable range fits the scroll area (`ScrolledInRegion`). That range is read from the
  browser, and the model does not derive it from the scroll area's size.
- ComicPager.Comic.constructor: a comic whose metadata lists no pages, or a page whose image size is still
  unknown, breaks the source when it computes the offsets. The model requires every page size to
  be known and positive instead.
- Floating point is modelled as exact reals. Infinity and NaN (a zero-size focus, a window no
  larger than a scrollbar) are excluded by preconditions.
- `BasePath` and the image URLs are not modelled.
- Reading and parsing the JSON file, standard error and the command-line entry point are left
  out. The model takes the decoded file as a `Book` value and returns the printed lines as
  `Warning`s.
- DarkHorse.RoundDict: rounds a fresh map. The Python function rounds the dictionary in place
  and returns the same object; nothing else holds a reference to it, so that aliasing is
  unobservable.
- DarkHorse.Process: field values of unexpected JSON types are not modelled. Only a null sort
  order is, and it is compared the way Python 3 compares it, raising a type error.

## Findings

| source | as written | input that shows it | evidently intended | confidence | as-written member | corrected member |
|---|---|---|---|---|---|---|
| frontend/s/comic.js:302-310 | `GetFirstOrLastViewpoint` treats an empty viewpoint list as present and returns 0 (forwards) or -1 (backwards). `SetPage` refuses either index, so `Move` by viewpoint returns false and the reader cannot move onto that page | pages `[[v], []]` with viewpoint lists for both, current page 0, viewpoint 0, `Move(1)` | an empty list is handled like a missing one, so the move shows the whole next page | not executed; high | ComicPager.MoveOntoEmptyListExample | ComicPager.MoveInverse |
