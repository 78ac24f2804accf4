/** The bounded page cache of the comic viewer (frontend/s/comic.js,
    `_CullLoadedPages` and `LoadPage`). The source keeps the loaded pages in
    an insertion-ordered JavaScript `Map` from page number to a slot; here it
    is a sequence of entries with distinct page numbers, oldest first. A slot
    (the page's DOM element and image) is an opaque serial number. */
module ComicCache {
  import opened Common

  /** `_SafeNeighhours`: pages this close to the current page are never evicted. */
  const SafeNeighbours: int := 2
  /** `_MaxLoaded`: the number of loaded pages eviction aims for. */
  const MaxLoaded: int := 7

  datatype Entry = Entry(page: int, slot: nat)

  function Abs(x: int): nat {
    if x < 0 then -x else x
  }

  /** Inside the protected neighbourhood of the current page. */
  predicate Protected(page: int, current: int, safe: int) {
    Abs(page - current) <= safe
  }

  function Pages(loaded: seq<Entry>): set<int> {
    set e | e in loaded :: e.page
  }

  /** Page numbers are keys of the source's `Map`: no page appears twice. */
  ghost predicate Distinct(loaded: seq<Entry>) {
    forall i, j :: 0 <= i < j < |loaded| ==> loaded[i].page != loaded[j].page
  }

  /** Number of entries outside the protected neighbourhood. */
  function EligibleCount(loaded: seq<Entry>, current: int, safe: int): nat {
    if loaded == [] then 0
    else (if Protected(loaded[0].page, current, safe) then 0 else 1) + EligibleCount(loaded[1..], current, safe)
  }

  /** The loop of `_CullLoadedPages` once `toRemove` is positive: walk the
      entries oldest first, skip protected ones, delete the others, and stop
      as soon as `toRemove` deletions have been made. */
  function CullFrom(loaded: seq<Entry>, current: int, safe: int, toRemove: int): seq<Entry>
    requires toRemove > 0
    decreases |loaded|
  {
    if loaded == [] then []
    else if Protected(loaded[0].page, current, safe) then [loaded[0]] + CullFrom(loaded[1..], current, safe, toRemove)
    else if toRemove - 1 <= 0 then loaded[1..]
    else CullFrom(loaded[1..], current, safe, toRemove - 1)
  }

  /** `_CullLoadedPages`: nothing happens unless more than `max` pages are
      loaded; then up to the excess is evicted. */
  function Culled(loaded: seq<Entry>, current: int, safe: int, max: int): seq<Entry> {
    if |loaded| - max <= 0 then loaded else CullFrom(loaded, current, safe, |loaded| - max)
  }

  /** `a` is `b` with some entries taken out, the rest in their old order. */
  predicate IsSubsequence(a: seq<Entry>, b: seq<Entry>)
    decreases |b|
  {
    if a == [] then true
    else if b == [] then false
    else (a[0] == b[0] && IsSubsequence(a[1..], b[1..])) || IsSubsequence(a, b[1..])
  }

  /** Eviction removes exactly as many entries as it may: the excess, or
      every eligible entry when there are fewer of those. */
  lemma {:induction false} CullCount(loaded: seq<Entry>, current: int, safe: int, toRemove: int)
    requires toRemove > 0
    ensures var n := EligibleCount(loaded, current, safe);
            |CullFrom(loaded, current, safe, toRemove)| == |loaded| - (if toRemove <= n then toRemove else n)
    decreases |loaded|
  {
    if loaded != [] {
      if Protected(loaded[0].page, current, safe) || toRemove - 1 > 0 {
        CullCount(loaded[1..], current, safe, if Protected(loaded[0].page, current, safe) then toRemove else toRemove - 1);
      }
    }
  }

  /** Eviction never removes a page inside the protected neighbourhood. */
  lemma {:induction false} CullKeepsProtected(loaded: seq<Entry>, current: int, safe: int, toRemove: int, e: Entry)
    requires toRemove > 0 && e in loaded && Protected(e.page, current, safe)
    ensures e in CullFrom(loaded, current, safe, toRemove)
    decreases |loaded|
  {
    if e != loaded[0] {
      assert e in loaded[1..];
      if Protected(loaded[0].page, current, safe) || toRemove - 1 > 0 {
        CullKeepsProtected(loaded[1..], current, safe, if Protected(loaded[0].page, current, safe) then toRemove else toRemove - 1, e);
      }
    }
  }

  /** The survivors keep their slots and their relative order. */
  lemma {:induction false} CullIsSubsequence(loaded: seq<Entry>, current: int, safe: int, toRemove: int)
    requires toRemove > 0
    ensures IsSubsequence(CullFrom(loaded, current, safe, toRemove), loaded)
    decreases |loaded|
  {
    if loaded != [] {
      var rest := loaded[1..];
      if Protected(loaded[0].page, current, safe) {
        CullIsSubsequence(rest, current, safe, toRemove);
        var c := CullFrom(loaded, current, safe, toRemove);
        assert c[0] == loaded[0] && c[1..] == CullFrom(rest, current, safe, toRemove);
      } else if toRemove - 1 <= 0 {
        SubsequenceReflexive(rest);
      } else {
        CullIsSubsequence(rest, current, safe, toRemove - 1);
      }
    }
  }

  lemma {:induction false} SubsequenceReflexive(s: seq<Entry>)
    ensures IsSubsequence(s, s)
    decreases |s|
  {
    if s != [] {
      SubsequenceReflexive(s[1..]);
    }
  }

  /** Everything eviction keeps was loaded before. */
  lemma {:induction false} CullSubset(loaded: seq<Entry>, current: int, safe: int, toRemove: int, e: Entry)
    requires toRemove > 0 && e in CullFrom(loaded, current, safe, toRemove)
    ensures e in loaded
    decreases |loaded|
  {
    if loaded != [] && e != loaded[0] {
      var rest := loaded[1..];
      if Protected(loaded[0].page, current, safe) {
        CullSubset(rest, current, safe, toRemove, e);
      } else if toRemove - 1 > 0 {
        CullSubset(rest, current, safe, toRemove - 1, e);
      }
    }
  }

  /** Insertion order decides: if an eligible entry is evicted, every
      eligible entry inserted before it is evicted too. */
  lemma {:induction false} CullEvictsOldestFirst(loaded: seq<Entry>, current: int, safe: int, toRemove: int, i: int, j: int)
    requires toRemove > 0 && Distinct(loaded) && 0 <= i < j < |loaded|
    requires !Protected(loaded[i].page, current, safe) && !Protected(loaded[j].page, current, safe)
    requires loaded[j] !in CullFrom(loaded, current, safe, toRemove)
    ensures loaded[i] !in CullFrom(loaded, current, safe, toRemove)
    decreases |loaded|
  {
    var rest := loaded[1..];
    assert Distinct(rest) by {
      forall a, b | 0 <= a < b < |rest| ensures rest[a].page != rest[b].page {
        assert rest[a] == loaded[a + 1] && rest[b] == loaded[b + 1];
      }
    }
    if Protected(loaded[0].page, current, safe) {
      assert i > 0;
      assert loaded[j] == rest[j - 1] && loaded[i] == rest[i - 1];
      CullEvictsOldestFirst(rest, current, safe, toRemove, i - 1, j - 1);
    } else if toRemove - 1 <= 0 {
      assert false;
    } else if i == 0 {
      forall e | e in CullFrom(rest, current, safe, toRemove - 1) ensures e.page != loaded[0].page {
        CullSubset(rest, current, safe, toRemove - 1, e);
        var k :| 0 <= k < |rest| && rest[k] == e;
        assert loaded[k + 1] == e;
      }
    } else {
      assert loaded[j] == rest[j - 1] && loaded[i] == rest[i - 1];
      CullEvictsOldestFirst(rest, current, safe, toRemove - 1, i - 1, j - 1);
    }
  }

  /** Pages of the protected entries. */
  function ProtectedPages(loaded: seq<Entry>, current: int, safe: int): set<int> {
    set e | e in loaded && Protected(e.page, current, safe) :: e.page
  }

  lemma {:induction false} ProtectedPagesCount(loaded: seq<Entry>, current: int, safe: int)
    requires Distinct(loaded)
    ensures |loaded| - EligibleCount(loaded, current, safe) == |ProtectedPages(loaded, current, safe)|
    decreases |loaded|
  {
    if loaded != [] {
      var e, rest := loaded[0], loaded[1..];
      assert Distinct(rest) by {
        forall a, b | 0 <= a < b < |rest| ensures rest[a].page != rest[b].page {
          assert rest[a] == loaded[a + 1] && rest[b] == loaded[b + 1];
        }
      }
      ProtectedPagesCount(rest, current, safe);
      forall f | f in rest ensures f.page != e.page {
        var k :| 0 <= k < |rest| && rest[k] == f;
        assert loaded[k + 1] == f;
      }
      assert e.page !in ProtectedPages(rest, current, safe);
      if Protected(e.page, current, safe) {
        assert ProtectedPages(loaded, current, safe) == {e.page} + ProtectedPages(rest, current, safe);
      } else {
        assert ProtectedPages(loaded, current, safe) == ProtectedPages(rest, current, safe);
      }
    }
  }

  /** The integers from `lo` to `hi`. */
  function Interval(lo: int, hi: int): set<int>
    decreases hi - lo
  {
    if hi < lo then {} else Interval(lo, hi - 1) + {hi}
  }

  lemma {:induction false} IntervalSize(lo: int, hi: int)
    ensures forall k :: k in Interval(lo, hi) <==> lo <= k <= hi
    ensures lo <= hi + 1 ==> |Interval(lo, hi)| == hi - lo + 1
    decreases hi - lo
  {
    if lo <= hi {
      IntervalSize(lo, hi - 1);
    }
  }

  lemma SubsetSize(a: set<int>, b: set<int>)
    requires a <= b
    ensures |a| <= |b|
  {
    assert b == a + (b - a);
  }

  /** At most 2 * safe + 1 distinct pages are protected, so at least the
      rest of the entries are eligible for eviction. */
  lemma ProtectedAtMost(loaded: seq<Entry>, current: int, safe: int)
    requires Distinct(loaded) && safe >= 0
    ensures EligibleCount(loaded, current, safe) >= |loaded| - (2 * safe + 1)
  {
    ProtectedPagesCount(loaded, current, safe);
    IntervalSize(current - safe, current + safe);
    SubsetSize(ProtectedPages(loaded, current, safe), Interval(current - safe, current + safe));
  }

  /** `LoadPage`: a page already loaded, or outside [0, total), changes
      nothing; otherwise eviction runs first and the page is then appended
      as the newest entry with the fresh slot. */
  function Load(loaded: seq<Entry>, page: int, current: int, total: int, slot: nat): seq<Entry> {
    if page in Pages(loaded) || page < 0 || page >= total then loaded
    else Culled(loaded, current, SafeNeighbours, MaxLoaded) + [Entry(page, slot)]
  }

  /** Whether `Load` inserts. */
  predicate Inserts(loaded: seq<Entry>, page: int, total: int) {
    !(page in Pages(loaded) || page < 0 || page >= total)
  }

  /** The cache's invariant: distinct pages inside [0, total), slots older
      than `nextSlot`, and at most one entry over `MaxLoaded` (eviction runs
      before the insertion, so the newest page can make it MaxLoaded + 1). */
  ghost predicate CacheInvariant(loaded: seq<Entry>, total: int, nextSlot: nat) {
    && Distinct(loaded)
    && (forall e :: e in loaded ==> 0 <= e.page < total && e.slot < nextSlot)
    && |loaded| <= MaxLoaded + 1
  }

  lemma CulledProperties(loaded: seq<Entry>, current: int)
    requires Distinct(loaded)
    ensures var c := Culled(loaded, current, SafeNeighbours, MaxLoaded);
            && (forall e :: e in c ==> e in loaded)
            && (forall e :: e in loaded && Protected(e.page, current, SafeNeighbours) ==> e in c)
            && IsSubsequence(c, loaded)
            && (|loaded| > MaxLoaded ==> |c| <= MaxLoaded)
  {
    var c := Culled(loaded, current, SafeNeighbours, MaxLoaded);
    if |loaded| - MaxLoaded > 0 {
      var n := |loaded| - MaxLoaded;
      CullIsSubsequence(loaded, current, SafeNeighbours, n);
      forall e | e in c ensures e in loaded {
        CullSubset(loaded, current, SafeNeighbours, n, e);
      }
      forall e | e in loaded && Protected(e.page, current, SafeNeighbours) ensures e in c {
        CullKeepsProtected(loaded, current, SafeNeighbours, n, e);
      }
      CullCount(loaded, current, SafeNeighbours, n);
      ProtectedAtMost(loaded, current, SafeNeighbours);
    } else {
      SubsequenceReflexive(loaded);
    }
  }

  /** `LoadPage` keeps the cache invariant, keeps every protected page
      loaded, loads the requested page when it is in range, and makes it the
      newest entry when it was not loaded yet. */
  lemma LoadProperties(loaded: seq<Entry>, page: int, current: int, total: int, slot: nat)
    requires CacheInvariant(loaded, total, slot)
    ensures var l := Load(loaded, page, current, total, slot);
            && CacheInvariant(l, total, if Inserts(loaded, page, total) then slot + 1 else slot)
            && (forall p :: p in Pages(loaded) && Protected(p, current, SafeNeighbours) ==> p in Pages(l))
            && (0 <= page < total ==> page in Pages(l))
            && (Inserts(loaded, page, total) ==> l[|l| - 1] == Entry(page, slot))
  {
    var l := Load(loaded, page, current, total, slot);
    CulledProperties(loaded, current);
    var c := Culled(loaded, current, SafeNeighbours, MaxLoaded);
    forall p | p in Pages(loaded) && Protected(p, current, SafeNeighbours) ensures p in Pages(l) {
      var e :| e in loaded && e.page == p;
      assert e in c;
      assert e in l;
    }
    if Inserts(loaded, page, total) {
      assert Distinct(l) by {
        forall i, j | 0 <= i < j < |l| ensures l[i].page != l[j].page {
          assert l[i] in c;
          if j < |c| {
            assert l[j] in c;
            var a :| 0 <= a < |loaded| && loaded[a] == l[i];
            var b :| 0 <= b < |loaded| && loaded[b] == l[j];
            SubsequenceDistinct(c, loaded, i, j);
          } else {
            assert l[i] in loaded;
          }
        }
      }
      assert l[|l| - 1] == Entry(page, slot);
      assert page in Pages(l);
    }
  }

  /** Two different positions of a subsequence of a sequence with distinct
      pages hold different pages. */
  lemma {:induction false} SubsequenceDistinct(a: seq<Entry>, b: seq<Entry>, i: int, j: int)
    requires IsSubsequence(a, b) && Distinct(b) && 0 <= i < j < |a|
    ensures a[i].page != a[j].page
    decreases |b|
  {
    var rest := b[1..];
    assert Distinct(rest) by {
      forall x, y | 0 <= x < y < |rest| ensures rest[x].page != rest[y].page {
        assert rest[x] == b[x + 1] && rest[y] == b[y + 1];
      }
    }
    if a[0] == b[0] && IsSubsequence(a[1..], rest) {
      if i == 0 {
        SubsequenceMember(a[1..], rest, j - 1);
        var k :| 0 <= k < |rest| && rest[k] == a[j];
        assert b[k + 1] == a[j];
      } else {
        SubsequenceDistinct(a[1..], rest, i - 1, j - 1);
      }
    } else {
      SubsequenceDistinct(a, rest, i, j);
    }
  }

  lemma {:induction false} SubsequenceMember(a: seq<Entry>, b: seq<Entry>, i: int)
    requires IsSubsequence(a, b) && 0 <= i < |a|
    ensures a[i] in b
    decreases |b|
  {
    if a[0] == b[0] && IsSubsequence(a[1..], b[1..]) {
      if i > 0 {
        SubsequenceMember(a[1..], b[1..], i - 1);
      }
    } else {
      SubsequenceMember(a, b[1..], i);
    }
  }

  /** `SetPage`'s loop: `LoadPage` for every page in [lo, hi), in order. */
  function LoadWindow(loaded: seq<Entry>, slot: nat, current: int, total: int, lo: int, hi: int): (seq<Entry>, nat)
    decreases hi - lo
  {
    if hi <= lo then (loaded, slot)
    else
      var (l, s) := LoadWindow(loaded, slot, current, total, lo, hi - 1);
      (Load(l, hi - 1, current, total, s), if Inserts(l, hi - 1, total) then s + 1 else s)
  }

  /** `SetPage`'s loop keeps the cache invariant, never drops a protected
      page, and leaves every page of the window that exists and is
      protected loaded: the current page and its neighbours. */
  lemma {:induction false} LoadWindowProperties(loaded: seq<Entry>, slot: nat, current: int, total: int, lo: int, hi: int)
    requires CacheInvariant(loaded, total, slot)
    ensures var w := LoadWindow(loaded, slot, current, total, lo, hi);
            && CacheInvariant(w.0, total, w.1)
            && (forall p :: p in Pages(loaded) && Protected(p, current, SafeNeighbours) ==> p in Pages(w.0))
            && (forall p :: lo <= p < hi && 0 <= p < total && Protected(p, current, SafeNeighbours) ==> p in Pages(w.0))
    decreases hi - lo
  {
    if hi > lo {
      LoadWindowProperties(loaded, slot, current, total, lo, hi - 1);
      var w := LoadWindow(loaded, slot, current, total, lo, hi - 1);
      LoadProperties(w.0, hi - 1, current, total, w.1);
    }
  }
}
