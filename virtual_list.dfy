/**
 * The windowing engine of `src/hooks/useVirtualList.ts`: a table of position
 * records for a growing list of variable-height items, the binary search for
 * the first visible item, the visible window widened by an overscan, the
 * in-place reflow after one item is measured, and the stick-to-bottom flag.
 *
 * Pixel values are JavaScript numbers in the source; here they are integers
 * and nothing is rounded.  Browser machinery (the container element, scroll
 * listener, ResizeObserver, nextTick) is replaced by explicit method calls
 * whose parameters carry the container's scroll metrics.
 */
module VirtualList {
  import opened Wrappers

  /** One record of the position table. */
  datatype Position = Position(index: int, height: int, top: int, bottom: int)

  /** The container's scroll metrics, read by the source from the bound element. */
  datatype Viewport = Viewport(scrollTop: int, clientHeight: int, scrollHeight: int)

  /** One entry of the visible slice: an item paired with its absolute index. */
  datatype Slot<T> = Slot(data: T, index: int)

  const DefaultOverscan: int := 5
  const DefaultItemGap: int := 0
  /** Distance from the bottom (in pixels) within which the view counts as pinned. */
  const PinThreshold: int := 100

  /** `options.x || d`: an absent option and 0 (a falsy number) both fall back to `d`. */
  function OrDefault(o: Option<int>, d: int): int
  {
    if o.Some? && o.value != 0 then o.value else d
  }

  // ---------------------------------------------------------------------------
  // The position table as a function of the item heights
  // ---------------------------------------------------------------------------

  /**
   * The chain invariant of a position table: record `i` has index `i`, its
   * bottom is its top plus its height, the first top is 0 and every later top
   * is the previous bottom plus the gap.
   */
  ghost predicate Chained(ps: seq<Position>, gap: int)
  {
    ChainedUpTo(ps, gap, |ps|)
  }

  /** The chain invariant for the first `n` records of `ps`. */
  ghost predicate ChainedUpTo(ps: seq<Position>, gap: int, n: int)
    requires n <= |ps|
  {
    && (forall i :: 0 <= i < n ==> ps[i].index == i && ps[i].bottom == ps[i].top + ps[i].height)
    && (n > 0 ==> ps[0].top == 0)
    && (forall i, j :: 0 <= i && j == i + 1 && j < n ==> ps[j].top == ps[i].bottom + gap)
  }

  function Heights(ps: seq<Position>): (hs: seq<int>)
    ensures |hs| == |ps| && forall i :: 0 <= i < |ps| ==> hs[i] == ps[i].height
  {
    seq(|ps|, i requires 0 <= i < |ps| => ps[i].height)
  }

  /** The table the source's fold builds from a list of heights. */
  function Layout(hs: seq<int>, gap: int): (ps: seq<Position>)
    ensures |ps| == |hs|
  {
    if hs == [] then []
    else
      var prev := Layout(hs[..|hs| - 1], gap);
      var top := if |prev| == 0 then 0 else prev[|prev| - 1].bottom + gap;
      prev + [Position(|prev|, hs[|hs| - 1], top, top + hs[|hs| - 1])]
  }

  /** Appending one height appends one record, chained to the previous last one. */
  lemma LayoutSnoc(hs: seq<int>, h: int, gap: int)
    ensures Layout(hs + [h], gap) ==
      var top := if hs == [] then 0 else Layout(hs, gap)[|hs| - 1].bottom + gap;
      Layout(hs, gap) + [Position(|hs|, h, top, top + h)]
  {
    assert (hs + [h])[..|hs|] == hs;
  }

  /** The layout is a chained table with exactly the given heights. */
  lemma {:induction false} LayoutChained(hs: seq<int>, gap: int)
    ensures Chained(Layout(hs, gap), gap) && Heights(Layout(hs, gap)) == hs
  {
    if hs != [] {
      var n := |hs|;
      LayoutChained(hs[..n - 1], gap);
      LayoutChainedSnoc(hs[..n - 1], hs[n - 1], gap);
      assert hs[..n - 1] + [hs[n - 1]] == hs;
    }
  }

  /** The step of LayoutChained: appending one height to a chained layout keeps it chained. */
  lemma LayoutChainedSnoc(hs: seq<int>, h: int, gap: int)
    requires Chained(Layout(hs, gap), gap) && Heights(Layout(hs, gap)) == hs
    ensures Chained(Layout(hs + [h], gap), gap) && Heights(Layout(hs + [h], gap)) == hs + [h]
  {
    var n, front, ps := |hs|, Layout(hs, gap), Layout(hs + [h], gap);
    LayoutSnoc(hs, h, gap);
    assert ps[..n] == front;
    if n > 0 {
      ChainedSnoc(ps, gap, n);
      assert ps[..n + 1] == ps;
    }
    assert Heights(ps) == Heights(front) + [h];
  }

  /** A chained table is determined by its heights: it is exactly their layout. */
  lemma {:induction false} ChainedIsLayout(ps: seq<Position>, gap: int)
    requires Chained(ps, gap)
    ensures ps == Layout(Heights(ps), gap)
  {
    if ps != [] {
      var n := |ps|;
      ChainedPrefix(ps, gap, n - 1);
      ChainedIsLayout(ps[..n - 1], gap);
      assert ps[n - 1].index == n - 1 && ps[n - 1].bottom == ps[n - 1].top + ps[n - 1].height;
      assert ps[n - 1].top == if n == 1 then 0 else ps[n - 2].bottom + gap;
      LayoutLast(ps, gap);
    }
  }

  /** The step of ChainedIsLayout: a laid-out front and a last record chained to it. */
  lemma LayoutLast(ps: seq<Position>, gap: int)
    requires ps != [] && ps[..|ps| - 1] == Layout(Heights(ps[..|ps| - 1]), gap)
    requires var n := |ps|;
      && ps[n - 1].index == n - 1 && ps[n - 1].bottom == ps[n - 1].top + ps[n - 1].height
      && ps[n - 1].top == if n == 1 then 0 else ps[n - 2].bottom + gap
    ensures ps == Layout(Heights(ps), gap)
  {
    var n, hs := |ps|, Heights(ps);
    assert hs[..n - 1] == Heights(ps[..n - 1]);
    assert ps == ps[..n - 1] + [ps[n - 1]];
  }

  /** Every prefix of a chained table is chained. */
  lemma ChainedPrefix(ps: seq<Position>, gap: int, k: nat)
    requires Chained(ps, gap) && k <= |ps|
    ensures Chained(ps[..k], gap)
  {
  }

  /** The layout of a prefix of the heights is the prefix of the layout. */
  lemma {:induction false} LayoutPrefix(hs: seq<int>, gap: int, k: nat)
    requires k <= |hs|
    ensures Layout(hs[..k], gap) == Layout(hs, gap)[..k]
  {
    var ps := Layout(hs, gap);
    LayoutChained(hs, gap);
    assert Chained(ps[..k], gap);
    ChainedIsLayout(ps[..k], gap);
    assert Heights(ps[..k]) == hs[..k];
  }

  function Sum(hs: seq<int>): int
  {
    if hs == [] then 0 else Sum(hs[..|hs| - 1]) + hs[|hs| - 1]
  }

  /** Changing one height changes the sum of the heights by the difference. */
  lemma {:induction false} SumUpdate(hs: seq<int>, i: nat, h: int)
    requires i < |hs|
    ensures Sum(hs[i := h]) == Sum(hs) - hs[i] + h
  {
    var last := |hs| - 1;
    if i < last {
      SumUpdate(hs[..last], i, h);
      assert hs[i := h][..last] == hs[..last][i := h];
    } else {
      assert hs[i := h][..last] == hs[..last];
    }
  }

  /** `totalHeight`: the bottom of the last record, or 0 for an empty table. */
  function TotalHeight(ps: seq<Position>): int
  {
    if |ps| == 0 then 0 else ps[|ps| - 1].bottom
  }

  /** In a chained table every bottom is the sum of the heights so far plus one gap per earlier item. */
  lemma {:induction false} BottomIsPrefixSum(ps: seq<Position>, gap: int, k: nat)
    requires Chained(ps, gap) && k < |ps|
    ensures ps[k].bottom == Sum(Heights(ps)[..k + 1]) + gap * k
  {
    var hs := Heights(ps);
    assert hs[..k + 1][..k] == hs[..k];
    if k > 0 {
      BottomIsPrefixSum(ps, gap, k - 1);
      assert ps[k].top == ps[k - 1].bottom + gap;
    } else {
      assert hs[..0] == [];
    }
  }

  /** The height of the whole list: all heights plus the gaps between consecutive items. */
  lemma TotalHeightIsSum(ps: seq<Position>, gap: int)
    requires Chained(ps, gap)
    ensures TotalHeight(ps) == if ps == [] then 0 else Sum(Heights(ps)) + gap * (|ps| - 1)
  {
    if ps != [] {
      BottomIsPrefixSum(ps, gap, |ps| - 1);
      assert Heights(ps)[..|ps|] == Heights(ps);
    }
  }

  /** Re-laying a chained table out with one height changed moves its bottom by the difference. */
  lemma ReflowTotalHeight(ps: seq<Position>, gap: int, index: nat, height: int)
    requires Chained(ps, gap) && index < |ps|
    ensures TotalHeight(Layout(Heights(ps)[index := height], gap)) == TotalHeight(ps) - ps[index].height + height
  {
    var hs := Heights(ps)[index := height];
    LayoutChained(hs, gap);
    TotalHeightIsSum(Layout(hs, gap), gap);
    TotalHeightIsSum(ps, gap);
    SumUpdate(Heights(ps), index, height);
  }

  /**
   * After a reflow: a chained table carrying the old heights with the one at
   * `index` replaced is their layout, its earlier records are the old ones, and
   * its bottom moved by the height difference.
   */
  lemma ReflowDone(ps: seq<Position>, qs: seq<Position>, gap: int, index: nat, height: int)
    requires Chained(ps, gap) && index < |ps| == |qs| && Chained(qs, gap)
    requires forall j :: 0 <= j < |qs| ==> qs[j].height == (if j == index then height else ps[j].height)
    ensures qs == Layout(Heights(ps)[index := height], gap)
    ensures qs[..index] == ps[..index]
    ensures TotalHeight(qs) == TotalHeight(ps) - ps[index].height + height
  {
    var hs := Heights(ps)[index := height];
    assert Heights(qs) == hs;
    ChainedIsLayout(qs, gap);
    ChainedIsLayout(ps, gap);
    LayoutPrefix(Heights(ps), gap, index);
    LayoutPrefix(hs, gap, index);
    assert Heights(ps)[..index] == hs[..index];
    ReflowTotalHeight(ps, gap, index, height);
  }

  lemma ChainedSnoc(ps: seq<Position>, gap: int, i: nat)
    requires 0 < i < |ps| && Chained(ps[..i], gap)
    requires ps[i].index == i && ps[i].bottom == ps[i].top + ps[i].height
    requires ps[i].top == ps[i - 1].bottom + gap
    ensures Chained(ps[..i + 1], gap)
  {
  }

  lemma ReflowFirst(ps: seq<Position>, qs: seq<Position>, gap: int, index: nat, height: int)
    requires Chained(ps, gap) && index < |ps|
    requires qs == ps[index := Position(ps[index].index, height, ps[index].top, ps[index].top + height)]
    ensures Chained(qs[..index + 1], gap)
  {
  }

  /**
   * The re-chaining loop of `updatePosition`: record `index` takes the new
   * height and keeps its top, then every later record is moved to sit `gap`
   * below its predecessor. The result is the layout of the updated heights,
   * the records before `index` are untouched and the total height moves by
   * the height difference.
   */
  method Reflow(ps: seq<Position>, gap: int, index: nat, height: int) returns (qs: seq<Position>)
    requires Chained(ps, gap) && index < |ps|
    ensures |qs| == |ps| && Chained(qs, gap)
    ensures qs == Layout(Heights(ps)[index := height], gap)
    ensures qs[..index] == ps[..index]
    ensures TotalHeight(qs) == TotalHeight(ps) - ps[index].height + height
  {
    var position := ps[index];
    qs := ps[index := Position(position.index, height, position.top, position.top + height)];
    ReflowFirst(ps, qs, gap, index, height);
    var i := index + 1;
    while i < |qs|
      invariant index + 1 <= i <= |qs| == |ps|
      invariant Chained(qs[..i], gap)
      invariant forall j :: 0 <= j < |qs| ==>
        qs[j].index == j && qs[j].height == (if j == index then height else ps[j].height)
    {
      var top := qs[i - 1].bottom + gap;
      qs := qs[i := Position(qs[i].index, qs[i].height, top, top + qs[i].height)];
      ChainedSnoc(qs, gap, i);
      i := i + 1;
    }
    assert qs[..i] == qs;
    ReflowDone(ps, qs, gap, index, height);
  }

  /** `n` copies of the estimated item height. */
  function Uniform(n: nat, h: int): (hs: seq<int>)
    ensures |hs| == n && forall i :: 0 <= i < n ==> hs[i] == h
  {
    seq(n, _ => h)
  }

  /** Before any measurement, item `i` starts at `i * (itemHeight + gap)`. */
  lemma {:induction false} UniformTop(n: nat, h: int, gap: int, i: nat)
    requires i < n
    ensures Layout(Uniform(n, h), gap)[i].top == i * (h + gap)
    ensures Layout(Uniform(n, h), gap)[i].bottom == i * (h + gap) + h
  {
    var ps := Layout(Uniform(n, h), gap);
    LayoutChained(Uniform(n, h), gap);
    if i > 0 {
      UniformTop(n, h, gap, i - 1);
      assert ps[i].top == ps[i - 1].bottom + gap == (i - 1) * (h + gap) + h + gap;
      assert (i - 1) * (h + gap) + h + gap == i * (h + gap);
    }
  }

  // ---------------------------------------------------------------------------
  // Locating the visible range
  // ---------------------------------------------------------------------------

  ghost predicate StrictlyIncreasing(ps: seq<Position>)
  {
    forall i, j :: 0 <= i < j < |ps| ==> ps[i].bottom < ps[j].bottom
  }

  /** With positive heights and a non-negative gap, the bottoms of a chained table strictly increase. */
  lemma ChainedIncreasing(ps: seq<Position>, gap: int)
    requires Chained(ps, gap) && gap >= 0
    requires forall i :: 0 <= i < |ps| ==> ps[i].height > 0
    ensures StrictlyIncreasing(ps)
  {
    forall i, j | 0 <= i < j < |ps|
      ensures ps[i].bottom < ps[j].bottom
    {
      ChainedGrows(ps, gap, i, j);
    }
  }

  lemma {:induction false} ChainedGrows(ps: seq<Position>, gap: int, i: nat, j: nat)
    requires Chained(ps, gap) && gap >= 0
    requires forall i :: 0 <= i < |ps| ==> ps[i].height > 0
    requires i < j < |ps|
    ensures ps[i].bottom < ps[j].bottom
    decreases j - i
  {
    assert ps[j].top == ps[j - 1].bottom + gap;
    if i < j - 1 {
      ChainedGrows(ps, gap, i, j - 1);
    }
  }

  /**
   * Every table the hook builds from positive heights, the uniform one of
   * `initPositions` as well as one re-chained by `updatePosition`, has
   * strictly increasing bottoms, so `binarySearch` finds the exact start.
   */
  lemma LayoutIncreasing(hs: seq<int>, gap: int)
    requires gap >= 0 && forall i :: 0 <= i < |hs| ==> hs[i] > 0
    ensures StrictlyIncreasing(Layout(hs, gap))
  {
    LayoutChained(hs, gap);
    var ps := Layout(hs, gap);
    assert forall i :: 0 <= i < |ps| ==> ps[i].height == Heights(ps)[i] == hs[i];
    ChainedIncreasing(ps, gap);
  }

  /** The uniform table of `initPositions` with a positive item height. */
  lemma UniformIncreasing(n: nat, h: int, gap: int)
    requires h > 0 && gap >= 0
    ensures StrictlyIncreasing(Layout(Uniform(n, h), gap))
  {
    LayoutIncreasing(Uniform(n, h), gap);
  }

  /**
   * What `binarySearch(scrollTop)` promises: a result in [0, n]; 0 when every
   * bottom lies above `scrollTop`; and, on a table with strictly increasing
   * bottoms that reaches `scrollTop`, the number of records whose bottom is at
   * or above `scrollTop` in the page, i.e. the first record that has not been
   * fully scrolled past.
   */
  ghost predicate IsStart(ps: seq<Position>, scrollTop: int, r: int)
  {
    && 0 <= r <= |ps|
    && ((forall i :: 0 <= i < |ps| ==> ps[i].bottom < scrollTop) ==> r == 0)
    && (StrictlyIncreasing(ps) && (exists i :: 0 <= i < |ps| && ps[i].bottom >= scrollTop) ==>
          && (forall i :: 0 <= i < r ==> ps[i].bottom <= scrollTop)
          && (forall i :: r <= i < |ps| ==> ps[i].bottom > scrollTop))
  }

  /** `binarySearch`: narrows `left`/`right` on bottoms; an exact hit returns the next index. */
  method BinarySearch(ps: seq<Position>, scrollTop: int) returns (r: int)
    ensures IsStart(ps, scrollTop, r)
  {
    var left, right, tempIndex := 0, |ps| - 1, -1;
    while left <= right
      invariant 0 <= left <= right + 1 <= |ps|
      invariant tempIndex == -1 ==> right == |ps| - 1
      invariant tempIndex != -1 ==> 0 <= tempIndex < |ps| && tempIndex == right + 1
      invariant tempIndex != -1 ==> ps[tempIndex].bottom > scrollTop
      invariant forall i :: 0 <= i < left ==> ps[i].bottom < scrollTop || !StrictlyIncreasing(ps)
      invariant forall i :: right < i < |ps| ==> ps[i].bottom > scrollTop || !StrictlyIncreasing(ps)
    {
      var midIdx := (left + right) / 2;
      var midBottom := ps[midIdx].bottom;
      if midBottom == scrollTop {
        return midIdx + 1;
      }
      if midBottom < scrollTop {
        left := midIdx + 1;
      } else {
        if tempIndex == -1 || tempIndex > midIdx {
          tempIndex := midIdx;
        }
        right := midIdx - 1;
      }
    }
    if tempIndex != -1 {
      assert ps[tempIndex].bottom > scrollTop;
    }
    r := if tempIndex == -1 then 0 else tempIndex;
  }

  /** With strictly increasing bottoms, scrolling further down never moves the start up. */
  lemma StartMonotone(ps: seq<Position>, s1: int, r1: int, s2: int, r2: int)
    requires StrictlyIncreasing(ps) && s1 <= s2
    requires exists i :: 0 <= i < |ps| && ps[i].bottom >= s2
    requires IsStart(ps, s1, r1) && IsStart(ps, s2, r2)
    ensures r1 <= r2
  {
    var i :| 0 <= i < |ps| && ps[i].bottom >= s2;
    assert ps[i].bottom >= s1;
    // were r2 < r1, record r2 would lie both at or above s1 and below s2
    var k := if r2 < r1 then r2 else i;
    assert ps[k].bottom <= s1 || ps[k].bottom > s1;
  }

  /**
   * On records with bottoms 50, 100 and 150, a scroll offset of exactly 50
   * starts the window at record 1: only the record ending at 50 counts as
   * scrolled past.
   */
  lemma ExactBoundaryStart(r: int)
    requires IsStart([Position(0, 50, 0, 50), Position(1, 50, 50, 100), Position(2, 50, 100, 150)], 50, r)
    ensures r == 1
  {
    var ps := [Position(0, 50, 0, 50), Position(1, 50, 50, 100), Position(2, 50, 100, 150)];
    assert StrictlyIncreasing(ps);
    assert ps[1].bottom >= 50;
    assert ps[0].bottom == 50 && ps[1].bottom == 100;
  }

  /**
   * The view is pinned exactly when the unseen part below the viewport is at
   * most the threshold, and scrolling further down a pinned view (same
   * viewport, same content) keeps it pinned.
   */
  lemma PinnedScrollDown(v: Viewport, scrollTop: int)
    requires scrollTop >= v.scrollTop
    ensures IsPinned(v) ==> IsPinned(Viewport(scrollTop, v.clientHeight, v.scrollHeight))
    ensures IsPinned(v) <==> v.scrollHeight - (v.scrollTop + v.clientHeight) <= PinThreshold
  {
  }

  /**
   * What the forward scan of `calculateRange` promises: `e` is the first index
   * at or after `start` whose top is not above `limit` (scrollTop +
   * clientHeight), or the table length when there is none.
   */
  ghost predicate IsEnd(ps: seq<Position>, start: int, limit: int, e: int)
  {
    && 0 <= start <= e <= |ps|
    && (forall j :: start <= j < e ==> ps[j].top < limit)
    && (e == |ps| || ps[e].top >= limit)
  }

  /** The window after widening by the overscan and clamping to the table. */
  function WidenStart(start: int, overscan: int): int
  {
    if start - overscan < 0 then 0 else start - overscan
  }

  function WidenEnd(end: int, overscan: int, n: int): int
  {
    if n - 1 < end + overscan then n - 1 else end + overscan
  }

  /** With at least one record and an overscan of at least one, the window lies inside the table. */
  lemma WindowInBounds(n: int, start: int, end: int, overscan: int)
    requires 0 <= start <= end <= n && n > 0 && overscan >= 1
    ensures 0 <= WidenStart(start, overscan) <= WidenEnd(end, overscan, n) <= n - 1
  {
  }

  /** The pinned predicate of `handleScroll`. */
  predicate IsPinned(v: Viewport)
  {
    v.scrollTop + v.clientHeight >= v.scrollHeight - PinThreshold
  }

  // ---------------------------------------------------------------------------
  // The visible slice
  // ---------------------------------------------------------------------------

  /** How `Array.prototype.slice` reads a bound: negative counts from the end, then clamp. */
  function SliceBound(k: int, len: nat): (r: nat)
    ensures r <= len
    ensures k < 0 ==> r == (if len + k < 0 then 0 else len + k)
    ensures k >= 0 ==> r == (if k > len then len else k)
  {
    if k < 0 then (if len + k < 0 then 0 else len + k) else if k > len then len else k
  }

  /** `xs.slice(from, to)`. */
  function JsSlice<T>(xs: seq<T>, from: int, to: int): (r: seq<T>)
    ensures 0 <= from <= to <= |xs| ==> r == xs[from..to]
    ensures 0 <= from && |r| > 0 ==> from + |r| <= |xs| && r == xs[from..from + |r|]
  {
    var a, b := SliceBound(from, |xs|), SliceBound(to, |xs|);
    if a < b then xs[a..b] else []
  }

  // ---------------------------------------------------------------------------
  // The hook's state
  // ---------------------------------------------------------------------------

  class VirtualList<T> {
    var rawData: seq<T>
    const itemHeight: int
    const overscan: int
    const itemGap: int
    /** The bound container and its current scroll metrics; None until mounted. */
    var container: Option<Viewport>
    var positions: seq<Position>
    var startIndex: int
    var endIndex: int
    var isAtBottom: bool

    /**
     * The table is chained; it is empty or has one record per item; the
     * window start is never negative; and once the container is bound, a
     * non-empty table has a window inside it (when the overscan is positive).
     */
    ghost predicate Valid()
      reads this
    {
      && Chained(positions, itemGap)
      && (positions == [] || |positions| == |rawData|)
      && startIndex >= 0
      && (container.Some? && positions != [] && overscan >= 1 ==>
            0 <= startIndex <= endIndex <= |positions| - 1)
    }

    /** `useVirtualList(rawData, options)`: nothing laid out yet, pinned to the bottom. */
    constructor (rawData: seq<T>, itemHeight: int, overscanOption: Option<int>, itemGapOption: Option<int>)
      ensures Valid()
      ensures this.rawData == rawData && this.itemHeight == itemHeight
      ensures overscan == OrDefault(overscanOption, DefaultOverscan)
      ensures itemGap == OrDefault(itemGapOption, DefaultItemGap)
      ensures container == None && positions == [] && startIndex == 0 && endIndex == 0 && isAtBottom
    {
      this.rawData := rawData;
      this.itemHeight := itemHeight;
      overscan := OrDefault(overscanOption, DefaultOverscan);
      itemGap := OrDefault(itemGapOption, DefaultItemGap);
      container := None;
      positions := [];
      startIndex, endIndex := 0, 0;
      isAtBottom := true;
    }

    /** `totalHeight`, which sizes the spacer element. */
    function WrapperHeight(): (h: int)
      reads this
      requires Valid()
      ensures h == if positions == [] then 0 else Sum(Heights(positions)) + itemGap * (|positions| - 1)
    {
      TotalHeightIsSum(positions, itemGap);
      TotalHeight(positions)
    }

    /** `visibleData`: the items of the window, each with its absolute index. */
    function VisibleData(): (r: seq<Slot<T>>)
      reads this
      requires Valid()
      ensures positions == [] ==> r == []
      ensures forall k :: 0 <= k < |r| ==>
        0 <= r[k].index < |rawData| && r[k].index == startIndex + k && r[k].data == rawData[r[k].index]
      ensures positions != [] && 0 <= startIndex <= endIndex < |rawData| ==> |r| == endIndex - startIndex + 1
    {
      if |positions| == 0 then []
      else
        var first := startIndex;
        var items := JsSlice(rawData, first, endIndex + 1);
        seq(|items|, k requires 0 <= k < |items| => Slot(items[k], first + k))
    }

    /** `getItemStyle(index)`: the item's top offset, or nothing (`{}`) for an index without a record. */
    function ItemTop(index: int): (r: Option<int>)
      reads this
      requires Valid()
      ensures r.Some? <==> 0 <= index < |positions|
      ensures r.Some? ==> r.value == (if index == 0 then 0 else positions[index - 1].bottom + itemGap)
    {
      if 0 <= index < |positions| then Some(positions[index].top) else None
    }

    /** `initPositions`: rebuild the table with every item at the estimated height. */
    method InitPositions()
      modifies this`positions
      ensures positions == Layout(Uniform(|rawData|, itemHeight), itemGap)
      ensures Chained(positions, itemGap) && |positions| == |rawData|
      ensures startIndex == old(startIndex) && endIndex == old(endIndex)
    {
      var newPositions: seq<Position> := [];
      var i := 0;
      while i < |rawData|
        invariant 0 <= i <= |rawData|
        invariant newPositions == Layout(Uniform(i, itemHeight), itemGap)
      {
        assert Uniform(i + 1, itemHeight) == Uniform(i, itemHeight) + [itemHeight];
        LayoutSnoc(Uniform(i, itemHeight), itemHeight, itemGap);
        var top := if i == 0 then 0 else newPositions[i - 1].bottom + itemGap;
        var height := itemHeight;
        newPositions := newPositions + [Position(i, height, top, top + height)];
        i := i + 1;
      }
      positions := newPositions;
      LayoutChained(Uniform(|rawData|, itemHeight), itemGap);
    }

    /**
     * `calculateRange`: a no-op while the container is unbound or the table is
     * empty; otherwise the window around the first visible record and the first
     * record below the viewport, widened by the overscan.
     */
    method CalculateRange() returns (ghost start: int, ghost end: int)
      requires startIndex >= 0
      modifies this`startIndex, this`endIndex
      ensures startIndex >= 0
      ensures container == None || positions == [] ==>
        startIndex == old(startIndex) && endIndex == old(endIndex)
      ensures container.Some? && positions != [] ==>
        && IsStart(positions, container.value.scrollTop, start)
        && IsEnd(positions, start, container.value.scrollTop + container.value.clientHeight, end)
        && startIndex == WidenStart(start, overscan)
        && endIndex == WidenEnd(end, overscan, |positions|)
      ensures container.Some? && positions != [] && overscan >= 1 ==>
        0 <= startIndex <= endIndex <= |positions| - 1
    {
      start, end := 0, 0;
      if container == None || |positions| == 0 {
        return;
      }
      var scrollTop, clientHeight := container.value.scrollTop, container.value.clientHeight;
      var s := BinarySearch(positions, scrollTop);
      var e := s;
      while e < |positions| && positions[e].top < scrollTop + clientHeight
        invariant s <= e <= |positions|
        invariant forall j :: s <= j < e ==> positions[j].top < scrollTop + clientHeight
      {
        e := e + 1;
      }
      startIndex := WidenStart(s, overscan);
      endIndex := WidenEnd(e, overscan, |positions|);
      start, end := s, e;
      if overscan >= 1 {
        WindowInBounds(|positions|, s, e, overscan);
      }
    }

    /** `onMounted`: bind the container, lay out the list and compute the window. */
    method Mount(element: Option<Viewport>) returns (ghost start: int, ghost end: int)
      requires Valid() && container == None
      modifies this
      ensures Valid() && rawData == old(rawData) && isAtBottom == old(isAtBottom)
      ensures element == None ==>
        container == None && positions == old(positions)
        && startIndex == old(startIndex) && endIndex == old(endIndex)
      ensures element.Some? ==>
        container == element && positions == Layout(Uniform(|rawData|, itemHeight), itemGap)
      ensures element.Some? && positions != [] ==>
        && IsStart(positions, element.value.scrollTop, start)
        && IsEnd(positions, start, element.value.scrollTop + element.value.clientHeight, end)
        && startIndex == WidenStart(start, overscan)
        && endIndex == WidenEnd(end, overscan, |positions|)
    {
      start, end := 0, 0;
      if element == None {
        return;
      }
      container := element;
      InitPositions();
      start, end := CalculateRange();
    }

    /**
     * `handleScroll`: with a bound container, record the new metrics, recompute
     * the pinned flag and the window; without one, do nothing.
     */
    method OnScroll(v: Viewport) returns (ghost start: int, ghost end: int)
      requires Valid()
      modifies this`container, this`isAtBottom, this`startIndex, this`endIndex
      ensures Valid()
      ensures old(container) == None ==>
        (container == None && isAtBottom == old(isAtBottom)
         && startIndex == old(startIndex) && endIndex == old(endIndex))
      ensures old(container).Some? ==> container == Some(v) && isAtBottom == IsPinned(v)
      ensures old(container).Some? && positions == [] ==>
        startIndex == old(startIndex) && endIndex == old(endIndex)
      ensures old(container).Some? && positions != [] ==>
        && IsStart(positions, v.scrollTop, start)
        && IsEnd(positions, start, v.scrollTop + v.clientHeight, end)
        && startIndex == WidenStart(start, overscan)
        && endIndex == WidenEnd(end, overscan, |positions|)
    {
      start, end := 0, 0;
      if container == None {
        return;
      }
      container := Some(v);
      isAtBottom := IsPinned(v);
      start, end := CalculateRange();
    }

    /**
     * `updatePosition(index, height)`: a no-op for an index without a record or
     * an unchanged height; otherwise the record takes the new height, every
     * later record is re-chained, and a scroll to the bottom is requested iff
     * the view is pinned (and a container is bound).
     */
    method UpdatePosition(index: int, height: int) returns (scroll: bool)
      requires Valid()
      modifies this`positions
      ensures Valid()
      ensures !(0 <= index < |old(positions)|) || old(positions)[index].height == height ==>
        positions == old(positions) && !scroll
      ensures 0 <= index < |old(positions)| && old(positions)[index].height != height ==>
        && positions == Layout(Heights(old(positions))[index := height], itemGap)
        && positions[..index] == old(positions)[..index]
        && TotalHeight(positions) == TotalHeight(old(positions)) - old(positions)[index].height + height
        && scroll == (isAtBottom && container.Some?)
    {
      if !(0 <= index < |positions|) || positions[index].height == height {
        return false;
      }
      positions := Reflow(positions, itemGap, index, height);
      scroll := isAtBottom && container.Some?;
    }

    /**
     * The `watch` on the list length: a new length rebuilds the whole table
     * (measured heights are discarded), recomputes the window, and requests a
     * scroll to the bottom when the list grew; the same length changes nothing
     * but the data.
     */
    method SetData(newData: seq<T>) returns (scroll: bool, ghost start: int, ghost end: int)
      requires Valid()
      modifies this`rawData, this`positions, this`startIndex, this`endIndex
      ensures Valid() && rawData == newData
      ensures |newData| == |old(rawData)| ==>
        (positions == old(positions) && !scroll
         && startIndex == old(startIndex) && endIndex == old(endIndex))
      ensures |newData| != |old(rawData)| ==>
        positions == Layout(Uniform(|newData|, itemHeight), itemGap)
      ensures |newData| != |old(rawData)| && (container == None || newData == []) ==>
        startIndex == old(startIndex) && endIndex == old(endIndex)
      ensures |newData| != |old(rawData)| && container.Some? && newData != [] ==>
        && IsStart(positions, container.value.scrollTop, start)
        && IsEnd(positions, start, container.value.scrollTop + container.value.clientHeight, end)
        && startIndex == WidenStart(start, overscan)
        && endIndex == WidenEnd(end, overscan, |positions|)
      ensures scroll == (|newData| > |old(rawData)| && container.Some?)
    {
      var oldLength := |rawData|;
      rawData := newData;
      scroll, start, end := false, 0, 0;
      if |newData| != oldLength {
        InitPositions();
        start, end := CalculateRange();
        scroll := |newData| > oldLength && container.Some?;
      }
    }
  }
}
