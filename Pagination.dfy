/**
 * The pagination index of the wallboard: the flat item list is cut into
 * groups of 150 items, a group into screens of 50, and a screen offers the
 * even grid sizes up to its item count. Everything here depends only on the
 * length `n` of the list and on the selected group and screen numbers.
 */
module Pagination {
  import opened Wrappers
  import opened Arithmetic

  /** Items per group. */
  const GroupSize := 150
  /** Items per screen. */
  const ScreenSize := 50

  /** The option labels `1, 2, ..., k`, as `Array.from({length: k}, (_, i) => i + 1)` builds them. */
  function Labels(k: nat): (labels: seq<int>)
    ensures |labels| == k
    ensures forall i :: 0 <= i < k ==> labels[i] == i + 1
  {
    if k == 0 then [] else Labels(k - 1) + [k]
  }

  /** Number of groups: the least k with `n <= 150 * k`, that is `ceil(n / 150)`. */
  function GroupCount(n: nat): (k: nat)
    ensures GroupSize * (k - 1) < n <= GroupSize * k
    ensures k == 0 <==> n == 0
  {
    ArrayLength(CeilDiv(n, GroupSize))
  }

  /** The group dropdown's options: exactly `1..GroupCount(n)` in ascending order. */
  function GroupLabels(n: nat): (labels: seq<int>)
    ensures |labels| == GroupCount(n)
    ensures labels == [] <==> n == 0
    ensures forall i :: 0 <= i < |labels| ==> labels[i] == i + 1
    ensures forall g :: g in labels <==> 1 <= g <= GroupCount(n)
  {
    var labels := Labels(GroupCount(n));
    forall g | 1 <= g <= GroupCount(n)
      ensures g in labels
    {
      assert labels[g - 1] == g;
    }
    labels
  }

  /** First index of group `g` (1-based) in the flat list. */
  function GroupStart(g: int): int {
    (g - 1) * GroupSize
  }

  /** One past the last index of group `g`, cut off at the end of the list. */
  function GroupEnd(n: nat, g: int): int {
    Min(g * GroupSize, n)
  }

  /** `endIndex - startIndex` of the screen dropdown; negative for a group past the data. */
  function GroupItemCount(n: nat, g: int): (c: int)
    ensures 1 <= g ==> (c >= 1 <==> g <= GroupCount(n))
  {
    GroupEnd(n, g) - GroupStart(g)
  }

  /**
   * Number of screens offered for group `g`: none when the group holds no
   * item, otherwise `ceil(count / 50)`.
   */
  function ScreenCount(n: nat, g: int): (k: nat)
    ensures k == 0 <==> GroupItemCount(n, g) <= 0
    ensures k > 0 ==> ScreenSize * (k - 1) < GroupItemCount(n, g) <= ScreenSize * k
  {
    ArrayLength(CeilDiv(GroupItemCount(n, g), ScreenSize))
  }

  /** The screen dropdown's options for group `g`. */
  function ScreenLabels(n: nat, g: int): (labels: seq<int>)
    ensures |labels| == ScreenCount(n, g)
    ensures forall i :: 0 <= i < |labels| ==> labels[i] == i + 1
  {
    Labels(ScreenCount(n, g))
  }

  /** `Array.prototype.slice`'s treatment of an index: negative counts from the end, both clamp. */
  function RelativeIndex(len: nat, k: int): (r: nat)
    ensures r <= len
  {
    if k < 0 then ArrayLength(len + k) else Min(k, len)
  }

  /** Length of `a.slice(start, end)` for an array `a` of length `len`. */
  function SliceLength(len: nat, start: int, end: int): (r: nat)
    ensures r <= len
  {
    var from, to := RelativeIndex(len, start), RelativeIndex(len, end);
    if to > from then to - from else 0
  }

  /**
   * A slice index at or above 0 is cut to the length; a negative one counts
   * from the end, and one before the start of the array is 0.
   */
  lemma RelativeIndexValue(len: nat, k: int)
    ensures 0 <= k <= len ==> RelativeIndex(len, k) == k
    ensures len < k ==> RelativeIndex(len, k) == len
    ensures k < 0 && 0 <= len + k ==> RelativeIndex(len, k) == len + k
    ensures len + k < 0 ==> RelativeIndex(len, k) == 0
  {
  }

  /** With indices at or above 0, a slice runs from the cut start to the cut end, or is empty. */
  lemma SliceLengthOfNonNegative(len: nat, start: int, end: int)
    requires 0 <= start && 0 <= end
    ensures SliceLength(len, start, end) == ArrayLength(Min(end, len) - Min(start, len))
    ensures start <= end <= len ==> SliceLength(len, start, end) == end - start
  {
  }

  /** `a.slice(-3, 10)` of ten elements holds the last three. */
  lemma SliceOfLastThree()
    ensures SliceLength(10, -3, 10) == 3
  {
    RelativeIndexValue(10, -3);
  }

  /**
   * Length of `groupData`, the slice of group `g` the size dropdown works on:
   * for a group numbered from 1 up, as long as the screen dropdown counted.
   */
  function GroupSliceLength(n: nat, g: int): (len: nat)
    ensures len <= n
    ensures g >= 1 ==> len == ArrayLength(GroupItemCount(n, g))
  {
    SliceLength(n, GroupStart(g), GroupEnd(n, g))
  }

  /**
   * `screenDataCount`: number of items of screen `s` of group `g`. It is at
   * most 50, and for a group and screen numbered from 1 up it is positive
   * exactly when the screen is offered.
   */
  function ScreenItemCount(n: nat, g: int, s: int): (c: int)
    ensures s >= 1 ==> c <= ScreenSize
    ensures g >= 1 && s >= 1 ==> (c >= 1 <==> s <= ScreenCount(n, g))
  {
    Min(s * ScreenSize, GroupSliceLength(n, g)) - (s - 1) * ScreenSize
  }

  /** The size dropdown's options: the even numbers from 2 up to `count`, ascending. */
  function SizeOptions(count: int): (sizes: seq<int>)
    ensures |sizes| == ArrayLength(count) / 2
    ensures forall i :: 0 <= i < |sizes| ==> sizes[i] == 2 * (i + 1)
    decreases count
  {
    if count < 2 then [] else SizeOptions(count - 1) + (if count % 2 == 0 then [count] else [])
  }

  /** The loop that fills the size dropdown: every `i` in `1..count` that is even, in order. */
  method BuildSizeOptions(count: int) returns (sizes: seq<int>)
    ensures sizes == SizeOptions(count)
  {
    sizes := [];
    var i := 1;
    while i <= count
      invariant 1 <= i && (i == 1 || i <= count + 1)
      invariant sizes == SizeOptions(i - 1)
    {
      if i % 2 == 0 {
        sizes := sizes + [i];
      }
      i := i + 1;
    }
  }

  // ---------------------------------------------------------------------
  // Properties of the index

  /** Every group that is offered holds between 1 and 150 items; all but the last hold 150. */
  lemma GroupItemCountBounds(n: nat, g: int)
    requires 1 <= g <= GroupCount(n)
    ensures 1 <= GroupItemCount(n, g) <= GroupSize
    ensures g < GroupCount(n) ==> GroupItemCount(n, g) == GroupSize
    ensures GroupItemCount(n, g) == Min(g * GroupSize, n) - (g - 1) * GroupSize
  {
  }

  /** A group that is offered has `ceil(count / 50)` screens, between 1 and 3. */
  lemma ScreenCountOfGroup(n: nat, g: int)
    requires 1 <= g <= GroupCount(n)
    ensures ScreenSize * (ScreenCount(n, g) - 1) < GroupItemCount(n, g) <= ScreenSize * ScreenCount(n, g)
    ensures 1 <= ScreenCount(n, g) <= 3
  {
    GroupItemCountBounds(n, g);
  }

  /** A group past the end of the data has no screens. */
  lemma NoScreensPastData(n: nat, g: int)
    requires g > GroupCount(n)
    ensures ScreenCount(n, g) == 0 && ScreenLabels(n, g) == []
  {
  }

  /** Every screen offered for an offered group holds between 1 and 50 items. */
  lemma ScreenItemCountBounds(n: nat, g: int, s: int)
    requires 1 <= g <= GroupCount(n)
    requires 1 <= s <= ScreenCount(n, g)
    ensures 1 <= ScreenItemCount(n, g, s) <= ScreenSize
  {
    ScreenCountOfGroup(n, g);
  }

  /** A screen past the end of its group offers no size. */
  lemma NoSizesPastGroup(n: nat, g: int, s: int)
    requires 1 <= g && s > ScreenCount(n, g)
    ensures ScreenItemCount(n, g, s) <= 0
    ensures SizeOptions(ScreenItemCount(n, g, s)) == []
  {
  }

  /** Items of screens `1..k` of group `g`. */
  function ScreenItemsUpTo(n: nat, g: int, k: nat): int {
    if k == 0 then 0 else ScreenItemsUpTo(n, g, k - 1) + ScreenItemCount(n, g, k)
  }

  /** The first `k` screens of a group cover its first `min(50 k, count)` items. */
  lemma {:induction false} ScreenItemsPrefix(n: nat, g: int, k: nat)
    requires 1 <= g <= GroupCount(n)
    requires k <= ScreenCount(n, g)
    ensures ScreenItemsUpTo(n, g, k) == Min(k * ScreenSize, GroupItemCount(n, g))
  {
    ScreenCountOfGroup(n, g);
    if k > 0 {
      ScreenItemsPrefix(n, g, k - 1);
    }
  }

  /** The screens of an offered group partition it: their item counts add up to the group's. */
  lemma ScreensPartitionGroup(n: nat, g: int)
    requires 1 <= g <= GroupCount(n)
    ensures ScreenItemsUpTo(n, g, ScreenCount(n, g)) == GroupItemCount(n, g)
  {
    ScreenItemsPrefix(n, g, ScreenCount(n, g));
    ScreenCountOfGroup(n, g);
  }

  /** Items of groups `1..k`. */
  function GroupItemsUpTo(n: nat, k: nat): int {
    if k == 0 then 0 else GroupItemsUpTo(n, k - 1) + GroupItemCount(n, k)
  }

  /** The first `k` groups cover the first `min(150 k, n)` items. */
  lemma {:induction false} GroupItemsPrefix(n: nat, k: nat)
    requires k <= GroupCount(n)
    ensures GroupItemsUpTo(n, k) == Min(k * GroupSize, n)
  {
    if k > 0 {
      GroupItemsPrefix(n, k - 1);
    }
  }

  /** The groups partition the whole list. */
  lemma GroupsPartitionList(n: nat)
    ensures GroupItemsUpTo(n, GroupCount(n)) == n
  {
    GroupItemsPrefix(n, GroupCount(n));
  }

  /** A size is offered exactly when it is even and between 2 and the screen's item count. */
  lemma SizeOptionsMembership(count: int, x: int)
    ensures x in SizeOptions(count) <==> 2 <= x <= count && x % 2 == 0
  {
    var sizes := SizeOptions(count);
    if 2 <= x <= count && x % 2 == 0 {
      assert sizes[x / 2 - 1] == x;
    }
  }

  /**
   * The sizes ascend strictly; there are none for a count of 1 or less, and
   * otherwise the largest is the greatest even number not above the count.
   */
  lemma SizeOptionsOrder(count: int)
    ensures forall i, j :: 0 <= i < j < |SizeOptions(count)| ==> SizeOptions(count)[i] < SizeOptions(count)[j]
    ensures count <= 1 <==> SizeOptions(count) == []
    ensures count >= 2 ==> SizeOptions(count)[|SizeOptions(count)| - 1] == count - count % 2
  {
  }

  // ---------------------------------------------------------------------
  // Default selections

  /** What `$select.val(v).trigger("change")` hands to the next handler, or that nothing fires. */
  datatype Trigger = NoChange | Change(value: Option<int>)

  /**
   * The default selection after a dropdown is refilled: when it has an option
   * besides the placeholder, the option `wanted` is selected and a change
   * fires; if no option has that value the selection is empty and the
   * handler parses `NaN`, here `None`.
   */
  function Preselect(options: seq<int>, wanted: int): (t: Trigger)
    ensures t == NoChange <==> options == []
    ensures t == Change(Some(wanted)) <==> wanted in options
    ensures t == Change(None) <==> options != [] && wanted !in options
  {
    if |options| > 0 then Change(if wanted in options then Some(wanted) else None) else NoChange
  }

  /**
   * The size dropdown asks for 50 and nothing else: a screen of at least 50
   * items renders 50 cells, a screen of 2 to 49 items hands `NaN` to the
   * grid, and a screen with fewer fires nothing, leaving the grid as it was.
   */
  lemma {:induction false} DefaultSize(count: int)
    ensures Preselect(SizeOptions(count), 50) ==
      if count >= 50 then Change(Some(50)) else if count >= 2 then Change(None) else NoChange
  {
    SizeOptionsMembership(count, 50);
    SizeOptionsOrder(count);
  }

  /**
   * What a change of the screen dropdown to `s` finally hands to the grid:
   * 50 for a full screen, `NaN` for one of 2 to 49 items, nothing otherwise.
   */
  function ScreenChangeRender(n: nat, g: int, s: int): (t: Trigger)
    ensures var c := ScreenItemCount(n, g, s);
      t == if c >= 50 then Change(Some(50)) else if c >= 2 then Change(None) else NoChange
  {
    DefaultSize(ScreenItemCount(n, g, s));
    Preselect(SizeOptions(ScreenItemCount(n, g, s)), 50)
  }

  /**
   * What a change of the group dropdown to `g` finally hands to the grid: an
   * offered group cascades through its screen 1 to that screen's default
   * size; a group past the data has no screen and fires nothing.
   */
  function GroupChangeRender(n: nat, g: int): (t: Trigger)
    ensures 1 <= g <= GroupCount(n) ==>
      var c := ScreenItemCount(n, g, 1);
      t == if c == 50 then Change(Some(50)) else if c >= 2 then Change(None) else NoChange
    ensures g > GroupCount(n) ==> t == NoChange
  {
    var labels := ScreenLabels(n, g);
    assert labels != [] ==> labels[0] == 1;
    match Preselect(labels, 1)
    case Change(Some(s)) => ScreenChangeRender(n, g, s)
    case _ => NoChange
  }

  /**
   * What loading the page finally hands to the grid: a list of at least 50
   * items renders 50 cells, one of 2 to 49 items hands `NaN` to the grid,
   * and a shorter one renders nothing.
   */
  function StartupRender(n: nat): (t: Trigger)
    ensures t == if n >= 50 then Change(Some(50)) else if n >= 2 then Change(None) else NoChange
  {
    match Preselect(GroupLabels(n), 1)
    case Change(Some(g)) => GroupChangeRender(n, g)
    case _ => NoChange
  }

  /** 230 items: two groups; the first has screens of 50, 50, 50, the second of 50 and 30. */
  lemma TwoHundredThirtyItems()
    ensures GroupCount(230) == 2
    ensures ScreenCount(230, 1) == 3 && ScreenCount(230, 2) == 2
    ensures ScreenItemCount(230, 1, 1) == ScreenItemCount(230, 1, 2) == ScreenItemCount(230, 1, 3) == 50
    ensures ScreenItemCount(230, 2, 1) == 50 && ScreenItemCount(230, 2, 2) == 30
  {
  }
}
