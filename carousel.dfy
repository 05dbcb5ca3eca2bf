/**
 * The recommendations carousel: an `index` state that the previous and next buttons
 * move with wrap-around, and the item shown, `items[min(index, items.length - 1)]`.
 */
module Carousel {
  import opened Values

  /** `goPrev`: 0 (or anything below) wraps to the last position, any other index steps back by one. */
  function Prev(i: int, len: nat): (j: int)
    requires len > 0
    ensures i <= 0 ==> j == len - 1
    ensures i > 0 ==> j == i - 1
    ensures 0 <= i < len ==> 0 <= j < len && j == (i - 1) % len
    ensures i >= 0 ==> j >= 0
  {
    if i <= 0 then len - 1 else i - 1
  }

  /** `goNext`: the last position (or anything beyond) wraps to 0, any other index steps forward by one. */
  function Next(i: int, len: nat): (j: int)
    requires len > 0
    ensures i >= len - 1 ==> j == 0
    ensures 0 <= i < len ==> 0 <= j < len && j == (i + 1) % len
    ensures i >= 0 ==> j >= 0
  {
    if i >= len - 1 then 0 else i + 1
  }

  /** The two buttons undo each other on every in-range index. */
  lemma PrevNextInverse(i: int, len: nat)
    requires len > 0 && 0 <= i < len
    ensures Prev(Next(i, len), len) == i
    ensures Next(Prev(i, len), len) == i
  {
  }

  /** The index after `k` presses of the next button. */
  function NextTimes(i: int, k: nat, len: nat): int
    requires len > 0
    decreases k
  {
    if k == 0 then i else NextTimes(Next(i, len), k - 1, len)
  }

  /** Presses of the next button that do not reach the end just add up. */
  lemma {:induction false} NextTimesBelowEnd(i: int, k: nat, len: nat)
    requires len > 0 && 0 <= i && i + k < len
    ensures NextTimes(i, k, len) == i + k
    decreases k
  {
    if k > 0 {
      NextTimesBelowEnd(i + 1, k - 1, len);
    }
  }

  /** `a` presses followed by `b` presses are `a + b` presses. */
  lemma {:induction false} NextTimesCompose(i: int, a: nat, b: nat, len: nat)
    requires len > 0
    ensures NextTimes(NextTimes(i, a, len), b, len) == NextTimes(i, a + b, len)
    decreases a
  {
    if a > 0 {
      NextTimesCompose(Next(i, len), a - 1, b, len);
    }
  }

  /** Pressing next `len` times from any in-range index comes back to it: up to the last item, wrap to 0, then on to `i`. */
  lemma FullCycle(i: int, len: nat)
    requires len > 0 && 0 <= i < len
    ensures NextTimes(i, len, len) == i
  {
    NextTimesBelowEnd(i, len - 1 - i, len);
    assert NextTimes(len - 1, 1, len) == 0;
    NextTimesCompose(i, len - 1 - i, 1, len);
    NextTimesBelowEnd(0, i, len);
    NextTimesCompose(i, len - i, i, len);
  }

  /**
   * The item shown: nothing when `items` is not an array or is empty, otherwise the
   * item at `index`, or the last item when the index has run past the end.
   */
  function Current(items: JsValue, index: nat): (r: Option<Json>)
    ensures r.None? <==> !(items.Defined? && items.json.Arr? && |items.json.items| > 0)
    ensures r.Some? && index < |items.json.items| ==> r.value == items.json.items[index]
    ensures r.Some? && index >= |items.json.items| ==> r.value == items.json.items[|items.json.items| - 1]
  {
    if items.Defined? && items.json.Arr? && |items.json.items| > 0 then
      var n := |items.json.items|;
      Some(items.json.items[if index < n - 1 then index else n - 1])
    else None
  }

  /** The `index` state of one rendered carousel. */
  class Browser {
    var index: int

    /** `useState(0)` */
    constructor ()
      ensures index == 0
    {
      index := 0;
    }

    /** The previous button; it exists only while there are items to show. */
    method GoPrev(len: nat)
      requires len > 0
      modifies this
      ensures index == Prev(old(index), len)
      ensures old(index) >= 0 ==> index >= 0
      ensures 0 <= old(index) < len ==> 0 <= index < len
    {
      index := Prev(index, len);
    }

    /** The next button; it exists only while there are items to show. */
    method GoNext(len: nat)
      requires len > 0
      modifies this
      ensures index == Next(old(index), len)
      ensures old(index) >= 0 ==> index >= 0
      ensures 0 <= old(index) < len ==> 0 <= index < len
    {
      index := Next(index, len);
    }
  }
}
