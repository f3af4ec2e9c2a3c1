/** The "popular now" slider of the main page (components/mainPage/RealTimePopular.jsx): an index
    into the item list that moves by one, showing five items at a time. */
module RealTimePopular {
  import opened Wrappers

  const VisibleCount: nat := 5

  /** The last index at which a full window of five is still shown (0 for short lists). */
  function MaxIndex(n: nat): (m: nat)
    ensures n >= VisibleCount ==> m + VisibleCount == n
    ensures n < VisibleCount ==> m == 0
  {
    if n >= VisibleCount then n - VisibleCount else 0
  }

  class Slider<Item> {
    var items: seq<Item>
    var currentIndex: nat

    /** The window never runs past the end of a list longer than the window. */
    ghost predicate Valid()
      reads this
    {
      currentIndex <= MaxIndex(|items|)
    }

    predicate PrevDisabled()
      reads this
    {
      currentIndex == 0
    }

    predicate NextDisabled()
      reads this
    {
      currentIndex + VisibleCount >= |items|
    }

    constructor()
      ensures Valid() && items == [] && currentIndex == 0
    {
      items, currentIndex := [], 0;
    }

    /** The mount effect: a success replaces the items, a failure keeps them; the index stays. */
    method LoadItems(reply: Response<seq<Item>>)
      modifies this`items
      ensures reply.Ok? ==> items == reply.data
      ensures reply.Failed? ==> items == old(items)
      ensures old(currentIndex) == 0 ==> Valid()
    {
      if reply.Ok? {
        items := reply.data;
      }
    }

    /** `nextSlide`: one step right while items remain beyond the window; a no-op exactly when
        the next button is disabled. */
    method NextSlide()
      modifies this`currentIndex
      ensures !old(NextDisabled()) ==> currentIndex == old(currentIndex) + 1
      ensures old(NextDisabled()) ==> currentIndex == old(currentIndex)
      ensures old(Valid()) ==> Valid()
    {
      if currentIndex + VisibleCount < |items| {
        currentIndex := currentIndex + 1;
      }
    }

    /** `prevSlide`: one step left unless at the start; a no-op exactly when the previous button
        is disabled. */
    method PrevSlide()
      modifies this`currentIndex
      ensures !old(PrevDisabled()) ==> currentIndex == old(currentIndex) - 1
      ensures old(PrevDisabled()) ==> currentIndex == old(currentIndex)
      ensures old(Valid()) ==> Valid()
    {
      if currentIndex > 0 {
        currentIndex := currentIndex - 1;
      }
    }
  }

  /** A step right that was enabled, followed by a step left, returns to the same window. */
  method NextThenPrev<Item>(s: Slider<Item>)
    requires !s.NextDisabled()
    modifies s
    ensures s.currentIndex == old(s.currentIndex) && s.items == old(s.items)
  {
    s.NextSlide();
    s.PrevSlide();
  }
}
