/**
 * Scroll-direction detection for the product grid: remembers the last
 * first-visible item and its offset and compares each new position with it.
 */
module DirectionalScroll {
  datatype ScrollDirection = None | Up | Down

  /** Position (`index`, `offset`) lies strictly further down the list than (`item`, `position`). */
  predicate IsFurtherDown(index: int, offset: int, item: int, position: int)
  {
    index > item || (index == item && offset > position)
  }

  class DirectionalLazyStaggeredGridState {
    var positionY: int
    var visibleItem: int

    /** Starts from the grid's first visible item and its scroll offset at construction. */
    constructor (firstVisibleItemIndex: int, firstVisibleItemScrollOffset: int)
      ensures visibleItem == firstVisibleItemIndex && positionY == firstVisibleItemScrollOffset
    {
      positionY := firstVisibleItemScrollOffset;
      visibleItem := firstVisibleItemIndex;
    }

    /**
     * The direction for the grid's current state. Without a scroll in
     * progress it is `None` and nothing is remembered; otherwise it is
     * `Down` exactly when the grid moved further down (a later first item,
     * or the same item scrolled further) and `Up` otherwise, and the current
     * position is remembered.
     */
    method ScrollDirection(isScrollInProgress: bool, firstVisibleItemIndex: int, firstVisibleItemScrollOffset: int)
      returns (direction: ScrollDirection)
      modifies this
      ensures !isScrollInProgress ==> direction == None && positionY == old(positionY) && visibleItem == old(visibleItem)
      ensures isScrollInProgress ==> direction != None
      ensures isScrollInProgress ==>
                (direction == Down <==>
                  IsFurtherDown(firstVisibleItemIndex, firstVisibleItemScrollOffset, old(visibleItem), old(positionY)))
      ensures isScrollInProgress ==> visibleItem == firstVisibleItemIndex && positionY == firstVisibleItemScrollOffset
    {
      if !isScrollInProgress {
        direction := None;
      } else if firstVisibleItemIndex == visibleItem {
        direction := if firstVisibleItemScrollOffset > positionY then Down else Up;
        positionY := firstVisibleItemScrollOffset;
      } else {
        direction := if firstVisibleItemIndex > visibleItem then Down else Up;
        positionY := firstVisibleItemScrollOffset;
        visibleItem := firstVisibleItemIndex;
      }
    }
  }
}
