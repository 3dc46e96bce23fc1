/**
 * Where the preview bubble goes. Coordinates are viewport pixels as
 * integers; the bubble is 250 pixels wide (the width implied by the
 * centring offset of 125 and the right-edge pin at innerWidth - 260).
 */
module Placement {
  const BubbleWidth: int := 250
  /** The closest the bubble may come to a viewport edge. */
  const EdgeMargin: int := 10
  /** How far above the card's top the bubble's top is placed. */
  const RaiseAbove: int := 120
  /** The gap between the card's bottom and a bubble flipped below it. */
  const DropBelow: int := 20

  /** A card's bounding rectangle, as `getBoundingClientRect` reports it. */
  datatype Rect = Rect(left: int, top: int, width: nat, height: nat) {
    function Bottom(): int { top + height }
  }

  /** The bubble's `style.left` and `style.top`. */
  datatype Position = Position(left: int, top: int)

  /** The bubble lies between the two side margins of a viewport `width` wide. */
  predicate FitsHorizontally(left: int, width: int) {
    EdgeMargin <= left && left + BubbleWidth <= width - EdgeMargin
  }

  /** The viewports wide enough to hold the bubble and both margins. */
  predicate RoomyViewport(width: int) {
    BubbleWidth + 2 * EdgeMargin <= width
  }

  /** The first placement: centred over the card, RaiseAbove pixels above its top. */
  function Anchor(card: Rect): (p: Position)
    ensures p.left + BubbleWidth / 2 == card.left + card.width / 2
    ensures p.top + RaiseAbove == card.top
  {
    Position(card.left + card.width / 2 - BubbleWidth / 2, card.top - RaiseAbove)
  }

  /**
   * The on-screen correction. All three tests read the bubble's rectangle
   * as it was measured before any correction, so when both side tests
   * fire the right-edge pin, applied second, wins.
   */
  function Clamp(p: Position, card: Rect, width: int): Position {
    var left1 := if p.left < EdgeMargin then EdgeMargin else p.left;
    var left2 := if p.left + BubbleWidth > width - EdgeMargin then width - (BubbleWidth + EdgeMargin) else left1;
    var top := if p.top < EdgeMargin then card.Bottom() + DropBelow else p.top;
    Position(left2, top)
  }

  /** The hover placement: the anchor, corrected to stay on screen. */
  function HoverPlacement(card: Rect, width: int): (p: Position)
    // in a viewport that can hold it, the bubble ends up inside both side margins
    ensures RoomyViewport(width) ==> FitsHorizontally(p.left, width)
    // a fitting anchor is left alone, and (in such a viewport) only a fitting one
    ensures FitsHorizontally(Anchor(card).left, width) ==> p.left == Anchor(card).left
    ensures RoomyViewport(width) && p.left == Anchor(card).left ==> FitsHorizontally(p.left, width)
    // vertically: kept above the card when that clears the top margin, else flipped below the card
    ensures p.top == Anchor(card).top <==> EdgeMargin <= Anchor(card).top
    ensures p.top != Anchor(card).top ==> p.top == card.Bottom() + DropBelow
  {
    Clamp(Anchor(card), card, width)
  }

  /** A bubble off the left edge (and not off the right one) is pinned 10 pixels in. */
  lemma LeftEdgePin(card: Rect, width: int)
    requires Anchor(card).left < EdgeMargin
    requires Anchor(card).left + BubbleWidth <= width - EdgeMargin
    ensures HoverPlacement(card, width).left == EdgeMargin
  {
  }

  /**
   * A bubble off the right edge is pinned at width - 260, even when it is
   * also off the left edge.
   */
  lemma RightEdgePinWins(card: Rect, width: int)
    requires Anchor(card).left + BubbleWidth > width - EdgeMargin
    ensures HoverPlacement(card, width).left == width - 260
  {
  }

  /**
   * In a viewport narrower than 270 pixels both side tests can fire, and
   * the right-edge pin leaves the bubble hanging off the left edge.
   */
  lemma NarrowViewportBothPinsFire()
    ensures var card := Rect(0, 500, 0, 0);
      Anchor(card).left < EdgeMargin && Anchor(card).left + BubbleWidth > 100 - EdgeMargin &&
      HoverPlacement(card, 100).left == -160 && !FitsHorizontally(HoverPlacement(card, 100).left, 100)
  {
  }

  /** Tap placement is the anchor alone: it can leave the screen where hover would not. */
  lemma TapPlacementIsUnclamped()
    ensures var card := Rect(0, 50, 40, 40);
      Anchor(card) == Position(-105, -70) && HoverPlacement(card, 1000) == Position(10, 110)
  {
  }
}
