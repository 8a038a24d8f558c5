/** The vertical layout of the three text lines. Anchors are computed bottom
    up: the bottom line sits a fixed margin below the canvas height less its
    font size, and each line above sits one font size above the line below,
    tightened by a fixed slack. Every value is a whole number of pixels. */
module Layout {

  /** The canvas height the layout is computed for. */
  const HEIGHT: int := 720
  const MARGIN_LEFT: int := 6
  const MARGIN_BOTTOM: int := 10

  const SIZE_BOTTOM: int := 72
  const SIZE_MID: int := 148
  const SIZE_TOP: int := 96

  /** How much closer than a full font size the middle and top lines are placed. */
  const MID_SLACK: int := 34
  const TOP_SLACK: int := 24

  /** The vertical anchors of the bottom, middle and top lines. */
  datatype Anchors = Anchors(yBottom: int, yMid: int, yTop: int)

  /** The anchors for any canvas height, bottom margin and font sizes. The
      lines are stacked strictly upwards exactly when the middle font is
      taller than its slack and the top font taller than its own; neither the
      height, the margin nor the bottom font size matters. */
  function Place(height: int, marginBottom: int, sizeBottom: int, sizeMid: int, sizeTop: int): (a: Anchors)
    ensures a.yBottom + sizeBottom == height + marginBottom
    ensures a.yTop < a.yMid < a.yBottom <==> sizeMid > MID_SLACK && sizeTop > TOP_SLACK
  {
    var yBottom := height - sizeBottom + marginBottom;
    var yMid := yBottom - sizeMid + MID_SLACK;
    var yTop := yMid - sizeTop + TOP_SLACK;
    Anchors(yBottom, yMid, yTop)
  }

  /** The anchors for the generator's fixed height, margin and sizes. */
  function StandardAnchors(): (a: Anchors)
    ensures a == Anchors(658, 544, 472)
    ensures a.yTop < a.yMid < a.yBottom
  {
    Place(HEIGHT, MARGIN_BOTTOM, SIZE_BOTTOM, SIZE_MID, SIZE_TOP)
  }
}
