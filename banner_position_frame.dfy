/** Where a notification banner starts its slide-in animation and where it comes
    to rest. The banner enters vertically, from above the top edge of the window or
    from the window's lower bound, keeping its width and horizontal placement. */
module BannerFrames {
  import opened Geometry

  /** The edge of the window the banner slides in from and rests against. */
  datatype BannerPosition = Bottom | Top

  /** The widest a banner is ever drawn, whatever the window's width. */
  const MaxBannerWidth: real := 570.0

  /** The off-screen rectangle the slide-in animation starts from. The width is the
      banner's width less the side insets, clamped to MaxBannerWidth; the banner is
      centred in the window by that width alone, the insets taking no part in the
      centring. */
  function StartFrame(
    position: BannerPosition,
    bannerWidth: real,
    bannerHeight: real,
    windowWidth: real,
    maxY: real,
    edgeInsets: Option<Insets>
  ): (r: Rect)
    ensures r.sizeWidth <= MaxBannerWidth
    ensures r.sizeWidth <= bannerWidth - InsetsOrZero(edgeInsets).left - InsetsOrZero(edgeInsets).right
    ensures r.sizeWidth == MaxBannerWidth
         || r.sizeWidth == bannerWidth - InsetsOrZero(edgeInsets).left - InsetsOrZero(edgeInsets).right
    // the gap to the left of the banner equals the gap to its right
    ensures r.originX == windowWidth - (r.originX + r.sizeWidth)
    ensures r.sizeHeight == bannerHeight
    // from the bottom, the banner starts at the lower bound
    ensures position == Bottom ==> r.originY == maxY
    // from the top, the origin y plus the stored height is 0 ...
    ensures position == Top ==> r.originY + r.sizeHeight == 0.0
    // ... so a banner of non-negative height has its lower edge at the top of the window
    ensures position == Top && bannerHeight >= 0.0 ==> r.MaxY() == 0.0
  {
    var insets := InsetsOrZero(edgeInsets);
    var width := Min(bannerWidth - insets.left - insets.right, MaxBannerWidth);
    var x := (windowWidth - width) / 2.0;
    match position
    case Bottom => Rect(x, maxY, width, bannerHeight)
    case Top => Rect(x, -bannerHeight, width, bannerHeight)
  }

  /** The on-screen rectangle the banner rests in, built from a horizontal extent
      (minX, bannerWidth) and the height `startHeight` of the already stored start
      frame. The stacking offset pushes the banner away from its edge: upward from
      the lower bound, downward from the top. */
  function EndFrame(
    position: BannerPosition,
    bannerWidth: real,
    bannerHeight: real,
    minX: real,
    maxY: real,
    finishYOffset: real,
    edgeInsets: Option<Insets>,
    startHeight: real
  ): (r: Rect)
    ensures r.originX == minX && r.sizeWidth == bannerWidth && r.sizeHeight == startHeight
    // a bottom banner rests lifted off the lower bound by its height, the bottom inset and the offset
    ensures position == Bottom ==>
      r.originY + bannerHeight + InsetsOrZero(edgeInsets).bottom + finishYOffset == maxY
    // a top banner rests below the top inset by the offset
    ensures position == Top ==> r.originY - InsetsOrZero(edgeInsets).top == finishYOffset
  {
    var insets := InsetsOrZero(edgeInsets);
    match position
    case Bottom => Rect(minX, maxY - bannerHeight - insets.bottom - finishYOffset, bannerWidth, startHeight)
    case Top => Rect(minX, insets.top + finishYOffset, bannerWidth, startHeight)
  }

  /** The end frame as the initializer produces it: EndFrame given the start frame's
      standardized width, left edge and height. Whatever the inputs, the rest frame
      covers exactly the start frame's horizontal extent and has its height; when the
      clamped width and the banner height are non-negative it also has the start
      frame's origin x, width and height as stored. */
  function RestFrame(
    position: BannerPosition,
    bannerWidth: real,
    bannerHeight: real,
    windowWidth: real,
    maxY: real,
    finishYOffset: real,
    edgeInsets: Option<Insets>
  ): (r: Rect)
    ensures var s := StartFrame(position, bannerWidth, bannerHeight, windowWidth, maxY, edgeInsets);
      r.MinX() == s.MinX() && r.MaxX() == s.MaxX() && r.Width() == s.Width()
      && r.Height() == s.Height()
      && (s.sizeWidth >= 0.0 ==> r.originX == s.originX && r.sizeWidth == s.sizeWidth)
      && (bannerHeight >= 0.0 ==> r.sizeHeight == s.sizeHeight)
    ensures r.Height() == Abs(bannerHeight)
    ensures position == Bottom ==>
      r.originY == maxY - bannerHeight - InsetsOrZero(edgeInsets).bottom - finishYOffset
    ensures position == Top ==> r.originY == InsetsOrZero(edgeInsets).top + finishYOffset
    // a non-negative bottom banner's lower edge rests at the lower bound less the bottom inset and offset
    ensures position == Bottom && bannerHeight >= 0.0 ==>
      r.MaxY() == maxY - InsetsOrZero(edgeInsets).bottom - finishYOffset
  {
    var s := StartFrame(position, bannerWidth, bannerHeight, windowWidth, maxY, edgeInsets);
    EndFrame(position, s.Width(), bannerHeight, s.MinX(), maxY, finishYOffset, edgeInsets, s.Height())
  }

  /** The two frames of one banner, computed once when the banner is shown. */
  class BannerPositionFrame {
    var startFrame: Rect
    var endFrame: Rect

    /** Stores the start frame first; the end frame, left at its default until
        then, is computed from the stored start frame's standardized width, left
        edge and height. */
    constructor (
      bannerPosition: BannerPosition,
      bannerWidth: real,
      bannerHeight: real,
      windowWidth: real,
      maxY: real,
      finishYOffset: real := 0.0,
      edgeInsets: Option<Insets>
    )
      ensures startFrame == StartFrame(bannerPosition, bannerWidth, bannerHeight, windowWidth, maxY, edgeInsets)
      ensures endFrame == RestFrame(bannerPosition, bannerWidth, bannerHeight, windowWidth, maxY, finishYOffset, edgeInsets)
      ensures startFrame.Height() == endFrame.Height()
      ensures startFrame.MinX() == endFrame.MinX() && startFrame.Width() == endFrame.Width()
    {
      startFrame := StartFrame(bannerPosition, bannerWidth, bannerHeight, windowWidth, maxY, edgeInsets);
      new;
      endFrame := EndFrame(bannerPosition, startFrame.Width(), bannerHeight, startFrame.MinX(),
                           maxY, finishYOffset, edgeInsets, startFrame.Height());
    }
  }
}
