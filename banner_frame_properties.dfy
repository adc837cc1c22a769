/** Properties that relate several computations of a banner's frames: the slide is
    purely vertical, the stacking offset moves only the rest frame, absent insets are
    zero insets, and the side insets narrow the banner without moving its centre. */
module BannerFrameProperties {
  import opened Geometry
  import opened BannerFrames

  /** How far the banner travels downward from its start frame to its rest frame: the
      rest y less the start y, whatever the banner's width, the window's width and the
      lower bound. */
  function SlideDistance(
    position: BannerPosition,
    bannerHeight: real,
    finishYOffset: real,
    edgeInsets: Option<Insets>
  ): (d: real)
    ensures forall bannerWidth: real, windowWidth: real, maxY: real ::
      RestFrame(position, bannerWidth, bannerHeight, windowWidth, maxY, finishYOffset, edgeInsets).originY
      == StartFrame(position, bannerWidth, bannerHeight, windowWidth, maxY, edgeInsets).originY + d
  {
    match position
    case Bottom => -(bannerHeight + InsetsOrZero(edgeInsets).bottom + finishYOffset)
    case Top => bannerHeight + InsetsOrZero(edgeInsets).top + finishYOffset
  }

  /** For any inputs, the rest frame covers the same points as the start frame moved
      vertically: horizontal placement, width and height never change during the slide. */
  lemma VerticalSlide(
    position: BannerPosition,
    bannerWidth: real,
    bannerHeight: real,
    windowWidth: real,
    maxY: real,
    finishYOffset: real,
    edgeInsets: Option<Insets>
  )
    ensures exists dy: real ::
      RestFrame(position, bannerWidth, bannerHeight, windowWidth, maxY, finishYOffset, edgeInsets).Standardized()
      == StartFrame(position, bannerWidth, bannerHeight, windowWidth, maxY, edgeInsets).Standardized().Offset(0.0, dy)
  {
    var s := StartFrame(position, bannerWidth, bannerHeight, windowWidth, maxY, edgeInsets);
    var r := RestFrame(position, bannerWidth, bannerHeight, windowWidth, maxY, finishYOffset, edgeInsets);
    var dy := r.MinY() - s.MinY();
    assert r.Standardized() == s.Standardized().Offset(0.0, dy);
  }

  /** When the clamped width and the banner height are non-negative, the rest frame as
      stored is the start frame as stored moved down by SlideDistance. */
  lemma SlideByDistance(
    position: BannerPosition,
    bannerWidth: real,
    bannerHeight: real,
    windowWidth: real,
    maxY: real,
    finishYOffset: real,
    edgeInsets: Option<Insets>
  )
    requires bannerWidth - InsetsOrZero(edgeInsets).left - InsetsOrZero(edgeInsets).right >= 0.0
    requires bannerHeight >= 0.0
    ensures RestFrame(position, bannerWidth, bannerHeight, windowWidth, maxY, finishYOffset, edgeInsets)
      == StartFrame(position, bannerWidth, bannerHeight, windowWidth, maxY, edgeInsets)
         .Offset(0.0, SlideDistance(position, bannerHeight, finishYOffset, edgeInsets))
  {
  }

  /** Changing only the stacking offset leaves the start frame alone (it is not an
      input of StartFrame) and moves the rest frame vertically by the change: up for
      a bottom banner, down for a top banner. */
  lemma StackingOffsetMovesRestOnly(
    position: BannerPosition,
    bannerWidth: real,
    bannerHeight: real,
    windowWidth: real,
    maxY: real,
    finishYOffset: real,
    delta: real,
    edgeInsets: Option<Insets>
  )
    ensures RestFrame(position, bannerWidth, bannerHeight, windowWidth, maxY, finishYOffset + delta, edgeInsets)
      == RestFrame(position, bannerWidth, bannerHeight, windowWidth, maxY, finishYOffset, edgeInsets)
         .Offset(0.0, if position == Bottom then -delta else delta)
  {
  }

  /** Every rest position along the vertical axis is reached by exactly one stacking
      offset. */
  lemma StackingOffsetPlacesAnywhere(
    position: BannerPosition,
    bannerWidth: real,
    bannerHeight: real,
    windowWidth: real,
    maxY: real,
    edgeInsets: Option<Insets>,
    restY: real
  )
    ensures exists finishYOffset: real ::
      RestFrame(position, bannerWidth, bannerHeight, windowWidth, maxY, finishYOffset, edgeInsets).originY == restY
    ensures forall o1: real, o2: real ::
      RestFrame(position, bannerWidth, bannerHeight, windowWidth, maxY, o1, edgeInsets).originY
      == RestFrame(position, bannerWidth, bannerHeight, windowWidth, maxY, o2, edgeInsets).originY
      ==> o1 == o2
  {
    var insets := InsetsOrZero(edgeInsets);
    var o := if position == Bottom then maxY - bannerHeight - insets.bottom - restY else restY - insets.top;
    assert RestFrame(position, bannerWidth, bannerHeight, windowWidth, maxY, o, edgeInsets).originY == restY;
  }

  /** Two banners built from the same inputs except for their stacking offsets share
      their start frame, and their rest frames lie the difference of the offsets apart:
      a later banner with a larger offset rests above a bottom banner and below a top one. */
  method StackTwoBanners(
    position: BannerPosition,
    bannerWidth: real,
    bannerHeight: real,
    windowWidth: real,
    maxY: real,
    edgeInsets: Option<Insets>,
    firstOffset: real,
    secondOffset: real
  ) returns (first: BannerPositionFrame, second: BannerPositionFrame)
    ensures first.startFrame == second.startFrame
    ensures position == Bottom ==>
      second.endFrame.originY == first.endFrame.originY - (secondOffset - firstOffset)
    ensures position == Top ==>
      second.endFrame.originY == first.endFrame.originY + (secondOffset - firstOffset)
    ensures firstOffset != secondOffset <==> first.endFrame.originY != second.endFrame.originY
  {
    first := new BannerPositionFrame(position, bannerWidth, bannerHeight, windowWidth, maxY, firstOffset, edgeInsets);
    second := new BannerPositionFrame(position, bannerWidth, bannerHeight, windowWidth, maxY, secondOffset, edgeInsets);
  }

  /** Absent insets and all-zero insets give the same start and rest frames. */
  lemma AbsentInsetsAreZero(
    position: BannerPosition,
    bannerWidth: real,
    bannerHeight: real,
    windowWidth: real,
    maxY: real,
    finishYOffset: real
  )
    ensures StartFrame(position, bannerWidth, bannerHeight, windowWidth, maxY, None)
         == StartFrame(position, bannerWidth, bannerHeight, windowWidth, maxY, Some(ZeroInsets))
    ensures RestFrame(position, bannerWidth, bannerHeight, windowWidth, maxY, finishYOffset, None)
         == RestFrame(position, bannerWidth, bannerHeight, windowWidth, maxY, finishYOffset, Some(ZeroInsets))
  {
  }

  /** The side insets enter the start frame only through their sum: shifting inset
      from one side to the other does not move the banner, which stays centred in
      the window. */
  lemma SideInsetsDoNotShiftCentre(
    position: BannerPosition,
    bannerWidth: real,
    bannerHeight: real,
    windowWidth: real,
    maxY: real,
    i1: Insets,
    i2: Insets
  )
    requires i1.left + i1.right == i2.left + i2.right
    ensures StartFrame(position, bannerWidth, bannerHeight, windowWidth, maxY, Some(i1))
         == StartFrame(position, bannerWidth, bannerHeight, windowWidth, maxY, Some(i2))
  {
  }

  /** The width clamp does not depend on the window: a banner wider than the clamp is
      drawn at the clamp's width in every window. */
  lemma WideBannerClamped(
    position: BannerPosition,
    bannerWidth: real,
    bannerHeight: real,
    windowWidth: real,
    maxY: real,
    edgeInsets: Option<Insets>
  )
    requires bannerWidth - InsetsOrZero(edgeInsets).left - InsetsOrZero(edgeInsets).right >= MaxBannerWidth
    ensures StartFrame(position, bannerWidth, bannerHeight, windowWidth, maxY, edgeInsets).sizeWidth == MaxBannerWidth
  {
  }

  /** A 400-wide, 80-high banner from the bottom of a 400-wide window with lower bound
      800 and no insets starts just below the bound and rests 80 above it. */
  lemma BottomExample()
    ensures StartFrame(Bottom, 400.0, 80.0, 400.0, 800.0, None) == Rect(0.0, 800.0, 400.0, 80.0)
    ensures RestFrame(Bottom, 400.0, 80.0, 400.0, 800.0, 0.0, None) == Rect(0.0, 720.0, 400.0, 80.0)
  {
  }

  /** The same banner from the top, with a top inset of 20 and a stacking offset of 10,
      starts at -80 and rests at 30. */
  lemma TopExample()
    ensures StartFrame(Top, 400.0, 80.0, 400.0, 800.0, Some(Insets(20.0, 0.0, 0.0, 0.0))).originY == -80.0
    ensures RestFrame(Top, 400.0, 80.0, 400.0, 800.0, 10.0, Some(Insets(20.0, 0.0, 0.0, 0.0))).originY == 30.0
  {
  }
}
