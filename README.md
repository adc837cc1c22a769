# Notification banner frames

A model of `BannerPositionFrame` from NotificationBanner. The component works out
two rectangles for a notification banner that slides in vertically from the top
or the bottom of a window:

- the **start frame** is off-screen, where the slide-in animation begins;
- the **end frame** is on-screen, where the banner comes to rest.

Its inputs are:

- the banner position (`Bottom` or `Top`);
- the banner's width and height;
- the window's width;
- the lower bound `maxY`;
- a stacking offset `finishYOffset`, which defaults to 0;
- optional edge insets, read as zero when absent.

Rules for the start frame:

- Its width is the banner width less the side insets, clamped to 570.
- It is centred in the window by that width alone.
- From the bottom it starts at `maxY`.
- From the top its origin y plus its height is 0, so a banner of non-negative height starts with its lower edge at 0.

Rules for the end frame:

- It keeps the start frame's horizontal extent and height.
- From the bottom it rests lifted off `maxY` by its height, the bottom inset and the offset.
- From the top it rests below the top inset by the offset.

Files:

- `geometry.dfy` (module `Geometry`) stands in for the host's rectangle and
  edge-inset types. `Rect` stores origin and size as constructed. Its accessors
  `Width`, `Height`, `MinX`, `MaxX`, `MinY` and `MaxY` return the values of the
  standardized rectangle (absolute size, smaller edge first), as the host's accessors do.
- `banner_position_frame.dfy` (module `BannerFrames`) holds the position enum and
  the two pure helpers `StartFrame` and `EndFrame`. It also holds `RestFrame`, the
  end frame as the initializer composes it, and the class `BannerPositionFrame`.
  Its constructor stores the start frame first, then computes the end frame from
  the stored start frame's `Width()`, `MinX()` and `Height()`.
- `banner_frame_properties.dfy` (module `BannerFrameProperties`) relates several
  computations: the slide is purely vertical, the offset moves only the rest frame,
  absent insets equal zero insets, side insets do not shift the centre, plus worked
  examples.

Arithmetic is over `real`. The source's helper `endFrame` reads `self.startFrame.height`
from the stored field. The pure `EndFrame` receives that value as an extra parameter,
`startHeight`, and the constructor passes the stored field.

The initializer passes the start frame's standardized `width` and `minX` to `endFrame`
(BannerPositionFrame.swift lines 53 and 55). `endFrame` copies the standardized
`startFrame.height` (lines 131 and 137). So the stored frames share `x` and `width` only
when the clamped width is non-negative. They share `height` only when `bannerHeight` is
non-negative. The standardized horizontal extents and heights always agree.
`RestFrame` states both the stored and the standardized form. `VerticalSlide` states
the standardized form for all inputs. `SlideByDistance` states the stored form for
non-negative sizes.

## Model

| member | source | states |
|---|---|---|
| Geometry.Min | NotificationBanner/Classes/BannerPositionFrame.swift:82 | the result is at most both arguments and equals one of them |
| Geometry.InsetsOrZero | NotificationBanner/Classes/BannerPositionFrame.swift:81 | given insets are used as they are; absent insets are zero on all four sides |
| Geometry.Rect.Width | NotificationBanner/Classes/BannerPositionFrame.swift:53 | the width the initializer reads is non-negative and equals the stored width or its negation |
| Geometry.Rect.MinX | NotificationBanner/Classes/BannerPositionFrame.swift:55 | the left edge the initializer reads is the lesser of the two vertical edges, and is the origin x when the width is non-negative |
| Geometry.Rect.Height | NotificationBanner/Classes/BannerPositionFrame.swift:131 | the height the end frame copies is non-negative and equals the stored height or its negation |
| BannerFrames.StartFrame | NotificationBanner/Classes/BannerPositionFrame.swift:72-102 | width is at most 570 and at most the banner width less the side insets, and equals one of the two; the left gap equals the right gap in the window; height is the banner height; from the bottom y is maxY; from the top origin y plus stored height is 0, and with a non-negative height the lower edge is at 0 |
| BannerFrames.EndFrame | NotificationBanner/Classes/BannerPositionFrame.swift:113-140 | the frame takes the given left edge, width and stored start height; from the bottom, y plus banner height, bottom inset and offset is maxY; from the top, y less the top inset is the offset |
| BannerFrames.RestFrame | NotificationBanner/Classes/BannerPositionFrame.swift:51-59 | for all inputs the rest frame has the start frame's left and right edges, width and height, and its height is the absolute banner height; with a non-negative width it has the start frame's origin x and width; with a non-negative height it has the start frame's height; y per position as in EndFrame; from the bottom its lower edge rests at maxY less bottom inset and offset |
| BannerFrames.BannerPositionFrame.constructor | NotificationBanner/Classes/BannerPositionFrame.swift:32-60 | stores StartFrame of the inputs as the start frame and RestFrame of the inputs as the end frame; offset defaults to 0; both frames have the same height, left edge and width |
| BannerFrameProperties.SlideDistance | NotificationBanner/Classes/BannerPositionFrame.swift:125-138 | for every banner width, window width and lower bound, the rest frame's y is the start frame's y plus the distance |
| BannerFrameProperties.VerticalSlide | NotificationBanner/Classes/BannerPositionFrame.swift:42-59 | for any inputs the standardized rest frame is the standardized start frame moved vertically only |
| BannerFrameProperties.SlideByDistance | NotificationBanner/Classes/BannerPositionFrame.swift:42-59 | with non-negative clamped width and height, the stored rest frame is the stored start frame moved down by SlideDistance |
| BannerFrameProperties.StackingOffsetMovesRestOnly | NotificationBanner/Classes/BannerPositionFrame.swift:125-138 | raising the offset by delta moves the rest frame by -delta (bottom) or +delta (top) and changes nothing else; the start frame does not take the offset |
| BannerFrameProperties.StackingOffsetPlacesAnywhere | NotificationBanner/Classes/BannerPositionFrame.swift:125-138 | every rest y is reached by some offset, and distinct offsets give distinct rest y |
| BannerFrameProperties.StackTwoBanners | NotificationBanner/Classes/BannerPositionFrame.swift:32-60 | two banners built with offsets o1 and o2 have equal start frames; their rest y differ by -(o2 - o1) from the bottom and by o2 - o1 from the top, and they differ exactly when the offsets do |
| BannerFrameProperties.AbsentInsetsAreZero | NotificationBanner/Classes/BannerPositionFrame.swift:81 | absent insets and all-zero insets give identical start and rest frames |
| BannerFrameProperties.SideInsetsDoNotShiftCentre | NotificationBanner/Classes/BannerPositionFrame.swift:81-83 | insets with the same left-plus-right sum give identical start frames, so an asymmetric inset does not move the centred banner |
| BannerFrameProperties.WideBannerClamped | NotificationBanner/Classes/BannerPositionFrame.swift:82 | a banner whose inset-reduced width is at least 570 is 570 wide in every window |
| BannerFrameProperties.BottomExample | NotificationBanner/Classes/BannerPositionFrame.swift:42-59 | 400x80 banner, window 400, maxY 800, no insets: start (0, 800, 400, 80), rest (0, 720, 400, 80) |
| BannerFrameProperties.TopExample | NotificationBanner/Classes/BannerPositionFrame.swift:42-59 | 80-high banner from the top, top inset 20, offset 10: start y is -80, rest y is 30 |

## Left out

- The `UIKit` import and the `@objc` and `Int` raw-value bridging of `BannerPosition` are left out. They are platform interop; `BannerPosition` is a plain two-constructor datatype.
- Floating-point behaviour of `CGFloat` is left out: NaN, infinities and rounding. The model computes over exact reals.
- The implicitly-unwrapped optional fields (`CGRect!`) are modelled as always-present fields. The end frame holds a default rectangle only inside the constructor, between its two assignments.
- `private(set)` is not enforced, because Dafny fields are publicly assignable. No member of the model assigns them after construction.
- The default value of `finishYOffset` on the private `endFrame` helper is left out. The initializer always passes it explicitly. The default on the initializer is modelled.
- The only part of Core Graphics modelled is standardization of negative sizes. Null and infinite rectangles are left out.
- Anything that consumes the frames is left out: the animation, the view hierarchy, and how `maxY`, `windowWidth` and `finishYOffset` are obtained. None of it is in this component.
