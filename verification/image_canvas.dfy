/** The renderer (src/components/ImageCanvas.tsx): where the logo goes, how
    large it is drawn, and the sequence of drawing commands one render issues. */
module ImageCanvas {
  import opened Wrappers
  import opened LogoSettings
  import opened LogoControls
  import opened Canvas

  /** Inset of edge and corner placements from the canvas border. */
  const Padding: real := 20.0

  /** Share of the canvas's smaller side that the logo's width may not exceed. */
  const MaxLogoShare: real := 0.3

  datatype Point = Point(x: real, y: real)

  datatype Size = Size(w: real, h: real)

  function Min(a: real, b: real): (m: real)
    ensures m <= a && m <= b && (m == a || m == b)
  {
    if a <= b then a else b
  }

  /** Horizontal offset of a logo `logoW` wide in a column of a canvas
      `canvasW` wide. */
  function ColumnX(col: Column, canvasW: real, logoW: real): real {
    match col
    case Left => Padding
    case Center => (canvasW - logoW) / 2.0
    case Right => canvasW - logoW - Padding
  }

  /** Vertical offset of a logo `logoH` high in a row of a canvas `canvasH`
      high. */
  function RowY(row: Row, canvasH: real, logoH: real): real {
    match row
    case Top => Padding
    case Middle => (canvasH - logoH) / 2.0
    case Bottom => canvasH - logoH - Padding
  }

  /** The nine cases of the placement switch. The column alone decides x and
      the row alone decides y. */
  function Place(a: Anchor, canvasW: real, canvasH: real, logoW: real, logoH: real): (p: Point)
    ensures p.x == ColumnX(ColumnOf(a), canvasW, logoW)
    ensures p.y == RowY(RowOf(a), canvasH, logoH)
  {
    match a
    case TopLeft => Point(Padding, Padding)
    case TopCenter => Point((canvasW - logoW) / 2.0, Padding)
    case TopRight => Point(canvasW - logoW - Padding, Padding)
    case MiddleLeft => Point(Padding, (canvasH - logoH) / 2.0)
    case MiddleCenter => Point((canvasW - logoW) / 2.0, (canvasH - logoH) / 2.0)
    case MiddleRight => Point(canvasW - logoW - Padding, (canvasH - logoH) / 2.0)
    case BottomLeft => Point(Padding, canvasH - logoH - Padding)
    case BottomCenter => Point((canvasW - logoW) / 2.0, canvasH - logoH - Padding)
    case BottomRight => Point(canvasW - logoW - Padding, canvasH - logoH - Padding)
  }

  /** The anchor the placement switch uses for a position: its own, or
      bottom-right for a string that is none of the nine values. */
  function EffectiveAnchor(position: Position): Anchor {
    match position
    case Named(a) => a
    case Unlisted(_) => BottomRight
  }

  /** Top-left corner of the logo for a position; a position that is none of
      the nine values falls through to the bottom-right placement. The
      function is total: no input is rejected and nothing is clamped. */
  function LogoPosition(canvasW: real, canvasH: real, logoW: real, logoH: real, position: Position): (p: Point)
    ensures p.x == ColumnX(ColumnOf(EffectiveAnchor(position)), canvasW, logoW)
    ensures p.y == RowY(RowOf(EffectiveAnchor(position)), canvasH, logoH)
    ensures position.Unlisted? ==> p == Point(canvasW - logoW - Padding, canvasH - logoH - Padding)
  {
    match position
    case Named(a) => Place(a, canvasW, canvasH, logoW, logoH)
    case Unlisted(_) => Place(BottomRight, canvasW, canvasH, logoW, logoH)
  }

  /** The switch on an anchor's string value places the logo at that anchor's
      column and row offsets. */
  lemma PositionOfAnchor(a: Anchor, canvasW: real, canvasH: real, logoW: real, logoH: real)
    ensures LogoPosition(canvasW, canvasH, logoW, logoH, PositionOf(Value(a)))
         == Point(ColumnX(ColumnOf(a), canvasW, logoW), RowY(RowOf(a), canvasH, logoH))
  {
    AnchorOfValue(Value(a));
  }

  /** The switch on a string that is none of the nine values places the logo
      exactly where "bottom-right" does. */
  lemma UnrecognisedIsBottomRight(canvasW: real, canvasH: real, logoW: real, logoH: real, value: string)
    requires AnchorOf(value).None?
    ensures LogoPosition(canvasW, canvasH, logoW, logoH, PositionOf(value))
         == LogoPosition(canvasW, canvasH, logoW, logoH, PositionOf(Value(BottomRight)))
  {
    PositionOfAnchor(BottomRight, canvasW, canvasH, logoW, logoH);
  }

  /** Centre placements leave equal margins on both sides; edge placements
      leave exactly the padding towards their own edge. */
  lemma Margins(a: Anchor, canvasW: real, canvasH: real, logoW: real, logoH: real)
    ensures var p := Place(a, canvasW, canvasH, logoW, logoH);
      && (ColumnOf(a) == Left ==> p.x == Padding)
      && (ColumnOf(a) == Center ==> p.x == canvasW - (p.x + logoW) && p.x + logoW / 2.0 == canvasW / 2.0)
      && (ColumnOf(a) == Right ==> canvasW - (p.x + logoW) == Padding)
      && (RowOf(a) == Top ==> p.y == Padding)
      && (RowOf(a) == Middle ==> p.y == canvasH - (p.y + logoH) && p.y + logoH / 2.0 == canvasH / 2.0)
      && (RowOf(a) == Bottom ==> canvasH - (p.y + logoH) == Padding)
  {
  }

  /** Nothing is clamped: a logo wider than the canvas less the padding puts
      right-column placements left of the canvas, and likewise for height and
      bottom-row placements. */
  lemma NoClamping(a: Anchor, canvasW: real, canvasH: real, logoW: real, logoH: real)
    ensures ColumnOf(a) == Right ==>
              (Place(a, canvasW, canvasH, logoW, logoH).x < 0.0 <==> logoW > canvasW - Padding)
    ensures RowOf(a) == Bottom ==>
              (Place(a, canvasW, canvasH, logoW, logoH).y < 0.0 <==> logoH > canvasH - Padding)
  {
  }

  /** Width at which the logo is drawn: the requested percentage of its
      natural width, but never more than 30% of the canvas's smaller side. */
  function LogoWidth(canvasW: real, canvasH: real, naturalW: real, size: real): (w: real)
    ensures w <= MaxLogoShare * canvasW && w <= MaxLogoShare * canvasH
    ensures w <= naturalW * size / 100.0
    ensures w == MaxLogoShare * canvasW || w == MaxLogoShare * canvasH || w == naturalW * size / 100.0
  {
    var logoScale := size / 100.0;
    var maxLogoSize := Min(canvasW, canvasH) * MaxLogoShare;
    Min(naturalW * logoScale, maxLogoSize)
  }

  /** Size at which the logo is drawn: its width as above, and the height
      that keeps the logo's own aspect ratio. */
  function LogoSize(canvasW: real, canvasH: real, naturalW: real, naturalH: real, size: real): (d: Size)
    requires naturalW > 0.0
    ensures d.w == LogoWidth(canvasW, canvasH, naturalW, size)
    ensures d.h * naturalW == naturalH * d.w
  {
    var logoW := LogoWidth(canvasW, canvasH, naturalW, size);
    var logoH := (naturalH / naturalW) * logoW;
    Size(logoW, logoH)
  }

  /** The drawn logo has the width above and the logo's own aspect ratio:
      drawn height over drawn width equals natural height over natural
      width. */
  lemma LogoSizeKeepsAspect(canvasW: real, canvasH: real, naturalW: real, naturalH: real, size: real)
    requires naturalW > 0.0
    ensures var d := LogoSize(canvasW, canvasH, naturalW, naturalH, size);
      && d.w == LogoWidth(canvasW, canvasH, naturalW, size)
      && d.h * naturalW == naturalH * d.w
  {
  }

  /** A larger size setting never gives a narrower logo. */
  lemma LogoWidthMonotone(canvasW: real, canvasH: real, naturalW: real, size1: real, size2: real)
    requires naturalW >= 0.0
    requires size1 <= size2
    ensures LogoWidth(canvasW, canvasH, naturalW, size1) <= LogoWidth(canvasW, canvasH, naturalW, size2)
  {
    var cap := Min(canvasW, canvasH) * MaxLogoShare;
    var scaled1 := naturalW * (size1 / 100.0);
    var scaled2 := naturalW * (size2 / 100.0);
    MulLeftMonotone(naturalW, size1 / 100.0, size2 / 100.0);
    MinMonotone(scaled1, scaled2, cap);
  }

  /** A larger size setting never draws a smaller logo. */
  lemma LogoSizeMonotone(canvasW: real, canvasH: real, naturalW: real, naturalH: real, size1: real, size2: real)
    requires naturalW > 0.0 && naturalH >= 0.0
    requires size1 <= size2
    ensures LogoSize(canvasW, canvasH, naturalW, naturalH, size1).w <= LogoSize(canvasW, canvasH, naturalW, naturalH, size2).w
    ensures LogoSize(canvasW, canvasH, naturalW, naturalH, size1).h <= LogoSize(canvasW, canvasH, naturalW, naturalH, size2).h
  {
    var w1 := LogoWidth(canvasW, canvasH, naturalW, size1);
    var w2 := LogoWidth(canvasW, canvasH, naturalW, size2);
    LogoWidthMonotone(canvasW, canvasH, naturalW, size1, size2);
    var ratio := naturalH / naturalW;
    MulLeftMonotone(ratio, w1, w2);
  }

  lemma MulLeftMonotone(k: real, a: real, b: real)
    requires 0.0 <= k && a <= b
    ensures k * a <= k * b
  {
  }

  lemma MinMonotone(a1: real, a2: real, b: real)
    requires a1 <= a2
    ensures Min(a1, b) <= Min(a2, b)
  {
  }

  /** The rectangle the logo occupies on a canvas the size of the main image:
      its drawn size, placed by the position setting. */
  function LogoRect(main: Image, logo: Image, s: Settings): (r: Rect)
    requires logo.naturalWidth > 0
    ensures r.w == LogoWidth(main.naturalWidth as real, main.naturalHeight as real, logo.naturalWidth as real, s.size)
    ensures r.h * (logo.naturalWidth as real) == (logo.naturalHeight as real) * r.w
    ensures r.x == ColumnX(ColumnOf(EffectiveAnchor(s.position)), main.naturalWidth as real, r.w)
    ensures r.y == RowY(RowOf(EffectiveAnchor(s.position)), main.naturalHeight as real, r.h)
  {
    var canvasW := main.naturalWidth as real;
    var canvasH := main.naturalHeight as real;
    var d := LogoSize(canvasW, canvasH, logo.naturalWidth as real, logo.naturalHeight as real, s.size);
    var p := LogoPosition(canvasW, canvasH, d.w, d.h, s.position);
    Rect(p.x, p.y, d.w, d.h)
  }

  /** Whether a render can run: the canvas element and its context exist and
      both images have loaded. */
  predicate Ready(canvas: Option<Surface>, main: Option<Image>, logo: Option<Image>) {
    canvas.Some? && main.Some? && logo.Some?
  }

  /** The drawing part of a render on canvas `c`: size the canvas to the main
      image, clear it, draw the main image at the origin, set the global alpha,
      draw the logo at `logoRect`, and set the global alpha back to 1. The
      result records that the main image went down fully opaque whatever the
      canvas held before, and that the logo went down under `alpha`, or fully
      opaque when `alpha` lies outside [0, 1]. */
  function Composite(c: Surface, main: Image, logo: Image, logoRect: Rect, alpha: real): (r: Surface)
    ensures r.width == main.naturalWidth && r.height == main.naturalHeight
    ensures r.globalAlpha == 1.0
    ensures var full := Rect(0.0, 0.0, main.naturalWidth as real, main.naturalHeight as real);
      r.ops == [Clear(full), Draw(main, full, 1.0),
                Draw(logo, logoRect, if 0.0 <= alpha <= 1.0 then alpha else 1.0)]
  {
    var c := Resize(c, main.naturalWidth, main.naturalHeight);
    var c := ClearRect(c, Rect(0.0, 0.0, c.width as real, c.height as real));
    var c := DrawImage(c, main, Rect(0.0, 0.0, main.naturalWidth as real, main.naturalHeight as real));
    var c := SetGlobalAlpha(c, alpha);
    var c := DrawImage(c, logo, logoRect);
    SetGlobalAlpha(c, 1.0)
  }

  /** One render. When the canvas or either image is missing it does
      nothing. Otherwise it composites the logo at its rectangle under alpha
      opacity/100. A zero-width logo is not guarded against by the renderer,
      so it is excluded here. */
  function DrawImages(canvas: Option<Surface>, main: Option<Image>, logo: Option<Image>, s: Settings): (r: Option<Surface>)
    requires Ready(canvas, main, logo) ==> logo.value.naturalWidth > 0
    ensures !Ready(canvas, main, logo) ==> r == canvas
    ensures Ready(canvas, main, logo) ==>
      && r.Some?
      && r.value.width == main.value.naturalWidth
      && r.value.height == main.value.naturalHeight
      && r.value.globalAlpha == 1.0
  {
    if !Ready(canvas, main, logo) then canvas
    else
      var rect := LogoRect(main.value, logo.value, s);
      Some(Composite(canvas.value, main.value, logo.value, rect, s.opacity / 100.0))
  }

  /** The commands a ready render issues: a clear of the whole canvas, the
      main image at its natural size at the origin under full opacity, then
      the logo at its rectangle under the opacity setting when that lies in
      [0, 100], and under full opacity otherwise. */
  lemma DrawImagesCommands(canvas: Surface, main: Image, logo: Image, s: Settings)
    requires logo.naturalWidth > 0
    ensures var r := DrawImages(Some(canvas), Some(main), Some(logo), s);
      var full := Rect(0.0, 0.0, main.naturalWidth as real, main.naturalHeight as real);
      var alpha := if 0.0 <= s.opacity <= 100.0 then s.opacity / 100.0 else 1.0;
      r == Some(Surface(main.naturalWidth, main.naturalHeight, 1.0,
                        [Clear(full), Draw(main, full, 1.0), Draw(logo, LogoRect(main, logo, s), alpha)]))
  {
  }

  /** With valid settings, the logo is drawn under alpha opacity/100, which
      lies in [0.1, 1]. */
  lemma LogoAlphaIsOpacity(canvas: Surface, main: Image, logo: Image, s: Settings)
    requires logo.naturalWidth > 0
    requires Valid(s)
    ensures var r := DrawImages(Some(canvas), Some(main), Some(logo), s);
      && r.Some? && |r.value.ops| == 3
      && r.value.ops[2].Draw?
      && r.value.ops[2].alpha == s.opacity / 100.0
      && 0.1 <= r.value.ops[2].alpha <= 1.0
  {
    DrawImagesCommands(canvas, main, logo, s);
  }

  /** A render does not depend on what the canvas held before, so rendering
      again with the same inputs changes nothing. */
  lemma DrawImagesIsStateless(c1: Surface, c2: Surface, main: Image, logo: Image, s: Settings)
    requires logo.naturalWidth > 0
    ensures DrawImages(Some(c1), Some(main), Some(logo), s) == DrawImages(Some(c2), Some(main), Some(logo), s)
    ensures var r := DrawImages(Some(c1), Some(main), Some(logo), s);
      DrawImages(r, Some(main), Some(logo), s) == r
  {
  }

  /** A 200 by 100 logo at 50% in the top-right corner of an 800 by 600 image
      is drawn 100 by 50 at (680, 20). */
  lemma WorkedExample()
    ensures var main := Image("main", 800, 600);
      var logo := Image("logo", 200, 100);
      var s := Settings(50.0, 100.0, PositionOf("top-right"));
      LogoRect(main, logo, s) == Rect(680.0, 20.0, 100.0, 50.0)
  {
    assert PositionOf("top-right") == Named(TopRight) by {
      AnchorOfValue(Value(TopRight));
    }
    assert LogoSize(800.0, 600.0, 200.0, 100.0, 50.0) == Size(100.0, 50.0);
  }

  /** The nine placements of a 100 by 50 logo on a 1000 by 800 canvas. */
  lemma PlacementTable(a: Anchor)
    ensures LogoPosition(1000.0, 800.0, 100.0, 50.0, PositionOf(Value(a))) ==
      match a
      case TopLeft => Point(20.0, 20.0)
      case TopCenter => Point(450.0, 20.0)
      case TopRight => Point(880.0, 20.0)
      case MiddleLeft => Point(20.0, 375.0)
      case MiddleCenter => Point(450.0, 375.0)
      case MiddleRight => Point(880.0, 375.0)
      case BottomLeft => Point(20.0, 730.0)
      case BottomCenter => Point(450.0, 730.0)
      case BottomRight => Point(880.0, 730.0)
  {
    PositionOfAnchor(a, 1000.0, 800.0, 100.0, 50.0);
  }
}
